/** Look scopes on their way into a copy: a planner that keeps them apart, and mappings that do not. */
module BibleScopes {
  import opened Wrappers
  import opened Ids
  import opened Rows
  import opened BibleContent
  import opened BibleHistory
  import opened BibleRename
  import opened BibleRemap
  import opened BibleManifest

  // The script planner.

  /** A scope with its episode and its scene under names derived from the job. */
  function PlannedScope(f: Id -> Id, s: LookScope): LookScope {
    LookScope(f(s.episode), MapOption(f, s.scene))
  }

  function PlannedScopes(f: Id -> Id, ss: seq<LookScope>): (r: seq<ScopeMapping>)
    ensures |r| == |ss| && forall i :: 0 <= i < |ss| ==> r[i] == ScopeMapping(ss[i], PlannedScope(f, ss[i]))
  {
    seq(|ss|, i requires 0 <= i < |ss| => ScopeMapping(ss[i], PlannedScope(f, ss[i])))
  }

  lemma PlannedMap(f: Id -> Id, ss: seq<LookScope>)
    ensures forall s | s in ScopeMap(PlannedScopes(f, ss)) :: ScopeMap(PlannedScopes(f, ss))[s] == PlannedScope(f, s)
  {
    var ms := PlannedScopes(f, ss);
    ScopeMapHolds(ms);
    forall s | s in ScopeMap(ms) ensures ScopeMap(ms)[s] == PlannedScope(f, s) {
      var i :| 0 <= i < |ms| && ms[i] == ScopeMapping(s, ScopeMap(ms)[s]);
    }
  }

  lemma PlannedApart(f: Id -> Id, m: Names, ss: seq<LookScope>)
    requires Renaming(f) && ScopesOk(ss) && forall s | s in ss :: m.Scope(s) == PlannedScope(f, s)
    ensures ScopesDistinct(RenameScopes(m, ss))
  {
    var r := RenameScopes(m, ss);
    forall i, j | 0 <= i < j < |r| ensures KeyOf(r[i]) != KeyOf(r[j]) {
      assert ss[i] in ss && ss[j] in ss && KeyOf(ss[i]) != KeyOf(ss[j]);
    }
  }

  /** Scopes planned by injective names stay apart, so that a copy never fails over them. */
  lemma PlannedScopesKept(f: Id -> Id, m: Names, h: History, ss: seq<LookScope>, org: Id, project: Id)
    requires Renaming(f) && ValidHistory(h, org, project)
    requires ScopesAccepted(h, PlannedScopes(f, ss)) && m.scopes == ScopeMap(PlannedScopes(f, ss))
    ensures ScopesKept(m, h)
  {
    PlannedMap(f, ss);
    forall v | v in h.versions ensures ScopesStayDistinct(m, v.body) {
      assert VersionRowOk(Heads(h), LookRows(h), v, org, project);
      if v.body.CharacterBody? {
        forall l | l in v.body.character.looks ensures ScopesDistinct(RenameScopes(m, l.appliesTo)) {
          assert LookOk(l);
          forall s | s in l.appliesTo ensures m.Scope(s) == PlannedScope(f, s) {
            assert s in BodyScopes(v.body) && s in LookScopes(h);
          }
          PlannedApart(f, m, l.appliesTo);
        }
      }
    }
  }

  // Mappings that send two scopes to one.

  const ORG: Id := 1
  const SOURCE: Id := 1
  const SCOPES := [LookScope(10, None), LookScope(11, None)]
  const WORN := Look(3, "worn", "", true, SCOPES, [])
  const BODY := CharacterBody(CharacterContent(Labels("name", [], []), [WORN], None))
  const VERSION := Version(2, 1, ORG, SOURCE, Character, 1, None, 1, 1, Manual, None, DigestOf(BODY), BODY)

  /** One character, with one look that it wears in two episodes. */
  const TWO_EPISODES := History(
    [Head(1, ORG, SOURCE, Character, 1, 2, None, None, false, 1, 1)], [VERSION], [LookRow(3, 1, 1)], [], [], [])

  /** Both episodes become the same one. */
  const INTO_ONE := [ScopeMapping(SCOPES[0], LookScope(20, None)), ScopeMapping(SCOPES[1], LookScope(20, None))]

  lemma WornIsValid()
    ensures VERSION.Valid()
  {
    assert OnlyDefault([WORN], 0);
    assert LookOk(WORN);
  }

  lemma OneRow<T>(x: T, id: T -> Id)
    ensures Index([x], id) == map[id(x) := x]
  {
    assert [x][..0] == [];
  }

  lemma TwoEpisodesTables()
    ensures Heads(TWO_EPISODES) == map[1 := TWO_EPISODES.heads[0]] && Versions(TWO_EPISODES) == map[2 := VERSION]
    ensures LookRows(TWO_EPISODES) == map[3 := TWO_EPISODES.looks[0]] && Redirects(TWO_EPISODES) == map[]
    ensures AllIds(TWO_EPISODES) == [1, 3, 2]
  {
    OneRow(TWO_EPISODES.heads[0], HeadId);
    OneRow(VERSION, VersionId);
    OneRow(TWO_EPISODES.looks[0], LookRowId);
  }

  lemma TwoEpisodesValid()
    ensures ValidHistory(TWO_EPISODES, ORG, SOURCE)
  {
    WornIsValid();
    TwoEpisodesTables();
    hide Index, Heads, Versions, LookRows, Redirects, AllIds, Version.Valid;
    assert WORN in VERSION.Looks();
    assert 3 in UsedLooks(TWO_EPISODES.versions);
    assert Keys(TWO_EPISODES.redirects, LinkSource) == [];
  }

  lemma IntoOneAccepted()
    ensures MappingsAccepted(TWO_EPISODES, [], INTO_ONE)
    ensures ScopeMap(INTO_ONE) == map[SCOPES[0] := LookScope(20, None), SCOPES[1] := LookScope(20, None)]
  {
    assert INTO_ONE[..1] == [INTO_ONE[0]];
    assert ScopeMap([INTO_ONE[0]]) == map[SCOPES[0] := LookScope(20, None)];
    assert BodyFacts(BODY) == {};
    assert MediaFacts(TWO_EPISODES) == {};
    assert BodyScopes(BODY) == {SCOPES[0], SCOPES[1]} by {
      assert WORN in BODY.character.looks && SCOPES[0] in WORN.appliesTo && SCOPES[1] in WORN.appliesTo;
    }
    assert LookScopes(TWO_EPISODES) == {SCOPES[0], SCOPES[1]} by {
      assert VERSION in TWO_EPISODES.versions;
    }
  }

  /** A valid history and accepted mappings whose copy is refused over scopes, whatever the new identities are. */
  lemma AcceptedScopesCollide(b: Binding, owned: Id -> Id)
    ensures ValidHistory(TWO_EPISODES, ORG, SOURCE) && MappingsAccepted(TWO_EPISODES, [], INTO_ONE)
    ensures !ScopesKept(NamesOf(b, owned, [], INTO_ONE), TWO_EPISODES)
  {
    TwoEpisodesValid();
    IntoOneAccepted();
    var m := NamesOf(b, owned, [], INTO_ONE);
    assert VERSION in TWO_EPISODES.versions && WORN in BODY.character.looks;
    hide ValidHistory, MappingsAccepted, ScopeMap;
    var r := RenameScopes(m, SCOPES);
    assert KeyOf(r[0]) == KeyOf(r[1]);
  }
}
