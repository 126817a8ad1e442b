/** ResolveCopyCharacters: carrying character references of other modules through a project copy. */
module BibleCharacters {
  import opened Wrappers
  import opened Ids
  import opened Rows
  import opened BibleContent
  import opened BibleHistory
  import opened BibleRename
  import opened BibleRemap
  import opened BibleValidator
  import opened BibleManifest

  /** A reference to a character, pinned to one version or not. */
  datatype Pin = Pin(character: Id, version: Option<Id>)

  datatype PinMapping = PinMapping(source: Pin, target: Pin)

  /** How requests are told apart: no pin counts as the nil version. */
  function PinKey(p: Pin): (Id, Id) {
    (p.character, if p.version.Some? then p.version.value else NIL)
  }

  /** Looking up a missing key gives the nil identity. */
  function Get(m: map<Id, Id>, k: Id): Id {
    if k in m then m[k] else NIL
  }

  function CharacterMap(ms: seq<Mapping>): map<Id, Id> {
    if ms == [] then map[] else
      var front, last := CharacterMap(ms[..|ms| - 1]), ms[|ms| - 1];
      if last.kind == Character then front[last.source := last.target] else front
  }

  /** `id` is a character version of `character` that was confirmed at some time. */
  predicate ConfirmedVersion(h: History, id: Id, character: Id) {
    && (exists v | v in h.versions :: v.id == id && v.kind == Character && v.entry == character)
    && (exists c | c in h.confirmations :: c.kind == Character && c.version == id)
  }

  predicate PinAccepted(x: Manifest, p: Pin) {
    && p.character != NIL && Get(CharacterMap(x.identities), p.character) != NIL
    && (p.version.Some? ==>
          && p.version.value != NIL
          && ConfirmedVersion(x.source, p.version.value, p.character)
          && Get(CharacterMap(x.versions), p.version.value) != NIL)
  }

  ghost predicate PinsAccepted(x: Manifest, ps: seq<Pin>) {
    && (forall i :: 0 <= i < |ps| ==> PinAccepted(x, ps[i]))
    && (forall i, j :: 0 <= i < j < |ps| ==> PinKey(ps[i]) != PinKey(ps[j]))
  }

  function PinTarget(x: Manifest, p: Pin): Pin {
    Pin(Get(CharacterMap(x.identities), p.character),
        match p.version case None => None case Some(v) => Some(Get(CharacterMap(x.versions), v)))
  }

  method BuildCharacterMap(ms: seq<Mapping>) returns (r: map<Id, Id>)
    ensures r == CharacterMap(ms)
  {
    r := map[];
    for i := 0 to |ms|
      invariant r == CharacterMap(ms[..i])
    {
      assert ms[..i + 1][..i] == ms[..i];
      if ms[i].kind == Character {
        r := r[ms[i].source := ms[i].target];
      }
    }
    assert ms[..|ms|] == ms;
  }

  predicate IsOwned(v: Version, k: Id, e: Id) {
    v.id == k && v.kind == Character && v.entry == e
  }

  /** `owners` is the character of each character version, `confirmed` the confirmed ones. */
  ghost predicate ReadFrom(h: History, owners: map<Id, Id>, confirmed: set<Id>) {
    && (forall k | k in owners :: exists v | v in h.versions :: IsOwned(v, k, owners[k]))
    && (forall v | v in h.versions && v.kind == Character :: v.id in owners && owners[v.id] == v.entry)
    && (forall k :: k in confirmed <==> exists c | c in h.confirmations :: c.kind == Character && c.version == k)
  }

  method BuildOwners(versions: seq<Version>) returns (owners: map<Id, Id>)
    requires NoDup(Keys(versions, VersionId))
    ensures forall k | k in owners :: exists v | v in versions :: IsOwned(v, k, owners[k])
    ensures forall v | v in versions && v.kind == Character :: v.id in owners && owners[v.id] == v.entry
  {
    owners := map[];
    for i := 0 to |versions|
      invariant forall k | k in owners :: exists j :: 0 <= j < i && IsOwned(versions[j], k, owners[k])
      invariant forall j :: 0 <= j < i && versions[j].kind == Character ==>
                  versions[j].id in owners && owners[versions[j].id] == versions[j].entry
    {
      assert forall j :: 0 <= j < i ==> Keys(versions, VersionId)[j] != Keys(versions, VersionId)[i];
      if versions[i].kind == Character {
        assert IsOwned(versions[i], versions[i].id, versions[i].entry);
        owners := owners[versions[i].id := versions[i].entry];
      }
    }
  }

  method BuildConfirmed(cs: seq<Confirmation>) returns (confirmed: set<Id>)
    ensures forall k :: k in confirmed <==> exists c | c in cs :: c.kind == Character && c.version == k
  {
    confirmed := {};
    for i := 0 to |cs|
      invariant forall k :: k in confirmed <==> exists j :: 0 <= j < i && cs[j].kind == Character && cs[j].version == k
    {
      if cs[i].kind == Character {
        confirmed := confirmed + {cs[i].version};
      }
    }
  }

  method ReadHistory(h: History) returns (owners: map<Id, Id>, confirmed: set<Id>)
    requires NoDup(Keys(h.versions, VersionId))
    ensures ReadFrom(h, owners, confirmed)
  {
    owners := BuildOwners(h.versions);
    confirmed := BuildConfirmed(h.confirmations);
  }

  lemma LookedUp(h: History, owners: map<Id, Id>, confirmed: set<Id>, id: Id, character: Id)
    requires ReadFrom(h, owners, confirmed) && character != NIL
    ensures ConfirmedVersion(h, id, character) <==> id in confirmed && Get(owners, id) == character
  {
    if id in confirmed && Get(owners, id) == character {
      var v :| v in h.versions && IsOwned(v, id, owners[id]);
      assert v.id == id && v.kind == Character && v.entry == character;
    }
  }

  method ResolvePin(
    x: Manifest, identities: map<Id, Id>, versions: map<Id, Id>, owners: map<Id, Id>, confirmed: set<Id>, p: Pin)
    returns (ok: bool, target: Pin)
    requires identities == CharacterMap(x.identities) && versions == CharacterMap(x.versions)
    requires ReadFrom(x.source, owners, confirmed)
    ensures ok == PinAccepted(x, p)
    ensures ok ==> target == PinTarget(x, p)
  {
    hide CharacterMap, ReadFrom, ConfirmedVersion;
    if p.character == NIL || Get(identities, p.character) == NIL {
      return false, p;
    }
    target := Pin(identities[p.character], None);
    if p.version.Some? {
      var v := p.version.value;
      LookedUp(x.source, owners, confirmed, v, p.character);
      if v == NIL || v !in confirmed || Get(owners, v) != p.character || Get(versions, v) == NIL {
        return false, p;
      }
      target := target.(version := Some(versions[v]));
    }
    return true, target;
  }

  lemma NextPin(x: Manifest, ps: seq<Pin>, i: nat)
    requires i < |ps| && PinsAccepted(x, ps[..i])
    ensures PinsAccepted(x, ps[..i + 1]) <==>
              PinAccepted(x, ps[i]) && forall j :: 0 <= j < i ==> PinKey(ps[j]) != PinKey(ps[i])
    ensures PinsAccepted(x, ps) ==> PinsAccepted(x, ps[..i + 1])
  {
    hide PinAccepted, PinKey;
    var front, more := ps[..i], ps[..i + 1];
    assert forall j :: 0 <= j < i ==> more[j] == front[j];
    if PinsAccepted(x, more) {
      assert forall j :: 0 <= j < i ==> PinKey(more[j]) != PinKey(more[i]);
    }
  }

  method ResolvePins(
    x: Manifest, identities: map<Id, Id>, versions: map<Id, Id>, owners: map<Id, Id>, confirmed: set<Id>,
    requested: seq<Pin>)
    returns (ok: bool, result: seq<PinMapping>)
    requires identities == CharacterMap(x.identities) && versions == CharacterMap(x.versions)
    requires ReadFrom(x.source, owners, confirmed)
    ensures ok == PinsAccepted(x, requested)
    ensures ok ==> |result| == |requested|
    ensures ok ==>
              forall i :: 0 <= i < |requested| ==> result[i] == PinMapping(requested[i], PinTarget(x, requested[i]))
  {
    hide CharacterMap, PinsAccepted, PinAccepted, PinTarget, ReadFrom;
    result := [];
    var seen := {};
    assert PinsAccepted(x, requested[..0]) by {
      NoPins(x, requested[..0]);
    }
    for i := 0 to |requested|
      invariant PinsAccepted(x, requested[..i])
      invariant seen == set j | 0 <= j < i :: PinKey(requested[j])
      invariant |result| == i
      invariant forall j :: 0 <= j < i ==> result[j] == PinMapping(requested[j], PinTarget(x, requested[j]))
    {
      NextPin(x, requested, i);
      if PinKey(requested[i]) in seen {
        return false, [];
      }
      seen := seen + {PinKey(requested[i])};
      var known, target := ResolvePin(x, identities, versions, owners, confirmed, requested[i]);
      if !known {
        return false, [];
      }
      result := result + [PinMapping(requested[i], target)];
    }
    assert requested[..|requested|] == requested;
    return true, result;
  }

  method ResolveCopyCharacters(x: Manifest, requested: seq<Pin>) returns (r: Result<seq<PinMapping>, CopyError>)
    ensures r == Failure(CorruptSource) <==> !ValidHistory(x.source, x.binding.org, x.binding.source)
    ensures r.Success? <==> ValidHistory(x.source, x.binding.org, x.binding.source) && PinsAccepted(x, requested)
    ensures r.Success? ==> |r.value| == |requested|
    ensures r.Success? ==>
              forall i :: 0 <= i < |requested| ==> r.value[i] == PinMapping(requested[i], PinTarget(x, requested[i]))
  {
    var checked := ValidateCopyHistory(x.source, x.binding.org, x.binding.source);
    if checked.Failure? {
      return Failure(CorruptSource);
    }
    assert NoDup(Keys(x.source.versions, VersionId)) by {
      TableIds(x.source);
    }
    hide ValidHistory, CharacterMap, PinsAccepted, PinTarget, ReadFrom;
    var identities := BuildCharacterMap(x.identities);
    var versions := BuildCharacterMap(x.versions);
    var owners, confirmed := ReadHistory(x.source);
    var ok, result := ResolvePins(x, identities, versions, owners, confirmed, requested);
    return if ok then Success(result) else Failure(Unavailable);
  }

  lemma NoPins(x: Manifest, ps: seq<Pin>)
    requires ps == []
    ensures PinsAccepted(x, ps)
  {
  }

  // What that means for a manifest made by RemapProjectHistory.

  lemma {:induction false} CharacterMapHolds(ms: seq<Mapping>, f: Id -> Id)
    requires forall i :: 0 <= i < |ms| ==> ms[i].target == f(ms[i].source)
    ensures forall k :: k in CharacterMap(ms) <==>
              exists i :: 0 <= i < |ms| && ms[i].kind == Character && ms[i].source == k
    ensures forall k | k in CharacterMap(ms) :: CharacterMap(ms)[k] == f(k)
  {
    if ms != [] {
      var front, n := ms[..|ms| - 1], |ms| - 1;
      CharacterMapHolds(front, f);
      forall k
        ensures k in CharacterMap(ms) <==> exists i :: 0 <= i < |ms| && ms[i].kind == Character && ms[i].source == k
      {
        if k in CharacterMap(front) {
          var i :| 0 <= i < n && front[i].kind == Character && front[i].source == k;
          assert ms[i].source == k && ms[i].kind == Character;
        }
        if i :| 0 <= i < |ms| && ms[i].kind == Character && ms[i].source == k {
          assert i < n ==> front[i].source == k;
        }
      }
    }
  }

  /** The history knows the character, and the pinned version is a confirmed version of it. */
  predicate KnownPin(h: History, p: Pin) {
    && (exists y | y in h.heads :: y.id == p.character && y.kind == Character)
    && (p.version.Some? ==> ConfirmedVersion(h, p.version.value, p.character))
  }

  function RenamePin(m: Names, p: Pin): Pin {
    Pin(m.owned(p.character), MapOption(m.owned, p.version))
  }

  lemma HeadMapping(m: Names, x: Manifest, id: Id)
    requires Mapped(m, x.source, x.identities, x.versions)
    ensures id in CharacterMap(x.identities) <==> exists y | y in x.source.heads :: y.id == id && y.kind == Character
    ensures id in CharacterMap(x.identities) ==> CharacterMap(x.identities)[id] == m.owned(id)
  {
    CharacterMapHolds(x.identities, m.owned);
    hide CharacterMap;
    if id in CharacterMap(x.identities) {
      var i :| 0 <= i < |x.identities| && x.identities[i].kind == Character && x.identities[i].source == id;
      assert x.source.heads[i] in x.source.heads;
    }
    if y :| y in x.source.heads && y.id == id && y.kind == Character {
      var i :| 0 <= i < |x.source.heads| && x.source.heads[i] == y;
      assert x.identities[i].source == id;
    }
  }

  lemma VersionMapping(m: Names, x: Manifest, id: Id, character: Id)
    requires Mapped(m, x.source, x.identities, x.versions) && ConfirmedVersion(x.source, id, character)
    ensures id in CharacterMap(x.versions) && CharacterMap(x.versions)[id] == m.owned(id)
  {
    CharacterMapHolds(x.versions, m.owned);
    hide CharacterMap;
    var v :| v in x.source.versions && v.id == id && v.kind == Character && v.entry == character;
    var i :| 0 <= i < |x.source.versions| && x.source.versions[i] == v;
    assert x.versions[i].source == id;
  }

  /** A manifest resolves exactly the references its own history knows, to their renamed selves. */
  lemma PinIsRenamed(m: Names, h: History, x: Manifest, p: Pin)
    requires Renaming(m.owned) && Describes(m, h, x) && IdsOk(x.source)
    ensures PinAccepted(x, p) <==> KnownPin(x.source, p)
    ensures PinAccepted(x, p) ==> PinTarget(x, p) == RenamePin(m, p)
  {
    hide CharacterMap, IdsOk, Canonical, Renamed, CountsOf, Mapped, Keys;
    HeadMapping(m, x, p.character);
    TableIds(x.source);
    if p.version.Some? && ConfirmedVersion(x.source, p.version.value, p.character) {
      VersionMapping(m, x, p.version.value, p.character);
      assert p.version.value != NIL by {
        var v :| v in x.source.versions && v.id == p.version.value;
      }
    }
    hide ConfirmedVersion, Describes;
  }

  lemma SameRowsKnown(h: History, g: History, p: Pin)
    requires SameRows(h, g) && KnownPin(h, p)
    ensures KnownPin(g, p)
  {
    ReorderedMembers(h.heads, g.heads);
    ReorderedMembers(h.versions, g.versions);
    ReorderedMembers(h.confirmations, g.confirmations);
  }

  lemma KnownRenamed(m: Names, h: History, p: Pin)
    requires KnownPin(h, p)
    ensures KnownPin(Renamed(m, h), RenamePin(m, p))
  {
    var g, q := Renamed(m, h), RenamePin(m, p);
    EachMembers(h.heads, x => RenameHead(m, x));
    EachMembers(h.versions, v => RenameVersion(m, v));
    EachMembers(h.confirmations, c => RenameConfirmation(m, c));
    var y :| y in h.heads && y.id == p.character && y.kind == Character;
    assert RenameHead(m, y) in g.heads;
    if p.version.Some? {
      var v :| v in h.versions && v.id == p.version.value && v.kind == Character && v.entry == p.character;
      assert RenameVersion(m, v) in g.versions;
      var c :| c in h.confirmations && c.kind == Character && c.version == p.version.value;
      assert RenameConfirmation(m, c) in g.confirmations;
    }
  }

  /** Every resolved reference names a character of the copy and a confirmed version of that character. */
  lemma ResolvedInTarget(m: Names, h: History, x: Manifest, p: Pin)
    requires Renaming(m.owned) && Describes(m, h, x) && IdsOk(x.source) && PinAccepted(x, p)
    ensures KnownPin(x.target, PinTarget(x, p))
    ensures PinTarget(x, p).version.None? <==> p.version.None?
  {
    PinIsRenamed(m, h, x, p);
    KnownRenamed(m, x.source, p);
    CanonicalSameRows(Renamed(m, x.source));
    SameRowsKnown(Renamed(m, x.source), x.target, PinTarget(x, p));
  }

  lemma {:induction false} ChainEndStops(redirects: map<Id, Link>, id: Id, n: nat)
    ensures Stops(redirects, id, n) <==> ChainEnd(redirects, id, n) !in redirects
    decreases n
  {
    if id in redirects && n > 0 {
      ChainEndStops(redirects, redirects[id].target, n - 1);
    }
  }

  lemma RedirectRenamed(m: Names, a: map<Id, Link>, b: map<Id, Link>, id: Id)
    requires Renaming(m.owned) && RedirectsCarried(m, a, b)
    ensures id in a <==> m.owned(id) in b
    ensures id in a ==> b[m.owned(id)].target == m.owned(a[id].target)
  {
  }

  lemma {:induction false} ChainEndRenamed(m: Names, a: map<Id, Link>, b: map<Id, Link>, id: Id, n: nat)
    requires Renaming(m.owned) && RedirectsCarried(m, a, b)
    ensures ChainEnd(b, m.owned(id), n) == m.owned(ChainEnd(a, id, n))
    decreases n
  {
    hide RedirectsCarried, Renaming;
    RedirectRenamed(m, a, b, id);
    if id in a && n > 0 {
      ChainEndRenamed(m, a, b, a[id].target, n - 1);
    }
  }

  /**
    Following merges and copying commute: the character a reference now stands for in the copy is
    the copy of the character it stands for in the source, and neither has been merged further.
   */
  lemma FollowThenRename(m: Names, h: History, x: Manifest, org: Id, project: Id, p: Pin)
    requires Renaming(m.owned) && Describes(m, h, x) && PinAccepted(x, p)
    requires ValidHistory(x.source, org, project) && ValidHistory(x.target, org, m.project)
    ensures ChainEnd(Redirects(x.target), PinTarget(x, p).character, MAX_REDIRECTS)
         == m.owned(ChainEnd(Redirects(x.source), p.character, MAX_REDIRECTS))
    ensures ChainEnd(Redirects(x.source), p.character, MAX_REDIRECTS) !in Redirects(x.source)
    ensures ChainEnd(Redirects(x.target), PinTarget(x, p).character, MAX_REDIRECTS) !in Redirects(x.target)
  {
    var g := Renamed(m, x.source);
    PinIsRenamed(m, h, x, p);
    TablesAreRenamed(m, x.source);
    IndexReordered(x.target.redirects, g.redirects, LinkSource) by {
      CanonicalSameRows(g);
    }
    KnownStops(x.source, p);
    hide ValidHistory, TablesRenamed, PinAccepted, CharacterMap;
    FollowRenamed(m, x.source, g, p.character);
  }

  lemma KnownStops(h: History, p: Pin)
    requires ShortChains(h) && KnownPin(h, p)
    ensures Stops(Redirects(h), p.character, MAX_REDIRECTS)
  {
  }

  lemma FollowRenamed(m: Names, h: History, g: History, id: Id)
    requires Renaming(m.owned) && TablesRenamed(m, h, g) && Stops(Redirects(h), id, MAX_REDIRECTS)
    ensures ChainEnd(Redirects(g), m.owned(id), MAX_REDIRECTS) == m.owned(ChainEnd(Redirects(h), id, MAX_REDIRECTS))
    ensures ChainEnd(Redirects(h), id, MAX_REDIRECTS) !in Redirects(h)
    ensures ChainEnd(Redirects(g), m.owned(id), MAX_REDIRECTS) !in Redirects(g)
  {
    ChainEndRenamed(m, Redirects(h), Redirects(g), id, MAX_REDIRECTS);
    ChainEndStops(Redirects(h), id, MAX_REDIRECTS);
    StopsRenamed(m, h, g, id, MAX_REDIRECTS);
    ChainEndStops(Redirects(g), m.owned(id), MAX_REDIRECTS);
  }
}
