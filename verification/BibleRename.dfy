/** Renaming every identity of a history into another project keeps the history valid. */
module BibleRename {
  import opened Wrappers
  import opened Ids
  import opened Rows
  import opened BibleContent
  import opened BibleHistory

  /** How own identities, media facts and look scopes are carried over. */
  datatype Names = Names(
    owned: Id -> Id, project: Id, references: map<MediaFact, MediaFact>, scopes: map<LookScope, LookScope>)
  {
    function Media(x: MediaFact): MediaFact {
      if x in references then references[x] else x
    }

    function Scope(x: LookScope): LookScope {
      if x in scopes then scopes[x] else x
    }
  }

  function RenameReferences(m: Names, rs: seq<ImageReference>): (r: seq<ImageReference>)
    ensures |r| == |rs| && forall i :: 0 <= i < |rs| ==> r[i] == rs[i].(media := m.Media(rs[i].media))
  {
    seq(|rs|, i requires 0 <= i < |rs| => rs[i].(media := m.Media(rs[i].media)))
  }

  function RenameScopes(m: Names, ss: seq<LookScope>): (r: seq<LookScope>)
    ensures |r| == |ss| && forall i :: 0 <= i < |ss| ==> r[i] == m.Scope(ss[i])
  {
    seq(|ss|, i requires 0 <= i < |ss| => m.Scope(ss[i]))
  }

  function RenameLook(m: Names, l: Look): Look {
    l.(id := m.owned(l.id), references := RenameReferences(m, l.references), appliesTo := RenameScopes(m, l.appliesTo))
  }

  function RenameLooks(m: Names, ls: seq<Look>): (r: seq<Look>)
    ensures |r| == |ls| && forall i :: 0 <= i < |ls| ==> r[i] == RenameLook(m, ls[i])
  {
    seq(|ls|, i requires 0 <= i < |ls| => RenameLook(m, ls[i]))
  }

  function RenameVoice(m: Names, v: Option<Voice>): Option<Voice> {
    match v
    case Some(SampleChoice(instructions, name, media)) => Some(SampleChoice(instructions, name, m.Media(media)))
    case _ => v
  }

  function RenameBody(m: Names, b: Body): Body {
    match b
    case CharacterBody(c) => CharacterBody(c.(looks := RenameLooks(m, c.looks), voice := RenameVoice(m, c.voice)))
    case _ => b
  }

  function RenameHead(m: Names, x: Head): Head {
    x.(id := m.owned(x.id), project := m.project, current := m.owned(x.current),
       confirmed := MapOption(m.owned, x.confirmed), redirect := MapOption(m.owned, x.redirect))
  }

  function RenameVersion(m: Names, v: Version): Version {
    v.(id := m.owned(v.id), entry := m.owned(v.entry), project := m.project, previous := MapOption(m.owned, v.previous),
       body := RenameBody(m, v.body), digest := DigestOf(RenameBody(m, v.body)))
  }

  function RenameLookRow(m: Names, l: LookRow): LookRow {
    l.(id := m.owned(l.id), character := m.owned(l.character))
  }

  function RenameConfirmation(m: Names, c: Confirmation): Confirmation {
    c.(id := m.owned(c.id), entry := m.owned(c.entry), version := m.owned(c.version))
  }

  function RenameLink(m: Names, r: Link): Link {
    r.(id := m.owned(r.id), source := m.owned(r.source), target := m.owned(r.target),
       sourceVersion := m.owned(r.sourceVersion), targetVersion := m.owned(r.targetVersion))
  }

  function Renamed(m: Names, h: History): History {
    History(Each(h.heads, x => RenameHead(m, x)), Each(h.versions, v => RenameVersion(m, v)),
            Each(h.looks, l => RenameLookRow(m, l)), Each(h.confirmations, c => RenameConfirmation(m, c)),
            Each(h.redirects, r => RenameLink(m, r)), Each(h.splits, r => RenameLink(m, r)))
  }

  // Tables of renamed rows.

  lemma NoDupRenamed(s: seq<Id>, f: Id -> Id)
    requires Renaming(f) && NoDup(s)
    ensures NoDup(Each(s, f)) && NIL !in Each(s, f)
  {
  }

  lemma EachJoin(s: seq<Id>, t: seq<Id>, f: Id -> Id)
    ensures Each(s + t, f) == Each(s, f) + Each(t, f)
  {
  }

  lemma EntryIdsRenamed(m: Names, h: History)
    ensures EntryIds(Renamed(m, h)) == Each(EntryIds(h), m.owned)
  {
    KeysEach(h.heads, HeadId, m.owned, x => RenameHead(m, x));
    KeysEach(h.versions, VersionId, m.owned, v => RenameVersion(m, v));
    KeysEach(h.looks, LookRowId, m.owned, l => RenameLookRow(m, l));
    hide Keys, Each, RenameHead, RenameVersion, RenameLookRow;
    EachJoin(Keys(h.heads, HeadId), Keys(h.looks, LookRowId), m.owned);
    EachJoin(Keys(h.heads, HeadId) + Keys(h.looks, LookRowId), Keys(h.versions, VersionId), m.owned);
  }

  lemma RecordIdsRenamed(m: Names, h: History)
    ensures RecordIds(Renamed(m, h)) == Each(RecordIds(h), m.owned)
  {
    KeysEach(h.confirmations, ConfirmationId, m.owned, c => RenameConfirmation(m, c));
    KeysEach(h.redirects, LinkId, m.owned, r => RenameLink(m, r));
    KeysEach(h.splits, LinkId, m.owned, r => RenameLink(m, r));
    hide Keys, Each, RenameConfirmation, RenameLink;
    EachJoin(Keys(h.confirmations, ConfirmationId), Keys(h.redirects, LinkId), m.owned);
    EachJoin(Keys(h.confirmations, ConfirmationId) + Keys(h.redirects, LinkId), Keys(h.splits, LinkId), m.owned);
  }

  lemma IdsRenamed(m: Names, h: History)
    requires Renaming(m.owned) && IdsOk(h)
    ensures IdsOk(Renamed(m, h))
  {
    var g, f := Renamed(m, h), m.owned;
    EntryIdsRenamed(m, h);
    RecordIdsRenamed(m, h);
    EachJoin(EntryIds(h), RecordIds(h), f);
    hide Each, EntryIds, RecordIds;
    assert AllIds(g) == Each(AllIds(h), f);
    NoDupRenamed(AllIds(h), f);
  }

  // The lookup tables of the renamed history.

  ghost predicate HeadsCarried(m: Names, a: map<Id, Head>, b: map<Id, Head>) {
    forall k | k in a :: m.owned(k) in b && b[m.owned(k)] == RenameHead(m, a[k])
  }

  ghost predicate VersionsCarried(m: Names, a: map<Id, Version>, b: map<Id, Version>) {
    && (forall k | k in a :: m.owned(k) in b && b[m.owned(k)] == RenameVersion(m, a[k]))
    && (forall j | j in b :: exists k | k in a :: m.owned(k) == j)
  }

  ghost predicate LookRowsCarried(m: Names, a: map<Id, LookRow>, b: map<Id, LookRow>) {
    forall k | k in a :: m.owned(k) in b && b[m.owned(k)] == RenameLookRow(m, a[k])
  }

  ghost predicate RedirectsCarried(m: Names, a: map<Id, Link>, b: map<Id, Link>) {
    && (forall k | k in a :: m.owned(k) in b && b[m.owned(k)] == RenameLink(m, a[k]))
    && (forall j | j in b :: exists k | k in a :: m.owned(k) == j)
  }

  ghost predicate TablesRenamed(m: Names, h: History, g: History) {
    && HeadsCarried(m, Heads(h), Heads(g)) && VersionsCarried(m, Versions(h), Versions(g))
    && LookRowsCarried(m, LookRows(h), LookRows(g)) && RedirectsCarried(m, Redirects(h), Redirects(g))
  }

  lemma HeadsAreRenamed(m: Names, s: seq<Head>)
    requires Renaming(m.owned)
    ensures HeadsCarried(m, Index(s, HeadId), Index(Each(s, x => RenameHead(m, x)), HeadId))
  {
    IndexRenamed(s, HeadId, m.owned, x => RenameHead(m, x));
  }

  lemma VersionsAreRenamed(m: Names, s: seq<Version>)
    requires Renaming(m.owned)
    ensures VersionsCarried(m, Index(s, VersionId), Index(Each(s, v => RenameVersion(m, v)), VersionId))
  {
    hide RenameBody;
    IndexRenamed(s, VersionId, m.owned, v => RenameVersion(m, v));
  }

  lemma LookRowsAreRenamed(m: Names, s: seq<LookRow>)
    requires Renaming(m.owned)
    ensures LookRowsCarried(m, Index(s, LookRowId), Index(Each(s, l => RenameLookRow(m, l)), LookRowId))
  {
    IndexRenamed(s, LookRowId, m.owned, l => RenameLookRow(m, l));
  }

  lemma RedirectsAreRenamed(m: Names, s: seq<Link>)
    requires Renaming(m.owned)
    ensures RedirectsCarried(m, Index(s, LinkSource), Index(Each(s, r => RenameLink(m, r)), LinkSource))
  {
    IndexRenamed(s, LinkSource, m.owned, r => RenameLink(m, r));
  }

  lemma TablesAreRenamed(m: Names, h: History)
    requires Renaming(m.owned)
    ensures TablesRenamed(m, h, Renamed(m, h))
  {
    HeadsAreRenamed(m, h.heads);
    VersionsAreRenamed(m, h.versions);
    LookRowsAreRenamed(m, h.looks);
    RedirectsAreRenamed(m, h.redirects);
    hide HeadsCarried, VersionsCarried, LookRowsCarried, RedirectsCarried, Renaming, Index;
  }

  // Content.

  /** What the mapped media facts and scopes of one look must be like for the look to stay valid. */
  predicate LookMapped(m: Names, l: Look) {
    && (forall r | r in l.references :: m.Media(r.media).Valid(Image))
    && (forall s | s in l.appliesTo :: m.Scope(s).episode != NIL && m.Scope(s).scene != Some(NIL))
  }

  predicate BodyMapped(m: Names, b: Body) {
    b.CharacterBody? ==>
      && (forall l | l in b.character.looks :: LookMapped(m, l))
      && (b.character.voice.Some? && b.character.voice.value.SampleChoice? ==>
            m.Media(b.character.voice.value.media).Valid(Audio))
  }

  /** No two scopes of one look are mapped to the same scope. */
  predicate ScopesStayDistinct(m: Names, b: Body) {
    b.CharacterBody? ==> forall l | l in b.character.looks :: ScopesDistinct(RenameScopes(m, l.appliesTo))
  }

  lemma LookRenamed(m: Names, l: Look)
    requires Renaming(m.owned) && LookOk(l) && LookMapped(m, l)
    ensures LookOk(RenameLook(m, l)) <==> ScopesDistinct(RenameScopes(m, l.appliesTo))
  {
    forall i | 0 <= i < |l.references| ensures RenameReferences(m, l.references)[i].media.Valid(Image) {
      assert l.references[i] in l.references;
    }
    forall i | 0 <= i < |l.appliesTo|
      ensures RenameScopes(m, l.appliesTo)[i].episode != NIL && RenameScopes(m, l.appliesTo)[i].scene != Some(NIL)
    {
      assert l.appliesTo[i] in l.appliesTo;
    }
    assert ReferencesOk(RenameReferences(m, l.references));
  }

  lemma OneDefaultRenamed(m: Names, ls: seq<Look>)
    requires OneDefault(ls)
    ensures OneDefault(RenameLooks(m, ls))
  {
    var i :| 0 <= i < |ls| && OnlyDefault(ls, i);
    assert OnlyDefault(RenameLooks(m, ls), i);
  }

  /** Renamed content is valid exactly when the scopes of every look stay distinct. */
  lemma ContentRenamed(m: Names, kind: Kind, b: Body)
    requires Renaming(m.owned) && ContentOk(kind, b) && BodyMapped(m, b)
    ensures ContentOk(kind, RenameBody(m, b)) <==> ScopesStayDistinct(m, b)
  {
    if b.CharacterBody? {
      var ls := b.character.looks;
      forall i | 0 <= i < |ls|
        ensures LookOk(RenameLooks(m, ls)[i]) <==> ScopesDistinct(RenameScopes(m, ls[i].appliesTo))
      {
        assert ls[i] in ls;
        LookRenamed(m, ls[i]);
      }
      if ScopesStayDistinct(m, b) {
        forall i | 0 <= i < |ls| ensures LookOk(RenameLooks(m, ls)[i]) {
          assert ls[i] in ls;
        }
        OneDefaultRenamed(m, ls);
        assert LookIdsDistinct(RenameLooks(m, ls));
      }
      if ContentOk(kind, RenameBody(m, b)) {
        forall l | l in ls ensures ScopesDistinct(RenameScopes(m, l.appliesTo)) {
          var i :| 0 <= i < |ls| && ls[i] == l;
          assert LookOk(RenameLooks(m, ls)[i]);
        }
      }
    }
  }

  lemma VersionRenamed(m: Names, v: Version)
    requires Renaming(m.owned) && m.project != NIL && v.Valid() && BodyMapped(m, v.body)
    ensures RenameVersion(m, v).Valid() <==> ScopesStayDistinct(m, v.body)
  {
    ContentRenamed(m, v.kind, v.body);
  }

  // Rows.

  lemma VersionRowRenamed(m: Names, h: History, g: History, v: Version, org: Id, project: Id)
    requires Renaming(m.owned) && TablesRenamed(m, h, g) && RenameVersion(m, v).Valid()
    requires VersionRowOk(Heads(h), LookRows(h), v, org, project)
    ensures VersionRowOk(Heads(g), LookRows(g), RenameVersion(m, v), org, m.project)
  {
    var w := RenameVersion(m, v);
    forall l | l in w.Looks() ensures LookOwned(LookRows(g), w, l) {
      var i :| 0 <= i < |w.Looks()| && w.Looks()[i] == l;
      assert l == RenameLook(m, v.Looks()[i]) && v.Looks()[i] in v.Looks();
      assert LookOwned(LookRows(h), v, v.Looks()[i]);
    }
  }

  lemma PreviousRenamed(m: Names, a: map<Id, Version>, b: map<Id, Version>, v: Version)
    requires Renaming(m.owned) && VersionsCarried(m, a, b) && PreviousOk(a, v)
    ensures PreviousOk(b, RenameVersion(m, v))
  {
  }

  lemma ChainRowsRenamed(m: Names, a: map<Id, Version>, b: map<Id, Version>, x: Head, y: Head)
    requires Renaming(m.owned) && VersionsCarried(m, a, b) && ChainOk(a, x) && y == RenameHead(m, x)
    ensures forall j | j in b && b[j].entry == y.id :: b[j].number <= b[y.current].number && PreviousOk(b, b[j])
  {
    forall j | j in b && b[j].entry == y.id ensures b[j].number <= b[y.current].number && PreviousOk(b, b[j]) {
      var k :| k in a && m.owned(k) == j;
      assert PreviousOk(a, a[k]);
      PreviousRenamed(m, a, b, a[k]);
    }
  }

  lemma ChainNumbersRenamed(m: Names, a: map<Id, Version>, b: map<Id, Version>, x: Head, i: Id, j: Id)
    requires Renaming(m.owned) && VersionsCarried(m, a, b) && ChainOk(a, x) && i in b && j in b
    requires b[i].entry == b[j].entry == m.owned(x.id) && b[i].number == b[j].number
    ensures i == j
  {
    var k :| k in a && m.owned(k) == i;
    var l :| l in a && m.owned(l) == j;
    hide PreviousOk;
    assert a[k].entry == a[l].entry == x.id;
    assert a[k].number == a[l].number;
  }

  lemma ChainRenamed(m: Names, a: map<Id, Version>, b: map<Id, Version>, x: Head)
    requires Renaming(m.owned) && VersionsCarried(m, a, b) && ChainOk(a, x)
    ensures ChainOk(b, RenameHead(m, x))
  {
    var y := RenameHead(m, x);
    ChainRowsRenamed(m, a, b, x, y);
    forall i, j | i in b && j in b && b[i].entry == b[j].entry == y.id
      ensures b[i].number == b[j].number ==> i == j
    {
      if b[i].number == b[j].number {
        ChainNumbersRenamed(m, a, b, x, i, j);
      }
    }
    hide PreviousOk;
    assert y.current in b;
  }

  lemma {:induction false} StopsRenamed(m: Names, h: History, g: History, id: Id, n: nat)
    requires Renaming(m.owned) && TablesRenamed(m, h, g)
    ensures Stops(Redirects(g), m.owned(id), n) == Stops(Redirects(h), id, n)
    decreases n
  {
    if id in Redirects(h) && n > 0 {
      StopsRenamed(m, h, g, Redirects(h)[id].target, n - 1);
    }
  }

  // The rules, table by table.

  /** Each stored version has mapped media and scopes, and its looks' scopes stay distinct. */
  ghost predicate ContentCarried(m: Names, h: History) {
    forall v | v in h.versions :: BodyMapped(m, v.body) && ScopesStayDistinct(m, v.body)
  }

  lemma UsedLooksRenamed(m: Names, h: History, id: Id)
    requires id in UsedLooks(h.versions)
    ensures m.owned(id) in UsedLooks(Renamed(m, h).versions)
  {
    var v, l :| v in h.versions && l in v.Looks() && l.id == id;
    EachMembers(h.versions, v => RenameVersion(m, v));
    var w := RenameVersion(m, v);
    var i :| 0 <= i < |v.Looks()| && v.Looks()[i] == l;
    assert w.Looks()[i] == RenameLook(m, l) && w.Looks()[i] in w.Looks();
    assert w in Renamed(m, h).versions;
  }

  lemma LooksRenamed(m: Names, h: History, g: History)
    requires g == Renamed(m, h) && TablesRenamed(m, h, g)
    requires forall l | l in h.looks :: LookRowOk(Heads(h), l) && l.id in UsedLooks(h.versions)
    ensures forall l | l in g.looks :: LookRowOk(Heads(g), l) && l.id in UsedLooks(g.versions)
  {
    EachMembers(h.looks, l => RenameLookRow(m, l));
    forall l | l in g.looks ensures LookRowOk(Heads(g), l) && l.id in UsedLooks(g.versions) {
      var k :| k in h.looks && l == RenameLookRow(m, k);
      UsedLooksRenamed(m, h, k.id);
    }
  }

  lemma VersionsOfRenamed(m: Names, h: History, g: History, org: Id, project: Id)
    requires Renaming(m.owned) && m.project != NIL && g == Renamed(m, h) && TablesRenamed(m, h, g)
    requires ContentCarried(m, h)
    requires forall v | v in h.versions :: VersionRowOk(Heads(h), LookRows(h), v, org, project)
    ensures forall w | w in g.versions :: VersionRowOk(Heads(g), LookRows(g), w, org, m.project)
  {
    EachMembers(h.versions, v => RenameVersion(m, v));
    forall w | w in g.versions ensures VersionRowOk(Heads(g), LookRows(g), w, org, m.project) {
      var v :| v in h.versions && w == RenameVersion(m, v);
      VersionRenamed(m, v);
      VersionRowRenamed(m, h, g, v, org, project);
    }
  }

  lemma HeadsRenamed(m: Names, h: History, g: History, org: Id, project: Id)
    requires Renaming(m.owned) && g == Renamed(m, h) && VersionsCarried(m, Versions(h), Versions(g))
    requires forall x | x in h.heads :: HeadOk(x, org, project) && ChainOk(Versions(h), x)
    ensures forall y | y in g.heads :: HeadOk(y, org, m.project) && ChainOk(Versions(g), y)
  {
    forall i | 0 <= i < |g.heads| ensures HeadOk(g.heads[i], org, m.project) && ChainOk(Versions(g), g.heads[i]) {
      hide VersionsCarried;
      assert g.heads[i] == RenameHead(m, h.heads[i]) && h.heads[i] in h.heads;
      ChainRenamed(m, Versions(h), Versions(g), h.heads[i]);
      hide ChainOk;
    }
  }

  lemma EntriesRenamed(m: Names, h: History, g: History, org: Id, project: Id)
    requires Renaming(m.owned) && m.project != NIL && g == Renamed(m, h) && TablesRenamed(m, h, g)
    requires ContentCarried(m, h) && EntriesOk(h, org, project)
    ensures EntriesOk(g, org, m.project)
  {
    LooksRenamed(m, h, g);
    VersionsOfRenamed(m, h, g, org, project);
    HeadsRenamed(m, h, g, org, project);
  }

  lemma ConfirmedRenamed(m: Names, h: History)
    ensures forall k | k in Confirmed(h.confirmations) :: m.owned(k) in Confirmed(Renamed(m, h).confirmations)
  {
    EachMembers(h.confirmations, c => RenameConfirmation(m, c));
    forall k | k in Confirmed(h.confirmations) ensures m.owned(k) in Confirmed(Renamed(m, h).confirmations) {
      var c :| c in h.confirmations && c.version == k;
      assert RenameConfirmation(m, c) in Renamed(m, h).confirmations;
    }
  }

  lemma ConfirmationRowRenamed(m: Names, h: History, g: History, c: Confirmation)
    requires Renaming(m.owned) && HeadsCarried(m, Heads(h), Heads(g)) && VersionsCarried(m, Versions(h), Versions(g))
    requires ConfirmationRowOk(Heads(h), Versions(h), c)
    ensures ConfirmationRowOk(Heads(g), Versions(g), RenameConfirmation(m, c))
  {
  }

  lemma ConfirmationsDistinctRenamed(m: Names, cs: seq<Confirmation>)
    requires Renaming(m.owned) && ConfirmationsDistinct(cs)
    ensures ConfirmationsDistinct(Each(cs, c => RenameConfirmation(m, c)))
  {
    var all := Each(cs, c => RenameConfirmation(m, c));
    forall a, b | a in all && b in all && a.entry == b.entry && a.revision == b.revision ensures a == b {
      var i :| 0 <= i < |cs| && all[i] == a;
      var j :| 0 <= j < |cs| && all[j] == b;
      assert cs[i] in cs && cs[j] in cs;
    }
  }

  lemma ConfirmedOkRenamed(m: Names, h: History, g: History, x: Head)
    requires Renaming(m.owned) && VersionsCarried(m, Versions(h), Versions(g))
    requires forall k | k in Confirmed(h.confirmations) :: m.owned(k) in Confirmed(g.confirmations)
    requires ConfirmedOk(Versions(h), Confirmed(h.confirmations), x)
    ensures ConfirmedOk(Versions(g), Confirmed(g.confirmations), RenameHead(m, x))
  {
  }

  lemma ConfirmationsRenamed(m: Names, h: History, g: History)
    requires Renaming(m.owned) && g == Renamed(m, h) && TablesRenamed(m, h, g) && ConfirmationsOk(h)
    ensures ConfirmationsOk(g)
  {
    ConfirmedRenamed(m, h);
    ConfirmationsDistinctRenamed(m, h.confirmations);
    forall i | 0 <= i < |g.confirmations| ensures ConfirmationRowOk(Heads(g), Versions(g), g.confirmations[i]) {
      assert h.confirmations[i] in h.confirmations;
      ConfirmationRowRenamed(m, h, g, h.confirmations[i]);
    }
    hide ConfirmationRowOk, VersionsCarried;
    forall i | 0 <= i < |g.heads| ensures ConfirmedOk(Versions(g), Confirmed(g.confirmations), g.heads[i]) {
      assert h.heads[i] in h.heads;
      ConfirmedOkRenamed(m, h, g, h.heads[i]);
    }
  }

  lemma LinkRenamed(m: Names, h: History, g: History, r: Link)
    requires Renaming(m.owned) && HeadsCarried(m, Heads(h), Heads(g)) && VersionsCarried(m, Versions(h), Versions(g))
    requires forall k | k in Confirmed(h.confirmations) :: m.owned(k) in Confirmed(g.confirmations)
    ensures SplitRowOk(Heads(h), Versions(h), r) ==> SplitRowOk(Heads(g), Versions(g), RenameLink(m, r))
    ensures RedirectRowOk(Heads(h), Versions(h), Confirmed(h.confirmations), r) ==>
              RedirectRowOk(Heads(g), Versions(g), Confirmed(g.confirmations), RenameLink(m, r))
  {
  }

  lemma LinkRowsRenamed(m: Names, h: History, g: History)
    requires Renaming(m.owned) && g == Renamed(m, h) && TablesRenamed(m, h, g) && LinksOk(h)
    ensures forall r | r in g.redirects :: RedirectRowOk(Heads(g), Versions(g), Confirmed(g.confirmations), r)
    ensures forall r | r in g.splits :: SplitRowOk(Heads(g), Versions(g), r)
  {
    ConfirmedRenamed(m, h);
    hide VersionsCarried, HeadsCarried;
    forall i | 0 <= i < |g.redirects|
      ensures RedirectRowOk(Heads(g), Versions(g), Confirmed(g.confirmations), g.redirects[i])
    {
      hide RedirectRowOk;
      assert h.redirects[i] in h.redirects;
      LinkRenamed(m, h, g, h.redirects[i]);
    }
    forall i | 0 <= i < |g.splits| ensures SplitRowOk(Heads(g), Versions(g), g.splits[i]) {
      hide SplitRowOk;
      assert h.splits[i] in h.splits;
      LinkRenamed(m, h, g, h.splits[i]);
    }
  }

  lemma RecordedRenamed(m: Names, h: History, g: History)
    requires Renaming(m.owned) && g == Renamed(m, h) && RedirectsCarried(m, Redirects(h), Redirects(g))
    requires forall x | x in h.heads :: RedirectRecorded(Redirects(h), x)
    ensures forall y | y in g.heads :: RedirectRecorded(Redirects(g), y)
  {
    forall i | 0 <= i < |g.heads| ensures RedirectRecorded(Redirects(g), g.heads[i]) {
      assert h.heads[i] in h.heads && g.heads[i] == RenameHead(m, h.heads[i]);
      assert RedirectRecorded(Redirects(h), h.heads[i]);
    }
  }

  lemma SourcesRenamed(m: Names, rs: seq<Link>)
    requires Renaming(m.owned) && NoDup(Keys(rs, LinkSource))
    ensures NoDup(Keys(Each(rs, r => RenameLink(m, r)), LinkSource))
  {
    KeysEach(rs, LinkSource, m.owned, r => RenameLink(m, r));
    NoDupRenamed(Keys(rs, LinkSource), m.owned);
  }

  lemma LinksRenamed(m: Names, h: History, g: History)
    requires Renaming(m.owned) && g == Renamed(m, h) && TablesRenamed(m, h, g) && LinksOk(h)
    ensures LinksOk(g)
  {
    LinkRowsRenamed(m, h, g);
    RecordedRenamed(m, h, g);
    SourcesRenamed(m, h.redirects);
  }

  /** A renamed valid history is valid in the other project, provided its content can be carried over. */
  lemma ValidRenamed(m: Names, h: History, org: Id, project: Id)
    requires Renaming(m.owned) && m.project != NIL
    requires ValidHistory(h, org, project) && ContentCarried(m, h)
    ensures ValidHistory(Renamed(m, h), org, m.project)
  {
    var g := Renamed(m, h);
    TablesAreRenamed(m, h);
    IdsRenamed(m, h);
    hide TablesRenamed, ContentCarried;
    EntriesRenamed(m, h, g, org, project);
    ConfirmationsRenamed(m, h, g);
    LinksRenamed(m, h, g);
    hide EntriesOk, ConfirmationsOk, LinksOk, IdsOk;
    EachMembers(h.heads, x => RenameHead(m, x));
    forall y | y in g.heads ensures Stops(Redirects(g), y.id, MAX_REDIRECTS) {
      var x :| x in h.heads && y == RenameHead(m, x);
      StopsRenamed(m, h, g, x.id, MAX_REDIRECTS);
    }
  }

  // Counts.

  lemma {:induction false} TallyRenamed<T>(s: seq<T>, g: T -> T, weight: T -> Counts)
    requires forall x | x in s :: weight(g(x)) == weight(x)
    ensures Tally(Each(s, g), weight) == Tally(s, weight)
  {
    if s != [] {
      TallyRenamed(s[..|s| - 1], g, weight);
      assert Each(s, g)[..|s| - 1] == Each(s[..|s| - 1], g);
    }
  }

  lemma {:induction false} ReferenceCountRenamed(m: Names, ls: seq<Look>)
    ensures ReferenceCount(RenameLooks(m, ls)) == ReferenceCount(ls)
  {
    if ls != [] {
      ReferenceCountRenamed(m, ls[..|ls| - 1]);
      assert RenameLooks(m, ls)[..|ls| - 1] == RenameLooks(m, ls[..|ls| - 1]);
    }
  }

  lemma VersionCountsRenamed(m: Names, v: Version)
    ensures VersionCounts(RenameVersion(m, v)) == VersionCounts(v)
  {
    if v.body.CharacterBody? {
      ReferenceCountRenamed(m, v.body.character.looks);
    }
  }

  lemma CountsRenamed(m: Names, h: History)
    ensures CountsOf(Renamed(m, h)) == CountsOf(h)
  {
    forall v | v in h.versions ensures VersionCounts(RenameVersion(m, v)) == VersionCounts(v) {
      VersionCountsRenamed(m, v);
    }
    hide VersionCounts;
    TallyRenamed(h.versions, v => RenameVersion(m, v), VersionCounts);
    TallyRenamed(h.heads, x => RenameHead(m, x), HeadCounts);
    TallyRenamed(h.confirmations, c => RenameConfirmation(m, c), ConfirmationCounts);
  }
}
