/**
  The whole recorded history of a project's Bible, and what makes such a history closed:
  the rules of ValidateCopyHistory stated over tables rather than over a pass through them.
 */
module BibleHistory {
  import opened Wrappers
  import opened Ids
  import opened Rows
  import opened BibleContent

  const MAX_REDIRECTS: nat := 32

  datatype Head = Head(
    id: Id, org: Id, project: Id, kind: Kind, revision: int, current: Id, confirmed: Option<Id>,
    redirect: Option<Id>, deleted: bool, createdAt: Time, updatedAt: Time)

  datatype LookRow = LookRow(id: Id, character: Id, createdAt: Time)

  datatype Confirmation = Confirmation(
    id: Id, kind: Kind, entry: Id, version: Id, revision: int, actor: Id, createdAt: Time)

  /** A merge redirect or a split: both join one version of a source to one version of a target. */
  datatype Link = Link(
    id: Id, source: Id, target: Id, sourceVersion: Id, targetVersion: Id, actor: Id, createdAt: Time)

  datatype History = History(
    heads: seq<Head>, versions: seq<Version>, looks: seq<LookRow>,
    confirmations: seq<Confirmation>, redirects: seq<Link>, splits: seq<Link>)

  const EMPTY := History([], [], [], [], [], [])

  function HeadId(x: Head): Id { x.id }
  function VersionId(x: Version): Id { x.id }
  function LookRowId(x: LookRow): Id { x.id }
  function ConfirmationId(x: Confirmation): Id { x.id }
  function LinkId(x: Link): Id { x.id }
  function LinkSource(x: Link): Id { x.source }

  function Heads(h: History): map<Id, Head> { Index(h.heads, HeadId) }
  function Versions(h: History): map<Id, Version> { Index(h.versions, VersionId) }
  function LookRows(h: History): map<Id, LookRow> { Index(h.looks, LookRowId) }
  function Redirects(h: History): map<Id, Link> { Index(h.redirects, LinkSource) }

  function EntryIds(h: History): seq<Id> {
    Keys(h.heads, HeadId) + Keys(h.looks, LookRowId) + Keys(h.versions, VersionId)
  }

  function RecordIds(h: History): seq<Id> {
    Keys(h.confirmations, ConfirmationId) + Keys(h.redirects, LinkId) + Keys(h.splits, LinkId)
  }

  /** Every identity the history owns, of whatever table. */
  function AllIds(h: History): seq<Id> {
    EntryIds(h) + RecordIds(h)
  }

  ghost predicate IdsOk(h: History) {
    NIL !in AllIds(h) && NoDup(AllIds(h))
  }

  predicate HeadOk(x: Head, org: Id, project: Id) {
    && x.kind.Valid()
    && x.org == org && x.project == project
    && x.revision >= 1
    && x.createdAt != 0 && x.createdAt <= x.updatedAt
    && (x.kind != Character ==> x.redirect == None)
  }

  predicate LookRowOk(heads: map<Id, Head>, l: LookRow) {
    l.character in heads && heads[l.character].kind == Character && l.createdAt != 0
  }

  predicate LookOwned(looks: map<Id, LookRow>, v: Version, l: Look) {
    l.id in looks && looks[l.id].character == v.entry && looks[l.id].createdAt <= v.createdAt
  }

  predicate VersionRowOk(heads: map<Id, Head>, looks: map<Id, LookRow>, v: Version, org: Id, project: Id) {
    && v.entry in heads && v.kind == heads[v.entry].kind
    && v.org == org && v.project == project
    && v.Valid()
    && forall l | l in v.Looks() :: LookOwned(looks, v, l)
  }

  function UsedLooks(versions: seq<Version>): set<Id> {
    set v, l | v in versions && l in v.Looks() :: l.id
  }

  predicate PreviousOk(versions: map<Id, Version>, v: Version) {
    if v.number == 1 then v.previous == None else
      && v.previous.Some?
      && v.previous.value in versions
      && versions[v.previous.value].entry == v.entry
      && versions[v.previous.value].number == v.number - 1
  }

  /** The versions of one entry form the unbroken chain 1, 2, ... up to the current version. */
  predicate ChainOk(versions: map<Id, Version>, x: Head) {
    && x.current in versions && versions[x.current].entry == x.id
    && versions[x.current].number <= x.revision
    && (forall k | k in versions && versions[k].entry == x.id ::
          versions[k].number <= versions[x.current].number && PreviousOk(versions, versions[k]))
    && (forall j, k | j in versions && k in versions && versions[j].entry == versions[k].entry == x.id ::
          versions[j].number == versions[k].number ==> j == k)
  }

  predicate ConfirmationRowOk(heads: map<Id, Head>, versions: map<Id, Version>, c: Confirmation) {
    && c.entry in heads && c.version in versions
    && c.kind == heads[c.entry].kind == versions[c.version].kind
    && versions[c.version].entry == c.entry
    && 1 <= c.revision <= heads[c.entry].revision
    && c.actor != NIL
    && c.createdAt != 0 && versions[c.version].createdAt <= c.createdAt
  }

  predicate ConfirmationsDistinct(cs: seq<Confirmation>) {
    forall a, b | a in cs && b in cs :: a.entry == b.entry && a.revision == b.revision ==> a == b
  }

  function Confirmed(cs: seq<Confirmation>): set<Id> {
    set c | c in cs :: c.version
  }

  predicate ConfirmedOk(versions: map<Id, Version>, confirmed: set<Id>, x: Head) {
    x.confirmed.Some? ==>
      && x.confirmed.value in versions
      && versions[x.confirmed.value].entry == x.id
      && x.confirmed.value in confirmed
  }

  /** What redirects and splits share: two different characters, each with a version of its own. */
  predicate LinkOk(heads: map<Id, Head>, versions: map<Id, Version>, r: Link) {
    && r.source in heads && heads[r.source].kind == Character
    && r.target in heads && heads[r.target].kind == Character
    && r.source != r.target
    && r.sourceVersion in versions && versions[r.sourceVersion].entry == r.source
    && r.targetVersion in versions && versions[r.targetVersion].entry == r.target
    && r.actor != NIL && r.createdAt != 0
  }

  predicate RedirectRowOk(heads: map<Id, Head>, versions: map<Id, Version>, confirmed: set<Id>, r: Link) {
    && LinkOk(heads, versions, r)
    && r.sourceVersion in confirmed && r.targetVersion in confirmed
    && heads[r.source].redirect == Some(r.target)
  }

  predicate RedirectRecorded(redirects: map<Id, Link>, x: Head) {
    x.redirect.Some? ==> x.id in redirects && redirects[x.id].target == x.redirect.value
  }

  predicate SplitRowOk(heads: map<Id, Head>, versions: map<Id, Version>, r: Link) {
    LinkOk(heads, versions, r) && versions[r.targetVersion].number == 1
  }

  /** Following redirects from `id` stops after at most `n` steps. */
  predicate Stops(redirects: map<Id, Link>, id: Id, n: nat)
    decreases n
  {
    id !in redirects || (n > 0 && Stops(redirects, redirects[id].target, n - 1))
  }

  /** Where following at most `n` redirects from `id` leads. */
  function ChainEnd(redirects: map<Id, Link>, id: Id, n: nat): Id
    decreases n
  {
    if id !in redirects || n == 0 then id else ChainEnd(redirects, redirects[id].target, n - 1)
  }

  ghost predicate EntriesOk(h: History, org: Id, project: Id) {
    && (forall x | x in h.heads :: HeadOk(x, org, project))
    && (forall l | l in h.looks :: LookRowOk(Heads(h), l))
    && (forall v | v in h.versions :: VersionRowOk(Heads(h), LookRows(h), v, org, project))
    && (forall l | l in h.looks :: l.id in UsedLooks(h.versions))
    && (forall x | x in h.heads :: ChainOk(Versions(h), x))
  }

  ghost predicate ConfirmationsOk(h: History) {
    && (forall c | c in h.confirmations :: ConfirmationRowOk(Heads(h), Versions(h), c))
    && ConfirmationsDistinct(h.confirmations)
    && (forall x | x in h.heads :: ConfirmedOk(Versions(h), Confirmed(h.confirmations), x))
  }

  ghost predicate LinksOk(h: History) {
    && (forall r | r in h.redirects :: RedirectRowOk(Heads(h), Versions(h), Confirmed(h.confirmations), r))
    && NoDup(Keys(h.redirects, LinkSource))
    && (forall x | x in h.heads :: RedirectRecorded(Redirects(h), x))
    && (forall r | r in h.splits :: SplitRowOk(Heads(h), Versions(h), r))
  }

  /** Everything a history must meet apart from the bound on how long its redirect chains are. */
  ghost predicate Closed(h: History, org: Id, project: Id) {
    && org != NIL && project != NIL
    && IdsOk(h)
    && EntriesOk(h, org, project)
    && ConfirmationsOk(h)
    && LinksOk(h)
  }

  ghost predicate ShortChains(h: History) {
    forall x | x in h.heads :: Stops(Redirects(h), x.id, MAX_REDIRECTS)
  }

  ghost predicate ValidHistory(h: History, org: Id, project: Id) {
    Closed(h, org, project) && ShortChains(h)
  }

  // Counts of every entity, added up row by row.

  datatype Counts = Counts(
    characters: nat, characterVersions: nat, characterConfirmations: nat,
    locations: nat, locationVersions: nat, locationConfirmations: nat,
    props: nat, propVersions: nat, propConfirmations: nat,
    looks: nat, lookVersions: nat, references: nat, voices: nat, redirects: nat, splits: nat)
  {
    function Plus(c: Counts): Counts {
      Counts(characters + c.characters, characterVersions + c.characterVersions,
             characterConfirmations + c.characterConfirmations,
             locations + c.locations, locationVersions + c.locationVersions,
             locationConfirmations + c.locationConfirmations,
             props + c.props, propVersions + c.propVersions, propConfirmations + c.propConfirmations,
             looks + c.looks, lookVersions + c.lookVersions, references + c.references,
             voices + c.voices, redirects + c.redirects, splits + c.splits)
    }
  }

  const ZERO := Counts(0, 0, 0, 0, 0, 0, 0, 0, 0, 0, 0, 0, 0, 0, 0)

  function HeadCounts(x: Head): Counts {
    match x.kind
    case Character => ZERO.(characters := 1)
    case Location => ZERO.(locations := 1)
    case Prop => ZERO.(props := 1)
    case OtherKind => ZERO
  }

  function ReferenceCount(ls: seq<Look>): nat {
    if ls == [] then 0 else ReferenceCount(ls[..|ls| - 1]) + |ls[|ls| - 1].references|
  }

  function VersionCounts(v: Version): Counts {
    match v.body
    case CharacterBody(c) =>
      ZERO.(characterVersions := 1, lookVersions := |c.looks|, references := ReferenceCount(c.looks),
            voices := if c.voice.Some? then 1 else 0)
    case LocationBody(_) => ZERO.(locationVersions := 1)
    case PropBody(_) => ZERO.(propVersions := 1)
  }

  function ConfirmationCounts(c: Confirmation): Counts {
    match c.kind
    case Character => ZERO.(characterConfirmations := 1)
    case Location => ZERO.(locationConfirmations := 1)
    case Prop => ZERO.(propConfirmations := 1)
    case OtherKind => ZERO
  }

  function Tally<T>(s: seq<T>, weight: T -> Counts): Counts {
    if s == [] then ZERO else Tally(s[..|s| - 1], weight).Plus(weight(s[|s| - 1]))
  }

  function CountsOf(h: History): Counts {
    Tally(h.heads, HeadCounts).Plus(Tally(h.versions, VersionCounts)).Plus(Tally(h.confirmations, ConfirmationCounts))
    .Plus(ZERO.(looks := |h.looks|, redirects := |h.redirects|, splits := |h.splits|))
  }

  // Order does not matter: the rules and the counts only depend on which rows there are.

  ghost predicate SameRows(h: History, g: History) {
    && Reordered(h.heads, g.heads)
    && Reordered(h.versions, g.versions)
    && Reordered(h.looks, g.looks)
    && Reordered(h.confirmations, g.confirmations)
    && Reordered(h.redirects, g.redirects)
    && Reordered(h.splits, g.splits)
  }

  /** The parts of AllIds, each distinct and without the nil identity. */
  lemma TableIds(h: History)
    requires IdsOk(h)
    ensures NoDup(Keys(h.heads, HeadId)) && NoDup(Keys(h.looks, LookRowId)) && NoDup(Keys(h.versions, VersionId))
    ensures NoDup(Keys(h.confirmations, ConfirmationId))
    ensures NoDup(Keys(h.redirects, LinkId)) && NoDup(Keys(h.splits, LinkId))
    ensures forall x | x in h.heads :: x.id != NIL
    ensures forall x | x in h.versions :: x.id != NIL
  {
    var a, b, c := Keys(h.heads, HeadId), Keys(h.looks, LookRowId), Keys(h.versions, VersionId);
    var d, e, f := Keys(h.confirmations, ConfirmationId), Keys(h.redirects, LinkId), Keys(h.splits, LinkId);
    NoDupParts(EntryIds(h), RecordIds(h));
    NoDupParts(a + b, c);
    NoDupParts(a, b);
    NoDupParts(d + e, f);
    NoDupParts(d, e);
    forall x | x in h.heads ensures x.id != NIL {
      var i :| 0 <= i < |h.heads| && h.heads[i] == x;
      assert a[i] in AllIds(h);
    }
    forall x | x in h.versions ensures x.id != NIL {
      var i :| 0 <= i < |h.versions| && h.versions[i] == x;
      assert c[i] in AllIds(h);
    }
  }

  lemma IdsReordered(h: History, g: History)
    requires SameRows(h, g) && IdsOk(h)
    ensures IdsOk(g)
  {
    KeysReordered(h.heads, g.heads, HeadId);
    KeysReordered(h.looks, g.looks, LookRowId);
    KeysReordered(h.versions, g.versions, VersionId);
    KeysReordered(h.confirmations, g.confirmations, ConfirmationId);
    KeysReordered(h.redirects, g.redirects, LinkId);
    KeysReordered(h.splits, g.splits, LinkId);
    assert Reordered(AllIds(h), AllIds(g));
    ReorderedMembers(AllIds(h), AllIds(g));
    NoDupIsMultiset(AllIds(h));
    NoDupIsMultiset(AllIds(g));
  }

  lemma SameRowsIndex(h: History, g: History)
    requires SameRows(h, g) && IdsOk(h)
    ensures Heads(h) == Heads(g) && Versions(h) == Versions(g) && LookRows(h) == LookRows(g)
    ensures forall x :: x in h.heads <==> x in g.heads
    ensures forall x :: x in h.versions <==> x in g.versions
    ensures forall x :: x in h.looks <==> x in g.looks
    ensures forall x :: x in h.confirmations <==> x in g.confirmations
    ensures forall x :: x in h.redirects <==> x in g.redirects
    ensures forall x :: x in h.splits <==> x in g.splits
  {
    TableIds(h);
    IndexReordered(h.heads, g.heads, HeadId);
    IndexReordered(h.versions, g.versions, VersionId);
    IndexReordered(h.looks, g.looks, LookRowId);
    ReorderedMembers(h.heads, g.heads);
    ReorderedMembers(h.versions, g.versions);
    ReorderedMembers(h.looks, g.looks);
    ReorderedMembers(h.confirmations, g.confirmations);
    ReorderedMembers(h.redirects, g.redirects);
    ReorderedMembers(h.splits, g.splits);
  }

  lemma ValidReordered(h: History, g: History, org: Id, project: Id)
    requires SameRows(h, g) && ValidHistory(h, org, project)
    ensures ValidHistory(g, org, project)
  {
    IdsReordered(h, g);
    SameRowsIndex(h, g);
    assert UsedLooks(h.versions) == UsedLooks(g.versions);
    assert Confirmed(h.confirmations) == Confirmed(g.confirmations);
    IndexReordered(h.redirects, g.redirects, LinkSource);
    assert EntriesOk(g, org, project);
    assert ConfirmationsOk(g);
    assert LinksOk(g);
    assert ShortChains(g);
  }

  lemma PlusSwap(a: Counts, b: Counts, c: Counts)
    ensures a.Plus(b).Plus(c) == a.Plus(c).Plus(b)
  {
  }

  lemma {:induction false} TallyTakeOut<T>(s: seq<T>, i: nat, weight: T -> Counts)
    requires i < |s|
    ensures Tally(s, weight) == Tally(s[..i] + s[i + 1..], weight).Plus(weight(s[i]))
  {
    var n := |s| - 1;
    if i == n {
      assert s[..i] + s[i + 1..] == s[..n];
    } else {
      var rest := s[..i] + s[i + 1..];
      TallyTakeOut(s[..n], i, weight);
      assert rest[..|rest| - 1] == s[..n][..i] + s[..n][i + 1..];
      assert rest[|rest| - 1] == s[n];
      PlusSwap(Tally(rest[..|rest| - 1], weight), weight(s[i]), weight(s[n]));
      hide Counts.Plus;
    }
  }

  lemma {:induction false} TallyReordered<T>(s: seq<T>, t: seq<T>, weight: T -> Counts)
    requires Reordered(s, t)
    ensures Tally(s, weight) == Tally(t, weight)
  {
    ReorderedMembers(s, t);
    if s != [] {
      var i := TakeOut(s, t);
      TallyReordered(s[..|s| - 1], t[..i] + t[i + 1..], weight);
      TallyTakeOut(t, i, weight);
    }
  }

  lemma CountsReordered(h: History, g: History)
    requires SameRows(h, g)
    ensures CountsOf(h) == CountsOf(g)
  {
    TallyReordered(h.heads, g.heads, HeadCounts);
    TallyReordered(h.versions, g.versions, VersionCounts);
    TallyReordered(h.confirmations, g.confirmations, ConfirmationCounts);
    ReorderedMembers(h.looks, g.looks);
    ReorderedMembers(h.redirects, g.redirects);
    ReorderedMembers(h.splits, g.splits);
  }
}
