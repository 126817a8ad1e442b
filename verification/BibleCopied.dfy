/**
  What the manifest of a copy says of its source and its target, field by field: which fields are new identities,
  which are mapped by the owners of media and scripts, and that every other one is as it was.
 */
module BibleCopied {
  import opened Wrappers
  import opened Ids
  import opened Rows
  import opened BibleContent
  import opened BibleHistory
  import opened BibleRename
  import opened BibleRemap
  import opened BibleManifest

  /** An optional identity is there exactly if the source's is, under its new name. */
  predicate OptionCopied(owned: Id -> Id, a: Option<Id>, b: Option<Id>) {
    if a.None? then b.None? else b.Some? && b.value == owned(a.value)
  }

  predicate HeadCopied(m: Names, a: Head, b: Head) {
    && b.id == m.owned(a.id) && b.org == a.org && b.project == m.project && b.kind == a.kind
    && b.revision == a.revision && b.deleted == a.deleted && b.createdAt == a.createdAt && b.updatedAt == a.updatedAt
    && b.current == m.owned(a.current)
    && OptionCopied(m.owned, a.confirmed, b.confirmed) && OptionCopied(m.owned, a.redirect, b.redirect)
  }

  predicate MediaCopied(m: Names, a: MediaFact, b: MediaFact) {
    a in m.references && b == m.references[a]
  }

  predicate LookCopied(m: Names, a: Look, b: Look) {
    && b.id == m.owned(a.id) && b.name == a.name && b.description == a.description && b.isDefault == a.isDefault
    && |b.appliesTo| == |a.appliesTo| && |b.references| == |a.references|
    && (forall i :: 0 <= i < |a.appliesTo| ==> a.appliesTo[i] in m.scopes && b.appliesTo[i] == m.scopes[a.appliesTo[i]])
    && (forall i :: 0 <= i < |a.references| ==>
          b.references[i].role == a.references[i].role && MediaCopied(m, a.references[i].media, b.references[i].media))
  }

  predicate VoiceCopied(m: Names, a: Voice, b: Voice) {
    match a
    case CatalogChoice(_, _) => b == a
    case SampleChoice(instructions, name, media) =>
      b.SampleChoice? && b.instructions == instructions && b.name == name && MediaCopied(m, media, b.media)
  }

  predicate CharacterCopied(m: Names, a: CharacterContent, b: CharacterContent) {
    && b.labels == a.labels && |b.looks| == |a.looks|
    && (forall i :: 0 <= i < |a.looks| ==> LookCopied(m, a.looks[i], b.looks[i]))
    && (if a.voice.None? then b.voice.None? else b.voice.Some? && VoiceCopied(m, a.voice.value, b.voice.value))
  }

  predicate BodyCopied(m: Names, a: Body, b: Body) {
    match a
    case CharacterBody(c) => b.CharacterBody? && CharacterCopied(m, c, b.character)
    case LocationBody(_) => b == a
    case PropBody(_) => b == a
  }

  predicate VersionCopied(m: Names, a: Version, b: Version) {
    && b.id == m.owned(a.id) && b.entry == m.owned(a.entry) && b.org == a.org && b.project == m.project
    && b.kind == a.kind && b.number == a.number && OptionCopied(m.owned, a.previous, b.previous)
    && b.actor == a.actor && b.createdAt == a.createdAt && b.origin == a.origin && b.result == a.result
    && BodyCopied(m, a.body, b.body) && b.digest == DigestOf(b.body)
  }

  predicate LookRowCopied(m: Names, a: LookRow, b: LookRow) {
    b.id == m.owned(a.id) && b.character == m.owned(a.character) && b.createdAt == a.createdAt
  }

  predicate ConfirmationCopied(m: Names, a: Confirmation, b: Confirmation) {
    && b.id == m.owned(a.id) && b.kind == a.kind && b.entry == m.owned(a.entry) && b.version == m.owned(a.version)
    && b.revision == a.revision && b.actor == a.actor && b.createdAt == a.createdAt
  }

  predicate LinkCopied(m: Names, a: Link, b: Link) {
    && b.id == m.owned(a.id) && b.source == m.owned(a.source) && b.target == m.owned(a.target)
    && b.sourceVersion == m.owned(a.sourceVersion) && b.targetVersion == m.owned(a.targetVersion)
    && b.actor == a.actor && b.createdAt == a.createdAt
  }

  /** Every row has its counterpart, and there are no others. */
  ghost predicate Carried<T(!new)>(s: seq<T>, t: seq<T>, copied: (T, T) -> bool) {
    && |t| == |s|
    && (forall x | x in s :: exists y | y in t :: copied(x, y))
    && (forall y | y in t :: exists x | x in s :: copied(x, y))
  }

  ghost predicate HistoryCarried(m: Names, h: History, g: History) {
    && Carried(h.heads, g.heads, (x, y) => HeadCopied(m, x, y))
    && Carried(h.versions, g.versions, (x, y) => VersionCopied(m, x, y))
    && Carried(h.looks, g.looks, (x, y) => LookRowCopied(m, x, y))
    && Carried(h.confirmations, g.confirmations, (x, y) => ConfirmationCopied(m, x, y))
    && Carried(h.redirects, g.redirects, (x, y) => LinkCopied(m, x, y))
    && Carried(h.splits, g.splits, (x, y) => LinkCopied(m, x, y))
  }

  /** The rows of each table by kind and identity, versions by entry and number. */
  ghost predicate Ordered(h: History) {
    && SortedBy(h.heads, HeadLe) && SortedBy(h.versions, VersionLe) && SortedBy(h.looks, LookRowLe)
    && SortedBy(h.confirmations, ConfirmationLe) && SortedBy(h.redirects, LinkLe) && SortedBy(h.splits, LinkLe)
  }

  // Rows.

  lemma EachCarried<T(!new)>(s: seq<T>, t: seq<T>, f: T -> T, copied: (T, T) -> bool)
    requires Reordered(Each(s, f), t) && forall x | x in s :: copied(x, f(x))
    ensures Carried(s, t, copied)
  {
    ReorderedMembers(Each(s, f), t);
    EachMembers(s, f);
  }

  lemma BodyIsCopied(m: Names, b: Body)
    requires BodyFacts(b) <= m.references.Keys && BodyScopes(b) <= m.scopes.Keys
    ensures BodyCopied(m, b, RenameBody(m, b))
  {
    if b.CharacterBody? {
      forall i | 0 <= i < |b.character.looks|
        ensures LookCopied(m, b.character.looks[i], RenameLooks(m, b.character.looks)[i])
      {
        var l := b.character.looks[i];
        assert l in b.character.looks;
        assert forall s | s in l.appliesTo :: s in BodyScopes(b);
        assert forall r | r in l.references :: r.media in BodyFacts(b);
        assert forall k :: 0 <= k < |l.appliesTo| ==> l.appliesTo[k] in l.appliesTo;
        assert forall k :: 0 <= k < |l.references| ==> l.references[k] in l.references;
      }
    }
  }

  lemma RowsRenamed(m: Names, h: History, g: History)
    requires SameRows(Renamed(m, h), g)
    requires MediaFacts(h) <= m.references.Keys && LookScopes(h) <= m.scopes.Keys
    ensures HistoryCarried(m, h, g)
  {
    EachCarried(h.heads, g.heads, x => RenameHead(m, x), (x, y) => HeadCopied(m, x, y));
    EachCarried(h.looks, g.looks, x => RenameLookRow(m, x), (x, y) => LookRowCopied(m, x, y));
    EachCarried(h.confirmations, g.confirmations, x => RenameConfirmation(m, x), (x, y) => ConfirmationCopied(m, x, y));
    EachCarried(h.redirects, g.redirects, x => RenameLink(m, x), (x, y) => LinkCopied(m, x, y));
    EachCarried(h.splits, g.splits, x => RenameLink(m, x), (x, y) => LinkCopied(m, x, y));
    forall v | v in h.versions ensures VersionCopied(m, v, RenameVersion(m, v)) {
      assert BodyFacts(v.body) <= MediaFacts(h) && BodyScopes(v.body) <= LookScopes(h);
      BodyIsCopied(m, v.body);
    }
    EachCarried(h.versions, g.versions, x => RenameVersion(m, x), (x, y) => VersionCopied(m, x, y));
  }

  lemma CanonicalOrdered(h: History)
    ensures Ordered(Canonical(h))
  {
    SortSorts(h.heads, HeadLe);
    SortSorts(h.versions, VersionLe);
    SortSorts(h.looks, LookRowLe);
    SortSorts(h.confirmations, ConfirmationLe);
    SortSorts(h.redirects, LinkLe);
    SortSorts(h.splits, LinkLe);
  }

  /** The source of a manifest has the rows that were read, and its target their counterparts, both in order. */
  lemma ManifestOutcome(m: Names, h: History, refs: seq<ReferenceMapping>, scopes: seq<ScopeMapping>, x: Manifest)
    requires Describes(m, h, x) && MappingsAccepted(h, refs, scopes)
    requires m.references == ReferenceMap(refs) && m.scopes == ScopeMap(scopes)
    ensures SameRows(h, x.source) && Ordered(x.source) && Ordered(x.target) && HistoryCarried(m, x.source, x.target)
  {
    CanonicalContent(h, refs, scopes);
    CanonicalOrdered(h);
    CanonicalOrdered(Renamed(m, x.source));
    RowsRenamed(m, x.source, x.target);
  }

  // Counts.

  function HeadsOf(s: seq<Head>, k: Kind): nat {
    if s == [] then 0 else HeadsOf(s[..|s| - 1], k) + if s[|s| - 1].kind == k then 1 else 0
  }

  function VersionsOf(s: seq<Version>, k: Kind): nat {
    if s == [] then 0 else VersionsOf(s[..|s| - 1], k) + if s[|s| - 1].kind == k then 1 else 0
  }

  function ConfirmationsOf(s: seq<Confirmation>, k: Kind): nat {
    if s == [] then 0 else ConfirmationsOf(s[..|s| - 1], k) + if s[|s| - 1].kind == k then 1 else 0
  }

  function LooksIn(s: seq<Version>): nat {
    if s == [] then 0 else
      LooksIn(s[..|s| - 1])
      + if s[|s| - 1].body.CharacterBody? then |s[|s| - 1].body.character.looks| else 0
  }

  function ReferencesAt(ls: seq<Look>): nat {
    if ls == [] then 0 else ReferencesAt(ls[..|ls| - 1]) + |ls[|ls| - 1].references|
  }

  function ReferencesIn(s: seq<Version>): nat {
    if s == [] then 0 else
      ReferencesIn(s[..|s| - 1])
      + if s[|s| - 1].body.CharacterBody? then ReferencesAt(s[|s| - 1].body.character.looks) else 0
  }

  function VoicesIn(s: seq<Version>): nat {
    if s == [] then 0 else
      VoicesIn(s[..|s| - 1])
      + if s[|s| - 1].body.CharacterBody? && s[|s| - 1].body.character.voice.Some? then 1 else 0
  }

  lemma {:induction false} ReferencesCounted(ls: seq<Look>)
    ensures ReferenceCount(ls) == ReferencesAt(ls)
  {
    if ls != [] {
      ReferencesCounted(ls[..|ls| - 1]);
    }
  }

  lemma {:induction false} HeadsCounted(s: seq<Head>)
    ensures Tally(s, HeadCounts) ==
              ZERO.(characters := HeadsOf(s, Character), locations := HeadsOf(s, Location), props := HeadsOf(s, Prop))
  {
    if s != [] {
      HeadsCounted(s[..|s| - 1]);
    }
  }

  lemma {:induction false} ConfirmationsCounted(s: seq<Confirmation>)
    ensures Tally(s, ConfirmationCounts) ==
              ZERO.(characterConfirmations := ConfirmationsOf(s, Character),
                    locationConfirmations := ConfirmationsOf(s, Location),
                    propConfirmations := ConfirmationsOf(s, Prop))
  {
    if s != [] {
      ConfirmationsCounted(s[..|s| - 1]);
    }
  }

  lemma VersionCounted(v: Version)
    requires ContentOk(v.kind, v.body)
    ensures VersionCounts(v) ==
              ZERO.(characterVersions := if v.kind == Character then 1 else 0,
                    locationVersions := if v.kind == Location then 1 else 0,
                    propVersions := if v.kind == Prop then 1 else 0,
                    lookVersions := if v.body.CharacterBody? then |v.body.character.looks| else 0,
                    references := if v.body.CharacterBody? then ReferencesAt(v.body.character.looks) else 0,
                    voices := if v.body.CharacterBody? && v.body.character.voice.Some? then 1 else 0)
  {
    hide CharacterOk, LabelsOk, ReferencesAt, ReferenceCount;
    if v.body.CharacterBody? {
      ReferencesCounted(v.body.character.looks);
    }
  }

  /** The versions' part of the counts. */
  function VersionTotals(s: seq<Version>): Counts {
    ZERO.(characterVersions := VersionsOf(s, Character), locationVersions := VersionsOf(s, Location),
          propVersions := VersionsOf(s, Prop), lookVersions := LooksIn(s), references := ReferencesIn(s),
          voices := VoicesIn(s))
  }

  lemma TotalsNext(s: seq<Version>)
    requires s != [] && ContentOk(s[|s| - 1].kind, s[|s| - 1].body)
    ensures VersionTotals(s[..|s| - 1]).Plus(VersionCounts(s[|s| - 1])) == VersionTotals(s)
  {
    VersionCounted(s[|s| - 1]);
    hide VersionCounts, ContentOk, ReferencesAt;
  }

  lemma {:induction false} VersionsCounted(s: seq<Version>)
    requires forall v | v in s :: ContentOk(v.kind, v.body)
    ensures Tally(s, VersionCounts) == VersionTotals(s)
  {
    hide ContentOk, VersionTotals, VersionCounts;
    if s != [] {
      VersionsCounted(s[..|s| - 1]);
      assert s[|s| - 1] in s;
      TotalsNext(s);
    } else {
      NoTotals();
    }
  }

  lemma NoTotals()
    ensures VersionTotals([]) == ZERO
  {
  }

  lemma Joined(a: Counts, b: Counts, c: Counts, looks: nat, redirects: nat, splits: nat)
    requires a == ZERO.(characters := a.characters, locations := a.locations, props := a.props)
    requires b == ZERO.(characterVersions := b.characterVersions, locationVersions := b.locationVersions,
                        propVersions := b.propVersions, lookVersions := b.lookVersions, references := b.references,
                        voices := b.voices)
    requires c == ZERO.(characterConfirmations := c.characterConfirmations,
                        locationConfirmations := c.locationConfirmations, propConfirmations := c.propConfirmations)
    ensures a.Plus(b).Plus(c).Plus(ZERO.(looks := looks, redirects := redirects, splits := splits)) ==
              Counts(a.characters, b.characterVersions, c.characterConfirmations,
                     a.locations, b.locationVersions, c.locationConfirmations,
                     a.props, b.propVersions, c.propConfirmations,
                     looks, b.lookVersions, b.references, b.voices, redirects, splits)
  {
  }

  /** What each of the fifteen counts counts. */
  lemma CountsAre(h: History)
    requires forall v | v in h.versions :: ContentOk(v.kind, v.body)
    ensures CountsOf(h) ==
              Counts(HeadsOf(h.heads, Character), VersionsOf(h.versions, Character),
                     ConfirmationsOf(h.confirmations, Character),
                     HeadsOf(h.heads, Location), VersionsOf(h.versions, Location),
                     ConfirmationsOf(h.confirmations, Location),
                     HeadsOf(h.heads, Prop), VersionsOf(h.versions, Prop), ConfirmationsOf(h.confirmations, Prop),
                     |h.looks|, LooksIn(h.versions), ReferencesIn(h.versions), VoicesIn(h.versions),
                     |h.redirects|, |h.splits|)
  {
    HeadsCounted(h.heads);
    VersionsCounted(h.versions);
    ConfirmationsCounted(h.confirmations);
    var a, b := Tally(h.heads, HeadCounts), Tally(h.versions, VersionCounts);
    var c := Tally(h.confirmations, ConfirmationCounts);
    assert CountsOf(h) ==
      a.Plus(b).Plus(c).Plus(ZERO.(looks := |h.looks|, redirects := |h.redirects|, splits := |h.splits|));
    hide *;
    Joined(a, b, c, |h.looks|, |h.redirects|, |h.splits|);
  }
}
