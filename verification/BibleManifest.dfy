/** RemapProjectHistory: the manifest of a project copy, and exactly when there is one. */
module BibleManifest {
  import opened Wrappers
  import opened Ids
  import opened Rows
  import opened BibleContent
  import opened BibleHistory
  import opened BibleRename
  import opened BibleRemap
  import opened BibleValidator

  datatype Binding = Binding(job: Id, org: Id, source: Id, target: Id)

  /** The new identity of an entry or of a version. */
  datatype Mapping = Mapping(kind: Kind, source: Id, target: Id)

  datatype Manifest = Manifest(
    binding: Binding, source: History, target: History,
    references: map<MediaFact, MediaFact>, scopes: map<LookScope, LookScope>,
    counts: Counts, identities: seq<Mapping>, versions: seq<Mapping>)

  datatype CopyError = Unavailable | CorruptSource | InvalidTarget

  predicate BindingOk(b: Binding) {
    b.job != NIL && b.org != NIL && b.source != NIL && b.target != NIL && b.source != b.target
  }

  // Accepted mappings carry valid content over.

  lemma ReferenceCarried(ms: seq<ReferenceMapping>, x: MediaFact, kind: MediaKind)
    requires ReferenceRowsOk(ms) && x in ReferenceMap(ms) && x.Valid(kind)
    ensures ReferenceMap(ms)[x].Valid(kind)
  {
    ReferenceMapHolds(ms);
    var i :| 0 <= i < |ms| && ms[i] == ReferenceMapping(x, ReferenceMap(ms)[x]);
    assert ReferenceMappingOk(ms[i]);
  }

  lemma ScopeCarried(ms: seq<ScopeMapping>, x: LookScope)
    requires ScopeRowsOk(ms) && x in ScopeMap(ms)
    ensures ScopeMap(ms)[x].episode != NIL && ScopeMap(ms)[x].scene != Some(NIL)
  {
    ScopeMapHolds(ms);
    var i :| 0 <= i < |ms| && ms[i] == ScopeMapping(x, ScopeMap(ms)[x]);
    assert ScopeMappingOk(ms[i]);
  }

  /** The names built from accepted mappings. */
  ghost predicate Accepted(m: Names, refs: seq<ReferenceMapping>, scopes: seq<ScopeMapping>, b: Body) {
    && ReferenceRowsOk(refs) && m.references == ReferenceMap(refs) && BodyFacts(b) <= m.references.Keys
    && ScopeRowsOk(scopes) && m.scopes == ScopeMap(scopes) && BodyScopes(b) <= m.scopes.Keys
  }

  lemma LookCarried(m: Names, refs: seq<ReferenceMapping>, scopes: seq<ScopeMapping>, b: Body, l: Look)
    requires Accepted(m, refs, scopes, b) && b.CharacterBody? && l in b.character.looks && LookOk(l)
    ensures LookMapped(m, l)
  {
    forall r | r in l.references ensures m.Media(r.media).Valid(Image) {
      assert r.media in BodyFacts(b);
      ReferenceCarried(refs, r.media, Image);
    }
    forall s | s in l.appliesTo ensures m.Scope(s).episode != NIL && m.Scope(s).scene != Some(NIL) {
      assert s in BodyScopes(b);
      ScopeCarried(scopes, s);
    }
  }

  lemma BodyCarried(m: Names, refs: seq<ReferenceMapping>, scopes: seq<ScopeMapping>, kind: Kind, b: Body)
    requires Accepted(m, refs, scopes, b) && ContentOk(kind, b)
    ensures BodyMapped(m, b)
  {
    if b.CharacterBody? {
      forall l | l in b.character.looks ensures LookMapped(m, l) {
        LookCarried(m, refs, scopes, b, l);
      }
      if b.character.voice.Some? && b.character.voice.value.SampleChoice? {
        var x := b.character.voice.value.media;
        assert x in BodyFacts(b);
        ReferenceCarried(refs, x, Audio);
      }
    }
  }

  /** The names of one copy job. */
  function NamesOf(b: Binding, owned: Id -> Id, refs: seq<ReferenceMapping>, scopes: seq<ScopeMapping>): Names {
    Names(owned, b.target, ReferenceMap(refs), ScopeMap(scopes))
  }

  ghost predicate MappingsAccepted(h: History, refs: seq<ReferenceMapping>, scopes: seq<ScopeMapping>) {
    ReferencesAccepted(h, refs) && ScopesAccepted(h, scopes)
  }

  /** No look anywhere in the history has two scopes that are mapped to the same scope. */
  ghost predicate ScopesKept(m: Names, h: History) {
    forall v | v in h.versions :: ScopesStayDistinct(m, v.body)
  }

  lemma AcceptedBody(m: Names, h: History, refs: seq<ReferenceMapping>, scopes: seq<ScopeMapping>, v: Version)
    requires MappingsAccepted(h, refs, scopes) && v in h.versions
    requires m.references == ReferenceMap(refs) && m.scopes == ScopeMap(scopes)
    ensures Accepted(m, refs, scopes, v.body)
  {
    forall x | x in BodyFacts(v.body) ensures x in m.references {
      assert x in MediaFacts(h);
    }
    forall x | x in BodyScopes(v.body) ensures x in m.scopes {
      assert x in LookScopes(h);
    }
  }

  lemma VersionCarried(m: Names, h: History, refs: seq<ReferenceMapping>, scopes: seq<ScopeMapping>, v: Version)
    requires MappingsAccepted(h, refs, scopes) && v in h.versions && v.Valid()
    requires m.references == ReferenceMap(refs) && m.scopes == ScopeMap(scopes)
    ensures BodyMapped(m, v.body)
  {
    AcceptedBody(m, h, refs, scopes, v);
    BodyCarried(m, refs, scopes, v.kind, v.body);
  }

  /** The renamed history is valid exactly when the mapped scopes of every look stay distinct. */
  lemma RenamedValidIff(
    m: Names, h: History, refs: seq<ReferenceMapping>, scopes: seq<ScopeMapping>, org: Id, project: Id)
    requires Renaming(m.owned) && m.project != NIL && ValidHistory(h, org, project) && MappingsAccepted(h, refs, scopes)
    requires m.references == ReferenceMap(refs) && m.scopes == ScopeMap(scopes)
    ensures ValidHistory(Renamed(m, h), org, m.project) <==> ScopesKept(m, h)
  {
    forall v | v in h.versions ensures v.Valid() && BodyMapped(m, v.body) {
      assert VersionRowOk(Heads(h), LookRows(h), v, org, project);
      VersionCarried(m, h, refs, scopes, v);
    }
    hide BodyMapped, MappingsAccepted;
    if ScopesKept(m, h) {
      ValidRenamed(m, h, org, project);
    }
    if ValidHistory(Renamed(m, h), org, m.project) {
      RenamedVersionsKept(m, h, org);
    }
  }

  lemma RenamedVersionsKept(m: Names, h: History, org: Id)
    requires Renaming(m.owned) && m.project != NIL && ValidHistory(Renamed(m, h), org, m.project)
    requires forall v | v in h.versions :: v.Valid() && BodyMapped(m, v.body)
    ensures ScopesKept(m, h)
  {
    var g := Renamed(m, h);
    EachMembers(h.versions, v => RenameVersion(m, v));
    forall v | v in h.versions ensures ScopesStayDistinct(m, v.body) {
      hide ScopesStayDistinct;
      assert RenameVersion(m, v) in g.versions;
      assert VersionRowOk(Heads(g), LookRows(g), RenameVersion(m, v), org, m.project);
      VersionRenamed(m, v);
    }
  }

  // The loops over the cloned history.

  method CopyHeads(m: Names, heads: seq<Head>) returns (r: seq<Head>, identities: seq<Mapping>)
    ensures r == Each(heads, x => RenameHead(m, x))
    ensures |identities| == |heads|
    ensures forall i :: 0 <= i < |heads| ==> identities[i] == Mapping(heads[i].kind, heads[i].id, m.owned(heads[i].id))
  {
    r, identities := heads, [];
    for i := 0 to |heads|
      invariant |r| == |heads| && |identities| == i
      invariant forall j :: 0 <= j < i ==> r[j] == RenameHead(m, heads[j])
      invariant forall j :: i <= j < |heads| ==> r[j] == heads[j]
      invariant forall j :: 0 <= j < i ==> identities[j] == Mapping(heads[j].kind, heads[j].id, m.owned(heads[j].id))
    {
      var x := r[i];
      identities := identities + [Mapping(x.kind, x.id, m.owned(x.id))];
      x := x.(id := m.owned(x.id));
      x := x.(project := m.project);
      x := x.(current := m.owned(x.current));
      x := x.(confirmed := MapOption(m.owned, x.confirmed));
      x := x.(redirect := MapOption(m.owned, x.redirect));
      r := r[i := x];
    }
  }

  method CopyLook(m: Names, l: Look) returns (r: Look)
    requires forall x | x in l.references :: x.media in m.references
    requires forall s | s in l.appliesTo :: s in m.scopes
    ensures r == RenameLook(m, l)
  {
    var references, scopes := l.references, l.appliesTo;
    for k := 0 to |references|
      invariant |references| == |l.references|
      invariant forall j :: 0 <= j < k ==> references[j] == RenameReferences(m, l.references)[j]
      invariant forall j :: k <= j < |references| ==> references[j] == l.references[j]
    {
      assert l.references[k] in l.references;
      references := references[k := references[k].(media := m.references[references[k].media])];
    }
    assert references == RenameReferences(m, l.references);
    for k := 0 to |scopes|
      invariant |scopes| == |l.appliesTo|
      invariant forall j :: 0 <= j < k ==> scopes[j] == RenameScopes(m, l.appliesTo)[j]
      invariant forall j :: k <= j < |scopes| ==> scopes[j] == l.appliesTo[j]
    {
      assert l.appliesTo[k] in l.appliesTo;
      scopes := scopes[k := m.scopes[scopes[k]]];
    }
    assert scopes == RenameScopes(m, l.appliesTo);
    return l.(id := m.owned(l.id), references := references, appliesTo := scopes);
  }

  method CopyCharacter(m: Names, c: CharacterContent) returns (r: CharacterContent)
    requires BodyFacts(CharacterBody(c)) <= m.references.Keys && BodyScopes(CharacterBody(c)) <= m.scopes.Keys
    ensures CharacterBody(r) == RenameBody(m, CharacterBody(c))
  {
    ghost var b := CharacterBody(c);
    var looks := c.looks;
    for j := 0 to |looks|
      invariant |looks| == |c.looks|
      invariant forall i :: 0 <= i < j ==> looks[i] == RenameLook(m, c.looks[i])
      invariant forall i :: j <= i < |looks| ==> looks[i] == c.looks[i]
    {
      var l := looks[j];
      assert l in b.character.looks;
      assert forall x | x in l.references :: x.media in BodyFacts(b);
      assert forall s | s in l.appliesTo :: s in BodyScopes(b);
      var copied := CopyLook(m, l);
      looks := looks[j := copied];
    }
    var voice := c.voice;
    if voice.Some? && voice.value.SampleChoice? {
      assert voice.value.media in BodyFacts(b);
      voice := Some(voice.value.(media := m.references[voice.value.media]));
    }
    assert looks == RenameLooks(m, c.looks);
    return c.(looks := looks, voice := voice);
  }

  /** All renamed content is valid. */
  ghost predicate ContentsRenamed(m: Names, versions: seq<Version>) {
    forall v | v in versions :: ContentOk(v.kind, RenameBody(m, v.body))
  }

  /** Every renamed version gets the digest of its new content, and stops the copy if that is not valid. */
  method CopyVersions(m: Names, versions: seq<Version>) returns (copied: Option<seq<Version>>, mappings: seq<Mapping>)
    requires forall v | v in versions :: BodyFacts(v.body) <= m.references.Keys && BodyScopes(v.body) <= m.scopes.Keys
    ensures copied == if ContentsRenamed(m, versions) then Some(Each(versions, v => RenameVersion(m, v))) else None
    ensures copied.Some? ==> |mappings| == |versions|
    ensures copied.Some? ==> forall i :: 0 <= i < |versions| ==>
              mappings[i] == Mapping(versions[i].kind, versions[i].id, m.owned(versions[i].id))
  {
    hide BodyFacts, BodyScopes, RenameBody, ContentOk;
    var r := versions;
    mappings := [];
    for i := 0 to |versions|
      invariant |r| == |versions| && |mappings| == i
      invariant forall j :: 0 <= j < i ==> ContentOk(versions[j].kind, RenameBody(m, versions[j].body))
      invariant forall j :: 0 <= j < i ==> r[j] == RenameVersion(m, versions[j])
      invariant forall j :: i <= j < |versions| ==> r[j] == versions[j]
      invariant forall j :: 0 <= j < i ==>
                  mappings[j] == Mapping(versions[j].kind, versions[j].id, m.owned(versions[j].id))
    {
      var v := r[i];
      assert v == versions[i] && v in versions;
      mappings := mappings + [Mapping(v.kind, v.id, m.owned(v.id))];
      var body := CopyBody(m, v.body);
      var digest := Content(v.kind, body);
      if digest.None? {
        return None, mappings;
      }
      v := v.(id := m.owned(v.id), entry := m.owned(v.entry), project := m.project);
      v := v.(previous := MapOption(m.owned, v.previous));
      v := v.(body := body, digest := digest.value);
      r := r[i := v];
    }
    assert r == Each(versions, v => RenameVersion(m, v));
    return Some(r), mappings;
  }

  method CopyBody(m: Names, b: Body) returns (r: Body)
    requires BodyFacts(b) <= m.references.Keys && BodyScopes(b) <= m.scopes.Keys
    ensures r == RenameBody(m, b)
  {
    if b.CharacterBody? {
      assert b == CharacterBody(b.character);
      var c := CopyCharacter(m, b.character);
      return CharacterBody(c);
    }
    return b;
  }

  method CopyLookRows(m: Names, looks: seq<LookRow>) returns (r: seq<LookRow>)
    ensures r == Each(looks, l => RenameLookRow(m, l))
  {
    r := looks;
    for i := 0 to |looks|
      invariant |r| == |looks|
      invariant forall j :: 0 <= j < i ==> r[j] == RenameLookRow(m, looks[j])
      invariant forall j :: i <= j < |looks| ==> r[j] == looks[j]
    {
      r := r[i := r[i].(id := m.owned(r[i].id), character := m.owned(r[i].character))];
    }
  }

  method CopyConfirmations(m: Names, cs: seq<Confirmation>) returns (r: seq<Confirmation>)
    ensures r == Each(cs, c => RenameConfirmation(m, c))
  {
    r := cs;
    for i := 0 to |cs|
      invariant |r| == |cs|
      invariant forall j :: 0 <= j < i ==> r[j] == RenameConfirmation(m, cs[j])
      invariant forall j :: i <= j < |cs| ==> r[j] == cs[j]
    {
      r := r[i := r[i].(id := m.owned(r[i].id), entry := m.owned(r[i].entry), version := m.owned(r[i].version))];
    }
  }

  method CopyLinks(m: Names, links: seq<Link>) returns (r: seq<Link>)
    ensures r == Each(links, x => RenameLink(m, x))
  {
    r := links;
    for i := 0 to |links|
      invariant |r| == |links|
      invariant forall j :: 0 <= j < i ==> r[j] == RenameLink(m, links[j])
      invariant forall j :: i <= j < |links| ==> r[j] == links[j]
    {
      var x := r[i];
      x := x.(id := m.owned(x.id), source := m.owned(x.source), target := m.owned(x.target));
      x := x.(sourceVersion := m.owned(x.sourceVersion), targetVersion := m.owned(x.targetVersion));
      r := r[i := x];
    }
  }

  method CopyHistory(m: Names, h: History)
    returns (r: Option<History>, identities: seq<Mapping>, versions: seq<Mapping>)
    requires MediaFacts(h) <= m.references.Keys && LookScopes(h) <= m.scopes.Keys
    ensures r == if ContentsRenamed(m, h.versions) then Some(Renamed(m, h)) else None
    ensures r.Some? ==> Mapped(m, h, identities, versions)
  {
    assert forall v | v in h.versions ::
      BodyFacts(v.body) <= m.references.Keys && BodyScopes(v.body) <= m.scopes.Keys by {
      forall v, x | v in h.versions && x in BodyFacts(v.body) ensures x in m.references {
        assert x in MediaFacts(h);
      }
      forall v, x | v in h.versions && x in BodyScopes(v.body) ensures x in m.scopes {
        assert x in LookScopes(h);
      }
    }
    hide MediaFacts, LookScopes, BodyFacts, BodyScopes, ContentsRenamed;
    var heads, copies, looks, confirmations, redirects, splits;
    heads, identities := CopyHeads(m, h.heads);
    copies, versions := CopyVersions(m, h.versions);
    if copies.None? {
      return None, identities, versions;
    }
    looks := CopyLookRows(m, h.looks);
    confirmations := CopyConfirmations(m, h.confirmations);
    redirects := CopyLinks(m, h.redirects);
    splits := CopyLinks(m, h.splits);
    r := Some(History(heads, copies.value, looks, confirmations, redirects, splits));
  }

  /** One mapping for every entry and one for every version, in the order of the history. */
  ghost predicate Mapped(m: Names, h: History, identities: seq<Mapping>, versions: seq<Mapping>) {
    && |identities| == |h.heads| && |versions| == |h.versions|
    && (forall i :: 0 <= i < |identities| ==>
          identities[i] == Mapping(h.heads[i].kind, h.heads[i].id, m.owned(h.heads[i].id)))
    && (forall i :: 0 <= i < |versions| ==>
          versions[i] == Mapping(h.versions[i].kind, h.versions[i].id, m.owned(h.versions[i].id)))
  }

  // What the canonical order does not change.

  lemma CanonicalContent(h: History, refs: seq<ReferenceMapping>, scopes: seq<ScopeMapping>)
    ensures MediaFacts(Canonical(h)) == MediaFacts(h) && LookScopes(Canonical(h)) == LookScopes(h)
    ensures ReferencesAccepted(Canonical(h), refs) == ReferencesAccepted(h, refs)
    ensures ScopesAccepted(Canonical(h), scopes) == ScopesAccepted(h, scopes)
    ensures forall m: Names :: ScopesKept(m, Canonical(h)) == ScopesKept(m, h)
  {
    ReorderedMembers(h.versions, Canonical(h).versions);
    hide BodyFacts, BodyScopes, ReferenceRowsOk, ScopeRowsOk, ReferenceMap, ScopeMap, Canonical, ScopesStayDistinct;
  }

  /** What a manifest says about the history it was made from. */
  ghost predicate Describes(m: Names, h: History, x: Manifest) {
    && x.source == Canonical(h)
    && x.target == Canonical(Renamed(m, x.source))
    && x.references == m.references && x.scopes == m.scopes
    && x.counts == CountsOf(h) == CountsOf(x.target)
    && Mapped(m, x.source, x.identities, x.versions)
  }

  /** The manifest does not depend on the order in which the history was read. */
  lemma ManifestIgnoresOrder(m: Names, h: History, g: History, x: Manifest)
    requires IdsOk(h) && SameRows(h, g)
    ensures Describes(m, h, x) <==> Describes(m, g, x)
  {
    CanonicalUnique(h, g);
    CountsReordered(h, g);
    hide Canonical, CountsOf, Mapped, Renamed;
  }

  /** The two validations of a copy, and the counts the second one has to reproduce. */
  lemma CopyValid(m: Names, h: History, refs: seq<ReferenceMapping>, scopes: seq<ScopeMapping>, org: Id, project: Id)
    requires Renaming(m.owned) && m.project != NIL && ValidHistory(h, org, project) && MappingsAccepted(h, refs, scopes)
    requires m.references == ReferenceMap(refs) && m.scopes == ScopeMap(scopes)
    ensures ValidHistory(Canonical(Renamed(m, Canonical(h))), org, m.project) <==> ScopesKept(m, h)
    ensures ContentsRenamed(m, Canonical(h).versions) <==> ScopesKept(m, h)
    ensures CountsOf(Canonical(Renamed(m, Canonical(h)))) == CountsOf(h)
  {
    var source := Canonical(h);
    var target := Renamed(m, source);
    CanonicalContent(h, refs, scopes);
    CanonicalValid(h, org, project);
    CanonicalValid(target, org, m.project);
    RenamedValidIff(m, source, refs, scopes, org, project);
    ContentsIff(m, source, refs, scopes, org, project);
    CountsRenamed(m, source);
  }

  /** Renamed content is refused exactly when two scopes of one look are mapped to the same scope. */
  lemma ContentsIff(m: Names, h: History, refs: seq<ReferenceMapping>, scopes: seq<ScopeMapping>, org: Id, project: Id)
    requires Renaming(m.owned) && ValidHistory(h, org, project) && MappingsAccepted(h, refs, scopes)
    requires m.references == ReferenceMap(refs) && m.scopes == ScopeMap(scopes)
    ensures ContentsRenamed(m, h.versions) <==> ScopesKept(m, h)
  {
    forall v | v in h.versions ensures ContentOk(v.kind, RenameBody(m, v.body)) <==> ScopesStayDistinct(m, v.body) {
      assert VersionRowOk(Heads(h), LookRows(h), v, org, project);
      VersionCarried(m, h, refs, scopes, v);
      ContentRenamed(m, v.kind, v.body);
    }
    hide ContentOk, ScopesStayDistinct;
  }

  method RemapProjectHistory(
    b: Binding, h: History, refs: seq<ReferenceMapping>, scopes: seq<ScopeMapping>, owned: Id -> Id)
    returns (r: Result<Manifest, CopyError>)
    requires Renaming(owned)
    ensures r.Success? <==>
              && BindingOk(b) && ValidHistory(h, b.org, b.source) && MappingsAccepted(h, refs, scopes)
              && ScopesKept(NamesOf(b, owned, refs, scopes), h)
    ensures r.Success? ==> r.value.binding == b && Describes(NamesOf(b, owned, refs, scopes), h, r.value)
    ensures r.Success? ==> ValidHistory(r.value.target, b.org, b.target)
    ensures r == Failure(Unavailable) <==>
              !BindingOk(b) || (ValidHistory(h, b.org, b.source) && !MappingsAccepted(h, refs, scopes))
    ensures r == Failure(CorruptSource) <==> BindingOk(b) && !ValidHistory(h, b.org, b.source)
  {
    hide ValidHistory, ReferenceRowsOk, ScopeRowsOk, ReferenceMap, ScopeMap, MediaFacts, LookScopes;
    hide CountsOf, Canonical, ScopesKept, Renamed, Mapped, ContentsRenamed;
    if b.job == NIL || b.org == NIL || b.source == NIL || b.target == NIL || b.source == b.target {
      return Failure(Unavailable);
    }
    var source := Canonical(h);
    CanonicalContent(h, refs, scopes);
    CanonicalValid(h, b.org, b.source);
    var checked := ValidateCopyHistory(source, b.org, b.source);
    if checked.Failure? {
      return Failure(CorruptSource);
    }
    var accepted, references := CopyReferenceMap(source, refs);
    if !accepted {
      return Failure(Unavailable);
    }
    var mapped;
    accepted, mapped := CopyScopeMap(source, scopes);
    if !accepted {
      return Failure(Unavailable);
    }
    var m := Names(owned, b.target, references, mapped);
    CopyValid(m, h, refs, scopes, b.org, b.source);
    var copied, identities, versions := CopyHistory(m, source);
    if copied.None? {
      return Failure(InvalidTarget);
    }
    var target := Canonical(copied.value);
    var again := ValidateCopyHistory(target, b.org, b.target);
    if again.Failure? || again.value != checked.value {
      return Failure(CorruptSource);
    }
    return Success(Manifest(b, source, target, references, mapped, checked.value, identities, versions));
  }
}
