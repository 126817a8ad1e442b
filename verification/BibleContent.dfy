/** Bible identities and their immutable typed content. */
module BibleContent {
  import opened Wrappers
  import opened Ids
  import opened Rows

  const MAX_INT32 := 0x7fff_ffff
  const MAX_ALIASES := 64
  const MAX_LOOKS := 200
  const MAX_REFERENCES := 8
  const MAX_SCOPES := 2500

  /** Microseconds on the service's clock; zero is the zero time. */
  type Time = nat

  datatype Kind = Character | Location | Prop | OtherKind {
    predicate Valid() {
      !OtherKind?
    }
  }

  datatype MediaKind = Image | Audio | OtherMedia

  /** The text of a digest: empty, not a canonical SHA-256, or one. */
  datatype Sha = NoSha | BadSha | Sha(value: nat)

  datatype MediaFact = MediaFact(
    asset: Id, revision: int, sha: Sha, bytes: int, kind: MediaKind, rendition: Id, renditionSha: Sha)
  {
    predicate Valid(expected: MediaKind) {
      && asset != NIL
      && 1 <= revision <= MAX_INT32
      && sha.Sha?
      && bytes >= 1
      && kind == expected
      && (expected == Image ==> rendition != NIL && renditionSha.Sha?)
      && (expected == Audio ==> rendition == NIL && renditionSha == NoSha)
    }
  }

  datatype ImageRole = Primary | Front | Side | Back | Turnaround | Expression | OtherRole

  datatype ImageReference = ImageReference(role: ImageRole, media: MediaFact)

  datatype LookScope = LookScope(episode: Id, scene: Option<Id>)

  /** A scope as the content rules compare it: an absent scene counts as the nil scene. */
  datatype ScopeKey = ScopeKey(episode: Id, scene: Id)

  function KeyOf(s: LookScope): ScopeKey {
    ScopeKey(s.episode, if s.scene.Some? then s.scene.value else NIL)
  }

  datatype Look = Look(
    id: Id, name: string, description: string, isDefault: bool,
    appliesTo: seq<LookScope>, references: seq<ImageReference>)

  datatype CatalogVoice = CatalogVoice(
    modelKey: string, modelVersionId: Id, modelVersion: int, voiceKey: string, schemaSha: Sha, params: string)

  datatype Voice =
    | CatalogChoice(instructions: string, catalog: CatalogVoice)
    | SampleChoice(instructions: string, name: string, media: MediaFact)

  /** The editable words of an entry; for a character the definition's fields are in `details`. */
  datatype Labels = Labels(name: string, aliases: seq<string>, details: seq<string>)

  datatype CharacterContent = CharacterContent(labels: Labels, looks: seq<Look>, voice: Option<Voice>)

  datatype Body =
    | CharacterBody(character: CharacterContent)
    | LocationBody(labels: Labels)
    | PropBody(labels: Labels)

  predicate LabelsOk(l: Labels) {
    && l.name != ""
    && |l.aliases| <= MAX_ALIASES
    && (forall i :: 0 <= i < |l.aliases| ==> l.aliases[i] != "")
    && (forall i, j :: 0 <= i < j < |l.aliases| ==> l.aliases[i] != l.aliases[j])
  }

  predicate ReferencesOk(rs: seq<ImageReference>) {
    && |rs| <= MAX_REFERENCES
    && (forall i :: 0 <= i < |rs| ==> rs[i].role != OtherRole && rs[i].media.Valid(Image))
    && (forall i, j :: 0 <= i < j < |rs| ==> rs[i].role != rs[j].role)
  }

  predicate ScopesDistinct(ss: seq<LookScope>) {
    forall i, j :: 0 <= i < j < |ss| ==> KeyOf(ss[i]) != KeyOf(ss[j])
  }

  predicate ScopesOk(ss: seq<LookScope>) {
    && |ss| <= MAX_SCOPES
    && (forall i :: 0 <= i < |ss| ==> ss[i].episode != NIL && ss[i].scene != Some(NIL))
    && ScopesDistinct(ss)
  }

  predicate LookOk(l: Look) {
    l.id != NIL && l.name != "" && ReferencesOk(l.references) && ScopesOk(l.appliesTo)
  }

  predicate LookIdsDistinct(ls: seq<Look>) {
    forall i, j :: 0 <= i < j < |ls| ==> ls[i].id != ls[j].id
  }

  predicate NoDefault(ls: seq<Look>) {
    forall i :: 0 <= i < |ls| ==> !ls[i].isDefault
  }

  predicate OnlyDefault(ls: seq<Look>, i: nat)
    requires i < |ls|
  {
    forall j :: 0 <= j < |ls| ==> (ls[j].isDefault <==> j == i)
  }

  predicate OneDefault(ls: seq<Look>) {
    exists i :: 0 <= i < |ls| && OnlyDefault(ls, i)
  }

  predicate VoiceOk(v: Voice) {
    match v
    case SampleChoice(_, name, media) => name != "" && media.Valid(Audio)
    case CatalogChoice(_, c) =>
      c.modelKey != "" && c.voiceKey != "" && c.modelVersionId != NIL && c.modelVersion >= 1 && c.schemaSha.Sha?
  }

  predicate CharacterOk(c: CharacterContent) {
    && LabelsOk(c.labels)
    && 1 <= |c.looks| <= MAX_LOOKS
    && (forall i :: 0 <= i < |c.looks| ==> LookOk(c.looks[i]))
    && LookIdsDistinct(c.looks)
    && OneDefault(c.looks)
    && (c.voice.Some? ==> VoiceOk(c.voice.value))
  }

  /** Exactly the content kind that the entry kind asks for, and valid. */
  predicate ContentOk(kind: Kind, b: Body) {
    match b
    case CharacterBody(c) => kind == Character && CharacterOk(c)
    case LocationBody(l) => kind == Location && LabelsOk(l)
    case PropBody(l) => kind == Prop && LabelsOk(l)
  }

  /** The content digest, as an ideal hash: equal exactly for equal content. */
  datatype Digest = DigestOf(content: Body)

  datatype Origin = Manual | AI | OtherOrigin

  datatype ResultSource = ResultSource(operation: Id, output: Id, outputSha: Sha, inputSha: Sha)

  datatype Version = Version(
    id: Id, entry: Id, org: Id, project: Id, kind: Kind, number: int, previous: Option<Id>,
    actor: Id, createdAt: Time, origin: Origin, result: Option<ResultSource>, digest: Digest, body: Body)
  {
    function Looks(): seq<Look> {
      if body.CharacterBody? then body.character.looks else []
    }

    predicate ProvenanceOk() {
      match origin
      case Manual => result == None
      case AI =>
        && result.Some?
        && result.value.operation != NIL && result.value.output != NIL
        && result.value.inputSha.Sha? && result.value.outputSha.Sha?
      case OtherOrigin => false
    }

    predicate Valid() {
      && id != NIL && entry != NIL && org != NIL && project != NIL && actor != NIL
      && number >= 1
      && createdAt != 0
      && (previous.Some? ==> previous.value != NIL && previous.value != id)
      && ProvenanceOk()
      && ContentOk(kind, body)
      && digest == DigestOf(body)
    }
  }

  // The loops of CharacterContent.Validate, each against its declarative rule.

  method ValidateLabels(l: Labels) returns (ok: bool)
    ensures ok == LabelsOk(l)
  {
    if l.name == "" || |l.aliases| > MAX_ALIASES {
      return false;
    }
    var seen := {};
    for n := 0 to |l.aliases|
      invariant seen == set i | 0 <= i < n :: l.aliases[i]
      invariant forall i :: 0 <= i < n ==> l.aliases[i] != ""
      invariant forall i, j :: 0 <= i < j < n ==> l.aliases[i] != l.aliases[j]
    {
      if l.aliases[n] == "" || l.aliases[n] in seen {
        return false;
      }
      seen := seen + {l.aliases[n]};
    }
    return true;
  }

  method ValidateReferences(rs: seq<ImageReference>) returns (ok: bool)
    requires |rs| <= MAX_REFERENCES
    ensures ok == ReferencesOk(rs)
  {
    var roles := {};
    for n := 0 to |rs|
      invariant roles == set i | 0 <= i < n :: rs[i].role
      invariant forall i :: 0 <= i < n ==> rs[i].role != OtherRole && rs[i].media.Valid(Image)
      invariant forall i, j :: 0 <= i < j < n ==> rs[i].role != rs[j].role
    {
      if rs[n].role == OtherRole || rs[n].role in roles || !rs[n].media.Valid(Image) {
        return false;
      }
      roles := roles + {rs[n].role};
    }
    return true;
  }

  method ValidateScopes(ss: seq<LookScope>) returns (ok: bool)
    requires |ss| <= MAX_SCOPES
    ensures ok == ScopesOk(ss)
  {
    var keys := {};
    for n := 0 to |ss|
      invariant keys == set i | 0 <= i < n :: KeyOf(ss[i])
      invariant forall i :: 0 <= i < n ==> ss[i].episode != NIL && ss[i].scene != Some(NIL)
      invariant ScopesDistinct(ss[..n])
    {
      if ss[n].episode == NIL || ss[n].scene == Some(NIL) || KeyOf(ss[n]) in keys {
        return false;
      }
      keys := keys + {KeyOf(ss[n])};
    }
    assert ss[..|ss|] == ss;
    return true;
  }

  method ValidateLook(l: Look) returns (ok: bool)
    ensures ok == LookOk(l)
  {
    if l.id == NIL || l.name == "" || |l.references| > MAX_REFERENCES || |l.appliesTo| > MAX_SCOPES {
      return false;
    }
    ok := ValidateReferences(l.references);
    if ok {
      ok := ValidateScopes(l.appliesTo);
    }
  }

  method ValidateLooks(ls: seq<Look>) returns (ok: bool)
    ensures ok <==> (forall i :: 0 <= i < |ls| ==> LookOk(ls[i])) && LookIdsDistinct(ls) && OneDefault(ls)
  {
    var ids := {};
    var defaults := 0;
    for n := 0 to |ls|
      invariant ids == set i | 0 <= i < n :: ls[i].id
      invariant forall i :: 0 <= i < n ==> LookOk(ls[i])
      invariant LookIdsDistinct(ls[..n])
      invariant defaults >= 0
      invariant defaults == 0 <==> NoDefault(ls[..n])
      invariant defaults == 1 <==> OneDefault(ls[..n])
    {
      var valid := ValidateLook(ls[n]);
      if !valid || ls[n].id in ids {
        return false;
      }
      ids := ids + {ls[n].id};
      DefaultsAppend(ls[..n], ls[n]);
      assert ls[..n + 1] == ls[..n] + [ls[n]];
      if ls[n].isDefault {
        defaults := defaults + 1;
      }
    }
    assert ls[..|ls|] == ls;
    return defaults == 1;
  }

  lemma DefaultsAppend(ls: seq<Look>, l: Look)
    ensures NoDefault(ls + [l]) <==> NoDefault(ls) && !l.isDefault
    ensures OneDefault(ls + [l]) <==> if l.isDefault then NoDefault(ls) else OneDefault(ls)
  {
    var all, n := ls + [l], |ls|;
    assert all[n] == l;
    assert forall i :: 0 <= i < n ==> all[i] == ls[i];
    if l.isDefault && NoDefault(ls) {
      assert OnlyDefault(all, n);
    }
    if !l.isDefault && OneDefault(ls) {
      var i :| 0 <= i < n && OnlyDefault(ls, i);
      assert OnlyDefault(all, i);
    }
    if OneDefault(all) {
      var i :| 0 <= i < |all| && OnlyDefault(all, i);
      assert i < n ==> OnlyDefault(ls, i);
    }
  }

  method ValidateCharacter(c: CharacterContent) returns (ok: bool)
    ensures ok == CharacterOk(c)
  {
    ok := ValidateLabels(c.labels);
    if !ok || |c.looks| < 1 || |c.looks| > MAX_LOOKS {
      return false;
    }
    ok := ValidateLooks(c.looks);
    return ok && (c.voice.None? || VoiceOk(c.voice.value));
  }

  /** The digest of content of the given kind, if it is valid. */
  method Content(kind: Kind, b: Body) returns (r: Option<Digest>)
    ensures r == if ContentOk(kind, b) then Some(DigestOf(b)) else None
  {
    var ok;
    match b {
      case CharacterBody(c) =>
        ok := ValidateCharacter(c);
        ok := ok && kind == Character;
      case LocationBody(l) =>
        ok := ValidateLabels(l);
        ok := ok && kind == Location;
      case PropBody(l) =>
        ok := ValidateLabels(l);
        ok := ok && kind == Prop;
    }
    return if ok then Some(DigestOf(b)) else None;
  }

  method ValidateVersion(v: Version) returns (ok: bool)
    ensures ok == v.Valid()
  {
    if v.id == NIL || v.entry == NIL || v.org == NIL || v.project == NIL
       || v.actor == NIL || v.number < 1 || v.createdAt == 0 {
      return false;
    }
    if v.previous.Some? && (v.previous.value == NIL || v.previous.value == v.id) {
      return false;
    }
    if !v.ProvenanceOk() {
      return false;
    }
    var digest := Content(v.kind, v.body);
    return digest == Some(v.digest);
  }
}
