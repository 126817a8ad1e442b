/** Paging through the configured voices: every page, and all pages together. */
module Voices {
  import opened Wrappers
  import opened Rows

  /** A text by its place in the byte order of texts; zero stands for blank text. */
  type Name = nat

  const MODEL_PAGE: nat := 50
  const MAX_LIMIT := 200

  /** A value that a parameter may take; `Other` stands for numbers and for texts too long to name a voice. */
  datatype Value = Text(name: Name) | Other(number: nat)

  /** A parameter of a published schema: whether it is shown as a voice, is named voice_id, and is a text. */
  datatype Field = Field(voice: bool, voiceId: bool, text: bool, options: seq<Value>)

  /** A configured model; `published` says that its version meets every other rule of publication. */
  datatype Model = Model(key: Name, version: int, display: string, published: bool, fields: seq<Field>)

  datatype Choice = Choice(model: Name, version: int, voice: Name, display: string)

  datatype Cursor = Cursor(model: Name, voice: Name)

  datatype ModelCursor = ModelCursor(key: Name, inclusive: bool)

  datatype Page = Page(voices: seq<Choice>, next: Option<Cursor>)

  datatype Error = InvalidSelection | Unavailable

  predicate NameLe(a: Name, b: Name) {
    a <= b
  }

  // The catalog as one list of choices.

  function ChoicesOf(m: Model, voices: seq<Name>): (r: seq<Choice>)
    ensures |r| == |voices| && forall i :: 0 <= i < |voices| ==> r[i] == Choice(m.key, m.version, voices[i], m.display)
  {
    seq(|voices|, i requires 0 <= i < |voices| => Choice(m.key, m.version, voices[i], m.display))
  }

  // What a model offers.

  predicate DistinctOptions(f: Field) {
    forall i, j :: 0 <= i < j < |f.options| ==> f.options[i] != f.options[j]
  }

  /** The rules of publication; that the values of a field are distinct is the one that paging relies on. */
  predicate Publishable(m: Model) {
    m.published && forall i :: 0 <= i < |m.fields| ==> DistinctOptions(m.fields[i])
  }

  predicate Named(v: Value) {
    v.Text? && v.name != 0
  }

  predicate VoiceFieldOk(f: Field) {
    f.voice ==> f.voiceId && f.text && forall i :: 0 <= i < |f.options| ==> Named(f.options[i])
  }

  predicate FieldsOk(fields: seq<Field>) {
    && (forall i :: 0 <= i < |fields| ==> VoiceFieldOk(fields[i]))
    && (forall i, j :: 0 <= i < j < |fields| ==> !(fields[i].voice && fields[j].voice))
  }

  /** The model may be published, and offers the voices of at most one field. */
  predicate Fit(m: Model) {
    Publishable(m) && FieldsOk(m.fields)
  }

  function Names(options: seq<Value>): (r: seq<Name>)
    ensures |r| == |options| && forall i :: 0 <= i < |r| && options[i].Text? ==> r[i] == options[i].name
  {
    seq(|options|, i requires 0 <= i < |options| => if options[i].Text? then options[i].name else 0)
  }

  function Offered(fields: seq<Field>): seq<Name> {
    if fields == [] then [] else
      Offered(fields[..|fields| - 1]) + if fields[|fields| - 1].voice then Names(fields[|fields| - 1].options) else []
  }

  function Sorted(m: Model): seq<Name> {
    if Fit(m) then Sort(Offered(m.fields), NameLe) else []
  }

  function Flat(models: seq<Model>): seq<Choice> {
    if models == [] then []
       else Flat(models[..|models| - 1]) + ChoicesOf(models[|models| - 1], Sorted(models[|models| - 1]))
  }

  predicate Beyond(c: Choice, after: Option<Cursor>) {
    after.Some? ==> c.model > after.value.model || (c.model == after.value.model && c.voice > after.value.voice)
  }

  function Filter(s: seq<Choice>, after: Option<Cursor>): seq<Choice> {
    if s == [] then [] else
      var front, last := Filter(s[..|s| - 1], after), s[|s| - 1];
      if Beyond(last, after) then front + [last] else front
  }

  /** The choices that come after a position, in order. */
  function Remaining(models: seq<Model>, after: Option<Cursor>): seq<Choice> {
    Filter(Flat(models), after)
  }

  function CursorOf(c: Choice): Cursor {
    Cursor(c.model, c.voice)
  }

  /** The first `limit` of the remaining choices, with a position to go on from when there are more. */
  function PageOf(models: seq<Model>, limit: nat, after: Option<Cursor>): Page
    requires limit > 0
  {
    var all := Remaining(models, after);
    if |all| <= limit then Page(all, None) else Page(all[..limit], Some(CursorOf(all[limit - 1])))
  }

  ghost predicate Ordered(models: seq<Model>) {
    && (forall i :: 0 <= i < |models| ==> models[i].key != 0)
    && (forall i, j :: 0 <= i < j < |models| ==> models[i].key < models[j].key)
  }

  predicate Accepted(models: seq<Model>) {
    forall i :: 0 <= i < |models| ==> Fit(models[i])
  }

  // Filtering.

  lemma FilterAppend(s: seq<Choice>, c: Choice, after: Option<Cursor>)
    ensures Filter(s + [c], after) == Filter(s, after) + if Beyond(c, after) then [c] else []
  {
    assert (s + [c])[..|s|] == s;
  }

  lemma {:induction false} FilterJoin(s: seq<Choice>, t: seq<Choice>, after: Option<Cursor>)
    ensures Filter(s + t, after) == Filter(s, after) + Filter(t, after)
  {
    if t == [] {
      assert s + t == s;
    } else {
      var front, last := t[..|t| - 1], t[|t| - 1];
      FilterJoin(s, front, after);
      assert s + t == (s + front) + [last];
      FilterAppend(s + front, last, after);
    }
  }

  /** The choices of the first `n` models. */
  function UpTo(models: seq<Model>, n: nat): seq<Choice>
    requires n <= |models|
  {
    Flat(models[..n])
  }

  lemma {:induction false} UpToGrows(models: seq<Model>, n: nat)
    requires n <= |models|
    ensures UpTo(models, n) <= Flat(models)
  {
    if n == |models| {
      assert models[..n] == models;
    } else {
      var front := models[..|models| - 1];
      UpToGrows(front, n);
      assert front[..n] == models[..n];
    }
  }

  /** Models before the cursor's own have nothing left. */
  lemma {:induction false} EarlierModels(models: seq<Model>, after: Cursor)
    requires forall i :: 0 <= i < |models| ==> models[i].key < after.model
    ensures Remaining(models, Some(after)) == []
  {
    if models != [] {
      var front, last := models[..|models| - 1], models[|models| - 1];
      EarlierModels(front, after);
      FilterJoin(Flat(front), ChoicesOf(last, Sorted(last)), Some(after));
      NothingBeyond(ChoicesOf(last, Sorted(last)), after);
    }
  }

  lemma {:induction false} NothingBeyond(s: seq<Choice>, after: Cursor)
    requires forall i :: 0 <= i < |s| ==> !Beyond(s[i], Some(after))
    ensures Filter(s, Some(after)) == []
  {
    if s != [] {
      NothingBeyond(s[..|s| - 1], after);
    }
  }

  // The owner of the models.

  class VoiceModels {
    const models: seq<Model>

    constructor (models: seq<Model>)
      ensures this.models == models
    {
      this.models := models;
    }

    predicate AtOrAfter(m: Model, after: Option<ModelCursor>) {
      after.Some? ==> m.key > after.value.key || (m.key == after.value.key && after.value.inclusive)
    }

    /** How many models come before a position. */
    function Start(after: Option<ModelCursor>): (r: nat)
      ensures r <= |models|
    {
      StartFrom(after, 0)
    }

    function StartFrom(after: Option<ModelCursor>, n: nat): (r: nat)
      requires n <= |models| && forall i :: 0 <= i < n ==> !AtOrAfter(models[i], after)
      ensures r <= |models|
      ensures forall i :: 0 <= i < r ==> !AtOrAfter(models[i], after)
      ensures r < |models| ==> AtOrAfter(models[r], after)
      decreases |models| - n
    {
      if n == |models| || AtOrAfter(models[n], after) then n else StartFrom(after, n + 1)
    }

    /** A bounded read of the models after a position. */
    method ReadConfigured(after: Option<ModelCursor>, limit: nat) returns (r: seq<Model>)
      ensures r == models[Start(after)..if Start(after) + limit <= |models| then Start(after) + limit else |models|]
    {
      var start := Start(after);
      return models[start..if start + limit <= |models| then start + limit else |models|];
    }
  }

  /** Positions after the last model of a page, and at the model of a cursor. */
  lemma StartAfter(store: VoiceModels, n: nat)
    requires Ordered(store.models) && 0 < n <= |store.models|
    ensures store.Start(Some(ModelCursor(store.models[n - 1].key, false))) == n
  {
    var after := Some(ModelCursor(store.models[n - 1].key, false));
    assert forall i :: 0 <= i < n ==> !store.AtOrAfter(store.models[i], after);
    assert n < |store.models| ==> store.AtOrAfter(store.models[n], after);
  }

  // What the voices of one model are.

  lemma OfferedNext(fields: seq<Field>, n: nat)
    requires n < |fields|
    ensures Offered(fields[..n + 1]) == Offered(fields[..n]) + if fields[n].voice then Names(fields[n].options) else []
  {
    assert fields[..n + 1][..n] == fields[..n];
  }

  lemma FieldsNext(fields: seq<Field>, n: nat)
    requires n < |fields|
    ensures FieldsOk(fields[..n + 1]) <==>
              && FieldsOk(fields[..n]) && VoiceFieldOk(fields[n])
              && (fields[n].voice ==> forall i :: 0 <= i < n ==> !fields[i].voice)
    ensures FieldsOk(fields) ==> FieldsOk(fields[..n + 1])
  {
    var more := fields[..n + 1];
    assert forall i :: 0 <= i < n ==> more[i] == fields[..n][i];
    assert more[n] == fields[n];
  }

  /** The voices of a field, if every value of it is a voice. */
  method OptionNames(f: Field) returns (r: Option<seq<Name>>)
    requires f.voice && f.voiceId && f.text
    ensures r == if VoiceFieldOk(f) then Some(Names(f.options)) else None
  {
    var voices: seq<Name> := [];
    for i := 0 to |f.options|
      invariant forall j :: 0 <= j < i ==> Named(f.options[j])
      invariant voices == Names(f.options)[..i]
    {
      if !Named(f.options[i]) {
        return None;
      }
      voices := voices + [f.options[i].name];
    }
    assert Names(f.options)[..|f.options|] == Names(f.options);
    return Some(voices);
  }

  /** The sorted voices of a published model. */
  method Fields(m: Model) returns (r: Result<seq<Name>, Error>)
    ensures r.Success? <==> Fit(m)
    ensures r.Success? ==> r.value == Sorted(m)
    ensures r.Failure? ==> r.error == Unavailable
  {
    if !Publishable(m) {
      return Failure(Unavailable);
    }
    var voices: seq<Name>, voiceFields := [], 0;
    hide Offered, FieldsOk, VoiceFieldOk;
    NoFields();
    assert m.fields[..0] == [];
    for i := 0 to |m.fields|
      invariant FieldsOk(m.fields[..i]) && voices == Offered(m.fields[..i])
      invariant voiceFields == 0 <==> forall j :: 0 <= j < i ==> !m.fields[j].voice
    {
      FieldsNext(m.fields, i);
      OfferedNext(m.fields, i);
      if !m.fields[i].voice {
        OtherField(m.fields[i]);
        continue;
      }
      voiceFields := voiceFields + 1;
      if voiceFields != 1 || !m.fields[i].voiceId || !m.fields[i].text {
        WrongField(m.fields[i]);
        return Failure(Unavailable);
      }
      var names := OptionNames(m.fields[i]);
      if names.None? {
        return Failure(Unavailable);
      }
      voices := voices + names.value;
    }
    assert m.fields[..|m.fields|] == m.fields;
    return Success(Sort(voices, NameLe));
  }

  lemma NoFields()
    ensures FieldsOk([]) && Offered([]) == []
  {
  }

  lemma OtherField(f: Field)
    requires !f.voice
    ensures VoiceFieldOk(f)
  {
  }

  lemma WrongField(f: Field)
    requires f.voice
    ensures !f.voiceId || !f.text ==> !VoiceFieldOk(f)
  {
  }

  /** The voices of a fit model are distinct and not blank. */
  lemma {:induction false} OfferedDistinct(fields: seq<Field>)
    requires FieldsOk(fields) && forall i :: 0 <= i < |fields| ==> DistinctOptions(fields[i])
    ensures NoDup(Offered(fields)) && 0 !in Offered(fields)
    ensures (forall i :: 0 <= i < |fields| ==> !fields[i].voice) ==> Offered(fields) == []
  {
    if fields != [] {
      var n := |fields| - 1;
      assert fields[..n + 1] == fields;
      FieldsNext(fields, n);
      OfferedDistinct(fields[..n]);
      if fields[n].voice {
        assert forall i :: 0 <= i < n ==> !fields[..n][i].voice;
        assert Offered(fields) == [] + Names(fields[n].options);
        NamesDistinct(fields[n]);
      }
    }
  }

  lemma NamesDistinct(f: Field)
    requires f.voice && VoiceFieldOk(f) && DistinctOptions(f)
    ensures NoDup(Names(f.options)) && 0 !in Names(f.options)
  {
    assert forall i :: 0 <= i < |f.options| ==> f.options[i] == Text(Names(f.options)[i]);
  }

  // One page.

  predicate InputOk(limit: int, after: Option<Cursor>) {
    1 <= limit <= MAX_LIMIT && (after.Some? ==> after.value.model != 0 && after.value.voice != 0)
  }

  /** A model that is not fit, from the position on, and before the page is known to be full. */
  ghost predicate Blocking(models: seq<Model>, limit: nat, after: Option<Cursor>, i: nat) {
    && i < |models| && !Fit(models[i]) && (after.Some? ==> models[i].key >= after.value.model)
    && |Filter(UpTo(models, i), after)| <= limit
  }

  ghost predicate Blocked(models: seq<Model>, limit: nat, after: Option<Cursor>) {
    exists i: nat :: Blocking(models, limit, after, i)
  }

  /** What List answers. */
  ghost function Answer(models: seq<Model>, limit: int, after: Option<Cursor>): Result<Page, Error> {
    if !InputOk(limit, after) then Failure(InvalidSelection)
    else if Blocked(models, limit, after) then Failure(Unavailable)
    else Success(PageOf(models, limit, after))
  }

  /** Of the first `n` models, those from the position on are fit. */
  ghost predicate FitTo(models: seq<Model>, after: Option<Cursor>, n: nat) {
    forall i :: 0 <= i < |models| && i < n && !Fit(models[i]) ==> after.Some? && models[i].key < after.value.model
  }

  lemma {:induction false} FilterUpTo(models: seq<Model>, after: Option<Cursor>, a: nat, b: nat)
    requires a <= b <= |models|
    ensures |Filter(UpTo(models, a), after)| <= |Filter(UpTo(models, b), after)|
  {
    hide Filter, UpTo, Sorted, ChoicesOf;
    if a < b {
      FilterUpTo(models, after, a, b - 1);
      var rest := AroundModel(models, b - 1);
      FilterJoin(UpTo(models, b - 1), ChoicesOf(models[b - 1], Sorted(models[b - 1])), after);
    }
  }

  lemma NotBlocked(models: seq<Model>, limit: nat, after: Option<Cursor>, n: nat)
    requires n <= |models| && FitTo(models, after, n) && (n == |models| || |Filter(UpTo(models, n), after)| > limit)
    ensures !Blocked(models, limit, after)
  {
    hide Filter, UpTo, Fit;
    if i: nat :| Blocking(models, limit, after, i) {
      if n <= i {
        FilterUpTo(models, after, n, i);
      }
    }
  }

  /** Where paging stands: everything up to here is on the page. */
  ghost predicate Taken(page: seq<Choice>, upTo: seq<Choice>, after: Option<Cursor>, limit: nat) {
    page == Filter(upTo, after) && |page| <= limit
  }

  /** The page is the first `limit` of the remaining choices, and more remain. */
  ghost predicate Full(page: seq<Choice>, models: seq<Model>, limit: nat, after: Option<Cursor>) {
    |page| == limit > 0 && PageOf(models, limit, after) == Page(page, Some(CursorOf(page[limit - 1])))
  }

  /** Another choice when the page has no room for it. */
  lemma PageFull(
    models: seq<Model>, page: seq<Choice>, upTo: seq<Choice>, c: Choice, rest: seq<Choice>, after: Option<Cursor>,
    limit: nat)
    requires limit > 0 && Taken(page, upTo, after, limit) && |page| == limit && Beyond(c, after)
    requires Flat(models) == upTo + [c] + rest
    ensures Full(page, models, limit, after)
  {
    FilterJoin(upTo + [c], rest, after);
    FilterAppend(upTo, c, after);
    assert Remaining(models, after)[..limit] == page;
  }

  /** All choices of one model; `full` when the page had no room for one of them. */
  method TakeModel(
    m: Model, voices: seq<Name>, limit: nat, after: Option<Cursor>, page: seq<Choice>, ghost before: seq<Choice>,
    ghost all: seq<Model>, ghost rest: seq<Choice>)
    returns (r: seq<Choice>, full: bool)
    requires limit > 0 && Taken(page, before, after, limit)
    requires Flat(all) == before + ChoicesOf(m, voices) + rest
    ensures !full ==> Taken(r, before + ChoicesOf(m, voices), after, limit)
    ensures full ==> Full(r, all, limit, after) && |Filter(before + ChoicesOf(m, voices), after)| > limit
  {
    r, full := page, false;
    hide Flat, Filter, Sorted, Beyond, Full;
    ghost var choices := ChoicesOf(m, voices);
    assert before + choices[..0] == before;
    for v := 0 to |voices|
      invariant Taken(r, before + choices[..v], after, limit)
    {
      var c := Choice(m.key, m.version, voices[v], m.display);
      Another(before, choices, v, after);
      if Beyond(c, after) {
        if |r| == limit {
          RestOf(all, before, choices, v, rest);
          PageFull(all, r, before + choices[..v], c, choices[v + 1..] + rest, after, limit);
          return r, true;
        }
        r := r + [c];
      }
    }
    assert choices[..|voices|] == choices;
  }

  lemma Another(before: seq<Choice>, choices: seq<Choice>, v: nat, after: Option<Cursor>)
    requires v < |choices|
    ensures Filter(before + choices[..v + 1], after) ==
              Filter(before + choices[..v], after) + if Beyond(choices[v], after) then [choices[v]] else []
    ensures |Filter(before + choices, after)| >= |Filter(before + choices[..v + 1], after)|
  {
    hide Beyond;
    assert before + choices[..v + 1] == (before + choices[..v]) + [choices[v]];
    FilterAppend(before + choices[..v], choices[v], after);
    assert before + choices == (before + choices[..v + 1]) + choices[v + 1..];
    FilterJoin(before + choices[..v + 1], choices[v + 1..], after);
  }

  lemma RestOf(models: seq<Model>, before: seq<Choice>, choices: seq<Choice>, v: nat, rest: seq<Choice>)
    requires v < |choices| && Flat(models) == before + choices + rest
    ensures Flat(models) == (before + choices[..v]) + [choices[v]] + (choices[v + 1..] + rest)
  {
    hide Flat;
    assert choices == choices[..v] + ([choices[v]] + choices[v + 1..]);
  }

  lemma AroundModel(models: seq<Model>, i: nat) returns (rest: seq<Choice>)
    requires i < |models|
    ensures UpTo(models, i + 1) == UpTo(models, i) + ChoicesOf(models[i], Sorted(models[i]))
    ensures Flat(models) == UpTo(models, i + 1) + rest
  {
    hide Sorted, ChoicesOf;
    assert models[..i + 1][..i] == models[..i];
    UpToGrows(models, i + 1);
    rest := Flat(models)[|UpTo(models, i + 1)|..];
  }

  method ReadPage(store: VoiceModels, cursor: Option<ModelCursor>, ghost start: nat) returns (r: seq<Model>)
    requires start == store.Start(cursor)
    ensures |r| <= MODEL_PAGE && start + |r| <= |store.models| && r == store.models[start..start + |r|]
    ensures |r| < MODEL_PAGE ==> start + |r| == |store.models|
  {
    r := store.ReadConfigured(cursor, MODEL_PAGE);
  }

  /**
    A page of the configured voices: refused for an input out of range, unavailable exactly if the paging meets a
    model that is not fit, and else the next choices after the position.
   */
  method List(store: VoiceModels, limit: int, after: Option<Cursor>) returns (r: Result<Page, Error>)
    requires Ordered(store.models)
    ensures r == Answer(store.models, limit, after)
  {
    if !InputOk(limit, after) {
      return Failure(InvalidSelection);
    }
    hide Flat, UpTo, Filter, Sorted, PageOf, VoiceModels.Start, Taken, Ordered, Fit, FitTo, Blocked;
    var page: seq<Choice> := [];
    var cursor := if after.Some? then Some(ModelCursor(after.value.model, true)) else None;
    ghost var start := store.Start(cursor);
    FromStart(store, after);
    NothingTaken(UpTo(store.models, start), after, limit);
    var done: Option<Result<Page, Error>> := None;
    while done.None?
      invariant done.None? ==> start == store.Start(cursor) && Taken(page, UpTo(store.models, start), after, limit)
      invariant done.None? ==> FitTo(store.models, after, start) && CursorAt(cursor, after)
      invariant done.Some? ==> done.value == Answer(store.models, limit, after)
      decreases done.None?, |store.models| - start
    {
      done, page, cursor, start := NextModels(store, limit, after, page, cursor, start);
    }
    return done.value;
  }

  /** The position among the models is at or after the one among the choices. */
  predicate CursorAt(cursor: Option<ModelCursor>, after: Option<Cursor>) {
    after.Some? ==> cursor.Some? && cursor.value.key >= after.value.model
  }

  /** One round of the loop: a bounded read of models, and what it means for the page. */
  method NextModels(
    store: VoiceModels, limit: nat, after: Option<Cursor>, before: seq<Choice>, cursor: Option<ModelCursor>,
    ghost start: nat)
    returns (done: Option<Result<Page, Error>>, page: seq<Choice>, next: Option<ModelCursor>, ghost end: nat)
    requires Ordered(store.models) && InputOk(limit, after) && start == store.Start(cursor)
    requires Taken(before, UpTo(store.models, start), after, limit)
    requires FitTo(store.models, after, start) && CursorAt(cursor, after)
    ensures done.Some? ==> done.value == Answer(store.models, limit, after)
    ensures done.None? ==> start < end <= |store.models| && end == store.Start(next)
    ensures done.None? ==> Taken(page, UpTo(store.models, end), after, limit)
    ensures done.None? ==> FitTo(store.models, after, end) && CursorAt(next, after)
  {
    hide Flat, UpTo, Filter, Sorted, PageOf, VoiceModels.Start, Taken, Ordered, Fit, FitTo, Blocked;
    next, end := cursor, start;
    var models := ReadPage(store, cursor, start);
    var taken, full := TakeModels(store, models, cursor, start, limit, after, before);
    if taken.Failure? {
      return Some(Failure(taken.error)), before, next, end;
    }
    page := taken.value;
    if full {
      return Some(Success(Page(page, Some(CursorOf(page[|page| - 1]))))), page, next, end;
    }
    end := start + |models|;
    if |models| < MODEL_PAGE {
      LastPage(store.models, page, after, limit);
      return Some(Success(Page(page, None))), page, next, end;
    }
    next := Some(ModelCursor(models[|models| - 1].key, false));
    StartAfter(store, end);
    KeysInOrder(store, cursor, start, end - 1);
    return None, page, next, end;
  }

  lemma NothingTaken(upTo: seq<Choice>, after: Option<Cursor>, limit: nat)
    requires Filter(upTo, after) == []
    ensures Taken([], upTo, after, limit)
  {
  }

  lemma LastPage(models: seq<Model>, page: seq<Choice>, after: Option<Cursor>, limit: nat)
    requires limit > 0 && Taken(page, UpTo(models, |models|), after, limit) && FitTo(models, after, |models|)
    ensures PageOf(models, limit, after) == Page(page, None) && !Blocked(models, limit, after)
  {
    assert models[..|models|] == models;
    NotBlocked(models, limit, after, |models|);
  }

  /** A model that its owner must not have returned here. */
  predicate OutOfOrder(m: Model, cursor: Option<ModelCursor>, previous: Option<Model>) {
    || m.key == 0
    || (cursor.Some? && (m.key < cursor.value.key || (m.key == cursor.value.key && !cursor.value.inclusive)))
    || (previous.Some? && m.key <= previous.value.key)
  }

  lemma InOrder(store: VoiceModels, cursor: Option<ModelCursor>, start: nat, at: nat)
    requires Ordered(store.models) && start == store.Start(cursor) && start <= at < |store.models|
    ensures !OutOfOrder(store.models[at], cursor, if at > start then Some(store.models[at - 1]) else None)
  {
    KeysInOrder(store, cursor, start, at);
  }

  lemma NextFit(models: seq<Model>, after: Option<Cursor>, n: nat)
    requires n < |models| && FitTo(models, after, n) && Fit(models[n])
    ensures FitTo(models, after, n + 1)
  {
  }

  lemma UnfitBlocks(
    store: VoiceModels, cursor: Option<ModelCursor>, start: nat, at: nat, limit: nat, after: Option<Cursor>)
    requires Ordered(store.models) && start == store.Start(cursor)
    requires start <= at < |store.models| && CursorAt(cursor, after)
    requires !Fit(store.models[at]) && |Filter(UpTo(store.models, at), after)| <= limit
    ensures Blocked(store.models, limit, after)
  {
    hide Filter, UpTo, Fit;
    KeysInOrder(store, cursor, start, at);
    assert Blocking(store.models, limit, after, at);
  }

  /** One bounded read of models, in the order in which the owner must return them. */
  method TakeModels(store: VoiceModels, models: seq<Model>, cursor: Option<ModelCursor>, ghost start: nat,
                    limit: nat, after: Option<Cursor>, before: seq<Choice>)
    returns (r: Result<seq<Choice>, Error>, full: bool)
    requires Ordered(store.models) && start == store.Start(cursor) && start + |models| <= |store.models|
    requires models == store.models[start..start + |models|] && limit > 0
    requires Taken(before, UpTo(store.models, start), after, limit)
    requires FitTo(store.models, after, start) && CursorAt(cursor, after)
    ensures r.Failure? ==> r.error == Unavailable && Blocked(store.models, limit, after)
    ensures r.Success? && !full ==> Taken(r.value, UpTo(store.models, start + |models|), after, limit)
    ensures r.Success? && !full ==> FitTo(store.models, after, start + |models|)
    ensures r.Success? && full ==> Full(r.value, store.models, limit, after) && !Blocked(store.models, limit, after)
  {
    hide *;
    var page := before;
    full := false;
    for i := 0 to |models|
      invariant Taken(page, UpTo(store.models, start + i), after, limit) && FitTo(store.models, after, start + i)
    {
      var previous := if i > 0 then Some(models[i - 1]) else None;
      r, full := TakeNext(store, models[i], previous, cursor, start, start + i, limit, after, page);
      if r.Failure? || full {
        return;
      }
      page := r.value;
    }
    return Success(page), false;
  }

  /** One model of a read. */
  method TakeNext(
    store: VoiceModels, m: Model, previous: Option<Model>, cursor: Option<ModelCursor>, ghost start: nat,
    ghost at: nat, limit: nat, after: Option<Cursor>, page: seq<Choice>)
    returns (r: Result<seq<Choice>, Error>, full: bool)
    requires Ordered(store.models) && start == store.Start(cursor) && start <= at < |store.models|
    requires m == store.models[at] && previous == (if at > start then Some(store.models[at - 1]) else None)
    requires limit > 0 && Taken(page, UpTo(store.models, at), after, limit)
    requires FitTo(store.models, after, at) && CursorAt(cursor, after)
    ensures r.Failure? ==> r.error == Unavailable && Blocked(store.models, limit, after)
    ensures r.Success? && !full ==> Taken(r.value, UpTo(store.models, at + 1), after, limit)
    ensures r.Success? && !full ==> FitTo(store.models, after, at + 1)
    ensures r.Success? && full ==> Full(r.value, store.models, limit, after) && !Blocked(store.models, limit, after)
  {
    assert |Filter(UpTo(store.models, at), after)| <= limit;
    hide *;
    if OutOfOrder(m, cursor, previous) {
      InOrder(store, cursor, start, at);
      assert false;
      return Failure(Unavailable), false;
    }
    var voices := Fields(m);
    if voices.Failure? {
      UnfitBlocks(store, cursor, start, at, limit, after);
      return Failure(voices.error), false;
    }
    ghost var rest := AroundModel(store.models, at);
    NextFit(store.models, after, at);
    var next;
    next, full := TakeModel(m, voices.value, limit, after, page, UpTo(store.models, at), store.models, rest);
    if full {
      NotBlocked(store.models, limit, after, at + 1);
    }
    return Success(next), full;
  }

  /** Models before the position have nothing to add. */
  lemma FromStart(store: VoiceModels, after: Option<Cursor>)
    ensures var cursor := if after.Some? then Some(ModelCursor(after.value.model, true)) else None;
            && Filter(UpTo(store.models, store.Start(cursor)), after) == []
            && FitTo(store.models, after, store.Start(cursor)) && CursorAt(cursor, after)
  {
    var cursor := if after.Some? then Some(ModelCursor(after.value.model, true)) else None;
    var start := store.Start(cursor);
    if after.Some? {
      forall i | 0 <= i < start ensures store.models[..start][i].key < after.value.model {
        assert !store.AtOrAfter(store.models[i], cursor);
      }
      EarlierModels(store.models[..start], after.value);
      assert forall i :: 0 <= i < start ==> store.models[i] == store.models[..start][i];
    } else {
      assert store.models == [] || store.AtOrAfter(store.models[0], cursor);
      assert store.models[..start] == [];
    }
  }

  lemma KeysInOrder(store: VoiceModels, cursor: Option<ModelCursor>, start: nat, at: nat)
    requires Ordered(store.models) && start == store.Start(cursor) && start <= at < |store.models|
    ensures store.models[at].key != 0 && store.AtOrAfter(store.models[at], cursor)
    ensures at > start ==> store.models[at - 1].key < store.models[at].key
  {
    assert at > start ==> store.models[start].key < store.models[at].key;
    assert store.AtOrAfter(store.models[start], cursor);
  }

  // All pages.

  ghost predicate StrictlyOrdered(s: seq<Choice>) {
    forall i, j :: 0 <= i < j < |s| ==> Beyond(s[j], Some(CursorOf(s[i])))
  }

  lemma SortedDistinct(m: Model)
    ensures forall i, j :: 0 <= i < j < |Sorted(m)| ==> Sorted(m)[i] < Sorted(m)[j]
    ensures 0 !in Sorted(m)
  {
    if Fit(m) {
      var s, offered := Sorted(m), Offered(m.fields);
      OfferedDistinct(m.fields);
      SortSorts(offered, NameLe);
      NoDupIsMultiset(offered);
      NoDupIsMultiset(s);
      ReorderedMembers(offered, s);
      forall i, j | 0 <= i < j < |s| ensures s[i] < s[j] {
        assert NameLe(s[i], s[j]) && s[i] != s[j];
      }
    }
  }

  lemma {:induction false} FlatModels(models: seq<Model>, c: Choice)
    requires c in Flat(models)
    ensures exists i :: 0 <= i < |models| && models[i].key == c.model
    ensures c.voice != 0
  {
    var n := |models| - 1;
    if c in Flat(models[..n]) {
      FlatModels(models[..n], c);
      var i :| 0 <= i < n && models[..n][i].key == c.model;
      assert models[i].key == c.model;
    } else {
      SortedDistinct(models[n]);
      assert models[n].key == c.model && c.voice in Sorted(models[n]);
    }
  }

  lemma ChoicesOrdered(m: Model)
    ensures StrictlyOrdered(ChoicesOf(m, Sorted(m)))
  {
    SortedDistinct(m);
  }

  lemma JoinOrdered(front: seq<Choice>, last: seq<Choice>)
    requires StrictlyOrdered(front) && StrictlyOrdered(last)
    requires forall c, d | c in front && d in last :: c.model < d.model
    ensures StrictlyOrdered(front + last)
  {
    var all := front + last;
    forall i, j | 0 <= i < j < |all| ensures Beyond(all[j], Some(CursorOf(all[i]))) {
      if i < |front| <= j {
        assert all[i] in front && all[j] in last;
      }
    }
  }

  lemma {:induction false} FlatOrdered(models: seq<Model>)
    requires Ordered(models)
    ensures StrictlyOrdered(Flat(models))
  {
    if models != [] {
      hide StrictlyOrdered, Sorted;
      var n := |models| - 1;
      var front, last := Flat(models[..n]), ChoicesOf(models[n], Sorted(models[n]));
      FlatOrdered(models[..n]);
      ChoicesOrdered(models[n]);
      forall c, d | c in front && d in last ensures c.model < d.model {
        FlatModels(models[..n], c);
        var k :| 0 <= k < n && models[..n][k].key == c.model;
        assert models[k].key < models[n].key;
      }
      JoinOrdered(front, last);
    }
  }

  lemma {:induction false} FilterOrdered(s: seq<Choice>, after: Option<Cursor>)
    requires StrictlyOrdered(s)
    ensures StrictlyOrdered(Filter(s, after))
    ensures forall c | c in Filter(s, after) :: c in s && Beyond(c, after)
  {
    if s != [] {
      var front, last := s[..|s| - 1], s[|s| - 1];
      FilterOrdered(front, after);
      forall c | c in front ensures Beyond(last, Some(CursorOf(c))) {
        var i :| 0 <= i < |front| && front[i] == c;
        assert Beyond(s[|s| - 1], Some(CursorOf(s[i])));
      }
    }
  }

  /** Going on from a later position forgets the earlier one. */
  lemma {:induction false} FilterFurther(s: seq<Choice>, after: Option<Cursor>, c: Choice)
    requires Beyond(c, after)
    ensures Filter(Filter(s, after), Some(CursorOf(c))) == Filter(s, Some(CursorOf(c)))
  {
    if s != [] {
      var front, last := s[..|s| - 1], s[|s| - 1];
      FilterFurther(front, after, c);
      if Beyond(last, after) {
        FilterAppend(Filter(front, after), last, Some(CursorOf(c)));
      }
    }
  }

  /** In an ordered list the choices beyond one of its own are those behind it. */
  lemma {:induction false} FilterFromOwn(s: seq<Choice>, k: nat)
    requires StrictlyOrdered(s) && k < |s|
    ensures Filter(s, Some(CursorOf(s[k]))) == s[k + 1..]
  {
    var n := |s| - 1;
    if k < n {
      FilterFromOwn(s[..n], k);
      assert s[k + 1..] == s[..n][k + 1..] + [s[n]];
    } else {
      forall i | 0 <= i < |s| ensures !Beyond(s[i], Some(CursorOf(s[n]))) {
        if i < n {
          assert Beyond(s[n], Some(CursorOf(s[i])));
        }
      }
      NothingBeyond(s, CursorOf(s[n]));
    }
  }

  /** Going on from the end of a page gives exactly what the page left over. */
  lemma PageThenRest(models: seq<Model>, limit: nat, after: Option<Cursor>)
    requires Ordered(models) && limit > 0 && PageOf(models, limit, after).next.Some?
    ensures Remaining(models, after) ==
              PageOf(models, limit, after).voices + Remaining(models, PageOf(models, limit, after).next)
    ensures |Remaining(models, PageOf(models, limit, after).next)| < |Remaining(models, after)|
  {
    hide Flat, Filter, StrictlyOrdered, Ordered, Beyond;
    var all := Remaining(models, after);
    FlatOrdered(models);
    FilterOrdered(Flat(models), after);
    var last := all[limit - 1];
    assert last in all;
    FilterFurther(Flat(models), after, last);
    FilterFromOwn(all, limit - 1);
    assert all == all[..limit] + all[limit..];
  }

  /** Without a position nothing is left out. */
  lemma {:induction false} AllRemain(s: seq<Choice>)
    ensures Filter(s, None) == s
  {
    if s != [] {
      AllRemain(s[..|s| - 1]);
    }
  }

  // What is on a page, told by the models alone.

  /** A choice of a fit model: the voice is an option of a voice field, and all else is the model's own. */
  ghost predicate Offers(m: Model, c: Choice) {
    && Fit(m) && c.model == m.key && c.version == m.version && c.display == m.display
    && exists i :: 0 <= i < |m.fields| && m.fields[i].voice && Text(c.voice) in m.fields[i].options
  }

  ghost predicate InCatalog(models: seq<Model>, c: Choice) {
    exists i :: 0 <= i < |models| && Offers(models[i], c)
  }

  ghost predicate Ahead(models: seq<Model>, after: Option<Cursor>, c: Choice) {
    && InCatalog(models, c)
    && (after.Some? ==> c.model > after.value.model || (c.model == after.value.model && c.voice > after.value.voice))
  }

  ghost predicate Ascending(s: seq<Choice>) {
    forall i, j :: 0 <= i < j < |s| ==>
      s[i].model < s[j].model || (s[i].model == s[j].model && s[i].voice < s[j].voice)
  }

  lemma {:induction false} OfferedMembers(fields: seq<Field>, v: Name)
    requires FieldsOk(fields)
    ensures v in Offered(fields) <==> exists i :: 0 <= i < |fields| && fields[i].voice && Text(v) in fields[i].options
  {
    if fields != [] {
      var n := |fields| - 1;
      var f := fields[n];
      assert fields[..n + 1] == fields;
      FieldsNext(fields, n);
      OfferedMembers(fields[..n], v);
      assert forall i :: 0 <= i < n ==> fields[..n][i] == fields[i];
      if f.voice {
        assert forall i :: 0 <= i < |f.options| ==> f.options[i] == Text(Names(f.options)[i]);
        assert v in Names(f.options) <==> Text(v) in f.options;
      }
    }
  }

  lemma ModelOffers(m: Model, c: Choice)
    ensures c in ChoicesOf(m, Sorted(m)) <==> Offers(m, c)
  {
    if Fit(m) {
      OfferedMembers(m.fields, c.voice);
      SortSorts(Offered(m.fields), NameLe);
      ReorderedMembers(Offered(m.fields), Sorted(m));
      assert c.voice in Offered(m.fields) <==> c.voice in Sorted(m);
    }
    var choices := ChoicesOf(m, Sorted(m));
    if c.voice in Sorted(m) && c == Choice(m.key, m.version, c.voice, m.display) {
      var i :| 0 <= i < |Sorted(m)| && Sorted(m)[i] == c.voice;
      assert choices[i] == c;
    }
  }

  lemma {:induction false} FlatIsCatalog(models: seq<Model>, c: Choice)
    ensures c in Flat(models) <==> InCatalog(models, c)
  {
    hide Sorted, Offers;
    if models != [] {
      var n := |models| - 1;
      FlatIsCatalog(models[..n], c);
      ModelOffers(models[n], c);
      assert forall i :: 0 <= i < n ==> models[..n][i] == models[i];
    }
  }

  lemma {:induction false} FilterKeeps(s: seq<Choice>, after: Option<Cursor>, c: Choice)
    ensures c in Filter(s, after) <==> c in s && Beyond(c, after)
  {
    hide Beyond;
    if s != [] {
      FilterKeeps(s[..|s| - 1], after, c);
    }
  }

  lemma RemainingAhead(models: seq<Model>, after: Option<Cursor>, c: Choice)
    ensures c in Remaining(models, after) <==> Ahead(models, after, c)
  {
    hide Filter, Flat, InCatalog;
    FilterKeeps(Flat(models), after, c);
    FlatIsCatalog(models, c);
  }

  /** A page holds, in order and at most `limit` of them, exactly the choices after one position and up to the next. */
  ghost predicate PageSays(models: seq<Model>, limit: nat, after: Option<Cursor>, page: Page) {
    && |page.voices| <= limit && Ascending(page.voices)
    && (forall c :: c in page.voices <==>
          Ahead(models, after, c) && (page.next.Some? ==> !Ahead(models, page.next, c)))
    && (page.next.Some? ==>
          && |page.voices| == limit > 0
          && page.next.value == Cursor(page.voices[limit - 1].model, page.voices[limit - 1].voice)
          && exists c :: Ahead(models, page.next, c))
  }

  /** A list in strict order holds nothing twice. */
  lemma OrderedApart(s: seq<Choice>, n: nat, c: Choice)
    requires StrictlyOrdered(s) && n <= |s| && c in s[..n]
    ensures c !in s[n..]
  {
    var i :| 0 <= i < n && s[i] == c;
    forall j | n <= j < |s| ensures s[j] != c {
      assert Beyond(s[j], Some(CursorOf(s[i])));
    }
  }

  lemma PageMembers(models: seq<Model>, limit: nat, after: Option<Cursor>, c: Choice)
    requires Ordered(models) && limit > 0
    ensures var page := PageOf(models, limit, after);
            c in page.voices <==> Ahead(models, after, c) && (page.next.Some? ==> !Ahead(models, page.next, c))
  {
    var page, all := PageOf(models, limit, after), Remaining(models, after);
    RemainingAhead(models, after, c);
    if page.next.Some? {
      PageThenRest(models, limit, after);
      RemainingAhead(models, page.next, c);
      FlatOrdered(models);
      FilterOrdered(Flat(models), after);
      hide Flat, Filter, Ordered, StrictlyOrdered, Ahead;
      assert all[limit..] == Remaining(models, page.next);
      if c in page.voices {
        OrderedApart(all, limit, c);
      }
    }
  }

  lemma PageAscends(models: seq<Model>, limit: nat, after: Option<Cursor>)
    requires Ordered(models) && limit > 0
    ensures Ascending(PageOf(models, limit, after).voices)
  {
    hide Flat, Filter, Ordered;
    FlatOrdered(models);
    FilterOrdered(Flat(models), after);
  }

  lemma PageGoesOn(models: seq<Model>, limit: nat, after: Option<Cursor>)
    requires Ordered(models) && limit > 0 && PageOf(models, limit, after).next.Some?
    ensures exists c :: Ahead(models, PageOf(models, limit, after).next, c)
  {
    hide Flat, Filter, Ordered, Ahead;
    var all, next := Remaining(models, after), PageOf(models, limit, after).next;
    PageThenRest(models, limit, after);
    assert all[limit..] == Remaining(models, next);
    RemainingAhead(models, next, all[limit..][0]);
  }

  lemma PageOutcome(models: seq<Model>, limit: nat, after: Option<Cursor>)
    requires Ordered(models) && Answer(models, limit, after).Success?
    ensures PageSays(models, limit, after, Answer(models, limit, after).value)
  {
    var page := PageOf(models, limit, after);
    hide Flat, Filter, Ordered, Ahead, Ascending, Blocked;
    forall c ensures c in page.voices <==>
        Ahead(models, after, c) && (page.next.Some? ==> !Ahead(models, page.next, c))
    {
      PageMembers(models, limit, after, c);
    }
    PageAscends(models, limit, after);
    if page.next.Some? {
      PageGoesOn(models, limit, after);
    }
  }

  // Calls of List, one after the other.

  /** The answers of calls that go on from the end of each page, up to the last page or a refusal. */
  ghost predicate Followed(models: seq<Model>, limit: int, after: Option<Cursor>, answers: seq<Result<Page, Error>>)
    decreases |answers|
  {
    && answers != [] && answers[0] == Answer(models, limit, after)
    && if answers[0].Success? && answers[0].value.next.Some?
       then Followed(models, limit, answers[0].value.next, answers[1..])
       else |answers| == 1
  }

  predicate AllAnswered(answers: seq<Result<Page, Error>>) {
    forall n :: 0 <= n < |answers| ==> answers[n].Success?
  }

  function AnsweredVoices(answers: seq<Result<Page, Error>>): seq<Choice>
    requires AllAnswered(answers)
  {
    if answers == [] then [] else answers[0].value.voices + AnsweredVoices(answers[1..])
  }

  /** List accepts every position it gives out. */
  lemma NextIsAccepted(models: seq<Model>, limit: nat, after: Option<Cursor>)
    requires Ordered(models) && InputOk(limit, after)
    ensures InputOk(limit, PageOf(models, limit, after).next)
  {
    var all := Remaining(models, after);
    if |all| > limit {
      FlatOrdered(models);
      FilterOrdered(Flat(models), after);
      hide Flat, Filter;
      assert all[limit - 1] in all;
      FlatModels(models, all[limit - 1]);
    }
  }

  /** Every model that is not fit is at the position or after it. */
  predicate UnfitAhead(models: seq<Model>, after: Option<Cursor>) {
    after.Some? ==> forall i :: 0 <= i < |models| && !Fit(models[i]) ==> models[i].key >= after.value.model
  }

  lemma UpToModels(models: seq<Model>, i: nat, c: Choice)
    requires Ordered(models) && i < |models| && c in UpTo(models, i)
    ensures c.model < models[i].key
  {
    FlatModels(models[..i], c);
    var j :| 0 <= j < i && models[..i][j].key == c.model;
    assert models[j].key < models[i].key;
  }

  /** What comes before a model takes less than a page, if a page goes beyond the model. */
  lemma ShortBefore(models: seq<Model>, limit: nat, after: Option<Cursor>, i: nat)
    requires Ordered(models) && i < |models| && limit > 0 && |Remaining(models, after)| >= limit
    requires Remaining(models, after)[limit - 1].model > models[i].key
    ensures |Filter(UpTo(models, i), after)| < limit
  {
    var early := Filter(UpTo(models, i), after);
    RemainingGrows(models, after, i);
    hide Flat, UpTo, Filter, Sorted;
    if |early| >= limit {
      assert early[limit - 1] == Remaining(models, after)[limit - 1];
      FilterMembers(UpTo(models, i), after, early[limit - 1]);
      UpToModels(models, i, early[limit - 1]);
    }
  }

  lemma RemainingGrows(models: seq<Model>, after: Option<Cursor>, i: nat)
    requires i <= |models|
    ensures Filter(UpTo(models, i), after) <= Remaining(models, after)
  {
    hide Flat, UpTo, Filter;
    UpToGrows(models, i);
    FilterGrows(UpTo(models, i), Flat(models), after);
  }

  lemma FilterGrows(s: seq<Choice>, more: seq<Choice>, after: Option<Cursor>)
    requires s <= more
    ensures Filter(s, after) <= Filter(more, after)
  {
    hide Filter;
    assert more == s + more[|s|..];
    FilterJoin(s, more[|s|..], after);
  }

  lemma {:induction false} FilterMembers(s: seq<Choice>, after: Option<Cursor>, c: Choice)
    requires c in Filter(s, after)
    ensures c in s
  {
    if c != s[|s| - 1] {
      FilterMembers(s[..|s| - 1], after, c);
    }
  }

  lemma BlockingBlocks(models: seq<Model>, limit: nat, after: Option<Cursor>, i: nat)
    requires i < |models| && !Fit(models[i]) && UnfitAhead(models, after) && |Filter(UpTo(models, i), after)| <= limit
    ensures Blocked(models, limit, after)
  {
    assert Blocking(models, limit, after, i);
  }

  lemma UnfitStaysAhead(models: seq<Model>, limit: nat, after: Option<Cursor>)
    requires Ordered(models) && limit > 0 && UnfitAhead(models, after) && !Blocked(models, limit, after)
    ensures UnfitAhead(models, PageOf(models, limit, after).next)
  {
    var next := PageOf(models, limit, after).next;
    if next.Some? {
      hide Flat, Filter, UpTo, Fit, Blocked;
      forall i | 0 <= i < |models| && !Fit(models[i]) ensures models[i].key >= next.value.model {
        if models[i].key < next.value.model {
          ShortBefore(models, limit, after, i);
          BlockingBlocks(models, limit, after, i);
          assert false;
        }
      }
    }
  }

  lemma LastPageAccepted(models: seq<Model>, limit: nat, after: Option<Cursor>)
    requires limit > 0 && UnfitAhead(models, after) && !Blocked(models, limit, after)
    requires |Remaining(models, after)| <= limit
    ensures Accepted(models)
  {
    assert models[..|models|] == models;
    forall i | 0 <= i < |models| ensures Fit(models[i]) {
      FilterUpTo(models, after, i, |models|);
      if !Fit(models[i]) {
        BlockingBlocks(models, limit, after, i);
      }
    }
  }

  /** Following the pages from a position, with the models that are not fit still ahead. */
  lemma {:induction false} FollowedIff(
    models: seq<Model>, limit: int, after: Option<Cursor>, answers: seq<Result<Page, Error>>)
    requires Ordered(models) && InputOk(limit, after) && UnfitAhead(models, after)
    requires Followed(models, limit, after, answers)
    ensures AllAnswered(answers) <==> Accepted(models)
    ensures AllAnswered(answers) ==> AnsweredVoices(answers) == Remaining(models, after)
    decreases |answers|
  {
    hide Flat, Filter, Fit, UpTo, UnfitAhead, Ordered;
    if Blocked(models, limit, after) {
      var i: nat :| Blocking(models, limit, after, i);
      assert !AllAnswered(answers);
    } else if answers[0].value.next.None? {
      LastPageAccepted(models, limit, after);
      assert AnsweredVoices(answers) == answers[0].value.voices + AnsweredVoices(answers[1..]);
    } else {
      NextIsAccepted(models, limit, after);
      UnfitStaysAhead(models, limit, after);
      PageThenRest(models, limit, after);
      FollowedIff(models, limit, answers[0].value.next, answers[1..]);
      assert AllAnswered(answers) <==> AllAnswered(answers[1..]) by {
        assert forall n :: 0 <= n < |answers| - 1 ==> answers[1..][n] == answers[n + 1];
        assert AllAnswered(answers[1..]) ==> forall n :: 0 < n < |answers| ==> answers[n] == answers[1..][n - 1];
      }
    }
  }

  /** There are only finitely many calls to make. */
  lemma {:induction false} CallsEnd(models: seq<Model>, limit: int, after: Option<Cursor>)
    returns (answers: seq<Result<Page, Error>>)
    requires Ordered(models) && limit > 0
    ensures Followed(models, limit, after, answers)
    decreases |Remaining(models, after)|
  {
    var answer := Answer(models, limit, after);
    answers := [answer];
    if answer.Success? && answer.value.next.Some? {
      PageThenRest(models, limit, after);
      var rest := CallsEnd(models, limit, answer.value.next);
      answers := answers + rest;
      assert answers[1..] == rest;
    }
  }

  /**
    From the start, following the pages succeeds exactly if every model is fit, and then reads the whole catalog:
    every voice that some model offers, once and in order, and nothing else.
   */
  lemma WholeCatalog(models: seq<Model>, limit: int, answers: seq<Result<Page, Error>>)
    requires Ordered(models) && 1 <= limit <= MAX_LIMIT && Followed(models, limit, None, answers)
    ensures AllAnswered(answers) <==> Accepted(models)
    ensures AllAnswered(answers) ==> AnsweredVoices(answers) == Flat(models) && Ascending(AnsweredVoices(answers))
    ensures AllAnswered(answers) ==> forall c :: c in AnsweredVoices(answers) <==> InCatalog(models, c)
  {
    FollowedIff(models, limit, None, answers);
    AllRemain(Flat(models));
    FlatOrdered(models);
    if AllAnswered(answers) {
      forall c ensures c in AnsweredVoices(answers) <==> InCatalog(models, c) {
        FlatIsCatalog(models, c);
      }
    }
  }
}
