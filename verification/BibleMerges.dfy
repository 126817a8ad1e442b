/** Merges over a whole run: exactly which of them let the history go on being accepted for copying. */
module BibleMerges {
  import opened Wrappers
  import opened Ids
  import opened Rows
  import opened BibleContent
  import opened BibleHistory
  import opened BibleInvariant
  import opened BibleCommands
  import opened BibleRuns
  import opened BibleEffects

  // A successful merge.

  lemma Unredirected(h: History, id: Id)
    requires LinksOk(h) && id in Heads(h) && Heads(h)[id].redirect == None
    ensures id !in Redirects(h)
  {
    IndexHolds(h.heads, HeadId);
    NotYetRedirected(h, Heads(h)[id]);
    IndexHolds(h.redirects, LinkSource);
  }

  lemma MergeTaken(h: History, org: Id, project: Id, actor: Id, c: Command, e: Env) returns (r: Link)
    requires ShapeOk(c) && c.action.Merge? && Changed(h, org, project, actor, c, e).Success?
    ensures Changed(h, org, project, actor, c, e).value.0.redirects == h.redirects + [r]
    ensures r.source == c.entry && r.target == c.action.target != c.entry
    ensures c.entry in Heads(h) && Heads(h)[c.entry].redirect == None
    ensures c.action.target in Heads(h) && Heads(h)[c.action.target].redirect == None
  {
    var x, v := ChangeTaken(h, org, project, actor, c, e);
    LoadedRow(h, Character, c.action.target);
    var z, w := Load(h, Character, c.action.target).value.0, Load(h, Character, c.action.target).value.1;
    hide Heads, Versions;
    r := Link(e.ids.record, x.id, z.id, v.id, w.id, actor, e.now);
  }

  lemma MergeRow(h: History, org: Id, project: Id, actor: Id, c: Command, e: Env, t: Time) returns (r: Link)
    requires Inv(h, org, project, t) && ShapeOk(c) && c.action.Merge? && Changed(h, org, project, actor, c, e).Success?
    ensures var g := Changed(h, org, project, actor, c, e).value.0;
            g.redirects == h.redirects + [r] && Keys(g.heads, HeadId) == Keys(h.heads, HeadId)
    ensures r.source == c.entry && r.target == c.action.target != c.entry
    ensures c.entry !in Redirects(h) && r.target !in Redirects(h)
  {
    r := MergeTaken(h, org, project, actor, c, e);
    Unredirected(h, c.entry);
    Unredirected(h, r.target);
    hide Changed, MovesTo;
    var y := HeadsChanged(h, org, project, actor, c, e);
    ReplaceKeys(h, y);
  }

  lemma ReplaceKeys(h: History, x: Head)
    ensures Keys(SetHead(h, x).heads, HeadId) == Keys(h.heads, HeadId)
  {
  }

  /** A successful merge keeps all chains short exactly if they were, and none of 32 redirects leads to its entry. */
  lemma MergeKeepsShort(h: History, org: Id, project: Id, actor: Id, c: Command, e: Env, t: Time)
    requires Inv(h, org, project, t) && c.action.Merge? && Change(h, org, project, actor, c, e).Success?
    ensures ShortChains(Change(h, org, project, actor, c, e).value.0) <==> ShortChains(h) && RoomToMerge(h, c.entry)
  {
    var g := Change(h, org, project, actor, c, e).value.0;
    var r := MergeRow(h, org, project, actor, c, e, t);
    IndexAppend(h.redirects, r, LinkSource);
    hide Change, Inv, RoomToMerge;
    if ShortChains(h) {
      ShortAfter(h, g, r);
    } else {
      StillLong(h, g, r);
    }
  }

  /** A chain that is too long stays so. */
  lemma StillLong(h: History, g: History, r: Link)
    requires Keys(h.heads, HeadId) == Keys(g.heads, HeadId) && Redirects(g) == Redirects(h)[r.source := r]
    requires r.source !in Redirects(h) && r.target !in Redirects(h) && r.target != r.source && !ShortChains(h)
    ensures !ShortChains(g)
  {
    var z :| z in h.heads && !Stops(Redirects(h), z.id, MAX_REDIRECTS);
    var y := HeadWithId(h, g, z);
    Lengthened(Redirects(h), r, z.id, MAX_REDIRECTS);
  }

  // Any other successful command.

  lemma SameRedirects(h: History, org: Id, project: Id, actor: Id, c: Command, e: Env)
    requires !c.action.Merge? && Change(h, org, project, actor, c, e).Success?
    ensures Change(h, org, project, actor, c, e).value.0.redirects == h.redirects
  {
    hide Publishable, CreatedVersion, EditedBody, Load, Heads, LookRows;
    if c.action.MakesVersion() {
      var x, v := ChangeTaken(h, org, project, actor, c, e);
      hide Changed;
    }
  }

  /** The entries afterwards are those before and perhaps a new one, which nothing redirects. */
  lemma EntriesAfter(h: History, org: Id, project: Id, actor: Id, c: Command, e: Env) returns (added: seq<Head>)
    requires IdsOk(h) && FreshFor(h, e.ids) && Change(h, org, project, actor, c, e).Success?
    ensures Keys(Change(h, org, project, actor, c, e).value.0.heads, HeadId) ==
              Keys(h.heads, HeadId) + Keys(added, HeadId)
    ensures forall x | x in added :: x.id !in AllIds(h)
  {
    assert e.ids.All()[0] == e.ids.head && e.ids.All()[4] == e.ids.childHead;
    assert e.ids.head in e.ids.All() && e.ids.childHead in e.ids.All();
    var g := Change(h, org, project, actor, c, e).value.0;
    if c.action.Creating() {
      CreatedIsNew(h, org, project, actor, c, e);
      added := [NewHead(org, project, c.kind, e.ids.head, e.ids.version, e.now)];
    } else {
      var y := HeadsChanged(h, org, project, actor, c, e);
      ReplaceKeys(h, y);
      added := if c.action.Split?
        then [NewHead(org, project, Character, e.ids.childHead, e.ids.childVersion, e.now)] else [];
    }
    hide Change, MovesTo;
  }

  lemma OtherKeepsShort(h: History, org: Id, project: Id, actor: Id, c: Command, e: Env, t: Time)
    requires Inv(h, org, project, t) && FreshFor(h, e.ids)
    requires !c.action.Merge? && Change(h, org, project, actor, c, e).Success?
    ensures ShortChains(Change(h, org, project, actor, c, e).value.0) <==> ShortChains(h)
  {
    var g := Change(h, org, project, actor, c, e).value.0;
    SameRedirects(h, org, project, actor, c, e);
    var added := EntriesAfter(h, org, project, actor, c, e);
    NewIsUnredirected(h, added);
    hide Change, Inv, FreshFor;
    ShortWithMore(h, g, added);
  }

  lemma NewIsUnredirected(h: History, added: seq<Head>)
    requires IdsOk(h) && LinksOk(h) && forall x | x in added :: x.id !in AllIds(h)
    ensures forall x | x in added :: x.id !in Redirects(h)
  {
    IndexHolds(h.redirects, LinkSource);
    forall x | x in added ensures x.id !in Redirects(h) {
      NotInTables(h, x.id);
    }
  }

  lemma ShortWithMore(h: History, g: History, added: seq<Head>)
    requires g.redirects == h.redirects && Keys(g.heads, HeadId) == Keys(h.heads, HeadId) + Keys(added, HeadId)
    requires forall x | x in added :: x.id !in Redirects(h)
    ensures ShortChains(g) <==> ShortChains(h)
  {
    var n := |h.heads|;
    assert forall i :: 0 <= i < n ==> Keys(g.heads, HeadId)[i] == Keys(h.heads, HeadId)[i];
    assert forall i :: n <= i < |g.heads| ==> Keys(g.heads, HeadId)[i] == Keys(added, HeadId)[i - n];
    if ShortChains(h) {
      forall y | y in g.heads ensures Stops(Redirects(g), y.id, MAX_REDIRECTS) {
        var i :| 0 <= i < |g.heads| && g.heads[i] == y;
        if i < n {
          assert h.heads[i].id == y.id && h.heads[i] in h.heads;
        } else {
          assert added[i - n].id == y.id && added[i - n] in added;
        }
      }
    }
    if ShortChains(g) {
      forall x | x in h.heads ensures Stops(Redirects(h), x.id, MAX_REDIRECTS) {
        var i :| 0 <= i < n && h.heads[i] == x;
        assert g.heads[i].id == x.id && g.heads[i] in g.heads;
      }
    }
  }

  // Runs.

  /** The step is no merge that takes effect without room. */
  ghost predicate HasRoom(h: History, answered: set<(Id, Id)>, org: Id, project: Id, s: Step) {
    s.command.action.Merge? && Takes(h, answered, org, project, s) ==> RoomToMerge(h, s.command.entry)
  }

  ghost predicate HadRoom(org: Id, project: Id, steps: seq<Step>, s: Step) {
    HasRoom(RunAll(org, project, steps), Answered(org, project, steps), org, project, s)
  }

  /** Every merge of the run that took effect had room when it ran. */
  ghost predicate MergesHadRoom(org: Id, project: Id, steps: seq<Step>) {
    forall k :: 0 <= k < |steps| ==> HadRoom(org, project, steps[..k], steps[k])
  }

  lemma StepKeepsShort(h: History, answered: set<(Id, Id)>, org: Id, project: Id, s: Step, t: Time)
    requires Inv(h, org, project, t) && FreshFor(h, s.env.ids)
    ensures ShortChains(After(h, answered, org, project, s)) <==>
              ShortChains(h) && HasRoom(h, answered, org, project, s)
  {
    hide Change, Inv, FreshFor, ShortChains, RoomToMerge;
    if Takes(h, answered, org, project, s) {
      if s.command.action.Merge? {
        MergeKeepsShort(h, org, project, s.actor, s.command, s.env, t);
      } else {
        OtherKeepsShort(h, org, project, s.actor, s.command, s.env, t);
      }
    }
  }

  lemma {:induction false} RunKeepsShort(org: Id, project: Id, steps: seq<Step>)
    requires Proper(org, project, steps)
    ensures ShortChains(RunAll(org, project, steps)) <==> MergesHadRoom(org, project, steps)
  {
    hide Change, Inv, FreshFor, HasRoom, After;
    if steps != [] {
      var n := |steps| - 1;
      var front := steps[..n];
      RunKeepsShort(org, project, front);
      RunKeepsInv(org, project, front);
      StepKeepsShort(RunAll(org, project, front), Answered(org, project, front),
        org, project, steps[n], LastTime(front));
      hide ShortChains, RunAll;
      assert forall k :: 0 <= k < n ==> front[..k] == steps[..k] && front[k] == steps[k];
    }
  }

  /**
    The history after a run is accepted for copying exactly if every merge of it that took effect had room when it ran.
   */
  lemma AcceptedIffRoom(org: Id, project: Id, steps: seq<Step>)
    requires Proper(org, project, steps)
    ensures ValidHistory(RunAll(org, project, steps), org, project) <==> MergesHadRoom(org, project, steps)
  {
    RunKeepsShort(org, project, steps);
    RunAccepted(org, project, steps);
  }
}
