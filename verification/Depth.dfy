/** The execution fence of a depth job: never two native processes, never a restart before a proved exit. */
module Depth {
  import opened Wrappers
  import opened Ids
  import opened Rows

  const MAX_ATTEMPTS := 100

  datatype Status = Queued | Running | ReviewRequired | Succeeded | Failed | CancelRequested | CancelledStatus

  /** The empty state of the source counts as NoProcess. */
  datatype Process = NoProcess | Started | Ended | Unknown

  datatype Job = Job(
    status: Status, stage: string, attempt: int, revision: int, asset: Option<Id>, sha: Option<string>,
    failure: Option<string>, retryable: bool, needsReconciliation: bool, unconfirmed: bool, cancelling: bool,
    worker: Id, process: Process)

  // When each transition is allowed, and what it makes of the job.

  predicate CanClaim(s: Job, worker: Id, reconcile: bool) {
    && worker != NIL && s.worker == NIL && !s.unconfirmed
    && if reconcile then s.status == Failed && s.needsReconciliation && s.process == Ended
       else
         && (s.status == Queued || s.status == CancelRequested) && !s.needsReconciliation
         && (s.process == NoProcess || s.process == Ended)
  }

  function Claimed(s: Job, worker: Id, reconcile: bool): Job {
    var t := s.(worker := worker, revision := s.revision + 1);
    if reconcile then t.(status := Running, stage := "reconciling")
    else if s.cancelling then t.(status := CancelRequested, stage := "cleanup")
    else t.(status := Running, stage := "downloading")
  }

  predicate CanStart(s: Job, worker: Id) {
    worker == s.worker && worker != NIL && s.status == Running && !s.cancelling && s.process == NoProcess
  }

  predicate Owns(s: Job, worker: Id) {
    worker == s.worker && worker != NIL
  }

  function Interrupted(s: Job): Job {
    s.(process := if s.process == Ended then Ended else Unknown, status := Failed, stage := "awaiting_reconciliation",
       needsReconciliation := true, unconfirmed := s.process != Ended, retryable := false, revision := s.revision + 1)
  }

  predicate CanCancel(s: Job) {
    s.status != Succeeded && s.status != CancelledStatus
  }

  function CancelAsked(s: Job): Job {
    var t := s.(cancelling := true, revision := s.revision + 1);
    if s.needsReconciliation then t else t.(status := CancelRequested, stage := "cancelling")
  }

  predicate CanFinishCancelled(s: Job, worker: Id) {
    Owns(s, worker) && s.cancelling && !s.unconfirmed && (s.process == NoProcess || s.process == Ended)
  }

  function FinishedCancelled(s: Job): Job {
    s.(worker := NIL, status := CancelledStatus, stage := "cancelled", needsReconciliation := false, retryable := true,
       failure := None, revision := s.revision + 1)
  }

  predicate CanRetry(s: Job) {
    && (s.status == Failed || s.status == CancelledStatus)
    && s.retryable && !s.needsReconciliation && !s.unconfirmed && s.worker == NIL && s.attempt < MAX_ATTEMPTS
  }

  function Retried(s: Job): Job {
    s.(status := Queued, stage := "queued", attempt := s.attempt + 1, revision := s.revision + 1, process := NoProcess,
       asset := None, sha := None, failure := None, cancelling := false, retryable := false)
  }

  class DepthExecution {
    var status: Status
    var stage: string
    var attempt: int
    var revision: int
    var asset: Option<Id>
    var sha: Option<string>
    var failure: Option<string>
    var retryable: bool
    var needsReconciliation: bool
    var unconfirmed: bool
    var cancelling: bool
    var worker: Id
    var process: Process

    function View(): Job
      reads this
    {
      Job(status, stage, attempt, revision, asset, sha, failure, retryable, needsReconciliation, unconfirmed,
          cancelling, worker, process)
    }

    constructor (s: Job)
      ensures View() == s
    {
      status, stage, attempt, revision := s.status, s.stage, s.attempt, s.revision;
      asset, sha, failure := s.asset, s.sha, s.failure;
      retryable, needsReconciliation, unconfirmed := s.retryable, s.needsReconciliation, s.unconfirmed;
      cancelling, worker, process := s.cancelling, s.worker, s.process;
    }

    method Claim(worker: Id, reconcile: bool) returns (ok: bool)
      modifies this
      ensures ok == CanClaim(old(View()), worker, reconcile)
      ensures View() == if ok then Claimed(old(View()), worker, reconcile) else old(View())
      ensures ok ==>
                && this.worker == worker && revision == old(revision) + 1
                && status == (if !reconcile && old(cancelling) then CancelRequested else Running)
                && stage == (if reconcile then "reconciling" else if old(cancelling) then "cleanup" else "downloading")
                && process == old(process) && attempt == old(attempt) && cancelling == old(cancelling)
                && needsReconciliation == old(needsReconciliation)
    {
      if worker == NIL || this.worker != NIL || unconfirmed {
        return false;
      }
      if reconcile {
        if status != Failed || !needsReconciliation || process != Ended {
          return false;
        }
        status := Running;
        stage := "reconciling";
      } else {
        if (status != Queued && status != CancelRequested) || needsReconciliation {
          return false;
        }
        if process != NoProcess && process != Ended {
          return false;
        }
        if cancelling {
          status := CancelRequested;
          stage := "cleanup";
        } else {
          status := Running;
          stage := "downloading";
        }
      }
      this.worker := worker;
      revision := revision + 1;
      return true;
    }

    method StartProcess(worker: Id) returns (ok: bool)
      modifies this
      ensures ok == CanStart(old(View()), worker)
      ensures View() == if ok then old(View()).(process := Started, revision := old(revision) + 1) else old(View())
    {
      if worker != this.worker || worker == NIL || status != Running || cancelling || process != NoProcess {
        return false;
      }
      process := Started;
      revision := revision + 1;
      return true;
    }

    method EndProcess(worker: Id) returns (ok: bool)
      modifies this
      ensures ok == Owns(old(View()), worker)
      ensures View() == if ok then old(View()).(process := Ended, unconfirmed := false, revision := old(revision) + 1)
                else old(View())
    {
      if worker != this.worker || worker == NIL {
        return false;
      }
      process := Ended;
      unconfirmed := false;
      revision := revision + 1;
      return true;
    }

    method Interrupt(worker: Id) returns (ok: bool)
      modifies this
      ensures ok == Owns(old(View()), worker)
      ensures View() == if ok then Interrupted(old(View())) else old(View())
      ensures ok ==>
                && process == (if old(process) == Ended then Ended else Unknown)
                && (unconfirmed <==> process == Unknown)
                && status == Failed && stage == "awaiting_reconciliation" && needsReconciliation && !retryable
                && this.worker == old(this.worker) && revision == old(revision) + 1 && attempt == old(attempt)
    {
      if worker == NIL || worker != this.worker {
        return false;
      }
      if process != Ended {
        process := Unknown;
      }
      status := Failed;
      stage := "awaiting_reconciliation";
      needsReconciliation := true;
      unconfirmed := process != Ended;
      retryable := false;
      revision := revision + 1;
      return true;
    }

    method RequestCancel() returns (ok: bool)
      modifies this
      ensures ok == CanCancel(old(View()))
      ensures View() == if ok then CancelAsked(old(View())) else old(View())
      ensures ok ==>
                && cancelling && revision == old(revision) + 1 && worker == old(worker) && process == old(process)
                && status == (if old(needsReconciliation) then old(status) else CancelRequested)
                && stage == (if old(needsReconciliation) then old(stage) else "cancelling")
                && needsReconciliation == old(needsReconciliation) && unconfirmed == old(unconfirmed)
    {
      match status {
        case Succeeded => return false;
        case CancelledStatus => return false;
        case _ =>
      }
      cancelling := true;
      if !needsReconciliation {
        status := CancelRequested;
        stage := "cancelling";
      }
      revision := revision + 1;
      return true;
    }

    method FinishCancelled(worker: Id) returns (ok: bool)
      modifies this
      ensures ok == CanFinishCancelled(old(View()), worker)
      ensures View() == if ok then FinishedCancelled(old(View())) else old(View())
      ensures ok ==>
                && this.worker == NIL && status == CancelledStatus && stage == "cancelled" && retryable
                && !needsReconciliation && failure == None && revision == old(revision) + 1
                && process == old(process) && attempt == old(attempt) && cancelling == old(cancelling)
    {
      if worker == NIL || worker != this.worker || !cancelling || unconfirmed
         || (process != NoProcess && process != Ended) {
        return false;
      }
      this.worker := NIL;
      status := CancelledStatus;
      stage := "cancelled";
      needsReconciliation := false;
      retryable := true;
      failure := None;
      revision := revision + 1;
      return true;
    }

    method Retry() returns (ok: bool)
      modifies this
      ensures ok == CanRetry(old(View()))
      ensures View() == if ok then Retried(old(View())) else old(View())
      ensures ok ==>
                && status == Queued && stage == "queued" && attempt == old(attempt) + 1 && revision == old(revision) + 1
                && process == NoProcess && asset == None && sha == None && failure == None
                && !cancelling && !retryable && worker == NIL
    {
      if (status != Failed && status != CancelledStatus) || !retryable || needsReconciliation || unconfirmed
        || worker != NIL || attempt >= MAX_ATTEMPTS
      {
        return false;
      }
      Requeue();
      return true;
    }

    method Requeue()
      modifies this
      ensures View() == Retried(old(View()))
    {
      status := Queued;
      stage := "queued";
      attempt := attempt + 1;
      revision := revision + 1;
      process := NoProcess;
      asset, sha, failure := None, None, None;
      cancelling := false;
      retryable := false;
    }
  }

  // Runs: the seven methods in any order, native processes, and what the store does around the methods.

  datatype Step =
    | ClaimStep(worker: Id, reconcile: bool)
    | StartStep(worker: Id)
    | EndStep(worker: Id)
    | InterruptStep(worker: Id)
    | CancelStep
    | FinishCancelledStep(worker: Id)
    | RetryStep
    | ProcessExits
    | ReleaseStep(worker: Id, uncertain: bool, code: string)
    | CommitStep(worker: Id)
    | ReviewStep(verdict: Status)

  /** A job, its live native processes, and the attempts in which processes were started. */
  datatype World = World(job: Job, live: nat, started: seq<int>)

  /** Whether a step succeeds. EndProcess acknowledges an actual exit, so its caller has seen the process end. */
  predicate Enabled(w: World, step: Step) {
    match step
    case ClaimStep(worker, reconcile) => CanClaim(w.job, worker, reconcile)
    case StartStep(worker) => CanStart(w.job, worker)
    case EndStep(worker) => Owns(w.job, worker) && w.live == 0
    case InterruptStep(worker) => Owns(w.job, worker)
    case CancelStep => CanCancel(w.job)
    case FinishCancelledStep(worker) => CanFinishCancelled(w.job, worker)
    case RetryStep => CanRetry(w.job)
    case ProcessExits => w.live > 0
    case ReleaseStep(worker, _, _) => Owns(w.job, worker) && (w.job.process == NoProcess || w.job.process == Ended)
    case CommitStep(worker) => Owns(w.job, worker) && w.job.status == Running && w.job.process == Ended
    case ReviewStep(verdict) => w.job.status == ReviewRequired && (verdict == Succeeded || verdict == Failed)
  }

  function Released(s: Job, uncertain: bool, code: string): Job {
    s.(worker := NIL, status := Failed, stage := if uncertain then "awaiting_reconciliation" else "failed",
       retryable := !uncertain, needsReconciliation := uncertain, unconfirmed := false, failure := Some(code),
       revision := s.revision + 1)
  }

  function Next(w: World, step: Step): World {
    if !Enabled(w, step) then w else
      match step
      case ClaimStep(worker, reconcile) => w.(job := Claimed(w.job, worker, reconcile))
      case StartStep(worker) =>
        World(w.job.(process := Started, revision := w.job.revision + 1), w.live + 1, w.started + [w.job.attempt])
      case EndStep(worker) => w.(job := w.job.(process := Ended, unconfirmed := false, revision := w.job.revision + 1))
      case InterruptStep(worker) => w.(job := Interrupted(w.job))
      case CancelStep => w.(job := CancelAsked(w.job))
      case FinishCancelledStep(worker) => w.(job := FinishedCancelled(w.job))
      case RetryStep => w.(job := Retried(w.job))
      case ProcessExits => w.(live := w.live - 1)
      case ReleaseStep(worker, uncertain, code) => w.(job := Released(w.job, uncertain, code))
      case CommitStep(worker) =>
        w.(job := w.job.(status := ReviewRequired, stage := "review", worker := NIL, needsReconciliation := false,
                         retryable := false, failure := None, revision := w.job.revision + 1))
      case ReviewStep(verdict) =>
        w.(job := w.job.(status := verdict, retryable := verdict == Failed, revision := w.job.revision + 1))
  }

  function Run(w: World, steps: seq<Step>): World {
    if steps == [] then w else Next(Run(w, steps[..|steps| - 1]), steps[|steps| - 1])
  }

  predicate MayRun(p: Process) {
    p == Started || p == Unknown
  }

  /** What every step keeps. */
  ghost predicate Fenced(w: World) {
    && (MayRun(w.job.process) ==> w.job.worker != NIL)
    && (w.job.unconfirmed <==> w.job.process == Unknown)
    && w.live <= 1 && (w.live == 1 ==> MayRun(w.job.process))
    && NoDup(w.started)
    && (forall a | a in w.started :: a <= w.job.attempt)
    && (w.job.attempt in w.started ==> w.job.process != NoProcess)
  }

  predicate Fresh(w: World) {
    && w.job.status == Queued && w.job.worker == NIL && w.job.process == NoProcess && !w.job.unconfirmed
    && w.live == 0 && w.started == []
  }

  lemma StartKeeps(w: World, worker: Id)
    requires Fenced(w) && CanStart(w.job, worker)
    ensures Fenced(Next(w, StartStep(worker)))
  {
    NoDupParts(w.started, [w.job.attempt]);
  }

  lemma StepKeeps(w: World, step: Step)
    requires Fenced(w)
    ensures Fenced(Next(w, step))
  {
    if step.StartStep? && Enabled(w, step) {
      StartKeeps(w, step.worker);
    }
  }

  lemma {:induction false} RunKeeps(w: World, steps: seq<Step>)
    requires Fenced(w)
    ensures Fenced(Run(w, steps))
  {
    if steps != [] {
      RunKeeps(w, steps[..|steps| - 1]);
      StepKeeps(Run(w, steps[..|steps| - 1]), steps[|steps| - 1]);
    }
  }

  /**
    In every run at most one native process is alive, every attempt starts at most one, and while one is
    alive no other can be started, no attempt retried, and no worker take over or be let go.
   */
  lemma OneProcess(w: World, steps: seq<Step>)
    requires Fresh(w)
    ensures var r := Run(w, steps);
            && r.live <= 1 && NoDup(r.started)
            && (r.live > 0 ==>
                  && !CanRetry(r.job)
                  && (forall worker :: !CanStart(r.job, worker) && !CanFinishCancelled(r.job, worker))
                  && (forall worker, reconcile :: !CanClaim(r.job, worker, reconcile))
                  && (forall worker, uncertain, code :: !Enabled(r, ReleaseStep(worker, uncertain, code))))
  {
    RunKeeps(w, steps);
  }

  /** While the exit of a process is unproved, its owner is known and the job cannot be retried. */
  lemma UnprovedExitHolds(w: World, steps: seq<Step>)
    requires Fresh(w)
    ensures var s := Run(w, steps).job;
            && (s.process == Started || s.process == Unknown ==> s.worker != NIL && !CanRetry(s))
            && (s.unconfirmed <==> s.process == Unknown)
  {
    RunKeeps(w, steps);
  }

  /** How many of the steps were successful transitions of the job. */
  function Successes(w: World, steps: seq<Step>): nat {
    if steps == [] then 0 else
      var before := Run(w, steps[..|steps| - 1]);
      var last := steps[|steps| - 1];
      Successes(w, steps[..|steps| - 1]) + if Enabled(before, last) && !last.ProcessExits? then 1 else 0
  }

  lemma StepCounts(w: World, step: Step)
    ensures Next(w, step).job.revision == w.job.revision + if Enabled(w, step) && !step.ProcessExits? then 1 else 0
    ensures w.job.attempt <= MAX_ATTEMPTS ==> w.job.attempt <= Next(w, step).job.attempt <= MAX_ATTEMPTS
  {
  }

  /** The revision counts the successful transitions, and no transition is undone without a trace. */
  lemma {:induction false} RevisionCounts(w: World, steps: seq<Step>)
    ensures Run(w, steps).job.revision == w.job.revision + Successes(w, steps)
    ensures w.job.attempt <= MAX_ATTEMPTS ==> w.job.attempt <= Run(w, steps).job.attempt <= MAX_ATTEMPTS
  {
    if steps != [] {
      RevisionCounts(w, steps[..|steps| - 1]);
      StepCounts(Run(w, steps[..|steps| - 1]), steps[|steps| - 1]);
      hide Next, Enabled;
    }
  }

  // What stays possible.

  /** Asking for a cancellation takes no claim away: a job that is to be reconciled still can be. */
  lemma CancelKeepsClaims(s: Job, worker: Id, reconcile: bool)
    requires CanClaim(s, worker, reconcile)
    ensures CanCancel(s) && CanClaim(CancelAsked(s), worker, reconcile)
  {
  }

  /** Any job that may be claimed can be cancelled to the end, and retried after that if it has attempts left. */
  lemma CancellationCompletes(w: World, worker: Id, reconcile: bool)
    requires CanClaim(w.job, worker, reconcile)
    ensures Enabled(w, CancelStep)
    ensures var asked := Next(w, CancelStep);
            var claimed := Next(asked, ClaimStep(worker, reconcile));
            var done := Next(claimed, FinishCancelledStep(worker));
            && Enabled(asked, ClaimStep(worker, reconcile)) && Enabled(claimed, FinishCancelledStep(worker))
            && done.job.status == CancelledStatus && done.job.worker == NIL
            && (w.job.attempt < MAX_ATTEMPTS ==>
                  && Enabled(done, RetryStep) && Next(done, RetryStep).job.attempt == w.job.attempt + 1
                  && Enabled(Next(done, RetryStep), ClaimStep(worker, false)))
  {
  }

  /** An interrupted process that is seen to end leaves the job to be claimed for reconciliation, and then committed. */
  lemma InterruptionRecovers(w: World, worker: Id, next: Id, code: string)
    requires Owns(w.job, worker) && w.live == 0 && next != NIL
    ensures Enabled(w, InterruptStep(worker))
    ensures var ended := Next(Next(w, InterruptStep(worker)), EndStep(worker));
            var released := Next(ended, ReleaseStep(worker, true, code));
            && Enabled(Next(w, InterruptStep(worker)), EndStep(worker))
            && Enabled(ended, ReleaseStep(worker, true, code))
            && released.job.needsReconciliation && Enabled(released, ClaimStep(next, true))
            && Enabled(Next(released, ClaimStep(next, true)), CommitStep(next))
  {
  }

  /** A job runs through: claimed, started, ended, committed and approved. */
  lemma JobRunsThrough(w: World, worker: Id)
    requires CanClaim(w.job, worker, false) && !w.job.cancelling && w.job.process == NoProcess && w.live == 0
    ensures var started := Next(Next(w, ClaimStep(worker, false)), StartStep(worker));
            var ended := Next(Next(started, ProcessExits), EndStep(worker));
            && Enabled(w, ClaimStep(worker, false)) && Enabled(Next(w, ClaimStep(worker, false)), StartStep(worker))
            && Enabled(started, ProcessExits) && Enabled(Next(started, ProcessExits), EndStep(worker))
            && ended.live == 0 && Enabled(ended, CommitStep(worker))
            && Enabled(Next(ended, CommitStep(worker)), ReviewStep(Succeeded))
  {
  }

  /** EndProcess does not ask for a started process: an attempt may end without one, and then never has one. */
  lemma EndsWithoutStart(s: Job, worker: Id)
    requires Owns(s, worker) && s.process == NoProcess
    ensures var w := Next(World(s, 0, []), EndStep(worker));
            w.job.process == Ended && w.started == [] && forall any :: !CanStart(w.job, any)
  {
  }
}
