/** One agent run under crashes, lease takeovers, cancellation and repeated HTTP calls: a system of
    workers around the run database. An action that is not enabled leaves the system as it is. */
module DurableRun {
  import opened Prelude
  import opened AgentGraph
  import opened RunDatabase

  datatype Phase =
    | Claimed
    | Started(resume: Option<string>, interrupt: Option<nat>)
    | Clean
    | Computed(next: Checkpoint)
    | Paused
    | Failing
    | Gone

  /** A worker is named by its lease. seen: checkpoints it has loaded or written; point: the last of
      them; answer: a user's answer still to be handed to the paused node it loaded. */
  datatype Worker = Worker(job: nat, seen: nat, point: Point, answer: Option<string>, phase: Phase)

  datatype Sys = Sys(db: Db, workers: seq<Worker>, sent: seq<Request>)

  datatype Action =
    | ClaimJob(job: nat)
    | ExpireLease(job: nat)
    | RecoverJob(job: nat)
    | Begin(w: nat)
    | Load(w: nat, messages: seq<Msg>)
    | Compute(w: nat, input: Input)
    | Send(w: nat)
    | Deliver(k: nat, execution: Execution)
    | SaveWrites(w: nat)
    | Commit(w: nat)
    | Interrupt(w: nat)
    | ReportWaiting(w: nat)
    | Finish(w: nat, content: string)
    | Report(w: nat, retryable: bool)
    | Crash(w: nat)
    | ResumeRun(interrupt: nat, content: string, stop: bool)
    | CancelRun
    | ReconcileRun

  const INITIAL := Sys(FRESH_DB, [], [])

  function With(s: Sys, w: nat, worker: Worker): Sys
    requires w < |s.workers|
  {
    s.(workers := s.workers[w := worker])
  }

  /** An interrupt is waiting for an answer: the last checkpoint is at the clarify node and its
      interrupt was saved. The checkpoint's number names the interrupt. */
  predicate ActiveInterrupt(db: Db) {
    var n := |db.history|;
    n > 0 && n in db.paused && db.history[n - 1].point.node == ClarifyNode
  }

  /** execute: read the newest checkpoint and decide how to go on. */
  function Loaded(cfg: Config, db: Db, worker: Worker, messages: seq<Msg>): Worker
    requires worker.phase.Started?
  {
    var n, resume, interrupt := |db.history|, worker.phase.resume, worker.phase.interrupt;
    var at := if n == 0 then worker.(seen := 0, answer := None)
              else worker.(seen := n, point := db.history[n - 1].point, answer := None);
    if n == 0 then
      if resume.Some? then at.(phase := Failing)
      else at.(phase := Computed(Checkpoint(0, Start(cfg, messages), None)))
    else if resume.Some? && !(interrupt.Some? && !(ActiveInterrupt(db) && interrupt.value == n)) && !ActiveInterrupt(db)
    then at.(phase := Failing)
    else if n in db.writes then at.(phase := Computed(db.writes[n]))
    else if resume.Some? && ActiveInterrupt(db) && (interrupt.None? || interrupt.value == n)
    then at.(phase := Clean, answer := resume)
    else at.(phase := Clean)
  }

  function Computing(cfg: Config, worker: Worker, input: Input): Worker {
    var p := worker.point;
    if !worker.phase.Clean? || !Runnable(p) || !Accepts(p, input) then worker
    else if p.node == ClarifyNode && (worker.answer.None? || input != Answer(worker.answer.value)) then worker
    else
      match Step(cfg, p, input)
      case Err(_) => worker.(phase := Failing)
      case Ok(q) => worker.(phase := Computed(Checkpoint(worker.seen, q, Some(input))), answer := None)
  }

  // ---------------------------------------------------------------- actions

  const NO_POINT := Start(Config({}, 0, 0, [], {}, false), [])

  function DoClaim(s: Sys, j: nat): Sys {
    if Claimable(s.db, j)
    then s.(db := Claim(s.db, j, |s.workers|), workers := s.workers + [Worker(j, 0, NO_POINT, None, Claimed)])
    else s
  }

  function DoBegin(s: Sys, w: nat): Sys {
    if !(w < |s.workers| && s.workers[w].phase.Claimed?) then s
    else
      var worker := s.workers[w];
      if Startable(s.db, worker.job, w)
      then With(s.(db := StartRun(s.db, worker.job, w)), w,
                worker.(phase := Started(s.db.run.resume, s.db.run.interrupt)))
      else With(s, w, worker.(phase := Failing))
  }

  function DoLoad(cfg: Config, s: Sys, w: nat, messages: seq<Msg>): Sys {
    if w < |s.workers| && s.workers[w].phase.Started?
    then With(s, w, Loaded(cfg, s.db, s.workers[w], messages)) else s
  }

  function DoCompute(cfg: Config, s: Sys, w: nat, input: Input): Sys {
    if w < |s.workers| then With(s, w, Computing(cfg, s.workers[w], input)) else s
  }

  function DoSend(s: Sys, w: nat): Sys {
    if w < |s.workers| && s.workers[w].phase.Clean? && s.workers[w].point.node == ToolNode
       && Runnable(s.workers[w].point)
    then
      var p := s.workers[w].point;
      s.(sent := s.sent + [Request(w, InvocationOf(p), CallOf(p).name, CallOf(p).args)])
    else s
  }

  function DoDeliver(s: Sys, k: nat, x: Execution): Sys {
    if k < |s.sent| then s.(db := CallTool(s.db, s.sent[k], x).0) else s
  }

  function DoSaveWrites(s: Sys, w: nat): Sys {
    if w < |s.workers| && s.workers[w].phase.Computed? && s.workers[w].seen > 0
    then s.(db := PutWrites(s.db, s.workers[w].job, w, s.workers[w].seen, s.workers[w].phase.next))
    else s
  }

  function DoCommit(s: Sys, w: nat): Sys {
    if !(w < |s.workers| && s.workers[w].phase.Computed?) then s
    else
      var worker := s.workers[w];
      if Owned(s.db, worker.job, w)
      then With(s.(db := PutCheckpoint(s.db, worker.job, w, worker.phase.next)), w,
                worker.(seen := worker.seen + 1, point := worker.phase.next.point, answer := None, phase := Clean))
      else With(s, w, worker.(phase := Failing))
  }

  function DoInterrupt(s: Sys, w: nat): Sys {
    if w < |s.workers| && s.workers[w].phase.Clean? && s.workers[w].point.node == ClarifyNode
       && s.workers[w].answer.None?
    then
      var worker := s.workers[w];
      if Owned(s.db, worker.job, w)
      then With(s.(db := PutInterrupt(s.db, worker.job, w, worker.seen)), w, worker.(phase := Paused))
      else With(s, w, worker.(phase := Failing))
    else s
  }

  function DoReportWaiting(s: Sys, w: nat): Sys {
    if !(w < |s.workers| && s.workers[w].phase.Paused?) then s
    else if Applicable(s.db, s.workers[w].job, w)
    then With(s.(db := ApplyWaiting(s.db, s.workers[w].job, w, s.workers[w].seen)), w, s.workers[w].(phase := Gone))
    else With(s, w, s.workers[w].(phase := Failing))
  }

  function DoFinish(s: Sys, w: nat, content: string): Sys {
    if !(w < |s.workers| && s.workers[w].phase.Clean? && s.workers[w].point.node == End) then s
    else if Applicable(s.db, s.workers[w].job, w)
    then With(s.(db := ApplyFinal(s.db, s.workers[w].job, w, content)), w, s.workers[w].(phase := Gone))
    else With(s, w, s.workers[w].(phase := Failing))
  }

  function DoReport(s: Sys, w: nat, retryable: bool): Sys {
    if w < |s.workers| && s.workers[w].phase.Failing?
    then With(s.(db := OnError(s.db, s.workers[w].job, w, retryable)), w, s.workers[w].(phase := Gone))
    else s
  }

  function DoCrash(s: Sys, w: nat): Sys {
    if w < |s.workers| then With(s, w, s.workers[w].(phase := Gone)) else s
  }

  function Act(cfg: Config, s: Sys, a: Action): Sys {
    match a
    case ClaimJob(j) => DoClaim(s, j)
    case ExpireLease(j) => s.(db := Expire(s.db, j))
    case RecoverJob(j) => s.(db := Recover(s.db, j))
    case Begin(w) => DoBegin(s, w)
    case Load(w, messages) => DoLoad(cfg, s, w, messages)
    case Compute(w, input) => DoCompute(cfg, s, w, input)
    case Send(w) => DoSend(s, w)
    case Deliver(k, x) => DoDeliver(s, k, x)
    case SaveWrites(w) => DoSaveWrites(s, w)
    case Commit(w) => DoCommit(s, w)
    case Interrupt(w) => DoInterrupt(s, w)
    case ReportWaiting(w) => DoReportWaiting(s, w)
    case Finish(w, content) => DoFinish(s, w, content)
    case Report(w, retryable) => DoReport(s, w, retryable)
    case Crash(w) => DoCrash(s, w)
    case ResumeRun(interrupt, content, stop) => s.(db := Resume(s.db, interrupt, content, stop))
    case CancelRun => s.(db := Cancel(s.db))
    case ReconcileRun => s.(db := Reconcile(s.db))
  }

  /** The state after any interleaving of actions. */
  function Exec(cfg: Config, s: Sys, actions: seq<Action>): Sys {
    if actions == [] then s else Act(cfg, Exec(cfg, s, actions[..|actions| - 1]), actions[|actions| - 1])
  }
}
