/** The rows behind one agent run and the transactions on them: scheduler lease, run row, fenced
    checkpoints, tool receipts and effects, user answers and the final message. */
module RunDatabase {
  import opened Prelude
  import opened AgentGraph

  datatype JobStatus = Ready | Running | RetryWait | Done | Failed | Cancelled

  /** lease names the claim that issued it; live is false once lease_until has passed. */
  datatype Job = Job(status: JobStatus, lease: Option<nat>, live: bool, attempts: nat)

  datatype RunStatus = RunQueued | RunRunning | RunWaiting | RunSucceeded | RunFailed | RunCancelled

  datatype RunRow = RunRow(
    status: RunStatus, job: nat, token: Option<nat>, tokenLease: Option<nat>,
    resume: Option<string>, interrupt: Option<nat>)

  /** parent: number of checkpoints the writer had seen; input: what made this point (history variable). */
  datatype Checkpoint = Checkpoint(parent: nat, point: Point, input: Option<Input>)

  datatype Receipt = Receipt(name: Name, args: Arguments, ok: bool, body: string)

  datatype Effect = Effect(inv: InvId, name: Name, args: Arguments)

  datatype Db = Db(
    jobs: seq<Job>,
    run: RunRow,
    active: bool,
    history: seq<Checkpoint>,
    writes: map<nat, Checkpoint>,
    paused: set<nat>,
    receipts: map<InvId, Receipt>,
    effects: seq<Effect>,
    answers: seq<(nat, string)>,
    finals: seq<string>)

  const FRESH_DB := Db([Job(Ready, None, false, 0)], RunRow(RunQueued, 0, None, None, None, None), true,
                      [], map[], {}, map[], [], [], [])

  const MAX_ATTEMPTS := 3

  // ---------------------------------------------------------------- scheduler

  predicate Claimable(db: Db, j: nat) {
    j < |db.jobs| && db.jobs[j].status in {Ready, RetryWait}
  }

  function Claim(db: Db, j: nat, lease: nat): Db {
    if Claimable(db, j)
    then db.(jobs := db.jobs[j := Job(Running, Some(lease), true, db.jobs[j].attempts + 1)])
    else db
  }

  function Expire(db: Db, j: nat): Db {
    if j < |db.jobs| then db.(jobs := db.jobs[j := db.jobs[j].(live := false)]) else db
  }

  function Released(job: Job, status: JobStatus): Job {
    job.(status := status, lease := None, live := false)
  }

  function Recover(db: Db, j: nat): Db {
    if j < |db.jobs| && db.jobs[j].status == Running && !db.jobs[j].live
    then
      var status := if db.jobs[j].attempts < MAX_ATTEMPTS then RetryWait else Failed;
      db.(jobs := db.jobs[j := Released(db.jobs[j], status)])
    else db
  }

  /** The lease fence: job running, same token, not expired. */
  predicate Owned(db: Db, j: nat, lease: nat) {
    j < |db.jobs| && db.jobs[j].status == Running && db.jobs[j].lease == Some(lease) && db.jobs[j].live
  }

  // ---------------------------------------------------------------- handler transactions

  predicate Startable(db: Db, j: nat, lease: nat) {
    db.active && db.run.status in {RunQueued, RunRunning} && Owned(db, j, lease)
  }

  function StartRun(db: Db, j: nat, lease: nat): Db {
    if Startable(db, j, lease)
    then db.(run := db.run.(status := RunRunning, token := Some(lease), tokenLease := Some(lease)))
    else db
  }

  predicate Applicable(db: Db, j: nat, lease: nat) {
    db.run.status == RunRunning && db.active && Owned(db, j, lease)
  }

  function Completed(db: Db, j: nat): seq<Job>
    requires j < |db.jobs|
  {
    db.jobs[j := Released(db.jobs[j], Done)]
  }

  function ApplyWaiting(db: Db, j: nat, lease: nat, interrupt: nat): Db {
    if Applicable(db, j, lease)
    then db.(run := db.run.(status := RunWaiting, interrupt := Some(interrupt), resume := None,
                            token := None, tokenLease := None),
             jobs := Completed(db, j))
    else db
  }

  function Closed(run: RunRow, status: RunStatus): RunRow {
    run.(status := status, token := None, tokenLease := None)
  }

  function ApplyFinal(db: Db, j: nat, lease: nat, content: string): Db {
    if Applicable(db, j, lease)
    then db.(run := Closed(db.run, RunSucceeded).(resume := None), active := false,
             finals := db.finals + [content], jobs := Completed(db, j))
    else db
  }

  /** on_error and fail in one transaction; without the lease both are rolled back. */
  function OnError(db: Db, j: nat, lease: nat, retryable: bool): Db {
    if !Owned(db, j, lease) then db
    else if retryable && db.jobs[j].attempts < MAX_ATTEMPTS
    then db.(jobs := db.jobs[j := Released(db.jobs[j], RetryWait)])
    else
      var failed := db.(jobs := db.jobs[j := Released(db.jobs[j], Failed)]);
      if db.run.status == RunCancelled then failed
      else failed.(run := Closed(db.run, RunFailed), active := false)
  }

  /** An open run whose job has failed, was cancelled or is missing. */
  function Reconcile(db: Db): Db {
    if db.active && db.run.status in {RunQueued, RunRunning}
       && (db.run.job < |db.jobs| ==> db.jobs[db.run.job].status in {Failed, Cancelled})
    then db.(run := Closed(db.run, RunFailed), active := false)
    else db
  }

  // ---------------------------------------------------------------- user requests

  /** A stop word closes the run; any other answer queues it again behind a new job. */
  function Resume(db: Db, interrupt: nat, content: string, stop: bool): Db {
    if db.run.status != RunWaiting || db.run.interrupt != Some(interrupt) then db
    else
      var told := db.(answers := db.answers + [(interrupt, content)]);
      if stop then told.(run := Closed(db.run, RunCancelled), active := false)
      else told.(run := db.run.(status := RunQueued, resume := Some(content), job := |db.jobs|),
                 jobs := db.jobs + [Job(Ready, None, false, 0)])
  }

  function Cancel(db: Db): Db {
    if db.run.status !in {RunQueued, RunRunning, RunWaiting} then db
    else
      var j := db.run.job;
      db.(jobs := if j < |db.jobs| && db.jobs[j].status in {Ready, Running, RetryWait}
                  then db.jobs[j := Released(db.jobs[j], Cancelled)] else db.jobs,
          run := Closed(db.run, RunCancelled), active := false)
  }

  // ---------------------------------------------------------------- fenced checkpoints

  function PutCheckpoint(db: Db, j: nat, lease: nat, c: Checkpoint): Db {
    if Owned(db, j, lease) then db.(history := db.history + [c]) else db
  }

  /** Writes of a finished node are kept once per checkpoint. */
  function PutWrites(db: Db, j: nat, lease: nat, seen: nat, c: Checkpoint): Db {
    if Owned(db, j, lease) && seen !in db.writes then db.(writes := db.writes[seen := c]) else db
  }

  function PutInterrupt(db: Db, j: nat, lease: nat, seen: nat): Db {
    if Owned(db, j, lease) then db.(paused := db.paused + {seen}) else db
  }

  // ---------------------------------------------------------------- tool calls over HTTP

  datatype Request = Request(token: nat, inv: InvId, name: Name, args: Arguments)

  /** Executed: the tool ran; Denied: it raised a business error and was rolled back; Crashed: anything
      else, including a lease that lapses before the commit. */
  datatype Execution = Executed(body: string) | Denied(body: string) | Crashed

  datatype Response = Unauthorized | Conflict | ServerError | Result(receipt: Receipt)

  predicate Authorized(db: Db, r: Request) {
    && db.run.token == Some(r.token)
    && db.run.tokenLease.Some? && Owned(db, db.run.job, db.run.tokenLease.value)
    && db.run.status == RunRunning && db.active
  }

  function CallTool(db: Db, r: Request, x: Execution): (Db, Response) {
    if !Authorized(db, r) then (db, Unauthorized)
    else if r.inv in db.receipts then
      var recorded := db.receipts[r.inv];
      (db, if recorded.name == r.name && recorded.args == r.args then Result(recorded) else Conflict)
    else
      match x
      case Crashed => (db, ServerError)
      case Denied(body) =>
        var receipt := Receipt(r.name, r.args, false, body);
        (db.(receipts := db.receipts[r.inv := receipt]), Result(receipt))
      case Executed(body) =>
        var receipt := Receipt(r.name, r.args, true, body);
        (db.(receipts := db.receipts[r.inv := receipt], effects := db.effects + [Effect(r.inv, r.name, r.args)]),
         Result(receipt))
  }
}
