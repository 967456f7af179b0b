/** The rows of one run, changed in place by the scheduler, the handlers, the user's requests, the fenced
    saver and the tool endpoint. Each transaction is proved against its specification. */
module RunStore {
  import opened Prelude
  import opened AgentGraph
  import opened RunDatabase

  class Store {
    var jobs: seq<Job>
    var run: RunRow
    var active: bool
    var history: seq<Checkpoint>
    var writes: map<nat, Checkpoint>
    var paused: set<nat>
    var receipts: map<InvId, Receipt>
    var effects: seq<Effect>
    var answers: seq<(nat, string)>
    var finals: seq<string>

    constructor ()
      ensures Rows() == FRESH_DB
    {
      jobs, run, active := [Job(Ready, None, false, 0)], RunRow(RunQueued, 0, None, None, None, None), true;
      history, writes, paused, receipts, effects, answers, finals := [], map[], {}, map[], [], [], [];
    }

    function Rows(): Db
      reads this
    {
      Db(jobs, run, active, history, writes, paused, receipts, effects, answers, finals)
    }

    /** The statement the fence executes: lock the job if this lease still holds it. */
    predicate Fence(j: nat, lease: nat)
      reads this
    {
      j < |jobs| && jobs[j].status == Running && jobs[j].lease == Some(lease) && jobs[j].live
    }

    /** Nobody passes the fence of this job. */
    ghost predicate NoFence(j: nat)
      reads this
    {
      forall lease :: !Fence(j, lease)
    }

    /** The endpoint lets the call in: the run's current token, its job held under the lease the token was
        given for, and the run active and running. */
    ghost predicate LetsIn(r: Request)
      reads this
    {
      && run.token == Some(r.token) && run.tokenLease.Some? && Fence(run.job, run.tokenLease.value)
      && run.status == RunRunning && active
    }

    /** No tool call is let in. */
    ghost predicate NoCaller()
      reads this
    {
      forall r: Request :: !LetsIn(r)
    }

    /** Of the jobs only j has changed, and it has given up its lease. */
    static ghost predicate GaveUp(before: seq<Job>, after: seq<Job>, j: nat, status: JobStatus) {
      j < |before| && after == before[j := Job(status, None, false, before[j].attempts)]
    }

    /** The run is closed with this outcome and holds no token; its job and interrupt stay. */
    ghost predicate ClosedAs(before: RunRow, status: RunStatus)
      reads this
    {
      !active && run == RunRow(status, before.job, None, None, run.resume, before.interrupt)
    }

    // -------------------------------------------------------------- scheduler

    method ClaimJob(j: nat, lease: nat)
      modifies this`jobs
      ensures Rows() == Claim(old(Rows()), j, lease)
      ensures if j < |old(jobs)| && old(jobs)[j].status in {Ready, RetryWait}
              then jobs == old(jobs)[j := Job(Running, Some(lease), true, old(jobs)[j].attempts + 1)]
              else jobs == old(jobs)
    {
      if j < |jobs| && (jobs[j].status == Ready || jobs[j].status == RetryWait) {
        jobs := jobs[j := Job(Running, Some(lease), true, jobs[j].attempts + 1)];
      }
    }

    method RecoverExpired(j: nat)
      modifies this`jobs
      ensures Rows() == Recover(old(Rows()), j)
      ensures if j < |old(jobs)| && old(jobs)[j].status == Running && !old(jobs)[j].live
              then GaveUp(old(jobs), jobs, j, if old(jobs)[j].attempts < 3 then RetryWait else Failed)
              else jobs == old(jobs)
      ensures forall i, lease :: Fence(i, lease) == old(Fence(i, lease))
    {
      if j < |jobs| && jobs[j].status == Running && !jobs[j].live {
        var job := jobs[j].(lease := None);
        job := job.(live := false);
        job := job.(status := if job.attempts < MAX_ATTEMPTS then RetryWait else Failed);
        jobs := jobs[j := job];
      }
    }

    // -------------------------------------------------------------- handlers

    method CloseRun(status: RunStatus)
      modifies this`run, this`active
      ensures run == Closed(old(run), status) && !active
    {
      run := run.(status := status);
      run := run.(token := None, tokenLease := None);
      active := false;
    }

    /** The first transaction of the run handler; false when the run is no longer active or the lease is lost. */
    method Begin(j: nat, lease: nat) returns (started: bool)
      modifies this`run
      ensures started == Startable(old(Rows()), j, lease)
      ensures Rows() == StartRun(old(Rows()), j, lease)
      ensures started <==> old(active) && old(run).status in {RunQueued, RunRunning} && old(Fence(j, lease))
      ensures !started ==> Rows() == old(Rows())
      ensures started ==>
        && run == old(run).(status := RunRunning, token := Some(lease), tokenLease := Some(lease))
        && (run.job == j ==> forall r: Request :: LetsIn(r) <==> r.token == lease)
    {
      if !active || (run.status != RunQueued && run.status != RunRunning) {
        return false;
      }
      var row := run.(status := RunRunning);
      row := row.(token := Some(lease));
      row := row.(tokenLease := Some(lease));
      if !Fence(j, lease) {
        return false;
      }
      run := row;
      return true;
    }

    /** apply and complete: one transaction, rolled back without the lease. */
    method Apply(j: nat, lease: nat, waiting: Option<nat>, content: string) returns (applied: bool)
      modifies this
      ensures applied == Applicable(old(Rows()), j, lease)
      ensures Rows() ==
        if waiting.Some? then ApplyWaiting(old(Rows()), j, lease, waiting.value)
        else ApplyFinal(old(Rows()), j, lease, content)
      ensures applied <==> old(run).status == RunRunning && old(active) && old(Fence(j, lease))
      ensures !applied ==> Rows() == old(Rows())
      ensures applied ==> GaveUp(old(jobs), jobs, j, Done) && NoFence(j) && NoCaller() && run.resume.None?
      ensures applied && waiting.Some? ==>
        && active && finals == old(finals) && run == RunRow(RunWaiting, old(run).job, None, None, None, waiting)
      ensures applied && waiting.None? ==> finals == old(finals) + [content] && ClosedAs(old(run), RunSucceeded)
    {
      if run.status != RunRunning || !active || !Fence(j, lease) {
        return false;
      }
      run := run.(resume := None);
      if waiting.Some? {
        run := run.(status := RunWaiting);
        run := run.(interrupt := waiting);
        run := run.(token := None, tokenLease := None);
      } else {
        finals := finals + [content];
        CloseRun(RunSucceeded);
      }
      jobs := jobs[j := Released(jobs[j], Done)];
      return true;
    }

    method Fail(j: nat, lease: nat, retryable: bool)
      modifies this
      ensures Rows() == OnError(old(Rows()), j, lease, retryable)
      ensures !old(Fence(j, lease)) ==> Rows() == old(Rows())
      ensures old(Fence(j, lease)) ==> NoFence(j)
      ensures old(Fence(j, lease)) && retryable && old(jobs)[j].attempts < 3 ==>
        GaveUp(old(jobs), jobs, j, RetryWait) && run == old(run) && active == old(active)
      ensures old(Fence(j, lease)) && !(retryable && old(jobs)[j].attempts < 3) ==>
        && GaveUp(old(jobs), jobs, j, Failed)
        && if old(run).status == RunCancelled then run == old(run) && active == old(active)
           else ClosedAs(old(run), RunFailed)
    {
      if !Fence(j, lease) {
        return;
      }
      if retryable && jobs[j].attempts < MAX_ATTEMPTS {
        jobs := jobs[j := Released(jobs[j], RetryWait)];
        return;
      }
      if run.status != RunCancelled {
        CloseRun(RunFailed);
      }
      jobs := jobs[j := Released(jobs[j], Failed)];
    }

    method ReconcileRun()
      modifies this
      ensures Rows() == Reconcile(old(Rows()))
      ensures if old(active) && old(run).status in {RunQueued, RunRunning}
                 && (run.job >= |jobs| || jobs[run.job].status in {Failed, Cancelled})
              then ClosedAs(old(run), RunFailed) && NoFence(run.job) && NoCaller() && jobs == old(jobs)
              else Rows() == old(Rows())
    {
      if active && (run.status == RunQueued || run.status == RunRunning)
         && (run.job >= |jobs| || jobs[run.job].status == Failed || jobs[run.job].status == Cancelled) {
        CloseRun(RunFailed);
      }
    }

    // -------------------------------------------------------------- user requests

    /** 202 with true; 409 with false when the run does not wait for this interrupt. */
    method ResumeRun(interrupt: nat, content: string, stop: bool) returns (accepted: bool)
      modifies this
      ensures accepted == (old(run).status == RunWaiting && old(run).interrupt == Some(interrupt))
      ensures Rows() == Resume(old(Rows()), interrupt, content, stop)
      ensures !accepted ==> Rows() == old(Rows())
      ensures accepted ==> answers == old(answers) + [(interrupt, content)]
      ensures accepted && stop ==> ClosedAs(old(run), RunCancelled) && jobs == old(jobs)
      ensures accepted && !stop ==>
        && run == old(run).(status := RunQueued, resume := Some(content), job := |old(jobs)|) && active == old(active)
        && jobs == old(jobs) + [Job(Ready, None, false, 0)]
    {
      if run.status != RunWaiting || run.interrupt != Some(interrupt) {
        return false;
      }
      answers := answers + [(interrupt, content)];
      if stop {
        CloseRun(RunCancelled);
      } else {
        run := run.(resume := Some(content));
        run := run.(status := RunQueued);
        run := run.(job := |jobs|);
        jobs := jobs + [Job(Ready, None, false, 0)];
      }
      return true;
    }

    method CancelRun()
      modifies this
      ensures Rows() == Cancel(old(Rows()))
      ensures if old(run).status in {RunQueued, RunRunning, RunWaiting}
              then ClosedAs(old(run), RunCancelled) && NoFence(run.job) && NoCaller()
              else Rows() == old(Rows())
      ensures var j := old(run).job;
        if old(run).status in {RunQueued, RunRunning, RunWaiting} && j < |old(jobs)|
           && old(jobs)[j].status in {Ready, Running, RetryWait}
        then GaveUp(old(jobs), jobs, j, Cancelled)
        else jobs == old(jobs)
    {
      if run.status == RunQueued || run.status == RunRunning || run.status == RunWaiting {
        if run.job < |jobs| && jobs[run.job].status in {Ready, Running, RetryWait} {
          jobs := jobs[run.job := Released(jobs[run.job], Cancelled)];
        }
        CloseRun(RunCancelled);
      }
    }

    // -------------------------------------------------------------- the fenced saver

    /** aput: fence, write, fence again; lapses: the lease runs out between the two. */
    method SaveCheckpoint(j: nat, lease: nat, c: Checkpoint, lapses: bool) returns (saved: bool)
      modifies this`jobs, this`history
      ensures saved == (old(Fence(j, lease)) && !lapses)
      ensures Rows() == if lapses then Expire(old(Rows()), j) else PutCheckpoint(old(Rows()), j, lease, c)
      ensures history == if saved then old(history) + [c] else old(history)
    {
      var before := history;
      saved := Fence(j, lease);
      if saved {
        history := history + [c];
      }
      if lapses && j < |jobs| {
        jobs := jobs[j := jobs[j].(live := false)];
      }
      if saved && !Fence(j, lease) {
        history := before;
        saved := false;
      }
    }

    /** aput_writes, fenced the same way. */
    method SaveWrites(j: nat, lease: nat, seen: nat, c: Checkpoint, lapses: bool) returns (saved: bool)
      modifies this`jobs, this`writes
      ensures saved == (old(Fence(j, lease)) && !lapses)
      ensures Rows() == if lapses then Expire(old(Rows()), j) else PutWrites(old(Rows()), j, lease, seen, c)
      ensures writes == if saved && seen !in old(writes) then old(writes)[seen := c] else old(writes)
    {
      var before := writes;
      saved := Fence(j, lease);
      if saved && seen !in writes {
        writes := writes[seen := c];
      }
      if lapses && j < |jobs| {
        jobs := jobs[j := jobs[j].(live := false)];
      }
      if saved && !Fence(j, lease) {
        writes := before;
        saved := false;
      }
    }

    method SaveInterrupt(j: nat, lease: nat, seen: nat, lapses: bool) returns (saved: bool)
      modifies this`jobs, this`paused
      ensures saved == (old(Fence(j, lease)) && !lapses)
      ensures Rows() == if lapses then Expire(old(Rows()), j) else PutInterrupt(old(Rows()), j, lease, seen)
      ensures paused == if saved then old(paused) + {seen} else old(paused)
    {
      var before := paused;
      saved := Fence(j, lease);
      if saved {
        paused := paused + {seen};
      }
      if lapses && j < |jobs| {
        jobs := jobs[j := jobs[j].(live := false)];
      }
      if saved && !Fence(j, lease) {
        paused := before;
        saved := false;
      }
    }

    // -------------------------------------------------------------- tool calls

    /** The receipt is of this call. */
    static predicate Records(receipt: Receipt, r: Request) {
      receipt.name == r.name && receipt.args == r.args
    }

    method Call(r: Request, x: Execution) returns (response: Response)
      modifies this`receipts, this`effects
      ensures (Rows(), response) == CallTool(old(Rows()), r, x)
      ensures !old(LetsIn(r)) ==> response == Unauthorized && Rows() == old(Rows())
      ensures old(LetsIn(r)) && r.inv in old(receipts) ==>
        && Rows() == old(Rows())
        && response == if Records(old(receipts)[r.inv], r) then Result(old(receipts)[r.inv]) else Conflict
      ensures old(LetsIn(r)) && r.inv !in old(receipts) && x.Executed? ==>
        && response == Result(Receipt(r.name, r.args, true, x.body))
        && receipts == old(receipts)[r.inv := response.receipt]
        && effects == old(effects) + [Effect(r.inv, r.name, r.args)]
      ensures old(LetsIn(r)) && r.inv !in old(receipts) && x.Denied? ==>
        && response == Result(Receipt(r.name, r.args, false, x.body))
        && receipts == old(receipts)[r.inv := response.receipt] && effects == old(effects)
      ensures old(LetsIn(r)) && r.inv !in old(receipts) && x.Crashed? ==>
        response == ServerError && Rows() == old(Rows())
      ensures forall inv :: inv in old(receipts) ==> inv in receipts && receipts[inv] == old(receipts)[inv]
      ensures effects == old(effects)
        || (effects == old(effects) + [Effect(r.inv, r.name, r.args)] && r.inv !in old(receipts) && r.inv in receipts)
    {
      if run.token != Some(r.token) {
        return Unauthorized;
      }
      if run.tokenLease.None? || !Fence(run.job, run.tokenLease.value) || run.status != RunRunning || !active {
        return Unauthorized;
      }
      if r.inv in receipts {
        var recorded := receipts[r.inv];
        if recorded.name != r.name || recorded.args != r.args {
          return Conflict;
        }
        return Result(recorded);
      }
      var receipt;
      match x {
        case Crashed =>
          return ServerError;
        case Denied(body) =>
          receipt := Receipt(r.name, r.args, false, body);
        case Executed(body) =>
          receipt := Receipt(r.name, r.args, true, body);
          effects := effects + [Effect(r.inv, r.name, r.args)];
      }
      receipts := receipts[r.inv := receipt];
      return Result(receipt);
    }
  }
}
