/** The guarantees of the durable agent run, for every interleaving of actions. */
module DurableTheorems {
  import opened Prelude
  import opened AgentGraph
  import opened RunDatabase
  import opened DurableRun
  import opened DurableProofs
  import Graph = AgentGraphProofs
  import Intent = AgentIntent
  import Outcomes = AgentOutcomes

  // ---------------------------------------------------------------- linear history, and what it refines

  function Points(history: seq<Checkpoint>): seq<Point> {
    Map((c: Checkpoint) => c.point, history)
  }

  /** The inputs behind all checkpoints but the first. */
  function Inputs(history: seq<Checkpoint>): (r: seq<Input>)
    requires forall k :: 0 < k < |history| ==> history[k].input.Some?
    ensures |r| == if history == [] then 0 else |history| - 1
    ensures forall k :: 0 <= k < |r| ==> r[k] == history[k + 1].input.value
  {
    if |history| <= 1 then [] else Inputs(history[..|history| - 1]) + [history[|history| - 1].input.value]
  }

  /** Checkpoint history is linear: each one was made from the one just before it. */
  lemma LinearHistory(cfg: Config, actions: seq<Action>, k: nat)
    requires k < |Exec(cfg, INITIAL, actions).db.history|
    ensures Exec(cfg, INITIAL, actions).db.history[k].parent == k
  {
    Reachable(cfg, actions);
  }

  ghost predicate RefinedBy(cfg: Config, history: seq<Checkpoint>, messages: seq<Msg>) {
    && (forall k :: 0 < k < |history| ==> history[k].input.Some?)
    && Graph.IsRunFrom(cfg, messages, Points(history), Inputs(history))
  }

  /** The checkpoints that crashing and competing workers commit are one uninterrupted execution of
      the graph: durability refines the plain loop. */
  lemma DurableRefinesGraph(cfg: Config, actions: seq<Action>)
    ensures var history := Exec(cfg, INITIAL, actions).db.history;
      history == [] || exists messages :: RefinedBy(cfg, history, messages)
  {
    Reachable(cfg, actions);
    var db := Exec(cfg, INITIAL, actions).db;
    var history, rules := db.history, RulesOf(cfg);
    if history != [] {
      assert CheckpointOk(rules, db, history[0]);
      var messages :| history[0].point == Start(cfg, messages);
      forall k | 0 < k < |history| ensures history[k].input.Some? {
        assert CheckpointOk(rules, db, history[k]);
      }
      var pts, ins := Points(history), Inputs(history);
      forall i | 0 <= i < |ins| ensures MovesAt(cfg, pts, ins, i) {
        assert CheckpointOk(rules, db, history[i + 1]) && history[i + 1].parent == i + 1;
        assert ins[i] == history[i + 1].input.value;
      }
      assert RefinedBy(cfg, history, messages);
    }
  }

  /** Whatever crashed in between: before every committed model step the tape is disciplined. */
  lemma DurableTapeDiscipline(cfg: Config, actions: seq<Action>, k: nat)
    requires k < |Exec(cfg, INITIAL, actions).db.history|
    requires Exec(cfg, INITIAL, actions).db.history[k].point.node in {ReserveModel, ModelNode}
    ensures var s := Exec(cfg, INITIAL, actions).db.history[k].point.state;
      s.initialCount <= |s.messages| && Graph.Disciplined(s.messages[s.initialCount..])
  {
    var history := Exec(cfg, INITIAL, actions).db.history;
    DurableRefinesGraph(cfg, actions);
    var messages :| RefinedBy(cfg, history, messages);
    Graph.TapeDiscipline(cfg, messages, Points(history), Inputs(history), k);
  }

  /** Crashes cannot stretch a run: the history never exceeds the budget bound. */
  lemma DurableBounded(cfg: Config, actions: seq<Action>)
    ensures |Exec(cfg, INITIAL, actions).db.history| <= 2 * (cfg.maxModels + cfg.maxTools) + 1
  {
    var history := Exec(cfg, INITIAL, actions).db.history;
    DurableRefinesGraph(cfg, actions);
    if history != [] {
      var messages :| RefinedBy(cfg, history, messages);
      Graph.Bounded(cfg, messages, Points(history), Inputs(history));
    }
  }

  /** A committed end: its last step lost a required read or was a stop word, or every required tool has
      succeeded at a committed checkpoint, a required read since the context last changed. */
  lemma DurableRequiredTools(cfg: Config, actions: seq<Action>, k: nat)
    requires k < |Exec(cfg, INITIAL, actions).db.history|
    requires Exec(cfg, INITIAL, actions).db.history[k].point.node == End
    ensures var history := Exec(cfg, INITIAL, actions).db.history;
      && k > 0 && (forall j :: 0 < j < |history| ==> history[j].input.Some?)
      && var pts, ins := Points(history), Inputs(history);
         || Outcomes.LosesEvidence(cfg, pts, ins, k - 1) || Outcomes.StopsAt(pts, ins, k - 1)
         || forall n :: n in cfg.required ==> Outcomes.Done(cfg, pts, ins, k, n)
  {
    var history := Exec(cfg, INITIAL, actions).db.history;
    DurableRefinesGraph(cfg, actions);
    var messages :| RefinedBy(cfg, history, messages);
    Outcomes.RequiredToolsCompleted(cfg, messages, Points(history), Inputs(history), k);
  }

  // ---------------------------------------------------------------- tool effects

  lemma CommittedInvocationsDistinct(cfg: Config, actions: seq<Action>, g: nat, h: nat)
    requires var history := Exec(cfg, INITIAL, actions).db.history;
      g < |history| && h < |history| && history[g].point.node == ToolNode && history[h].point.node == ToolNode
      && InvocationOf(history[g].point) == InvocationOf(history[h].point)
    ensures g == h
  {
    var history := Exec(cfg, INITIAL, actions).db.history;
    DurableRefinesGraph(cfg, actions);
    var messages :| RefinedBy(cfg, history, messages);
    Graph.InvocationsDistinct(cfg, Points(history), Inputs(history), g, h);
  }

  /** One invocation id always carries the same tool and arguments, whichever worker sends it. */
  lemma InvocationFixesCall(cfg: Config, actions: seq<Action>, k: nat, l: nat)
    requires var sent := Exec(cfg, INITIAL, actions).sent;
      k < |sent| && l < |sent| && sent[k].inv == sent[l].inv
    ensures var sent := Exec(cfg, INITIAL, actions).sent; sent[k].name == sent[l].name && sent[k].args == sent[l].args
  {
    var s := Exec(cfg, INITIAL, actions);
    Reachable(cfg, actions);
    assert Backed(s.db, s.sent[k]) && Backed(s.db, s.sent[l]);
    var g: nat :| FromHistory(s.db, s.sent[k], g);
    var h: nat :| FromHistory(s.db, s.sent[l], h);
    CommittedInvocationsDistinct(cfg, actions, g, h);
  }

  /** The "arguments changed" conflict is unreachable: no request any worker ever sent can meet it. */
  lemma NoConflict(cfg: Config, actions: seq<Action>, k: nat, x: Execution)
    requires k < |Exec(cfg, INITIAL, actions).sent|
    ensures var s := Exec(cfg, INITIAL, actions); CallTool(s.db, s.sent[k], x).1 != Conflict
  {
    var s := Exec(cfg, INITIAL, actions);
    Reachable(cfg, actions);
    var r := s.sent[k];
    if r.inv in s.db.receipts {
      var receipt := s.db.receipts[r.inv];
      assert SentWith(s.sent, r.inv, receipt.name, receipt.args);
      var l :| 0 <= l < |s.sent| && s.sent[l].inv == r.inv && s.sent[l].name == receipt.name
        && s.sent[l].args == receipt.args;
      InvocationFixesCall(cfg, actions, k, l);
    }
  }

  ghost predicate CommittedCall(db: Db, e: Effect, h: nat) {
    && h < |db.history| && db.history[h].point.node == ToolNode && Runnable(db.history[h].point)
    && e.inv == InvocationOf(db.history[h].point)
    && e.name == CallOf(db.history[h].point).name && e.args == CallOf(db.history[h].point).args
  }

  /** Effects commit at most once per invocation, with a successful receipt, and only for the call a
      committed checkpoint was about to execute. */
  lemma EffectsOnce(cfg: Config, actions: seq<Action>, i: nat)
    requires i < |Exec(cfg, INITIAL, actions).db.effects|
    ensures var db := Exec(cfg, INITIAL, actions).db;
      && (forall j :: 0 <= j < |db.effects| && db.effects[j].inv == db.effects[i].inv ==> j == i)
      && db.effects[i].inv in db.receipts && db.receipts[db.effects[i].inv].ok
      && exists h: nat :: CommittedCall(db, db.effects[i], h)
  {
    Reachable(cfg, actions);
    var h := EffectCommitted(cfg, actions, i);
  }

  lemma EffectCommitted(cfg: Config, actions: seq<Action>, i: nat) returns (h: nat)
    requires i < |Exec(cfg, INITIAL, actions).db.effects|
    ensures CommittedCall(Exec(cfg, INITIAL, actions).db, Exec(cfg, INITIAL, actions).db.effects[i], h)
  {
    var s := Exec(cfg, INITIAL, actions);
    Reachable(cfg, actions);
    var e := s.db.effects[i];
    assert SentWith(s.sent, e.inv, e.name, e.args);
    var k :| 0 <= k < |s.sent| && s.sent[k].inv == e.inv && s.sent[k].name == e.name && s.sent[k].args == e.args;
    assert Backed(s.db, s.sent[k]);
    h :| FromHistory(s.db, s.sent[k], h);
  }

  /** Effects and successful receipts correspond: a receipt says ok exactly when the effect of its call has
      been committed. */
  lemma EffectBehindReceipt(cfg: Config, actions: seq<Action>, inv: InvId)
    requires inv in Exec(cfg, INITIAL, actions).db.receipts
    ensures var db := Exec(cfg, INITIAL, actions).db;
      var receipt := db.receipts[inv];
      && (receipt.ok <==> exists i :: 0 <= i < |db.effects| && db.effects[i].inv == inv)
      && (receipt.ok <==> Effect(inv, receipt.name, receipt.args) in db.effects)
  {
    Reachable(cfg, actions);
  }

  /** Whoever sent it, and whatever crashed in between: an effect is of a call that the frame of its committed
      checkpoint allows. */
  lemma EffectsWithinFrame(cfg: Config, actions: seq<Action>, i: nat)
    requires i < |Exec(cfg, INITIAL, actions).db.effects|
    ensures var db := Exec(cfg, INITIAL, actions).db;
      exists h: nat ::
        CommittedCall(db, db.effects[i], h)
        && Intent.CallAllowed(cfg, FrameOf(db.history[h].point.state), CallOf(db.history[h].point))
  {
    var db := Exec(cfg, INITIAL, actions).db;
    EffectsOnce(cfg, actions, i);
    var h: nat :| CommittedCall(db, db.effects[i], h);
    DurableRefinesGraph(cfg, actions);
    var messages :| RefinedBy(cfg, db.history, messages);
    Intent.ExecutedWithinFrame(cfg, messages, Points(db.history), Inputs(db.history), h);
  }

  /** A receipt is final: no later action changes it, and a repeated request only reads it. */
  lemma {:induction false} ReceiptsFinal(cfg: Config, s: Sys, later: seq<Action>, inv: InvId)
    requires inv in s.db.receipts
    ensures inv in Exec(cfg, s, later).db.receipts && Exec(cfg, s, later).db.receipts[inv] == s.db.receipts[inv]
  {
    if later != [] {
      ReceiptsFinal(cfg, s, later[..|later| - 1], inv);
      ReceiptStays(cfg, Exec(cfg, s, later[..|later| - 1]), later[|later| - 1], inv);
    }
  }

  lemma ReceiptStays(cfg: Config, s: Sys, a: Action, inv: InvId)
    requires inv in s.db.receipts
    ensures inv in Act(cfg, s, a).db.receipts && Act(cfg, s, a).db.receipts[inv] == s.db.receipts[inv]
  {
  }

  // ---------------------------------------------------------------- attempts

  /** A job that may still be claimed has been claimed fewer than three times. */
  ghost predicate AttemptsInv(jobs: seq<Job>) {
    forall j :: 0 <= j < |jobs| ==>
      jobs[j].attempts <= 3 && (jobs[j].status in {Ready, RetryWait} ==> jobs[j].attempts < 3)
  }

  lemma RowAttempts(cfg: Config, s: Sys, a: Action)
    requires AttemptsInv(s.db.jobs) && OnRows(a)
    ensures AttemptsInv(Act(cfg, s, a).db.jobs)
  {
  }

  lemma WaitingAttempts(s: Sys, w: nat)
    requires AttemptsInv(s.db.jobs)
    ensures AttemptsInv(DoReportWaiting(s, w).db.jobs)
  {
  }

  lemma FinishAttempts(s: Sys, w: nat, content: string)
    requires AttemptsInv(s.db.jobs)
    ensures AttemptsInv(DoFinish(s, w, content).db.jobs)
  {
  }

  lemma ReportAttempts(s: Sys, w: nat, retryable: bool)
    requires AttemptsInv(s.db.jobs)
    ensures AttemptsInv(DoReport(s, w, retryable).db.jobs)
  {
  }

  lemma EndAttempts(cfg: Config, s: Sys, a: Action)
    requires AttemptsInv(s.db.jobs) && Ends(a)
    ensures AttemptsInv(Act(cfg, s, a).db.jobs)
  {
    match a
    case ReportWaiting(w) => WaitingAttempts(s, w);
    case Finish(w, content) => FinishAttempts(s, w, content);
    case Report(w, retryable) => ReportAttempts(s, w, retryable);
  }

  lemma WorkerAttempts(cfg: Config, s: Sys, a: Action)
    requires !OnRows(a) && !Ends(a)
    ensures Act(cfg, s, a).db.jobs == s.db.jobs
  {
  }

  /** Through crashes, expiries and retries: no job is attempted more than three times, and one that waits for
      a retry has an attempt left. */
  lemma {:induction false} AttemptsBounded(cfg: Config, actions: seq<Action>)
    ensures AttemptsInv(Exec(cfg, INITIAL, actions).db.jobs)
  {
    if actions != [] {
      AttemptsBounded(cfg, actions[..|actions| - 1]);
      var s, a := Exec(cfg, INITIAL, actions[..|actions| - 1]), actions[|actions| - 1];
      if OnRows(a) {
        RowAttempts(cfg, s, a);
      } else if Ends(a) {
        EndAttempts(cfg, s, a);
      } else {
        WorkerAttempts(cfg, s, a);
      }
    }
  }

  // ---------------------------------------------------------------- inert workers

  /** a is an action of worker w, or the delivery of a request w sent. */
  predicate ByWorker(s: Sys, a: Action, w: nat) {
    match a
    case Begin(v) => v == w
    case Load(v, _) => v == w
    case Compute(v, _) => v == w
    case Send(v) => v == w
    case Deliver(k, _) => k < |s.sent| && s.sent[k].token == w
    case SaveWrites(v) => v == w
    case Commit(v) => v == w
    case Interrupt(v) => v == w
    case ReportWaiting(v) => v == w
    case Finish(v, _) => v == w
    case Report(v, _) => v == w
    case Crash(v) => v == w
    case _ => false
  }

  /** The worker cannot pass the fence: its lease was taken away, or has expired and nobody has
      recovered the job yet. */
  predicate Superseded(s: Sys, w: nat) {
    w < |s.workers| && !Owned(s.db, s.workers[w].job, w)
  }

  /** Only a claim hands out a lease, and to a new worker. */
  lemma JobsSupersede(s: Sys, j: nat, w: nat)
    requires Superseded(s, w)
    ensures Superseded(DoClaim(s, j), w) && Superseded(s.(db := Expire(s.db, j)), w)
      && Superseded(s.(db := Recover(s.db, j)), w)
    ensures Superseded(s.(db := Cancel(s.db)), w) && Superseded(s.(db := Reconcile(s.db)), w)
  {
  }

  lemma RowsSupersede(cfg: Config, s: Sys, a: Action, w: nat)
    requires Superseded(s, w) && OnRows(a)
    ensures Superseded(Act(cfg, s, a), w)
  {
    match a
    case ClaimJob(j) => JobsSupersede(s, j, w);
    case ExpireLease(j) => JobsSupersede(s, j, w);
    case RecoverJob(j) => JobsSupersede(s, j, w);
    case CancelRun => JobsSupersede(s, 0, w);
    case ReconcileRun => JobsSupersede(s, 0, w);
    case _ =>
  }

  /** The actions with which a worker ends, and gives its own lease back. */
  predicate Ends(a: Action) {
    a.ReportWaiting? || a.Finish? || a.Report?
  }

  lemma EndsSupersede(cfg: Config, s: Sys, a: Action, w: nat)
    requires Superseded(s, w) && Ends(a)
    ensures Superseded(Act(cfg, s, a), w)
  {
  }

  lemma WorkersSupersede(cfg: Config, s: Sys, a: Action, w: nat)
    requires Superseded(s, w) && !OnRows(a) && !Ends(a)
    ensures Superseded(Act(cfg, s, a), w)
  {
  }

  lemma SupersededStays(cfg: Config, s: Sys, a: Action, w: nat)
    requires Superseded(s, w)
    ensures Superseded(Act(cfg, s, a), w)
  {
    if OnRows(a) {
      RowsSupersede(cfg, s, a, w);
    } else if Ends(a) {
      EndsSupersede(cfg, s, a, w);
    } else {
      WorkersSupersede(cfg, s, a, w);
    }
  }

  lemma SupersededWritesNothing(cfg: Config, s: Sys, a: Action, w: nat)
    requires Sound(RulesOf(cfg))(s) && Superseded(s, w) && ByWorker(s, a, w)
    ensures Act(cfg, s, a).db == s.db
  {
  }

  /** Once a worker cannot pass the fence, because its lease has expired or another claim, a recovery, a
      cancellation or a completion has taken it away, nothing that worker does ever writes again: no
      checkpoint, no pending writes, no tool effect or receipt, no message. */
  lemma {:induction false} InertForever(cfg: Config, actions: seq<Action>, later: seq<Action>, n: nat, w: nat)
    requires n <= |later| && Superseded(Exec(cfg, INITIAL, actions), w)
    ensures var t := Exec(cfg, Exec(cfg, INITIAL, actions), later[..n]);
      && Superseded(t, w)
      && (n < |later| && ByWorker(t, later[n], w) ==> Act(cfg, t, later[n]).db == t.db)
  {
    var s := Exec(cfg, INITIAL, actions);
    var t := Exec(cfg, s, later[..n]);
    ExecConcat(cfg, INITIAL, actions, later[..n]);
    Reachable(cfg, actions + later[..n]);
    if n > 0 {
      InertForever(cfg, actions, later, n - 1, w);
      assert later[..n][..n - 1] == later[..n - 1] && later[..n][n - 1] == later[n - 1];
      SupersededStays(cfg, Exec(cfg, s, later[..n - 1]), later[n - 1], w);
    } else {
      assert later[..0] == [];
    }
    if n < |later| && ByWorker(t, later[n], w) {
      SupersededWritesNothing(cfg, t, later[n], w);
    }
  }

  lemma {:induction false} ExecConcat(cfg: Config, s: Sys, a: seq<Action>, b: seq<Action>)
    ensures Exec(cfg, s, a + b) == Exec(cfg, Exec(cfg, s, a), b)
  {
    if b == [] {
      assert a + b == a;
    } else {
      assert (a + b)[..|a + b| - 1] == a + b[..|b| - 1];
      ExecConcat(cfg, s, a, b[..|b| - 1]);
    }
  }

  /** A new claim and a cancellation both leave every earlier worker superseded, and so inert forever. */
  lemma ClaimSupersedes(cfg: Config, actions: seq<Action>, j: nat, w: nat)
    requires var s := Exec(cfg, INITIAL, actions); w < |s.workers| && Claimable(s.db, j)
    ensures var t := Exec(cfg, INITIAL, actions + [ClaimJob(j)]); !Holds(t, w) && Superseded(t, w)
  {
    Reachable(cfg, actions);
    ExecOne(cfg, actions, ClaimJob(j));
    ClaimFrees(Exec(cfg, INITIAL, actions), j, w);
  }

  lemma ClaimFrees(s: Sys, j: nat, w: nat)
    requires RowsInv(s) && w < |s.workers| && Claimable(s.db, j)
    ensures var t := DoClaim(s, j); !Holds(t, w) && Superseded(t, w)
  {
    NobodyHolds(s);
  }

  /** The run is closed, and neither this worker nor what it holds can change that. */
  ghost predicate Ended(s: Sys, w: nat) {
    && s.db.run.status in {RunSucceeded, RunFailed, RunCancelled}
    && !Holds(s, w) && (w < |s.workers| ==> Superseded(s, w))
  }

  lemma CancelSupersedes(cfg: Config, actions: seq<Action>, w: nat)
    ensures Ended(Exec(cfg, INITIAL, actions + [CancelRun]), w)
  {
    Reachable(cfg, actions);
    ExecOne(cfg, actions, CancelRun);
    CancelEnds(cfg, Exec(cfg, INITIAL, actions), w);
  }

  lemma CancelEnds(cfg: Config, s: Sys, w: nat)
    requires Sound(RulesOf(cfg))(s)
    ensures Ended(Act(cfg, s, CancelRun), w)
  {
    CancelFrees(s, w);
  }

  lemma ExecOne(cfg: Config, actions: seq<Action>, a: Action)
    ensures Exec(cfg, INITIAL, actions + [a]) == Act(cfg, Exec(cfg, INITIAL, actions), a)
  {
    assert (actions + [a])[..|actions|] == actions;
  }

  lemma CancelFrees(s: Sys, w: nat)
    requires RowsInv(s)
    ensures Ended(s.(db := Cancel(s.db)), w)
  {
    if s.db.run.status in {RunSucceeded, RunFailed, RunCancelled} { NobodyHolds(s); } else { CancelRows(s); }
  }

  ghost predicate Closed(s: Sys) {
    s.db.run.status in {RunSucceeded, RunFailed, RunCancelled} && forall w: nat :: !Holds(s, w)
  }

  predicate SameOutcome(a: Db, b: Db) {
    && a.run.status == b.run.status && a.finals == b.finals && a.effects == b.effects
    && a.receipts == b.receipts && a.history == b.history && a.answers == b.answers
  }

  predicate OnRows(a: Action) {
    a.ClaimJob? || a.ExpireLease? || a.RecoverJob? || a.ResumeRun? || a.CancelRun? || a.ReconcileRun? || a.Deliver?
  }

  lemma ClosedRowsStay(cfg: Config, s: Sys, a: Action)
    requires Closed(s) && OnRows(a)
    ensures SameOutcome(s.db, Act(cfg, s, a).db)
  {
  }

  lemma ClosedWorkersStay(cfg: Config, s: Sys, a: Action)
    requires Closed(s) && !OnRows(a)
    ensures SameOutcome(s.db, Act(cfg, s, a).db)
  {
    forall w: nat | w < |s.workers| ensures !Owned(s.db, s.workers[w].job, w) {
      assert !Holds(s, w);
    }
  }

  /** A closed run stays as it is: its status, messages, effects and checkpoints are final. */
  lemma ClosedStays(cfg: Config, actions: seq<Action>, a: Action)
    requires Exec(cfg, INITIAL, actions).db.run.status in {RunSucceeded, RunFailed, RunCancelled}
    ensures var s := Exec(cfg, INITIAL, actions); SameOutcome(s.db, Act(cfg, s, a).db)
  {
    var s := Exec(cfg, INITIAL, actions);
    Reachable(cfg, actions);
    NobodyHolds(s);
    if OnRows(a) { ClosedRowsStay(cfg, s, a); } else { ClosedWorkersStay(cfg, s, a); }
  }

  // ---------------------------------------------------------------- answers and the final message

  lemma OneAnswer(db: Db, i: nat, j: nat)
    requires AnswersInv(db) && i < |db.answers| && j < |db.answers| && db.answers[i].0 == db.answers[j].0
    ensures i == j
  {
  }

  /** The clarify step committed as checkpoint k (counted from 0) consumed the answer the user gave to
      the interrupt of checkpoint k, and no interrupt has two answers: an answer is consumed at most
      once, and only by the question it was given to. */
  lemma AnswersMatchQuestions(cfg: Config, actions: seq<Action>, k: nat)
    requires var history := Exec(cfg, INITIAL, actions).db.history;
      0 < k < |history| && history[k - 1].point.node == ClarifyNode
    ensures var db := Exec(cfg, INITIAL, actions).db;
      && db.history[k].input.Some? && db.history[k].input.value.Answer?
      && (k, db.history[k].input.value.text) in db.answers
      && (forall v :: (k, v) in db.answers ==> v == db.history[k].input.value.text)
  {
    var db := Exec(cfg, INITIAL, actions).db;
    Reachable(cfg, actions);
    assert CheckpointOk(RulesOf(cfg), db, db.history[k]);
    var text := db.history[k].input.value.text;
    forall v | (k, v) in db.answers ensures v == text {
      var i :| 0 <= i < |db.answers| && db.answers[i] == (k, v);
      var j :| 0 <= j < |db.answers| && db.answers[j] == (k, text);
      OneAnswer(db, i, j);
    }
  }

  /** The one answer given to interrupt n is what the step behind checkpoint n has used. */
  lemma UsedAnswer(rules: Rules, db: Db, n: nat, c: Checkpoint, text: string)
    requires AnswersInv(db) && c.parent == n > 0 && CheckpointOk(rules, db, c)
    requires n <= |db.history| && db.history[n - 1].point.node == ClarifyNode && (n, text) in db.answers
    ensures c.input == Some(Answer(text))
  {
    var i :| 0 <= i < |db.answers| && db.answers[i] == (n, text);
    var j :| 0 <= j < |db.answers| && db.answers[j] == (n, c.input.value.text);
    OneAnswer(db, i, j);
  }

  /** v answered the question of checkpoint n; if the step behind it was taken, it has used v. */
  ghost predicate AnswerUsed(db: Db, n: nat, v: string) {
    && 1 <= n <= |db.history| && n in db.paused && db.history[n - 1].point.node == ClarifyNode
    && (n < |db.history| ==> db.history[n].input == Some(Answer(v)))
    && (n in db.writes ==> db.writes[n].input == Some(Answer(v)))
  }

  lemma AnswerSettled(rules: Rules, db: Db, n: nat, v: string)
    requires AnswersInv(db) && HistoryInv(rules, db) && (n, v) in db.answers
    ensures AnswerUsed(db, n, v)
  {
    var i :| 0 <= i < |db.answers| && db.answers[i] == (n, v);
    assert db.answers[i].0 in db.paused;
    if n < |db.history| {
      assert CheckpointOk(rules, db, db.history[n]);
      UsedAnswer(rules, db, n, db.history[n], v);
    }
    if n in db.writes {
      assert CheckpointOk(rules, db, db.writes[n]);
      UsedAnswer(rules, db, n, db.writes[n], v);
    }
  }

  /** Loading, for a worker that carries an answer v to interrupt n: it never finds that the run does not
      wait, and v goes to the paused node exactly when the step it belongs to is neither committed nor
      saved; otherwise that step has already used v, and the run goes on from it. */
  ghost predicate HandsOver(db: Db, at: Worker, n: nat, v: string) {
    && !at.phase.Failing? && 1 <= n <= |db.history| && db.history[n - 1].point.node == ClarifyNode
    && if n < |db.history| then at.answer.None? && db.history[n].input == Some(Answer(v))
       else if n in db.writes
         then at.phase == Computed(db.writes[n]) && at.answer.None? && db.writes[n].input == Some(Answer(v))
       else at.phase.Clean? && at.point == db.history[n - 1].point && at.answer == Some(v)
  }

  lemma LoadedHandsOver(cfg: Config, db: Db, worker: Worker, messages: seq<Msg>, n: nat, v: string)
    requires AnswerUsed(db, n, v) && worker.phase == Started(Some(v), Some(n))
    ensures HandsOver(db, Loaded(cfg, db, worker, messages), n, v)
  {
  }

  lemma AnswerHandedOver(cfg: Config, actions: seq<Action>, w: nat, messages: seq<Msg>)
    requires var s := Exec(cfg, INITIAL, actions);
      w < |s.workers| && s.workers[w].phase.Started? && s.workers[w].phase.resume.Some?
    ensures var s := Exec(cfg, INITIAL, actions); var carried := s.workers[w].phase;
      carried.interrupt.Some?
        && HandsOver(s.db, Loaded(cfg, s.db, s.workers[w], messages), carried.interrupt.value, carried.resume.value)
  {
    var s, rules := Exec(cfg, INITIAL, actions), RulesOf(cfg);
    Reachable(cfg, actions);
    assert WorkerFacts(rules, s.db, s.workers[w]);
    var carried := s.workers[w].phase;
    AnswerSettled(rules, s.db, carried.interrupt.value, carried.resume.value);
    LoadedHandsOver(cfg, s.db, s.workers[w], messages, carried.interrupt.value, carried.resume.value);
  }

  /** Exactly the succeeded runs have an assistant message, and they have one. */
  lemma OneFinalMessage(cfg: Config, actions: seq<Action>)
    ensures var db := Exec(cfg, INITIAL, actions).db;
      |db.finals| <= 1 && (|db.finals| == 1 <==> db.run.status == RunSucceeded)
  {
    Reachable(cfg, actions);
  }
}
