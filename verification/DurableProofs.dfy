/** What every interleaving of workers, crashes, lease changes, user requests and repeated tool calls
    keeps. The main step: the committed checkpoints are an uninterrupted execution of the graph. */
module DurableProofs {
  import opened Prelude
  import opened AgentGraph
  import opened RunDatabase
  import opened DurableRun

  // ---------------------------------------------------------------- invariant

  /** The graph as two relations: where a run may start and how it may move. */
  datatype Rules = Rules(starts: Point -> bool, moves: (Point, Input, Point) -> bool)

  ghost function RulesOf(cfg: Config): Rules {
    Rules((p: Point) => exists messages :: p == Start(cfg, messages),
          (p: Point, input: Input, q: Point) => Moves(cfg, p, input, q))
  }

  ghost predicate IsStart(rules: Rules, c: Checkpoint) {
    c.input.None? && rules.starts(c.point)
  }

  /** c is what the node at checkpoint n (counted from 1) may lead to; an answer it consumes is one the
      user gave to the interrupt of checkpoint n. */
  ghost predicate Follows(rules: Rules, db: Db, n: nat, c: Checkpoint) {
    && 0 < n <= |db.history| && c.input.Some?
    && rules.moves(db.history[n - 1].point, c.input.value, c.point)
    && (db.history[n - 1].point.node == ClarifyNode ==> c.input.value.Answer? && (n, c.input.value.text) in db.answers)
  }

  ghost predicate CheckpointOk(rules: Rules, db: Db, c: Checkpoint) {
    if c.parent == 0 then IsStart(rules, c) else Follows(rules, db, c.parent, c)
  }

  ghost predicate HistoryInv(rules: Rules, db: Db) {
    && (forall k :: 0 <= k < |db.history| ==> db.history[k].parent == k && CheckpointOk(rules, db, db.history[k]))
    && (forall n :: n in db.writes ==> n > 0 && db.writes[n].parent == n && CheckpointOk(rules, db, db.writes[n]))
    && (forall n :: n in db.paused ==> 0 < n <= |db.history| && db.history[n - 1].point.node == ClarifyNode)
  }

  ghost predicate AnswersInv(db: Db) {
    && (forall i, j :: 0 <= i < j < |db.answers| ==> db.answers[i].0 < db.answers[j].0)
    && (forall i :: 0 <= i < |db.answers| ==> db.answers[i].0 in db.paused)
    && (db.run.status == RunWaiting ==>
          && db.run.resume.None? && db.run.interrupt.Some?
          && db.run.interrupt.value == |db.history| && db.run.interrupt.value in db.paused
          && forall i :: 0 <= i < |db.answers| ==> db.answers[i].0 < db.run.interrupt.value)
    && (db.run.resume.Some? ==>
          && db.answers != [] && db.run.interrupt.Some?
          && db.answers[|db.answers| - 1] == (db.run.interrupt.value, db.run.resume.value))
    && (db.run.status in {RunQueued, RunRunning} && db.run.resume.None? ==> db.answers == [])
  }

  ghost predicate JobsInv(s: Sys) {
    var db := s.db;
    && db.run.job < |db.jobs|
    && (forall j :: 0 <= j < |db.jobs| ==> (db.jobs[j].status == Running <==> db.jobs[j].lease.Some?))
    && (forall j :: 0 <= j < |db.jobs| && db.jobs[j].lease.Some? ==>
          db.jobs[j].lease.value < |s.workers| && s.workers[db.jobs[j].lease.value].job == j)
    && (forall j :: 0 <= j < |db.jobs| && j != db.run.job ==> db.jobs[j].status in {Done, Failed, Cancelled})
    && (forall w :: 0 <= w < |s.workers| ==> s.workers[w].job < |db.jobs|)
    && (db.jobs[db.run.job].status in {Ready, Running, RetryWait} ==> db.run.status in {RunQueued, RunRunning})
    && (db.active <==> db.run.status in {RunQueued, RunRunning, RunWaiting})
    && db.run.token == db.run.tokenLease
    && (db.run.token.Some? ==> db.run.token.value < |s.workers|)
    && |db.finals| == if db.run.status == RunSucceeded then 1 else 0
  }

  ghost predicate RowsInv(s: Sys) {
    JobsInv(s) && AnswersInv(s.db)
  }

  /** What a worker knows stays true however the database grows. */
  ghost predicate WorkerFacts(rules: Rules, db: Db, w: Worker) {
    && w.seen <= |db.history|
    && (w.phase.Clean? || w.phase.Paused? ==> w.seen > 0)
    && ((w.phase.Clean? || w.phase.Paused? || w.phase.Computed?) && w.seen > 0 ==>
          w.point == db.history[w.seen - 1].point)
    && (w.phase.Computed? ==> w.phase.next.parent == w.seen && CheckpointOk(rules, db, w.phase.next))
    && (w.phase.Paused? ==> w.seen in db.paused)
    && (w.answer.Some? ==> w.phase.Clean? || w.phase.Failing? || w.phase.Gone?)
    && (w.answer.Some? && w.phase.Clean? ==> (w.seen, w.answer.value) in db.answers)
    && (w.phase.Started? && w.phase.resume.Some? ==>
          w.phase.interrupt.Some? && (w.phase.interrupt.value, w.phase.resume.value) in db.answers)
  }

  /** The worker holds the job's current lease (expired or not). */
  predicate Holds(s: Sys, w: nat) {
    w < |s.workers| && s.workers[w].job < |s.db.jobs| && s.db.jobs[s.workers[w].job].lease == Some(w)
  }

  /** What only the holder of the lease may rely on. */
  ghost predicate HolderFacts(db: Db, w: Worker) {
    && (w.phase.Started? || w.phase.Clean? || w.phase.Computed? || w.phase.Paused? ==> db.run.status == RunRunning)
    && (w.phase.Clean? || w.phase.Computed? || w.phase.Paused? ==> w.seen == |db.history|)
    && (w.phase.Started? ==> w.phase.resume == db.run.resume && w.phase.interrupt == db.run.interrupt)
    && ((w.phase.Clean? || w.phase.Paused?) && db.run.resume.Some? && db.run.interrupt == Some(w.seen) ==>
          w.phase.Clean? && w.answer == db.run.resume)
  }

  ghost predicate WorkersInv(rules: Rules, s: Sys) {
    && (forall w :: 0 <= w < |s.workers| ==> WorkerFacts(rules, s.db, s.workers[w]))
    && (forall w: nat :: Holds(s, w) ==> HolderFacts(s.db, s.workers[w]))
  }

  /** The request carries the call that a committed checkpoint was about to execute. */
  ghost predicate FromHistory(db: Db, r: Request, h: nat) {
    && h < |db.history| && db.history[h].point.node == ToolNode && Runnable(db.history[h].point)
    && r.inv == InvocationOf(db.history[h].point)
    && r.name == CallOf(db.history[h].point).name && r.args == CallOf(db.history[h].point).args
  }

  ghost predicate Backed(db: Db, r: Request) {
    exists h: nat :: FromHistory(db, r, h)
  }

  ghost predicate SentWith(sent: seq<Request>, inv: InvId, name: Name, args: Arguments) {
    exists k :: 0 <= k < |sent| && sent[k].inv == inv && sent[k].name == name && sent[k].args == args
  }

  ghost predicate RequestsInv(s: Sys) {
    forall k :: 0 <= k < |s.sent| ==> Backed(s.db, s.sent[k])
  }

  ghost predicate ReceiptsInv(s: Sys) {
    forall inv :: inv in s.db.receipts ==> SentWith(s.sent, inv, s.db.receipts[inv].name, s.db.receipts[inv].args)
  }

  ghost predicate EffectsInv(db: Db) {
    && (forall i :: 0 <= i < |db.effects| ==>
          var e := db.effects[i];
          e.inv in db.receipts && db.receipts[e.inv] == Receipt(e.name, e.args, true, db.receipts[e.inv].body))
    && (forall i, j :: 0 <= i < j < |db.effects| ==> db.effects[i].inv != db.effects[j].inv)
    && (forall inv :: inv in db.receipts && db.receipts[inv].ok ==>
          Effect(inv, db.receipts[inv].name, db.receipts[inv].args) in db.effects)
  }

  ghost predicate ToolsInv(s: Sys) {
    RequestsInv(s) && ReceiptsInv(s) && EffectsInv(s.db)
  }

  ghost predicate Inv(rules: Rules, s: Sys) {
    RowsInv(s) && HistoryInv(rules, s.db) && WorkersInv(rules, s) && ToolsInv(s)
  }

  /** The invariant as a property of states. */
  ghost function Sound(rules: Rules): Sys -> bool {
    (s: Sys) => Inv(rules, s)
  }

  // ---------------------------------------------------------------- growth

  ghost predicate Grows(a: Db, b: Db) {
    && a.history <= b.history && a.paused <= b.paused
    && forall x :: x in a.answers ==> x in b.answers
  }

  lemma CheckpointGrows(rules: Rules, a: Db, b: Db, c: Checkpoint)
    requires Grows(a, b) && CheckpointOk(rules, a, c)
    ensures CheckpointOk(rules, b, c)
  {
    if c.parent > 0 {
      assert a.history[c.parent - 1] == b.history[c.parent - 1];
    }
  }

  lemma WorkerGrows(rules: Rules, a: Db, b: Db, w: Worker)
    requires Grows(a, b) && WorkerFacts(rules, a, w)
    ensures WorkerFacts(rules, b, w)
  {
    if w.seen > 0 {
      assert a.history[w.seen - 1] == b.history[w.seen - 1];
    }
    if w.phase.Computed? {
      CheckpointGrows(rules, a, b, w.phase.next);
    }
  }

  lemma WorkersGrow(rules: Rules, a: Db, b: Db, workers: seq<Worker>)
    requires Grows(a, b) && forall w :: 0 <= w < |workers| ==> WorkerFacts(rules, a, workers[w])
    ensures forall w :: 0 <= w < |workers| ==> WorkerFacts(rules, b, workers[w])
  {
    forall w | 0 <= w < |workers| ensures WorkerFacts(rules, b, workers[w]) {
      WorkerGrows(rules, a, b, workers[w]);
    }
  }

  lemma BackedGrows(a: Db, b: Db, r: Request)
    requires Grows(a, b) && Backed(a, r)
    ensures Backed(b, r)
  {
    var h: nat :| FromHistory(a, r, h);
    assert FromHistory(b, r, h);
  }

  lemma ToolsGrow(s: Sys, t: Sys)
    requires ToolsInv(s) && Grows(s.db, t.db) && t.sent == s.sent
    requires t.db.receipts == s.db.receipts && t.db.effects == s.db.effects
    ensures ToolsInv(t)
  {
    forall k | 0 <= k < |t.sent| ensures Backed(t.db, t.sent[k]) {
      BackedGrows(s.db, t.db, s.sent[k]);
    }
    forall inv | inv in t.db.receipts ensures SentWith(t.sent, inv, t.db.receipts[inv].name, t.db.receipts[inv].args) {
      assert SentWith(s.sent, inv, s.db.receipts[inv].name, s.db.receipts[inv].args);
    }
  }

  lemma HistoryStays(rules: Rules, a: Db, b: Db)
    requires HistoryInv(rules, a) && Grows(a, b)
    requires b.history == a.history && b.writes == a.writes
    requires forall n :: n in b.paused ==> 0 < n <= |b.history| && b.history[n - 1].point.node == ClarifyNode
    ensures HistoryInv(rules, b)
  {
    forall k | 0 <= k < |b.history| ensures CheckpointOk(rules, b, b.history[k]) {
      CheckpointGrows(rules, a, b, a.history[k]);
    }
    forall n | n in b.writes ensures CheckpointOk(rules, b, b.writes[n]) {
      CheckpointGrows(rules, a, b, a.writes[n]);
    }
  }

  /** Answers and interrupts may be added; the checkpoints and tool tables stay. */
  lemma LogsGrow(rules: Rules, s: Sys, t: Sys)
    requires Sound(rules)(s) && t.sent == s.sent && Grows(s.db, t.db)
    requires t.db.history == s.db.history && t.db.writes == s.db.writes
    requires forall n :: n in t.db.paused ==> 0 < n <= |t.db.history| && t.db.history[n - 1].point.node == ClarifyNode
    requires t.db.receipts == s.db.receipts && t.db.effects == s.db.effects
    ensures HistoryInv(rules, t.db) && ToolsInv(t)
    ensures forall w :: 0 <= w < |s.workers| ==> WorkerFacts(rules, t.db, s.workers[w])
  {
    HistoryStays(rules, s.db, t.db);
    WorkersGrow(rules, s.db, t.db, s.workers);
    ToolsGrow(s, t);
  }

  /** An action that touches only scheduler rows and the run row keeps what the log parts state. */
  lemma RowsOnly(rules: Rules, s: Sys, t: Sys)
    requires Sound(rules)(s) && t.sent == s.sent
    requires t.db.history == s.db.history && t.db.writes == s.db.writes && t.db.paused == s.db.paused
    requires t.db.answers == s.db.answers && t.db.receipts == s.db.receipts && t.db.effects == s.db.effects
    ensures HistoryInv(rules, t.db) && ToolsInv(t)
    ensures forall w :: 0 <= w < |s.workers| ==> WorkerFacts(rules, t.db, s.workers[w])
  {
    LogsGrow(rules, s, t);
  }

  // ---------------------------------------------------------------- scheduler and run rows

  /** Rows untouched, apart from which checkpoints and interrupts there are. */
  lemma RowsSame(s: Sys, t: Sys)
    requires RowsInv(s) && t.db.jobs == s.db.jobs && t.db.run == s.db.run && t.db.active == s.db.active
    requires t.db.finals == s.db.finals && t.db.answers == s.db.answers && s.db.paused <= t.db.paused
    requires |t.workers| == |s.workers| && forall w :: 0 <= w < |s.workers| ==> t.workers[w].job == s.workers[w].job
    requires t.db.run.status == RunWaiting ==> |t.db.history| == |s.db.history|
    ensures RowsInv(t)
  {
  }

  lemma ClaimRows(s: Sys, j: nat)
    requires RowsInv(s)
    ensures RowsInv(DoClaim(s, j))
  {
  }

  lemma ExpireRows(s: Sys, j: nat)
    requires RowsInv(s)
    ensures RowsInv(s.(db := Expire(s.db, j)))
  {
  }

  lemma RecoverRows(s: Sys, j: nat)
    requires RowsInv(s)
    ensures RowsInv(s.(db := Recover(s.db, j)))
  {
  }

  lemma ReconcileRows(s: Sys)
    requires RowsInv(s)
    ensures RowsInv(s.(db := Reconcile(s.db)))
    ensures var t := s.(db := Reconcile(s.db)); t.db.run == s.db.run || forall w: nat :: !Holds(t, w)
  {
  }

  lemma CancelRows(s: Sys)
    requires RowsInv(s)
    ensures RowsInv(s.(db := Cancel(s.db)))
    ensures var t := s.(db := Cancel(s.db)); t.db.run == s.db.run || forall w: nat :: !Holds(t, w)
  {
  }

  lemma ResumeRows(s: Sys, interrupt: nat, content: string, stop: bool)
    requires RowsInv(s)
    ensures RowsInv(s.(db := Resume(s.db, interrupt, content, stop)))
  {
  }

  lemma StartRows(s: Sys, j: nat, w: nat)
    requires RowsInv(s) && w < |s.workers|
    ensures RowsInv(s.(db := StartRun(s.db, j, w)))
  {
  }

  lemma WaitingRows(s: Sys, j: nat, w: nat, n: nat)
    requires RowsInv(s) && n == |s.db.history| && n in s.db.paused
    requires forall i :: 0 <= i < |s.db.answers| ==> s.db.answers[i].0 < n
    ensures RowsInv(s.(db := ApplyWaiting(s.db, j, w, n)))
  {
  }

  lemma FinalRows(s: Sys, j: nat, w: nat, content: string)
    requires RowsInv(s)
    ensures RowsInv(s.(db := ApplyFinal(s.db, j, w, content)))
  {
  }

  lemma ErrorRows(s: Sys, j: nat, w: nat, retryable: bool)
    requires RowsInv(s)
    ensures RowsInv(s.(db := OnError(s.db, j, w, retryable)))
    ensures var t := s.(db := OnError(s.db, j, w, retryable)); t.db.run == s.db.run || forall v: nat :: !Holds(t, v)
  {
  }

  // ---------------------------------------------------------------- scheduler and user actions

  lemma HoldersKeep(s: Sys, t: Sys)
    requires (forall w: nat :: Holds(s, w) ==> HolderFacts(s.db, s.workers[w]))
    requires forall w: nat :: Holds(t, w) ==> Holds(s, w) && t.workers[w] == s.workers[w]
    requires t.db.run == s.db.run && t.db.history == s.db.history
    ensures forall w: nat :: Holds(t, w) ==> HolderFacts(t.db, t.workers[w])
  {
  }

  /** A lease can only be held while the run's current job is running. */
  lemma NobodyHolds(s: Sys)
    requires JobsInv(s) && s.db.jobs[s.db.run.job].status != Running
    ensures forall w: nat :: !Holds(s, w)
  {
  }

  lemma ClaimWorkers(rules: Rules, s: Sys, j: nat)
    requires JobsInv(s) && WorkersInv(rules, s) && Claimable(s.db, j)
    ensures WorkersInv(rules, DoClaim(s, j))
  {
    var t := DoClaim(s, j);
    NobodyHolds(s);
    WorkersGrow(rules, s.db, t.db, s.workers);
    assert forall w: nat :: Holds(t, w) ==> t.workers[w].phase.Claimed?;
  }

  lemma ClaimKeeps(rules: Rules, s: Sys, j: nat)
    requires Sound(rules)(s)
    ensures Sound(rules)(DoClaim(s, j))
  {
    if Claimable(s.db, j) {
      var t := DoClaim(s, j);
      ClaimRows(s, j);
      ClaimWorkers(rules, s, j);
      ToolsGrow(s, t);
      HistoryStays(rules, s.db, t.db);
    }
  }

  lemma ExpireKeeps(rules: Rules, s: Sys, j: nat)
    requires Sound(rules)(s)
    ensures Inv(rules, s.(db := Expire(s.db, j)))
  {
    var t := s.(db := Expire(s.db, j));
    ExpireRows(s, j);
    RowsOnly(rules, s, t);
    HoldersKeep(s, t);
  }

  lemma RecoverKeeps(rules: Rules, s: Sys, j: nat)
    requires Sound(rules)(s)
    ensures Inv(rules, s.(db := Recover(s.db, j)))
  {
    var t := s.(db := Recover(s.db, j));
    RecoverRows(s, j);
    RowsOnly(rules, s, t);
    HoldersKeep(s, t);
  }

  /** Closing the run leaves nobody holding a lease. */
  lemma ClosedKeeps(rules: Rules, s: Sys, t: Sys)
    requires Sound(rules)(s) && RowsInv(t) && t == s.(db := t.db)
    requires t.db == s.db.(jobs := t.db.jobs, run := t.db.run, active := t.db.active)
    requires forall w: nat :: Holds(t, w) ==> Holds(s, w)
    requires t.db.run == s.db.run || forall w: nat :: !Holds(t, w)
    ensures Inv(rules, t)
  {
    RowsOnly(rules, s, t);
    if t.db.run == s.db.run { HoldersKeep(s, t); }
  }

  lemma ReconcileKeeps(rules: Rules, s: Sys)
    requires Sound(rules)(s)
    ensures Inv(rules, s.(db := Reconcile(s.db)))
  {
    ReconcileRows(s);
    ClosedKeeps(rules, s, s.(db := Reconcile(s.db)));
  }

  lemma CancelKeeps(rules: Rules, s: Sys)
    requires Sound(rules)(s)
    ensures Inv(rules, s.(db := Cancel(s.db)))
  {
    CancelRows(s);
    ClosedKeeps(rules, s, s.(db := Cancel(s.db)));
  }

  lemma ResumeKeeps(rules: Rules, s: Sys, interrupt: nat, content: string, stop: bool)
    requires Sound(rules)(s)
    ensures Inv(rules, s.(db := Resume(s.db, interrupt, content, stop)))
  {
    var t := s.(db := Resume(s.db, interrupt, content, stop));
    if s.db.run.status == RunWaiting && s.db.run.interrupt == Some(interrupt) {
      ResumeRows(s, interrupt, content, stop);
      LogsGrow(rules, s, t);
      NobodyHolds(s);
      assert forall w: nat :: !Holds(t, w);
    }
  }

  // ---------------------------------------------------------------- worker actions

  /** Changing one worker: its own facts are shown, the others keep theirs. */
  lemma OneWorker(rules: Rules, s: Sys, t: Sys, w: nat)
    requires Sound(rules)(s) && w < |s.workers| == |t.workers| && t.workers == s.workers[w := t.workers[w]]
    requires t.workers[w].job == s.workers[w].job
    requires forall v :: 0 <= v < |s.workers| ==> WorkerFacts(rules, t.db, s.workers[v])
    requires WorkerFacts(rules, t.db, t.workers[w])
    requires forall v: nat :: Holds(t, v) ==> Holds(s, v)
    requires Holds(t, w) ==> HolderFacts(t.db, t.workers[w])
    requires (t.db.run == s.db.run && t.db.history == s.db.history) || forall v: nat :: Holds(t, v) ==> v == w
    ensures WorkersInv(rules, t)
  {
    forall v | 0 <= v < |t.workers| ensures WorkerFacts(rules, t.db, t.workers[v]) {
      if v != w { assert t.workers[v] == s.workers[v]; }
    }
    forall v: nat | Holds(t, v) ensures HolderFacts(t.db, t.workers[v]) {
      if v != w { assert t.workers[v] == s.workers[v]; }
    }
  }

  lemma OnlyWorker(rules: Rules, s: Sys, w: nat, worker: Worker)
    requires Sound(rules)(s) && w < |s.workers| && worker.job == s.workers[w].job
    requires WorkerFacts(rules, s.db, worker) && (Holds(s, w) ==> HolderFacts(s.db, worker))
    ensures Inv(rules, With(s, w, worker))
  {
    var t := With(s, w, worker);
    RowsOnly(rules, s, t);
    RowsSame(s, t);
    OneWorker(rules, s, t, w);
  }

  lemma BeginKeeps(rules: Rules, s: Sys, w: nat)
    requires Sound(rules)(s)
    ensures Inv(rules, DoBegin(s, w))
  {
    if w < |s.workers| && s.workers[w].phase.Claimed? {
      var worker := s.workers[w];
      assert WorkerFacts(rules, s.db, worker);
      if Startable(s.db, worker.job, w) {
        var t := DoBegin(s, w);
        StartRows(s, worker.job, w);
        RowsSame(s.(db := t.db), t);
        RowsOnly(rules, s, t);
        if s.db.run.resume.Some? {
          assert s.db.answers[|s.db.answers| - 1] in s.db.answers;
        }
        OneHolder(s, w);
        OneWorker(rules, s, t, w);
      } else {
        OnlyWorker(rules, s, w, worker.(phase := Failing));
      }
    }
  }

  /** Only the run's current job can be leased, and to one worker. */
  lemma OneHolder(s: Sys, w: nat)
    requires JobsInv(s) && Holds(s, w)
    ensures s.workers[w].job == s.db.run.job
    ensures forall v: nat :: Holds(s, v) ==> v == w
  {
  }

  lemma LoadedFacts(rules: Rules, cfg: Config, db: Db, worker: Worker, messages: seq<Msg>)
    requires HistoryInv(rules, db) && worker.phase.Started? && WorkerFacts(rules, db, worker)
    requires rules.starts(Start(cfg, messages))
    ensures WorkerFacts(rules, db, Loaded(cfg, db, worker, messages))
  {
  }

  lemma LoadedHolder(rules: Rules, cfg: Config, db: Db, worker: Worker, messages: seq<Msg>)
    requires HistoryInv(rules, db) && AnswersInv(db) && worker.phase.Started? && HolderFacts(db, worker)
    ensures HolderFacts(db, Loaded(cfg, db, worker, messages))
  {
    if db.run.resume.Some? {
      assert db.answers[|db.answers| - 1].0 in db.paused;
    }
  }

  lemma LoadKeeps(rules: Rules, cfg: Config, s: Sys, w: nat, messages: seq<Msg>)
    requires Sound(rules)(s) && rules.starts(Start(cfg, messages))
    ensures Inv(rules, DoLoad(cfg, s, w, messages))
  {
    if w < |s.workers| && s.workers[w].phase.Started? {
      LoadedFacts(rules, cfg, s.db, s.workers[w], messages);
      if Holds(s, w) { LoadedHolder(rules, cfg, s.db, s.workers[w], messages); }
      OnlyWorker(rules, s, w, Loaded(cfg, s.db, s.workers[w], messages));
    }
  }

  lemma ComputedFacts(rules: Rules, cfg: Config, db: Db, worker: Worker, input: Input, holds: bool)
    requires WorkerFacts(rules, db, worker) && (holds ==> HolderFacts(db, worker))
    requires forall p, q :: Moves(cfg, p, input, q) ==> rules.moves(p, input, q)
    ensures WorkerFacts(rules, db, Computing(cfg, worker, input))
    ensures holds ==> HolderFacts(db, Computing(cfg, worker, input))
  {
    var p, after := worker.point, Computing(cfg, worker, input);
    if after.phase.Computed? && !worker.phase.Computed? {
      assert Moves(cfg, p, input, after.phase.next.point);
      assert Follows(rules, db, worker.seen, after.phase.next);
    }
  }

  lemma ComputeKeeps(rules: Rules, cfg: Config, s: Sys, w: nat, input: Input)
    requires Sound(rules)(s)
    requires forall p, q :: Moves(cfg, p, input, q) ==> rules.moves(p, input, q)
    ensures Inv(rules, DoCompute(cfg, s, w, input))
  {
    if w < |s.workers| {
      ComputedFacts(rules, cfg, s.db, s.workers[w], input, Holds(s, w));
      OnlyWorker(rules, s, w, Computing(cfg, s.workers[w], input));
    }
  }

  lemma RequestKeeps(rules: Rules, s: Sys, w: nat)
    requires ToolsInv(s) && w < |s.workers| && WorkerFacts(rules, s.db, s.workers[w])
    ensures ToolsInv(DoSend(s, w))
  {
    var t := DoSend(s, w);
    if t != s {
      assert FromHistory(s.db, t.sent[|s.sent|], s.workers[w].seen - 1);
      forall k | 0 <= k < |t.sent| ensures Backed(t.db, t.sent[k]) {
        if k < |s.sent| { assert Backed(s.db, s.sent[k]); }
      }
      forall inv | inv in t.db.receipts
        ensures SentWith(t.sent, inv, t.db.receipts[inv].name, t.db.receipts[inv].args) {
        var r := s.db.receipts[inv];
        assert SentWith(s.sent, inv, r.name, r.args);
        var k :| 0 <= k < |s.sent| && s.sent[k].inv == inv && s.sent[k].name == r.name && s.sent[k].args == r.args;
        assert t.sent[k] == s.sent[k];
      }
    }
  }

  lemma SendKeeps(rules: Rules, s: Sys, w: nat)
    requires Sound(rules)(s)
    ensures Inv(rules, DoSend(s, w))
  {
    var t := DoSend(s, w);
    if w < |s.workers| {
      RequestKeeps(rules, s, w);
      HoldersKeep(s, t);
    }
  }

  lemma DeliverKeeps(rules: Rules, s: Sys, k: nat, x: Execution)
    requires Sound(rules)(s)
    ensures Sound(rules)(DoDeliver(s, k, x))
  {
    if k < |s.sent| {
      DeliverHistory(rules, s, k, x);
      DeliverTools(s, k, x);
      DeliverWorkers(rules, s, k, x);
      DeliverRows(s, k, x);
    }
  }

  lemma DeliverHistory(rules: Rules, s: Sys, k: nat, x: Execution)
    requires HistoryInv(rules, s.db) && k < |s.sent|
    ensures HistoryInv(rules, DoDeliver(s, k, x).db)
  {
    HistoryStays(rules, s.db, DoDeliver(s, k, x).db);
  }

  lemma DeliverRows(s: Sys, k: nat, x: Execution)
    requires RowsInv(s) && k < |s.sent|
    ensures RowsInv(DoDeliver(s, k, x))
  {
    RowsSame(s, DoDeliver(s, k, x));
  }

  lemma DeliverWorkers(rules: Rules, s: Sys, k: nat, x: Execution)
    requires WorkersInv(rules, s) && k < |s.sent|
    ensures WorkersInv(rules, DoDeliver(s, k, x))
  {
    var t := DoDeliver(s, k, x);
    WorkersGrow(rules, s.db, t.db, s.workers);
    HoldersKeep(s, t);
  }

  lemma EffectKeeps(db: Db, r: Request, x: Execution)
    requires EffectsInv(db)
    ensures EffectsInv(CallTool(db, r, x).0)
  {
  }

  lemma ReceiptKeeps(s: Sys, k: nat, x: Execution)
    requires ReceiptsInv(s) && k < |s.sent|
    ensures ReceiptsInv(DoDeliver(s, k, x))
  {
    var t := DoDeliver(s, k, x);
    forall inv | inv in t.db.receipts
      ensures SentWith(t.sent, inv, t.db.receipts[inv].name, t.db.receipts[inv].args) {
      if inv in s.db.receipts {
        assert SentWith(s.sent, inv, s.db.receipts[inv].name, s.db.receipts[inv].args);
      } else {
        assert t.sent[k].inv == inv;
      }
    }
  }

  lemma DeliverTools(s: Sys, k: nat, x: Execution)
    requires ToolsInv(s) && k < |s.sent|
    ensures ToolsInv(DoDeliver(s, k, x))
  {
    var t := DoDeliver(s, k, x);
    forall i | 0 <= i < |t.sent| ensures Backed(t.db, t.sent[i]) {
      BackedGrows(s.db, t.db, s.sent[i]);
    }
    ReceiptKeeps(s, k, x);
    EffectKeeps(s.db, s.sent[k], x);
  }

  lemma SaveWritesKeeps(rules: Rules, s: Sys, w: nat)
    requires Sound(rules)(s)
    ensures Inv(rules, DoSaveWrites(s, w))
  {
    var t := DoSaveWrites(s, w);
    if t != s {
      assert WorkerFacts(rules, s.db, s.workers[w]);
      WorkersGrow(rules, s.db, t.db, s.workers);
      ToolsGrow(s, t);
      RowsSame(s, t);
      forall n | n in t.db.writes
        ensures n > 0 && t.db.writes[n].parent == n && CheckpointOk(rules, t.db, t.db.writes[n]) {
        CheckpointGrows(rules, s.db, t.db, t.db.writes[n]);
      }
      forall i | 0 <= i < |t.db.history| ensures CheckpointOk(rules, t.db, t.db.history[i]) {
        CheckpointGrows(rules, s.db, t.db, s.db.history[i]);
      }
      HoldersKeep(s, t);
    }
  }

  lemma CommitKeeps(rules: Rules, s: Sys, w: nat)
    requires Sound(rules)(s)
    ensures Inv(rules, DoCommit(s, w))
  {
    if w < |s.workers| && s.workers[w].phase.Computed? {
      var worker := s.workers[w];
      assert WorkerFacts(rules, s.db, worker);
      if Owned(s.db, worker.job, w) {
        var t := DoCommit(s, w);
        assert Holds(s, w) && HolderFacts(s.db, worker);
        CommitHistory(rules, s.db, t.db, worker.phase.next);
        WorkersGrow(rules, s.db, t.db, s.workers);
        ToolsGrow(s, t);
        OneHolder(s, w);
        AnswersBelow(s.db, worker.seen + 1);
        RowsSame(s, t);
        OneWorker(rules, s, t, w);
      } else {
        OnlyWorker(rules, s, w, worker.(phase := Failing));
      }
    }
  }

  lemma CommitHistory(rules: Rules, a: Db, b: Db, c: Checkpoint)
    requires HistoryInv(rules, a) && c.parent == |a.history| && CheckpointOk(rules, a, c)
    requires b == a.(history := a.history + [c])
    ensures HistoryInv(rules, b)
  {
    forall k | 0 <= k < |b.history| ensures b.history[k].parent == k && CheckpointOk(rules, b, b.history[k]) {
      CheckpointGrows(rules, a, b, b.history[k]);
    }
    forall n | n in b.writes ensures CheckpointOk(rules, b, b.writes[n]) {
      CheckpointGrows(rules, a, b, a.writes[n]);
    }
  }

  /** No answer, and no waiting interrupt, names a checkpoint that is not there yet. */
  lemma AnswersBelow(db: Db, n: nat)
    requires AnswersInv(db) && (forall m :: m in db.paused ==> m <= |db.history|) && n > |db.history|
    ensures forall i :: 0 <= i < |db.answers| ==> db.answers[i].0 < n
    ensures db.run.resume.Some? ==> db.run.interrupt.Some? && db.run.interrupt.value < n
  {
    if db.run.resume.Some? {
      assert db.answers[|db.answers| - 1].0 in db.paused;
    }
  }

  lemma PausedFacts(rules: Rules, db: Db, worker: Worker)
    requires WorkerFacts(rules, db, worker) && worker.phase.Clean? && worker.seen in db.paused && worker.answer.None?
    ensures WorkerFacts(rules, db, worker.(phase := Paused))
  {
  }

  lemma PausedKeeps(rules: Rules, s: Sys, t: Sys, w: nat)
    requires Sound(rules)(s) && w < |s.workers| && t == DoInterrupt(s, w)
    requires s.workers[w].phase.Clean? && s.workers[w].point.node == ClarifyNode && s.workers[w].answer.None?
    requires Owned(s.db, s.workers[w].job, w)
    ensures Inv(rules, t)
  {
    var worker := s.workers[w];
    assert WorkerFacts(rules, s.db, worker) && Holds(s, w) && HolderFacts(s.db, worker);
    LogsGrow(rules, s, t);
    RowsSame(s, t);
    PausedFacts(rules, t.db, worker);
    OneWorker(rules, s, t, w);
  }

  lemma InterruptKeeps(rules: Rules, s: Sys, w: nat)
    requires Sound(rules)(s)
    ensures Inv(rules, DoInterrupt(s, w))
  {
    if w < |s.workers| && s.workers[w].phase.Clean? && s.workers[w].point.node == ClarifyNode
       && s.workers[w].answer.None? {
      if Owned(s.db, s.workers[w].job, w) {
        PausedKeeps(rules, s, DoInterrupt(s, w), w);
      } else {
        assert WorkerFacts(rules, s.db, s.workers[w]);
        OnlyWorker(rules, s, w, s.workers[w].(phase := Failing));
      }
    }
  }

  lemma ReportWaitingKeeps(rules: Rules, s: Sys, w: nat)
    requires Sound(rules)(s)
    ensures Inv(rules, DoReportWaiting(s, w))
  {
    if w < |s.workers| && s.workers[w].phase.Paused? {
      var worker := s.workers[w];
      assert WorkerFacts(rules, s.db, worker);
      if Applicable(s.db, worker.job, w) {
        var t := DoReportWaiting(s, w);
        assert Holds(s, w) && HolderFacts(s.db, worker);
        RowsOnly(rules, s, t);
        OneHolder(s, w);
        NewQuestion(s.db, worker);
        WaitingRows(s, worker.job, w, worker.seen);
        RowsSame(s.(db := t.db), t);
        OneWorker(rules, s, t, w);
      } else {
        OnlyWorker(rules, s, w, worker.(phase := Failing));
      }
    }
  }

  /** A paused holder waits at a checkpoint behind every interrupt answered so far. */
  lemma NewQuestion(db: Db, worker: Worker)
    requires AnswersInv(db) && HolderFacts(db, worker) && worker.phase.Paused? && db.run.status == RunRunning
    requires forall m :: m in db.paused ==> m <= |db.history|
    ensures forall i :: 0 <= i < |db.answers| ==> db.answers[i].0 < worker.seen
  {
    if db.answers != [] {
      var last := |db.answers| - 1;
      assert db.answers[last].0 in db.paused;
      forall i | 0 <= i < |db.answers| ensures db.answers[i].0 < worker.seen {
        if i < last { assert db.answers[i].0 < db.answers[last].0; }
      }
    }
  }

  lemma FinishKeeps(rules: Rules, s: Sys, w: nat, content: string)
    requires Sound(rules)(s)
    ensures Inv(rules, DoFinish(s, w, content))
  {
    if w < |s.workers| && s.workers[w].phase.Clean? && s.workers[w].point.node == End {
      var worker := s.workers[w];
      assert WorkerFacts(rules, s.db, worker);
      if Applicable(s.db, worker.job, w) {
        var t := DoFinish(s, w, content);
        FinalRows(s, worker.job, w, content);
        RowsSame(s.(db := t.db), t);
        RowsOnly(rules, s, t);
        OneHolder(s, w);
        OneWorker(rules, s, t, w);
      } else {
        OnlyWorker(rules, s, w, worker.(phase := Failing));
      }
    }
  }

  lemma ReportKeeps(rules: Rules, s: Sys, w: nat, retryable: bool)
    requires Sound(rules)(s)
    ensures Inv(rules, DoReport(s, w, retryable))
  {
    if w < |s.workers| && s.workers[w].phase.Failing? {
      var u := s.(db := OnError(s.db, s.workers[w].job, w, retryable));
      ErrorRows(s, s.workers[w].job, w, retryable);
      ClosedKeeps(rules, s, u);
      CrashKeeps(rules, u, w);
    }
  }

  lemma CrashKeeps(rules: Rules, s: Sys, w: nat)
    requires Sound(rules)(s)
    ensures Inv(rules, DoCrash(s, w))
  {
    if w < |s.workers| {
      assert WorkerFacts(rules, s.db, s.workers[w]);
      OnlyWorker(rules, s, w, s.workers[w].(phase := Gone));
    }
  }

  // ---------------------------------------------------------------- every reachable state

  lemma InitialInv(rules: Rules)
    ensures Inv(rules, INITIAL)
  {
  }

  predicate OfWorker(a: Action) {
    a.Begin? || a.Load? || a.Compute? || a.Send? || a.SaveWrites? || a.Commit? || a.Interrupt? || a.ReportWaiting?
      || a.Finish?
  }

  /** Which transaction an action of a worker is. */
  lemma WorkerAct(cfg: Config, s: Sys, a: Action)
    ensures match a
      case Begin(w) => Act(cfg, s, a) == DoBegin(s, w)
      case Load(w, messages) => Act(cfg, s, a) == DoLoad(cfg, s, w, messages)
      case Compute(w, input) => Act(cfg, s, a) == DoCompute(cfg, s, w, input)
      case Send(w) => Act(cfg, s, a) == DoSend(s, w)
      case SaveWrites(w) => Act(cfg, s, a) == DoSaveWrites(s, w)
      case Commit(w) => Act(cfg, s, a) == DoCommit(s, w)
      case Interrupt(w) => Act(cfg, s, a) == DoInterrupt(s, w)
      case ReportWaiting(w) => Act(cfg, s, a) == DoReportWaiting(s, w)
      case Finish(w, content) => Act(cfg, s, a) == DoFinish(s, w, content)
      case _ => true
  {
  }

  lemma WorkerActKeeps(cfg: Config, s: Sys, a: Action)
    requires Sound(RulesOf(cfg))(s) && OfWorker(a)
    ensures Sound(RulesOf(cfg))(Act(cfg, s, a))
  {
    var rules := RulesOf(cfg);
    WorkerAct(cfg, s, a);
    match a
    case Begin(w) => BeginKeeps(rules, s, w);
    case Load(w, messages) => LoadKeeps(rules, cfg, s, w, messages);
    case Compute(w, input) => ComputeKeeps(rules, cfg, s, w, input);
    case Send(w) => SendKeeps(rules, s, w);
    case SaveWrites(w) => SaveWritesKeeps(rules, s, w);
    case Commit(w) => CommitKeeps(rules, s, w);
    case Interrupt(w) => InterruptKeeps(rules, s, w);
    case ReportWaiting(w) => ReportWaitingKeeps(rules, s, w);
    case Finish(w, content) => FinishKeeps(rules, s, w, content);
  }

  lemma RowActKeeps(cfg: Config, s: Sys, a: Action)
    requires Sound(RulesOf(cfg))(s) && !OfWorker(a)
    ensures Sound(RulesOf(cfg))(Act(cfg, s, a))
  {
    var rules := RulesOf(cfg);
    match a
    case ClaimJob(j) => ClaimKeeps(rules, s, j);
    case ExpireLease(j) => ExpireKeeps(rules, s, j);
    case RecoverJob(j) => RecoverKeeps(rules, s, j);
    case Deliver(k, x) => DeliverKeeps(rules, s, k, x);
    case Report(w, retryable) => ReportKeeps(rules, s, w, retryable);
    case Crash(w) => CrashKeeps(rules, s, w);
    case ResumeRun(interrupt, content, stop) => ResumeKeeps(rules, s, interrupt, content, stop);
    case CancelRun => CancelKeeps(rules, s);
    case ReconcileRun => ReconcileKeeps(rules, s);
  }

  lemma ActKeeps(cfg: Config, s: Sys, a: Action)
    requires Sound(RulesOf(cfg))(s)
    ensures Sound(RulesOf(cfg))(Act(cfg, s, a))
  {
    if OfWorker(a) { WorkerActKeeps(cfg, s, a); } else { RowActKeeps(cfg, s, a); }
  }

  lemma {:induction false} Reachable(cfg: Config, actions: seq<Action>)
    ensures Inv(RulesOf(cfg), Exec(cfg, INITIAL, actions))
  {
    if actions == [] {
      InitialInv(RulesOf(cfg));
    } else {
      Reachable(cfg, actions[..|actions| - 1]);
      ActKeeps(cfg, Exec(cfg, INITIAL, actions[..|actions| - 1]), actions[|actions| - 1]);
    }
  }
}
