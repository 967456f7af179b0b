/** What durable runs can do: every uninterrupted execution of the graph is what some schedule of workers
    commits, through every question and answer, and whoever takes a run over goes on from its last checkpoint. */
module DurableCompleteness {
  import opened Prelude
  import opened AgentGraph
  import opened RunDatabase
  import opened DurableRun
  import opened DurableProofs
  import opened DurableTheorems
  import Graph = AgentGraphProofs

  ghost predicate Leads(cfg: Config, s: Sys, t: Sys) {
    exists actions :: Exec(cfg, s, actions) == t
  }

  lemma Stays(cfg: Config, s: Sys)
    ensures Leads(cfg, s, s)
  {
    assert Exec(cfg, s, []) == s;
  }

  lemma LeadsOn(cfg: Config, s: Sys, t: Sys, a: Action)
    requires Leads(cfg, s, t)
    ensures Leads(cfg, s, Act(cfg, t, a))
  {
    var actions :| Exec(cfg, s, actions) == t;
    assert (actions + [a])[..|actions|] == actions;
    assert Exec(cfg, s, actions + [a]) == Act(cfg, t, a);
  }

  // ---------------------------------------------------------------- a worker at a point of an execution

  /** The checkpoints are those of the execution up to point k. */
  ghost predicate Committed(db: Db, pts: seq<Point>, ins: seq<Input>, k: nat) {
    && k < |pts| && k <= |ins| && |db.history| == k + 1
    && forall j :: 0 <= j <= k ==>
         db.history[j].point == pts[j] && (j > 0 ==> db.history[j].input == Some(ins[j - 1]))
  }

  /** Worker w holds the run and stands, with nothing pending, behind the last checkpoint. */
  ghost predicate Stands(s: Sys, w: nat, point: Point) {
    && w < |s.workers| && s.workers[w] == Worker(s.db.run.job, |s.db.history|, point, None, Clean)
    && Owned(s.db, s.db.run.job, w) && s.db.run.status == RunRunning && s.db.active && s.db.writes == map[]
  }

  ghost predicate At(s: Sys, pts: seq<Point>, ins: seq<Input>, k: nat, w: nat) {
    Committed(s.db, pts, ins, k) && Stands(s, w, pts[k])
  }

  /** Computing a node and committing what it leads to. */
  lemma StepCommits(cfg: Config, s: Sys, pts: seq<Point>, ins: seq<Input>, k: nat, w: nat, u: Sys)
    requires IsRun(cfg, pts, ins) && k < |ins| && Committed(s.db, pts, ins, k)
    requires Moves(cfg, pts[k], ins[k], pts[k + 1])
    requires w < |s.workers| && Owned(s.db, s.db.run.job, w) && s.db.run.status == RunRunning && s.db.active
      && s.db.writes == map[]
    requires s.workers[w].job == s.db.run.job && s.workers[w].seen == k + 1 && s.workers[w].point == pts[k]
      && s.workers[w].phase == Clean
    requires if pts[k].node == ClarifyNode then s.workers[w].answer.Some? && ins[k] == Answer(s.workers[w].answer.value)
             else s.workers[w].answer.None?
    requires u == Act(cfg, Act(cfg, s, Compute(w, ins[k])), Commit(w))
    ensures At(u, pts, ins, k + 1, w)
  {
    var worker, next := s.workers[w], Checkpoint(k + 1, pts[k + 1], Some(ins[k]));
    var t := Act(cfg, s, Compute(w, ins[k]));
    assert t == With(s, w, worker.(phase := Computed(next), answer := None));
    assert u.db.history == s.db.history + [next];
  }

  // ---------------------------------------------------------------- questions

  /** The run waits with the question of its last checkpoint. */
  ghost predicate Waits(s: Sys, n: nat) {
    && s.db.run.status == RunWaiting && s.db.run.interrupt == Some(n) && n == |s.db.history| && n > 0
    && n in s.db.paused
    && s.db.active && s.db.writes == map[] && s.db.history[n - 1].point.node == ClarifyNode
  }

  lemma QuestionWaits(cfg: Config, s: Sys, w: nat)
    requires |s.db.history| > 0 && Stands(s, w, s.db.history[|s.db.history| - 1].point)
    requires s.db.history[|s.db.history| - 1].point.node == ClarifyNode
    ensures var t := Act(cfg, Act(cfg, s, Interrupt(w)), ReportWaiting(w));
      Waits(t, |s.db.history|) && t.db.history == s.db.history && |t.db.jobs| == |s.db.jobs|
        && |t.workers| == |s.workers|
  {
    var n := |s.db.history|;
    var t := Act(cfg, s, Interrupt(w));
    assert t.db == s.db.(paused := s.db.paused + {n}) && t.workers[w].phase == Paused && t.workers[w].seen == n;
  }

  lemma AnswerQueues(cfg: Config, s: Sys, n: nat, text: string)
    requires Waits(s, n)
    ensures var t := Act(cfg, s, ResumeRun(n, text, false));
      && t.db.run.status == RunQueued && t.db.run.resume == Some(text) && t.db.run.interrupt == Some(n)
      && t.db.run.job == |s.db.jobs| && t.db.jobs == s.db.jobs + [Job(Ready, None, false, 0)]
      && t.db.history == s.db.history && t.db.paused == s.db.paused && t.db.writes == map[] && t.db.active
      && t.workers == s.workers
  {
  }

  /** A queued run whose job is ready is taken up by a new worker. */
  lemma TakenUp(cfg: Config, s: Sys, messages: seq<Msg>)
    requires s.db.run.status in {RunQueued, RunRunning} && s.db.active && Claimable(s.db, s.db.run.job)
    ensures var v := |s.workers|;
      var t := Act(cfg, Act(cfg, s, ClaimJob(s.db.run.job)), Begin(v));
      && t.workers
         == s.workers + [Worker(s.db.run.job, 0, NO_POINT, None, Started(s.db.run.resume, s.db.run.interrupt))]
      && Owned(t.db, t.db.run.job, v) && t.db.run.job == s.db.run.job && t.db.run.status == RunRunning && t.db.active
      && t.db.history == s.db.history && t.db.writes == s.db.writes && t.db.paused == s.db.paused
  {
    var v := |s.workers|;
    var t := Act(cfg, s, ClaimJob(s.db.run.job));
    assert t.workers[v] == Worker(s.db.run.job, 0, NO_POINT, None, Claimed) && Owned(t.db, s.db.run.job, v);
  }

  /** Loading behind an answered question hands the answer over. */
  lemma AnswerLoads(cfg: Config, s: Sys, v: nat, n: nat, text: string)
    requires v < |s.workers| && s.workers[v].phase == Started(Some(text), Some(n)) && s.db.writes == map[]
    requires n == |s.db.history| && n > 0 && n in s.db.paused && s.db.history[n - 1].point.node == ClarifyNode
    ensures var t := Act(cfg, s, Load(v, []));
      && t == With(s, v, Worker(s.workers[v].job, n, s.db.history[n - 1].point, Some(text), Clean))
  {
  }

  /** From the question of checkpoint k a schedule leads to the answer's step. */
  lemma QuestionSteps(cfg: Config, s: Sys, pts: seq<Point>, ins: seq<Input>, k: nat, w: nat) returns (u: Sys, v: nat)
    requires IsRun(cfg, pts, ins) && k < |ins| && At(s, pts, ins, k, w) && pts[k].node == ClarifyNode
    ensures Leads(cfg, s, u) && At(u, pts, ins, k + 1, v)
  {
    Graph.RunStep(cfg, pts, ins, k);
    var n, text := k + 1, ins[k].text;
    var s1 := Act(cfg, s, Interrupt(w));
    var s2 := Act(cfg, s1, ReportWaiting(w));
    QuestionWaits(cfg, s, w);
    var s3 := Act(cfg, s2, ResumeRun(n, text, false));
    AnswerQueues(cfg, s2, n, text);
    v := |s3.workers|;
    var s4 := Act(cfg, s3, ClaimJob(s3.db.run.job));
    var s5 := Act(cfg, s4, Begin(v));
    TakenUp(cfg, s3, []);
    var s6 := Act(cfg, s5, Load(v, []));
    AnswerLoads(cfg, s5, v, n, text);
    var s7 := Act(cfg, s6, Compute(v, ins[k]));
    u := Act(cfg, s7, Commit(v));
    StepCommits(cfg, s6, pts, ins, k, v, u);
    Stays(cfg, s);
    LeadsOn(cfg, s, s, Interrupt(w));
    LeadsOn(cfg, s, s1, ReportWaiting(w));
    LeadsOn(cfg, s, s2, ResumeRun(n, text, false));
    LeadsOn(cfg, s, s3, ClaimJob(s3.db.run.job));
    LeadsOn(cfg, s, s4, Begin(v));
    LeadsOn(cfg, s, s5, Load(v, []));
    LeadsOn(cfg, s, s6, Compute(v, ins[k]));
    LeadsOn(cfg, s, s7, Commit(v));
  }

  /** From any other node one worker just goes on. */
  lemma PlainSteps(cfg: Config, s: Sys, pts: seq<Point>, ins: seq<Input>, k: nat, w: nat) returns (u: Sys)
    requires IsRun(cfg, pts, ins) && k < |ins| && At(s, pts, ins, k, w) && pts[k].node != ClarifyNode
    ensures Leads(cfg, s, u) && At(u, pts, ins, k + 1, w)
  {
    Graph.RunStep(cfg, pts, ins, k);
    var t := Act(cfg, s, Compute(w, ins[k]));
    u := Act(cfg, t, Commit(w));
    StepCommits(cfg, s, pts, ins, k, w, u);
    Stays(cfg, s);
    LeadsOn(cfg, s, s, Compute(w, ins[k]));
    LeadsOn(cfg, s, t, Commit(w));
  }

  // ---------------------------------------------------------------- whole executions

  lemma LeadsThrough(cfg: Config, s: Sys, t: Sys, u: Sys)
    requires Leads(cfg, s, t) && Leads(cfg, t, u)
    ensures Leads(cfg, s, u)
  {
    var a :| Exec(cfg, s, a) == t;
    var b :| Exec(cfg, t, b) == u;
    ExecConcat(cfg, s, a, b);
  }

  /** The first worker commits the start. */
  lemma StartCommits(cfg: Config, messages: seq<Msg>, pts: seq<Point>, ins: seq<Input>) returns (u: Sys)
    requires Graph.IsRunFrom(cfg, messages, pts, ins)
    ensures Leads(cfg, INITIAL, u) && At(u, pts, ins, 0, 0)
  {
    var s1 := Act(cfg, INITIAL, ClaimJob(0));
    var s2 := Act(cfg, s1, Begin(0));
    TakenUp(cfg, INITIAL, messages);
    var s3 := Act(cfg, s2, Load(0, messages));
    assert s3.workers[0] == Worker(0, 0, NO_POINT, None, Computed(Checkpoint(0, Start(cfg, messages), None)));
    u := Act(cfg, s3, Commit(0));
    assert u.db.history == [Checkpoint(0, pts[0], None)];
    Stays(cfg, INITIAL);
    LeadsOn(cfg, INITIAL, INITIAL, ClaimJob(0));
    LeadsOn(cfg, INITIAL, s1, Begin(0));
    LeadsOn(cfg, INITIAL, s2, Load(0, messages));
    LeadsOn(cfg, INITIAL, s3, Commit(0));
  }

  lemma {:induction false} ReachesPoint(cfg: Config, messages: seq<Msg>, pts: seq<Point>, ins: seq<Input>, k: nat)
    returns (s: Sys, w: nat)
    requires Graph.IsRunFrom(cfg, messages, pts, ins) && k < |pts|
    ensures Leads(cfg, INITIAL, s) && At(s, pts, ins, k, w)
  {
    if k == 0 {
      s := StartCommits(cfg, messages, pts, ins);
      w := 0;
    } else {
      var t, v := ReachesPoint(cfg, messages, pts, ins, k - 1);
      if pts[k - 1].node == ClarifyNode {
        s, w := QuestionSteps(cfg, t, pts, ins, k - 1, v);
      } else {
        s := PlainSteps(cfg, t, pts, ins, k - 1, v);
        w := v;
      }
      LeadsThrough(cfg, INITIAL, t, s);
    }
  }

  /** Every execution of the graph is the history some schedule commits, and when it has ended the run can
      succeed with its answer: durability loses no behaviour of the plain loop. */
  lemma DurableRealizesGraph(cfg: Config, messages: seq<Msg>, pts: seq<Point>, ins: seq<Input>, content: string)
    requires Graph.IsRunFrom(cfg, messages, pts, ins)
    ensures exists actions :: Committed(Exec(cfg, INITIAL, actions).db, pts, ins, |ins|)
    ensures pts[|ins|].node == End ==>
      exists actions :: var db := Exec(cfg, INITIAL, actions).db;
        Committed(db, pts, ins, |ins|) && db.run.status == RunSucceeded && db.finals == [content]
  {
    var s, w := ReachesPoint(cfg, messages, pts, ins, |ins|);
    var actions :| Exec(cfg, INITIAL, actions) == s;
    assert Committed(Exec(cfg, INITIAL, actions).db, pts, ins, |ins|);
    if pts[|ins|].node == End {
      var t := Act(cfg, s, Finish(w, content));
      OneFinalMessage(cfg, actions);
      LeadsOn(cfg, INITIAL, s, Finish(w, content));
      var more :| Exec(cfg, INITIAL, more) == t;
      assert t.db == ApplyFinal(s.db, s.db.run.job, w, content);
      assert Committed(Exec(cfg, INITIAL, more).db, pts, ins, |ins|);
    }
  }

  // ---------------------------------------------------------------- taking over

  /** Whatever happened before: where the run is open and its job may be claimed, a new worker gets the lease, never
      finds the run not waiting, and stands behind the last checkpoint, or with the step saved behind it. */
  lemma TakeoverResumes(cfg: Config, actions: seq<Action>, messages: seq<Msg>)
    requires var s := Exec(cfg, INITIAL, actions);
      s.db.run.status in {RunQueued, RunRunning} && Claimable(s.db, s.db.run.job)
    ensures var s := Exec(cfg, INITIAL, actions);
      var v, n := |s.workers|, |s.db.history|;
      var t := Act(cfg, Act(cfg, Act(cfg, s, ClaimJob(s.db.run.job)), Begin(v)), Load(v, messages));
      && v < |t.workers| && Owned(t.db, t.workers[v].job, v) && t.db.history == s.db.history && t.workers[v].seen == n
      && if n == 0 then t.workers[v].phase == Computed(Checkpoint(0, Start(cfg, messages), None))
         else if n in s.db.writes then t.workers[v].phase == Computed(s.db.writes[n])
         else t.workers[v].phase == Clean && t.workers[v].point == s.db.history[n - 1].point
  {
    var s := Exec(cfg, INITIAL, actions);
    Reachable(cfg, actions);
    TakenUp(cfg, s, messages);
    if s.db.run.resume.Some? { AnswersHaveQuestions(RulesOf(cfg), s.db); }
    TakeoverLoads(cfg, s, Act(cfg, Act(cfg, s, ClaimJob(s.db.run.job)), Begin(|s.workers|)), messages);
  }

  lemma AnswersHaveQuestions(rules: Rules, db: Db)
    requires AnswersInv(db) && HistoryInv(rules, db) && db.run.resume.Some?
    ensures db.run.interrupt.Some? && db.history != []
  {
    assert db.answers[|db.answers| - 1].0 in db.paused;
  }

  lemma TakeoverLoads(cfg: Config, s: Sys, t: Sys, messages: seq<Msg>)
    requires s.db.run.resume.Some? ==> s.db.run.interrupt.Some? && s.db.history != []
    requires t.workers
      == s.workers + [Worker(s.db.run.job, 0, NO_POINT, None, Started(s.db.run.resume, s.db.run.interrupt))]
    requires t.db.history == s.db.history && t.db.writes == s.db.writes && t.db.paused == s.db.paused
    ensures var v, n := |s.workers|, |s.db.history|;
      var u := Act(cfg, t, Load(v, messages));
      && v < |u.workers| && u.db == t.db && u.workers[v].job == s.db.run.job && u.workers[v].seen == n
      && if n == 0 then u.workers[v].phase == Computed(Checkpoint(0, Start(cfg, messages), None))
         else if n in s.db.writes then u.workers[v].phase == Computed(s.db.writes[n])
         else u.workers[v].phase == Clean && u.workers[v].point == s.db.history[n - 1].point
  {
  }
}
