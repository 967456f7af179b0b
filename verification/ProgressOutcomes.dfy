/** What each transaction on a run's progress does to its rows, its results and its log. */
module ProgressOutcomes {
  import opened Prelude
  import opened RunProgress
  import opened ProgressTheorems

  // ---------------------------------------------------------------- rows and events

  /** i is the row of this invocation. */
  predicate IsRow(rows: seq<Activity>, inv: Id, i: nat) {
    i < |rows| && rows[i].inv == inv && forall j :: 0 <= j < i ==> rows[j].inv != inv
  }

  predicate NoRow(rows: seq<Activity>, inv: Id) {
    forall i :: 0 <= i < |rows| ==> rows[i].inv != inv
  }

  /** The event numbered n that shows a row. */
  function Shows(n: nat, kind: Kind, row: Activity): Event {
    Event(n, kind, Some((row.inv, View(row.call.tool, row.attempt, row.status, row.references, row.error))))
  }

  /** The row, interrupted for this reason. */
  function Stopped(row: Activity, reason: string): Activity {
    row.(status := Interrupted, references := [], error := Some(reason))
  }

  /** The row, taken up by the worker that holds the lease. */
  function TakenUp(inv: Id, call: Call, attempt: nat, lease: Id): Activity {
    Activity(inv, call, attempt, lease, Open, [], None)
  }

  lemma RowIs(rows: seq<Activity>, inv: Id, i: nat)
    ensures IsRow(rows, inv, i) ==> Find(rows, inv) == i
    ensures NoRow(rows, inv) ==> Find(rows, inv) == |rows|
  {
  }

  // ---------------------------------------------------------------- tools

  /** Starting a tool for the first time adds its row; again, it takes the row up with the next attempt, ending
      what another worker left open. A known result, changed arguments or the same worker's own open start
      change nothing. */
  lemma StartDecides(p: Progress, inv: Id, call: Call, i: nat)
    ensures var q := Do(p, StartTool(inv, call));
      && (p.state != Running || inv in p.receipts ==> q == p)
      && (p.state == Running && inv !in p.receipts && NoRow(p.rows, inv) ==>
            var row := TakenUp(inv, call, 1, p.lease);
            q == p.(rows := p.rows + [row], last := p.last + 1, events :=
              p.events + [Shows(p.last + 1, ToolStarted, row)]))
      && (p.state == Running && inv !in p.receipts && IsRow(p.rows, inv, i) ==>
            var before := p.rows[i];
            var row := TakenUp(inv, call, before.attempt + 1, p.lease);
            if before.call != call || (before.status == Open && before.lease == p.lease) then q == p
            else if before.status == Open then
              q == p.(rows := p.rows[i := row], last := p.last + 2,
                      events := p.events + [Shows(p.last + 1, ToolInterrupted, Stopped(before, "WORKER_RESTARTED"))]
                                + [Shows(p.last + 2, ToolStarted, row)])
            else
              q == p.(rows := p.rows[i := row], last := p.last + 1, events :=
                p.events + [Shows(p.last + 1, ToolStarted, row)]))
  {
    RowIs(p.rows, inv, i);
    if p.state == Running && inv !in p.receipts && IsRow(p.rows, inv, i) {
      assert p.rows[i := Stopped(p.rows[i], "WORKER_RESTARTED")][i :=
        TakenUp(inv, call, p.rows[i].attempt + 1, p.lease)]
          == p.rows[i := TakenUp(inv, call, p.rows[i].attempt + 1, p.lease)];
    }
  }

  /** Completing a tool records its result once, and ends its row if that is open, with the outcome, its references
      and its error. */
  lemma CompleteDecides(p: Progress, inv: Id, call: Call, ok: bool, references: seq<Id>, code: string, i: nat)
    ensures var q := Do(p, CompleteTool(inv, call, ok, references, code));
      && (p.state != Running || inv in p.receipts ==> q == p)
      && (p.state == Running && inv !in p.receipts ==>
            var recorded := p.(receipts := p.receipts[inv := Receipt(call, ok)]);
            && (NoRow(p.rows, inv) ==> q == recorded)
            && (IsRow(p.rows, inv, i) ==>
                  if p.rows[i].status != Open then q == recorded
                  else
                    var row := p.rows[i].(status := if ok then Completed else Broken, references := references,
                                          error := if ok then None else Some(code));
                    q == recorded.(rows := p.rows[i := row], last := p.last + 1,
                                   events := p.events
                                     + [Shows(p.last + 1, if ok then ToolCompleted else ToolFailed, row)])))
  {
    RowIs(p.rows, inv, i);
  }

  /** An abandoned call ends as interrupted, if it was open and the run is running. */
  lemma InterruptDecides(p: Progress, inv: Id, i: nat)
    ensures var q := Do(p, InterruptTool(inv));
      && (p.state != Running || NoRow(p.rows, inv) ==> q == p)
      && (p.state == Running && IsRow(p.rows, inv, i) ==>
            if p.rows[i].status != Open then q == p
            else
              var row := Stopped(p.rows[i], "TOOL_EXECUTION_INTERRUPTED");
              q == p.(rows := p.rows[i := row], last := p.last + 1, events :=
                p.events + [Shows(p.last + 1, ToolInterrupted, row)]))
  {
    RowIs(p.rows, inv, i);
  }

  // ---------------------------------------------------------------- the run

  /** The events of interrupting what is open among the first k rows, numbered behind n. */
  function StopEvents(rows: seq<Activity>, k: nat, n: nat, reason: string): (events: seq<Event>)
    requires k <= |rows|
    ensures |events| <= k
  {
    if k == 0 then []
    else
      var before := StopEvents(rows, k - 1, n, reason);
      if rows[k - 1].status == Open
      then before + [Shows(n + |before| + 1, ToolInterrupted, Stopped(rows[k - 1], reason))] else before
  }

  /** q is p with every open row interrupted, each with its event, in the order of the table. */
  ghost predicate AllStopped(p: Progress, q: Progress, k: nat, reason: string) {
    && k <= |p.rows| == |q.rows|
    && (forall i :: 0 <= i < |p.rows| ==>
          q.rows[i] == if i < k && p.rows[i].status == Open then Stopped(p.rows[i], reason) else p.rows[i])
    && q == p.(rows := q.rows, last := p.last + |StopEvents(p.rows, k, p.last, reason)|,
               events := p.events + StopEvents(p.rows, k, p.last, reason))
  }

  lemma {:induction false} InterruptStopsAll(p: Progress, k: nat, reason: string)
    requires k <= |p.rows|
    ensures AllStopped(p, InterruptFirst(p, k, reason), k, reason)
  {
    if k > 0 {
      var q := InterruptFirst(p, k - 1, reason);
      InterruptStopsAll(p, k - 1, reason);
      assert InterruptFirst(p, k, reason) == Finish(q, k - 1, Interrupted, [], Some(reason));
    }
  }

  /** What happens to the run stops all open rows for its own reason; then its state changes, with an event. */
  ghost predicate Turned(p: Progress, q: Progress, reason: string, state: RunState, lease: Id, kind: Kind) {
    exists mid :: AllStopped(p, mid, |p.rows|, reason)
      && q == mid.(state := state, lease := lease, last := mid.last + 1, events :=
            mid.events + [Event(mid.last + 1, kind, None)])
  }

  lemma TurnsTo(p: Progress, mid: Progress, reason: string, state: RunState, lease: Id, kind: Kind)
    requires AllStopped(p, mid, |p.rows|, reason)
    ensures Turned(p, Append(mid.(state := state, lease := lease), kind, None), reason, state, lease, kind)
  {
  }

  /** A new worker takes a run over that is queued or running. */
  lemma BeginDecides(p: Progress, token: Id)
    ensures if p.state in {Queued, Running}
      then Turned(p, Do(p, Begin(token)), "WORKER_RESTARTED", Running, token, RunStarted)
            else Do(p, Begin(token)) == p
  {
    InterruptStopsAll(p, |p.rows|, "WORKER_RESTARTED");
    TurnsTo(p, InterruptOpen(p, "WORKER_RESTARTED"), "WORKER_RESTARTED", Running, token, RunStarted);
  }

  lemma ClosedOrNot(state: RunState)
    ensures Closing(state) <==> state !in {Queued, Running, Waiting}
  {
    match state
    case Queued => case Running => case Waiting => case Succeeded => case Failed => case Cancelled =>
  }

  /** A run that is not closed is closed once. */
  lemma CloseDecides(p: Progress, outcome: RunState)
    ensures if p.state in {Queued, Running, Waiting} && outcome in {Succeeded, Failed, Cancelled}
            then Turned(p, Do(p, Close(outcome)), "RUN_CLOSED", outcome, p.lease, RunClosed(outcome))
            else Do(p, Close(outcome)) == p
  {
    ClosedOrNot(p.state);
    if !Closing(p.state) && Closing(outcome) {
      var mid := InterruptOpen(p, "RUN_CLOSED");
      InterruptStopsAll(p, |p.rows|, "RUN_CLOSED");
      assert mid.(state := outcome, lease := p.lease) == mid.(state := outcome);
      assert Do(p, Close(outcome)) == Append(mid.(state := outcome, lease := p.lease), RunClosed(outcome), None);
      TurnsTo(p, mid, "RUN_CLOSED", outcome, p.lease, RunClosed(outcome));
    }
  }

  /** A running run waits for an answer. */
  lemma PauseDecides(p: Progress)
    ensures if p.state == Running then Turned(p, Do(p, Pause), "WAITING_INPUT", Waiting, p.lease, RunWaiting)
            else Do(p, Pause) == p
  {
    var waiting := p.(state := Waiting);
    var stopped := InterruptOpen(waiting, "WAITING_INPUT");
    InterruptStopsAll(waiting, |p.rows|, "WAITING_INPUT");
    assert AllStopped(p, stopped.(state := p.state), |p.rows|, "WAITING_INPUT");
    TurnsTo(p, stopped.(state := p.state), "WAITING_INPUT", Waiting, p.lease, RunWaiting);
    assert stopped.(state := p.state).(state := Waiting, lease := p.lease) == stopped;
  }

  /** A failed attempt stops what is open and leaves the run running; an answer queues a waiting run again. */
  lemma RetryDecides(p: Progress)
    ensures if p.state == Running then AllStopped(p, Do(p, Retry), |p.rows|, "RETRY_PENDING") else Do(p, Retry) == p
    ensures Do(p, Requeue) == if p.state == Waiting
      then p.(state := Queued, last := p.last + 1, events := p.events + [Event(p.last + 1, RunQueued, None)]) else p
  {
    InterruptStopsAll(p, |p.rows|, "RETRY_PENDING");
  }
}
