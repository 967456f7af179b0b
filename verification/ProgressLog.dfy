/** The rows of one run's progress, changed in place, each transaction proved against RunProgress. */
module ProgressLog {
  import opened Prelude
  import opened RunProgress
  import Theorems = ProgressTheorems

  class Log {
    var state: RunState
    var progressSeq: nat
    var events: seq<Event>
    var rows: seq<Activity>
    var receipts: map<Id, Receipt>
    var lease: Id

    constructor ()
      ensures Value() == NEW_RUN && Good()
    {
      state, progressSeq, events, rows, receipts, lease := Queued, 1, [Event(1, RunQueued, None)], [], map[], "";
      new;
      Theorems.Reachable([]);
    }

    function Value(): Progress
      reads this
    {
      Progress(state, progressSeq, events, rows, receipts, lease)
    }

    /** Log, rows and recorded results agree. */
    ghost predicate Good()
      reads this
    {
      Theorems.Sound()(Value())
    }

    method Add(kind: Kind, tool: Option<(Id, View)>)
      modifies this`progressSeq, this`events
      ensures Value() == Append(old(Value()), kind, tool)
    {
      progressSeq := progressSeq + 1;
      events := events + [Event(progressSeq, kind, tool)];
    }

    method End(i: nat, status: Status, references: seq<Id>, error: Option<string>)
      requires i < |rows| && status != Open
      modifies this`progressSeq, this`events, this`rows
      ensures Value() == Finish(old(Value()), i, status, references, error)
    {
      if rows[i].status != Open {
        return;
      }
      var row := rows[i];
      row := row.(status := status);
      row := row.(references := references);
      row := row.(error := error);
      rows := rows[i := row];
      Add(EndKind(status), Some((row.inv, ViewOf(row))));
    }

    method InterruptAll(reason: string)
      modifies this`progressSeq, this`events, this`rows
      ensures Value() == InterruptOpen(old(Value()), reason)
      ensures forall i :: 0 <= i < |rows| ==> rows[i].status != Open
    {
      ghost var before := Value();
      Theorems.InterruptStops(before, |before.rows|, reason);
      var i := 0;
      while i < |rows|
        invariant i <= |rows| == |before.rows|
        invariant Value() == InterruptFirst(before, i, reason)
        decreases |before.rows| - i
      {
        End(i, Interrupted, [], Some(reason));
        i := i + 1;
      }
    }

    method Row(inv: Id) returns (i: nat)
      ensures i == Find(rows, inv)
    {
      i := 0;
      while i < |rows| && rows[i].inv != inv
        invariant i <= |rows| && forall j :: 0 <= j < i ==> rows[j].inv != inv
      {
        i := i + 1;
      }
    }

    /** The run handler: a new worker takes over. */
    method BeginRun(token: Id)
      requires state in {Queued, Running}
      modifies this
      ensures Value() == Do(old(Value()), Begin(token))
      ensures old(Good()) ==> Good()
    {
      Theorems.StaysSound(Value(), Begin(token));
      InterruptAll("WORKER_RESTARTED");
      state := Running;
      lease := token;
      Add(RunStarted, None);
    }

    method PauseRun()
      requires state == Running
      modifies this
      ensures Value() == Do(old(Value()), Pause)
      ensures old(Good()) ==> Good()
    {
      Theorems.StaysSound(Value(), Pause);
      state := Waiting;
      InterruptAll("WAITING_INPUT");
      Add(RunWaiting, None);
    }

    method CloseRun(outcome: RunState)
      requires !Closing(state) && Closing(outcome)
      modifies this
      ensures Value() == Do(old(Value()), Close(outcome))
      ensures old(Good()) ==> Good()
    {
      Theorems.StaysSound(Value(), Close(outcome));
      InterruptAll("RUN_CLOSED");
      state := outcome;
      Add(RunClosed(outcome), None);
    }

    /** Admission of a tool call; false when the arguments of a known invocation have changed. */
    method StartToolCall(inv: Id, call: Call) returns (admitted: bool)
      requires state == Running
      modifies this
      ensures Value() == Do(old(Value()), StartTool(inv, call))
      ensures admitted <==> !Refuses(old(Value()), inv, call)
      ensures old(Good()) ==> Good()
    {
      Theorems.StaysSound(Value(), StartTool(inv, call));
      if inv in receipts {
        return receipts[inv].call == call;
      }
      var i := Row(inv);
      var attempt := 1;
      if i < |rows| {
        if rows[i].call != call {
          return false;
        }
        if rows[i].status == Open && rows[i].lease == lease {
          return true;
        }
        attempt := rows[i].attempt + 1;
        if rows[i].status == Open {
          End(i, Interrupted, [], Some("WORKER_RESTARTED"));
        }
      }
      var row := Activity(inv, call, attempt, lease, Open, [], None);
      rows := if i < |rows| then rows[i := row] else rows + [row];
      Add(ToolStarted, Some((inv, ViewOf(row))));
      return true;
    }

    /** Result and end of the activity together. */
    method CompleteToolCall(inv: Id, call: Call, ok: bool, references: seq<Id>, code: string)
      requires state == Running
      modifies this
      ensures Value() == Do(old(Value()), CompleteTool(inv, call, ok, references, code))
      ensures old(Good()) ==> Good()
    {
      Theorems.StaysSound(Value(), CompleteTool(inv, call, ok, references, code));
      if inv in receipts {
        return;
      }
      receipts := receipts[inv := Receipt(call, ok)];
      var i := Row(inv);
      if i < |rows| {
        End(i, if ok then Completed else Broken, references, if ok then None else Some(code));
      }
    }

    method InterruptToolCall(inv: Id)
      modifies this
      ensures Value() == Do(old(Value()), InterruptTool(inv))
      ensures old(Good()) ==> Good()
    {
      Theorems.StaysSound(Value(), InterruptTool(inv));
      if state != Running {
        return;
      }
      var i := Row(inv);
      if i < |rows| {
        End(i, Interrupted, [], Some("TOOL_EXECUTION_INTERRUPTED"));
      }
    }
  }
}
