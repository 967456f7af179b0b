/** What the progress log guarantees after every sequence of transactions. */
module ProgressTheorems {
  import opened Prelude
  import opened RunProgress

  // ---------------------------------------------------------------- invariant

  predicate Shown(events: seq<Event>, row: Activity) {
    Reader(events, row.inv) == Some(ViewOf(row))
  }

  /** Log and rows agree. */
  ghost predicate LogInv(p: Progress) {
    && p.last == |p.events| && LegalLog(p.events)
    && (forall i, j :: 0 <= i < j < |p.rows| ==> p.rows[i].inv != p.rows[j].inv)
    && (forall i :: 0 <= i < |p.rows| ==> Shown(p.events, p.rows[i]))
    && (forall inv :: Find(p.rows, inv) == |p.rows| ==> Reader(p.events, inv).None?)
  }

  /** The same as a property of progress tables. */
  ghost function Logged(): Progress -> bool {
    (p: Progress) => LogInv(p)
  }

  /** Rows and recorded results agree. */
  predicate Backed(row: Activity, receipts: map<Id, Receipt>) {
    match row.status
    case Open => row.inv !in receipts
    case Completed => row.inv in receipts && receipts[row.inv].ok
    case Broken => row.inv in receipts && !receipts[row.inv].ok
    case Interrupted => true
  }

  ghost predicate ReceiptInv(p: Progress) {
    forall i :: 0 <= i < |p.rows| ==> Backed(p.rows[i], p.receipts)
  }

  predicate AllShut(rows: seq<Activity>) {
    forall i :: 0 <= i < |rows| ==> rows[i].status != Open
  }

  ghost predicate Inv(p: Progress) {
    LogInv(p) && ReceiptInv(p) && (p.state != Running ==> AllShut(p.rows))
  }

  // ---------------------------------------------------------------- appending

  lemma ReaderAppend(events: seq<Event>, e: Event, inv: Id)
    ensures Reader(events + [e], inv) ==
      if e.tool.Some? && e.tool.value.0 == inv then Some(e.tool.value.1) else Reader(events, inv)
    ensures LegalLog(events + [e]) <==>
      LegalLog(events) && e.number == |events| + 1 && (e.tool.Some? ==> Legal(Reader(events, e.tool.value.0), e))
  {
    assert (events + [e])[..|events|] == events;
  }

  /** An event about the run itself leaves all activities as they are. */
  lemma AppendRunEvent(p: Progress, kind: Kind)
    requires LogInv(p)
    ensures LogInv(Append(p, kind, None))
  {
    var q, e := Append(p, kind, None), Event(p.last + 1, kind, None);
    forall inv ensures Reader(q.events, inv) == Reader(p.events, inv) { ReaderAppend(p.events, e, inv); }
    ReaderAppend(p.events, e, "");
    forall i | 0 <= i < |q.rows| ensures Shown(q.events, q.rows[i]) { assert Shown(p.events, p.rows[i]); }
  }

  lemma {:induction false} FindUpdate(rows: seq<Activity>, i: nat, row: Activity, inv: Id)
    requires i < |rows| && row.inv == rows[i].inv
    ensures Find(rows[i := row], inv) == Find(rows, inv)
  {
    if i > 0 && rows[0].inv != inv {
      assert rows[i := row][1..] == rows[1..][i - 1 := row];
      FindUpdate(rows[1..], i - 1, row, inv);
    }
  }

  /** Changing one row together with the event that shows it. */
  lemma ChangeRow(p: Progress, i: nat, row: Activity, kind: Kind)
    requires LogInv(p) && i < |p.rows| && row.inv == p.rows[i].inv
    requires Legal(Some(ViewOf(p.rows[i])), Event(p.last + 1, kind, Some((row.inv, ViewOf(row)))))
    ensures LogInv(Append(p.(rows := p.rows[i := row]), kind, Some((row.inv, ViewOf(row)))))
  {
    var e := Event(p.last + 1, kind, Some((row.inv, ViewOf(row))));
    var q := Append(p.(rows := p.rows[i := row]), kind, Some((row.inv, ViewOf(row))));
    assert Shown(p.events, p.rows[i]);
    ReaderAppend(p.events, e, row.inv);
    forall j | 0 <= j < |q.rows| ensures Shown(q.events, q.rows[j]) {
      assert Shown(p.events, p.rows[j]);
      ReaderAppend(p.events, e, q.rows[j].inv);
    }
    forall inv | Find(q.rows, inv) == |q.rows| ensures Reader(q.events, inv).None? {
      FindUpdate(p.rows, i, row, inv);
      ReaderAppend(p.events, e, inv);
    }
  }

  lemma {:induction false} FindAppend(rows: seq<Activity>, row: Activity, inv: Id)
    ensures Find(rows + [row], inv) ==
      if Find(rows, inv) < |rows| || row.inv == inv then Find(rows, inv) else |rows| + 1
  {
    if rows == [] {
      assert rows + [row] == [row] && [row][1..] == [];
    } else if rows[0].inv != inv {
      assert (rows + [row])[1..] == rows[1..] + [row];
      FindAppend(rows[1..], row, inv);
    }
  }

  lemma AddRow(p: Progress, row: Activity)
    requires LogInv(p) && Find(p.rows, row.inv) == |p.rows| && row.attempt == 1 && row.status == Open
    ensures LogInv(Append(p.(rows := p.rows + [row]), ToolStarted, Some((row.inv, ViewOf(row)))))
  {
    var e := Event(p.last + 1, ToolStarted, Some((row.inv, ViewOf(row))));
    var q := Append(p.(rows := p.rows + [row]), ToolStarted, Some((row.inv, ViewOf(row))));
    ReaderAppend(p.events, e, row.inv);
    forall j | 0 <= j < |q.rows| ensures Shown(q.events, q.rows[j]) {
      if j < |p.rows| {
        assert Shown(p.events, p.rows[j]);
        ReaderAppend(p.events, e, q.rows[j].inv);
      }
    }
    forall inv | Find(q.rows, inv) == |q.rows| ensures Reader(q.events, inv).None? {
      FindAppend(p.rows, row, inv);
      ReaderAppend(p.events, e, inv);
    }
  }

  // ---------------------------------------------------------------- ending activities

  lemma FinishLog(p: Progress, i: nat, status: Status, references: seq<Id>, error: Option<string>)
    requires LogInv(p) && i < |p.rows| && status != Open
    ensures LogInv(Finish(p, i, status, references, error))
  {
    if p.rows[i].status == Open {
      ChangeRow(p, i, p.rows[i].(status := status, references := references, error := error), EndKind(status));
    }
  }

  /** Which rows an interruption has touched. */
  ghost predicate Stopped(p: Progress, q: Progress, k: nat) {
    && k <= |p.rows| == |q.rows|
    && (forall i :: 0 <= i < |p.rows| ==> q.rows[i].inv == p.rows[i].inv)
    && (forall i :: 0 <= i < |p.rows| ==>
          if i < k && p.rows[i].status == Open then q.rows[i].status == Interrupted else q.rows[i] == p.rows[i])
    && q == p.(rows := q.rows, events := q.events, last := q.last)
  }

  lemma {:induction false} InterruptLog(p: Progress, k: nat, reason: string)
    requires LogInv(p) && k <= |p.rows|
    ensures Logged()(InterruptFirst(p, k, reason))
  {
    if k > 0 {
      var q := InterruptFirst(p, k - 1, reason);
      InterruptLog(p, k - 1, reason);
      assert InterruptFirst(p, k, reason) == Finish(q, k - 1, Interrupted, [], Some(reason));
      FinishLog(q, k - 1, Interrupted, [], Some(reason));
    }
  }

  lemma {:induction false} InterruptStops(p: Progress, k: nat, reason: string)
    requires k <= |p.rows|
    ensures Stopped(p, InterruptFirst(p, k, reason), k)
  {
    if k > 0 { InterruptStops(p, k - 1, reason); }
  }

  lemma InterruptShuts(p: Progress, reason: string)
    requires ReceiptInv(p)
    ensures var q := InterruptOpen(p, reason);
      ReceiptInv(q) && AllShut(q.rows) && q == p.(rows := q.rows, events := q.events, last := q.last)
  {
    InterruptStops(p, |p.rows|, reason);
  }

  lemma InterruptKeeps(p: Progress, reason: string)
    requires LogInv(p) && ReceiptInv(p)
    ensures var q := InterruptOpen(p, reason);
      Logged()(q) && ReceiptInv(q) && AllShut(q.rows) && q == p.(rows := q.rows, events := q.events, last := q.last)
  {
    InterruptLog(p, |p.rows|, reason);
    InterruptShuts(p, reason);
  }

  // ---------------------------------------------------------------- transactions

  lemma StartKeeps(p: Progress, inv: Id, call: Call)
    requires Inv(p) && p.state == Running && inv !in p.receipts
    ensures Inv(Started(p, inv, call))
  {
    var i := Find(p.rows, inv);
    if i < |p.rows| {
      var stopped := Finish(p, i, Interrupted, [], Some("WORKER_RESTARTED"));
      FinishLog(p, i, Interrupted, [], Some("WORKER_RESTARTED"));
      ChangeRow(stopped, i, Activity(inv, call, p.rows[i].attempt + 1, p.lease, Open, [], None), ToolStarted);
    } else {
      AddRow(p, Activity(inv, call, 1, p.lease, Open, [], None));
    }
  }

  lemma FinishState(p: Progress, i: nat, status: Status, references: seq<Id>, error: Option<string>,
                    receipts: map<Id, Receipt>)
    requires i < |p.rows| && status != Open
    ensures Finish(p.(receipts := receipts), i, status, references, error)
      == Finish(p, i, status, references, error).(receipts := receipts)
  {
  }

  lemma FinishReceipts(p: Progress, i: nat, ok: bool, call: Call, references: seq<Id>, error: Option<string>)
    requires ReceiptInv(p) && i < |p.rows| && p.rows[i].inv !in p.receipts
    requires forall j, k :: 0 <= j < k < |p.rows| ==> p.rows[j].inv != p.rows[k].inv
    ensures ReceiptInv(Finish(p, i, if ok then Completed else Broken, references, error)
                         .(receipts := p.receipts[p.rows[i].inv := Receipt(call, ok)]))
  {
    var finished := Finish(p, i, if ok then Completed else Broken, references, error);
    var q := finished.(receipts := p.receipts[p.rows[i].inv := Receipt(call, ok)]);
    forall j | 0 <= j < |q.rows| ensures Backed(q.rows[j], q.receipts) {
      assert Backed(p.rows[j], p.receipts);
    }
  }

  lemma CompleteKeeps(p: Progress, inv: Id, call: Call, ok: bool, references: seq<Id>, code: string)
    requires Inv(p) && p.state == Running && inv !in p.receipts && Find(p.rows, inv) < |p.rows|
    ensures Inv(CompleteToolOn(p, inv, call, ok, references, code))
  {
    var i, status := Find(p.rows, inv), if ok then Completed else Broken;
    var error := if ok then None else Some(code);
    var finished := Finish(p, i, status, references, error);
    var receipts := p.receipts[inv := Receipt(call, ok)];
    FinishLog(p, i, status, references, error);
    FinishReceipts(p, i, ok, call, references, error);
    FinishState(p, i, status, references, error, receipts);
    assert CompleteToolOn(p, inv, call, ok, references, code) == finished.(receipts := receipts);
  }

  lemma BeginKeeps(p: Progress, lease: Id)
    requires Inv(p) && p.state in {Queued, Running}
    ensures Inv(Do(p, Begin(lease)))
  {
    InterruptKeeps(p, "WORKER_RESTARTED");
    AppendRunEvent(InterruptOpen(p, "WORKER_RESTARTED").(state := Running, lease := lease), RunStarted);
  }

  lemma PauseKeeps(p: Progress)
    requires Inv(p) && p.state == Running
    ensures Inv(Do(p, Pause))
  {
    InterruptKeeps(p.(state := Waiting), "WAITING_INPUT");
    AppendRunEvent(InterruptOpen(p.(state := Waiting), "WAITING_INPUT"), RunWaiting);
  }

  lemma CloseKeeps(p: Progress, state: RunState)
    requires Inv(p) && !Closing(p.state) && Closing(state)
    ensures Inv(Do(p, Close(state)))
  {
    InterruptKeeps(p, "RUN_CLOSED");
    AppendRunEvent(InterruptOpen(p, "RUN_CLOSED").(state := state), RunClosed(state));
  }

  lemma LegacyComplete(p: Progress, inv: Id, call: Call, ok: bool, references: seq<Id>, code: string)
    requires Inv(p) && Find(p.rows, inv) == |p.rows|
    ensures Inv(CompleteToolOn(p, inv, call, ok, references, code))
  {
    var receipts := p.receipts[inv := Receipt(call, ok)];
    forall j | 0 <= j < |p.rows| ensures Backed(p.rows[j], receipts) {
      assert Backed(p.rows[j], p.receipts);
    }
  }

  lemma ToolKeeps(p: Progress, a: Action)
    requires Inv(p) && p.state == Running && (a.StartTool? || a.CompleteTool? || a.InterruptTool?)
    ensures Inv(Do(p, a))
  {
    match a
    case StartTool(inv, call) => if StartToolOn(p, inv, call) != p { StartKeeps(p, inv, call); }
    case CompleteTool(inv, call, ok, references, code) =>
      if Find(p.rows, inv) == |p.rows| {
        LegacyComplete(p, inv, call, ok, references, code);
      } else if inv !in p.receipts {
        CompleteKeeps(p, inv, call, ok, references, code);
      }
    case InterruptTool(inv) =>
      var i := Find(p.rows, inv);
      if i < |p.rows| { FinishLog(p, i, Interrupted, [], Some("TOOL_EXECUTION_INTERRUPTED")); }
  }

  lemma DoKeeps(p: Progress, a: Action)
    requires Inv(p)
    ensures Inv(Do(p, a))
  {
    if Do(p, a) != p {
      match a
      case Begin(lease) => BeginKeeps(p, lease);
      case Pause => PauseKeeps(p);
      case Retry => InterruptKeeps(p, "RETRY_PENDING");
      case Requeue => AppendRunEvent(p.(state := Queued), RunQueued);
      case Close(state) => CloseKeeps(p, state);
      case _ => ToolKeeps(p, a);
    }
  }

  /** The invariant as a property of progress tables. */
  ghost function Sound(): Progress -> bool {
    (p: Progress) => Inv(p)
  }

  lemma StaysSound(p: Progress, a: Action)
    ensures Sound()(p) ==> Sound()(Do(p, a))
  {
    if Inv(p) { DoKeeps(p, a); }
  }

  lemma {:induction false} Reachable(actions: seq<Action>)
    ensures Inv(After(NEW_RUN, actions))
  {
    if actions == [] {
      assert NEW_RUN.events == [] + [Event(1, RunQueued, None)];
      forall inv ensures Reader(NEW_RUN.events, inv).None? { ReaderAppend([], Event(1, RunQueued, None), inv); }
      ReaderAppend([], Event(1, RunQueued, None), "");
    } else {
      Reachable(actions[..|actions| - 1]);
      DoKeeps(After(NEW_RUN, actions[..|actions| - 1]), actions[|actions| - 1]);
    }
  }

  // ---------------------------------------------------------------- guarantees

  /** Events are numbered without gaps; the last event of each invocation shows its row as it is; no
      activity stays open unless the run is running; a completed or failed activity has its recorded
      result, with that outcome. */
  lemma LogShowsRows(actions: seq<Action>, i: nat)
    requires i < |After(NEW_RUN, actions).rows|
    ensures var p := After(NEW_RUN, actions); var row := p.rows[i];
      && p.last == |p.events|
      && Reader(p.events, row.inv) == Some(ViewOf(row))
      && (row.status == Open ==> p.state == Running && row.inv !in p.receipts)
      && (row.status in {Completed, Broken} ==>
            row.inv in p.receipts && p.receipts[row.inv].ok == (row.status == Completed))
  {
    Reachable(actions);
    assert Shown(After(NEW_RUN, actions).events, After(NEW_RUN, actions).rows[i]);
  }

  lemma {:induction false} NumberedLog(events: seq<Event>, k: nat)
    requires LegalLog(events) && k < |events|
    ensures events[k].number == k + 1
  {
    if k < |events| - 1 { NumberedLog(events[..|events| - 1], k); }
  }

  predicate Starts(e: Event, inv: Id) {
    e.kind == ToolStarted && e.tool.Some? && e.tool.value.0 == inv
  }

  predicate Ends(e: Event, inv: Id) {
    e.kind != ToolStarted && e.tool.Some? && e.tool.value.0 == inv
  }

  function Count(p: Event -> bool, events: seq<Event>): nat {
    if events == [] then 0 else Count(p, events[..|events| - 1]) + if p(events[|events| - 1]) then 1 else 0
  }

  function StartsOf(inv: Id): Event -> bool {
    (e: Event) => Starts(e, inv)
  }

  function EndsOf(inv: Id): Event -> bool {
    (e: Event) => Ends(e, inv)
  }

  /** The view last shown has as its attempt the number of starts; there are as many ends, or one fewer
      while the activity is open. */
  predicate CountsAgree(seen: Option<View>, starts: nat, ends: nat) {
    if seen.None? then starts == ends == 0
    else starts == seen.value.attempt && ends == starts - if seen.value.status == Open then 1 else 0
  }

  lemma {:induction false} LegalCounts(events: seq<Event>, inv: Id)
    requires LegalLog(events)
    ensures CountsAgree(Reader(events, inv), Count(StartsOf(inv), events), Count(EndsOf(inv), events))
  {
    if events != [] { LegalCounts(events[..|events| - 1], inv); }
  }

  /** After any transactions, at every point of the log: the attempt shown is the number of starts so far;
      and a row's attempt is the number of starts in the whole log. */
  lemma AttemptsAreStarts(actions: seq<Action>, n: nat, inv: Id)
    requires n <= |After(NEW_RUN, actions).events|
    ensures var p := After(NEW_RUN, actions);
      && CountsAgree(Reader(p.events[..n], inv), Count(StartsOf(inv), p.events[..n]), Count(EndsOf(inv), p.events[..n]))
      && Count(StartsOf(inv), p.events) == if Find(p.rows, inv) < |p.rows| then p.rows[Find(p.rows, inv)].attempt else 0
  {
    var p := After(NEW_RUN, actions);
    Reachable(actions);
    LegalPrefix(p.events, n);
    LegalCounts(p.events[..n], inv);
    LegalCounts(p.events, inv);
    if Find(p.rows, inv) < |p.rows| { assert Shown(p.events, p.rows[Find(p.rows, inv)]); }
  }

  /** Starts and ends of an invocation strictly alternate at every point of the log. */
  lemma StartsAndEndsAlternate(actions: seq<Action>, n: nat, inv: Id)
    requires n <= |After(NEW_RUN, actions).events|
    ensures var log := After(NEW_RUN, actions).events[..n];
      Count(EndsOf(inv), log) <= Count(StartsOf(inv), log) <= Count(EndsOf(inv), log) + 1
  {
    AttemptsAreStarts(actions, n, inv);
  }

  lemma {:induction false} LegalPrefix(events: seq<Event>, n: nat)
    requires LegalLog(events) && n <= |events|
    ensures LegalLog(events[..n])
  {
    if n < |events| {
      assert events[..|events| - 1][..n] == events[..n];
      LegalPrefix(events[..|events| - 1], n);
    } else {
      assert events[..n] == events;
    }
  }

  // ---------------------------------------------------------------- who is refused

  /** Which calls reach the tool endpoint. */
  type Calls = (Id, Call) -> bool

  ghost predicate Only(sent: Calls, actions: seq<Action>) {
    forall a :: a in actions && (a.StartTool? || a.CompleteTool?) ==> sent(a.inv, a.call)
  }

  ghost predicate KnowsOnly(sent: Calls, p: Progress) {
    && (forall i :: 0 <= i < |p.rows| ==> sent(p.rows[i].inv, p.rows[i].call))
    && (forall inv :: inv in p.receipts ==> sent(inv, p.receipts[inv].call))
  }

  lemma {:induction false} InterruptCalls(p: Progress, k: nat, reason: string)
    requires k <= |p.rows|
    ensures InterruptFirst(p, k, reason).receipts == p.receipts
    ensures forall i :: 0 <= i < |p.rows| ==>
      InterruptFirst(p, k, reason).rows[i].inv == p.rows[i].inv
        && InterruptFirst(p, k, reason).rows[i].call == p.rows[i].call
  {
    if k > 0 { InterruptCalls(p, k - 1, reason); }
  }

  lemma InterruptKnows(sent: Calls, p: Progress, reason: string)
    requires KnowsOnly(sent, p)
    ensures KnowsOnly(sent, InterruptOpen(p, reason))
  {
    InterruptCalls(p, |p.rows|, reason);
  }

  lemma RunActKnows(sent: Calls, p: Progress, a: Action)
    requires KnowsOnly(sent, p) && !a.StartTool? && !a.CompleteTool? && !a.InterruptTool?
    ensures KnowsOnly(sent, Do(p, a))
  {
    match a
    case Begin(_) => InterruptKnows(sent, p, "WORKER_RESTARTED");
    case Pause => InterruptKnows(sent, p.(state := Waiting), "WAITING_INPUT");
    case Retry => InterruptKnows(sent, p, "RETRY_PENDING");
    case Close(_) => InterruptKnows(sent, p, "RUN_CLOSED");
    case Requeue =>
  }

  lemma ToolActKnows(sent: Calls, p: Progress, a: Action)
    requires KnowsOnly(sent, p) && (a.StartTool? || a.CompleteTool? || a.InterruptTool?)
    requires a.StartTool? || a.CompleteTool? ==> sent(a.inv, a.call)
    ensures KnowsOnly(sent, Do(p, a))
  {
  }

  lemma {:induction false} KnowsOnlySent(sent: Calls, actions: seq<Action>)
    requires Only(sent, actions)
    ensures KnowsOnly(sent, After(NEW_RUN, actions))
  {
    if actions != [] {
      var front, last := actions[..|actions| - 1], actions[|actions| - 1];
      KnowsOnlySent(sent, front);
      if last.StartTool? || last.CompleteTool? || last.InterruptTool? {
        ToolActKnows(sent, After(NEW_RUN, front), last);
      } else {
        RunActKnows(sent, After(NEW_RUN, front), last);
      }
    }
  }

  /** Where only such calls arrive and each invocation has one, admission refuses none of them. */
  lemma NeverRefused(sent: Calls, actions: seq<Action>, inv: Id, call: Call)
    requires Only(sent, actions) && forall other :: sent(inv, other) ==> other == call
    ensures !Refuses(After(NEW_RUN, actions), inv, call)
  {
    KnowsOnlySent(sent, actions);
  }
}
