/** The progress log of one agent run: an append-only event log beside the tool activity rows.
    Tool admission and completion are modelled behind their token check; times are left out. */
module RunProgress {
  import opened Prelude

  type Id = string

  datatype RunState = Queued | Running | Waiting | Succeeded | Failed | Cancelled

  datatype Status = Open | Completed | Broken | Interrupted

  /** Tool and arguments, as the signature of a call. */
  datatype Call = Call(tool: Id, args: string)

  datatype Activity = Activity(inv: Id, call: Call, attempt: nat, lease: Id, status: Status, references: seq<Id>,
    error: Option<string>)

  /** The public part of an activity. */
  datatype View = View(tool: Id, attempt: nat, status: Status, references: seq<Id>, error: Option<string>)

  datatype Kind =
    | RunQueued | RunStarted | RunWaiting | RunClosed(state: RunState)
    | ToolStarted | ToolCompleted | ToolFailed | ToolInterrupted

  datatype Event = Event(number: nat, kind: Kind, tool: Option<(Id, View)>)

  datatype Receipt = Receipt(call: Call, ok: bool)

  datatype Progress = Progress(state: RunState, last: nat, events: seq<Event>, rows: seq<Activity>,
    receipts: map<Id, Receipt>, lease: Id)

  const NEW_RUN := Progress(Queued, 1, [Event(1, RunQueued, None)], [], map[], "")

  function ViewOf(a: Activity): View {
    View(a.call.tool, a.attempt, a.status, a.references, a.error)
  }

  function Append(p: Progress, kind: Kind, tool: Option<(Id, View)>): Progress {
    p.(last := p.last + 1, events := p.events + [Event(p.last + 1, kind, tool)])
  }

  function EndKind(status: Status): Kind {
    match status
    case Completed => ToolCompleted
    case Broken => ToolFailed
    case _ => ToolInterrupted
  }

  function Find(rows: seq<Activity>, inv: Id): (i: nat)
    ensures i <= |rows|
    ensures i < |rows| ==> rows[i].inv == inv
    ensures forall j :: 0 <= j < i ==> rows[j].inv != inv
  {
    if rows == [] || rows[0].inv == inv then 0 else 1 + Find(rows[1..], inv)
  }

  /** finish: only an open activity ends, with one event. */
  function Finish(p: Progress, i: nat, status: Status, references: seq<Id>, error: Option<string>): Progress
    requires i < |p.rows| && status != Open
  {
    if p.rows[i].status != Open then p
    else
      var row := p.rows[i].(status := status, references := references, error := error);
      Append(p.(rows := p.rows[i := row]), EndKind(status), Some((row.inv, ViewOf(row))))
  }

  /** The open ones among the first k rows are interrupted, in table order. */
  function InterruptFirst(p: Progress, k: nat, reason: string): (q: Progress)
    requires k <= |p.rows|
    ensures |q.rows| == |p.rows|
  {
    if k == 0 then p else Finish(InterruptFirst(p, k - 1, reason), k - 1, Interrupted, [], Some(reason))
  }

  function InterruptOpen(p: Progress, reason: string): Progress {
    InterruptFirst(p, |p.rows|, reason)
  }

  // ---------------------------------------------------------------- transactions

  datatype Action =
    | Begin(lease: Id)
    | Pause
    | Retry
    | Requeue
    | Close(state: RunState)
    | StartTool(inv: Id, call: Call)
    | CompleteTool(inv: Id, call: Call, ok: bool, references: seq<Id>, code: string)
    | InterruptTool(inv: Id)

  predicate Closing(state: RunState) {
    state in {Succeeded, Failed, Cancelled}
  }

  function Started(p: Progress, inv: Id, call: Call): Progress {
    var i := Find(p.rows, inv);
    var stopped := if i < |p.rows| then Finish(p, i, Interrupted, [], Some("WORKER_RESTARTED")) else p;
    var row := Activity(inv, call, if i < |p.rows| then p.rows[i].attempt + 1 else 1, p.lease, Open, [], None);
    var rows := if i < |p.rows| then stopped.rows[i := row] else stopped.rows + [row];
    Append(stopped.(rows := rows), ToolStarted, Some((inv, ViewOf(row))))
  }

  /** start_tool answers 409: the invocation is known with other arguments. */
  predicate Refuses(p: Progress, inv: Id, call: Call) {
    var i := Find(p.rows, inv);
    if inv in p.receipts then p.receipts[inv].call != call else i < |p.rows| && p.rows[i].call != call
  }

  /** start_tool: a recorded result or the same worker's open start answers; changed arguments are refused. */
  function StartToolOn(p: Progress, inv: Id, call: Call): Progress {
    var i := Find(p.rows, inv);
    if p.state != Running || inv in p.receipts then p
    else if i < |p.rows| && (p.rows[i].call != call || (p.rows[i].status == Open && p.rows[i].lease == p.lease)) then p
    else Started(p, inv, call)
  }

  /** The result and the end of the activity are one transaction. */
  function CompleteToolOn(p: Progress, inv: Id, call: Call, ok: bool, references: seq<Id>, code: string): Progress {
    var i := Find(p.rows, inv);
    if p.state != Running || inv in p.receipts then p
    else
      var recorded := p.(receipts := p.receipts[inv := Receipt(call, ok)]);
      if i == |p.rows| then recorded
      else Finish(recorded, i, if ok then Completed else Broken, references, if ok then None else Some(code))
  }

  function Do(p: Progress, a: Action): Progress {
    match a
    case Begin(lease) =>
      if p.state !in {Queued, Running} then p
      else Append(InterruptOpen(p, "WORKER_RESTARTED").(state := Running, lease := lease), RunStarted, None)
    case Pause =>
      if p.state != Running then p else Append(InterruptOpen(p.(state := Waiting), "WAITING_INPUT"), RunWaiting, None)
    case Retry => if p.state != Running then p else InterruptOpen(p, "RETRY_PENDING")
    case Requeue => if p.state != Waiting then p else Append(p.(state := Queued), RunQueued, None)
    case Close(state) =>
      if Closing(p.state) || !Closing(state) then p
      else Append(InterruptOpen(p, "RUN_CLOSED").(state := state), RunClosed(state), None)
    case StartTool(inv, call) => StartToolOn(p, inv, call)
    case CompleteTool(inv, call, ok, references, code) => CompleteToolOn(p, inv, call, ok, references, code)
    case InterruptTool(inv) =>
      var i := Find(p.rows, inv);
      if p.state != Running || i == |p.rows| then p
      else Finish(p, i, Interrupted, [], Some("TOOL_EXECUTION_INTERRUPTED"))
  }

  function After(p: Progress, actions: seq<Action>): Progress {
    if actions == [] then p else Do(After(p, actions[..|actions| - 1]), actions[|actions| - 1])
  }

  // ---------------------------------------------------------------- reading the log back

  /** What a reader of the log knows about one invocation: the last view it was shown. */
  function Reader(events: seq<Event>, inv: Id): Option<View> {
    if events == [] then None
    else
      var last := events[|events| - 1];
      if last.tool.Some? && last.tool.value.0 == inv then Some(last.tool.value.1)
      else Reader(events[..|events| - 1], inv)
  }

  /** A start opens the next attempt of an invocation that is not open; an end closes the open attempt. */
  predicate Legal(before: Option<View>, e: Event) {
    e.tool.Some? ==>
      var view := e.tool.value.1;
      if view.status == Open then
        e.kind == ToolStarted && (before.None? || before.value.status != Open)
        && view.attempt == (if before.None? then 0 else before.value.attempt) + 1
      else
        before.Some? && before.value.status == Open && before.value.attempt == view.attempt
        && before.value.tool == view.tool && e.kind == EndKind(view.status)
  }

  predicate LegalLog(events: seq<Event>) {
    events == [] ||
    (LegalLog(events[..|events| - 1])
     && var last := events[|events| - 1];
        last.number == |events|
        && (last.tool.Some? ==> Legal(Reader(events[..|events| - 1], last.tool.value.0), last)))
  }
}
