/** One conversation: its messages, its runs behind a single active slot, and the jobs that were
    scheduled for them. Follow-up runs, progress events and job execution are modelled elsewhere; a
    handler's transaction on the active run is an action that the lease fence has let through. */
module Conversations {
  import opened Prelude

  type Id = nat

  datatype Status = Queued | Running | Waiting | Succeeded | Failed | Cancelled

  datatype Role = User | Assistant

  datatype Message = Message(number: nat, role: Role, content: string, run: Id)

  /** A run is referred to by its position in the table; name: its identifier, as the database orders it;
      created: the clock when the row was inserted. */
  datatype Run = Run(name: Id, created: int, inputThrough: nat, status: Status, interrupt: Option<nat>,
    resume: Option<string>)

  datatype Reply = Reply(message: nat, run: Id)

  /** Who used an idempotency key: the conversation for a message, a run for an answer. */
  datatype Owner = Messages | Answers(run: Id)

  datatype Content = Content(interrupt: nat, text: string)

  /** scheduled: the dedup keys (run, next_seq) handed to the scheduler, in order. */
  datatype Conversation = Conversation(
    nextSeq: nat, active: Option<Id>, messages: seq<Message>, runs: seq<Run>, scheduled: seq<(Id, nat)>,
    receipts: map<(Owner, Id), (Content, Reply)>)

  const NEW_CONVERSATION := Conversation(1, None, [], [], [], map[])

  predicate Open(s: Status) {
    s in {Queued, Running, Waiting}
  }

  // ---------------------------------------------------------------- steps of a transaction

  function AppendMessage(c: Conversation, role: Role, content: string, run: Id): Conversation {
    c.(nextSeq := c.nextSeq + 1, messages := c.messages + [Message(c.nextSeq, role, content, run)])
  }

  function ScheduleRun(c: Conversation, run: Id): Conversation {
    c.(scheduled := c.scheduled + [(run, c.nextSeq)], active := Some(run))
  }

  predicate Earlier(runs: seq<Run>, i: Id, j: Id)
    requires i < |runs| && j < |runs|
  {
    runs[i].created < runs[j].created || (runs[i].created == runs[j].created && runs[i].name < runs[j].name)
  }

  /** The queued run that comes first by (created_at, id) among the first k. */
  function FirstQueued(runs: seq<Run>, k: nat): (r: Option<Id>)
    requires k <= |runs|
    ensures r.Some? ==> r.value < k && runs[r.value].status == Queued
  {
    if k == 0 then None
    else
      var best := FirstQueued(runs, k - 1);
      if runs[k - 1].status == Queued && (best.None? || Earlier(runs, k - 1, best.value)) then Some(k - 1) else best
  }

  function Promote(c: Conversation): Conversation {
    var next := FirstQueued(c.runs, |c.runs|);
    if c.active.Some? || next.None? then c else ScheduleRun(c, next.value)
  }

  function With(c: Conversation, run: Id, row: Run): Conversation
    requires run < |c.runs|
  {
    c.(runs := c.runs[run := row])
  }

  function CloseRun(c: Conversation, run: Id, status: Status): Conversation
    requires run < |c.runs|
  {
    var closed := With(c, run, c.runs[run].(status := status));
    Promote(if c.active == Some(run) then closed.(active := None) else closed)
  }

  // ---------------------------------------------------------------- transactions

  datatype Action =
    | Send(content: string, key: Id, created: int, name: Id)
    | Start(run: Id)
    | Pause(run: Id, interrupt: nat)
    | Finish(run: Id, content: string)
    | Fail(run: Id)
    | Resume(run: Id, interrupt: nat, content: string, stop: bool, key: Id)
    | Cancel(run: Id)

  datatype Failure = KeyReused | InterruptMismatch | Inactive | NotFound

  type Outcome = (Conversation, Result<Reply, Failure>)

  /** replay: the recorded answer to this key, or a refusal when the content differs. */
  function Replay(c: Conversation, owner: Owner, key: Id, content: Content): Option<Result<Reply, Failure>> {
    if (owner, key) !in c.receipts then None
    else if c.receipts[(owner, key)].0 == content then Some(Ok(c.receipts[(owner, key)].1))
    else Some(Err(KeyReused))
  }

  function Record(c: Conversation, owner: Owner, key: Id, content: Content, reply: Reply): Outcome {
    (c.(receipts := c.receipts[(owner, key) := (content, reply)]), Ok(reply))
  }

  function SendMessage(c: Conversation, content: string, key: Id, created: int, name: Id): Outcome {
    var replay, run := Replay(c, Messages, key, Content(0, content)), |c.runs|;
    if replay.Some? then (c, replay.value)
    else
      var queued := c.(runs := c.runs + [Run(name, created, c.nextSeq, Queued, None, None)]);
      Record(Promote(AppendMessage(queued, User, content, run)), Messages, key, Content(0, content),
        Reply(c.nextSeq, run))
  }

  /** An answer to the question the run waits with: a stop word closes the run, else it is queued again. */
  function ResumeRun(c: Conversation, r: Id, interrupt: nat, content: string, stop: bool, key: Id): Outcome
    requires r < |c.runs|
  {
    var row, replay := c.runs[r], Replay(c, Answers(r), key, Content(interrupt, content));
    if replay.Some? then (c, replay.value)
    else if row.status != Waiting || row.interrupt != Some(interrupt) then (c, Err(InterruptMismatch))
    else
      var told := AppendMessage(c, User, content, r);
      Record(if stop then CloseRun(told, r, Cancelled)
             else ScheduleRun(With(told, r, row.(resume := Some(content), status := Queued)), r),
             Answers(r), key, Content(interrupt, content), Reply(c.nextSeq, r))
  }

  /** What handlers and users do to run r, which must exist. */
  function OnRun(c: Conversation, a: Action, r: Id): Outcome
    requires r < |c.runs| && !a.Send?
  {
    var row, nothing := c.runs[r], Reply(0, r);
    match a
    case Start(_) =>
      if c.active != Some(r) || row.status !in {Queued, Running} then (c, Err(Inactive))
      else (With(c, r, row.(status := Running)), Ok(nothing))
    case Pause(_, interrupt) =>
      if c.active != Some(r) || row.status != Running then (c, Err(Inactive))
      else (With(c, r, row.(status := Waiting, interrupt := Some(interrupt), resume := None)), Ok(nothing))
    case Finish(_, content) =>
      if c.active != Some(r) || row.status != Running then (c, Err(Inactive))
      else
        var answered := AppendMessage(With(c, r, row.(resume := None)), Assistant, content, r);
        (CloseRun(answered, r, Succeeded), Ok(Reply(c.nextSeq, r)))
    case Fail(_) =>
      if c.active != Some(r) || row.status !in {Queued, Running} then (c, Err(Inactive))
      else (CloseRun(c, r, Failed), Ok(nothing))
    case Resume(_, interrupt, content, stop, key) => ResumeRun(c, r, interrupt, content, stop, key)
    case Cancel(_) => if Open(row.status) then (CloseRun(c, r, Cancelled), Ok(nothing)) else (c, Ok(nothing))
  }

  function Do(c: Conversation, a: Action): Outcome {
    if a.Send? then SendMessage(c, a.content, a.key, a.created, a.name)
    else if a.run < |c.runs| then OnRun(c, a, a.run)
    else (c, Err(NotFound))
  }

  function After(c: Conversation, actions: seq<Action>): Conversation {
    if actions == [] then c else Do(After(c, actions[..|actions| - 1]), actions[|actions| - 1]).0
  }
}
