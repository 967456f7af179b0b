/** What each transaction on a conversation decides and does, said of its rows. */
module ConversationOutcomes {
  import opened Prelude
  import opened Conversations
  import opened ConversationTheorems

  // ---------------------------------------------------------------- the slot

  /** An empty slot goes to the first in the queue, which is scheduled under the next message number; a taken
      slot, or an empty one behind which nobody queues, stays as it is. */
  ghost predicate Filled(active: Option<Id>, scheduled: seq<(Id, nat)>, d: Conversation) {
    if active.None? && d.active.Some? then
      FirstInQueue(d.runs, d.active.value) && d.scheduled == scheduled + [(d.active.value, d.nextSeq)]
    else
      && d.active == active && d.scheduled == scheduled
      && (active.None? ==> forall r :: 0 <= r < |d.runs| ==> d.runs[r].status != Queued)
  }

  lemma PromoteFills(c: Conversation)
    ensures Filled(c.active, c.scheduled, Promote(c))
      && Promote(c) == c.(active := Promote(c).active, scheduled := Promote(c).scheduled)
  {
    FirstQueuedIsFirst(c.runs, |c.runs|);
  }

  /** Run r has this row now; every other run is as it was. */
  ghost predicate OnlyRun(before: seq<Run>, after: seq<Run>, r: Id, row: Run) {
    |after| == |before| && r < |before| && after[r] == row && forall q :: 0 <= q < |before| && q != r ==>
      after[q] == before[q]
  }

  /** The next message has been added. */
  ghost predicate Told(c: Conversation, d: Conversation, role: Role, content: string, run: Id) {
    d.messages == c.messages + [Message(c.nextSeq, role, content, run)] && d.nextSeq == c.nextSeq + 1
  }

  ghost predicate Quiet(c: Conversation, d: Conversation) {
    d.messages == c.messages && d.nextSeq == c.nextSeq
  }

  /** Run r is closed; if it held the slot, the slot is filled again. */
  ghost predicate ClosedBy(c: Conversation, d: Conversation, r: Id, row: Run) {
    OnlyRun(c.runs, d.runs, r, row) && Filled(if c.active == Some(r) then None else c.active, c.scheduled, d)
  }

  lemma CloseCloses(c: Conversation, r: Id, status: Status)
    requires r < |c.runs|
    ensures var d := CloseRun(c, r, status);
      ClosedBy(c, d, r, c.runs[r].(status := status)) && Quiet(c, d) && d.receipts == c.receipts
  {
    var closed := With(c, r, c.runs[r].(status := status));
    PromoteFills(if c.active == Some(r) then closed.(active := None) else closed);
  }

  // ---------------------------------------------------------------- the user's transactions

  /** A key that was used answers as before, or is refused for other content. */
  function Again(c: Conversation, k: (Owner, Id), content: Content): Result<Reply, Failure>
    requires k in c.receipts
  {
    if c.receipts[k].0 == content then Ok(c.receipts[k].1) else Err(KeyReused)
  }

  /** Sending a message under a new key stores it with a new queued run, and fills an empty slot. */
  lemma SendDecides(c: Conversation, content: string, key: Id, created: int, name: Id)
    ensures var (d, answer) := Do(c, Send(content, key, created, name));
      var k := (Messages, key);
      if k in c.receipts then d == c && answer == Again(c, k, Content(0, content))
      else
        && answer == Ok(Reply(c.nextSeq, |c.runs|)) && Told(c, d, User, content, |c.runs|)
        && d.runs == c.runs + [Run(name, created, c.nextSeq, Queued, None, None)]
        && Filled(c.active, c.scheduled, d)
        && d.receipts == c.receipts[k := (Content(0, content), Reply(c.nextSeq, |c.runs|))]
  {
    var queued := c.(runs := c.runs + [Run(name, created, c.nextSeq, Queued, None, None)]);
    PromoteFills(AppendMessage(queued, User, content, |c.runs|));
  }

  /** Answering a question: only the interrupt the run waits with is answered; a stop word closes the run, any
      other answer is kept for it and schedules it again under the next message number. */
  lemma ResumeDecides(c: Conversation, r: Id, interrupt: nat, content: string, stop: bool, key: Id)
    ensures var (d, answer) := Do(c, Resume(r, interrupt, content, stop, key));
      var k := (Answers(r), key);
      if r >= |c.runs| then d == c && answer == Err(NotFound)
      else if k in c.receipts then d == c && answer == Again(c, k, Content(interrupt, content))
      else if c.runs[r].status != Waiting || c.runs[r].interrupt != Some(interrupt)
        then d == c && answer == Err(InterruptMismatch)
      else
        && answer == Ok(Reply(c.nextSeq, r)) && Told(c, d, User, content, r)
        && d.receipts == c.receipts[k := (Content(interrupt, content), Reply(c.nextSeq, r))]
        && if stop then ClosedBy(c, d, r, c.runs[r].(status := Cancelled))
           else
             && OnlyRun(c.runs, d.runs, r, c.runs[r].(status := Queued, resume := Some(content)))
             && d.active == Some(r) && d.scheduled == c.scheduled + [(r, d.nextSeq)]
  {
    if r < |c.runs| {
      CloseCloses(AppendMessage(c, User, content, r), r, Cancelled);
    }
  }

  /** Cancelling closes an open run and leaves a closed one as it is. */
  lemma CancelDecides(c: Conversation, r: Id)
    ensures var (d, answer) := Do(c, Cancel(r));
      if r >= |c.runs| then d == c && answer == Err(NotFound)
      else
        && answer == Ok(Reply(0, r))
        && if c.runs[r].status in {Queued, Running, Waiting}
           then ClosedBy(c, d, r, c.runs[r].(status := Cancelled)) && Quiet(c, d) && d.receipts == c.receipts
           else d == c
  {
    if r < |c.runs| { CloseCloses(c, r, Cancelled); }
  }

  // ---------------------------------------------------------------- the handlers' transactions

  /** What a handler needs: the run exists, is the active one, and in one of these states. */
  function Refusal(c: Conversation, r: Id, states: set<Status>): Option<Failure> {
    if r >= |c.runs| then Some(NotFound)
    else if c.active != Some(r) || c.runs[r].status !in states then Some(Inactive)
    else None
  }

  /** Finishing stores the answer, closes the run as succeeded and fills the slot. */
  lemma FinishDecides(c: Conversation, r: Id, content: string)
    ensures var (d, answer) := Do(c, Finish(r, content));
      var refusal := Refusal(c, r, {Running});
      if refusal.Some? then d == c && answer == Err(refusal.value)
      else
        && answer == Ok(Reply(c.nextSeq, r)) && Told(c, d, Assistant, content, r) && d.receipts == c.receipts
        && ClosedBy(c, d, r, c.runs[r].(status := Succeeded, resume := None))
  {
    if Refusal(c, r, {Running}).None? {
      CloseCloses(AppendMessage(With(c, r, c.runs[r].(resume := None)), Assistant, content, r), r, Succeeded);
    }
  }

  /** Starting, waiting with a question, and failing. */
  lemma HandlersDecide(c: Conversation, r: Id, interrupt: nat)
    ensures var (d, answer) := Do(c, Start(r));
      var refusal := Refusal(c, r, {Queued, Running});
      if refusal.Some? then d == c && answer == Err(refusal.value)
      else d == c.(runs := d.runs) && OnlyRun(c.runs, d.runs, r, c.runs[r].(status := Running)) && answer.Ok?
    ensures var (d, answer) := Do(c, Pause(r, interrupt));
      var refusal := Refusal(c, r, {Running});
      if refusal.Some? then d == c && answer == Err(refusal.value)
      else
        && d == c.(runs := d.runs) && answer.Ok?
        && OnlyRun(c.runs, d.runs, r, c.runs[r].(status := Waiting, interrupt := Some(interrupt), resume := None))
    ensures var (d, answer) := Do(c, Fail(r));
      var refusal := Refusal(c, r, {Queued, Running});
      if refusal.Some? then d == c && answer == Err(refusal.value)
      else ClosedBy(c, d, r, c.runs[r].(status := Failed)) && Quiet(c, d) && d.receipts == c.receipts && answer.Ok?
  {
    if Refusal(c, r, {Queued, Running}).None? { CloseCloses(c, r, Failed); }
  }
}
