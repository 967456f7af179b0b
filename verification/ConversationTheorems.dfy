/** What the queue of runs guarantees after every sequence of transactions. */
module ConversationTheorems {
  import opened Prelude
  import opened Conversations

  // ---------------------------------------------------------------- invariant

  /** A running or waiting run is the active one, and the active run is open. */
  ghost predicate SlotInv(runs: seq<Run>, active: Option<Id>) {
    && (forall r :: 0 <= r < |runs| && runs[r].status in {Running, Waiting} ==> active == Some(r))
    && (active.Some? ==> active.value < |runs| && Open(runs[active.value].status))
  }

  /** Nobody queues while the slot is empty. */
  ghost predicate BusyInv(runs: seq<Run>, active: Option<Id>) {
    active.None? ==> forall r :: 0 <= r < |runs| ==> runs[r].status != Queued
  }

  function Marks(runs: seq<Run>): (m: seq<nat>)
    ensures |m| == |runs| && forall r {:trigger m[r]} :: 0 <= r < |runs| ==> m[r] == runs[r].inputThrough
  {
    Map((r: Run) => r.inputThrough, runs)
  }

  /** Messages are numbered 1, 2, ... */
  ghost predicate NumberedInv(messages: seq<Message>, nextSeq: nat) {
    nextSeq == |messages| + 1 && forall i :: 0 <= i < |messages| ==> messages[i].number == i + 1
  }

  /** Message m is the user's, of the run whose mark it is. */
  predicate First(messages: seq<Message>, mark: nat, r: Id) {
    1 <= mark <= |messages| && messages[mark - 1].role == User && messages[mark - 1].run == r
  }

  ghost predicate MarksInv(messages: seq<Message>, marks: seq<nat>) {
    && (forall r :: 0 <= r < |marks| ==> First(messages, marks[r], r))
    && (forall q, r :: 0 <= q < r < |marks| ==> marks[q] < marks[r])
  }

  /** The message belongs to a run, and the run's mark is not behind it. */
  predicate Owned(m: Message, marks: seq<nat>) {
    m.run < |marks| && marks[m.run] <= m.number
  }

  ghost predicate OwnersInv(messages: seq<Message>, marks: seq<nat>) {
    forall i :: 0 <= i < |messages| ==> Owned(messages[i], marks)
  }

  function Replies(messages: seq<Message>, r: Id): nat {
    if messages == [] then 0
    else
      var last := messages[|messages| - 1];
      Replies(messages[..|messages| - 1], r) + if last.role == Assistant && last.run == r then 1 else 0
  }

  predicate Answered(runs: seq<Run>, r: Id) {
    r < |runs| && runs[r].status == Succeeded
  }

  ghost predicate RepliesInv(messages: seq<Message>, runs: seq<Run>) {
    forall r: Id :: Replies(messages, r) == if Answered(runs, r) then 1 else 0
  }

  /** Dedup keys are used once; a queued run that is not active has never been scheduled. */
  ghost predicate ScheduleInv(scheduled: seq<(Id, nat)>, nextSeq: nat, runs: seq<Run>, active: Option<Id>) {
    && Distinct(scheduled)
    && (forall i :: 0 <= i < |scheduled| ==> scheduled[i].0 < |runs| && scheduled[i].1 <= nextSeq)
    && (forall i :: 0 <= i < |scheduled| && runs[scheduled[i].0].status == Queued ==> active == Some(scheduled[i].0))
  }

  /** Rows are inserted with a rising clock. */
  ghost predicate ClockOrdered(runs: seq<Run>) {
    forall q, r :: 0 <= q < r < |runs| ==> runs[q].created < runs[r].created
  }

  ghost predicate OrderInv(runs: seq<Run>, active: Option<Id>) {
    active.Some? && ClockOrdered(runs) ==> forall q :: 0 <= q < active.value && q < |runs| ==> !Open(runs[q].status)
  }

  ghost predicate MessagesInv(c: Conversation) {
    NumberedInv(c.messages, c.nextSeq) && MarksInv(c.messages, Marks(c.runs)) && OwnersInv(c.messages, Marks(c.runs))
  }

  ghost predicate RunsInv(c: Conversation) {
    && SlotInv(c.runs, c.active) && RepliesInv(c.messages, c.runs)
    && ScheduleInv(c.scheduled, c.nextSeq, c.runs, c.active) && OrderInv(c.runs, c.active)
  }

  ghost predicate Inv(c: Conversation) {
    MessagesInv(c) && RunsInv(c) && BusyInv(c.runs, c.active)
  }

  // ---------------------------------------------------------------- promotion

  lemma {:induction false} FirstQueuedIsFirst(runs: seq<Run>, k: nat)
    requires k <= |runs|
    ensures FirstQueued(runs, k).None? ==> forall r :: 0 <= r < k ==> runs[r].status != Queued
    ensures FirstQueued(runs, k).Some? ==> forall r :: 0 <= r < k && runs[r].status == Queued ==>
      !Earlier(runs, r, FirstQueued(runs, k).value)
  {
    if k > 0 { FirstQueuedIsFirst(runs, k - 1); }
  }

  lemma PromoteSchedule(c: Conversation, next: Id)
    requires ScheduleInv(c.scheduled, c.nextSeq, c.runs, c.active) && c.active.None? && next < |c.runs|
      && c.runs[next].status == Queued
    ensures ScheduleInv(ScheduleRun(c, next).scheduled, c.nextSeq, c.runs, Some(next))
  {
    forall i | 0 <= i < |c.scheduled| ensures c.scheduled[i].0 != next {
      assert c.runs[c.scheduled[i].0].status != Queued;
    }
  }

  lemma QueuedLater(runs: seq<Run>, q: Id, next: Id)
    requires q < next < |runs| && runs[q].created < runs[next].created
    requires runs[q].status == Queued ==> !Earlier(runs, q, next)
    ensures runs[q].status != Queued
  {
  }

  lemma PromoteOrder(runs: seq<Run>, next: Id)
    requires FirstQueued(runs, |runs|) == Some(next) && SlotInv(runs, None)
    ensures OrderInv(runs, Some(next))
  {
    FirstQueuedIsFirst(runs, |runs|);
    if ClockOrdered(runs) {
      forall q | 0 <= q < next ensures !Open(runs[q].status) {
        QueuedLater(runs, q, next);
      }
    }
  }

  lemma PromoteKeeps(c: Conversation)
    requires MessagesInv(c) && RunsInv(c)
    ensures Inv(Promote(c))
  {
    var next := FirstQueued(c.runs, |c.runs|);
    if c.active.Some? {
      assert Promote(c) == c;
    } else if next.None? {
      assert Promote(c) == c;
      FirstQueuedIsFirst(c.runs, |c.runs|);
    } else {
      var d := ScheduleRun(c, next.value);
      assert Promote(c) == d && d == c.(scheduled := d.scheduled, active := Some(next.value));
      PromoteSchedule(c, next.value);
      PromoteOrder(c.runs, next.value);
    }
  }

  // ---------------------------------------------------------------- one more message

  lemma RepliesAppend(messages: seq<Message>, m: Message, r: Id)
    ensures Replies(messages + [m], r) == Replies(messages, r) + if m.role == Assistant && m.run == r then 1 else 0
  {
    assert (messages + [m])[..|messages|] == messages;
  }

  lemma AppendMarks(messages: seq<Message>, m: Message, marks: seq<nat>)
    requires MarksInv(messages, marks)
    ensures MarksInv(messages + [m], marks)
  {
    forall r | 0 <= r < |marks| ensures First(messages + [m], marks[r], r) {
      assert First(messages, marks[r], r);
    }
  }

  lemma AppendOwners(messages: seq<Message>, m: Message, marks: seq<nat>)
    requires OwnersInv(messages, marks) && MarksInv(messages, marks) && m.run < |marks| && m.number == |messages| + 1
    ensures OwnersInv(messages + [m], marks)
  {
    assert First(messages, marks[m.run], m.run);
  }

  lemma AppendKeepsMessages(c: Conversation, role: Role, content: string, run: Id)
    requires MessagesInv(c) && run < |c.runs|
    ensures MessagesInv(AppendMessage(c, role, content, run))
  {
    var m := Message(c.nextSeq, role, content, run);
    AppendMarks(c.messages, m, Marks(c.runs));
    AppendOwners(c.messages, m, Marks(c.runs));
  }

  /** A user's message on an existing run. */
  lemma AppendKeeps(c: Conversation, content: string, run: Id)
    requires Inv(c) && run < |c.runs|
    ensures Inv(AppendMessage(c, User, content, run))
  {
    var d := AppendMessage(c, User, content, run);
    AppendKeepsMessages(c, User, content, run);
    forall r: Id ensures Replies(d.messages, r) == Replies(c.messages, r) {
      RepliesAppend(c.messages, Message(c.nextSeq, User, content, run), r);
    }
  }

  // ---------------------------------------------------------------- one row changed

  lemma SameMarks(runs: seq<Run>, r: Id, row: Run)
    requires r < |runs| && row.inputThrough == runs[r].inputThrough
    ensures Marks(runs[r := row]) == Marks(runs)
  {
  }

  lemma ClockSame(a: seq<Run>, b: seq<Run>)
    requires ClockOrdered(b) && |a| <= |b| && forall r :: 0 <= r < |a| ==> a[r].created == b[r].created
    ensures ClockOrdered(a)
  {
    forall q, r | 0 <= q < r < |a| ensures a[q].created < a[r].created {
      assert b[q].created < b[r].created;
    }
  }

  /** The active run's row changes but stays open. */
  lemma RowKeeps(c: Conversation, r: Id, row: Run)
    requires Inv(c) && c.active == Some(r) && Open(row.status)
    requires row.created == c.runs[r].created && row.inputThrough == c.runs[r].inputThrough
    ensures Inv(With(c, r, row))
  {
    var runs := c.runs[r := row];
    SameMarks(c.runs, r, row);
    assert RepliesInv(c.messages, runs) by {
      forall q: Id ensures Answered(runs, q) == Answered(c.runs, q) {}
    }
    assert OrderInv(runs, c.active) by {
      if ClockOrdered(runs) { ClockSame(c.runs, runs); }
    }
    RowSchedule(c, r, row);
  }

  lemma RowSchedule(c: Conversation, r: Id, row: Run)
    requires ScheduleInv(c.scheduled, c.nextSeq, c.runs, c.active) && c.active == Some(r) && r < |c.runs|
    ensures ScheduleInv(c.scheduled, c.nextSeq, c.runs[r := row], c.active)
  {
  }

  // ---------------------------------------------------------------- closing

  lemma ClosedSchedule(c: Conversation, r: Id, row: Run)
    requires ScheduleInv(c.scheduled, c.nextSeq, c.runs, c.active) && r < |c.runs| && row.status != Queued
    ensures ScheduleInv(c.scheduled, c.nextSeq, c.runs[r := row], if c.active == Some(r) then None else c.active)
  {
  }

  lemma ClosedOrder(runs: seq<Run>, r: Id, row: Run, active: Option<Id>)
    requires OrderInv(runs, active) && r < |runs| && row.created == runs[r].created && !Open(row.status)
    ensures OrderInv(runs[r := row], if active == Some(r) then None else active)
  {
    if active.Some? && active != Some(r) && ClockOrdered(runs[r := row]) { ClockSame(runs, runs[r := row]); }
  }

  /** Closing run r frees the slot for the next one. */
  lemma CloseKeeps(c: Conversation, r: Id, status: Status)
    requires MessagesInv(c) && SlotInv(c.runs, c.active) && r < |c.runs| && status in {Succeeded, Failed, Cancelled}
    requires ScheduleInv(c.scheduled, c.nextSeq, c.runs, c.active) && OrderInv(c.runs, c.active)
    requires RepliesInv(c.messages, c.runs[r := c.runs[r].(status := status)])
    ensures Inv(CloseRun(c, r, status))
  {
    var row := c.runs[r].(status := status);
    var closed := With(c, r, row);
    var d := if c.active == Some(r) then closed.(active := None) else closed;
    SameMarks(c.runs, r, row);
    ClosedSchedule(c, r, row);
    ClosedOrder(c.runs, r, row, c.active);
    assert SlotInv(d.runs, d.active);
    PromoteKeeps(d);
  }

  lemma FailedReplies(c: Conversation, r: Id, status: Status)
    requires RepliesInv(c.messages, c.runs) && r < |c.runs| && c.runs[r].status != Succeeded && status != Succeeded
    ensures RepliesInv(c.messages, c.runs[r := c.runs[r].(status := status)])
  {
    forall q: Id ensures Answered(c.runs[r := c.runs[r].(status := status)], q) == Answered(c.runs, q) {}
  }

  lemma FailKeeps(c: Conversation, r: Id, status: Status)
    requires Inv(c) && r < |c.runs| && c.runs[r].status != Succeeded && status in {Failed, Cancelled}
    ensures Inv(CloseRun(c, r, status))
  {
    FailedReplies(c, r, status);
    CloseKeeps(c, r, status);
  }

  lemma AnsweredReplies(c: Conversation, m: Message, r: Id)
    requires RepliesInv(c.messages, c.runs) && r < |c.runs| && c.runs[r].status == Running && m.role == Assistant
      && m.run == r
    ensures RepliesInv(c.messages + [m], c.runs[r := c.runs[r].(status := Succeeded)])
  {
    var runs := c.runs[r := c.runs[r].(status := Succeeded)];
    forall q: Id ensures Replies(c.messages + [m], q) == if Answered(runs, q) then 1 else 0 {
      RepliesAppend(c.messages, m, q);
      assert Answered(runs, q) == (q == r || Answered(c.runs, q));
    }
  }

  lemma FinishKeeps(c: Conversation, r: Id, content: string)
    requires Inv(c) && r < |c.runs| && c.active == Some(r) && c.runs[r].status == Running
    ensures Inv(Do(c, Finish(r, content)).0)
  {
    var e := With(c, r, c.runs[r].(resume := None));
    RowKeeps(c, r, c.runs[r].(resume := None));
    var d := AppendMessage(e, Assistant, content, r);
    AppendKeepsMessages(e, Assistant, content, r);
    AnsweredReplies(e, Message(e.nextSeq, Assistant, content, r), r);
    CloseKeeps(d, r, Succeeded);
  }

  // ---------------------------------------------------------------- sending and resuming

  lemma SendMarks(c: Conversation, row: Run, m: Message)
    requires MessagesInv(c) && row.inputThrough == c.nextSeq && m.role == User && m.run == |c.runs|
      && m.number == c.nextSeq
    ensures var marks := Marks(c.runs + [row]); MarksInv(c.messages + [m], marks) && OwnersInv(c.messages + [m], marks)
  {
    var marks, messages := Marks(c.runs + [row]), c.messages + [m];
    assert marks == Marks(c.runs) + [c.nextSeq];
    AppendMarks(c.messages, m, Marks(c.runs));
    forall r | 0 <= r < |marks| ensures First(messages, marks[r], r) {
      if r < |c.runs| { assert First(messages, Marks(c.runs)[r], r); }
    }
    forall q, r | 0 <= q < r < |marks| ensures marks[q] < marks[r] {
      if r == |c.runs| { assert First(c.messages, Marks(c.runs)[q], q); }
    }
    forall i | 0 <= i < |messages| ensures Owned(messages[i], marks) {
      if i < |c.messages| { assert Owned(c.messages[i], Marks(c.runs)); }
    }
  }

  lemma SendKeeps(c: Conversation, content: string, created: int, name: Id)
    requires Inv(c)
    ensures Inv(Promote(AppendMessage(
                c.(runs := c.runs + [Run(name, created, c.nextSeq, Queued, None, None)]), User, content, |c.runs|)))
  {
    var row := Run(name, created, c.nextSeq, Queued, None, None);
    var d := AppendMessage(c.(runs := c.runs + [row]), User, content, |c.runs|);
    SendMarks(c, row, Message(c.nextSeq, User, content, |c.runs|));
    assert RepliesInv(d.messages, d.runs) by {
      forall r: Id
        ensures Replies(d.messages, r) == Replies(c.messages, r) && Answered(d.runs, r) == Answered(c.runs, r) {
        RepliesAppend(c.messages, Message(c.nextSeq, User, content, |c.runs|), r);
      }
    }
    assert OrderInv(d.runs, d.active) by {
      if ClockOrdered(d.runs) { ClockSame(c.runs, d.runs); }
    }
    SendSchedule(c, row);
    assert SlotInv(d.runs, d.active);
    PromoteKeeps(d);
  }

  lemma SendSchedule(c: Conversation, row: Run)
    requires ScheduleInv(c.scheduled, c.nextSeq, c.runs, c.active)
    ensures ScheduleInv(c.scheduled, c.nextSeq + 1, c.runs + [row], c.active)
  {
  }

  /** Scheduling the active run again after a new message uses a key that is new. */
  lemma RescheduleKeeps(c: Conversation, r: Id)
    requires Inv(c) && c.active == Some(r) && (forall i :: 0 <= i < |c.scheduled| ==> c.scheduled[i].1 < c.nextSeq)
    ensures Inv(ScheduleRun(c, r))
  {
    var scheduled := c.scheduled + [(r, c.nextSeq)];
    assert ScheduleInv(scheduled, c.nextSeq, c.runs, c.active);
  }

  lemma ResumeKeeps(c: Conversation, r: Id, interrupt: nat, content: string, stop: bool, key: Id)
    requires Inv(c) && r < |c.runs| && c.runs[r].status == Waiting
    ensures var told := AppendMessage(c, User, content, r);
      && Inv(CloseRun(told, r, Cancelled))
      && Inv(ScheduleRun(With(told, r, c.runs[r].(resume := Some(content), status := Queued)), r))
  {
    var told, row := AppendMessage(c, User, content, r), c.runs[r].(resume := Some(content), status := Queued);
    AppendKeeps(c, content, r);
    FailKeeps(told, r, Cancelled);
    RowKeeps(told, r, row);
    RescheduleKeeps(With(told, r, row), r);
  }

  // ---------------------------------------------------------------- every transaction

  lemma RecordKeeps(c: Conversation, owner: Owner, key: Id, content: Content, reply: Reply)
    requires Inv(c)
    ensures Inv(Record(c, owner, key, content, reply).0)
  {
  }

  lemma ResumeRunKeeps(c: Conversation, r: Id, interrupt: nat, content: string, stop: bool, key: Id)
    requires Inv(c) && r < |c.runs|
    ensures Inv(ResumeRun(c, r, interrupt, content, stop, key).0)
  {
    if Replay(c, Answers(r), key, Content(interrupt, content)).None? && c.runs[r].status == Waiting
       && c.runs[r].interrupt == Some(interrupt) {
      ResumeKeeps(c, r, interrupt, content, stop, key);
      var told := AppendMessage(c, User, content, r);
      RecordKeeps(if stop then CloseRun(told, r, Cancelled)
                  else ScheduleRun(With(told, r, c.runs[r].(resume := Some(content), status := Queued)), r),
                  Answers(r), key, Content(interrupt, content), Reply(c.nextSeq, r));
    }
  }

  lemma SendMessageKeeps(c: Conversation, content: string, key: Id, created: int, name: Id)
    requires Inv(c)
    ensures Inv(SendMessage(c, content, key, created, name).0)
  {
    if Replay(c, Messages, key, Content(0, content)).None? {
      SendKeeps(c, content, created, name);
      var row := Run(name, created, c.nextSeq, Queued, None, None);
      RecordKeeps(Promote(AppendMessage(c.(runs := c.runs + [row]), User, content, |c.runs|)),
                  Messages, key, Content(0, content), Reply(c.nextSeq, |c.runs|));
    }
  }

  lemma HandlerKeeps(c: Conversation, a: Action)
    requires Inv(c) && (a.Start? || a.Pause? || a.Finish? || a.Fail?) && a.run < |c.runs| && Do(c, a).1.Ok?
    ensures Inv(Do(c, a).0)
  {
    match a
    case Start(r) => RowKeeps(c, r, c.runs[r].(status := Running));
    case Pause(r, interrupt) =>
      RowKeeps(c, r, c.runs[r].(status := Waiting, interrupt := Some(interrupt), resume := None));
    case Finish(r, content) => FinishKeeps(c, r, content);
    case Fail(r) => FailKeeps(c, r, Failed);
  }

  lemma DoKeeps(c: Conversation, a: Action)
    requires Inv(c)
    ensures Inv(Do(c, a).0)
  {
    if a.Send? {
      SendMessageKeeps(c, a.content, a.key, a.created, a.name);
    } else if a.run < |c.runs| {
      if a.Resume? {
        ResumeRunKeeps(c, a.run, a.interrupt, a.content, a.stop, a.key);
      } else if a.Cancel? {
        if Open(c.runs[a.run].status) { FailKeeps(c, a.run, Cancelled); }
      } else if Do(c, a).1.Ok? {
        HandlerKeeps(c, a);
      }
    }
  }

  lemma {:induction false} Reachable(actions: seq<Action>)
    ensures Inv(After(NEW_CONVERSATION, actions))
  {
    if actions == [] {
      forall r: Id ensures Replies([], r) == 0 {}
    } else {
      Reachable(actions[..|actions| - 1]);
      DoKeeps(After(NEW_CONVERSATION, actions[..|actions| - 1]), actions[|actions| - 1]);
    }
  }

  // ---------------------------------------------------------------- guarantees

  /** At most one run works or waits, and it is the active one; while the slot is empty nobody queues. */
  lemma SlotIsUsed(actions: seq<Action>, r: Id)
    requires r < |After(NEW_CONVERSATION, actions).runs|
    ensures var c := After(NEW_CONVERSATION, actions);
      && (c.runs[r].status in {Running, Waiting} ==> c.active == Some(r))
      && (c.runs[r].status == Queued ==> c.active.Some?)
      && (c.active.Some? ==> c.active.value < |c.runs| && Open(c.runs[c.active.value].status))
  {
    Reachable(actions);
  }

  /** Run r waits, and no waiting run comes before it by (created_at, id). */
  ghost predicate FirstInQueue(runs: seq<Run>, r: Id) {
    && r < |runs| && runs[r].status == Queued
    && forall q :: 0 <= q < |runs| && runs[q].status == Queued ==>
         runs[r].created < runs[q].created || (runs[r].created == runs[q].created && runs[r].name <= runs[q].name)
  }

  lemma ActivatesFirst(c: Conversation, a: Action)
    requires SlotInv(c.runs, c.active)
    ensures var d := Do(c, a).0; d.active.Some? && d.active != c.active ==> FirstInQueue(d.runs, d.active.value)
  {
    var d := Do(c, a).0;
    FirstQueuedIsFirst(d.runs, |d.runs|);
  }

  /** Whatever the clocks: a transaction that makes another run active has activated the first in the queue.
      With a rising clock every run before the active one is closed: activation is in creation order. */
  lemma ActivationInOrder(actions: seq<Action>, a: Action)
    ensures var c := After(NEW_CONVERSATION, actions);
      var d := Do(c, a).0;
      && (d.active.Some? && d.active != c.active ==> FirstInQueue(d.runs, d.active.value))
      && (c.active.Some? && ClockOrdered(c.runs) ==>
            forall q :: 0 <= q < c.active.value && q < |c.runs| ==> !Open(c.runs[q].status))
  {
    Reachable(actions);
    ActivatesFirst(After(NEW_CONVERSATION, actions), a);
  }

  /** A run has exactly one assistant message if it succeeded, and none otherwise. */
  lemma OneAnswerIffSucceeded(actions: seq<Action>, r: Id)
    ensures var c := After(NEW_CONVERSATION, actions);
      Replies(c.messages, r) == if r < |c.runs| && c.runs[r].status == Succeeded then 1 else 0
  {
    Reachable(actions);
  }

  /** Every scheduling uses a dedup key that was never used before, so no wake-up is swallowed. */
  lemma KeysAreFresh(actions: seq<Action>, i: nat, j: nat)
    requires i < j < |After(NEW_CONVERSATION, actions).scheduled|
    ensures After(NEW_CONVERSATION, actions).scheduled[i] != After(NEW_CONVERSATION, actions).scheduled[j]
  {
    Reachable(actions);
  }

  /** The run's mark is the number of its own first message, and nothing of the run comes before it. */
  ghost predicate OpenedBy(messages: seq<Message>, runs: seq<Run>, r: Id) {
    && r < |runs| && First(messages, runs[r].inputThrough, r)
    && messages[runs[r].inputThrough - 1].number == runs[r].inputThrough
    && (forall i :: 0 <= i < runs[r].inputThrough - 1 && i < |messages| ==> messages[i].run != r)
    && (forall q :: 0 <= q < r ==> runs[q].inputThrough < runs[r].inputThrough)
  }

  lemma MarkFacts(messages: seq<Message>, nextSeq: nat, runs: seq<Run>, r: Id)
    requires NumberedInv(messages, nextSeq) && MarksInv(messages, Marks(runs)) && OwnersInv(messages, Marks(runs))
      && r < |runs|
    ensures OpenedBy(messages, runs, r)
  {
    var marks := Marks(runs);
    assert First(messages, marks[r], r);
    forall i | 0 <= i < marks[r] - 1 ensures messages[i].run != r {
      assert Owned(messages[i], marks);
    }
    forall q | 0 <= q < r ensures runs[q].inputThrough < runs[r].inputThrough {
      assert marks[q] < marks[r];
    }
  }

  /** Marks rise with the runs, and each is the number of the message that opened its run. */
  lemma MarkIsFirstMessage(actions: seq<Action>, r: Id)
    requires r < |After(NEW_CONVERSATION, actions).runs|
    ensures var c := After(NEW_CONVERSATION, actions); OpenedBy(c.messages, c.runs, r)
  {
    var c := After(NEW_CONVERSATION, actions);
    Reachable(actions);
    MarkFacts(c.messages, c.nextSeq, c.runs, r);
  }

  lemma ReceiptsStay(c: Conversation, a: Action, k: (Owner, Id))
    requires k in c.receipts
    ensures k in Do(c, a).0.receipts && Do(c, a).0.receipts[k] == c.receipts[k]
  {
  }

  lemma {:induction false} ReceiptsStayAfter(c: Conversation, actions: seq<Action>, k: (Owner, Id))
    requires k in c.receipts
    ensures k in After(c, actions).receipts && After(c, actions).receipts[k] == c.receipts[k]
  {
    if actions != [] {
      ReceiptsStayAfter(c, actions[..|actions| - 1], k);
      ReceiptsStay(After(c, actions[..|actions| - 1]), actions[|actions| - 1], k);
    }
  }

  lemma AcceptedRecorded(c: Conversation, a: Action)
    requires (a.Send? || a.Resume?) && Do(c, a).1.Ok?
    ensures var owner := if a.Send? then Messages else Answers(a.run);
      var content := if a.Send? then Content(0, a.content) else Content(a.interrupt, a.content);
      (owner, a.key) in Do(c, a).0.receipts && Do(c, a).0.receipts[(owner, a.key)] == (content, Do(c, a).1.value)
  {
  }

  /** Sending a message, or answering a question, again under its key answers as the first time and
      changes nothing, whatever has happened since. */
  lemma RetryIsHarmless(c: Conversation, a: Action, later: seq<Action>, retry: Action)
    requires Do(c, a).1.Ok?
    requires (a.Send? && retry.Send? && retry.content == a.content && retry.key == a.key)
             || (a.Resume? && retry.Resume? && retry.run == a.run && retry.interrupt == a.interrupt
                   && retry.content == a.content && retry.key == a.key)
    ensures var d := After(Do(c, a).0, later); Do(d, retry) == (d, Do(c, a).1)
  {
    var owner := if a.Send? then Messages else Answers(a.run);
    AcceptedRecorded(c, a);
    ReceiptsStayAfter(Do(c, a).0, later, (owner, a.key));
    if a.Resume? { RunsStay(c, a, later); }
  }

  lemma RunsGrow(c: Conversation, a: Action)
    ensures |Do(c, a).0.runs| >= |c.runs|
  {
  }

  lemma {:induction false} RunsStay(c: Conversation, a: Action, later: seq<Action>)
    requires a.Resume? && Do(c, a).1.Ok?
    ensures a.run < |After(Do(c, a).0, later).runs|
  {
    if later == [] {
      RunsGrow(c, a);
    } else {
      RunsStay(c, a, later[..|later| - 1]);
      RunsGrow(After(Do(c, a).0, later[..|later| - 1]), later[|later| - 1]);
    }
  }
}
