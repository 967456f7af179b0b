/** The rows of one conversation, changed in place under its lock, proved against Conversations. */
module ConversationRows {
  import opened Prelude
  import opened Conversations
  import Theorems = ConversationTheorems

  class Rows {
    var nextSeq: nat
    var active: Option<Id>
    var messages: seq<Message>
    var runs: seq<Run>
    var scheduled: seq<(Id, nat)>
    var receipts: map<(Owner, Id), (Content, Reply)>

    constructor ()
      ensures Value() == NEW_CONVERSATION && Good()
    {
      nextSeq, active, messages, runs, scheduled, receipts := 1, None, [], [], [], map[];
      new;
      Theorems.Reachable([]);
    }

    function Value(): Conversation
      reads this
    {
      Conversation(nextSeq, active, messages, runs, scheduled, receipts)
    }

    /** The invariant of the conversation. */
    ghost predicate Good()
      reads this
    {
      Theorems.Inv(Value())
    }

    method AddMessage(role: Role, content: string, run: Id)
      modifies this`nextSeq, this`messages
      ensures Value() == AppendMessage(old(Value()), role, content, run)
    {
      messages := messages + [Message(nextSeq, role, content, run)];
      nextSeq := nextSeq + 1;
    }

    method Schedule(run: Id)
      modifies this`active, this`scheduled
      ensures Value() == ScheduleRun(old(Value()), run)
    {
      scheduled := scheduled + [(run, nextSeq)];
      active := Some(run);
    }

    /** Activate the first queued run by (created_at, id), unless one is active. */
    method PromoteNext()
      modifies this`active, this`scheduled
      ensures Value() == Promote(old(Value()))
      ensures old(active).None? && active.Some? ==> Theorems.FirstInQueue(runs, active.value)
      ensures active.None? ==> forall r :: 0 <= r < |runs| ==> runs[r].status != Queued
    {
      Theorems.FirstQueuedIsFirst(runs, |runs|);
      if active.Some? {
        return;
      }
      var next := Oldest(runs);
      if next.Some? {
        Schedule(next.value);
      }
    }

    static method Oldest(runs: seq<Run>) returns (next: Option<Id>)
      ensures next == FirstQueued(runs, |runs|)
    {
      next := None;
      for r := 0 to |runs|
        invariant next == FirstQueued(runs, r)
      {
        if runs[r].status == Queued && (next.None? || Earlier(runs, r, next.value)) {
          next := Some(r);
        }
      }
    }

    method Close(run: Id, status: Status)
      requires run < |runs|
      modifies this`runs, this`active, this`scheduled
      ensures Value() == CloseRun(old(Value()), run, status)
      ensures active.None? ==> forall r :: 0 <= r < |runs| ==> runs[r].status != Queued
      ensures old(active) == Some(run) && !Open(status) ==> active != Some(run)
      ensures active.Some? && (old(active) == Some(run) || old(active).None?) ==>
        Theorems.FirstInQueue(runs, active.value)
    {
      runs := runs[run := runs[run].(status := status)];
      if active == Some(run) {
        active := None;
      }
      PromoteNext();
    }

    method Recorded(owner: Owner, key: Id, content: Content) returns (answer: Option<Result<Reply, Failure>>)
      ensures answer == Replay(Value(), owner, key, content)
    {
      if (owner, key) in receipts {
        if receipts[(owner, key)].0 != content {
          return Some(Err(KeyReused));
        }
        return Some(Ok(receipts[(owner, key)].1));
      }
      return None;
    }

    method SendUserMessage(content: string, key: Id, created: int, name: Id) returns (answer: Result<Reply, Failure>)
      modifies this
      ensures (Value(), answer) == Do(old(Value()), Send(content, key, created, name))
      ensures answer.Err? ==> Value() == old(Value())
      ensures old(Good()) ==> Good()
    {
      if Good() { Theorems.DoKeeps(Value(), Send(content, key, created, name)); }
      var replay := Recorded(Messages, key, Content(0, content));
      if replay.Some? {
        return replay.value;
      }
      var run, mark := |runs|, nextSeq;
      runs := runs + [Run(name, created, mark, Queued, None, None)];
      AddMessage(User, content, run);
      PromoteNext();
      receipts := receipts[(Messages, key) := (Content(0, content), Reply(mark, run))];
      return Ok(Reply(mark, run));
    }

    method ResumeWith(run: Id, interrupt: nat, content: string, stop: bool, key: Id)
        returns (answer: Result<Reply, Failure>)
      modifies this
      ensures (Value(), answer) == Do(old(Value()), Resume(run, interrupt, content, stop, key))
      ensures answer.Err? ==> Value() == old(Value())
      ensures old(Good()) ==> Good()
    {
      if Good() { Theorems.DoKeeps(Value(), Resume(run, interrupt, content, stop, key)); }
      if run >= |runs| {
        return Err(NotFound);
      }
      var replay := Recorded(Answers(run), key, Content(interrupt, content));
      if replay.Some? {
        return replay.value;
      }
      if runs[run].status != Waiting || runs[run].interrupt != Some(interrupt) {
        return Err(InterruptMismatch);
      }
      var mark := nextSeq;
      AddMessage(User, content, run);
      if stop {
        Close(run, Cancelled);
      } else {
        var row := runs[run].(resume := Some(content));
        row := row.(status := Queued);
        runs := runs[run := row];
        Schedule(run);
      }
      receipts := receipts[(Answers(run), key) := (Content(interrupt, content), Reply(mark, run))];
      return Ok(Reply(mark, run));
    }

    method CancelRun(run: Id) returns (answer: Result<Reply, Failure>)
      modifies this
      ensures (Value(), answer) == Do(old(Value()), Cancel(run))
      ensures answer.Err? ==> Value() == old(Value())
      ensures old(Good()) ==> Good()
    {
      if Good() { Theorems.DoKeeps(Value(), Cancel(run)); }
      if run >= |runs| {
        return Err(NotFound);
      }
      if Open(runs[run].status) {
        Close(run, Cancelled);
      }
      return Ok(Reply(0, run));
    }

    /** apply of a finished run: answer, close, next. */
    method FinishRun(run: Id, content: string) returns (answer: Result<Reply, Failure>)
      modifies this
      ensures (Value(), answer) == Do(old(Value()), Finish(run, content))
      ensures answer.Err? ==> Value() == old(Value())
      ensures old(Good()) ==> Good()
    {
      if Good() { Theorems.DoKeeps(Value(), Finish(run, content)); }
      if run >= |runs| {
        return Err(NotFound);
      }
      if runs[run].status != Running || active != Some(run) {
        return Err(Inactive);
      }
      runs := runs[run := runs[run].(resume := None)];
      var mark := nextSeq;
      AddMessage(Assistant, content, run);
      Close(run, Succeeded);
      return Ok(Reply(mark, run));
    }

    method PauseRun(run: Id, interrupt: nat) returns (answer: Result<Reply, Failure>)
      modifies this`runs
      ensures (Value(), answer) == Do(old(Value()), Pause(run, interrupt))
      ensures answer.Err? ==> Value() == old(Value())
      ensures old(Good()) ==> Good()
    {
      if Good() { Theorems.DoKeeps(Value(), Pause(run, interrupt)); }
      if run >= |runs| {
        return Err(NotFound);
      }
      if runs[run].status != Running || active != Some(run) {
        return Err(Inactive);
      }
      var row := runs[run].(resume := None);
      row := row.(status := Waiting);
      row := row.(interrupt := Some(interrupt));
      runs := runs[run := row];
      return Ok(Reply(0, run));
    }
  }
}
