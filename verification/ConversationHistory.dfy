/** The history of the active run of a conversation. */
module ConversationHistory {
  import opened Prelude
  import Conversations
  import Theorems = ConversationTheorems
  import opened History

  function RowOf(m: Conversations.Message): Row {
    Row(m.number, m.number, if m.role == Conversations.User then User else Assistant, Some(m.run), m.content)
  }

  function RowsOf(c: Conversations.Conversation): seq<Row> {
    Map(RowOf, c.messages)
  }

  /** load_history: the runs that succeeded with a lower mark. */
  function ReaderOf(c: Conversations.Conversation, r: nat): Reader
    requires r < |c.runs|
  {
    Reader(r, c.runs[r].inputThrough,
           set q | 0 <= q < |c.runs| && c.runs[q].inputThrough < c.runs[r].inputThrough
             && c.runs[q].status == Conversations.Succeeded,
           false)
  }

  // ---------------------------------------------------------------- what the active run reads

  predicate Queued(c: Conversations.Conversation, q: nat) {
    q < |c.runs| && c.runs[q].status == Conversations.Queued
  }

  /** The active run reads a message of another run that still waits in the queue. */
  ghost predicate ReadsQueued(c: Conversations.Conversation, r: nat)
    requires r < |c.runs|
  {
    exists row ::
      row in Admitted(RowsOf(c), ReaderOf(c, r)) && row.run.Some? && row.run.value != r && Queued(c, row.run.value)
  }

  lemma NotLater(c: Conversations.Conversation, marks: seq<nat>, q: nat, r: nat)
    requires Theorems.MarksInv(c.messages, marks) && q < |marks| && r < |marks| && marks[q] <= marks[r]
    ensures q <= r
  {
  }

  /** A message read is the run's own, or of an earlier run that may be queued, or of a run that is neither
      queued nor open. */
  lemma ReadFromEarlier(c: Conversations.Conversation, r: nat, row: Row)
    requires Theorems.Inv(c) && c.active == Some(r) && r < |c.runs| && row in Admitted(RowsOf(c), ReaderOf(c, r))
    ensures row.run.Some? && row.run.value < |c.runs|
    ensures row.run.value == r || !Conversations.Open(c.runs[row.run.value].status)
      || (row.run.value < r && Queued(c, row.run.value))
  {
    OnlyAllowedRows(RowsOf(c), ReaderOf(c, r), row);
    var i :| 0 <= i < |RowsOf(c)| && RowsOf(c)[i] == row;
    var m, marks := c.messages[i], Theorems.Marks(c.runs);
    assert row == RowOf(m) && Theorems.Owned(m, marks);
    if m.role == Conversations.User && m.run != r {
      assert marks[m.run] <= m.number <= marks[r];
      NotLater(c, marks, m.run, r);
    }
  }

  /** The message that opened an earlier run is read. */
  lemma ReadsOpening(c: Conversations.Conversation, q: nat, r: nat) returns (row: Row)
    requires Theorems.Inv(c) && q < r < |c.runs|
    ensures row in Admitted(RowsOf(c), ReaderOf(c, r)) && row.run == Some(q)
  {
    var marks := Theorems.Marks(c.runs);
    assert Theorems.First(c.messages, marks[q], q) && marks[q] < marks[r];
    row := RowOf(c.messages[marks[q] - 1]);
    assert row == RowsOf(c)[marks[q] - 1];
    UserMessagesExactly(RowsOf(c), ReaderOf(c, r), row);
  }

  /** Whatever the clocks say: the active run reads a message of a queued run exactly when a run inserted
      before it is still queued. */
  lemma QueuedMessageExactly(actions: seq<Conversations.Action>, r: nat)
    requires Conversations.After(Conversations.NEW_CONVERSATION, actions).active == Some(r)
    ensures var c := Conversations.After(Conversations.NEW_CONVERSATION, actions);
      r < |c.runs| && (ReadsQueued(c, r) <==> exists q :: 0 <= q < r && Queued(c, q))
  {
    var c := Conversations.After(Conversations.NEW_CONVERSATION, actions);
    Theorems.Reachable(actions);
    if ReadsQueued(c, r) {
      var row :| row in Admitted(RowsOf(c), ReaderOf(c, r)) && row.run.Some? && row.run.value != r
        && Queued(c, row.run.value);
      ReadFromEarlier(c, r, row);
    }
    if q :| 0 <= q < r && Queued(c, q) {
      var row := ReadsOpening(c, q, r);
    }
  }

  lemma AfterOne(actions: seq<Conversations.Action>, a: Conversations.Action)
    ensures Conversations.After(Conversations.NEW_CONVERSATION, actions + [a])
         == Conversations.Do(Conversations.After(Conversations.NEW_CONVERSATION, actions), a).0
  {
    assert (actions + [a])[..|actions|] == actions;
  }

  /** Three messages sent while the clock falls; then the first run is cancelled. */
  function Overtaking(): seq<Conversations.Action> {
    [Conversations.Send("a", 0, 10, 0)] + [Conversations.Send("b", 1, 9, 1)] + [Conversations.Send("c", 2, 8, 2)]
      + [Conversations.Cancel(0)]
  }

  /** A message sent while a run is active only joins the queue. */
  lemma SendQueues(c: Conversations.Conversation, content: string, key: nat, created: int, name: nat)
    requires c.active.Some? && (Conversations.Messages, key) !in c.receipts
    ensures var d := Conversations.Do(c, Conversations.Send(content, key, created, name)).0;
      && d.active == c.active
      && d.runs == c.runs + [Conversations.Run(name, created, c.nextSeq, Conversations.Queued, None, None)]
      && d.receipts.Keys == c.receipts.Keys + {(Conversations.Messages, key)}
  {
  }

  /** Cancelling the active run hands the slot to the first queued one. */
  lemma CancelPromotes(c: Conversations.Conversation, r: nat, next: nat)
    requires r < |c.runs| && c.active == Some(r) && Conversations.Open(c.runs[r].status)
    requires var runs := c.runs[r := c.runs[r].(status := Conversations.Cancelled)];
      Conversations.FirstQueued(runs, |runs|) == Some(next)
    ensures var d := Conversations.Do(c, Conversations.Cancel(r)).0;
      d.active == Some(next) && d.runs == c.runs[r := c.runs[r].(status := Conversations.Cancelled)]
  {
  }

  lemma SentInOrder()
    ensures var c := Conversations.After(Conversations.NEW_CONVERSATION, Overtaking()[..3]);
      c.active == Some(0) && |c.runs| == 3
        && (forall q :: 0 <= q < 3 ==> Queued(c, q) && c.runs[q].created == 10 - q && c.runs[q].name == q)
  {
    var a, b := Conversations.Send("a", 0, 10, 0), Conversations.Send("b", 1, 9, 1);
    AfterOne([], a);
    AfterOne([a], b);
    AfterOne([a] + [b], Conversations.Send("c", 2, 8, 2));
    var one := Conversations.Do(Conversations.NEW_CONVERSATION, a).0;
    assert [] + [a] == [a] && one == Conversations.After(Conversations.NEW_CONVERSATION, [a]);
    SendQueues(one, "b", 1, 9, 1);
    SendQueues(Conversations.Do(one, b).0, "c", 2, 8, 2);
    assert Overtaking()[..3] == [a] + [b] + [Conversations.Send("c", 2, 8, 2)];
  }

  /** Clocks that fall let a later run overtake, which then reads the message of the one left behind. */
  lemma OvertakenMessageIsRead()
    ensures var c := Conversations.After(Conversations.NEW_CONVERSATION, Overtaking());
      |c.runs| == 3 && c.active == Some(2) && Queued(c, 1) && ReadsQueued(c, 2)
  {
    var three := Conversations.After(Conversations.NEW_CONVERSATION, Overtaking()[..3]);
    SentInOrder();
    AfterOne(Overtaking()[..3], Conversations.Cancel(0));
    assert Overtaking() == Overtaking()[..3] + [Conversations.Cancel(0)];
    var runs := three.runs[0 := three.runs[0].(status := Conversations.Cancelled)];
    assert Conversations.FirstQueued(runs, 1) == None;
    assert Conversations.FirstQueued(runs, 2) == Some(1);
    assert Conversations.FirstQueued(runs, 3) == Some(2);
    CancelPromotes(three, 0, 2);
    assert Queued(Conversations.After(Conversations.NEW_CONVERSATION, Overtaking()), 1);
    QueuedMessageExactly(Overtaking(), 2);
  }

  /** When rows are inserted with a rising clock, each message read is the run's own or of a closed run. */
  lemma NeverAQueuedMessage(actions: seq<Conversations.Action>, row: Row)
    requires var c := Conversations.After(Conversations.NEW_CONVERSATION, actions);
      c.active.Some? && c.active.value < |c.runs| && Theorems.ClockOrdered(c.runs)
      && row in Admitted(RowsOf(c), ReaderOf(c, c.active.value))
    ensures var c := Conversations.After(Conversations.NEW_CONVERSATION, actions);
      row.run.Some? && row.run.value < |c.runs|
      && (row.run.value == c.active.value || !Conversations.Open(c.runs[row.run.value].status))
  {
    var c := Conversations.After(Conversations.NEW_CONVERSATION, actions);
    Theorems.Reachable(actions);
    ReadFromEarlier(c, c.active.value, row);
  }

  /** The rows of a conversation are numbered in order, so what a run reads is grouped by run. */
  lemma ReadInGroups(actions: seq<Conversations.Action>, r: nat, i: nat, j: nat, k: nat)
    requires var c := Conversations.After(Conversations.NEW_CONVERSATION, actions);
      r < |c.runs| && i < j < k < |Admitted(RowsOf(c), ReaderOf(c, r))|
      && KeyOf(Admitted(RowsOf(c), ReaderOf(c, r))[i]) == KeyOf(Admitted(RowsOf(c), ReaderOf(c, r))[k])
    ensures var c := Conversations.After(Conversations.NEW_CONVERSATION, actions);
      var out := Admitted(RowsOf(c), ReaderOf(c, r));
      KeyOf(out[j]) == KeyOf(out[i]) && out[i].number < out[j].number < out[k].number
  {
    var c := Conversations.After(Conversations.NEW_CONVERSATION, actions);
    Theorems.Reachable(actions);
    forall x, y | 0 <= x < y < |c.messages| ensures RowsOf(c)[x].number < RowsOf(c)[y].number {
      assert c.messages[x].number == x + 1 && c.messages[y].number == y + 1;
    }
    GroupedByRun(RowsOf(c), ReaderOf(c, r), i, j, k);
  }
}
