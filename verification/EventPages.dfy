/** Reading an append-only event log page by page, as the simulator's list_events, the backend's
    event_page and the cursor loop of the event stream do. */
module EventPages {
  import opened Prelude

  datatype Row<E> = Row(sequence: nat, event: E)

  datatype Page<E> = Page(rows: seq<Row<E>>, cursor: nat, head: nat, more: bool)

  datatype Failure = CursorAhead

  /** The log is numbered 1, 2, ..., head. */
  ghost predicate Numbered<E>(log: seq<Row<E>>) {
    forall i :: 0 <= i < |log| ==> log[i].sequence == i + 1
  }

  function End(after: nat, limit: nat, head: nat): nat {
    if after + limit <= head then after + limit else head
  }

  /** Rows with after < sequence <= head, in order, at most limit of them. */
  method ReadPage<E>(log: seq<Row<E>>, head: nat, after: nat, limit: nat) returns (page: Result<Page<E>, Failure>)
    requires Numbered(log) && head == |log| && limit >= 1
    ensures after > head ==> page == Err(CursorAhead)
    ensures after <= head ==>
      page == Ok(Page(log[after..End(after, limit, head)], End(after, limit, head), head,
        End(after, limit, head) < head))
  {
    if after > head {
      return Err(CursorAhead);
    }
    var rows: seq<Row<E>> := [];
    for i := 0 to |log|
      invariant rows == if i <= after then [] else log[after..End(after, limit, i)]
    {
      if log[i].sequence > after && log[i].sequence <= head && |rows| < limit {
        rows := rows + [log[i]];
      }
    }
    var cursor := if |rows| > 0 then rows[|rows| - 1].sequence else after;
    return Ok(Page(rows, cursor, head, cursor < head));
  }

  /** The pages a reader gets from a log that others append to between two readings: logs[i] is the log at
      the i-th read. */
  function Cursor<E>(logs: seq<seq<Row<E>>>, after: nat, limits: seq<nat>, n: nat): nat
    requires n <= |logs| == |limits|
  {
    if n == 0 then after else End(Cursor(logs, after, limits, n - 1), limits[n - 1], |logs[n - 1]|)
  }

  ghost predicate Growing<E>(logs: seq<seq<Row<E>>>) {
    forall i, j :: 0 <= i < j < |logs| ==> logs[i] <= logs[j]
  }

  lemma {:induction false} CursorInside<E>(logs: seq<seq<Row<E>>>, after: nat, limits: seq<nat>, n: nat)
    requires n <= |logs| == |limits| && Growing(logs) && (logs != [] ==> after <= |logs[0]|)
    ensures forall i :: 0 <= i < |logs| && n <= i + 1 ==> after <= Cursor(logs, after, limits, n) <= |logs[i]|
    ensures logs == [] ==> Cursor(logs, after, limits, n) == after
  {
    if n > 0 {
      CursorInside(logs, after, limits, n - 1);
      forall i | 0 <= i < |logs| && n <= i + 1 ensures after <= Cursor(logs, after, limits, n) <= |logs[i]| {
        if n - 1 < i { assert logs[n - 1] <= logs[i]; }
      }
    } else {
      forall i | 0 <= i < |logs| ensures after <= |logs[i]| {
        if i > 0 { assert logs[0] <= logs[i]; }
      }
    }
  }

  /** The concatenation of the first n pages. */
  function Read<E>(logs: seq<seq<Row<E>>>, after: nat, limits: seq<nat>, n: nat): seq<Row<E>>
    requires n <= |logs| == |limits|
  {
    if n == 0 then []
    else
      var from, to := Cursor(logs, after, limits, n - 1), Cursor(logs, after, limits, n);
      Read(logs, after, limits, n - 1) + if from <= to <= |logs[n - 1]| then logs[n - 1][from..to] else []
  }

  /** Paging from any cursor while events are appended yields the log from that cursor on, without gap
      or duplicate, up to where the last page ended. */
  lemma {:induction false} PagesAreSuffix<E>(logs: seq<seq<Row<E>>>, after: nat, limits: seq<nat>, n: nat)
    requires 0 < n <= |logs| == |limits| && Growing(logs) && after <= |logs[0]|
    ensures after <= Cursor(logs, after, limits, n) <= |logs[n - 1]|
    ensures Read(logs, after, limits, n) == logs[n - 1][after..Cursor(logs, after, limits, n)]
  {
    var last := logs[n - 1];
    CursorInside(logs, after, limits, n);
    CursorInside(logs, after, limits, n - 1);
    if n > 1 {
      PagesAreSuffix(logs, after, limits, n - 1);
      assert logs[n - 2] <= last;
      var from := Cursor(logs, after, limits, n - 1);
      assert logs[n - 2][after..from] == last[after..from];
      assert last[after..from] + last[from..Cursor(logs, after, limits, n)]
        == last[after..Cursor(logs, after, limits, n)];
    } else {
      assert Read(logs, after, limits, 0) == [];
    }
  }

  /** When the last page says there is no more, the reader has everything the log had then. */
  lemma DrainedReadsAll<E>(logs: seq<seq<Row<E>>>, after: nat, limits: seq<nat>)
    requires 0 < |logs| == |limits| && Growing(logs) && after <= |logs[0]|
    requires !(Cursor(logs, after, limits, |logs|) < |logs[|logs| - 1]|)
    ensures Read(logs, after, limits, |logs|) == logs[|logs| - 1][after..]
  {
    PagesAreSuffix(logs, after, limits, |logs|);
  }

  /** One reading of the log by the event stream; live: the run is queued or running at that time. */
  datatype Snapshot<E> = Snapshot(log: seq<Row<E>>, live: bool)

  datatype Ended = Refused | Closed | Cut

  function Logs<E>(readings: seq<Snapshot<E>>): (logs: seq<seq<Row<E>>>)
    ensures |logs| == |readings| && forall i :: 0 <= i < |readings| ==> logs[i] == readings[i].log
  {
    seq(|readings|, i requires 0 <= i < |readings| => readings[i].log)
  }

  function Same(n: nat, limit: nat): (limits: seq<nat>)
    ensures |limits| == n && forall i :: 0 <= i < n ==> limits[i] == limit
  {
    seq(n, _ => limit)
  }

  /** Reading number i left nothing to send and found the run closed. */
  ghost predicate LastReading<E>(readings: seq<Snapshot<E>>, cursor: nat, limit: nat, i: nat)
    requires i < |readings|
  {
    !readings[i].live && Cursor(Logs(readings), cursor, Same(|readings|, limit), i + 1) >= |readings[i].log|
  }

  /** After n readings everything between cursor and after has been sent, as the last of them has it. */
  ghost predicate Streamed<E>(readings: seq<Snapshot<E>>, cursor: nat, limit: nat, n: nat, sent: seq<Row<E>>) {
    && n <= |readings|
    && var after := Cursor(Logs(readings), cursor, Same(|readings|, limit), n);
       if n == 0 then sent == []
       else cursor <= after <= |readings[n - 1].log| && sent == readings[n - 1].log[cursor..after]
  }

  ghost predicate Appended<E>(first: seq<Row<E>>, readings: seq<Snapshot<E>>) {
    && Growing([first] + Logs(readings)) && Numbered(first)
    && forall i :: 0 <= i < |readings| ==> Numbered(readings[i].log)
  }

  lemma StreamedNext<E>(first: seq<Row<E>>, readings: seq<Snapshot<E>>, cursor: nat, limit: nat, n: nat,
                        sent: seq<Row<E>>)
    requires Appended(first, readings) && cursor <= |first| && n < |readings|
      && Streamed(readings, cursor, limit, n, sent)
    ensures var after, log := Cursor(Logs(readings), cursor, Same(|readings|, limit), n), readings[n].log;
      after <= |log| && Streamed(readings, cursor, limit, n + 1, sent + log[after..End(after, limit, |log|)])
  {
    var logs, limits, all := Logs(readings), Same(|readings|, limit), [first] + Logs(readings);
    forall i, j | 0 <= i < j < |logs| ensures logs[i] <= logs[j] { assert all[i + 1] <= all[j + 1]; }
    assert all[0] <= all[1] && all[1] == logs[0];
    CursorInside(logs, cursor, limits, n);
    PagesAreSuffix(logs, cursor, limits, n + 1);
    if n > 0 {
      PagesAreSuffix(logs, cursor, limits, n);
    } else {
      assert Read(logs, cursor, limits, 0) == [];
    }
  }

  /** The event stream: refused when the cursor is ahead of the log at the request; otherwise a page for each
      reading, at once while there is more, until the run is closed and everything sent, or the reader's time
      is up. What was sent is the log of the last reading from the cursor on. */
  method Stream<E>(first: seq<Row<E>>, readings: seq<Snapshot<E>>, cursor: nat, limit: nat)
      returns (sent: seq<Row<E>>, ended: Ended, n: nat)
    requires limit >= 1 && Appended(first, readings)
    ensures ended == Refused <==> cursor > |first|
    ensures ended == Refused ==> sent == [] && n == 0
    ensures ended != Refused ==> Streamed(readings, cursor, limit, n, sent)
    ensures ended == Closed ==> 0 < n <= |readings| && !readings[n - 1].live && sent == readings[n - 1].log[cursor..]
    ensures ended == Cut ==> n == |readings| && forall i :: 0 <= i < n ==> !LastReading(readings, cursor, limit, i)
    ensures ended == Closed ==> forall i :: 0 <= i < n - 1 ==> !LastReading(readings, cursor, limit, i)
  {
    sent, ended, n := [], Refused, 0;
    var check := ReadPage(first, |first|, cursor, limit);
    if check.Err? {
      return;
    }
    var after := cursor;
    while n < |readings|
      invariant Streamed(readings, cursor, limit, n, sent)
        && after == Cursor(Logs(readings), cursor, Same(|readings|, limit), n)
      invariant forall i :: 0 <= i < n ==> !LastReading(readings, cursor, limit, i)
    {
      StreamedNext(first, readings, cursor, limit, n, sent);
      var page := ReadPage(readings[n].log, |readings[n].log|, after, limit);
      sent := sent + page.value.rows;
      after, n := page.value.cursor, n + 1;
      if !page.value.more && !readings[n - 1].live {
        return sent, Closed, n;
      }
    }
    ended := Cut;
  }
}
