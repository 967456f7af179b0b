/** Which messages a run is given to read, in which order. */
module History {
  import opened Prelude

  type Id = nat

  datatype Role = User | Assistant

  datatype Row = Row(id: Id, number: nat, role: Role, run: Option<Id>, content: string)

  datatype Key = OfRun(run: Id) | OfRow(row: Id)

  const FOLLOWUP_HISTORY := 6
  const ASSISTANT_HISTORY := 12

  /** The run reading, its mark, and the runs that succeeded before it. */
  datatype Reader = Reader(run: Id, mark: nat, prior: set<Id>, followup: bool)

  function KeyOf(row: Row): Key {
    if row.run.Some? then OfRun(row.run.value) else OfRow(row.id)
  }

  predicate Allowed(reader: Reader, row: Row) {
    match row.role
    case User => row.number <= reader.mark || row.run == Some(reader.run)
    case Assistant => row.run.Some? && row.run.value in reader.prior
  }

  function AllowedBy(reader: Reader): Row -> bool {
    (row: Row) => Allowed(reader, row)
  }

  function Min(a: nat, b: nat): nat {
    if a <= b then a else b
  }

  /** The smallest sequence number of each group. */
  function Anchors(rows: seq<Row>): (m: map<Key, nat>)
    ensures forall i :: 0 <= i < |rows| ==> KeyOf(rows[i]) in m
  {
    if rows == [] then map[]
    else
      var before, last := Anchors(rows[..|rows| - 1]), rows[|rows| - 1];
      var k := KeyOf(last);
      before[k := if k in before then Min(before[k], last.number) else last.number]
  }

  /** Sorting order: first by the group's anchor, then by sequence number. */
  predicate Precedes(anchors: map<Key, nat>, a: Row, b: Row)
    requires KeyOf(a) in anchors && KeyOf(b) in anchors
  {
    var x, y := anchors[KeyOf(a)], anchors[KeyOf(b)];
    x < y || (x == y && a.number < b.number)
  }

  ghost predicate Keyed(anchors: map<Key, nat>, rows: seq<Row>) {
    forall i :: 0 <= i < |rows| ==> KeyOf(rows[i]) in anchors
  }

  /** Insert before the first row it precedes. */
  function InsertRow(anchors: map<Key, nat>, x: Row, rows: seq<Row>): (r: seq<Row>)
    requires KeyOf(x) in anchors && Keyed(anchors, rows)
    ensures Keyed(anchors, r) && forall y :: y in r <==> y == x || y in rows
  {
    if rows == [] || Precedes(anchors, x, rows[0]) then [x] + rows
    else
      assert rows == [rows[0]] + rows[1..];
      [rows[0]] + InsertRow(anchors, x, rows[1..])
  }

  function SortRows(anchors: map<Key, nat>, rows: seq<Row>): (r: seq<Row>)
    requires Keyed(anchors, rows)
    ensures Keyed(anchors, r) && forall y :: y in r <==> y in rows
  {
    if rows == [] then []
    else
      assert rows == rows[..|rows| - 1] + [rows[|rows| - 1]];
      InsertRow(anchors, rows[|rows| - 1], SortRows(anchors, rows[..|rows| - 1]))
  }

  /** All user rows, and the last n assistant rows. */
  function LastAnswers(rows: seq<Row>, n: nat): seq<Row> {
    if rows == [] then []
    else
      var before, last := rows[..|rows| - 1], rows[|rows| - 1];
      if last.role == User then LastAnswers(before, n) + [last]
      else if n > 0 then LastAnswers(before, n - 1) + [last]
      else LastAnswers(before, 0)
  }

  function Last(rows: seq<Row>, n: nat): seq<Row> {
    if n <= |rows| then rows[|rows| - n..] else rows
  }

  function Sorted(rows: seq<Row>, reader: Reader): seq<Row> {
    var allowed := Filter(AllowedBy(reader), rows);
    SortRows(Anchors(allowed), allowed)
  }

  function Admitted(rows: seq<Row>, reader: Reader): seq<Row> {
    if reader.followup then Last(Sorted(rows, reader), FOLLOWUP_HISTORY)
    else LastAnswers(Sorted(rows, reader), ASSISTANT_HISTORY)
  }

  // ---------------------------------------------------------------- as the source runs it

  method FillAnchors(rows: seq<Row>) returns (anchors: map<Key, nat>)
    ensures anchors == Anchors(rows)
  {
    anchors := map[];
    for i := 0 to |rows|
      invariant anchors == Anchors(rows[..i])
    {
      assert rows[..i + 1][..i] == rows[..i];
      var key := KeyOf(rows[i]);
      anchors := anchors[key := if key in anchors then Min(anchors[key], rows[i].number) else rows[i].number];
    }
    assert rows[..|rows|] == rows;
  }

  method AllowedRows(rows: seq<Row>, reader: Reader) returns (allowed: seq<Row>)
    ensures allowed == Filter(AllowedBy(reader), rows)
  {
    allowed := [];
    for i := 0 to |rows|
      invariant allowed == Filter(AllowedBy(reader), rows[..i])
    {
      assert rows[..i + 1] == rows[..i] + [rows[i]];
      FilterConcat(AllowedBy(reader), rows[..i], [rows[i]]);
      if Allowed(reader, rows[i]) {
        allowed := allowed + [rows[i]];
      }
    }
    assert rows[..|rows|] == rows;
  }

  method SortByAnchor(rows: seq<Row>, anchors: map<Key, nat>) returns (sorted: seq<Row>)
    requires Keyed(anchors, rows)
    ensures sorted == SortRows(anchors, rows)
  {
    sorted := [];
    for i := 0 to |rows|
      invariant Keyed(anchors, rows) && sorted == SortRows(anchors, rows[..i])
    {
      assert rows[..i + 1][..i] == rows[..i];
      sorted := Placed(rows[i], sorted, anchors);
    }
    assert rows[..|rows|] == rows;
  }

  method Placed(x: Row, rows: seq<Row>, anchors: map<Key, nat>) returns (r: seq<Row>)
    requires KeyOf(x) in anchors && Keyed(anchors, rows)
    ensures r == InsertRow(anchors, x, rows)
  {
    var i := 0;
    while i < |rows| && !Precedes(anchors, x, rows[i])
      invariant i <= |rows| && InsertRow(anchors, x, rows) == rows[..i] + InsertRow(anchors, x, rows[i..])
    {
      assert rows[i..][1..] == rows[i + 1..] && rows[..i] + [rows[i]] == rows[..i + 1];
      i := i + 1;
    }
    r := rows[..i] + [x] + rows[i..];
  }

  /** From the end backwards: user rows stay, assistant rows as long as n lasts. */
  method KeepLastAnswers(rows: seq<Row>, n: nat) returns (kept: seq<Row>)
    ensures kept == LastAnswers(rows, n)
  {
    kept := [];
    var left, i := n, |rows|;
    assert rows[..i] == rows && LastAnswers(rows, n) + [] == LastAnswers(rows, n);
    while i > 0
      invariant i <= |rows| && LastAnswers(rows, n) == LastAnswers(rows[..i], left) + kept
      decreases i
    {
      i := i - 1;
      assert rows[..i + 1][..i] == rows[..i];
      if rows[i].role == User || left > 0 {
        kept := [rows[i]] + kept;
      }
      if rows[i].role == Assistant && left > 0 {
        left := left - 1;
      }
    }
  }

  method AdmittedHistory(rows: seq<Row>, reader: Reader) returns (admitted: seq<Row>)
    ensures admitted == Admitted(rows, reader)
  {
    var allowed := AllowedRows(rows, reader);
    var anchors := FillAnchors(allowed);
    var sorted := SortByAnchor(allowed, anchors);
    if reader.followup {
      admitted := Last(sorted, FOLLOWUP_HISTORY);
    } else {
      admitted := KeepLastAnswers(sorted, ASSISTANT_HISTORY);
    }
  }

  // ---------------------------------------------------------------- order and groups

  /** Rows as the database returns them: sequence numbers rise. */
  ghost predicate Rising(rows: seq<Row>) {
    forall i, j :: 0 <= i < j < |rows| ==> rows[i].number < rows[j].number
  }

  ghost predicate Apart(rows: seq<Row>) {
    forall i, j :: 0 <= i < j < |rows| ==> rows[i].number != rows[j].number
  }

  ghost predicate Ordered(anchors: map<Key, nat>, rows: seq<Row>) {
    Keyed(anchors, rows) && forall i, j :: 0 <= i < j < |rows| ==> Precedes(anchors, rows[i], rows[j])
  }

  lemma {:induction false} InsertOrdered(anchors: map<Key, nat>, x: Row, rows: seq<Row>)
    requires KeyOf(x) in anchors && Ordered(anchors, rows) && forall y :: y in rows ==> y.number != x.number
    ensures Ordered(anchors, InsertRow(anchors, x, rows))
  {
    if rows != [] && !Precedes(anchors, x, rows[0]) {
      var rest := InsertRow(anchors, x, rows[1..]);
      InsertOrdered(anchors, x, rows[1..]);
      forall j | 0 <= j < |rest| ensures Precedes(anchors, rows[0], rest[j]) {
        if rest[j] != x { assert rest[j] in rows[1..]; }
      }
    }
  }

  lemma {:induction false} SortOrdered(anchors: map<Key, nat>, rows: seq<Row>)
    requires Keyed(anchors, rows) && Apart(rows)
    ensures Ordered(anchors, SortRows(anchors, rows))
  {
    if rows != [] {
      var before, last := rows[..|rows| - 1], rows[|rows| - 1];
      SortOrdered(anchors, before);
      InsertOrdered(anchors, last, SortRows(anchors, before));
    }
  }

  lemma {:induction false} FilterRising(rows: seq<Row>, reader: Reader)
    requires Rising(rows)
    ensures Rising(Filter(AllowedBy(reader), rows))
  {
    if rows != [] {
      FilterRising(rows[1..], reader);
      forall y | y in Filter(AllowedBy(reader), rows[1..]) ensures rows[0].number < y.number {
        FilterMember(AllowedBy(reader), rows[1..], y);
      }
    }
  }

  lemma SortedIsOrdered(rows: seq<Row>, reader: Reader)
    requires Rising(rows)
    ensures Ordered(Anchors(Filter(AllowedBy(reader), rows)), Sorted(rows, reader))
  {
    FilterRising(rows, reader);
    SortOrdered(Anchors(Filter(AllowedBy(reader), rows)), Filter(AllowedBy(reader), rows));
  }

  lemma {:induction false} LastAnswersMembers(rows: seq<Row>, n: nat)
    ensures forall y :: y in LastAnswers(rows, n) ==> y in rows
    ensures forall y :: y in rows && y.role == User ==> y in LastAnswers(rows, n)
  {
    if rows != [] {
      var before := rows[..|rows| - 1];
      assert rows == before + [rows[|rows| - 1]];
      LastAnswersMembers(before, n);
      if n > 0 { LastAnswersMembers(before, n - 1); }
    }
  }

  lemma {:induction false} LastAnswersOrdered(anchors: map<Key, nat>, rows: seq<Row>, n: nat)
    requires Ordered(anchors, rows)
    ensures Ordered(anchors, LastAnswers(rows, n))
  {
    if rows != [] {
      var before, last := rows[..|rows| - 1], rows[|rows| - 1];
      var m := if last.role == User then n else if n > 0 then n - 1 else 0;
      LastAnswersOrdered(anchors, before, m);
      LastAnswersMembers(before, m);
      forall y | y in before ensures Precedes(anchors, y, last) {
        var i :| 0 <= i < |before| && before[i] == y;
        assert rows[i] == y;
      }
    }
  }

  lemma AdmittedOrdered(rows: seq<Row>, reader: Reader)
    requires Rising(rows)
    ensures Ordered(Anchors(Filter(AllowedBy(reader), rows)), Admitted(rows, reader))
  {
    SortedIsOrdered(rows, reader);
    LastAnswersOrdered(Anchors(Filter(AllowedBy(reader), rows)), Sorted(rows, reader), ASSISTANT_HISTORY);
  }

  /** An anchor is the number of a row of its group. */
  lemma {:induction false} AnchorWitness(rows: seq<Row>, k: Key) returns (i: nat)
    requires k in Anchors(rows)
    ensures i < |rows| && KeyOf(rows[i]) == k && rows[i].number == Anchors(rows)[k]
  {
    var before, last := rows[..|rows| - 1], rows[|rows| - 1];
    if k in Anchors(before) && (KeyOf(last) != k || Anchors(before)[k] <= last.number) {
      i := AnchorWitness(before, k);
    } else {
      i := |rows| - 1;
    }
  }

  /** Two groups never share an anchor. */
  lemma AnchorsApart(rows: seq<Row>, a: Key, b: Key)
    requires Rising(rows) && a in Anchors(rows) && b in Anchors(rows) && Anchors(rows)[a] == Anchors(rows)[b]
    ensures a == b
  {
    var i := AnchorWitness(rows, a);
    var j := AnchorWitness(rows, b);
    SameRow(rows, i, j);
  }

  lemma SameRow(rows: seq<Row>, i: nat, j: nat)
    requires Rising(rows) && i < |rows| && j < |rows| && rows[i].number == rows[j].number
    ensures i == j
  {
  }

  // ---------------------------------------------------------------- guarantees

  /** What a reader may read: a user's message up to its mark or of its own run, an answer of a run that succeeded
      before it. */
  predicate Readable(reader: Reader, row: Row) {
    if row.role == User then row.number <= reader.mark || row.run == Some(reader.run)
    else row.run.Some? && row.run.value in reader.prior
  }

  /** Rows of one run stand together; a row without a run stands alone. */
  predicate Together(a: Row, b: Row) {
    if a.run.Some? && b.run.Some? then a.run == b.run else a.run.None? && b.run.None? && a.id == b.id
  }

  /** x is the first readable row of y's group. */
  ghost predicate Opens(rows: seq<Row>, reader: Reader, x: Row, y: Row) {
    && x in rows && Readable(reader, x) && Together(x, y)
    && forall z :: z in rows && Readable(reader, z) && Together(z, y) ==> x.number <= z.number
  }

  /** a is read before b: its group opens earlier, or it is the earlier one of the same group. */
  ghost predicate ReadBefore(rows: seq<Row>, reader: Reader, a: Row, b: Row) {
    exists x, y :: Opens(rows, reader, x, a) && Opens(rows, reader, y, b)
                   && (x.number < y.number || (x.number == y.number && Together(a, b) && a.number < b.number))
  }

  lemma ReadableMeans(rows: seq<Row>, reader: Reader, row: Row)
    ensures row in Filter(AllowedBy(reader), rows) <==> row in rows && Readable(reader, row)
  {
    FilterMember(AllowedBy(reader), rows, row);
  }

  lemma {:induction false} AnchorIsLeast(rows: seq<Row>, row: Row)
    requires row in rows
    ensures Anchors(rows)[KeyOf(row)] <= row.number
  {
    var before, last := rows[..|rows| - 1], rows[|rows| - 1];
    assert rows == before + [last];
    if row in before { AnchorIsLeast(before, row); }
  }

  lemma AnchorOpens(rows: seq<Row>, reader: Reader, row: Row) returns (x: Row)
    requires row in Filter(AllowedBy(reader), rows)
    ensures Opens(rows, reader, x, row) && x.number == Anchors(Filter(AllowedBy(reader), rows))[KeyOf(row)]
  {
    var allowed := Filter(AllowedBy(reader), rows);
    var i := AnchorWitness(allowed, KeyOf(row));
    x := allowed[i];
    ReadableMeans(rows, reader, x);
    forall z | z in rows && Readable(reader, z) && Together(z, row) ensures x.number <= z.number {
      ReadableMeans(rows, reader, z);
      AnchorIsLeast(allowed, z);
    }
  }

  /** The reading order: exactly the readable rows, none twice, groups in the order in which they open and each in
      the order it was written. */
  lemma ReadingOrder(rows: seq<Row>, reader: Reader, row: Row, i: nat, j: nat)
    requires Rising(rows)
    ensures row in Sorted(rows, reader) <==> row in rows && Readable(reader, row)
    ensures Distinct(Sorted(rows, reader))
    ensures i < j < |Sorted(rows, reader)| ==>
      ReadBefore(rows, reader, Sorted(rows, reader)[i], Sorted(rows, reader)[j])
  {
    var allowed, sorted := Filter(AllowedBy(reader), rows), Sorted(rows, reader);
    ReadableMeans(rows, reader, row);
    SortedIsOrdered(rows, reader);
    OrderedDistinct(Anchors(allowed), sorted);
    if i < j < |sorted| {
      var a, b := sorted[i], sorted[j];
      assert a in sorted && b in sorted && Precedes(Anchors(allowed), a, b);
      var x := AnchorOpens(rows, reader, a);
      var y := AnchorOpens(rows, reader, b);
      if x.number == y.number {
        FilterRising(rows, reader);
        AnchorsApart(allowed, KeyOf(a), KeyOf(b));
      }
    }
  }

  /** A follow-up reads the last six in reading order. */
  lemma FollowupReadsSix(rows: seq<Row>, reader: Reader)
    requires reader.followup
    ensures var out, sorted := Admitted(rows, reader), Sorted(rows, reader);
      |out| == (if |sorted| < 6 then |sorted| else 6) && out == sorted[|sorted| - |out|..]
  {
  }

  /** What one run said and was answered stands together, each group in the order it was written. */
  lemma GroupedByRun(rows: seq<Row>, reader: Reader, i: nat, j: nat, k: nat)
    requires Rising(rows) && i < j < k < |Admitted(rows, reader)|
    requires KeyOf(Admitted(rows, reader)[i]) == KeyOf(Admitted(rows, reader)[k])
    ensures var out := Admitted(rows, reader);
      KeyOf(out[j]) == KeyOf(out[i]) && out[i].number < out[j].number < out[k].number
  {
    var allowed, out := Filter(AllowedBy(reader), rows), Admitted(rows, reader);
    var anchors := Anchors(allowed);
    AdmittedOrdered(rows, reader);
    FilterRising(rows, reader);
    assert Precedes(anchors, out[i], out[j]) && Precedes(anchors, out[j], out[k]);
    AnchorsApart(allowed, KeyOf(out[i]), KeyOf(out[j]));
  }

  /** A mission run reads every user message up to its own mark and all its own later answers, and no
      other user message; of the answers only those of runs that succeeded before it. */
  lemma UserMessagesExactly(rows: seq<Row>, reader: Reader, row: Row)
    requires row in rows && !reader.followup
    ensures row.role == User ==>
      (row in Admitted(rows, reader) <==> row.number <= reader.mark || row.run == Some(reader.run))
    ensures row.role == Assistant && row in Admitted(rows, reader) ==> row.run.Some? && row.run.value in reader.prior
  {
    var sorted := Sorted(rows, reader);
    FilterMember(AllowedBy(reader), rows, row);
    LastAnswersMembers(sorted, ASSISTANT_HISTORY);
  }

  /** Nothing else is read. */
  lemma OnlyAllowedRows(rows: seq<Row>, reader: Reader, row: Row)
    requires row in Admitted(rows, reader)
    ensures row in rows && Allowed(reader, row)
  {
    var sorted := Sorted(rows, reader);
    LastAnswersMembers(sorted, ASSISTANT_HISTORY);
    FilterMember(AllowedBy(reader), rows, row);
  }

  function AnswersIn(rows: seq<Row>): nat {
    if rows == [] then 0 else AnswersIn(rows[..|rows| - 1]) + if rows[|rows| - 1].role == Assistant then 1 else 0
  }

  lemma AnswersAppend(rows: seq<Row>, x: Row)
    ensures AnswersIn(rows + [x]) == AnswersIn(rows) + if x.role == Assistant then 1 else 0
  {
    assert (rows + [x])[..|rows|] == rows;
  }

  lemma {:induction false} LastAnswersCount(rows: seq<Row>, n: nat)
    ensures AnswersIn(LastAnswers(rows, n)) == if AnswersIn(rows) <= n then AnswersIn(rows) else n
  {
    if rows != [] {
      var before, last := rows[..|rows| - 1], rows[|rows| - 1];
      var m := if last.role == User then n else if n > 0 then n - 1 else 0;
      LastAnswersCount(before, m);
      AnswersAppend(LastAnswers(before, m), last);
    }
  }

  lemma LastIsNew(rows: seq<Row>)
    requires Distinct(rows) && rows != []
    ensures rows[|rows| - 1] !in rows[..|rows| - 1] && Distinct(rows[..|rows| - 1])
  {
  }

  /** An answer is kept exactly when fewer than n answers stand behind it. */
  lemma {:induction false} LatestAnswers(rows: seq<Row>, n: nat, i: nat)
    requires i < |rows| && rows[i].role == Assistant && Distinct(rows)
    ensures rows[i] in LastAnswers(rows, n) <==> AnswersIn(rows[i + 1..]) < n
  {
    var before, last := rows[..|rows| - 1], rows[|rows| - 1];
    var m := if last.role == User then n else if n > 0 then n - 1 else 0;
    LastIsNew(rows);
    LastAnswersMembers(before, m);
    if i < |rows| - 1 {
      LatestAnswers(before, m, i);
      assert rows[i + 1..][..|rows[i + 1..]| - 1] == before[i + 1..];
      assert rows[i] in before;
    }
  }

  lemma OrderedDistinct(anchors: map<Key, nat>, rows: seq<Row>)
    requires Ordered(anchors, rows)
    ensures Distinct(rows)
  {
    forall i, j | 0 <= i < j < |rows| ensures rows[i] != rows[j] {
      assert Precedes(anchors, rows[i], rows[j]);
    }
  }

  /** At most the 12 latest earlier answers, in reading order, and exactly those. */
  lemma LatestTwelve(rows: seq<Row>, reader: Reader, i: nat)
    requires Rising(rows) && !reader.followup && i < |Sorted(rows, reader)| && Sorted(rows, reader)[i].role == Assistant
    ensures var sorted := Sorted(rows, reader);
      (sorted[i] in Admitted(rows, reader) <==> AnswersIn(sorted[i + 1..]) < 12)
      && AnswersIn(Admitted(rows, reader)) <= 12
  {
    var sorted := Sorted(rows, reader);
    SortedIsOrdered(rows, reader);
    OrderedDistinct(Anchors(Filter(AllowedBy(reader), rows)), sorted);
    LastAnswersCount(sorted, ASSISTANT_HISTORY);
    LatestAnswers(sorted, ASSISTANT_HISTORY, i);
  }
}
