/** The union of fixed joins and the recursive query return the same bag of rows, and that bag is
    exactly the simple contiguous paths of length 1..depth that leave a seed. */
module RelationEquivalence {
  import opened Prelude
  import opened RelationPaths

  // ---------------------------------------------------------------- one SELECT means "simple path"

  lemma {:induction false} JoinChainAt(size: nat, k: nat)
    requires k + 1 < size
    ensures |JoinChain(size)| == size - 1 && JoinChain(size)[k] == Join(k + 1, k + 2)
    decreases size
  {
    if size == 2 {
      assert JoinChain(1) == [];
    } else {
      JoinChainAt(size - 1, if k + 2 < size then k else 0);
    }
  }

  lemma {:induction false} PriorColumnsAt(i: nat, j: nat)
    requires j < i
    ensures |PriorColumns(i)| == i && PriorColumns(i)[j] == if j == 0 then StartOf(1) else EndOf(j)
  {
    if i >= 2 {
      PriorColumnsAt(i - 1, if j < i - 1 then j else 0);
    }
  }

  lemma {:induction false} AvoidClausesAt(size: nat, k: nat)
    requires k < size
    ensures |AvoidClauses(size)| == size && AvoidClauses(size)[k] == Avoids(k + 1, PriorColumns(k + 1))
    decreases size
  {
    if size == 1 {
      assert AvoidClauses(0) == [];
    } else {
      AvoidClausesAt(size - 1, if k < size - 1 then k else 0);
    }
  }

  lemma NodesAt(t: seq<Row>, j: nat)
    requires t != [] && j <= |t|
    ensures Nodes(t)[j] == if j == 0 then t[0].startId else t[j - 1].endId
  {
  }

  lemma PriorColumnIsNode(t: seq<Row>, i: nat, j: nat, v: string)
    requires j < i <= |t|
    ensures |PriorColumns(i)| == i
    ensures HasValue(t, PriorColumns(i)[j], v) <==> Nodes(t)[j] == v
  {
    PriorColumnsAt(i, j);
    NodesAt(t, j);
  }

  lemma AvoidsNodes(seeds: set<string>, t: seq<Row>, i: nat, prior: seq<Column>)
    requires 1 <= i <= |t| && |prior| == i && Nodes(t)[i] == t[i - 1].endId
    requires forall j :: 0 <= j < i ==> (HasValue(t, prior[j], t[i - 1].endId) <==> Nodes(t)[j] == t[i - 1].endId)
    ensures ClauseHolds(seeds, t, Avoids(i, prior)) <==> forall j :: 0 <= j < i ==> Nodes(t)[j] != Nodes(t)[i]
  {
  }

  lemma AvoidsMeansNew(seeds: set<string>, t: seq<Row>, i: nat)
    requires 1 <= i <= |t|
    ensures ClauseHolds(seeds, t, Avoids(i, PriorColumns(i)))
            <==> forall j :: 0 <= j < i ==> Nodes(t)[j] != Nodes(t)[i]
  {
    var prior, v := PriorColumns(i), t[i - 1].endId;
    NodesAt(t, i);
    PriorColumnIsNode(t, i, 0, v);
    forall j | 0 <= j < i ensures HasValue(t, prior[j], v) <==> Nodes(t)[j] == v {
      PriorColumnIsNode(t, i, j, v);
    }
    AvoidsNodes(seeds, t, i, prior);
  }

  lemma SelectMeansSimplePath(seeds: set<string>, t: seq<Row>, size: nat)
    requires |t| == size >= 1
    ensures Satisfies(FixedSelect(size), seeds, t) <==> SimplePath(seeds, t)
  {
    var q := FixedSelect(size);
    AvoidClausesAt(size, 0);
    assert q.clauses[0] == FromSeed;
    assert |JoinChain(1)| == 0;
    if size > 1 { JoinChainAt(size, 0); }
    if Satisfies(q, seeds, t) {
      assert ClauseHolds(seeds, t, q.clauses[0]);
      forall i | 0 < i < |t| ensures t[i - 1].endId == t[i].startId {
        JoinChainAt(size, i - 1);
        assert JoinHolds(t, q.joins[i - 1]);
      }
      forall j, i | 0 <= j < i < |Nodes(t)| ensures Nodes(t)[j] != Nodes(t)[i] {
        AvoidClausesAt(size, i - 1);
        assert ClauseHolds(seeds, t, q.clauses[i]);
        AvoidsMeansNew(seeds, t, i);
      }
    }
    if SimplePath(seeds, t) {
      forall k | 0 <= k < |q.joins| ensures JoinHolds(t, q.joins[k]) {
        JoinChainAt(size, k);
        assert t[k].endId == t[k + 1].startId;
      }
      forall k | 0 <= k < |q.clauses| ensures ClauseHolds(seeds, t, q.clauses[k]) {
        if k > 0 {
          AvoidClausesAt(size, k - 1);
          AvoidsMeansNew(seeds, t, k);
        }
      }
    }
  }

  // ---------------------------------------------------------------- paths grouped by length

  ghost function Simple(seeds: set<string>): seq<Row> -> bool {
    (t: seq<Row>) => SimplePath(seeds, t)
  }

  ghost function PathsOfLength(seeds: set<string>, table: seq<Row>, k: nat): seq<seq<Row>> {
    Filter(Simple(seeds), Tuples(table, k))
  }

  /** Every simple path of length 1..depth, once for each way the table offers it. */
  ghost function PathsUpTo(seeds: set<string>, table: seq<Row>, depth: nat): seq<seq<Row>> {
    if depth == 0 then [] else PathsUpTo(seeds, table, depth - 1) + PathsOfLength(seeds, table, depth)
  }

  lemma {:induction false} CrossLength(ts: seq<seq<Row>>, table: seq<Row>, k: nat)
    requires forall i :: 0 <= i < |ts| ==> |ts[i]| == k
    ensures forall i :: 0 <= i < |Cross(ts, table)| ==> |Cross(ts, table)[i]| == k + 1
  {
    if ts != [] { CrossLength(ts[1..], table, k); }
  }

  lemma {:induction false} TuplesLength(table: seq<Row>, n: nat)
    ensures forall i :: 0 <= i < |Tuples(table, n)| ==> |Tuples(table, n)[i]| == n
  {
    if n > 0 {
      TuplesLength(table, n - 1);
      CrossLength(Tuples(table, n - 1), table, n - 1);
    }
  }

  lemma SelectRows(seeds: set<string>, table: seq<Row>, size: nat)
    requires size >= 1
    ensures EvalSelect(FixedSelect(size), seeds, table) == Map(Project, PathsOfLength(seeds, table, size))
  {
    var q := FixedSelect(size);
    var ts := Tuples(table, size);
    TuplesLength(table, size);
    forall i | 0 <= i < |ts| ensures Satisfies(q, seeds, ts[i]) == SimplePath(seeds, ts[i]) {
      SelectMeansSimplePath(seeds, ts[i], size);
    }
    FilterAgree((t: seq<Row>) => Satisfies(q, seeds, t), Simple(seeds), ts);
  }

  /** The rows both queries have produced once paths of length `depth` are in. */
  ghost function RowsUpTo(seeds: set<string>, table: seq<Row>, depth: nat): seq<PathRow> {
    Map(Project, PathsUpTo(seeds, table, depth))
  }

  lemma JoinsGrow(seeds: set<string>, table: seq<Row>, k: nat)
    ensures EvalUnionAll(FixedQuery(k + 1), seeds, table)
            == EvalUnionAll(FixedQuery(k), seeds, table) + Map(Project, PathsOfLength(seeds, table, k + 1))
    ensures RowsUpTo(seeds, table, k + 1)
            == RowsUpTo(seeds, table, k) + Map(Project, PathsOfLength(seeds, table, k + 1))
  {
    var qs := FixedQuery(k + 1);
    assert qs[..|qs| - 1] == FixedQuery(k) && qs[|qs| - 1] == FixedSelect(k + 1);
    SelectRows(seeds, table, k + 1);
    MapConcat(Project, PathsUpTo(seeds, table, k), PathsOfLength(seeds, table, k + 1));
  }

  /** The union of the first k joins is the list of paths up to length k. */
  ghost predicate JoinsAre(seeds: set<string>, table: seq<Row>, k: nat) {
    EvalUnionAll(FixedQuery(k), seeds, table) == RowsUpTo(seeds, table, k)
  }

  lemma JoinsStep(seeds: set<string>, table: seq<Row>, k: nat)
    requires JoinsAre(seeds, table, k)
    ensures JoinsAre(seeds, table, k + 1)
  {
    JoinsGrow(seeds, table, k);
  }

  lemma {:induction false} FixedJoinsArePaths(seeds: set<string>, table: seq<Row>, depth: nat)
    ensures JoinsAre(seeds, table, depth)
  {
    if depth == 0 {
      assert EvalUnionAll(FixedQuery(0), seeds, table) == [] == RowsUpTo(seeds, table, 0);
    } else {
      var k := depth - 1;
      FixedJoinsArePaths(seeds, table, k);
      JoinsStep(seeds, table, k);
    }
  }

  // ---------------------------------------------------------------- the recursive query, level by level

  ghost function ToPartial(t: seq<Row>): Partial {
    Partial(Map((e: Row) => e.edgeId, t), Map((e: Row) => e.direction, t), Nodes(t),
            if t == [] then "" else t[|t| - 1].endId, if t == [] then "" else t[|t| - 1].endType)
  }

  lemma NodesSnoc(t: seq<Row>, e: Row)
    requires t != []
    ensures Nodes(t + [e]) == Nodes(t) + [e.endId]
  {
    var end := (e: Row) => e.endId;
    MapConcat(end, t, [e]);
    assert Map(end, [e]) == [e.endId];
    assert (t + [e])[0] == t[0];
  }

  lemma PartialSnoc(t: seq<Row>, e: Row)
    requires t != []
    ensures ToPartial(t + [e]) == Grow(ToPartial(t), e)
  {
    var u := t + [e];
    assert Nodes(u) == Nodes(t) + [e.endId] by { NodesSnoc(t, e); }
    assert u[|u| - 1] == e;
    assert ToPartial(u).edges == ToPartial(t).edges + [e.edgeId];
    assert ToPartial(u).directions == ToPartial(t).directions + [e.direction];
  }

  lemma DistinctSnoc<A>(s: seq<A>, x: A)
    ensures Distinct(s + [x]) <==> Distinct(s) && x !in s
  {
    var u := s + [x];
    if Distinct(u) {
      forall i, j | 0 <= i < j < |s| ensures s[i] != s[j] { assert u[i] != u[j]; }
      forall i | 0 <= i < |s| ensures s[i] != x { assert u[i] != u[|s|]; }
    }
  }

  lemma ContiguousSnoc(t: seq<Row>, e: Row)
    requires t != []
    ensures Contiguous(t + [e]) <==> Contiguous(t) && t[|t| - 1].endId == e.startId
  {
    var u := t + [e];
    if Contiguous(u) {
      forall i | 0 < i < |t| ensures t[i - 1].endId == t[i].startId { assert u[i - 1].endId == u[i].startId; }
      assert u[|t| - 1].endId == u[|t|].startId;
    }
  }

  lemma GrowKeepsSimple(seeds: set<string>, t: seq<Row>, e: Row, depth: nat)
    requires 1 <= |t| < depth
    ensures SimplePath(seeds, t + [e]) <==> SimplePath(seeds, t) && MayGrow(ToPartial(t), e, depth)
  {
    NodesSnoc(t, e);
    DistinctSnoc(Nodes(t), e.endId);
    ContiguousSnoc(t, e);
    assert (t + [e])[0] == t[0];
  }

  lemma ExtendOne(seeds: set<string>, t: seq<Row>, table: seq<Row>, depth: nat)
    requires 1 <= |t| < depth
    ensures Map(ToPartial, Filter(Simple(seeds), Map((e: Row) => t + [e], table)))
            == if SimplePath(seeds, t)
               then Map((e: Row) => Grow(ToPartial(t), e), Filter((e: Row) => MayGrow(ToPartial(t), e, depth), table))
               else []
  {
    var append := (e: Row) => t + [e];
    var simple := Simple(seeds);
    var may := (e: Row) => MayGrow(ToPartial(t), e, depth);
    forall e: Row ensures simple(append(e)) <==> simple(t) && may(e) {
      GrowKeepsSimple(seeds, t, e, depth);
    }
    if simple(t) {
      FilterOfMap(simple, append, may, table);
      forall e: Row ensures ToPartial(append(e)) == Grow(ToPartial(t), e) {
        PartialSnoc(t, e);
      }
      MapOfMap(ToPartial, append, (e: Row) => Grow(ToPartial(t), e), Filter(may, table));
    } else {
      FilterNone(simple, Map(append, table));
    }
  }

  lemma {:induction false} ExtendAll(seeds: set<string>, ts: seq<seq<Row>>, table: seq<Row>, depth: nat, k: nat)
    requires forall i :: 0 <= i < |ts| ==> |ts[i]| == k
    requires 1 <= k < depth
    ensures Map(ToPartial, Filter(Simple(seeds), Cross(ts, table)))
            == RecursiveTerm(Map(ToPartial, Filter(Simple(seeds), ts)), table, depth)
  {
    var simple := Simple(seeds);
    if ts != [] {
      ExtendAll(seeds, ts[1..], table, depth, k);
      ExtendOne(seeds, ts[0], table, depth);
      var first, rest := Map((e: Row) => ts[0] + [e], table), Cross(ts[1..], table);
      FilterConcat(simple, first, rest);
      MapConcat(ToPartial, Filter(simple, first), Filter(simple, rest));
      if simple(ts[0]) {
        MapConcat(ToPartial, [ts[0]], Filter(simple, ts[1..]));
        RecursiveTermCons(ToPartial(ts[0]), Map(ToPartial, Filter(simple, ts[1..])), table, depth);
      }
    }
  }

  lemma RecursiveTermCons(p: Partial, w: seq<Partial>, table: seq<Row>, depth: nat)
    ensures RecursiveTerm([p] + w, table, depth)
            == Map((e: Row) => Grow(p, e), Filter((e: Row) => MayGrow(p, e, depth), table))
              + RecursiveTerm(w, table, depth)
  {
    var all := [p] + w;
    assert all[0] == p && all[1..] == w;
  }

  lemma NextLevel(seeds: set<string>, table: seq<Row>, depth: nat, k: nat)
    requires 1 <= k < depth
    ensures RecursiveTerm(Map(ToPartial, PathsOfLength(seeds, table, k)), table, depth)
            == Map(ToPartial, PathsOfLength(seeds, table, k + 1))
  {
    TuplesLength(table, k);
    ExtendAll(seeds, Tuples(table, k), table, depth, k);
  }

  lemma FirstLevel(seeds: set<string>, table: seq<Row>)
    ensures BaseTerm(seeds, table) == Map(ToPartial, PathsOfLength(seeds, table, 1))
  {
    var none: seq<seq<Row>> := Tuples(table, 0);
    assert none == [[]] && none[1..] == [];
    var firsts := Map((e: Row) => none[0] + [e], table);
    assert Cross(none[1..], table) == [];
    assert Tuples(table, 1) == firsts + [] == firsts;
    assert forall i :: 0 <= i < |table| ==> firsts[i] == [] + [table[i]] == [table[i]];
    assert firsts == Map((e: Row) => [e], table);
    FirstLevelOver(seeds, table);
  }

  lemma FirstLevelOver(seeds: set<string>, table: seq<Row>)
    ensures BaseTerm(seeds, table)
            == Map(ToPartial, Filter(Simple(seeds), Map((e: Row) => [e], table)))
  {
    var single := (e: Row) => [e];
    var simple := Simple(seeds);
    var base := (e: Row) => e.startId in seeds && e.startId != e.endId;
    forall e: Row ensures simple(single(e)) <==> base(e) {
      assert Nodes([e]) == [e.startId, e.endId];
      if simple([e]) { assert Nodes([e])[0] != Nodes([e])[1]; }
    }
    FilterOfMap(simple, single, base, table);
    var first := (e: Row) => Partial([e.edgeId], [e.direction], [e.startId, e.endId], e.endId, e.endType);
    forall e: Row ensures ToPartial(single(e)) == first(e) {
      assert Nodes([e]) == [e.startId, e.endId];
    }
    MapOfMap(ToPartial, single, first, Filter(base, table));
  }

  lemma {:induction false} NoLongerPaths(seeds: set<string>, table: seq<Row>, k: nat, depth: nat)
    requires 1 <= k <= depth && PathsOfLength(seeds, table, k) == []
    ensures PathsOfLength(seeds, table, depth) == []
    ensures PathsUpTo(seeds, table, depth) == PathsUpTo(seeds, table, k - 1)
  {
    if k < depth {
      NoLongerPaths(seeds, table, k, depth - 1);
      NextLevel(seeds, table, depth, depth - 1);
    }
  }

  lemma LengthOfPaths(seeds: set<string>, table: seq<Row>, k: nat)
    ensures forall i :: 0 <= i < |PathsOfLength(seeds, table, k)| ==> |PathsOfLength(seeds, table, k)[i]| == k
  {
    TuplesLength(table, k);
    var ps := PathsOfLength(seeds, table, k);
    forall i | 0 <= i < |ps| ensures |ps[i]| == k {
      FilterMember(Simple(seeds), Tuples(table, k), ps[i]);
    }
  }

  lemma LevelOfPaths(seeds: set<string>, table: seq<Row>, k: nat)
    ensures AtLevel(Map(ToPartial, PathsOfLength(seeds, table, k)), k)
  {
    LengthOfPaths(seeds, table, k);
  }

  lemma EmittedUnfolds(w: seq<Partial>, table: seq<Row>, depth: nat, level: nat)
    requires w != [] && AtLevel(w, level)
    ensures AtLevel(RecursiveTerm(w, table, depth), level + 1)
    ensures level >= depth ==> Emitted(w, table, depth, level) == Map(Selected, w)
    ensures Emitted(w, table, depth, level)
            == Map(Selected, w) + Emitted(RecursiveTerm(w, table, depth), table, depth, level + 1)
  {
    RecursiveTermLevel(w, table, depth, level);
  }

  lemma Regroup<A>(a: seq<A>, b: seq<A>, c: seq<A>)
    ensures a + (b + c) == (a + b) + c
  {
  }

  /** The working table that holds the paths of length k. */
  ghost function WorkingTable(seeds: set<string>, table: seq<Row>, k: nat): seq<Partial> {
    Map(ToPartial, PathsOfLength(seeds, table, k))
  }

  lemma RowsGrow(seeds: set<string>, table: seq<Row>, k: nat)
    ensures RowsUpTo(seeds, table, k + 1)
            == RowsUpTo(seeds, table, k) + Map(Selected, WorkingTable(seeds, table, k + 1))
  {
    var ps := PathsOfLength(seeds, table, k + 1);
    JoinsGrow(seeds, table, k);
    assert Map(Selected, Map(ToPartial, ps)) == Map(Project, ps);
  }

  /** Once k levels have been emitted, emitting the table of level k + 1 and all that follow from it
      completes the rows. */
  ghost predicate Completes(seeds: set<string>, table: seq<Row>, depth: nat, k: nat, w: seq<Partial>)
    requires AtLevel(w, k + 1)
  {
    RowsUpTo(seeds, table, k) + Emitted(w, table, depth, k + 1) == RowsUpTo(seeds, table, depth)
  }

  lemma LastLevel(seeds: set<string>, table: seq<Row>, depth: nat, k: nat, w: seq<Partial>)
    requires k < depth && w == WorkingTable(seeds, table, k + 1) && AtLevel(w, k + 1)
    requires w == [] || k + 1 == depth
    ensures Completes(seeds, table, depth, k, w)
  {
    if w == [] {
      assert |PathsOfLength(seeds, table, k + 1)| == 0;
      NoLongerPaths(seeds, table, k + 1, depth);
      assert RowsUpTo(seeds, table, k) + [] == RowsUpTo(seeds, table, k);
    } else {
      EmittedUnfolds(w, table, depth, k + 1);
      RowsGrow(seeds, table, k);
    }
  }

  lemma MoveLevel(seeds: set<string>, table: seq<Row>, depth: nat, k: nat, w: seq<Partial>)
    requires k + 1 < depth && w == WorkingTable(seeds, table, k + 1) && AtLevel(w, k + 1) && w != []
    ensures RecursiveTerm(w, table, depth) == WorkingTable(seeds, table, k + 1 + 1)
    ensures AtLevel(RecursiveTerm(w, table, depth), k + 1 + 1)
    ensures Completes(seeds, table, depth, k + 1, RecursiveTerm(w, table, depth))
            ==> Completes(seeds, table, depth, k, w)
  {
    NextLevel(seeds, table, depth, k + 1);
    EmittedUnfolds(w, table, depth, k + 1);
    RowsGrow(seeds, table, k);
    Regroup(RowsUpTo(seeds, table, k), Map(Selected, w),
      Emitted(RecursiveTerm(w, table, depth), table, depth, k + 1 + 1));
  }

  lemma {:induction false} EmittedArePaths(seeds: set<string>, table: seq<Row>, depth: nat, k: nat, w: seq<Partial>)
    requires k < depth && w == WorkingTable(seeds, table, k + 1) && AtLevel(w, k + 1)
    ensures Completes(seeds, table, depth, k, w)
    decreases depth - k
  {
    if w == [] || k + 1 == depth {
      LastLevel(seeds, table, depth, k, w);
    } else {
      MoveLevel(seeds, table, depth, k, w);
      EmittedArePaths(seeds, table, depth, k + 1, RecursiveTerm(w, table, depth));
    }
  }

  // ---------------------------------------------------------------- main results

  /** For every edge table, seed set and depth >= 1 the two queries return the same bag of rows. */
  lemma FixedJoinsEqualRecursion(seeds: set<string>, table: seq<Row>, depth: nat)
    requires depth >= 1
    ensures multiset(EvalUnionAll(FixedQuery(depth), seeds, table)) == multiset(RecursiveRows(seeds, table, depth))
  {
    FixedJoinsArePaths(seeds, table, depth);
    RecursionArePaths(seeds, table, depth);
  }

  lemma RecursionArePaths(seeds: set<string>, table: seq<Row>, depth: nat)
    requires depth >= 1
    ensures RecursiveRows(seeds, table, depth) == RowsUpTo(seeds, table, depth)
  {
    FirstLevel(seeds, table);
    LevelOfPaths(seeds, table, 1);
    EmittedArePaths(seeds, table, depth, 0, BaseTerm(seeds, table));
  }

  lemma {:induction false} CrossMember(ts: seq<seq<Row>>, table: seq<Row>, t: seq<Row>, e: Row)
    ensures t + [e] in Cross(ts, table) <==> t in ts && e in table
  {
    if ts != [] {
      CrossMember(ts[1..], table, t, e);
      var first := Map((x: Row) => ts[0] + [x], table);
      if t + [e] in first {
        var i :| 0 <= i < |first| && first[i] == t + [e];
        assert (ts[0] + [table[i]])[..|ts[0]|] == ts[0] && (t + [e])[..|t|] == t;
        assert |ts[0]| == |t|;
        assert (ts[0] + [table[i]])[|t|] == table[i];
        assert (t + [e])[|t|] == e;
      }
      if t == ts[0] && e in table {
        var i :| 0 <= i < |table| && table[i] == e;
        assert first[i] == t + [e];
      }
    }
  }

  lemma {:induction false} TupleMember(table: seq<Row>, n: nat, t: seq<Row>)
    ensures t in Tuples(table, n) <==> |t| == n && Over(table, t)
  {
    TuplesLength(table, n);
    if n > 0 && |t| == n {
      var front, last := t[..n - 1], t[n - 1];
      assert t == front + [last];
      TupleMember(table, n - 1, front);
      CrossMember(Tuples(table, n - 1), table, front, last);
      if Over(table, front) && last in table {
        forall i | 0 <= i < n ensures t[i] in table {
          if i < n - 1 { assert front[i] in table; }
        }
      }
      if Over(table, t) { assert forall i :: 0 <= i < n - 1 ==> front[i] == t[i]; assert t[n - 1] in table; }
    }
  }

  lemma {:induction false} PathMember(seeds: set<string>, table: seq<Row>, depth: nat, t: seq<Row>)
    ensures t in PathsUpTo(seeds, table, depth)
            <==> 1 <= |t| <= depth && Over(table, t) && SimplePath(seeds, t)
  {
    if depth > 0 {
      PathMember(seeds, table, depth - 1, t);
      TupleMember(table, depth, t);
      FilterMember(Simple(seeds), Tuples(table, depth), t);
    }
  }

  /** t is a simple contiguous path of length 1..depth over the table, from a seed, and r shows it. */
  ghost predicate Shows(seeds: set<string>, table: seq<Row>, depth: nat, t: seq<Row>, r: PathRow) {
    1 <= |t| <= depth && Over(table, t) && SimplePath(seeds, t) && Project(t) == r
  }

  lemma RowsUpToMember(seeds: set<string>, table: seq<Row>, depth: nat, r: PathRow)
    ensures r in RowsUpTo(seeds, table, depth) <==> exists t :: Shows(seeds, table, depth, t, r)
  {
    var ts := PathsUpTo(seeds, table, depth);
    var rows := RowsUpTo(seeds, table, depth);
    if r in rows {
      var i :| 0 <= i < |rows| && rows[i] == r;
      PathMember(seeds, table, depth, ts[i]);
      assert Shows(seeds, table, depth, ts[i], r);
    }
    if t :| Shows(seeds, table, depth, t, r) {
      PathMember(seeds, table, depth, t);
      var i :| 0 <= i < |ts| && ts[i] == t;
      assert rows[i] == r;
    }
  }

  /** Both results, row by row: a row is returned exactly when it shows such a path. */
  lemma RowsAreSimplePaths(seeds: set<string>, table: seq<Row>, depth: nat, r: PathRow)
    requires depth >= 1
    ensures r in EvalUnionAll(FixedQuery(depth), seeds, table) <==> exists t :: Shows(seeds, table, depth, t, r)
    ensures r in RecursiveRows(seeds, table, depth) <==> exists t :: Shows(seeds, table, depth, t, r)
  {
    FixedJoinsArePaths(seeds, table, depth);
    RecursionArePaths(seeds, table, depth);
    RowsUpToMember(seeds, table, depth, r);
  }

  lemma {:induction false} CrossDistinct(ts: seq<seq<Row>>, table: seq<Row>, k: nat)
    requires Distinct(ts) && Distinct(table) && forall i :: 0 <= i < |ts| ==> |ts[i]| == k
    ensures Distinct(Cross(ts, table))
  {
    if ts != [] {
      CrossDistinct(ts[1..], table, k);
      CrossLength(ts[1..], table, k);
      var first, rest := Map((e: Row) => ts[0] + [e], table), Cross(ts[1..], table);
      forall i, j | 0 <= i < j < |first| ensures first[i] != first[j] {
        assert first[i][k] == table[i] && first[j][k] == table[j];
      }
      forall i | 0 <= i < |first| ensures first[i] !in rest {
        CrossMember(ts[1..], table, ts[0], table[i]);
        assert forall j :: 0 < j < |ts| ==> ts[j] != ts[0];
      }
    }
  }

  lemma {:induction false} TuplesDistinct(table: seq<Row>, n: nat)
    requires Distinct(table)
    ensures Distinct(Tuples(table, n))
  {
    if n > 0 {
      TuplesDistinct(table, n - 1);
      TuplesLength(table, n - 1);
      CrossDistinct(Tuples(table, n - 1), table, n - 1);
    }
  }

  lemma DistinctConcat<A(!new)>(s: seq<A>, t: seq<A>)
    requires Distinct(s) && Distinct(t) && forall x :: x in t ==> x !in s
    ensures Distinct(s + t)
  {
    forall i, j | 0 <= i < j < |s + t| ensures (s + t)[i] != (s + t)[j] {
      if i < |s| <= j { assert t[j - |s|] in t; }
    }
  }

  lemma PathsOfLengthDistinct(seeds: set<string>, table: seq<Row>, k: nat)
    requires Distinct(table)
    ensures Distinct(PathsOfLength(seeds, table, k))
  {
    TuplesDistinct(table, k);
    FilterDistinct(Simple(seeds), Tuples(table, k));
  }

  lemma LongerIsNew(seeds: set<string>, table: seq<Row>, k: nat, t: seq<Row>)
    requires t in PathsOfLength(seeds, table, k + 1)
    ensures t !in PathsUpTo(seeds, table, k)
  {
    LengthOfPaths(seeds, table, k + 1);
    PathMember(seeds, table, k, t);
  }

  ghost predicate ListedOnce(seeds: set<string>, table: seq<Row>, depth: nat) {
    Distinct(PathsUpTo(seeds, table, depth))
  }

  lemma ListedOnceStep(seeds: set<string>, table: seq<Row>, k: nat)
    requires Distinct(table) && ListedOnce(seeds, table, k)
    ensures ListedOnce(seeds, table, k + 1)
  {
    PathsOfLengthDistinct(seeds, table, k + 1);
    forall t | t in PathsOfLength(seeds, table, k + 1) ensures t !in PathsUpTo(seeds, table, k) {
      LongerIsNew(seeds, table, k, t);
    }
    DistinctConcat(PathsUpTo(seeds, table, k), PathsOfLength(seeds, table, k + 1));
  }

  /** No path is returned twice: when the table repeats no row, every path is listed once. */
  lemma {:induction false} EachPathOnce(seeds: set<string>, table: seq<Row>, depth: nat)
    requires Distinct(table)
    ensures ListedOnce(seeds, table, depth)
  {
    if depth > 0 {
      EachPathOnce(seeds, table, depth - 1);
      ListedOnceStep(seeds, table, depth - 1);
    }
  }
}
