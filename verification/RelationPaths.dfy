/** The two bounded path queries of the relation comparison: a UNION ALL of fixed joins, generated
    one SELECT per path length, and a recursive query evaluated working table by working table.
    A query result is a bag of rows; sequences below list one possible order of it. */
module RelationPaths {
  import opened Prelude

  datatype Direction = Forward | Reverse

  /** A row of the temporary table k0_edges. */
  datatype Row = Row(edgeId: string, startId: string, endId: string, endType: string, direction: Direction)

  /** A result row: what both queries select. */
  datatype PathRow = PathRow(edges: seq<string>, directions: seq<Direction>, nodes: seq<string>, endType: string)

  // ---------------------------------------------------------------- what a path is

  function Nodes(t: seq<Row>): (nodes: seq<string>)
    ensures |nodes| == if t == [] then 0 else |t| + 1
  {
    if t == [] then [] else [t[0].startId] + Map((e: Row) => e.endId, t)
  }

  ghost predicate Contiguous(t: seq<Row>) {
    forall i :: 0 < i < |t| ==> t[i - 1].endId == t[i].startId
  }

  /** A simple contiguous path that leaves a seed: the meaning both queries are after. */
  ghost predicate SimplePath(seeds: set<string>, t: seq<Row>) {
    t != [] && t[0].startId in seeds && Contiguous(t) && Distinct(Nodes(t))
  }

  ghost predicate Over(table: seq<Row>, t: seq<Row>) {
    forall i :: 0 <= i < |t| ==> t[i] in table
  }

  function Project(t: seq<Row>): PathRow
  {
    PathRow(Map((e: Row) => e.edgeId, t), Map((e: Row) => e.direction, t), Nodes(t),
            if t == [] then "" else t[|t| - 1].endType)
  }

  // ---------------------------------------------------------------- fixed joins

  /** Aliases e1, e2, ... are numbered from 1, as in the generated text. */
  datatype Column = StartOf(alias: nat) | EndOf(alias: nat)

  datatype Clause = FromSeed | Avoids(alias: nat, prior: seq<Column>)

  /** ON e(left).end_id = e(right).start_id */
  datatype Join = Join(left: nat, right: nat)

  datatype Select = Select(size: nat, joins: seq<Join>, clauses: seq<Clause>)

  function JoinChain(size: nat): seq<Join> {
    if size < 2 then [] else JoinChain(size - 1) + [Join(size - 1, size)]
  }

  function PriorColumns(i: nat): seq<Column> {
    if i < 2 then [StartOf(1)] else PriorColumns(i - 1) + [EndOf(i - 1)]
  }

  function AvoidClauses(size: nat): seq<Clause> {
    if size == 0 then [] else AvoidClauses(size - 1) + [Avoids(size, PriorColumns(size))]
  }

  function FixedSelect(size: nat): Select {
    Select(size, JoinChain(size), [FromSeed] + AvoidClauses(size))
  }

  function FixedQuery(depth: nat): seq<Select> {
    if depth == 0 then [] else FixedQuery(depth - 1) + [FixedSelect(depth)]
  }

  /** The generator: one SELECT per size, its joins, then one avoidance clause per alias. */
  method FixedJoinSql(depth: nat) returns (selections: seq<Select>)
    ensures selections == FixedQuery(depth)
  {
    selections := [];
    for size := 1 to depth + 1
      invariant selections == FixedQuery(size - 1)
    {
      var joins: seq<Join> := [];
      for i := 2 to size + 1
        invariant joins == JoinChain(i - 1)
      {
        joins := joins + [Join(i - 1, i)];
      }
      var clauses := [FromSeed];
      for i := 1 to size + 1
        invariant clauses == [FromSeed] + AvoidClauses(i - 1)
      {
        var prior := [StartOf(1)];
        for j := 1 to i
          invariant prior == PriorColumns(j)
        {
          prior := prior + [EndOf(j)];
        }
        clauses := clauses + [Avoids(i, prior)];
      }
      selections := selections + [Select(size, joins, clauses)];
    }
  }

  predicate HasValue(t: seq<Row>, c: Column, v: string) {
    1 <= c.alias <= |t| && v == if c.StartOf? then t[c.alias - 1].startId else t[c.alias - 1].endId
  }

  predicate JoinHolds(t: seq<Row>, j: Join) {
    1 <= j.left <= |t| && 1 <= j.right <= |t| && t[j.left - 1].endId == t[j.right - 1].startId
  }

  predicate ClauseHolds(seeds: set<string>, t: seq<Row>, c: Clause) {
    match c
    case FromSeed => 1 <= |t| && t[0].startId in seeds
    case Avoids(i, prior) =>
      1 <= i <= |t| && forall k :: 0 <= k < |prior| ==> !HasValue(t, prior[k], t[i - 1].endId)
  }

  predicate Satisfies(q: Select, seeds: set<string>, t: seq<Row>) {
    && |t| == q.size
    && (forall k :: 0 <= k < |q.joins| ==> JoinHolds(t, q.joins[k]))
    && (forall k :: 0 <= k < |q.clauses| ==> ClauseHolds(seeds, t, q.clauses[k]))
  }

  function Cross(ts: seq<seq<Row>>, table: seq<Row>): seq<seq<Row>> {
    if ts == [] then []
    else Map((e: Row) => ts[0] + [e], table) + Cross(ts[1..], table)
  }

  /** FROM k0_edges e1, ..., k0_edges en: every choice of n rows. */
  function Tuples(table: seq<Row>, n: nat): seq<seq<Row>> {
    if n == 0 then [[]] else Cross(Tuples(table, n - 1), table)
  }

  function EvalSelect(q: Select, seeds: set<string>, table: seq<Row>): seq<PathRow> {
    Map(Project, Filter((t: seq<Row>) => Satisfies(q, seeds, t), Tuples(table, q.size)))
  }

  function EvalUnionAll(qs: seq<Select>, seeds: set<string>, table: seq<Row>): seq<PathRow> {
    if qs == [] then []
    else EvalUnionAll(qs[..|qs| - 1], seeds, table) + EvalSelect(qs[|qs| - 1], seeds, table)
  }

  // ---------------------------------------------------------------- recursive query

  datatype Partial = Partial(edges: seq<string>, directions: seq<Direction>, nodes: seq<string>,
                             endId: string, endType: string)

  function BaseTerm(seeds: set<string>, table: seq<Row>): seq<Partial> {
    Map((e: Row) => Partial([e.edgeId], [e.direction], [e.startId, e.endId], e.endId, e.endType),
        Filter((e: Row) => e.startId in seeds && e.startId != e.endId, table))
  }

  function Grow(p: Partial, e: Row): Partial {
    Partial(p.edges + [e.edgeId], p.directions + [e.direction], p.nodes + [e.endId], e.endId, e.endType)
  }

  predicate MayGrow(p: Partial, e: Row, depth: nat) {
    p.endId == e.startId && |p.edges| < depth && e.endId !in p.nodes
  }

  function RecursiveTerm(w: seq<Partial>, table: seq<Row>, depth: nat): seq<Partial> {
    if w == [] then []
    else Map((e: Row) => Grow(w[0], e), Filter((e: Row) => MayGrow(w[0], e, depth), table))
         + RecursiveTerm(w[1..], table, depth)
  }

  function Selected(p: Partial): PathRow {
    PathRow(p.edges, p.directions, p.nodes, p.endType)
  }

  ghost predicate AtLevel(w: seq<Partial>, level: nat) {
    forall i :: 0 <= i < |w| ==> |w[i].edges| == level
  }

  lemma {:induction false} RecursiveTermLevel(w: seq<Partial>, table: seq<Row>, depth: nat, level: nat)
    requires AtLevel(w, level)
    ensures AtLevel(RecursiveTerm(w, table, depth), level + 1)
    ensures level >= depth ==> RecursiveTerm(w, table, depth) == []
  {
    if w != [] {
      RecursiveTermLevel(w[1..], table, depth, level);
      if level >= depth {
        FilterNone((e: Row) => MayGrow(w[0], e, depth), table);
      }
    }
  }

  /** How WITH RECURSIVE ... UNION ALL is evaluated: emit the working table, replace it by the
      recursive term over it, stop when it is empty. */
  method EvalRecursive(seeds: set<string>, table: seq<Row>, depth: nat) returns (rows: seq<PathRow>)
    ensures rows == RecursiveRows(seeds, table, depth)
  {
    rows := [];
    var w := BaseTerm(seeds, table);
    ghost var level := 1;
    while w != []
      invariant AtLevel(w, level)
      invariant rows + Emitted(w, table, depth, level) == RecursiveRows(seeds, table, depth)
      decreases if level <= depth then depth + 1 - level else 0, |w|
    {
      rows := rows + Map(Selected, w);
      RecursiveTermLevel(w, table, depth, level);
      w := RecursiveTerm(w, table, depth);
      level := level + 1;
    }
  }

  /** The working tables still to be emitted, from one whose paths have `level` edges. */
  function Emitted(w: seq<Partial>, table: seq<Row>, depth: nat, ghost level: nat): seq<PathRow>
    requires AtLevel(w, level)
    decreases if level <= depth then depth + 1 - level else 0, |w|
  {
    if w == [] then []
    else
      RecursiveTermLevel(w, table, depth, level);
      Map(Selected, w) + Emitted(RecursiveTerm(w, table, depth), table, depth, level + 1)
  }

  function RecursiveRows(seeds: set<string>, table: seq<Row>, depth: nat): seq<PathRow> {
    Emitted(BaseTerm(seeds, table), table, depth, 1)
  }
}
