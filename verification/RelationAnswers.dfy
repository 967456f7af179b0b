/** Which answers a query plan gets, end to end: from the facts and documents, without the edge table, the
    queries or the constraining loop in between. */
module RelationAnswers {
  import opened Prelude
  import opened RelationPaths
  import opened RelationEquivalence
  import opened RelationConstraints

  // ---------------------------------------------------------------- entity types

  predicate Mentions(f: Fact, v: string) {
    v == f.subjectId || v == f.objectId
  }

  /** The type a fact gives to an entity it mentions; the object counts when it is on both sides. */
  function TypeIn(f: Fact, v: string): string {
    if v == f.objectId then f.objectType else f.subjectType
  }

  /** The last fact that mentions v gives it this type. */
  ghost predicate LastTyped(facts: seq<Fact>, v: string, entityType: string) {
    exists i :: 0 <= i < |facts| && Mentions(facts[i], v) && TypeIn(facts[i], v) == entityType
                && forall j :: i < j < |facts| ==> !Mentions(facts[j], v)
  }

  lemma LastTypedAppend(front: seq<Fact>, last: Fact, v: string, entityType: string)
    ensures LastTyped(front + [last], v, entityType)
      <==> if Mentions(last, v) then TypeIn(last, v) == entityType else LastTyped(front, v, entityType)
  {
    var facts := front + [last];
    assert facts[|front|] == last;
    if !Mentions(last, v) && LastTyped(front, v, entityType) {
      var i :| 0 <= i < |front| && Mentions(front[i], v) && TypeIn(front[i], v) == entityType
               && forall j :: i < j < |front| ==> !Mentions(front[j], v);
      assert Mentions(facts[i], v);
    }
    if LastTyped(facts, v, entityType) {
      var i :| 0 <= i < |facts| && Mentions(facts[i], v) && TypeIn(facts[i], v) == entityType
               && forall j :: i < j < |facts| ==> !Mentions(facts[j], v);
      if i < |front| {
        assert !Mentions(facts[|front|], v) && Mentions(front[i], v);
        assert forall j :: i < j < |front| ==> front[j] == facts[j];
      }
    }
  }

  lemma {:induction false} NodeTypesMeans(facts: seq<Fact>, v: string, entityType: string)
    ensures v in NodeTypes(facts) && NodeTypes(facts)[v] == entityType <==> LastTyped(facts, v, entityType)
  {
    if facts != [] {
      var front, last := facts[..|facts| - 1], facts[|facts| - 1];
      NodeTypesMeans(front, v, entityType);
      LastTypedAppend(front, last, v, entityType);
      assert facts == front + [last];
    }
  }

  // ---------------------------------------------------------------- admitted paths

  /** The SKU entities on the path. */
  ghost predicate SkuOn(facts: seq<Fact>, t: seq<Row>, v: string) {
    v in Nodes(t) && LastTyped(facts, v, "SKU")
  }

  predicate Substitutes(along: seq<Fact>, i: nat) {
    i < |along| && along[i].predicateName == SUBSTITUTE
  }

  /** What a plan asks of a path t along these facts: a targeted end; no SKU but the plan's; with the notice
      scope applied, no SKU outside what a notice is limited to or inside what it excludes; and no chain of
      substitutions over one that says it is not transitive. */
  ghost predicate Admits(facts: seq<Fact>, plan: Plan, t: seq<Row>, along: seq<Fact>)
    requires t != []
  {
    && t[|t| - 1].endType in plan.targetTypes
    && (plan.targetIds == {} || t[|t| - 1].endId in plan.targetIds)
    && (plan.context.skuId != "" ==> forall v :: SkuOn(facts, t, v) ==> v == plan.context.skuId)
    && (plan.context.applySkuScope ==> forall i, v :: 0 <= i < |along| && SkuOn(facts, t, v) ==>
          && (along[i].qualifiers.onlySkus == {} || v in along[i].qualifiers.onlySkus)
          && v !in along[i].qualifiers.excludedSkus)
    && ((exists i: nat, j: nat :: i < j && Substitutes(along, i) && Substitutes(along, j)) ==>
          forall i: nat :: Substitutes(along, i) ==> along[i].qualifiers.transitive != Some(false))
  }

  lemma {:induction false} TwoKept<A>(p: A -> bool, s: seq<A>)
    ensures |Filter(p, s)| >= 1 <==> exists i :: 0 <= i < |s| && p(s[i])
    ensures |Filter(p, s)| > 1 <==> exists i, j :: 0 <= i < j < |s| && p(s[i]) && p(s[j])
  {
    if s != [] {
      var rest := s[1..];
      TwoKept(p, rest);
      assert forall k :: 0 <= k < |rest| ==> rest[k] == s[k + 1];
      if i :| 0 <= i < |rest| && p(rest[i]) { assert p(s[i + 1]); }
      if i, j :| 0 <= i < j < |rest| && p(rest[i]) && p(rest[j]) { assert p(s[i + 1]) && p(s[j + 1]); }
      if i, j :| 0 <= i < j < |s| && p(s[i]) && p(s[j]) {
        assert p(rest[j - 1]);
        if i > 0 { assert p(rest[i - 1]); }
      }
      if i :| 0 <= i < |s| && p(s[i]) { if i > 0 { assert p(rest[i - 1]); } }
    }
  }

  lemma SkuNodesMeans(facts: seq<Fact>, t: seq<Row>, v: string)
    requires Known(facts, Project(t))
    ensures v in SkuNodes(facts, Project(t)) <==> SkuOn(facts, t, v)
  {
    var r := Project(t);
    NodeTypesMeans(facts, v, "SKU");
    if v in SkuNodes(facts, r) {
      var i :| 0 <= i < |r.nodes| && NodeTypes(facts)[r.nodes[i]] == "SKU" && r.nodes[i] == v;
    }
    if SkuOn(facts, t, v) {
      var i :| 0 <= i < |Nodes(t)| && Nodes(t)[i] == v;
      assert r.nodes[i] == v;
    }
  }

  lemma NoticeMeans(q: Qualifiers, skus: set<string>)
    ensures NoticeAllows(q, skus) <==> forall v :: v in skus ==>
      (q.onlySkus == {} || v in q.onlySkus) && v !in q.excludedSkus
  {
    if skus * q.excludedSkus != {} {
      var v :| v in skus * q.excludedSkus;
    } else {
      forall v | v in skus ensures v !in q.excludedSkus { assert v !in skus * q.excludedSkus; }
    }
  }

  lemma OnlyOne(skus: set<string>, id: string)
    ensures skus == {} || skus == {id} <==> forall v :: v in skus ==> v == id
  {
    if skus != {} && forall v :: v in skus ==> v == id {
      var v :| v in skus;
    }
  }

  lemma NoticesMean(facts: seq<Fact>, t: seq<Row>, along: seq<Fact>, skus: set<string>)
    requires forall v :: v in skus <==> SkuOn(facts, t, v)
    ensures (forall i :: 0 <= i < |along| ==> NoticeAllows(along[i].qualifiers, skus)) <==>
      forall i, v :: 0 <= i < |along| && SkuOn(facts, t, v) ==>
        && (along[i].qualifiers.onlySkus == {} || v in along[i].qualifiers.onlySkus)
        && v !in along[i].qualifiers.excludedSkus
  {
    forall i | 0 <= i < |along|
      ensures NoticeAllows(along[i].qualifiers, skus) <==>
        forall v :: SkuOn(facts, t, v) ==>
          && (along[i].qualifiers.onlySkus == {} || v in along[i].qualifiers.onlySkus)
          && v !in along[i].qualifiers.excludedSkus {
      NoticeMeans(along[i].qualifiers, skus);
    }
  }

  lemma ManySubstitutions(along: seq<Fact>)
    ensures |Filter(IsSubstitution(), along)| > 1 <==>
      exists i: nat, j: nat :: i < j && Substitutes(along, i) && Substitutes(along, j)
  {
    TwoKept(IsSubstitution(), along);
    if i: nat, j: nat :| i < j && Substitutes(along, i) && Substitutes(along, j) {
      assert IsSubstitution()(along[i]) && IsSubstitution()(along[j]);
    }
    if i, j :| 0 <= i < j < |along| && IsSubstitution()(along[i]) && IsSubstitution()(along[j]) {
      assert Substitutes(along, i) && Substitutes(along, j);
    }
  }

  lemma AllTransitive(along: seq<Fact>)
    ensures var substitutions := Filter(IsSubstitution(), along);
      (forall i :: 0 <= i < |substitutions| ==> substitutions[i].qualifiers.transitive != Some(false)) <==>
      forall i: nat :: Substitutes(along, i) ==> along[i].qualifiers.transitive != Some(false)
  {
    var substitutions := Filter(IsSubstitution(), along);
    forall f ensures f in substitutions <==> f in along && f.predicateName == SUBSTITUTE {
      FilterMember(IsSubstitution(), along, f);
    }
    if i :| 0 <= i < |substitutions| && substitutions[i].qualifiers.transitive == Some(false) {
      assert substitutions[i] in along;
      var k: nat :| k < |along| && along[k] == substitutions[i];
      assert Substitutes(along, k);
    }
    if i: nat :| Substitutes(along, i) && along[i].qualifiers.transitive == Some(false) {
      assert along[i] in along;
      var k :| 0 <= k < |substitutions| && substitutions[k] == along[i];
    }
  }

  lemma KeepsMeans(facts: seq<Fact>, plan: Plan, t: seq<Row>)
    requires t != [] && Known(facts, Project(t))
    ensures Keeps(facts, plan, Project(t)) <==> Admits(facts, plan, t, RowFacts(facts, Project(t)))
  {
    var r := Project(t);
    var along, skus := RowFacts(facts, r), SkuNodes(facts, r);
    forall v ensures v in skus <==> SkuOn(facts, t, v) { SkuNodesMeans(facts, t, v); }
    OnlyOne(skus, plan.context.skuId);
    NoticesMean(facts, t, along, skus);
    ManySubstitutions(along);
    AllTransitive(along);
    assert r.nodes[|r.nodes| - 1] == t[|t| - 1].endId;
  }

  // ---------------------------------------------------------------- answers

  /** Each hop of t runs along the fact beside it, which grants it to the principal. */
  ghost predicate Runs(documents: map<string, Document>, facts: seq<Fact>, who: Principal, plan: Plan, asOf: int,
                       t: seq<Row>, along: seq<Fact>) {
    |t| == |along| && forall i :: 0 <= i < |t| ==>
      along[i] in facts && Grants(documents, along[i], who, plan, asOf, t[i])
  }

  /** The output shows the path: its hops, its nodes, the qualifiers of its facts, and their sources. */
  ghost predicate Presents(o: Output, t: seq<Row>, along: seq<Fact>) {
    && |o.path| == |o.qualifiers| == |t| == |along| && o.nodes == Nodes(t)
    && (forall i :: 0 <= i < |t| ==>
          o.path[i] == Hop(t[i].edgeId, t[i].direction) && o.qualifiers[i] == along[i].qualifiers)
    && (forall v :: v in o.evidence <==> v != "" && exists i :: 0 <= i < |along| && along[i].sourceVersion == v)
  }

  /** The answer to a plan: a simple path from a seed, not too long, over facts that grant its hops, and
      admitted by the plan. */
  ghost predicate Answers(documents: map<string, Document>, facts: seq<Fact>, who: Principal, plan: Plan, asOf: int,
                          seeds: set<string>, depth: nat, t: seq<Row>, along: seq<Fact>) {
    && 1 <= |t| <= depth && SimplePath(seeds, t)
    && Runs(documents, facts, who, plan, asOf, t, along) && Admits(facts, plan, t, along)
  }

  lemma AlongIs(documents: map<string, Document>, facts: seq<Fact>, who: Principal, plan: Plan, asOf: int,
                t: seq<Row>, along: seq<Fact>)
    requires FactIdsUnique(facts) && Runs(documents, facts, who, plan, asOf, t, along) && Known(facts, Project(t))
    ensures along == RowFacts(facts, Project(t))
  {
    forall i | 0 <= i < |t| ensures along[i] == RowFacts(facts, Project(t))[i] {
      EdgeMapIs(facts, along[i]);
      assert Project(t).edges[i] == t[i].edgeId;
    }
  }

  lemma ToOutputPresents(facts: seq<Fact>, t: seq<Row>)
    requires Known(facts, Project(t))
    ensures Presents(ToOutput(facts, Project(t)), t, RowFacts(facts, Project(t)))
  {
  }

  lemma PresentsOne(a: Output, b: Output, t: seq<Row>, along: seq<Fact>)
    requires Presents(a, t, along) && Presents(b, t, along)
    ensures a == b
  {
    assert a.path == b.path && a.qualifiers == b.qualifiers;
    forall v ensures v in a.evidence <==> v in b.evidence {}
    assert a.evidence == b.evidence;
  }

  lemma {:induction false} ConstrainedHas(facts: seq<Fact>, plan: Plan, rows: seq<PathRow>, r: PathRow)
    requires AllKnown(facts, rows) && r in rows && Keeps(facts, plan, r)
    ensures ToOutput(facts, r) in Constrained(facts, plan, rows)
  {
    var front, last := rows[..|rows| - 1], rows[|rows| - 1];
    assert rows == front + [last];
    if r in front { ConstrainedHas(facts, plan, front, r); }
  }

  /** A shown row is kept exactly when its path is an answer. */
  lemma AnswerKept(documents: map<string, Document>, facts: seq<Fact>, who: Principal, plan: Plan, asOf: int,
                   seeds: set<string>, depth: nat, t: seq<Row>)
    requires FactIdsUnique(facts) && Eligible(documents, facts, who, plan, asOf).Some? && Known(facts, Project(t))
    requires Shows(seeds, Eligible(documents, facts, who, plan, asOf).value, depth, t, Project(t))
    requires Keeps(facts, plan, Project(t))
    ensures Answers(documents, facts, who, plan, asOf, seeds, depth, t, RowFacts(facts, Project(t)))
  {
    var along := RowFacts(facts, Project(t));
    KeepsMeans(facts, plan, t);
    forall i | 0 <= i < |t| ensures along[i] in facts && Grants(documents, along[i], who, plan, asOf, t[i]) {
      var f := RowFactGranted(documents, facts, who, plan, asOf, t[i]);
      assert Project(t).edges[i] == t[i].edgeId;
    }
  }

  lemma AnswerShown(documents: map<string, Document>, facts: seq<Fact>, who: Principal, plan: Plan, asOf: int,
                    seeds: set<string>, depth: nat, t: seq<Row>, along: seq<Fact>)
    requires FactIdsUnique(facts) && Eligible(documents, facts, who, plan, asOf).Some?
    requires Answers(documents, facts, who, plan, asOf, seeds, depth, t, along)
    ensures Shows(seeds, Eligible(documents, facts, who, plan, asOf).value, depth, t, Project(t))
    ensures Known(facts, Project(t)) && Keeps(facts, plan, Project(t)) && along == RowFacts(facts, Project(t))
  {
    forall i | 0 <= i < |t| ensures t[i] in Eligible(documents, facts, who, plan, asOf).value {
      EligibleMeaning(documents, facts, who, plan, asOf, t[i]);
    }
    QueryRowsKnown(documents, facts, who, plan, asOf, seeds, depth, t, Project(t));
    AlongIs(documents, facts, who, plan, asOf, t, along);
    KeepsMeans(facts, plan, t);
  }

  ghost predicate Answered(documents: map<string, Document>, facts: seq<Fact>, who: Principal, plan: Plan, asOf: int,
                           seeds: set<string>, depth: nat, o: Output) {
    exists t, along :: Answers(documents, facts, who, plan, asOf, seeds, depth, t, along) && Presents(o, t, along)
  }

  /** The result, whichever query it comes from and in whatever order: exactly the answers to the plan. */
  lemma ReturnedExactly(dump: Dump, documents: map<string, Document>, facts: seq<Fact>, who: Principal, plan: Plan,
                        asOf: int, seeds: set<string>, depth: nat, rows: seq<PathRow>, o: Output)
    requires FactIdsUnique(facts) && Eligible(documents, facts, who, plan, asOf).Some? && depth >= 1
    requires var table := Eligible(documents, facts, who, plan, asOf).value;
      || multiset(rows) == multiset(RecursiveRows(seeds, table, depth))
      || multiset(rows) == multiset(EvalUnionAll(FixedQuery(depth), seeds, table))
    ensures AllKnown(facts, rows)
    ensures o in SortByPath(dump, Constrained(facts, plan, rows))
      <==> Answered(documents, facts, who, plan, asOf, seeds, depth, o)
  {
    var table := Eligible(documents, facts, who, plan, asOf).value;
    FixedJoinsEqualRecursion(seeds, table, depth);
    RecursiveRowsShown(seeds, table, depth, rows);
    QueryRowsAllKnown(documents, facts, who, plan, asOf, seeds, depth, rows);
    var kept := Constrained(facts, plan, rows);
    SortSorts(dump, kept);
    assert o in SortByPath(dump, kept) <==> o in kept by {
      assert o in multiset(SortByPath(dump, kept)) <==> o in multiset(kept);
    }
    if o in kept {
      KeptIsAnswer(documents, facts, who, plan, asOf, seeds, depth, rows, o);
    }
    if t, along :| Answers(documents, facts, who, plan, asOf, seeds, depth, t, along) && Presents(o, t, along) {
      AnswerIsKept(documents, facts, who, plan, asOf, seeds, depth, rows, o, t, along);
    }
  }

  lemma KeptIsAnswer(documents: map<string, Document>, facts: seq<Fact>, who: Principal, plan: Plan, asOf: int,
                     seeds: set<string>, depth: nat, rows: seq<PathRow>, o: Output)
    requires FactIdsUnique(facts) && Eligible(documents, facts, who, plan, asOf).Some? && AllKnown(facts, rows)
    requires ShownRows(seeds, Eligible(documents, facts, who, plan, asOf).value, depth, rows)
    requires o in Constrained(facts, plan, rows)
    ensures Answered(documents, facts, who, plan, asOf, seeds, depth, o)
  {
    ConstrainedOrigin(facts, plan, rows, o);
    var r :| r in rows && Known(facts, r) && Keeps(facts, plan, r) && o == ToOutput(facts, r);
    var t :| Shows(seeds, Eligible(documents, facts, who, plan, asOf).value, depth, t, r);
    AnswerKept(documents, facts, who, plan, asOf, seeds, depth, t);
    ToOutputPresents(facts, t);
  }

  lemma AnswerIsKept(documents: map<string, Document>, facts: seq<Fact>, who: Principal, plan: Plan, asOf: int,
                     seeds: set<string>, depth: nat, rows: seq<PathRow>, o: Output, t: seq<Row>, along: seq<Fact>)
    requires FactIdsUnique(facts) && Eligible(documents, facts, who, plan, asOf).Some? && AllKnown(facts, rows)
      && depth >= 1
    requires multiset(rows) == multiset(RecursiveRows(seeds, Eligible(documents, facts, who, plan, asOf).value, depth))
    requires Answers(documents, facts, who, plan, asOf, seeds, depth, t, along) && Presents(o, t, along)
    ensures o in Constrained(facts, plan, rows)
  {
    var table := Eligible(documents, facts, who, plan, asOf).value;
    AnswerShown(documents, facts, who, plan, asOf, seeds, depth, t, along);
    RowsAreSimplePaths(seeds, table, depth, Project(t));
    assert Project(t) in multiset(rows);
    ConstrainedHas(facts, plan, rows, Project(t));
    ToOutputPresents(facts, t);
    PresentsOne(o, ToOutput(facts, Project(t)), t, along);
  }
}
