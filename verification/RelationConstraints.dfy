/** From knowledge facts to the temporary edge table (eligible_edges), and from result rows to the
    sorted, constrained paths that the comparison checks for equality (constrain_paths). */
module RelationConstraints {
  import opened Prelude
  import opened RelationPaths
  import opened RelationEquivalence

  const SUBSTITUTE := "POTENTIAL_SUBSTITUTE_FOR"

  datatype Principal = Principal(store: string, role: string)

  datatype Document = Document(store: string, allowedRoles: set<string>, status: string, validFrom: int,
    validUntil: int)

  /** Qualifiers of a fact; an absent key is None, an absent list is empty. */
  datatype Qualifiers = Qualifiers(
    labels: map<string, string>,
    allowedRoles: set<string>,
    onlySkus: set<string>,
    excludedSkus: set<string>,
    consentRequired: bool,
    nutLabelRequired: bool,
    nutClaimAllowed: Option<bool>,
    transitive: Option<bool>)

  datatype Fact = Fact(
    edgeId: string, store: string, assertionStatus: string, validFrom: int, validUntil: int,
    predicateName: string, sourceVersion: string,
    subjectId: string, subjectType: string, objectId: string, objectType: string, qualifiers: Qualifiers)

  /** Qualifier context of a query plan. */
  datatype Context = Context(
    labels: map<string, string>, allowHistorical: bool, consent: Option<bool>, nutLabel: Option<bool>,
    nutClaim: Option<bool>, skuId: string, applySkuScope: bool)

  datatype Plan = Plan(
    allowedPredicates: set<string>, bothDirections: bool, targetTypes: set<string>, targetIds: set<string>,
    context: Context)

  // ---------------------------------------------------------------- eligible edges

  predicate DocAllowed(doc: Document, who: Principal, date: int, historical: bool) {
    && doc.store == who.store
    && who.role in doc.allowedRoles
    && doc.status == "published"
    && (historical || doc.validFrom <= date < doc.validUntil)
  }

  predicate Clashes(c: Context, q: Qualifiers, key: string) {
    key in c.labels && key in q.labels && c.labels[key] != q.labels[key]
  }

  predicate Unmet(c: Context, q: Qualifiers, key: string) {
    key in q.labels && !(key in c.labels && c.labels[key] == q.labels[key])
  }

  /** An unknown prerequisite is not an approval: a substitution needs each of its conditions met. */
  predicate SubstitutionAllowed(c: Context, q: Qualifiers) {
    && !Unmet(c, q, "mission_id") && !Unmet(c, q, "use")
    && (q.consentRequired ==> c.consent == Some(true))
    && (q.nutLabelRequired ==> c.nutLabel == Some(true))
    && (q.nutClaimAllowed == Some(false) ==> c.nutClaim == Some(false))
  }

  /** A verified fact of the store, current at the date, with a predicate the plan allows. */
  predicate InScope(f: Fact, who: Principal, plan: Plan, asOf: int) {
    && f.store == who.store && f.assertionStatus == "verified"
    && f.validFrom <= asOf < f.validUntil
    && f.predicateName in plan.allowedPredicates
  }

  /** None: a document the fact names is missing, and the lookup raises a KeyError. */
  function Visible(documents: map<string, Document>, f: Fact, who: Principal, plan: Plan, asOf: int): Option<bool> {
    if f.sourceVersion != "" && f.sourceVersion !in documents then None
    else if f.sourceVersion != "" && !DocAllowed(documents[f.sourceVersion], who, asOf, false) then Some(false)
    else if f.subjectType == "DocumentVersion" && f.subjectId !in documents then None
    else if f.objectType == "DocumentVersion" && f.objectId !in documents then None
    else
      var historical := f.predicateName == "SUPERSEDES" && plan.context.allowHistorical;
      Some(&& (f.subjectType == "DocumentVersion" ==> DocAllowed(documents[f.subjectId], who, asOf, false))
           && (f.objectType == "DocumentVersion" ==> DocAllowed(documents[f.objectId], who, asOf, historical)))
  }

  predicate Qualified(f: Fact, who: Principal, plan: Plan) {
    var c, q := plan.context, f.qualifiers;
    && !Clashes(c, q, "mission_id") && !Clashes(c, q, "mission_status")
    && !Clashes(c, q, "action_status") && !Clashes(c, q, "use")
    && (q.allowedRoles == {} || who.role in q.allowedRoles)
    && (f.predicateName == SUBSTITUTE ==> SubstitutionAllowed(c, q))
  }

  function Hops(f: Fact, plan: Plan): seq<Row> {
    [Row(f.edgeId, f.subjectId, f.objectId, f.objectType, Forward)]
    + if plan.bothDirections && f.predicateName != SUBSTITUTE
      then [Row(f.edgeId, f.objectId, f.subjectId, f.subjectType, Reverse)]
      else []
  }

  function FactRows(documents: map<string, Document>, f: Fact, who: Principal, plan: Plan,
                    asOf: int): Option<seq<Row>> {
    if !InScope(f, who, plan, asOf) then Some([])
    else
      match Visible(documents, f, who, plan, asOf)
      case None => None
      case Some(seen) => Some(if seen && Qualified(f, who, plan) then Hops(f, plan) else [])
  }

  function Eligible(documents: map<string, Document>, facts: seq<Fact>, who: Principal, plan: Plan, asOf: int)
    : Option<seq<Row>>
  {
    if facts == [] then Some([])
    else
      var front := Eligible(documents, facts[..|facts| - 1], who, plan, asOf);
      var last := FactRows(documents, facts[|facts| - 1], who, plan, asOf);
      if front.Some? && last.Some? then Some(front.value + last.value) else None
  }

  lemma {:induction false} EligibleMissing(documents: map<string, Document>, facts: seq<Fact>, who: Principal,
                                           plan: Plan, asOf: int, i: nat)
    requires i < |facts| && FactRows(documents, facts[i], who, plan, asOf).None?
    ensures Eligible(documents, facts, who, plan, asOf).None?
  {
    var front := facts[..|facts| - 1];
    if i < |front| {
      assert front[i] == facts[i];
      EligibleMissing(documents, front, who, plan, asOf, i);
    }
  }

  method EligibleEdges(documents: map<string, Document>, facts: seq<Fact>, who: Principal, plan: Plan, asOf: int)
    returns (out: Option<seq<Row>>)
    ensures out == Eligible(documents, facts, who, plan, asOf)
  {
    var rows: seq<Row> := [];
    for i := 0 to |facts|
      invariant Eligible(documents, facts[..i], who, plan, asOf) == Some(rows)
    {
      assert facts[..i + 1][..i] == facts[..i];
      var more := FactRows(documents, facts[i], who, plan, asOf);
      if more.None? {
        EligibleMissing(documents, facts, who, plan, asOf, i);
        return None;
      }
      rows := rows + more.value;
    }
    assert facts[..|facts|] == facts;
    out := Some(rows);
  }

  ghost predicate FactIdsUnique(facts: seq<Fact>) {
    forall i, j :: 0 <= i < j < |facts| ==> facts[i].edgeId != facts[j].edgeId
  }

  /** No two rows of the table share edge id and direction. */
  ghost predicate HopsUnique(table: seq<Row>) {
    forall i, j :: 0 <= i < j < |table| ==>
      table[i].edgeId != table[j].edgeId || table[i].direction != table[j].direction
  }

  ghost predicate IsHopOf(r: Row, f: Fact) {
    && r.edgeId == f.edgeId
    && if r.direction.Forward?
       then r.startId == f.subjectId && r.endId == f.objectId && r.endType == f.objectType
       else
         && r.startId == f.objectId && r.endId == f.subjectId && r.endType == f.subjectType
         && f.predicateName != SUBSTITUTE
  }

  /** A document version the principal may read: of its store, open to its role, published, and in force at the
      date unless only its place in history is shown. */
  predicate Readable(documents: map<string, Document>, version: string, who: Principal, date: int, historical: bool) {
    && version in documents
    && var doc := documents[version];
       && doc.store == who.store && who.role in doc.allowedRoles && doc.status == "published"
       && (!historical ==> doc.validFrom <= date && date < doc.validUntil)
  }

  const COMPARED: set<string> := {"mission_id", "mission_status", "action_status", "use"}
  const REQUIRED_OF_SUBSTITUTES: set<string> := {"mission_id", "use"}

  /** The conditions a fact puts on its use: the plan's context contradicts none of its labels; a substitution
      needs its labels met, not merely not contradicted, and whatever consent, label or claim it asks for. */
  predicate Meets(c: Context, q: Qualifiers, substitution: bool, role: string) {
    && (forall key :: key in COMPARED && key in c.labels && key in q.labels ==> c.labels[key] == q.labels[key])
    && (q.allowedRoles != {} ==> role in q.allowedRoles)
    && (substitution ==>
          && (forall key :: key in REQUIRED_OF_SUBSTITUTES && key in q.labels ==>
                key in c.labels && c.labels[key] == q.labels[key])
          && (q.consentRequired ==> c.consent == Some(true)) && (q.nutLabelRequired ==> c.nutLabel == Some(true))
          && (q.nutClaimAllowed == Some(false) ==> c.nutClaim == Some(false)))
  }

  /** The fact is of the principal's store, verified, in force at the date, and of a kind the plan follows. */
  predicate Holds(f: Fact, who: Principal, plan: Plan, asOf: int) {
    && f.store == who.store && f.assertionStatus == "verified" && f.validFrom <= asOf && asOf < f.validUntil
    && f.predicateName in plan.allowedPredicates
  }

  /** What a fact has to meet to put row r into the edge table: it is a verified, current fact of the
      principal's store with a predicate the plan allows; the principal may read its source and the document
      versions it names, superseded ones as metadata only where the plan says so; its qualifiers are met; and
      it is read backwards only where the plan goes both ways, a substitution claim never. */
  ghost predicate Grants(documents: map<string, Document>, f: Fact, who: Principal, plan: Plan, asOf: int, r: Row) {
    && Holds(f, who, plan, asOf) && Meets(plan.context, f.qualifiers, f.predicateName == SUBSTITUTE, who.role)
    && IsHopOf(r, f) && (r.direction.Reverse? ==> plan.bothDirections)
    && (f.sourceVersion != "" ==> Readable(documents, f.sourceVersion, who, asOf, false))
    && (f.subjectType == "DocumentVersion" ==> Readable(documents, f.subjectId, who, asOf, false))
    && (f.objectType == "DocumentVersion" ==>
          Readable(documents, f.objectId, who, asOf, f.predicateName == "SUPERSEDES" && plan.context.allowHistorical))
  }

  lemma QualifiedMeans(f: Fact, who: Principal, plan: Plan)
    ensures Qualified(f, who, plan) <==> Meets(plan.context, f.qualifiers, f.predicateName == SUBSTITUTE, who.role)
  {
    assert forall key ::
      key in COMPARED <==> key == "mission_id" || key == "mission_status" || key == "action_status" || key == "use";
    assert forall key :: key in REQUIRED_OF_SUBSTITUTES <==> key == "mission_id" || key == "use";
  }

  lemma FactRowsMeaning(documents: map<string, Document>, f: Fact, who: Principal, plan: Plan, asOf: int, r: Row)
    requires FactRows(documents, f, who, plan, asOf).Some?
    ensures r in FactRows(documents, f, who, plan, asOf).value <==> Grants(documents, f, who, plan, asOf, r)
  {
    QualifiedMeans(f, who, plan);
  }

  /** A row is in the edge table exactly when some fact grants it. */
  lemma {:induction false} EligibleMeaning(documents: map<string, Document>, facts: seq<Fact>, who: Principal,
                                           plan: Plan, asOf: int, r: Row)
    requires Eligible(documents, facts, who, plan, asOf).Some?
    ensures r in Eligible(documents, facts, who, plan, asOf).value
      <==> exists f :: f in facts && Grants(documents, f, who, plan, asOf, r)
  {
    if facts != [] {
      var front, last := facts[..|facts| - 1], facts[|facts| - 1];
      assert facts == front + [last];
      EligibleMeaning(documents, front, who, plan, asOf, r);
      FactRowsMeaning(documents, last, who, plan, asOf, r);
    }
  }

  /** A document the fact names cannot be looked up: its source, or, when the source is absent or may be
      read, a version it names. */
  predicate Dangling(documents: map<string, Document>, f: Fact, who: Principal, asOf: int) {
    if f.sourceVersion != "" && f.sourceVersion !in documents then true
    else
      && (f.sourceVersion == "" || Readable(documents, f.sourceVersion, who, asOf, false))
      && ((f.subjectType == "DocumentVersion" && f.subjectId !in documents)
          || (f.objectType == "DocumentVersion" && f.objectId !in documents))
  }

  lemma FactRowsFail(documents: map<string, Document>, f: Fact, who: Principal, plan: Plan, asOf: int)
    ensures FactRows(documents, f, who, plan, asOf).None?
      <==> Holds(f, who, plan, asOf) && Dangling(documents, f, who, asOf)
  {
  }

  /** The table is built unless a fact in scope names a document that is missing. */
  lemma {:induction false} EligibleFails(documents: map<string, Document>, facts: seq<Fact>, who: Principal,
                                         plan: Plan, asOf: int)
    ensures Eligible(documents, facts, who, plan, asOf).None? <==>
      exists f :: f in facts && Holds(f, who, plan, asOf) && Dangling(documents, f, who, asOf)
  {
    if facts != [] {
      var front, last := facts[..|facts| - 1], facts[|facts| - 1];
      assert facts == front + [last];
      EligibleFails(documents, front, who, plan, asOf);
      FactRowsFail(documents, last, who, plan, asOf);
    }
  }

  /** Every row runs along one of the facts; a substitution claim is never read backwards. */
  lemma EligibleOrigin(documents: map<string, Document>, facts: seq<Fact>, who: Principal, plan: Plan, asOf: int,
                       r: Row)
    requires Eligible(documents, facts, who, plan, asOf).Some?
    requires r in Eligible(documents, facts, who, plan, asOf).value
    ensures exists f :: f in facts && IsHopOf(r, f)
  {
    EligibleMeaning(documents, facts, who, plan, asOf, r);
  }

  /** Facts with distinct ids give a table whose (edge id, direction) pairs are distinct. */
  lemma {:induction false} EligibleHopsUnique(documents: map<string, Document>, facts: seq<Fact>, who: Principal,
                                              plan: Plan, asOf: int)
    requires Eligible(documents, facts, who, plan, asOf).Some? && FactIdsUnique(facts)
    ensures HopsUnique(Eligible(documents, facts, who, plan, asOf).value)
  {
    if facts != [] {
      var front, last := facts[..|facts| - 1], facts[|facts| - 1];
      EligibleHopsUnique(documents, front, who, plan, asOf);
      var before := Eligible(documents, front, who, plan, asOf).value;
      var added := FactRows(documents, last, who, plan, asOf).value;
      forall r | r in before ensures r.edgeId != last.edgeId {
        EligibleOrigin(documents, front, who, plan, asOf, r);
        var f :| f in front && IsHopOf(r, f);
        var i :| 0 <= i < |front| && front[i] == f;
        assert facts[i].edgeId != facts[|front|].edgeId;
      }
      HopsUniqueConcat(before, added, last.edgeId);
    }
  }

  lemma HopsUniqueConcat(s: seq<Row>, t: seq<Row>, id: string)
    requires HopsUnique(s) && HopsUnique(t)
    requires (forall r :: r in s ==> r.edgeId != id) && (forall r :: r in t ==> r.edgeId == id)
    ensures HopsUnique(s + t)
  {
    var u := s + t;
    forall i, j | 0 <= i < j < |u| ensures u[i].edgeId != u[j].edgeId || u[i].direction != u[j].direction {
      if i < |s| <= j { assert u[i] in s && u[j] in t; }
    }
  }

  // ---------------------------------------------------------------- constraining one row

  datatype Hop = Hop(edgeId: string, direction: Direction)

  datatype Output = Output(path: seq<Hop>, nodes: seq<string>, qualifiers: seq<Qualifiers>, evidence: set<string>)

  function EdgeMap(facts: seq<Fact>): map<string, Fact> {
    if facts == [] then map[] else EdgeMap(facts[..|facts| - 1])[facts[|facts| - 1].edgeId := facts[|facts| - 1]]
  }

  /** Entity types by id; the last mention wins, subject before object within one fact. */
  function NodeTypes(facts: seq<Fact>): map<string, string> {
    if facts == [] then map[]
    else
      var f := facts[|facts| - 1];
      NodeTypes(facts[..|facts| - 1])[f.subjectId := f.subjectType][f.objectId := f.objectType]
  }

  /** constrain_paths looks up every edge and node of a row: unknown ones are a KeyError. */
  ghost predicate Known(facts: seq<Fact>, r: PathRow) {
    && |r.edges| == |r.directions| && r.nodes != []
    && (forall i :: 0 <= i < |r.edges| ==> r.edges[i] in EdgeMap(facts))
    && (forall i :: 0 <= i < |r.nodes| ==> r.nodes[i] in NodeTypes(facts))
  }

  ghost predicate AllKnown(facts: seq<Fact>, rows: seq<PathRow>) {
    forall r :: r in rows ==> Known(facts, r)
  }

  function SkuNodes(facts: seq<Fact>, r: PathRow): set<string>
    requires Known(facts, r)
  {
    set i | 0 <= i < |r.nodes| && NodeTypes(facts)[r.nodes[i]] == "SKU" :: r.nodes[i]
  }

  function RowFacts(facts: seq<Fact>, r: PathRow): seq<Fact>
    requires Known(facts, r)
  {
    seq(|r.edges|, i requires 0 <= i < |r.edges| => EdgeMap(facts)[r.edges[i]])
  }

  predicate NoticeAllows(q: Qualifiers, skus: set<string>) {
    (q.onlySkus == {} || skus <= q.onlySkus) && skus * q.excludedSkus == {}
  }

  function IsSubstitution(): Fact -> bool {
    (f: Fact) => f.predicateName == SUBSTITUTE
  }

  predicate Keeps(facts: seq<Fact>, plan: Plan, r: PathRow)
    requires Known(facts, r)
  {
    var skus, along := SkuNodes(facts, r), RowFacts(facts, r);
    var substitutions := Filter(IsSubstitution(), along);
    && r.endType in plan.targetTypes
    && (plan.targetIds == {} || r.nodes[|r.nodes| - 1] in plan.targetIds)
    && (plan.context.skuId == "" || skus == {} || skus == {plan.context.skuId})
    && (plan.context.applySkuScope ==> forall i :: 0 <= i < |along| ==> NoticeAllows(along[i].qualifiers, skus))
    && (|substitutions| > 1 ==> forall i :: 0 <= i < |substitutions| ==>
          substitutions[i].qualifiers.transitive != Some(false))
  }

  function ToOutput(facts: seq<Fact>, r: PathRow): Output
    requires Known(facts, r)
  {
    var along := RowFacts(facts, r);
    Output(seq(|r.edges|, i requires 0 <= i < |r.edges| => Hop(r.edges[i], r.directions[i])),
           r.nodes,
           Map((f: Fact) => f.qualifiers, along),
           set i | 0 <= i < |along| && along[i].sourceVersion != "" :: along[i].sourceVersion)
  }

  function Constrained(facts: seq<Fact>, plan: Plan, rows: seq<PathRow>): seq<Output>
    requires AllKnown(facts, rows)
  {
    if rows == [] then []
    else
      var front, last := rows[..|rows| - 1], rows[|rows| - 1];
      Constrained(facts, plan, front) + if Keeps(facts, plan, last) then [ToOutput(facts, last)] else []
  }

  // ---------------------------------------------------------------- sorting by serialised path

  predicate Leq(a: string, b: string) {
    a == [] || (b != [] && (a[0] < b[0] || (a[0] == b[0] && Leq(a[1..], b[1..]))))
  }

  lemma {:induction false} LeqOrder(a: string, b: string, c: string)
    ensures Leq(a, b) || Leq(b, a)
    ensures Leq(a, b) && Leq(b, a) ==> a == b
    ensures Leq(a, b) && Leq(b, c) ==> Leq(a, c)
  {
    if a != [] && b != [] {
      LeqOrder(a[1..], b[1..], if c == [] then c else c[1..]);
    }
  }

  /** json.dumps of a path, sort_keys=True: distinct paths have distinct texts. */
  type Dump = seq<Hop> -> string

  ghost predicate Injective(dump: Dump) {
    forall p, q :: dump(p) == dump(q) ==> p == q
  }

  /** Python's sorted with a key: insertion keeps equal keys in arrival order. */
  function Insert(dump: Dump, x: Output, s: seq<Output>): seq<Output> {
    if s == [] then [x]
    else if Leq(dump(s[|s| - 1].path), dump(x.path)) then s + [x]
    else Insert(dump, x, s[..|s| - 1]) + [s[|s| - 1]]
  }

  function SortByPath(dump: Dump, s: seq<Output>): seq<Output> {
    if s == [] then [] else Insert(dump, s[|s| - 1], SortByPath(dump, s[..|s| - 1]))
  }

  method ConstrainPaths(dump: Dump, facts: seq<Fact>, plan: Plan, rows: seq<PathRow>) returns (output: seq<Output>)
    requires AllKnown(facts, rows)
    ensures output == SortByPath(dump, Constrained(facts, plan, rows))
  {
    output := [];
    var kept: seq<Output> := [];
    for i := 0 to |rows|
      invariant kept == Constrained(facts, plan, rows[..i])
    {
      assert rows[..i + 1][..i] == rows[..i];
      if Keeps(facts, plan, rows[i]) {
        kept := kept + [ToOutput(facts, rows[i])];
      }
    }
    assert rows[..|rows|] == rows;
    output := SortByPath(dump, kept);
  }

  // ---------------------------------------------------------------- equal lists

  ghost predicate Sorted(dump: Dump, s: seq<Output>) {
    forall i, j :: 0 <= i < j < |s| ==> Leq(dump(s[i].path), dump(s[j].path))
  }

  ghost predicate Below(dump: Dump, s: seq<Output>, x: Output) {
    forall y :: y in s ==> Leq(dump(y.path), dump(x.path))
  }

  lemma SortedSnoc(dump: Dump, s: seq<Output>, x: Output)
    requires Sorted(dump, s) && Below(dump, s, x)
    ensures Sorted(dump, s + [x])
  {
  }

  lemma SortedInit(dump: Dump, s: seq<Output>)
    requires s != [] && Sorted(dump, s)
    ensures Sorted(dump, s[..|s| - 1]) && Below(dump, s[..|s| - 1], s[|s| - 1])
  {
  }

  lemma {:induction false} InsertContents(dump: Dump, x: Output, s: seq<Output>)
    ensures multiset(Insert(dump, x, s)) == multiset(s) + multiset{x}
  {
    if s != [] {
      assert s == s[..|s| - 1] + [s[|s| - 1]];
      InsertContents(dump, x, s[..|s| - 1]);
    }
  }

  lemma {:induction false} InsertSorts(dump: Dump, x: Output, s: seq<Output>)
    requires Sorted(dump, s)
    ensures Sorted(dump, Insert(dump, x, s))
  {
    if s != [] {
      var front, last := s[..|s| - 1], s[|s| - 1];
      SortedInit(dump, s);
      if Leq(dump(last.path), dump(x.path)) {
        forall y | y in s ensures Leq(dump(y.path), dump(x.path)) {
          assert y == last || y in front;
          LeqOrder(dump(y.path), dump(last.path), dump(x.path));
        }
        SortedSnoc(dump, s, x);
      } else {
        InsertSorts(dump, x, front);
        InsertContents(dump, x, front);
        LeqOrder(dump(last.path), dump(x.path), "");
        forall y | y in Insert(dump, x, front) ensures Leq(dump(y.path), dump(last.path)) {
          assert y in multiset(Insert(dump, x, front));
          assert y == x || y in front;
        }
        SortedSnoc(dump, Insert(dump, x, front), last);
      }
    }
  }

  lemma {:induction false} SortSorts(dump: Dump, s: seq<Output>)
    ensures Sorted(dump, SortByPath(dump, s))
    ensures multiset(SortByPath(dump, s)) == multiset(s)
  {
    if s != [] {
      var front, last := s[..|s| - 1], s[|s| - 1];
      assert s == front + [last];
      SortSorts(dump, front);
      InsertSorts(dump, last, SortByPath(dump, front));
      InsertContents(dump, last, SortByPath(dump, front));
    }
  }

  /** Equal paths belong to equal outputs. */
  ghost predicate PathDetermines(s: seq<Output>) {
    forall i, j :: 0 <= i < |s| && 0 <= j < |s| && s[i].path == s[j].path ==> s[i] == s[j]
  }

  lemma SmallestFirst(dump: Dump, s: seq<Output>, x: Output)
    requires Sorted(dump, s) && x in s
    ensures Leq(dump(s[0].path), dump(x.path))
  {
    var i :| 0 <= i < |s| && s[i] == x;
    LeqOrder(dump(x.path), dump(x.path), "");
  }

  lemma SameHead(dump: Dump, s: seq<Output>, t: seq<Output>)
    requires Injective(dump)
    requires Sorted(dump, s) && Sorted(dump, t) && multiset(s) == multiset(t) && PathDetermines(s) && s != []
    ensures t != [] && s[0] == t[0]
  {
    assert |multiset(s)| == |s| && |multiset(t)| == |t|;
    assert s[0] in multiset(s) && t[0] in multiset(t);
    SmallestFirst(dump, s, t[0]);
    SmallestFirst(dump, t, s[0]);
    LeqOrder(dump(s[0].path), dump(t[0].path), "");
  }

  lemma TailOf<A>(s: seq<A>)
    requires s != []
    ensures multiset(s[1..]) == multiset(s) - multiset{s[0]}
  {
    assert s == [s[0]] + s[1..];
  }

  lemma TailKeeps(dump: Dump, s: seq<Output>)
    requires s != [] && Sorted(dump, s) && PathDetermines(s)
    ensures Sorted(dump, s[1..]) && PathDetermines(s[1..])
  {
  }

  lemma {:induction false} SortedUnique(dump: Dump, s: seq<Output>, t: seq<Output>)
    requires Injective(dump)
    requires Sorted(dump, s) && Sorted(dump, t) && multiset(s) == multiset(t) && PathDetermines(s) && PathDetermines(t)
    ensures s == t
  {
    if s == [] {
      assert |multiset(t)| == 0;
    } else {
      SameHead(dump, s, t);
      TailOf(s);
      TailOf(t);
      TailKeeps(dump, s);
      TailKeeps(dump, t);
      SortedUnique(dump, s[1..], t[1..]);
      assert s == [s[0]] + s[1..] && t == [t[0]] + t[1..];
    }
  }

  lemma {:induction false} ConstrainedConcat(facts: seq<Fact>, plan: Plan, s: seq<PathRow>, t: seq<PathRow>)
    requires AllKnown(facts, s) && AllKnown(facts, t)
    ensures AllKnown(facts, s + t)
    ensures Constrained(facts, plan, s + t) == Constrained(facts, plan, s) + Constrained(facts, plan, t)
  {
    if t == [] {
      assert s + t == s;
    } else {
      var front := t[..|t| - 1];
      assert (s + t)[..|s + t| - 1] == s + front;
      ConstrainedConcat(facts, plan, s, front);
    }
  }

  lemma ConstrainedInsert(facts: seq<Fact>, plan: Plan, u: seq<PathRow>, x: PathRow, v: seq<PathRow>)
    requires AllKnown(facts, u) && Known(facts, x) && AllKnown(facts, v)
    ensures AllKnown(facts, u + [x] + v) && AllKnown(facts, u + v) && AllKnown(facts, [x])
    ensures multiset(Constrained(facts, plan, u + [x] + v))
            == multiset(Constrained(facts, plan, u + v)) + multiset(Constrained(facts, plan, [x]))
  {
    ConstrainedConcat(facts, plan, u, v);
    ConstrainedConcat(facts, plan, u, [x]);
    ConstrainedConcat(facts, plan, u + [x], v);
  }

  lemma Locate<A>(s: seq<A>, t: seq<A>) returns (u: seq<A>, v: seq<A>)
    requires s != [] && multiset(s) == multiset(t)
    ensures t == u + [s[0]] + v && multiset(s[1..]) == multiset(u + v)
  {
    assert s[0] in multiset(t);
    var i :| 0 <= i < |t| && t[i] == s[0];
    u, v := t[..i], t[i + 1..];
    assert t == u + [s[0]] + v;
    TailOf(s);
  }

  ghost predicate SameKept(facts: seq<Fact>, plan: Plan, s: seq<PathRow>, t: seq<PathRow>)
    requires AllKnown(facts, s) && AllKnown(facts, t)
  {
    multiset(Constrained(facts, plan, s)) == multiset(Constrained(facts, plan, t))
  }

  lemma SameKeptInsert(facts: seq<Fact>, plan: Plan, x: PathRow, rest: seq<PathRow>, u: seq<PathRow>, v: seq<PathRow>)
    requires Known(facts, x) && AllKnown(facts, rest) && AllKnown(facts, u) && AllKnown(facts, v)
    requires AllKnown(facts, u + v) && SameKept(facts, plan, rest, u + v)
    ensures AllKnown(facts, [x] + rest) && AllKnown(facts, u + [x] + v)
    ensures SameKept(facts, plan, [x] + rest, u + [x] + v)
  {
    ConstrainedInsert(facts, plan, u, x, v);
    ConstrainedConcat(facts, plan, [x], rest);
  }

  /** Row order does not matter: reordering the rows reorders the kept outputs. */
  lemma {:induction false} ConstrainedPermutes(facts: seq<Fact>, plan: Plan, s: seq<PathRow>, t: seq<PathRow>)
    requires multiset(s) == multiset(t) && AllKnown(facts, s) && AllKnown(facts, t)
    ensures SameKept(facts, plan, s, t)
  {
    if s == [] {
      assert |multiset(t)| == 0;
      assert t == [];
    } else {
      var x, rest := s[0], s[1..];
      var u, v := Locate(s, t);
      assert AllKnown(facts, rest) && AllKnown(facts, u) && AllKnown(facts, v) && AllKnown(facts, u + v);
      ConstrainedPermutes(facts, plan, rest, u + v);
      SameKeptInsert(facts, plan, x, rest, u, v);
      assert s == [x] + rest;
    }
  }

  lemma {:induction false} ConstrainedOrigin(facts: seq<Fact>, plan: Plan, rows: seq<PathRow>, o: Output)
    requires AllKnown(facts, rows)
    requires o in Constrained(facts, plan, rows)
    ensures exists r :: r in rows && Known(facts, r) && Keeps(facts, plan, r) && o == ToOutput(facts, r)
  {
    var front, last := rows[..|rows| - 1], rows[|rows| - 1];
    if o in Constrained(facts, plan, front) {
      ConstrainedOrigin(facts, plan, front, o);
      var r :| r in front && Known(facts, r) && Keeps(facts, plan, r) && o == ToOutput(facts, r);
      assert r in rows;
    } else {
      assert last in rows;
    }
  }

  // ---------------------------------------------------------------- rows of the two queries

  lemma {:induction false} EdgeMapHas(facts: seq<Fact>, f: Fact)
    requires f in facts
    ensures f.edgeId in EdgeMap(facts) && f.subjectId in NodeTypes(facts) && f.objectId in NodeTypes(facts)
  {
    var front, last := facts[..|facts| - 1], facts[|facts| - 1];
    if f != last {
      assert facts == front + [last];
      EdgeMapHas(front, f);
    }
  }

  lemma QueryRowsKnown(documents: map<string, Document>, facts: seq<Fact>, who: Principal, plan: Plan, asOf: int,
                       seeds: set<string>, depth: nat, t: seq<Row>, r: PathRow)
    requires Eligible(documents, facts, who, plan, asOf).Some?
    requires Shows(seeds, Eligible(documents, facts, who, plan, asOf).value, depth, t, r)
    ensures Known(facts, r)
  {
    var table := Eligible(documents, facts, who, plan, asOf).value;
    forall i | 0 <= i < |t|
      ensures t[i].edgeId in EdgeMap(facts) && t[i].startId in NodeTypes(facts) && t[i].endId in NodeTypes(facts) {
      EligibleOrigin(documents, facts, who, plan, asOf, t[i]);
      var f :| f in facts && IsHopOf(t[i], f);
      EdgeMapHas(facts, f);
    }
    forall i | 0 <= i < |r.nodes| ensures r.nodes[i] in NodeTypes(facts) {
      NodesAt(t, i);
    }
  }

  /** With unique hops, the edges and directions of a row fix the row. */
  lemma HopsFixTheRow(seeds: set<string>, table: seq<Row>, depth: nat, t: seq<Row>, u: seq<Row>, r: PathRow, q: PathRow)
    requires HopsUnique(table) && Shows(seeds, table, depth, t, r) && Shows(seeds, table, depth, u, q)
    requires r.edges == q.edges && r.directions == q.directions
    ensures r == q
  {
    assert |t| == |r.edges| == |u|;
    forall k | 0 <= k < |t| ensures t[k] == u[k] {
      assert t[k].edgeId == r.edges[k] == u[k].edgeId && t[k].direction == r.directions[k] == u[k].direction;
      var i :| 0 <= i < |table| && table[i] == t[k];
      var j :| 0 <= j < |table| && table[j] == u[k];
    }
    assert t == u;
  }

  lemma SamePathSameHops(facts: seq<Fact>, r: PathRow, q: PathRow)
    requires Known(facts, r) && Known(facts, q) && ToOutput(facts, r).path == ToOutput(facts, q).path
    ensures r.edges == q.edges && r.directions == q.directions
  {
    var p := ToOutput(facts, r).path;
    assert |r.edges| == |p| == |q.edges|;
    forall i | 0 <= i < |p| ensures r.edges[i] == q.edges[i] && r.directions[i] == q.directions[i] {
      assert p[i] == Hop(r.edges[i], r.directions[i]) == Hop(q.edges[i], q.directions[i]);
    }
  }

  ghost predicate ShownRows(seeds: set<string>, table: seq<Row>, depth: nat, rows: seq<PathRow>) {
    forall r :: r in rows ==> exists t :: Shows(seeds, table, depth, t, r)
  }

  lemma OnePathOneOutput(facts: seq<Fact>, seeds: set<string>, table: seq<Row>, depth: nat, r: PathRow, q: PathRow)
    requires HopsUnique(table) && Known(facts, r) && Known(facts, q)
    requires (exists t :: Shows(seeds, table, depth, t, r)) && (exists u :: Shows(seeds, table, depth, u, q))
    requires ToOutput(facts, r).path == ToOutput(facts, q).path
    ensures r == q
  {
    var t :| Shows(seeds, table, depth, t, r);
    var u :| Shows(seeds, table, depth, u, q);
    SamePathSameHops(facts, r, q);
    HopsFixTheRow(seeds, table, depth, t, u, r, q);
  }

  lemma OutputsDetermined(facts: seq<Fact>, plan: Plan, seeds: set<string>, table: seq<Row>, depth: nat,
                          rows: seq<PathRow>)
    requires HopsUnique(table) && ShownRows(seeds, table, depth, rows)
    requires AllKnown(facts, rows)
    ensures PathDetermines(Constrained(facts, plan, rows))
  {
    var s := Constrained(facts, plan, rows);
    forall i, j | 0 <= i < |s| && 0 <= j < |s| && s[i].path == s[j].path ensures s[i] == s[j] {
      ConstrainedOrigin(facts, plan, rows, s[i]);
      ConstrainedOrigin(facts, plan, rows, s[j]);
      var r :| r in rows && Known(facts, r) && Keeps(facts, plan, r) && s[i] == ToOutput(facts, r);
      var q :| q in rows && Known(facts, q) && Keeps(facts, plan, q) && s[j] == ToOutput(facts, q);
      OnePathOneOutput(facts, seeds, table, depth, r, q);
    }
  }

  lemma QueryRowsShown(seeds: set<string>, table: seq<Row>, depth: nat, c: seq<PathRow>, d: seq<PathRow>)
    requires depth >= 1
    requires multiset(c) == multiset(EvalUnionAll(FixedQuery(depth), seeds, table))
    requires multiset(d) == multiset(RecursiveRows(seeds, table, depth))
    ensures multiset(c) == multiset(d) && ShownRows(seeds, table, depth, c)
  {
    FixedJoinsEqualRecursion(seeds, table, depth);
    forall r | r in c ensures exists t :: Shows(seeds, table, depth, t, r) {
      assert r in multiset(c);
      RowsAreSimplePaths(seeds, table, depth, r);
    }
  }

  lemma QueryRowsAllKnown(documents: map<string, Document>, facts: seq<Fact>, who: Principal, plan: Plan, asOf: int,
                          seeds: set<string>, depth: nat, rows: seq<PathRow>)
    requires Eligible(documents, facts, who, plan, asOf).Some?
    requires ShownRows(seeds, Eligible(documents, facts, who, plan, asOf).value, depth, rows)
    ensures AllKnown(facts, rows)
  {
    var table := Eligible(documents, facts, who, plan, asOf).value;
    forall r | r in rows ensures Known(facts, r) {
      var t :| Shows(seeds, table, depth, t, r);
      QueryRowsKnown(documents, facts, who, plan, asOf, seeds, depth, t, r);
    }
  }

  /** The comparison the script asserts on its fixtures holds for all facts, plans, seeds and depths:
      in whatever order the database returns the two bags, the sorted constrained lists are equal,
      and no lookup in constrain_paths can fail. */
  lemma ComparisonAlwaysEqual(dump: Dump, documents: map<string, Document>, facts: seq<Fact>, who: Principal,
                              plan: Plan, asOf: int, seeds: set<string>, depth: nat, c: seq<PathRow>, d: seq<PathRow>)
    requires Injective(dump)
    requires FactIdsUnique(facts) && Eligible(documents, facts, who, plan, asOf).Some? && depth >= 1
    requires var table := Eligible(documents, facts, who, plan, asOf).value;
      && multiset(c) == multiset(EvalUnionAll(FixedQuery(depth), seeds, table))
      && multiset(d) == multiset(RecursiveRows(seeds, table, depth))
    ensures AllKnown(facts, c) && AllKnown(facts, d)
    ensures SortByPath(dump, Constrained(facts, plan, c)) == SortByPath(dump, Constrained(facts, plan, d))
  {
    var table := Eligible(documents, facts, who, plan, asOf).value;
    QueryRowsShown(seeds, table, depth, c, d);
    QueryRowsAllKnown(documents, facts, who, plan, asOf, seeds, depth, c);
    forall r | r in d ensures Known(facts, r) {
      assert r in multiset(d) && r in multiset(c);
    }
    EligibleHopsUnique(documents, facts, who, plan, asOf);
    var x, y := Constrained(facts, plan, c), Constrained(facts, plan, d);
    ConstrainedPermutes(facts, plan, c, d);
    OutputsDetermined(facts, plan, seeds, table, depth, c);
    SortSorts(dump, x);
    SortSorts(dump, y);
    DeterminedPermutes(x, SortByPath(dump, x));
    DeterminedPermutes(x, SortByPath(dump, y));
    SortedUnique(dump, SortByPath(dump, x), SortByPath(dump, y));
  }

  // ---------------------------------------------------------------- what a principal is shown

  lemma {:induction false} EdgeMapIs(facts: seq<Fact>, f: Fact)
    requires FactIdsUnique(facts) && f in facts
    ensures f.edgeId in EdgeMap(facts) && EdgeMap(facts)[f.edgeId] == f
  {
    var front, last := facts[..|facts| - 1], facts[|facts| - 1];
    if f != last {
      assert facts == front + [last];
      EdgeMapIs(front, f);
      var i :| 0 <= i < |front| && front[i] == f;
      assert facts[i].edgeId != facts[|front|].edgeId;
    }
  }

  /** The hop and the qualifiers shown with it come from one fact that grants them. */
  ghost predicate HopGranted(documents: map<string, Document>, facts: seq<Fact>, who: Principal, plan: Plan, asOf: int,
                             hop: Hop, q: Qualifiers) {
    exists f, r ::
      f in facts && Grants(documents, f, who, plan, asOf, r) && r.edgeId == hop.edgeId && r.direction == hop.direction
      && f.qualifiers == q
  }

  ghost predicate OutputGranted(documents: map<string, Document>, facts: seq<Fact>, who: Principal, plan: Plan,
                                asOf: int, o: Output) {
    && |o.qualifiers| == |o.path| >= 1
    && (forall k :: 0 <= k < |o.path| ==> HopGranted(documents, facts, who, plan, asOf, o.path[k], o.qualifiers[k]))
    && (forall v :: v in o.evidence ==> Readable(documents, v, who, asOf, false))
  }

  lemma RowFactGranted(documents: map<string, Document>, facts: seq<Fact>, who: Principal, plan: Plan, asOf: int,
                       r: Row) returns (f: Fact)
    requires FactIdsUnique(facts) && Eligible(documents, facts, who, plan, asOf).Some?
    requires r in Eligible(documents, facts, who, plan, asOf).value
    ensures f in facts && Grants(documents, f, who, plan, asOf, r)
    ensures r.edgeId in EdgeMap(facts) && EdgeMap(facts)[r.edgeId] == f
  {
    EligibleMeaning(documents, facts, who, plan, asOf, r);
    f :| f in facts && Grants(documents, f, who, plan, asOf, r);
    EdgeMapIs(facts, f);
  }

  lemma ShownOutputGranted(documents: map<string, Document>, facts: seq<Fact>, who: Principal, plan: Plan, asOf: int,
                           seeds: set<string>, depth: nat, t: seq<Row>, r: PathRow)
    requires FactIdsUnique(facts) && Eligible(documents, facts, who, plan, asOf).Some? && Known(facts, r)
    requires Shows(seeds, Eligible(documents, facts, who, plan, asOf).value, depth, t, r)
    ensures OutputGranted(documents, facts, who, plan, asOf, ToOutput(facts, r))
  {
    var o, along := ToOutput(facts, r), RowFacts(facts, r);
    forall k | 0 <= k < |t|
      ensures HopGranted(documents, facts, who, plan, asOf, o.path[k], o.qualifiers[k])
      ensures var v := along[k].sourceVersion; v != "" ==> Readable(documents, v, who, asOf, false) {
      var f := RowFactGranted(documents, facts, who, plan, asOf, t[k]);
      assert r.edges[k] == t[k].edgeId && along[k] == f;
    }
  }

  lemma KeptIsGranted(documents: map<string, Document>, facts: seq<Fact>, who: Principal, plan: Plan, asOf: int,
                      seeds: set<string>, depth: nat, rows: seq<PathRow>, o: Output)
    requires FactIdsUnique(facts) && Eligible(documents, facts, who, plan, asOf).Some? && AllKnown(facts, rows)
    requires ShownRows(seeds, Eligible(documents, facts, who, plan, asOf).value, depth, rows)
    requires o in Constrained(facts, plan, rows)
    ensures OutputGranted(documents, facts, who, plan, asOf, o)
  {
    ConstrainedOrigin(facts, plan, rows, o);
    var r :| r in rows && Known(facts, r) && Keeps(facts, plan, r) && o == ToOutput(facts, r);
    var t :| Shows(seeds, Eligible(documents, facts, who, plan, asOf).value, depth, t, r);
    ShownOutputGranted(documents, facts, who, plan, asOf, seeds, depth, t, r);
  }

  lemma RecursiveRowsShown(seeds: set<string>, table: seq<Row>, depth: nat, d: seq<PathRow>)
    requires depth >= 1 && multiset(d) == multiset(RecursiveRows(seeds, table, depth))
    ensures ShownRows(seeds, table, depth, d)
  {
    forall r | r in d ensures exists t :: Shows(seeds, table, depth, t, r) {
      assert r in multiset(d);
      RowsAreSimplePaths(seeds, table, depth, r);
    }
  }

  /** Every answer rests on what the principal may see: each hop with its qualifiers on a fact that grants it,
      and the evidence on documents the principal may read. */
  lemma AnswersAreGranted(dump: Dump, documents: map<string, Document>, facts: seq<Fact>, who: Principal,
                          plan: Plan, asOf: int, seeds: set<string>, depth: nat, d: seq<PathRow>, o: Output)
    requires FactIdsUnique(facts) && Eligible(documents, facts, who, plan, asOf).Some? && depth >= 1
    requires multiset(d) == multiset(RecursiveRows(seeds, Eligible(documents, facts, who, plan, asOf).value, depth))
    ensures AllKnown(facts, d)
    ensures o in SortByPath(dump, Constrained(facts, plan, d)) ==> OutputGranted(documents, facts, who, plan, asOf, o)
  {
    var table := Eligible(documents, facts, who, plan, asOf).value;
    RecursiveRowsShown(seeds, table, depth, d);
    QueryRowsAllKnown(documents, facts, who, plan, asOf, seeds, depth, d);
    var kept := Constrained(facts, plan, d);
    if o in SortByPath(dump, kept) {
      SortSorts(dump, kept);
      assert o in multiset(kept);
      KeptIsGranted(documents, facts, who, plan, asOf, seeds, depth, d, o);
    }
  }

  lemma DeterminedPermutes(s: seq<Output>, t: seq<Output>)
    requires PathDetermines(s) && multiset(s) == multiset(t)
    ensures PathDetermines(t)
  {
    forall i, j | 0 <= i < |t| && 0 <= j < |t| && t[i].path == t[j].path ensures t[i] == t[j] {
      assert t[i] in multiset(s) && t[j] in multiset(s);
      var k :| 0 <= k < |s| && s[k] == t[i];
      var l :| 0 <= l < |s| && s[l] == t[j];
    }
  }
}
