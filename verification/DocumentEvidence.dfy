/** Final admission of document evidence: authority filter, character budget, relation paths, and the
    batch of versions the authority is looked up for. The clock and the text digest are inputs. */
module DocumentEvidence {
  import opened Prelude

  type Id = string

  datatype Edge = Edge(version: Id, generation: Id, revision: nat, validFrom: Option<int>, validUntil: Option<int>)

  /** A relation path as delivered: one that fits its schema, or not. */
  datatype Path = Malformed | Path(edges: seq<Edge>)

  /** What the authority says about a version and every candidate repeats. */
  datatype Provenance = Provenance(
    title: string, originalSha: Id, sourceKind: string, sourceUrl: Option<string>, synthetic: bool,
    jurisdiction: Option<string>, validFrom: Option<int>, validUntil: Option<int>, entities: seq<Id>)

  datatype Row = Row(generation: Id, revision: nat, visible: bool, document: Id, store: Id, provenance: Provenance)

  datatype Candidate = Candidate(
    version: Id, generation: Id, revision: nat, chunk: Id, document: Option<Id>, store: Option<Id>,
    originalSha: Option<Id>, provenance: Option<Provenance>, text: string, truncated: bool, contentSha: Id,
    paths: seq<Path>)

  datatype Warning = Removed | PathRemoved | InvalidPathRemoved | CharacterBudget | Other(code: string)

  datatype Response = Response(candidates: seq<Candidate>, warnings: seq<Warning>, degraded: bool, stale: bool)

  /** What the remote service sent, before the client has looked at it. */
  datatype Remote = Remote(candidates: seq<Candidate>, warnings: seq<Warning>, degraded: bool)

  type Authority = map<Id, Row>

  const BUDGET := 24000
  const MAX_PATHS := 20
  const MAX_BATCH := 20
  const MAX_CANDIDATES := 20
  const MAX_TEXT := 24000

  // ---------------------------------------------------------------- authority

  /** The candidate is what the authority currently publishes under its version. */
  predicate Current(c: Candidate, current: Authority) {
    && c.version in current
    && var row := current[c.version];
       && row.visible && c.generation == row.generation && c.revision == row.revision
       && c.document == Some(row.document) && c.store == Some(row.store)
       && (c.originalSha.Some? && c.originalSha.value != "" ==> c.originalSha.value == row.provenance.originalSha)
  }

  function CurrentIn(current: Authority): Candidate -> bool {
    (c: Candidate) => Current(c, current)
  }

  predicate EdgeCurrent(e: Edge, current: Authority, now: int) {
    && e.version in current
    && var row := current[e.version];
       && row.visible && row.generation == e.generation && row.revision == e.revision
       && (e.validFrom.Some? ==> e.validFrom.value <= now) && (e.validUntil.Some? ==> now < e.validUntil.value)
  }

  predicate PathCurrent(p: Path, current: Authority, now: int) {
    p.Path? && forall i :: 0 <= i < |p.edges| ==> EdgeCurrent(p.edges[i], current, now)
  }

  function PathsIn(current: Authority, now: int): Path -> bool {
    (p: Path) => PathCurrent(p, current, now)
  }

  function UpTo<A>(s: seq<A>, n: nat): seq<A> {
    if n <= |s| then s[..n] else s
  }

  function CurrentPaths(paths: seq<Path>, current: Authority, now: int): seq<Path> {
    Filter(PathsIn(current, now), UpTo(paths, MAX_PATHS))
  }

  // ---------------------------------------------------------------- finalize

  datatype Digest = Digest(of: string -> Id)

  datatype Identity = Identity(version: Id, generation: Id, chunk: Id)

  function IdentityOf(c: Candidate): Identity {
    Identity(c.version, c.generation, c.chunk)
  }

  datatype Tally = Tally(budget: nat, seen: set<Identity>, kept: seq<Candidate>, warnings: seq<Warning>, stale: bool)

  /** The candidate with what the authority says, and the relation paths that are still current. */
  function Restated(c: Candidate, current: Authority, now: int): Candidate
    requires c.version in current
  {
    var p := current[c.version].provenance;
    c.(provenance := Some(p), originalSha := Some(p.originalSha), paths := CurrentPaths(c.paths, current, now))
  }

  function Cut(c: Candidate, budget: nat, digest: Digest): Candidate {
    if |c.text| > budget
    then c.(text := c.text[..budget], truncated := true, contentSha := digest.of(c.text[..budget]))
    else c
  }

  function Admit(t: Tally, c: Candidate, current: Authority, now: int, digest: Digest): Tally
    requires Current(c, current)
  {
    if IdentityOf(c) in t.seen || t.budget == 0 then t
    else
      var restated := Restated(c, current, now);
      var cut := Cut(restated, t.budget, digest);
      var lost := |restated.paths| != |c.paths|;
      Tally(t.budget - |cut.text|, t.seen + {IdentityOf(c)}, t.kept + [cut],
            t.warnings + (if lost then [PathRemoved] else []) + (if |c.text| > t.budget then [CharacterBudget] else []),
            t.stale || lost)
  }

  function AdmitAll(t: Tally, items: seq<Candidate>, current: Authority, now: int, digest: Digest): Tally
    requires forall i :: 0 <= i < |items| ==> Current(items[i], current)
  {
    if items == [] then t
    else Admit(AdmitAll(t, items[..|items| - 1], current, now, digest), items[|items| - 1], current, now, digest)
  }

  lemma {:induction false} FilterHolds<A>(p: A -> bool, s: seq<A>)
    ensures forall i :: 0 <= i < |Filter(p, s)| ==> p(Filter(p, s)[i]) && Filter(p, s)[i] in s
    ensures |Filter(p, s)| <= |s|
    ensures |Filter(p, s)| == |s| ==> Filter(p, s) == s
  {
    if s != [] { FilterHolds(p, s[1..]); }
  }

  function Admissible(r: Response, current: Authority, limit: nat): (items: seq<Candidate>)
    ensures forall i :: 0 <= i < |items| ==> Current(items[i], current)
  {
    FilterHolds(CurrentIn(current), r.candidates);
    UpTo(Filter(CurrentIn(current), r.candidates), limit)
  }

  function Opening(r: Response, current: Authority): Tally {
    var removed := |Filter(CurrentIn(current), r.candidates)| != |r.candidates|;
    Tally(BUDGET, {}, [], r.warnings + if removed then [Removed] else [], removed)
  }

  function Finalize(r: Response, current: Authority, limit: nat, now: int, digest: Digest): Response {
    var t := AdmitAll(Opening(r, current), Admissible(r, current, limit), current, now, digest);
    Response(t.kept, t.warnings, r.degraded || t.stale, r.stale || t.stale)
  }

  // ---------------------------------------------------------------- the loops

  method FilterCurrent(candidates: seq<Candidate>, current: Authority) returns (kept: seq<Candidate>)
    ensures kept == Filter(CurrentIn(current), candidates)
  {
    kept := [];
    for i := 0 to |candidates|
      invariant kept == Filter(CurrentIn(current), candidates[..i])
    {
      assert candidates[..i + 1] == candidates[..i] + [candidates[i]];
      FilterConcat(CurrentIn(current), candidates[..i], [candidates[i]]);
      if Current(candidates[i], current) {
        kept := kept + [candidates[i]];
      }
    }
    assert candidates[..|candidates|] == candidates;
  }

  method KeepPaths(paths: seq<Path>, current: Authority, now: int) returns (kept: seq<Path>)
    ensures kept == CurrentPaths(paths, current, now)
  {
    kept := [];
    var head := UpTo(paths, MAX_PATHS);
    for i := 0 to |head|
      invariant kept == Filter(PathsIn(current, now), head[..i])
    {
      assert head[..i + 1] == head[..i] + [head[i]];
      FilterConcat(PathsIn(current, now), head[..i], [head[i]]);
      if PathCurrent(head[i], current, now) {
        kept := kept + [head[i]];
      }
    }
    assert head[..|head|] == head;
  }

  /** One turn of the loop over the admissible candidates. */
  method AdmitOne(t: Tally, c: Candidate, current: Authority, now: int, digest: Digest) returns (u: Tally)
    requires Current(c, current)
    ensures u == Admit(t, c, current, now, digest)
  {
    var identity, item, warnings, marked := IdentityOf(c), c, t.warnings, t.stale;
    if identity in t.seen || t.budget <= 0 {
      return t;
    }
    var authority := current[item.version].provenance;
    item := item.(provenance := Some(authority), originalSha := Some(authority.originalSha));
    var paths := KeepPaths(item.paths, current, now);
    if |paths| != |item.paths| {
      marked := true;
      warnings := warnings + [PathRemoved];
    }
    item := item.(paths := paths);
    if |item.text| > t.budget {
      var text := item.text[..t.budget];
      item := item.(text := text, truncated := true, contentSha := digest.of(text));
      warnings := warnings + [CharacterBudget];
    }
    u := Tally(t.budget - |item.text|, t.seen + {identity}, t.kept + [item], warnings, marked);
  }

  method FinalizeLoop(r: Response, current: Authority, limit: nat, now: int, digest: Digest) returns (result: Response)
    ensures result == Finalize(r, current, limit, now, digest)
  {
    var candidates := FilterCurrent(r.candidates, current);
    var t := Tally(BUDGET, {}, [], r.warnings, false);
    if |candidates| != |r.candidates| {
      t := t.(stale := true, warnings := t.warnings + [Removed]);
    }
    var items := UpTo(candidates, limit);
    assert items == Admissible(r, current, limit) && t == Opening(r, current);
    for i := 0 to |items|
      invariant t == AdmitAll(Opening(r, current), items[..i], current, now, digest)
    {
      assert items[..i + 1][..i] == items[..i];
      t := AdmitOne(t, items[i], current, now, digest);
    }
    assert items[..|items|] == items;
    result := Response(t.kept, t.warnings, r.degraded || t.stale, r.stale || t.stale);
  }

  // ---------------------------------------------------------------- retrieval

  function Versions(paths: seq<Path>): set<Id> {
    set i, j | 0 <= i < |paths| && paths[i].Path? && 0 <= j < |paths[i].edges| :: paths[i].edges[j].version
  }

  /** The versions the final authority lookup asks for. */
  function BatchVersions(candidates: seq<Candidate>): set<Id> {
    var head := UpTo(candidates, MAX_BATCH);
    (set i | 0 <= i < |head| :: head[i].version)
      + (set i, v | 0 <= i < |head| && v in Versions(UpTo(head[i].paths, MAX_PATHS)) :: v)
  }

  lemma PathVersions(paths: seq<Path>, j: nat)
    requires j < |paths|
    ensures Versions(paths[..j + 1]) == Versions(paths[..j]) + Versions([paths[j]])
  {
    assert paths[..j + 1] == paths[..j] + [paths[j]];
    forall v | v in Versions(paths[..j]) + Versions([paths[j]]) ensures v in Versions(paths[..j + 1]) {
      if v in Versions(paths[..j]) {
        var i, k :| 0 <= i < j && paths[..j][i].Path? && 0 <= k < |paths[..j][i].edges|
          && v == paths[..j][i].edges[k].version;
        assert paths[..j + 1][i] == paths[..j][i];
      } else {
        assert paths[..j + 1][j] == [paths[j]][0];
      }
    }
  }

  function CandidateVersions(c: Candidate): set<Id> {
    {c.version} + Versions(UpTo(c.paths, MAX_PATHS))
  }

  method EdgeVersions(path: Path) returns (versions: set<Id>)
    ensures versions == Versions([path])
  {
    versions := {};
    if path.Path? {
      for k := 0 to |path.edges|
        invariant versions == set j | 0 <= j < k :: path.edges[j].version
      {
        versions := versions + {path.edges[k].version};
      }
      assert [path][0] == path;
    }
  }

  /** evidence_version_ids: the candidates' versions and those of the edges of their paths. */
  method CollectVersions(candidates: seq<Candidate>) returns (versions: set<Id>)
    ensures versions == BatchVersions(candidates)
  {
    versions := {};
    var head := UpTo(candidates, MAX_BATCH);
    for i := 0 to |head|
      invariant forall v :: v in versions <==> exists k :: 0 <= k < i && v in CandidateVersions(head[k])
    {
      var paths := UpTo(head[i].paths, MAX_PATHS);
      var found: set<Id> := {head[i].version};
      for j := 0 to |paths|
        invariant found == {head[i].version} + Versions(paths[..j])
      {
        PathVersions(paths, j);
        var more := EdgeVersions(paths[j]);
        found := found + more;
      }
      assert paths[..|paths|] == paths;
      assert found == CandidateVersions(head[i]);
      versions := versions + found;
    }
    BatchIsUnion(candidates);
  }

  lemma BatchIsUnion(candidates: seq<Candidate>)
    ensures forall v :: v in BatchVersions(candidates) <==>
      exists k :: 0 <= k < |UpTo(candidates, MAX_BATCH)| && v in CandidateVersions(UpTo(candidates, MAX_BATCH)[k])
  {
    var head := UpTo(candidates, MAX_BATCH);
    forall k, v | 0 <= k < |head| && v in CandidateVersions(head[k]) ensures v in BatchVersions(candidates) {}
    forall v | v in BatchVersions(candidates) ensures exists k :: 0 <= k < |head| && v in CandidateVersions(head[k]) {
      if k :| 0 <= k < |head| && head[k].version == v {
        assert v in CandidateVersions(head[k]);
      } else {
        var k :| 0 <= k < |head| && v in Versions(UpTo(head[k].paths, MAX_PATHS));
        assert v in CandidateVersions(head[k]);
      }
    }
  }

  /** Never broader than the scope that was issued. */
  function Within(current: Authority, issued: Authority): Authority {
    map v | v in current && v in issued && current[v].generation == issued[v].generation
            && current[v].revision == issued[v].revision :: current[v]
  }

  function Restrict(current: Authority, versions: set<Id>): Authority {
    map v | v in current && v in versions :: current[v]
  }

  predicate Asked(c: Candidate, chunks: Option<set<Id>>) {
    chunks.Some? ==> c.chunk in chunks.value
  }

  function AskedFor(chunks: Option<set<Id>>): Candidate -> bool {
    (c: Candidate) => Asked(c, chunks)
  }

  const NOTHING := Response([], [], false, false)

  /** After the remote answer: constrain to the issued scope, look up the authority again for the
      versions of the batch only, and finalize. authority is everything published at that time. */
  function Retrieve(r: Response, issued: Authority, authority: Authority, chunks: Option<set<Id>>, limit: nat,
                    now: int, digest: Digest): Response {
    var asked := Filter(AskedFor(chunks), r.candidates);
    var scoped := Filter(AskedFor(chunks), Filter(CurrentIn(issued), r.candidates));
    Finalize(r.(candidates := asked), Within(Restrict(authority, BatchVersions(scoped)), issued), limit, now, digest)
  }

  /** The same with the whole authority. */
  function RetrieveFull(r: Response, issued: Authority, authority: Authority, chunks: Option<set<Id>>, limit: nat,
                        now: int, digest: Digest): Response {
    Finalize(r.(candidates := Filter(AskedFor(chunks), r.candidates)), Within(authority, issued), limit, now, digest)
  }

  // ---------------------------------------------------------------- the client

  /** What the response schema demands of a candidate. */
  predicate FitsSchema(c: Candidate, digest: Digest) {
    && c.document.Some? && c.store.Some? && 1 <= |c.text| <= MAX_TEXT
    && c.contentSha == digest.of(c.text) && |c.paths| <= MAX_PATHS
  }

  function WellFormed(): Path -> bool {
    (p: Path) => p.Path?
  }

  function Cleaned(c: Candidate): Candidate {
    c.(paths := Filter(WellFormed(), c.paths))
  }

  function CleanedAll(): Candidate -> Candidate {
    (c: Candidate) => Cleaned(c)
  }

  predicate HasInvalidPath(c: Candidate) {
    Cleaned(c) != c
  }

  predicate AllFit(candidates: seq<Candidate>, digest: Digest) {
    forall i :: 0 <= i < |candidates| ==> FitsSchema(candidates[i], digest)
  }

  predicate AnyInvalid(candidates: seq<Candidate>) {
    exists i :: 0 <= i < |candidates| && HasInvalidPath(candidates[i])
  }

  /** search_response: None when the answer breaks the schema; otherwise all of it but the relation paths
      that break theirs, which is reported. */
  function Received(sent: Remote, digest: Digest): Option<Response> {
    if |sent.candidates| > MAX_CANDIDATES || !AllFit(sent.candidates, digest) then None
    else
      var dropped := AnyInvalid(sent.candidates);
      Some(Response(Map(CleanedAll(), sent.candidates), sent.warnings + if dropped then [InvalidPathRemoved] else [],
                    sent.degraded || dropped, false))
  }

  /** One candidate's paths: those that fit, and whether one did not. */
  method CleanPaths(c: Candidate) returns (cleaned: Candidate, invalid: bool)
    ensures cleaned == Cleaned(c) && invalid == HasInvalidPath(c)
  {
    var valid: seq<Path> := [];
    invalid := false;
    for i := 0 to |c.paths|
      invariant valid == Filter(WellFormed(), c.paths[..i])
      invariant |valid| <= i && (invalid <==> |valid| < i) && (!invalid ==> valid == c.paths[..i])
    {
      assert c.paths[..i + 1] == c.paths[..i] + [c.paths[i]];
      FilterConcat(WellFormed(), c.paths[..i], [c.paths[i]]);
      if c.paths[i].Path? {
        valid := valid + [c.paths[i]];
      } else {
        invalid := true;
      }
    }
    assert c.paths[..|c.paths|] == c.paths;
    cleaned := c.(paths := valid);
  }

  lemma InvalidAppend(candidates: seq<Candidate>, c: Candidate)
    ensures AnyInvalid(candidates + [c]) == (AnyInvalid(candidates) || HasInvalidPath(c))
  {
    var all := candidates + [c];
    assert all[|candidates|] == c;
    if i :| 0 <= i < |candidates| && HasInvalidPath(candidates[i]) { assert all[i] == candidates[i]; }
  }

  method SearchResponse(sent: Remote, digest: Digest) returns (received: Option<Response>)
    ensures received == Received(sent, digest)
  {
    if |sent.candidates| > MAX_CANDIDATES {
      return None;
    }
    var candidates: seq<Candidate>, dropped := [], false;
    for i := 0 to |sent.candidates|
      invariant AllFit(sent.candidates[..i], digest)
      invariant candidates == Map(CleanedAll(), sent.candidates[..i])
      invariant dropped == AnyInvalid(sent.candidates[..i])
    {
      if !FitsSchema(sent.candidates[i], digest) {
        return None;
      }
      var cleaned, invalid := CleanPaths(sent.candidates[i]);
      assert sent.candidates[..i + 1] == sent.candidates[..i] + [sent.candidates[i]];
      MapConcat(CleanedAll(), sent.candidates[..i], [sent.candidates[i]]);
      InvalidAppend(sent.candidates[..i], sent.candidates[i]);
      candidates := candidates + [cleaned];
      dropped := dropped || invalid;
    }
    assert sent.candidates[..|sent.candidates|] == sent.candidates;
    var result := Response(candidates, sent.warnings, sent.degraded, false);
    if dropped {
      result := result.(degraded := true, warnings := result.warnings + [InvalidPathRemoved]);
    }
    assert sent.warnings + [] == sent.warnings;
    received := Some(result);
  }

  // ---------------------------------------------------------------- the tool call

  datatype ToolResult = Evidence(response: Response) | Refused(code: string)

  const KNOWLEDGE_UNAVAILABLE := "KNOWLEDGE_UNAVAILABLE"

  /** Nothing is asked when nothing is published; an answer that breaks the schema is no evidence. */
  function Fetched(sent: Remote, issued: Authority, authority: Authority, chunks: Option<set<Id>>, limit: nat,
                   now: int, digest: Digest): ToolResult {
    if issued == map[] then Evidence(NOTHING)
    else
      match Received(sent, digest)
      case None => Refused(KNOWLEDGE_UNAVAILABLE)
      case Some(r) => Evidence(Retrieve(r, issued, authority, chunks, limit, now, digest))
  }

  /** The same with the whole authority. */
  function FetchedFull(sent: Remote, issued: Authority, authority: Authority, chunks: Option<set<Id>>, limit: nat,
                       now: int, digest: Digest): ToolResult {
    if issued == map[] then Evidence(NOTHING)
    else
      match Received(sent, digest)
      case None => Refused(KNOWLEDGE_UNAVAILABLE)
      case Some(r) => Evidence(RetrieveFull(r, issued, authority, chunks, limit, now, digest))
  }

  /** Under the lock: finalized again, by the authority as it is now for the versions at hand. */
  function Refinalized(r: Response, authority: Authority, now: int, digest: Digest): Response {
    Finalize(r, Restrict(authority, BatchVersions(r.candidates)), MAX_BATCH, now, digest)
  }

  /** What the second transaction of one call finds: everything published, and the clock. */
  datatype Moment = Moment(authority: Authority, now: int)

  /** The second transaction of a call. A recorded result takes the place of the one just fetched and
      stays as it is; what is answered has been finalized now. */
  function Settle(recorded: Option<ToolResult>, fetched: ToolResult, m: Moment, digest: Digest)
    : (ToolResult, ToolResult)
  {
    var result := if recorded.Some? then recorded.value else fetched;
    var answer := if result.Evidence? then Evidence(Refinalized(result.response, m.authority, m.now, digest))
      else result;
    (if recorded.Some? then recorded.value else answer, answer)
  }

  /** A call: what it fetched, and the moment of its second transaction. */
  datatype Call = Call(fetched: ToolResult, moment: Moment)

  /** The receipt after a series of calls under one invocation id. */
  function Recorded(calls: seq<Call>, digest: Digest): Option<ToolResult> {
    if calls == [] then None
    else
      var last := calls[|calls| - 1];
      Some(Settle(Recorded(calls[..|calls| - 1], digest), last.fetched, last.moment, digest).0)
  }

  /** What call n of the series answers. */
  function Answered(calls: seq<Call>, n: nat, digest: Digest): ToolResult
    requires n < |calls|
  {
    Settle(Recorded(calls[..n], digest), calls[n].fetched, calls[n].moment, digest).1
  }
}
