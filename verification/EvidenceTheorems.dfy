/** What finalized evidence guarantees, for every remote answer. */
module EvidenceTheorems {
  import opened Prelude
  import opened DocumentEvidence

  // ---------------------------------------------------------------- what stands

  /** The authority publishes the version in this generation and revision, for its document and store. */
  predicate Listed(c: Candidate, current: Authority) {
    && c.version in current
    && var row := current[c.version];
       && row.visible && row.generation == c.generation && row.revision == c.revision
       && c.document == Some(row.document) && c.store == Some(row.store)
  }

  /** The authority publishes this very piece, from this original. */
  predicate Stands(c: Candidate, current: Authority) {
    && Listed(c, current)
    && (c.originalSha in {None, Some("")} || c.originalSha == Some(current[c.version].provenance.originalSha))
  }

  /** Every edge of the path is published and in force. */
  predicate PathStands(p: Path, current: Authority, now: int) {
    && p.Path?
    && forall e :: e in p.edges ==>
         && e.version in current && current[e.version].visible && current[e.version].generation == e.generation
         && current[e.version].revision == e.revision
         && (e.validFrom.None? || e.validFrom.value <= now) && (e.validUntil.None? || now < e.validUntil.value)
  }

  lemma CurrentMeans(c: Candidate, current: Authority)
    ensures Current(c, current) <==> Stands(c, current)
  {
  }

  lemma PathCurrentMeans(p: Path, current: Authority, now: int)
    ensures PathCurrent(p, current, now) <==> PathStands(p, current, now)
  {
    if p.Path? {
      forall i | 0 <= i < |p.edges| ensures p.edges[i] in p.edges {}
    }
  }

  // ---------------------------------------------------------------- where a result comes from

  function Total(kept: seq<Candidate>): nat {
    if kept == [] then 0 else Total(kept[..|kept| - 1]) + |kept[|kept| - 1].text|
  }

  /** c is an admissible item with the authority's statements; its text is the item's, cut or not. */
  ghost predicate StatedFrom(c: Candidate, item: Candidate, current: Authority, now: int, digest: Digest) {
    && Current(item, current)
    && c == Restated(item, current, now).(text := c.text, truncated := c.truncated, contentSha := c.contentSha)
    && c.text <= item.text
    && (c.text == item.text ==> c.truncated == item.truncated && c.contentSha == item.contentSha)
    && (c.text != item.text ==> c.truncated && c.contentSha == digest.of(c.text))
  }

  ghost predicate Stems(c: Candidate, items: seq<Candidate>, current: Authority, now: int, digest: Digest) {
    exists i :: 0 <= i < |items| && StatedFrom(c, items[i], current, now, digest)
  }

  /** The loop's promise about what it has kept: identities distinct, the budget respected at every
      position, and nothing more to change under the same authority and clock. */
  ghost predicate SettledAt(kept: seq<Candidate>, k: nat, current: Authority, now: int) {
    && k < |kept| && Current(kept[k], current) && Restated(kept[k], current, now) == kept[k]
    && Total(kept[..k]) < BUDGET && Total(kept[..k]) + |kept[k].text| <= BUDGET
    && forall j :: 0 <= j < k ==> IdentityOf(kept[j]) != IdentityOf(kept[k])
  }

  ghost predicate TallySettled(t: Tally, current: Authority, now: int) {
    && t.budget + Total(t.kept) == BUDGET
    && (forall k :: 0 <= k < |t.kept| ==> SettledAt(t.kept, k, current, now))
    && (forall k :: 0 <= k < |t.kept| ==> IdentityOf(t.kept[k]) in t.seen)
  }

  lemma {:induction false} FilterAll<A>(p: A -> bool, s: seq<A>)
    requires forall i :: 0 <= i < |s| ==> p(s[i])
    ensures Filter(p, s) == s
  {
    if s != [] { FilterAll(p, s[1..]); }
  }

  lemma CurrentPathsStay(paths: seq<Path>, current: Authority, now: int)
    ensures CurrentPaths(CurrentPaths(paths, current, now), current, now) == CurrentPaths(paths, current, now)
    ensures |CurrentPaths(paths, current, now)| <= MAX_PATHS
    ensures forall p :: p in CurrentPaths(paths, current, now) ==> PathCurrent(p, current, now)
  {
    FilterHolds(PathsIn(current, now), UpTo(paths, MAX_PATHS));
    assert UpTo(CurrentPaths(paths, current, now), MAX_PATHS) == CurrentPaths(paths, current, now);
    FilterAll(PathsIn(current, now), CurrentPaths(paths, current, now));
    forall p | p in CurrentPaths(paths, current, now) ensures PathCurrent(p, current, now) {
      FilterMember(PathsIn(current, now), UpTo(paths, MAX_PATHS), p);
    }
  }

  lemma RestatedStays(c: Candidate, current: Authority, now: int)
    requires Current(c, current)
    ensures Current(Restated(c, current, now), current)
    ensures Restated(Restated(c, current, now), current, now) == Restated(c, current, now)
  {
    CurrentPathsStay(c.paths, current, now);
  }

  lemma SettledStays(kept: seq<Candidate>, longer: seq<Candidate>, k: nat, current: Authority, now: int)
    requires SettledAt(kept, k, current, now) && kept <= longer
    ensures SettledAt(longer, k, current, now)
  {
    assert longer[..k] == kept[..k];
  }

  lemma AdmitSettles(t: Tally, c: Candidate, current: Authority, now: int, digest: Digest)
    requires TallySettled(t, current, now) && Current(c, current)
    ensures TallySettled(Admit(t, c, current, now, digest), current, now)
  {
    var u := Admit(t, c, current, now, digest);
    if u != t {
      var kept := Cut(Restated(c, current, now), t.budget, digest);
      RestatedStays(c, current, now);
      assert u.kept == t.kept + [kept] && u.kept[..|t.kept|] == t.kept;
      forall k | 0 <= k < |t.kept| ensures SettledAt(u.kept, k, current, now) {
        SettledStays(t.kept, u.kept, k, current, now);
      }
    }
  }

  lemma {:induction false} AdmitAllSettles(t: Tally, items: seq<Candidate>, current: Authority, now: int,
                                           digest: Digest)
    requires TallySettled(t, current, now) && forall i :: 0 <= i < |items| ==> Current(items[i], current)
    ensures TallySettled(AdmitAll(t, items, current, now, digest), current, now)
  {
    if items != [] {
      AdmitAllSettles(t, items[..|items| - 1], current, now, digest);
      AdmitSettles(AdmitAll(t, items[..|items| - 1], current, now, digest), items[|items| - 1], current, now, digest);
    }
  }

  lemma FinalizeSettles(r: Response, current: Authority, limit: nat, now: int, digest: Digest)
    ensures var t := AdmitAll(Opening(r, current), Admissible(r, current, limit), current, now, digest);
      TallySettled(t, current, now)
  {
    AdmitAllSettles(Opening(r, current), Admissible(r, current, limit), current, now, digest);
  }

  lemma {:induction false} AdmitAllStems(t: Tally, items: seq<Candidate>, current: Authority, now: int, digest: Digest)
    requires t.kept == [] && forall i :: 0 <= i < |items| ==> Current(items[i], current)
    ensures var u := AdmitAll(t, items, current, now, digest);
      |u.kept| <= |items| && forall k :: 0 <= k < |u.kept| ==> Stems(u.kept[k], items, current, now, digest)
  {
    if items != [] {
      var rest, last := items[..|items| - 1], items[|items| - 1];
      var before, u := AdmitAll(t, rest, current, now, digest), AdmitAll(t, items, current, now, digest);
      AdmitAllStems(t, rest, current, now, digest);
      forall k | 0 <= k < |u.kept| ensures Stems(u.kept[k], items, current, now, digest) {
        if k < |before.kept| {
          var i :| 0 <= i < |rest| && StatedFrom(before.kept[k], rest[i], current, now, digest);
          assert items[i] == rest[i];
        } else {
          assert StatedFrom(u.kept[k], items[|items| - 1], current, now, digest);
        }
      }
    }
  }

  // ---------------------------------------------------------------- guarantees

  /** c is o, or o with its text cut; a cut text is marked and digested anew. No path is added. */
  ghost predicate CutFrom(c: Candidate, o: Candidate, digest: Digest) {
    && IdentityOf(c) == IdentityOf(o) && c.revision == o.revision && c.document == o.document && c.store == o.store
    && c.text <= o.text
    && (c.text == o.text ==> c.truncated == o.truncated && c.contentSha == o.contentSha)
    && (c.text != o.text ==> c.truncated && c.contentSha == digest.of(c.text))
    && (forall p :: p in c.paths ==> p in o.paths)
  }

  ghost predicate CutFromOne(c: Candidate, all: seq<Candidate>, digest: Digest) {
    exists i :: 0 <= i < |all| && CutFrom(c, all[i], digest)
  }

  /** The authority publishes the candidate and every edge of its paths. */
  ghost predicate Published(c: Candidate, current: Authority, now: int) {
    Listed(c, current) && forall p :: p in c.paths ==> PathStands(p, current, now)
  }

  /** The candidate and every edge of its paths are of the issued scope. */
  ghost predicate InIssued(c: Candidate, issued: Authority) {
    && c.version in issued && issued[c.version].generation == c.generation && issued[c.version].revision == c.revision
    && forall p, e :: p in c.paths && p.Path? && e in p.edges ==>
         e.version in issued && issued[e.version].generation == e.generation && issued[e.version].revision == e.revision
  }

  lemma StatedIsCut(c: Candidate, item: Candidate, current: Authority, now: int, digest: Digest)
    requires StatedFrom(c, item, current, now, digest)
    ensures CutFrom(c, item, digest) && Published(c, current, now)
  {
    CurrentPathsStay(item.paths, current, now);
    CurrentMeans(item, current);
    forall p | p in c.paths ensures p in item.paths && PathStands(p, current, now) {
      PathCurrentMeans(p, current, now);
      FilterMember(PathsIn(current, now), UpTo(item.paths, MAX_PATHS), p);
    }
  }

  /** Every candidate of a finalized answer is one of the given ones, published, and possibly cut. */
  lemma FinalizedFrom(r: Response, current: Authority, limit: nat, now: int, digest: Digest, k: nat)
    requires k < |Finalize(r, current, limit, now, digest).candidates|
    ensures var c := Finalize(r, current, limit, now, digest).candidates[k];
      CutFromOne(c, r.candidates, digest) && Published(c, current, now)
  {
    var items := Admissible(r, current, limit);
    var c := Finalize(r, current, limit, now, digest).candidates[k];
    AdmitAllStems(Opening(r, current), items, current, now, digest);
    assert Stems(c, items, current, now, digest);
    var i :| 0 <= i < |items| && StatedFrom(c, items[i], current, now, digest);
    StatedIsCut(c, items[i], current, now, digest);
    FilterHolds(CurrentIn(current), r.candidates);
    assert items[i] in r.candidates;
  }

  /** Whatever the remote answered: each kept candidate is one of the asked ones, is published now and
      was in the issued scope, with the same generation and revision; so is every edge of its paths;
      its text is the original or a marked, re-digested prefix of it. */
  lemma OnlyIssuedAndCurrent(r: Response, issued: Authority, authority: Authority, chunks: Option<set<Id>>, limit: nat,
                             now: int, digest: Digest, k: nat)
    requires k < |Retrieve(r, issued, authority, chunks, limit, now, digest).candidates|
    ensures var c := Retrieve(r, issued, authority, chunks, limit, now, digest).candidates[k];
      && (chunks.Some? ==> c.chunk in chunks.value) && Published(c, authority, now) && InIssued(c, issued)
      && CutFromOne(c, r.candidates, digest)
  {
    var asked := r.(candidates := Filter(AskedFor(chunks), r.candidates));
    var scoped := Filter(AskedFor(chunks), Filter(CurrentIn(issued), r.candidates));
    var current := Within(Restrict(authority, BatchVersions(scoped)), issued);
    var c := Retrieve(r, issued, authority, chunks, limit, now, digest).candidates[k];
    FinalizedFrom(asked, current, limit, now, digest, k);
    var i :| 0 <= i < |asked.candidates| && CutFrom(c, asked.candidates[i], digest);
    FilterMember(AskedFor(chunks), r.candidates, asked.candidates[i]);
    WiderPublished(c, current, authority, now);
    NarrowIsIssued(c, current, issued, now);
  }

  lemma WiderPublished(c: Candidate, narrow: Authority, wide: Authority, now: int)
    requires Published(c, narrow, now) && forall v :: v in narrow ==> v in wide && wide[v] == narrow[v]
    ensures Published(c, wide, now)
  {
    forall p | p in c.paths ensures PathStands(p, wide, now) { assert PathStands(p, narrow, now); }
  }

  lemma NarrowIsIssued(c: Candidate, narrow: Authority, issued: Authority, now: int)
    requires Published(c, narrow, now)
    requires forall v :: v in narrow ==>
      v in issued && issued[v].generation == narrow[v].generation && issued[v].revision == narrow[v].revision
    ensures InIssued(c, issued)
  {
    forall p, e | p in c.paths && p.Path? && e in p.edges
      ensures e.version in issued && issued[e.version].generation == e.generation
        && issued[e.version].revision == e.revision {
      assert PathStands(p, narrow, now);
    }
  }

  /** The texts of a finalized answer never exceed the character budget, and no piece of evidence
      appears twice. */
  lemma WithinBudget(r: Response, current: Authority, limit: nat, now: int, digest: Digest)
    ensures var kept := Finalize(r, current, limit, now, digest).candidates;
      Total(kept) <= BUDGET && |kept| <= limit
      && forall j, k :: 0 <= j < k < |kept| ==> IdentityOf(kept[j]) != IdentityOf(kept[k])
  {
    FinalizeSettles(r, current, limit, now, digest);
    var kept := Finalize(r, current, limit, now, digest).candidates;
    AdmitAllStems(Opening(r, current), Admissible(r, current, limit), current, now, digest);
    forall j, k | 0 <= j < k < |kept| ensures IdentityOf(kept[j]) != IdentityOf(kept[k]) {
      assert SettledAt(kept, k, current, now);
    }
  }

  /** Anything the authority filter took away is reported. */
  lemma RemovalIsReported(r: Response, current: Authority, limit: nat, now: int, digest: Digest, i: nat)
    requires i < |r.candidates| && !Current(r.candidates[i], current)
    ensures var result := Finalize(r, current, limit, now, digest);
      result.degraded && result.stale && Removed in result.warnings
  {
    FilterHolds(CurrentIn(current), r.candidates);
    assert Filter(CurrentIn(current), r.candidates) != r.candidates;
    assert Opening(r, current).warnings[|r.warnings|] == Removed;
    AdmitAllKeepsWarnings(Opening(r, current), Admissible(r, current, limit), current, now, digest);
  }

  lemma {:induction false} AdmitAllKeepsWarnings(t: Tally, items: seq<Candidate>, current: Authority, now: int,
                                                 digest: Digest)
    requires forall i :: 0 <= i < |items| ==> Current(items[i], current)
    ensures var u := AdmitAll(t, items, current, now, digest); t.warnings <= u.warnings && (t.stale ==> u.stale)
  {
    if items != [] { AdmitAllKeepsWarnings(t, items[..|items| - 1], current, now, digest); }
  }

  // ---------------------------------------------------------------- a second pass changes nothing

  function Identities(kept: seq<Candidate>): set<Identity> {
    set i | 0 <= i < |kept| :: IdentityOf(kept[i])
  }

  lemma IdentitiesAppend(kept: seq<Candidate>, c: Candidate)
    ensures Identities(kept + [c]) == Identities(kept) + {IdentityOf(c)}
  {
    var all := kept + [c];
    forall x | x in Identities(kept) ensures x in Identities(all) {
      var i :| 0 <= i < |kept| && IdentityOf(kept[i]) == x;
      assert all[i] == kept[i];
    }
    assert all[|kept|] == c;
  }

  function Again(kept: seq<Candidate>, warnings: seq<Warning>): Tally
    requires Total(kept) <= BUDGET
  {
    Tally(BUDGET - Total(kept), Identities(kept), kept, warnings, false)
  }

  lemma AdmitAgain(kept: seq<Candidate>, k: nat, warnings: seq<Warning>, current: Authority, now: int, digest: Digest)
    requires k < |kept| && SettledAt(kept, k, current, now)
    ensures Total(kept[..k + 1]) <= BUDGET && Total(kept[..k]) <= BUDGET
    ensures Admit(Again(kept[..k], warnings), kept[k], current, now, digest) == Again(kept[..k + 1], warnings)
  {
    assert kept[..k + 1] == kept[..k] + [kept[k]] && kept[..k + 1][..k] == kept[..k];
    IdentitiesAppend(kept[..k], kept[k]);
    assert IdentityOf(kept[k]) !in Identities(kept[..k]);
    assert |Restated(kept[k], current, now).paths| == |kept[k].paths|;
  }

  lemma {:induction false} SecondPass(kept: seq<Candidate>, k: nat, warnings: seq<Warning>, current: Authority,
                                      now: int, digest: Digest)
    requires k <= |kept| && forall i :: 0 <= i < |kept| ==> Current(kept[i], current)
    requires forall i :: 0 <= i < |kept| ==> SettledAt(kept, i, current, now)
    ensures Total(kept[..k]) <= BUDGET
    ensures AdmitAll(Tally(BUDGET, {}, [], warnings, false), kept[..k], current, now, digest)
      == Again(kept[..k], warnings)
  {
    var start := Tally(BUDGET, {}, [], warnings, false);
    if k == 0 {
      assert Again([], warnings) == start;
    } else {
      var front, head := kept[..k - 1], kept[..k];
      SecondPass(kept, k - 1, warnings, current, now, digest);
      assert head[..|head| - 1] == front && head[|head| - 1] == kept[k - 1];
      assert AdmitAll(start, head, current, now, digest)
        == Admit(Again(front, warnings), kept[k - 1], current, now, digest);
      AdmitAgain(kept, k - 1, warnings, current, now, digest);
    }
  }

  /** A settled answer goes through whole. */
  lemma SettledAgain(r: Response, current: Authority, limit: nat, now: int, digest: Digest)
    requires |r.candidates| <= limit && Total(r.candidates) <= BUDGET
    requires forall i :: 0 <= i < |r.candidates| ==> SettledAt(r.candidates, i, current, now)
    ensures Finalize(r, current, limit, now, digest) == r
  {
    var kept := r.candidates;
    forall i | 0 <= i < |kept| ensures Current(kept[i], current) { assert SettledAt(kept, i, current, now); }
    FilterAll(CurrentIn(current), kept);
    assert UpTo(kept, limit) == kept && r.warnings + [] == r.warnings;
    assert Admissible(r, current, limit) == kept && Opening(r, current) == Tally(BUDGET, {}, [], r.warnings, false);
    SecondPass(kept, |kept|, r.warnings, current, now, digest);
    assert kept[..|kept|] == kept;
  }

  /** Finalizing twice under one clock and authority is finalizing once. */
  lemma FinalizeIdempotent(r: Response, current: Authority, limit: nat, now: int, digest: Digest)
    ensures var once := Finalize(r, current, limit, now, digest);
      Finalize(once, current, limit, now, digest) == once
  {
    FinalizeSettles(r, current, limit, now, digest);
    WithinBudget(r, current, limit, now, digest);
    SettledAgain(Finalize(r, current, limit, now, digest), current, limit, now, digest);
  }

  // ---------------------------------------------------------------- the batch is enough

  /** A version keeps its document, store and content while its generation and revision stand. */
  ghost predicate Steady(issued: Authority, authority: Authority) {
    forall v ::
      v in issued && v in authority
      && issued[v].generation == authority[v].generation && issued[v].revision == authority[v].revision ==>
      issued[v].visible && issued[v].document == authority[v].document && issued[v].store == authority[v].store
      && issued[v].provenance.originalSha == authority[v].provenance.originalSha
  }

  lemma {:induction false} FilterSame<A>(p: A -> bool, q: A -> bool, s: seq<A>)
    requires forall i :: 0 <= i < |s| ==> p(s[i]) == q(s[i])
    ensures Filter(p, s) == Filter(q, s)
  {
    FilterAgree(p, q, s);
  }

  lemma ScopedOrNot(c: Candidate, issued: Authority, authority: Authority, versions: set<Id>)
    requires Steady(issued, authority) && (Current(c, issued) ==> c.version in versions)
    ensures Current(c, Within(Restrict(authority, versions), issued)) == Current(c, Within(authority, issued))
    ensures Current(c, Within(authority, issued)) ==> Current(c, issued)
  {
  }

  lemma PathsSame(c: Candidate, issued: Authority, authority: Authority, versions: set<Id>, now: int)
    requires Versions(UpTo(c.paths, MAX_PATHS)) <= versions
    ensures CurrentPaths(c.paths, Within(Restrict(authority, versions), issued), now)
      == CurrentPaths(c.paths, Within(authority, issued), now)
  {
    var narrow, wide, paths :=
      Within(Restrict(authority, versions), issued), Within(authority, issued), UpTo(c.paths, MAX_PATHS);
    forall i | 0 <= i < |paths| ensures PathCurrent(paths[i], narrow, now) == PathCurrent(paths[i], wide, now) {
      if paths[i].Path? {
        forall j | 0 <= j < |paths[i].edges|
          ensures EdgeCurrent(paths[i].edges[j], narrow, now) == EdgeCurrent(paths[i].edges[j], wide, now) {
          assert paths[i].edges[j].version in Versions(paths);
        }
      }
    }
    FilterSame(PathsIn(narrow, now), PathsIn(wide, now), paths);
  }

  lemma {:induction false} AdmitAllSame(t: Tally, items: seq<Candidate>, a: Authority, b: Authority, now: int,
                                        digest: Digest)
    requires forall i :: 0 <= i < |items| ==>
      Current(items[i], a) && Current(items[i], b) && Restated(items[i], a, now) == Restated(items[i], b, now)
    ensures AdmitAll(t, items, a, now, digest) == AdmitAll(t, items, b, now, digest)
  {
    if items != [] { AdmitAllSame(t, items[..|items| - 1], a, b, now, digest); }
  }

  lemma ScopedInBatch(r: Response, issued: Authority, chunks: Option<set<Id>>, c: Candidate)
    requires c in r.candidates && Asked(c, chunks) && Current(c, issued)
    requires |Filter(AskedFor(chunks), Filter(CurrentIn(issued), r.candidates))| <= MAX_BATCH
    ensures var batch := BatchVersions(Filter(AskedFor(chunks), Filter(CurrentIn(issued), r.candidates)));
      c.version in batch && Versions(UpTo(c.paths, MAX_PATHS)) <= batch
  {
    var scoped := Filter(AskedFor(chunks), Filter(CurrentIn(issued), r.candidates));
    FilterMember(CurrentIn(issued), r.candidates, c);
    FilterMember(AskedFor(chunks), Filter(CurrentIn(issued), r.candidates), c);
    var i :| 0 <= i < |scoped| && scoped[i] == c;
    assert UpTo(scoped, MAX_BATCH)[i] == c;
  }

  lemma ItemSame(r: Response, issued: Authority, authority: Authority, chunks: Option<set<Id>>, now: int, c: Candidate)
    requires Steady(issued, authority) && c in r.candidates && Asked(c, chunks)
    requires |Filter(AskedFor(chunks), Filter(CurrentIn(issued), r.candidates))| <= MAX_BATCH
    ensures var batch := BatchVersions(Filter(AskedFor(chunks), Filter(CurrentIn(issued), r.candidates)));
      var narrow, wide := Within(Restrict(authority, batch), issued), Within(authority, issued);
      && Current(c, narrow) == Current(c, wide)
      && (Current(c, narrow) && Current(c, wide) ==> Restated(c, narrow, now) == Restated(c, wide, now))
  {
    var batch := BatchVersions(Filter(AskedFor(chunks), Filter(CurrentIn(issued), r.candidates)));
    if Current(c, issued) {
      ScopedInBatch(r, issued, chunks, c);
      PathsSame(c, issued, authority, batch, now);
    }
    ScopedOrNot(c, issued, authority, batch);
  }

  lemma RetrieveBatch(r: Response, issued: Authority, authority: Authority, chunks: Option<set<Id>>, limit: nat,
                      now: int, digest: Digest)
    requires Steady(issued, authority) && |r.candidates| <= MAX_CANDIDATES
    ensures Retrieve(r, issued, authority, chunks, limit, now, digest)
      == RetrieveFull(r, issued, authority, chunks, limit, now, digest)
  {
    var batch := BatchVersions(Filter(AskedFor(chunks), Filter(CurrentIn(issued), r.candidates)));
    var asked := r.(candidates := Filter(AskedFor(chunks), r.candidates));
    FilterHolds(CurrentIn(issued), r.candidates);
    FilterHolds(AskedFor(chunks), Filter(CurrentIn(issued), r.candidates));
    forall c | c in asked.candidates
      ensures Current(c, Within(Restrict(authority, batch), issued)) == Current(c, Within(authority, issued))
      ensures Current(c, Within(Restrict(authority, batch), issued)) && Current(c, Within(authority, issued)) ==>
        Restated(c, Within(Restrict(authority, batch), issued), now) == Restated(c, Within(authority, issued), now) {
      FilterMember(AskedFor(chunks), r.candidates, c);
      ItemSame(r, issued, authority, chunks, now, c);
    }
    SameAuthority(asked, Within(Restrict(authority, batch), issued), Within(authority, issued), limit, now, digest);
  }

  /** Whatever the remote sends: looking up only the batch gives what the whole authority would give, for
      the schema lets no more candidates through than the batch covers. */
  lemma BatchIsEnough(sent: Remote, issued: Authority, authority: Authority, chunks: Option<set<Id>>, limit: nat,
                      now: int, digest: Digest)
    requires Steady(issued, authority)
    ensures Fetched(sent, issued, authority, chunks, limit, now, digest)
      == FetchedFull(sent, issued, authority, chunks, limit, now, digest)
  {
    if issued != map[] && Received(sent, digest).Some? {
      RetrieveBatch(Received(sent, digest).value, issued, authority, chunks, limit, now, digest);
    }
  }

  /** Two authorities that judge and state every candidate alike finalize alike. */
  lemma SameAuthority(r: Response, a: Authority, b: Authority, limit: nat, now: int, digest: Digest)
    requires forall c :: c in r.candidates ==> Current(c, a) == Current(c, b)
    requires forall c :: c in r.candidates && Current(c, a) && Current(c, b) ==>
      Restated(c, a, now) == Restated(c, b, now)
    ensures Finalize(r, a, limit, now, digest) == Finalize(r, b, limit, now, digest)
  {
    FilterSame(CurrentIn(a), CurrentIn(b), r.candidates);
    FilterHolds(CurrentIn(b), r.candidates);
    AdmitAllSame(Opening(r, b), Admissible(r, b, limit), a, b, now, digest);
  }

  // ---------------------------------------------------------------- the client's checks

  /** A candidate the response schema takes: of a document and a store, with a text of 1 to 24000 characters
      under its digest, and at most 20 paths. */
  predicate Valid(c: Candidate, digest: Digest) {
    && c.document.Some? && c.store.Some? && c.text != "" && |c.text| <= 24000 && |c.paths| <= 20
    && digest.of(c.text) == c.contentSha
  }

  ghost predicate AnyMalformed(candidates: seq<Candidate>) {
    exists i :: 0 <= i < |candidates| && Malformed in candidates[i].paths
  }

  lemma CleanedMeans(c: Candidate)
    ensures Cleaned(c) == c.(paths := Cleaned(c).paths) && |Cleaned(c).paths| <= |c.paths|
    ensures forall p :: p in Cleaned(c).paths <==> p.Path? && p in c.paths
    ensures Malformed in c.paths <==> HasInvalidPath(c)
  {
    FilterHolds(WellFormed(), c.paths);
    forall p ensures p in Cleaned(c).paths <==> p.Path? && p in c.paths { FilterMember(WellFormed(), c.paths, p); }
    if HasInvalidPath(c) && Malformed !in c.paths {
      forall i | 0 <= i < |c.paths| ensures WellFormed()(c.paths[i]) { assert c.paths[i] in c.paths; }
      FilterAll(WellFormed(), c.paths);
    }
  }

  /** What passes the client is what was sent, without the malformed paths: refused exactly when there are more
      than 20 candidates or one is not valid, and a dropped path is reported. */
  lemma ReceivedMeaning(sent: Remote, digest: Digest)
    ensures Received(sent, digest).None? <==>
      |sent.candidates| > 20 || exists i :: 0 <= i < |sent.candidates| && !Valid(sent.candidates[i], digest)
    ensures Received(sent, digest).Some? ==>
      var r := Received(sent, digest).value;
      && |r.candidates| == |sent.candidates|
      && (forall i :: 0 <= i < |r.candidates| ==>
            Valid(r.candidates[i], digest) && r.candidates[i] == sent.candidates[i].(paths := r.candidates[i].paths))
      && (forall i, p :: 0 <= i < |r.candidates| ==>
            (p in r.candidates[i].paths <==> p.Path? && p in sent.candidates[i].paths))
      && (r.degraded <==> sent.degraded || AnyMalformed(sent.candidates)) && !r.stale
      && (forall x :: x in r.warnings
            <==> x in sent.warnings || (x == InvalidPathRemoved && AnyMalformed(sent.candidates)))
  {
    forall i | 0 <= i < |sent.candidates|
      ensures FitsSchema(sent.candidates[i], digest) <==> Valid(sent.candidates[i], digest)
      ensures HasInvalidPath(sent.candidates[i]) <==> Malformed in sent.candidates[i].paths
      ensures Cleaned(sent.candidates[i]) == sent.candidates[i].(paths := Cleaned(sent.candidates[i]).paths)
      ensures |Cleaned(sent.candidates[i]).paths| <= |sent.candidates[i].paths|
      ensures forall p :: p in Cleaned(sent.candidates[i]).paths <==> p.Path? && p in sent.candidates[i].paths {
      CleanedMeans(sent.candidates[i]);
    }
  }

  // ---------------------------------------------------------------- the second pass, and replays

  lemma CutTwice(a: Candidate, b: Candidate, c: Candidate, digest: Digest)
    requires CutFrom(a, b, digest) && CutFrom(b, c, digest)
    ensures CutFrom(a, c, digest)
  {
  }

  lemma CutTwiceOne(a: Candidate, bs: seq<Candidate>, cs: seq<Candidate>, digest: Digest)
    requires CutFromOne(a, bs, digest) && forall b :: b in bs ==> CutFromOne(b, cs, digest)
    ensures CutFromOne(a, cs, digest)
  {
    var i :| 0 <= i < |bs| && CutFrom(a, bs[i], digest);
    assert bs[i] in bs;
    var j :| 0 <= j < |cs| && CutFrom(bs[i], cs[j], digest);
    CutTwice(a, bs[i], cs[j], digest);
  }

  /** The second lookup, again for a batch only, gives what the whole authority would give. */
  lemma RefinalizedIsFull(r: Response, authority: Authority, now: int, digest: Digest)
    requires |r.candidates| <= MAX_BATCH
    ensures Refinalized(r, authority, now, digest) == Finalize(r, authority, MAX_BATCH, now, digest)
  {
    var narrow := Restrict(authority, BatchVersions(r.candidates));
    forall c | c in r.candidates
      ensures Current(c, narrow) == Current(c, authority)
      ensures Current(c, narrow) && Current(c, authority) ==> Restated(c, narrow, now) == Restated(c, authority, now) {
      var i :| 0 <= i < |r.candidates| && r.candidates[i] == c;
      assert UpTo(r.candidates, MAX_BATCH)[i] == c;
      PathsSame(c, authority, authority, BatchVersions(r.candidates), now);
      assert Within(narrow, authority) == narrow && Within(authority, authority) == authority;
    }
    SameAuthority(r, narrow, authority, MAX_BATCH, now, digest);
  }

  lemma FetchedFits(sent: Remote, issued: Authority, authority: Authority, chunks: Option<set<Id>>, limit: nat,
                    now: int, digest: Digest)
    requires Fetched(sent, issued, authority, chunks, limit, now, digest).Evidence?
    ensures |Fetched(sent, issued, authority, chunks, limit, now, digest).response.candidates| <= MAX_BATCH
  {
    if issued != map[] {
      var r := Received(sent, digest).value;
      var asked := r.(candidates := Filter(AskedFor(chunks), r.candidates));
      var scoped := Filter(AskedFor(chunks), Filter(CurrentIn(issued), r.candidates));
      var current := Within(Restrict(authority, BatchVersions(scoped)), issued);
      AdmitAllStems(Opening(asked, current), Admissible(asked, current, limit), current, now, digest);
      FilterHolds(AskedFor(chunks), r.candidates);
      FilterHolds(CurrentIn(current), asked.candidates);
    }
  }

  /** The receipt is what the first call made of what it had fetched. */
  lemma {:induction false} FirstIsRecorded(calls: seq<Call>, digest: Digest)
    requires calls != []
    ensures Recorded(calls, digest) == Some(Settle(None, calls[0].fetched, calls[0].moment, digest).1)
  {
    if |calls| > 1 {
      FirstIsRecorded(calls[..|calls| - 1], digest);
    } else {
      assert calls[..0] == [];
    }
  }

  /** An answer under one invocation id comes from what its first call fetched: finalized once, at that
      call, or once more, at this one. */
  lemma AnsweredIs(calls: seq<Call>, n: nat, digest: Digest)
    requires n < |calls|
    ensures var first, m := Settle(None, calls[0].fetched, calls[0].moment, digest).1, calls[n].moment;
      Answered(calls, n, digest) ==
        if n == 0 then first
        else if first.Evidence? then Evidence(Refinalized(first.response, m.authority, m.now, digest))
        else first
  {
    if n > 0 { FirstIsRecorded(calls[..n], digest); } else { assert calls[..0] == []; }
  }

  /** Evidence answered in any call of a series, the first or a replay. */
  ghost predicate Trusted(kept: seq<Candidate>, fetched: Response, m: Moment, digest: Digest) {
    && Total(kept) <= BUDGET && |kept| <= MAX_BATCH
    && (forall j, k :: 0 <= j < k < |kept| ==> IdentityOf(kept[j]) != IdentityOf(kept[k]))
    && (forall c :: c in kept ==> Published(c, m.authority, m.now) && CutFromOne(c, fetched.candidates, digest))
  }

  lemma RefinalizedTrusted(r: Response, m: Moment, digest: Digest)
    ensures Trusted(Refinalized(r, m.authority, m.now, digest).candidates, r, m, digest)
  {
    var narrow := Restrict(m.authority, BatchVersions(r.candidates));
    var kept := Refinalized(r, m.authority, m.now, digest).candidates;
    WithinBudget(r, narrow, MAX_BATCH, m.now, digest);
    forall c | c in kept ensures Published(c, m.authority, m.now) && CutFromOne(c, r.candidates, digest) {
      var k :| 0 <= k < |kept| && kept[k] == c;
      FinalizedFrom(r, narrow, MAX_BATCH, m.now, digest, k);
      WiderPublished(c, narrow, m.authority, m.now);
    }
  }

  /** Every call of a series answers with evidence published at that call, cut from what the first call
      fetched, within the budget and none twice. */
  lemma AnsweredTrusted(calls: seq<Call>, n: nat, digest: Digest)
    requires n < |calls| && calls[0].fetched.Evidence?
    ensures Answered(calls, n, digest).Evidence?
    ensures Trusted(Answered(calls, n, digest).response.candidates, calls[0].fetched.response, calls[n].moment, digest)
  {
    var fetched, m := calls[0].fetched.response, calls[n].moment;
    var first := Refinalized(fetched, calls[0].moment.authority, calls[0].moment.now, digest);
    AnsweredIs(calls, n, digest);
    RefinalizedTrusted(fetched, calls[0].moment, digest);
    if n > 0 {
      RefinalizedTrusted(first, m, digest);
      var kept := Refinalized(first, m.authority, m.now, digest).candidates;
      forall c | c in kept ensures CutFromOne(c, fetched.candidates, digest) {
        CutTwiceOne(c, first.candidates, fetched.candidates, digest);
      }
    }
  }

  /** What was fetched: asked for, in the issued scope and published then, cut from what was sent, and
      digested right. */
  ghost predicate FetchedWell(f: Candidate, sent: Remote, issued: Authority, authority: Authority,
                              chunks: Option<set<Id>>,
                              now: int, digest: Digest) {
    && Published(f, authority, now) && InIssued(f, issued) && (chunks.Some? ==> f.chunk in chunks.value)
    && f.contentSha == digest.of(f.text) && CutFromOne(f, sent.candidates, digest)
  }

  lemma CleanedIsCut(c: Candidate, digest: Digest)
    ensures CutFrom(Cleaned(c), c, digest)
  {
    forall p | p in Cleaned(c).paths ensures p in c.paths { FilterMember(WellFormed(), c.paths, p); }
  }

  lemma SentFrom(sent: Remote, digest: Digest, f: Candidate)
    requires Received(sent, digest).Some? && CutFromOne(f, Received(sent, digest).value.candidates, digest)
    ensures f.contentSha == digest.of(f.text) && CutFromOne(f, sent.candidates, digest)
  {
    ReceivedMeaning(sent, digest);
    var r := Received(sent, digest).value;
    var j :| 0 <= j < |r.candidates| && CutFrom(f, r.candidates[j], digest);
    assert r.candidates[j] == Cleaned(sent.candidates[j]);
    CleanedIsCut(sent.candidates[j], digest);
    CutTwice(f, r.candidates[j], sent.candidates[j], digest);
  }

  lemma FetchedIsWell(sent: Remote, issued: Authority, authority: Authority, chunks: Option<set<Id>>, limit: nat,
                      now: int, digest: Digest, i: nat)
    requires Fetched(sent, issued, authority, chunks, limit, now, digest).Evidence?
    requires i < |Fetched(sent, issued, authority, chunks, limit, now, digest).response.candidates|
    ensures var f := Fetched(sent, issued, authority, chunks, limit, now, digest).response.candidates[i];
      FetchedWell(f, sent, issued, authority, chunks, now, digest)
  {
    var r := Received(sent, digest).value;
    OnlyIssuedAndCurrent(r, issued, authority, chunks, limit, now, digest, i);
    SentFrom(sent, digest, Retrieve(r, issued, authority, chunks, limit, now, digest).candidates[i]);
  }

  lemma CutIsWell(c: Candidate, f: Candidate, sent: Remote, issued: Authority, authority: Authority,
                  chunks: Option<set<Id>>, now: int, digest: Digest)
    requires FetchedWell(f, sent, issued, authority, chunks, now, digest) && CutFrom(c, f, digest)
    ensures FetchedWell(c, sent, issued, authority, chunks, now, digest)
  {
    var j :| 0 <= j < |sent.candidates| && CutFrom(f, sent.candidates[j], digest);
    CutTwice(c, f, sent.candidates[j], digest);
  }

  /** Every lookup at the end of a call, though for a batch only, gives what the whole authority of that moment
      would give: for what the first call fetched, and for the receipt at each replay. */
  lemma AnsweredIsFull(sent: Remote, issued: Authority, authority: Authority, chunks: Option<set<Id>>, limit: nat,
                       now: int, digest: Digest, calls: seq<Call>, n: nat)
    requires n < |calls| && calls[0].fetched == Fetched(sent, issued, authority, chunks, limit, now, digest)
      && calls[0].fetched.Evidence?
    ensures Answered(calls, 0, digest).Evidence?
    ensures var known := if n == 0 then calls[0].fetched.response else Answered(calls, 0, digest).response;
      var m := calls[n].moment;
      Answered(calls, n, digest) == Evidence(Finalize(known, m.authority, MAX_BATCH, m.now, digest))
  {
    AnsweredIs(calls, 0, digest);
    AnsweredIs(calls, n, digest);
    FetchedFits(sent, issued, authority, chunks, limit, now, digest);
    RefinalizedTrusted(calls[0].fetched.response, calls[0].moment, digest);
    var known := if n == 0 then calls[0].fetched.response else Answered(calls, 0, digest).response;
    RefinalizedIsFull(known, calls[n].moment.authority, calls[n].moment.now, digest);
  }

  /** End to end, for every remote answer and every series of calls: what any call answers is published at
      that call, candidates and path edges alike, and was published and in the issued scope when it was
      fetched; its text is what was sent or a marked prefix of it, and its digest is that of its text. */
  lemma EveryAnswerInScope(sent: Remote, issued: Authority, authority: Authority, chunks: Option<set<Id>>, limit: nat,
                           now: int, digest: Digest, calls: seq<Call>, n: nat, c: Candidate)
    requires n < |calls| && calls[0].fetched == Fetched(sent, issued, authority, chunks, limit, now, digest)
    requires Answered(calls, n, digest).Evidence? && c in Answered(calls, n, digest).response.candidates
    ensures Published(c, calls[n].moment.authority, calls[n].moment.now)
    ensures FetchedWell(c, sent, issued, authority, chunks, now, digest)
  {
    AnsweredIs(calls, n, digest);
    AnsweredTrusted(calls, n, digest);
    var fetched := calls[0].fetched.response.candidates;
    var i :| 0 <= i < |fetched| && CutFrom(c, fetched[i], digest);
    FetchedIsWell(sent, issued, authority, chunks, limit, now, digest, i);
    CutIsWell(c, fetched[i], sent, issued, authority, chunks, now, digest);
  }

  /** A replay reports whatever of the receipt has been withdrawn since. */
  lemma WithdrawnIsReported(calls: seq<Call>, n: nat, digest: Digest, c: Candidate)
    requires 0 < n < |calls| && Answered(calls, 0, digest).Evidence?
      && c in Answered(calls, 0, digest).response.candidates
    requires !Current(c, calls[n].moment.authority)
    ensures var answer := Answered(calls, n, digest);
      answer.Evidence? && answer.response.degraded && answer.response.stale && Removed in answer.response.warnings
  {
    AnsweredIs(calls, 0, digest);
    AnsweredIs(calls, n, digest);
    var receipt, m := Answered(calls, 0, digest).response, calls[n].moment;
    RefinalizedTrusted(calls[0].fetched.response, calls[0].moment, digest);
    RefinalizedIsFull(receipt, m.authority, m.now, digest);
    var i :| 0 <= i < |receipt.candidates| && receipt.candidates[i] == c;
    RemovalIsReported(receipt, m.authority, MAX_BATCH, m.now, digest, i);
  }
}
