/** What is delivered of the evidence at hand: exactly which pieces, in which order, how long, with which
    paths and statements, and what is reported. */
module EvidenceDelivery {
  import opened Prelude
  import opened DocumentEvidence
  import opened EvidenceTheorems

  // ---------------------------------------------------------------- one piece

  /** How many of the first i stand. */
  function Rank(given: seq<Candidate>, current: Authority, i: nat): nat
    requires i <= |given|
  {
    if i == 0 then 0 else Rank(given, current, i - 1) + if Stands(given[i - 1], current) then 1 else 0
  }

  function Standing(current: Authority, now: int): Path -> bool {
    (p: Path) => PathStands(p, current, now)
  }

  /** The paths that stand among the first twenty, in their order. */
  ghost predicate KeptPaths(kept: seq<Path>, paths: seq<Path>, current: Authority, now: int) {
    kept == Filter(Standing(current, now), if |paths| <= 20 then paths else paths[..20])
  }

  /** c is o as the authority states it, with its standing paths, cut to what is left of the budget. */
  ghost predicate Piece(c: Candidate, o: Candidate, left: int, current: Authority, now: int, digest: Digest) {
    && Stands(o, current) && IdentityOf(c) == IdentityOf(o)
    && c == o.(provenance := Some(current[o.version].provenance), originalSha :=
          Some(current[o.version].provenance.originalSha),
               paths := c.paths, text := c.text, truncated := c.truncated, contentSha := c.contentSha)
    && KeptPaths(c.paths, o.paths, current, now)
    && 0 < left
    && if |o.text| <= left then c.text == o.text && c.truncated == o.truncated && c.contentSha == o.contentSha
       else c.text == o.text[..left] && c.truncated && c.contentSha == digest.of(c.text)
  }

  lemma AdmittedPiece(t: Tally, c: Candidate, current: Authority, now: int, digest: Digest)
    requires Current(c, current) && IdentityOf(c) !in t.seen && t.budget > 0
    ensures var u := Admit(t, c, current, now, digest);
      && |u.kept| == |t.kept| + 1 && u.kept[..|t.kept|] == t.kept
      && Piece(u.kept[|t.kept|], c, t.budget, current, now, digest)
      && u.budget == t.budget - |u.kept[|t.kept|].text| && u.seen == t.seen + {IdentityOf(c)}
  {
    CurrentMeans(c, current);
    forall p ensures PathCurrent(p, current, now)
      <==> PathStands(p, current, now) { PathCurrentMeans(p, current, now); }
    FilterAgree(PathsIn(current, now), Standing(current, now), UpTo(c.paths, MAX_PATHS));
    assert UpTo(c.paths, MAX_PATHS) == if |c.paths| <= 20 then c.paths else c.paths[..20];
    assert KeptPaths(Restated(c, current, now).paths, c.paths, current, now);
    assert Restated(c, current, now).originalSha == Some(current[c.version].provenance.originalSha);
  }

  // ---------------------------------------------------------------- all pieces

  ghost predicate Rising(from: seq<nat>) {
    forall j, k :: 0 <= j < k < |from| ==> from[j] < from[k]
  }

  ghost predicate PieceAt(kept: seq<Candidate>, items: seq<Candidate>, from: seq<nat>, k: nat, current: Authority,
                          now: int, digest: Digest) {
    && k < |kept| == |from| && from[k] < |items|
    && Piece(kept[k], items[from[k]], BUDGET - Total(kept[..k]), current, now, digest)
  }

  /** Item i is among what was kept: it, or an earlier one of the same identity. */
  ghost predicate Covered(kept: seq<Candidate>, items: seq<Candidate>, from: seq<nat>, i: nat) {
    i < |items| && |from| == |kept| && exists k ::
      0 <= k < |kept| && from[k] <= i && IdentityOf(kept[k]) == IdentityOf(items[i])
  }

  /** Everything at hand is kept, in order and each identity once, until the budget is used up. */
  ghost predicate Delivery(kept: seq<Candidate>, items: seq<Candidate>, from: seq<nat>, current: Authority, now: int,
                           digest: Digest) {
    && |from| == |kept| && Rising(from)
    && (forall k :: 0 <= k < |kept| ==> PieceAt(kept, items, from, k, current, now, digest))
    && (forall j, k :: 0 <= j < k < |kept| ==> IdentityOf(kept[j]) != IdentityOf(kept[k]))
    && (forall i :: 0 <= i < |items| ==> Covered(kept, items, from, i) || Total(kept) == BUDGET)
  }

  /** Piece k has lost a path, or a part of its text. */
  ghost predicate LostPath(kept: seq<Candidate>, items: seq<Candidate>, from: seq<nat>, k: nat) {
    k < |kept| && k < |from| && from[k] < |items| && kept[k].paths != items[from[k]].paths
  }

  ghost predicate Shortened(kept: seq<Candidate>, items: seq<Candidate>, from: seq<nat>, k: nat) {
    k < |kept| && k < |from| && from[k] < |items| && kept[k].text != items[from[k]].text
  }

  /** What has been added to the warnings, and whether something was lost. */
  ghost predicate Reported(before: Tally, t: Tally, items: seq<Candidate>, from: seq<nat>) {
    && (forall x :: x in t.warnings <==>
          || x in before.warnings
          || (x == PathRemoved && exists k: nat :: LostPath(t.kept, items, from, k))
          || (x == CharacterBudget && exists k: nat :: Shortened(t.kept, items, from, k)))
    && (t.stale <==> before.stale || exists k: nat :: LostPath(t.kept, items, from, k))
  }

  lemma CurrentPathsShorter(c: Candidate, current: Authority, now: int)
    ensures |CurrentPaths(c.paths, current, now)| == |c.paths| <==> CurrentPaths(c.paths, current, now) == c.paths
  {
    FilterHolds(PathsIn(current, now), UpTo(c.paths, MAX_PATHS));
  }

  lemma ReportedPassOver(before: Tally, t: Tally, items: seq<Candidate>, from: seq<nat>, c: Candidate)
    requires Reported(before, t, items, from) && forall k :: 0 <= k < |from| ==> from[k] < |items|
    ensures Reported(before, t, items + [c], from)
  {
    var all := items + [c];
    assert forall k: nat :: LostPath(t.kept, items, from, k) <==> LostPath(t.kept, all, from, k);
    assert forall k: nat :: Shortened(t.kept, items, from, k) <==> Shortened(t.kept, all, from, k);
  }

  lemma ReportedTakeOn(before: Tally, t: Tally, items: seq<Candidate>, from: seq<nat>, c: Candidate,
                       current: Authority, now: int, digest: Digest)
    requires Reported(before, t, items, from) && |from| == |t.kept| && forall k :: 0 <= k < |from| ==> from[k] < |items|
    requires Current(c, current) && IdentityOf(c) !in t.seen && t.budget > 0
    ensures Reported(before, Admit(t, c, current, now, digest), items + [c], from + [|items|])
  {
    var u, all, more, n := Admit(t, c, current, now, digest), items + [c], from + [|items|], |t.kept|;
    CurrentPathsShorter(c, current, now);
    assert u.kept == t.kept + [u.kept[n]];
    forall k: nat | k < n
      ensures LostPath(t.kept, items, from, k) <==> LostPath(u.kept, all, more, k)
      ensures Shortened(t.kept, items, from, k) <==> Shortened(u.kept, all, more, k) {
      assert u.kept[k] == t.kept[k] && more[k] == from[k] && all[from[k]] == items[from[k]];
    }
    assert LostPath(u.kept, all, more, n) <==> CurrentPaths(c.paths, current, now) != c.paths;
    assert Shortened(u.kept, all, more, n) <==> |c.text| > t.budget;
    assert (exists k: nat :: LostPath(u.kept, all, more, k)) <==>
      (exists k: nat :: LostPath(t.kept, items, from, k)) || LostPath(u.kept, all, more, n);
    assert (exists k: nat :: Shortened(u.kept, all, more, k)) <==>
      (exists k: nat :: Shortened(t.kept, items, from, k)) || Shortened(u.kept, all, more, n);
  }

  ghost predicate LoopInv(t: Tally, items: seq<Candidate>, from: seq<nat>, current: Authority, now: int,
                          digest: Digest) {
    && Delivery(t.kept, items, from, current, now, digest) && t.budget == BUDGET - Total(t.kept)
    && forall x :: x in t.seen <==> exists k :: 0 <= k < |t.kept| && IdentityOf(t.kept[k]) == x
  }

  /** An item that is passed over: seen before, or nothing left of the budget. */
  lemma PassOver(t: Tally, items: seq<Candidate>, from: seq<nat>, c: Candidate, current: Authority, now: int,
                 digest: Digest)
    requires LoopInv(t, items, from, current, now, digest) && (IdentityOf(c) in t.seen || t.budget == 0)
    ensures LoopInv(t, items + [c], from, current, now, digest)
  {
    var all := items + [c];
    forall k | 0 <= k < |t.kept| ensures PieceAt(t.kept, all, from, k, current, now, digest) {
      assert PieceAt(t.kept, items, from, k, current, now, digest);
    }
    forall i | 0 <= i < |all| ensures Covered(t.kept, all, from, i) || Total(t.kept) == BUDGET {
      if i < |items| {
        if Covered(t.kept, items, from, i) {
          var k :| 0 <= k < |t.kept| && from[k] <= i && IdentityOf(t.kept[k]) == IdentityOf(items[i]);
          assert IdentityOf(t.kept[k]) == IdentityOf(all[i]);
        }
      } else if IdentityOf(c) in t.seen {
        var k :| 0 <= k < |t.kept| && IdentityOf(t.kept[k]) == IdentityOf(c);
        assert PieceAt(t.kept, items, from, k, current, now, digest);
        assert from[k] <= i && IdentityOf(t.kept[k]) == IdentityOf(all[i]);
      }
    }
  }

  lemma PieceStays(kept: seq<Candidate>, longer: seq<Candidate>, items: seq<Candidate>, c: Candidate, from: seq<nat>,
                   k: nat, current: Authority, now: int, digest: Digest)
    requires PieceAt(kept, items, from, k, current, now, digest)
    requires |longer| == |kept| + 1 && longer[..|kept|] == kept
    ensures PieceAt(longer, items + [c], from + [|items|], k, current, now, digest)
  {
    assert longer[..k] == kept[..k] && longer[k] == kept[k];
  }

  lemma TakeOn(t: Tally, items: seq<Candidate>, from: seq<nat>, c: Candidate, current: Authority, now: int,
               digest: Digest)
    requires LoopInv(t, items, from, current, now, digest) && Current(c, current)
    requires IdentityOf(c) !in t.seen && t.budget > 0
    ensures LoopInv(Admit(t, c, current, now, digest), items + [c], from + [|items|], current, now, digest)
  {
    var u, all, more := Admit(t, c, current, now, digest), items + [c], from + [|items|];
    var n := |t.kept|;
    AdmittedPiece(t, c, current, now, digest);
    assert u.kept == t.kept + [u.kept[n]];
    assert PieceAt(u.kept, all, more, n, current, now, digest);
    forall k | 0 <= k < n ensures PieceAt(u.kept, all, more, k, current, now, digest) {
      PieceStays(t.kept, u.kept, items, c, from, k, current, now, digest);
    }
    forall j, k | 0 <= j < k < |more| ensures more[j] < more[k] {
      if k == n { assert PieceAt(t.kept, items, from, j, current, now, digest); }
    }
    forall j, k | 0 <= j < k < |u.kept| ensures IdentityOf(u.kept[j]) != IdentityOf(u.kept[k]) {
      if k == n { assert IdentityOf(t.kept[j]) in t.seen; }
    }
    TakenCovers(t, u, items, from, c);
    TakenSeen(t, u, c);
  }

  lemma TakenCovers(t: Tally, u: Tally, items: seq<Candidate>, from: seq<nat>, c: Candidate)
    requires |from| == |t.kept| && |u.kept| == |t.kept| + 1 && u.kept[..|t.kept|] == t.kept
    requires IdentityOf(u.kept[|t.kept|]) == IdentityOf(c) && Total(t.kept) < BUDGET
    requires forall i :: 0 <= i < |items| ==> Covered(t.kept, items, from, i) || Total(t.kept) == BUDGET
    ensures forall i :: 0 <= i < |items| + 1 ==> Covered(u.kept, items + [c], from + [|items|], i)
  {
    var all, more := items + [c], from + [|items|];
    forall i | 0 <= i < |all| ensures Covered(u.kept, all, more, i) {
      if i < |items| {
        assert Covered(t.kept, items, from, i);
        var k :| 0 <= k < |t.kept| && from[k] <= i && IdentityOf(t.kept[k]) == IdentityOf(items[i]);
        assert u.kept[k] == t.kept[k] && more[k] <= i;
      } else {
        assert more[|t.kept|] <= i;
      }
    }
  }

  lemma TakenSeen(t: Tally, u: Tally, c: Candidate)
    requires |u.kept| == |t.kept| + 1 && u.kept[..|t.kept|] == t.kept && u.seen == t.seen + {IdentityOf(c)}
    requires IdentityOf(u.kept[|t.kept|]) == IdentityOf(c)
    requires forall x :: x in t.seen <==> exists k :: 0 <= k < |t.kept| && IdentityOf(t.kept[k]) == x
    ensures forall x :: x in u.seen <==> exists k :: 0 <= k < |u.kept| && IdentityOf(u.kept[k]) == x
  {
    forall x ensures x in u.seen <==> exists k :: 0 <= k < |u.kept| && IdentityOf(u.kept[k]) == x {
      if x in t.seen {
        var k :| 0 <= k < |t.kept| && IdentityOf(t.kept[k]) == x;
        assert u.kept[k] == t.kept[k];
      }
      if k :| 0 <= k < |u.kept| && IdentityOf(u.kept[k]) == x && k < |t.kept| {
        assert u.kept[k] == t.kept[k];
      }
    }
  }

  lemma {:induction false} AllDelivered(t: Tally, items: seq<Candidate>, current: Authority, now: int, digest: Digest)
    returns (from: seq<nat>)
    requires t.kept == [] && t.seen == {} && t.budget == BUDGET && forall i :: 0 <= i < |items| ==>
      Current(items[i], current)
    ensures LoopInv(AdmitAll(t, items, current, now, digest), items, from, current, now, digest)
    ensures Reported(t, AdmitAll(t, items, current, now, digest), items, from)
  {
    if items == [] {
      from := [];
    } else {
      var rest, last := items[..|items| - 1], items[|items| - 1];
      var before := AdmitAll(t, rest, current, now, digest);
      var front := AllDelivered(t, rest, current, now, digest);
      assert items == rest + [last];
      InnerWithin(before.kept, rest, front, current, now, digest);
      if IdentityOf(last) in before.seen || before.budget == 0 {
        PassOver(before, rest, front, last, current, now, digest);
        ReportedPassOver(t, before, rest, front, last);
        from := front;
      } else {
        TakeOn(before, rest, front, last, current, now, digest);
        ReportedTakeOn(t, before, rest, front, last, current, now, digest);
        from := front + [|rest|];
      }
    }
  }

  // ---------------------------------------------------------------- from what was given

  /** Where the ones that stand are among the first n: at their ranks. */
  ghost predicate Ranked(given: seq<Candidate>, current: Authority, n: nat, items: seq<Candidate>, at: seq<nat>) {
    && n <= |given| && Rank(given, current, n) == |at| == |items| && Rising(at)
    && (forall j :: 0 <= j < |at| ==> at[j] < n && given[at[j]] == items[j] && Rank(given, current, at[j]) == j)
    && (forall i :: 0 <= i < n && Stands(given[i], current) ==>
          Rank(given, current, i) < |at| && at[Rank(given, current, i)] == i)
  }

  lemma RankedNext(given: seq<Candidate>, current: Authority, n: nat, items: seq<Candidate>, at: seq<nat>)
    requires n < |given| && Ranked(given, current, n, items, at)
    ensures Stands(given[n], current) ==> Ranked(given, current, n + 1, items + [given[n]], at + [n])
    ensures !Stands(given[n], current) ==> Ranked(given, current, n + 1, items, at)
  {
  }

  /** The same as a property of positions. */
  ghost function Ranking(given: seq<Candidate>, current: Authority): (nat, seq<Candidate>, seq<nat>) -> bool {
    (n: nat, items: seq<Candidate>, at: seq<nat>) => Ranked(given, current, n, items, at)
  }

  lemma RankingNext(given: seq<Candidate>, current: Authority, n: nat, items: seq<Candidate>, at: seq<nat>,
                    more: seq<Candidate>, further: seq<nat>)
    requires 0 < n <= |given| && Ranking(given, current)(n - 1, items, at)
    requires more == items + if Stands(given[n - 1], current) then [given[n - 1]] else []
    requires further == if Stands(given[n - 1], current) then at + [n - 1] else at
    ensures Ranking(given, current)(n, more, further)
  {
    RankedNext(given, current, n - 1, items, at);
  }

  lemma FilterNext(given: seq<Candidate>, current: Authority, n: nat)
    requires 0 < n <= |given|
    ensures Filter(CurrentIn(current), given[..n])
         == Filter(CurrentIn(current), given[..n - 1]) + if Stands(given[n - 1], current) then [given[n - 1]] else []
  {
    assert given[..n] == given[..n - 1] + [given[n - 1]];
    FilterConcat(CurrentIn(current), given[..n - 1], [given[n - 1]]);
    CurrentMeans(given[n - 1], current);
  }

  lemma {:induction false} FilterRanked(given: seq<Candidate>, current: Authority, n: nat)
    returns (items: seq<Candidate>, at: seq<nat>)
    requires n <= |given|
    ensures items == Filter(CurrentIn(current), given[..n]) && Ranking(given, current)(n, items, at)
  {
    items := Filter(CurrentIn(current), given[..n]);
    if n == 0 {
      at := [];
    } else {
      var front, before := FilterRanked(given, current, n - 1);
      at := if Stands(given[n - 1], current) then before + [n - 1] else before;
      FilterNext(given, current, n);
      RankingNext(given, current, n, front, before, items, at);
    }
  }

  /** What a result delivers of what was given: the pieces that stand, the first limit of them, each identity
      once and in order, until the budget is used up. */
  ghost predicate Delivers(result: Response, given: seq<Candidate>, from: seq<nat>, current: Authority, limit: nat,
                           now: int, digest: Digest) {
    var kept := result.candidates;
    && |from| == |kept| && Rising(from)
    && (forall k :: 0 <= k < |kept| ==>
          PieceAt(kept, given, from, k, current, now, digest) && Rank(given, current, from[k]) < limit)
    && (forall j, k :: 0 <= j < k < |kept| ==> IdentityOf(kept[j]) != IdentityOf(kept[k]))
    && (forall i :: 0 <= i < |given| && Stands(given[i], current) && Rank(given, current, i) < limit ==>
          Covered(kept, given, from, i) || Total(kept) == BUDGET)
  }

  lemma PiecesComposed(kept: seq<Candidate>, items: seq<Candidate>, inner: seq<nat>, given: seq<Candidate>,
                       from: seq<nat>,
                       current: Authority, now: int, digest: Digest)
    requires forall k :: 0 <= k < |kept| ==> PieceAt(kept, items, inner, k, current, now, digest)
    requires |kept| == |from| == |inner|
    requires forall k :: 0 <= k < |inner| ==>
      inner[k] < |items| && from[k] < |given| && given[from[k]] == items[inner[k]]
    ensures forall k :: 0 <= k < |kept| ==> PieceAt(kept, given, from, k, current, now, digest)
  {
    forall k | 0 <= k < |kept| ensures PieceAt(kept, given, from, k, current, now, digest) {
      assert PieceAt(kept, items, inner, k, current, now, digest);
    }
  }

  lemma CoveredComposed(kept: seq<Candidate>, items: seq<Candidate>, inner: seq<nat>, given: seq<Candidate>,
                        at: seq<nat>,
                        from: seq<nat>, i: nat, j: nat)
    requires i < |given| && j < |items| <= |at| && at[j] == i && items[j] == given[i] && Rising(at)
    requires |kept| == |from| == |inner| && forall k :: 0 <= k < |inner| ==>
      inner[k] < |items| && from[k] == at[inner[k]]
    requires Covered(kept, items, inner, j)
    ensures Covered(kept, given, from, i)
  {
    var k :| 0 <= k < |kept| && inner[k] <= j && IdentityOf(kept[k]) == IdentityOf(items[j]);
    assert from[k] <= i && IdentityOf(kept[k]) == IdentityOf(given[i]);
  }

  lemma Composed(result: Response, items: seq<Candidate>, inner: seq<nat>, given: seq<Candidate>, all: seq<Candidate>,
                 at: seq<nat>, from: seq<nat>, current: Authority, limit: nat, now: int, digest: Digest)
    requires Delivery(result.candidates, items, inner, current, now, digest)
    requires Ranked(given, current, |given|, all, at) && items == UpTo(all, limit)
    requires |from| == |inner| && forall k :: 0 <= k < |inner| ==> inner[k] < |items| && from[k] == at[inner[k]]
    ensures Delivers(result, given, from, current, limit, now, digest)
  {
    var kept := result.candidates;
    PiecesComposed(kept, items, inner, given, from, current, now, digest);
    forall i | 0 <= i < |given| && Stands(given[i], current) && Rank(given, current, i) < limit
      ensures Covered(kept, given, from, i) || Total(kept) == BUDGET {
      var j := Rank(given, current, i);
      assert at[j] == i && items[j] == given[i];
      if Total(kept) != BUDGET { CoveredComposed(kept, items, inner, given, at, from, i, j); }
    }
  }

  ghost predicate Withdrawn(given: seq<Candidate>, current: Authority) {
    exists i :: 0 <= i < |given| && !Stands(given[i], current)
  }

  /** What a result reports: a piece that does not stand, a lost path, a shortened text, and nothing else that
      was not reported before. */
  ghost predicate Reports(r: Response, result: Response, from: seq<nat>, current: Authority) {
    var lost := exists k: nat :: LostPath(result.candidates, r.candidates, from, k);
    && (forall x :: x in result.warnings <==>
          || x in r.warnings || (x == Removed && Withdrawn(r.candidates, current)) || (x == PathRemoved && lost)
          || (x == CharacterBudget && exists k: nat :: Shortened(result.candidates, r.candidates, from, k)))
    && (result.stale <==> r.stale || Withdrawn(r.candidates, current) || lost)
    && (result.degraded <==> r.degraded || Withdrawn(r.candidates, current) || lost)
  }

  lemma OpeningReports(r: Response, current: Authority)
    ensures Opening(r, current).stale <==> Withdrawn(r.candidates, current)
    ensures forall x ::
      x in Opening(r, current).warnings <==> x in r.warnings || (x == Removed && Withdrawn(r.candidates, current))
  {
    FilterHolds(CurrentIn(current), r.candidates);
    if Filter(CurrentIn(current), r.candidates) == r.candidates {
      forall i | 0 <= i < |r.candidates|
        ensures Stands(r.candidates[i], current) { CurrentMeans(r.candidates[i], current); }
    } else if forall i :: 0 <= i < |r.candidates| ==> Stands(r.candidates[i], current) {
      forall i | 0 <= i < |r.candidates|
        ensures Current(r.candidates[i], current) { CurrentMeans(r.candidates[i], current); }
      FilterAll(CurrentIn(current), r.candidates);
    }
  }

  lemma ReportsComposed(r: Response, t: Tally, result: Response, items: seq<Candidate>, inner: seq<nat>,
                        from: seq<nat>, current: Authority)
    requires Reported(Opening(r, current), t, items, inner) && result.candidates == t.kept
      && result.warnings == t.warnings
    requires result.stale == (r.stale || t.stale) && result.degraded == (r.degraded || t.stale)
    requires |from| == |inner|
    requires forall k :: 0 <= k < |inner| ==>
      inner[k] < |items| && from[k] < |r.candidates| && r.candidates[from[k]] == items[inner[k]]
    ensures Reports(r, result, from, current)
  {
    OpeningReports(r, current);
    assert forall k: nat :: LostPath(t.kept, items, inner, k) <==> LostPath(t.kept, r.candidates, from, k);
    assert forall k: nat :: Shortened(t.kept, items, inner, k) <==> Shortened(t.kept, r.candidates, from, k);
  }

  /** Finalizing delivers what is at hand, and reports what it could not. */
  lemma FinalizeDelivers(r: Response, current: Authority, limit: nat, now: int, digest: Digest) returns (from: seq<nat>)
    ensures Delivers(Finalize(r, current, limit, now, digest), r.candidates, from, current, limit, now, digest)
    ensures Reports(r, Finalize(r, current, limit, now, digest), from, current)
  {
    var given, all, items := r.candidates, Filter(CurrentIn(current), r.candidates), Admissible(r, current, limit);
    assert given[..|given|] == given;
    var standing, at := FilterRanked(given, current, |given|);
    var inner := AllDelivered(Opening(r, current), items, current, now, digest);
    var result := Finalize(r, current, limit, now, digest);
    InnerWithin(result.candidates, items, inner, current, now, digest);
    from := seq(|inner|, k requires 0 <= k < |inner| => at[inner[k]]);
    Composed(result, items, inner, given, all, at, from, current, limit, now, digest);
    var t := AdmitAll(Opening(r, current), items, current, now, digest);
    ReportsComposed(r, t, result, items, inner, from, current);
  }

  lemma InnerWithin(kept: seq<Candidate>, items: seq<Candidate>, inner: seq<nat>, current: Authority, now: int,
                    digest: Digest)
    requires Delivery(kept, items, inner, current, now, digest)
    ensures forall k :: 0 <= k < |inner| ==> inner[k] < |items|
  {
    forall k | 0 <= k < |inner| ensures inner[k] < |items| {
      assert PieceAt(kept, items, inner, k, current, now, digest);
    }
  }

  // ---------------------------------------------------------------- from the remote answer to every replay

  ghost predicate DeliversAndReports(r: Response, result: Response, current: Authority, limit: nat, now: int,
                                     digest: Digest) {
    exists from ::
      Delivers(result, r.candidates, from, current, limit, now, digest) && Reports(r, result, from, current)
  }

  /** Only the chunks asked for, when there are any. */
  function OfChunks(chunks: Option<set<Id>>): Candidate -> bool {
    (c: Candidate) => match chunks case None => true case Some(ids) => c.chunk in ids
  }

  /** What is published under the generation and revision it was issued with. */
  function InScope(authority: Authority, issued: Authority): Authority {
    map v | v in authority && v in issued && authority[v].generation == issued[v].generation
            && authority[v].revision == issued[v].revision :: authority[v]
  }

  lemma ScopeMeans(authority: Authority, issued: Authority)
    ensures Within(authority, issued) == InScope(authority, issued)
  {
  }

  /** What is fetched: refused exactly when the remote answer breaks its schema; otherwise what was asked for and
      stands, by everything published and in the issued scope. */
  lemma FetchedDelivers(sent: Remote, issued: Authority, authority: Authority, chunks: Option<set<Id>>, limit: nat,
                        now: int,
                        digest: Digest)
    requires Steady(issued, authority) && issued != map[]
    ensures var received, fetched :=
      Received(sent, digest), Fetched(sent, issued, authority, chunks, limit, now, digest);
      if received.None? then fetched == Refused(KNOWLEDGE_UNAVAILABLE)
      else
        var asked := received.value.(candidates := Filter(OfChunks(chunks), received.value.candidates));
        fetched.Evidence? && DeliversAndReports(asked, fetched.response, InScope(authority, issued), limit, now, digest)
  {
    BatchIsEnough(sent, issued, authority, chunks, limit, now, digest);
    ScopeMeans(authority, issued);
    if Received(sent, digest).Some? {
      var received := Received(sent, digest).value;
      FilterAgree(AskedFor(chunks), OfChunks(chunks), received.candidates);
      var asked := received.(candidates := Filter(OfChunks(chunks), received.candidates));
      var from := FinalizeDelivers(asked, Within(authority, issued), limit, now, digest);
    }
  }

  /** What any call of a series answers: of what was fetched, or of the stored answer at a replay, everything that
      stands at that moment. */
  lemma AnsweredDelivers(sent: Remote, issued: Authority, authority: Authority, chunks: Option<set<Id>>, limit: nat,
                         now: int,
                         digest: Digest, calls: seq<Call>, n: nat)
    requires n < |calls| && calls[0].fetched == Fetched(sent, issued, authority, chunks, limit, now, digest)
    requires calls[0].fetched.Evidence?
    ensures Answered(calls, 0, digest).Evidence? && Answered(calls, n, digest).Evidence?
    ensures var known := if n == 0 then calls[0].fetched.response else Answered(calls, 0, digest).response;
      var m := calls[n].moment;
      DeliversAndReports(known, Answered(calls, n, digest).response, m.authority, 20, m.now, digest)
  {
    AnsweredIsFull(sent, issued, authority, chunks, limit, now, digest, calls, n);
    var known := if n == 0 then calls[0].fetched.response else Answered(calls, 0, digest).response;
    var from := FinalizeDelivers(known, calls[n].moment.authority, MAX_BATCH, calls[n].moment.now, digest);
  }
}
