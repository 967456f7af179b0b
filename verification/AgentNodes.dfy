/** The loops of the agent runtime: validation of a model reply, merging of references, the search for
    an outstanding required tool, and running the graph from a stored point. */
module AgentNodes {
  import opened Prelude
  import opened AgentGraph
  import Intent = AgentIntent

  method MissingTool(required: seq<Name>, completed: seq<Name>) returns (missing: Option<Name>)
    ensures missing == FirstMissing(required, completed)
  {
    for i := 0 to |required|
      invariant FirstMissing(required, completed) == FirstMissing(required[i..], completed)
    {
      assert required[i..][1..] == required[i + 1..];
      if required[i] !in completed {
        return Some(required[i]);
      }
    }
    return None;
  }

  method CheckLimits(limits: seq<Limit>, args: Arguments) returns (check: Check)
    requires args.Fields?
    ensures check == LimitsCheck(limits, args)
    ensures check == Pass <==> Intent.Honours(limits, args)
  {
    Intent.LimitsCheckMeans(limits, args);
    for i := 0 to |limits|
      invariant LimitsCheck(limits, args) == LimitsCheck(limits[i..], args)
    {
      var l := limits[i];
      assert limits[i..][1..] == limits[i + 1..];
      if !l.oneRun {
        continue;
      }
      if l.budget || !l.upper {
        return Fail(LimitNotSupported);
      }
      if l.quantity && args.maxPurchaseQty != l.value {
        return Fail(LimitConflict);
      }
    }
    return Pass;
  }

  method CheckNames(cfg: Config, offered: set<Name>, calls: seq<RawCall>) returns (check: Check)
    ensures check == NamesCheck(cfg, offered, calls)
  {
    for i := 0 to |calls|
      invariant NamesCheck(cfg, offered, calls) == NamesCheck(cfg, offered, calls[i..])
    {
      var c := calls[i];
      assert calls[i..][1..] == calls[i + 1..];
      if c.RawCall? && c.name.Some? {
        if c.name.value !in cfg.names {
          return Fail(UnknownTool);
        }
        if c.name.value !in offered {
          return Fail(ToolNotOffered);
        }
      }
    }
    return Pass;
  }

  method CheckCall(cfg: Config, frame: Frame, ids: set<string>, c: RawCall) returns (check: Check)
    ensures check == CallCheck(cfg, frame, ids, c)
    ensures check == Pass <==> Intent.Callable(cfg, frame, c) && c.id.value !in ids
  {
    Intent.CallCheckMeans(cfg, frame, ids, c);
    if c.NotACall? || c.id.None? || c.id.value in ids || c.name.None? {
      return Protocol;
    }
    if c.name.value !in cfg.names {
      return Fail(UnknownTool);
    }
    if c.args.Malformed? {
      return Protocol;
    }
    if cfg.contextual && c.name.value in frame.denied {
      return Fail(ReadOnlyIntent);
    }
    if cfg.contextual && c.name.value == REVISE_PLAN {
      if frame.unresolved {
        return Fail(LimitUnresolved);
      }
      var limited := CheckLimits(frame.limits, c.args);
      if limited != Pass {
        return limited;
      }
    }
    if c.name.value == CLARIFY && (c.args.question.None? || Blank(c.args.question.value)) {
      return Protocol;
    }
    return Pass;
  }

  method CheckCalls(cfg: Config, frame: Frame, calls: seq<RawCall>) returns (check: Check)
    ensures check == CallsCheck(cfg, frame, {}, calls)
    ensures check == Pass <==> Intent.Batch(cfg, frame, {}, calls)
  {
    Intent.CallsCheckMeans(cfg, frame, {}, calls);
    var ids: set<string> := {};
    for i := 0 to |calls|
      invariant CallsCheck(cfg, frame, {}, calls) == CallsCheck(cfg, frame, ids, calls[i..])
    {
      assert calls[i..][1..] == calls[i + 1..];
      var one := CheckCall(cfg, frame, ids, calls[i]);
      if one != Pass {
        return one;
      }
      ids := ids + {calls[i].id.value};
    }
    return Pass;
  }

  /** The checks in the order the node makes them; the first that fails decides. */
  method JudgeReply(cfg: Config, missing: Option<Name>, frame: Frame, reply: Reply) returns (verdict: Verdict)
    ensures verdict == Judge(cfg, missing, frame, reply)
    ensures verdict.Accepted? <==> Intent.Acceptable(cfg, missing, frame, reply)
  {
    Intent.AcceptedExactly(cfg, missing, frame, reply);
    if reply.calls.None? || |reply.calls.value| > cfg.maxTools {
      return Repairable;
    }
    var calls := reply.calls.value;
    var check := CheckNames(cfg, Offered(cfg, missing), calls);
    if check.Fail? {
      return Rejected(check.code);
    }
    check := CheckCalls(cfg, frame, calls);
    if check.Fail? {
      return Rejected(check.code);
    }
    if check.Protocol? {
      return Repairable;
    }
    if missing.Some? && |calls| == 0 {
      return Rejected(RequiredToolNotCompleted);
    }
    if reply.content.None? || (|calls| == 0 && Blank(reply.content.value)) {
      return Repairable;
    }
    CheckedCallsParse(cfg, frame, {}, calls);
    return Accepted(Parsed(calls), reply.content.value);
  }

  method MergeReferences(known: seq<Ref>, more: seq<Ref>) returns (references: seq<Ref>)
    ensures references == Merged(known, more)
  {
    references := known;
    for i := 0 to |more|
      invariant references == Merged(known, more[..i])
    {
      assert more[..i + 1][..i] == more[..i];
      if more[i] !in references {
        references := references + [more[i]];
      }
    }
    assert more[..|more|] == more;
  }

  /** Merging keeps what was known in place, adds exactly the new references, and none twice. */
  lemma {:induction false} MergedMeaning(known: seq<Ref>, more: seq<Ref>)
    ensures known <= Merged(known, more)
    ensures forall r :: r in Merged(known, more) <==> r in known || r in more
    ensures Distinct(known) ==> Distinct(Merged(known, more))
  {
    if more != [] {
      var before := more[..|more| - 1];
      assert more == before + [more[|more| - 1]];
      MergedMeaning(known, before);
    }
  }

  /** Run the graph from a stored point, one node after the other, until it ends, fails or has to wait
      for an input that is not there yet. */
  method RunGraph(cfg: Config, start: Point, inputs: seq<Input>) returns (points: seq<Point>, failure: Option<Failure>)
    ensures |points| >= 1 && points[0] == start && |points| <= |inputs| + 1
    ensures IsRun(cfg, points, inputs[..|points| - 1])
    ensures failure.Some? ==>
      var p, n := points[|points| - 1], |points| - 1;
      n < |inputs| && Runnable(p) && Accepts(p, inputs[n]) && Step(cfg, p, inputs[n]) == Err(failure.value)
    ensures failure.None? ==>
      var p, n := points[|points| - 1], |points| - 1;
      p.node == End || n == |inputs| || !Runnable(p) || !Accepts(p, inputs[n])
  {
    points, failure := [start], None;
    var n := 0;
    while n < |inputs| && Runnable(points[n]) && Accepts(points[n], inputs[n])
      invariant n <= |inputs| && |points| == n + 1 && points[0] == start
      invariant IsRun(cfg, points, inputs[..n])
    {
      var result := Step(cfg, points[n], inputs[n]);
      if result.Err? {
        return points, Some(result.error);
      }
      Extend(cfg, points, inputs[..n], inputs[n], result.value);
      assert inputs[..n + 1] == inputs[..n] + [inputs[n]];
      points := points + [result.value];
      n := n + 1;
    }
  }

  lemma Extend(cfg: Config, points: seq<Point>, inputs: seq<Input>, input: Input, q: Point)
    requires IsRun(cfg, points, inputs) && Moves(cfg, points[|points| - 1], input, q)
    ensures IsRun(cfg, points + [q], inputs + [input])
  {
    forall i | 0 <= i < |inputs| + 1 ensures MovesAt(cfg, points + [q], inputs + [input], i) {
      if i < |inputs| { assert MovesAt(cfg, points, inputs, i); }
    }
  }
}
