/** What the checks on a model reply guarantee: a batch is accepted exactly when each of its calls may be
    made under the frame, and every call a run executes is one its current frame allows. */
module AgentIntent {
  import opened Prelude
  import opened AgentGraph
  import opened AgentGraphProofs

  // ---------------------------------------------------------------- one call

  /** Every limit on the one run is an upper bound on the quantity or on something the tool does not set,
      none is a budget, and the quantity asked for is each quantity limit's value. */
  ghost predicate Honours(limits: seq<Limit>, args: Arguments)
    requires args.Fields?
  {
    forall l :: l in limits && l.oneRun ==> !l.budget && l.upper && (l.quantity ==> args.maxPurchaseQty == l.value)
  }

  /** The frame allows a tool with these arguments: not denied, and a revision only within resolved limits. */
  ghost predicate Allows(frame: Frame, name: Name, args: Arguments)
    requires args.Fields?
  {
    name !in frame.denied && (name == REVISE_PLAN ==> !frame.unresolved && Honours(frame.limits, args))
  }

  /** A text that is not blank. */
  predicate Speaks(s: string) {
    exists i :: 0 <= i < |s| && s[i] !in WHITESPACE
  }

  ghost predicate AsksSomething(name: Name, args: Arguments)
    requires args.Fields?
  {
    name == CLARIFY ==> args.question.Some? && Speaks(args.question.value)
  }

  ghost predicate Callable(cfg: Config, frame: Frame, c: RawCall) {
    && WellFormed(c) && c.name.value in cfg.names
    && (cfg.contextual ==> Allows(frame, c.name.value, c.args)) && AsksSomething(c.name.value, c.args)
  }

  lemma {:induction false} LimitsCheckMeans(limits: seq<Limit>, args: Arguments)
    requires args.Fields?
    ensures LimitsCheck(limits, args) == Pass <==> Honours(limits, args)
  {
    if limits != [] {
      assert limits == [limits[0]] + limits[1..];
      LimitsCheckMeans(limits[1..], args);
    }
  }

  lemma CallCheckMeans(cfg: Config, frame: Frame, ids: set<string>, c: RawCall)
    ensures CallCheck(cfg, frame, ids, c) == Pass <==> Callable(cfg, frame, c) && c.id.value !in ids
  {
    if WellFormed(c) { LimitsCheckMeans(frame.limits, c.args); }
  }

  // ---------------------------------------------------------------- the batch

  /** No id twice, and none of those already used. */
  ghost predicate FreshIds(ids: set<string>, calls: seq<RawCall>) {
    && (forall i :: 0 <= i < |calls| ==> calls[i].RawCall? && calls[i].id.Some? && calls[i].id.value !in ids)
    && (forall i, j :: 0 <= i < j < |calls| ==> calls[i].id != calls[j].id)
  }

  ghost predicate Batch(cfg: Config, frame: Frame, ids: set<string>, calls: seq<RawCall>) {
    (forall i :: 0 <= i < |calls| ==> Callable(cfg, frame, calls[i])) && FreshIds(ids, calls)
  }

  lemma BatchTail(cfg: Config, frame: Frame, ids: set<string>, calls: seq<RawCall>)
    requires calls != [] && Callable(cfg, frame, calls[0]) && calls[0].id.value !in ids
    ensures Batch(cfg, frame, ids, calls) <==> Batch(cfg, frame, ids + {calls[0].id.value}, calls[1..])
  {
    var more, rest := ids + {calls[0].id.value}, calls[1..];
    if Batch(cfg, frame, more, rest) {
      forall i | 0 <= i < |calls| ensures Callable(cfg, frame, calls[i]) {
        if i > 0 { assert calls[i] == rest[i - 1]; }
      }
      forall i | 0 <= i < |calls| ensures calls[i].id.value !in ids {
        if i > 0 { assert calls[i] == rest[i - 1] && rest[i - 1].id.value !in more; }
      }
      forall i, j | 0 <= i < j < |calls| ensures calls[i].id != calls[j].id {
        assert calls[j] == rest[j - 1] && rest[j - 1].id.value !in more;
        if i > 0 { assert calls[i] == rest[i - 1]; }
      }
    }
  }

  /** The loop over the calls passes exactly the batches whose calls may all be made, under distinct ids. */
  lemma {:induction false} CallsCheckMeans(cfg: Config, frame: Frame, ids: set<string>, calls: seq<RawCall>)
    ensures CallsCheck(cfg, frame, ids, calls) == Pass <==> Batch(cfg, frame, ids, calls)
    decreases calls
  {
    if calls != [] {
      CallCheckMeans(cfg, frame, ids, calls[0]);
      if CallCheck(cfg, frame, ids, calls[0]) == Pass {
        CallsCheckMeans(cfg, frame, ids + {calls[0].id.value}, calls[1..]);
        BatchTail(cfg, frame, ids, calls);
      }
    }
  }

  lemma {:induction false} NamesCheckExactly(cfg: Config, offered: set<Name>, calls: seq<RawCall>)
    ensures NamesCheck(cfg, offered, calls) == Pass <==>
      forall c :: c in calls && c.RawCall? && c.name.Some? ==> c.name.value in cfg.names && c.name.value in offered
  {
    if calls != [] {
      assert calls == [calls[0]] + calls[1..];
      NamesCheckExactly(cfg, offered, calls[1..]);
    }
  }

  /** A reply is accepted exactly when its calls are a batch the frame allows, all offered, with something to
      do or to say. */
  ghost predicate Acceptable(cfg: Config, missing: Option<Name>, frame: Frame, reply: Reply) {
    && reply.calls.Some? && |reply.calls.value| <= cfg.maxTools && Batch(cfg, frame, {}, reply.calls.value)
    && (missing.Some? ==> forall c :: c in reply.calls.value ==> c.name.value in {missing.value, CLARIFY})
    && reply.content.Some? && (reply.calls.value == [] ==> missing.None? && Speaks(reply.content.value))
  }

  lemma AcceptedExactly(cfg: Config, missing: Option<Name>, frame: Frame, reply: Reply)
    ensures Judge(cfg, missing, frame, reply).Accepted? <==> Acceptable(cfg, missing, frame, reply)
    ensures Acceptable(cfg, missing, frame, reply) ==>
      Judge(cfg, missing, frame, reply) == Accepted(Parsed(reply.calls.value), reply.content.value)
  {
    if reply.calls.Some? {
      NamesCheckExactly(cfg, Offered(cfg, missing), reply.calls.value);
      CallsCheckMeans(cfg, frame, {}, reply.calls.value);
    }
  }

  // ---------------------------------------------------------------- what is not accepted

  /** A tool that does not exist; or, while one is outstanding, neither that one nor the question. */
  predicate Unauthorized(cfg: Config, missing: Option<Name>, c: RawCall) {
    && c.RawCall? && c.name.Some?
    && (c.name.value !in cfg.names || (missing.Some? && c.name.value !in {missing.value, CLARIFY}))
  }

  /** A well-formed call that goes against the frame, and how. */
  ghost predicate Offends(cfg: Config, frame: Frame, c: RawCall, code: Failure) {
    && cfg.contextual && WellFormed(c)
    && match code
       case ReadOnlyIntent => c.name.value in frame.denied
       case LimitUnresolved => c.name.value == REVISE_PLAN && frame.unresolved
       case LimitNotSupported =>
         c.name.value == REVISE_PLAN && exists l :: l in frame.limits && l.oneRun && (l.budget || !l.upper)
       case LimitConflict =>
         c.name.value == REVISE_PLAN
         && exists l :: l in frame.limits && l.oneRun && l.quantity && c.args.maxPurchaseQty != l.value
       case _ => false
  }

  /** A call that cannot be read, uses an id a second time, or asks a blank question. */
  ghost predicate Garbled(ids: set<string>, calls: seq<RawCall>) {
    || (exists i :: 0 <= i < |calls| && (!WellFormed(calls[i]) || calls[i].id.value in ids))
    || (exists i, j ::
          0 <= i < j < |calls| && WellFormed(calls[i]) && WellFormed(calls[j]) && calls[i].id == calls[j].id)
    || (exists i :: 0 <= i < |calls| && WellFormed(calls[i]) && !AsksSomething(calls[i].name.value, calls[i].args))
  }

  lemma {:induction false} LimitsFail(limits: seq<Limit>, args: Arguments)
    requires args.Fields?
    ensures !LimitsCheck(limits, args).Protocol?
    ensures LimitsCheck(limits, args).Fail? ==>
      match LimitsCheck(limits, args).code
      case LimitNotSupported => exists l :: l in limits && l.oneRun && (l.budget || !l.upper)
      case LimitConflict => exists l :: l in limits && l.oneRun && l.quantity && args.maxPurchaseQty != l.value
      case _ => false
  {
    if limits != [] {
      assert limits[0] in limits;
      LimitsFail(limits[1..], args);
    }
  }

  lemma {:induction false} CallsFail(cfg: Config, frame: Frame, ids: set<string>, calls: seq<RawCall>)
    requires forall c :: c in calls && c.RawCall? && c.name.Some? ==> c.name.value in cfg.names
    ensures var check := CallsCheck(cfg, frame, ids, calls);
      && (check.Fail? ==> exists c :: c in calls && Offends(cfg, frame, c, check.code))
      && (check.Protocol? ==> Garbled(ids, calls))
    decreases calls
  {
    if calls != [] {
      var c, rest := calls[0], calls[1..];
      assert calls == [c] + rest;
      if WellFormed(c) { LimitsFail(frame.limits, c.args); }
      if CallCheck(cfg, frame, ids, c).Pass? {
        CallsFail(cfg, frame, ids + {c.id.value}, rest);
        if CallsCheck(cfg, frame, ids, calls).Protocol? { GarbledTail(ids, calls); }
      } else {
        assert c in calls;
      }
    }
  }

  lemma GarbledTail(ids: set<string>, calls: seq<RawCall>)
    requires calls != [] && WellFormed(calls[0]) && Garbled(ids + {calls[0].id.value}, calls[1..])
    ensures Garbled(ids, calls)
  {
    var rest := calls[1..];
    assert forall i :: 0 <= i < |rest| ==> rest[i] == calls[i + 1];
    if i :| 0 <= i < |rest| && (!WellFormed(rest[i]) || rest[i].id.value in ids + {calls[0].id.value}) {
      assert !WellFormed(calls[i + 1]) || calls[i + 1].id.value in ids || calls[0].id == calls[i + 1].id;
    } else if i, j :| 0 <= i < j < |rest| && WellFormed(rest[i]) && WellFormed(rest[j]) && rest[i].id == rest[j].id {
      assert calls[i + 1].id == calls[j + 1].id;
    } else {
      var i :| 0 <= i < |rest| && WellFormed(rest[i]) && !AsksSomething(rest[i].name.value, rest[i].args);
      assert !AsksSomething(calls[i + 1].name.value, calls[i + 1].args);
    }
  }

  /** Why a reply is refused or has to be repaired. Unauthorized names are refused whatever else is wrong. */
  lemma NotAccepted(cfg: Config, missing: Option<Name>, frame: Frame, reply: Reply)
    ensures var verdict := Judge(cfg, missing, frame, reply);
      if reply.calls.None? || |reply.calls.value| > cfg.maxTools then verdict.Repairable?
      else if exists c :: c in reply.calls.value && Unauthorized(cfg, missing, c) then
        verdict.Rejected? && verdict.code in {UnknownTool, ToolNotOffered}
      else
        && (verdict.Rejected? ==>
              || (verdict.code == RequiredToolNotCompleted && missing.Some? && reply.calls.value == [])
              || exists c :: c in reply.calls.value && Offends(cfg, frame, c, verdict.code))
        && (verdict.Repairable? ==>
              || Garbled({}, reply.calls.value)
              || reply.content.None? || (reply.calls.value == [] && !Speaks(reply.content.value)))
  {
    if reply.calls.Some? && |reply.calls.value| <= cfg.maxTools {
      NamesCheckExactly(cfg, Offered(cfg, missing), reply.calls.value);
      NamesFail(cfg, Offered(cfg, missing), reply.calls.value);
      if NamesCheck(cfg, Offered(cfg, missing),
         reply.calls.value).Pass? { CallsFail(cfg, frame, {}, reply.calls.value); }
    }
  }

  lemma {:induction false} NamesFail(cfg: Config, offered: set<Name>, calls: seq<RawCall>)
    ensures NamesCheck(cfg, offered, calls).Fail? ==>
      NamesCheck(cfg, offered, calls).code in {UnknownTool, ToolNotOffered}
  {
    if calls != [] { NamesFail(cfg, offered, calls[1..]); }
  }

  // ---------------------------------------------------------------- the run

  ghost predicate CallAllowed(cfg: Config, frame: Frame, c: Call) {
    && c.name in cfg.names && c.args.Fields? && (cfg.contextual ==> Allows(frame, c.name, c.args))
       && AsksSomething(c.name, c.args)
  }

  /** What stands in front of the tools may be called under the frame of the state, under distinct ids. */
  ghost predicate PendingInv(cfg: Config, p: Point) {
    && (forall i :: 0 <= i < |p.state.pending| ==> CallAllowed(cfg, FrameOf(p.state), p.state.pending[i]))
    && (forall i, j :: 0 <= i < j < |p.state.pending| ==> p.state.pending[i].id != p.state.pending[j].id)
  }

  lemma ModelStepPending(cfg: Config, p: Point, input: Input, q: Point)
    requires p.node == ModelNode && Moves(cfg, p, input, q)
    ensures PendingInv(cfg, q)
  {
    ModelStepCases(cfg, p.state, input);
    var t, reply := Prepared(cfg, p.state, input.context, input.frame, input.fits).value, input.outcome.reply;
    var missing := FirstMissing(t.required, t.completed);
    if q.state != Repaired(t, reply.usage) {
      AcceptedExactly(cfg, missing, FrameOf(t), reply);
      assert q.state == Replying(t, Parsed(reply.calls.value), reply.content.value, reply.usage);
    }
  }

  lemma PendingStep(cfg: Config, p: Point, input: Input, q: Point)
    requires PendingInv(cfg, p) && Moves(cfg, p, input, q)
    ensures PendingInv(cfg, q)
  {
    if p.node == ModelNode {
      ModelStepPending(cfg, p, input, q);
    } else {
      assert q.state.pending == p.state.pending && q.state.frame == p.state.frame;
    }
  }

  lemma {:induction false} PendingAllowed(cfg: Config, messages: seq<Msg>, pts: seq<Point>, ins: seq<Input>, k: nat)
    requires IsRunFrom(cfg, messages, pts, ins) && k < |pts|
    ensures PendingInv(cfg, pts[k])
  {
    if k > 0 {
      PendingAllowed(cfg, messages, pts, ins, k - 1);
      RunStep(cfg, pts, ins, k - 1);
      PendingStep(cfg, pts[k - 1], ins[k - 1], pts[k]);
    }
  }

  /** Through repairs, restarts and changing contexts: whatever tool a run executes or question it asks is
      allowed by the frame it then works under, and no other call of the batch has its id. */
  lemma ExecutedWithinFrame(cfg: Config, messages: seq<Msg>, pts: seq<Point>, ins: seq<Input>, k: nat)
    requires IsRunFrom(cfg, messages, pts, ins) && k < |pts| && pts[k].node in {ToolNode, ClarifyNode}
    ensures var s := pts[k].state;
      && s.index < |s.pending| && CallAllowed(cfg, FrameOf(s), s.pending[s.index])
      && (forall i :: 0 <= i < |s.pending| && i != s.index ==> s.pending[i].id != s.pending[s.index].id)
  {
    PendingAllowed(cfg, messages, pts, ins, k);
    RunInv(cfg, messages, pts, ins, k);
  }
}
