/** What stands on the tape of a run and in its final answer, when a changed context starts the tape anew,
    and when a node step succeeds at all. */
module AgentTranscript {
  import opened Prelude
  import opened AgentGraph
  import opened AgentGraphProofs
  import opened AgentIntent
  import opened AgentOutcomes

  // ---------------------------------------------------------------- a changed context

  /** Nothing the run relied on has changed: a plain context is the same; a structured one has the same
      instructions and data, and every source known before, as it was. */
  predicate Compatible(before: Context, now: Context) {
    if before.Structured? && now.Structured? then
      && before.instructions == now.instructions && before.data == now.data
      && forall key :: key in before.sources ==> key in now.sources && now.sources[key] == before.sources[key]
    else before == now
  }

  lemma InvalidatedMeans(before: Context, now: Context)
    ensures Invalidated(before, now) <==> !Compatible(before, now)
  {
  }

  /** The context of the last model step before point k. */
  function LastContext(pts: seq<Point>, ins: seq<Input>, k: nat): Option<Context>
    requires k <= |ins| && k <= |pts|
  {
    if k == 0 then None
    else if pts[k - 1].node == ModelNode && ins[k - 1].Model? then Some(ins[k - 1].context)
    else LastContext(pts, ins, k - 1)
  }

  predicate Changes(pts: seq<Point>, ins: seq<Input>, k: nat, now: Context)
    requires k <= |ins| && k <= |pts|
  {
    LastContext(pts, ins, k).Some? && !Compatible(LastContext(pts, ins, k).value, now)
  }

  lemma SnapshotStep(cfg: Config, p: Point, input: Input, q: Point)
    requires cfg.contextual && Moves(cfg, p, input, q)
    ensures q.state.snapshot == if p.node == ModelNode then Some(input.context) else p.state.snapshot
    ensures q.state.segment == p.state.segment
      + if p.node == ModelNode && p.state.snapshot.Some? && !Compatible(p.state.snapshot.value, input.context) then 1
        else 0
    ensures q.state.segment <= 1 || q.state.segment == p.state.segment
  {
    if p.node == ModelNode {
      ModelStepCases(cfg, p.state, input);
      if p.state.snapshot.Some? { InvalidatedMeans(p.state.snapshot.value, input.context); }
    }
  }

  /** Model steps so far that saw a context not compatible with the one seen before. */
  function Restarts(pts: seq<Point>, ins: seq<Input>, k: nat): nat
    requires k <= |ins| && k <= |pts|
  {
    if k == 0 then 0
    else
      var changed := pts[k - 1].node == ModelNode && ins[k - 1].Model? && Changes(pts, ins, k - 1, ins[k - 1].context);
      Restarts(pts, ins, k - 1) + if changed then 1 else 0
  }

  lemma {:induction false} SnapshotIsLast(cfg: Config, messages: seq<Msg>, pts: seq<Point>, ins: seq<Input>, k: nat)
    requires IsRunFrom(cfg, messages, pts, ins) && k < |pts| && cfg.contextual
    ensures pts[k].state.snapshot == LastContext(pts, ins, k) && pts[k].state.segment == Restarts(pts, ins, k) <= 1
  {
    if k > 0 {
      SnapshotIsLast(cfg, messages, pts, ins, k - 1);
      RunStep(cfg, pts, ins, k - 1);
      SnapshotStep(cfg, pts[k - 1], ins[k - 1], pts[k]);
    }
  }

  /** The tape starts anew exactly when the context the model is about to see is not compatible with the one
      it saw last, and at most once in a run. */
  lemma RestartsExactly(cfg: Config, messages: seq<Msg>, pts: seq<Point>, ins: seq<Input>, k: nat)
    requires IsRunFrom(cfg, messages, pts, ins) && k < |pts| && cfg.contextual
    ensures pts[k].state.segment == Restarts(pts, ins, k) <= 1
  {
    SnapshotIsLast(cfg, messages, pts, ins, k);
  }

  // ---------------------------------------------------------------- where messages come from

  /** What the tape is told a call came to. */
  function Said(input: Input): string
    requires input.Answer? || (input.ToolReply? && !input.result.Refused?)
  {
    match input
    case Answer(text) => text
    case ToolReply(Returned(_, _, body)) => body
    case ToolReply(TimedOutTool) => "tool_deadline"
    case ToolReply(RaisedTool) => "tool_failure"
    case ToolReply(Unusable) => "tool_protocol"
  }

  /** The reply's calls, one by one. */
  predicate Calls(reply: Reply, calls: seq<Call>) {
    && reply.calls.Some? && |reply.calls.value| == |calls|
    && forall i :: 0 <= i < |calls| ==>
         reply.calls.value[i] == RawCall(Some(calls[i].id), Some(calls[i].name), calls[i].args)
  }

  /** Step i puts m on the tape: an assistant message as the model replied, or a tool message as the call
      that was being worked on came out. */
  predicate Says(p: Point, input: Input, m: Msg) {
    match m
    case Assistant(content, calls) =>
      && p.node == ModelNode && input.Model? && input.outcome.Replied?
      && input.outcome.reply.content == Some(content) && Calls(input.outcome.reply, calls)
    case Tool(id, body) =>
      && p.node in {ToolNode, ClarifyNode} && p.state.index < |p.state.pending| && CallOf(p).id == id
      && (input.Answer? || (input.ToolReply? && !input.result.Refused?)) && Said(input) == body
    case System(_) => p.node == ModelNode
    case User(_) => p.node == ModelNode
    case Given(_, _) => false
  }

  /** A message behind the initial ones is new or was there before. */
  ghost predicate Grown(p: Point, input: Input, q: Point) {
    && q.state.initialCount == p.state.initialCount <= |p.state.messages|
    && q.state.initialCount <= |q.state.messages|
    && q.state.messages[..q.state.initialCount] == p.state.messages[..q.state.initialCount]
    && forall j :: q.state.initialCount <= j < |q.state.messages| ==>
         || Says(p, input, q.state.messages[j])
         || (q.state.segment == p.state.segment && j < |p.state.messages| && q.state.messages[j] == p.state.messages[j])
  }

  lemma PreparedMessages(cfg: Config, p: Point, input: Input)
    requires p.node == ModelNode && input.Model? && p.state.initialCount <= |p.state.messages|
    requires Prepared(cfg, p.state, input.context, input.frame, input.fits).Ok?
    ensures var t := Prepared(cfg, p.state, input.context, input.frame, input.fits).value;
      Grown(p, input, p.(state := t))
  {
  }

  lemma AcceptedCalls(cfg: Config, missing: Option<Name>, frame: Frame, reply: Reply, calls: seq<Call>, content: string)
    requires Judge(cfg, missing, frame, reply) == Accepted(calls, content)
    ensures Calls(reply, calls) && reply.content == Some(content)
  {
    CheckedCallsParse(cfg, frame, {}, reply.calls.value);
  }

  lemma ModelStepGrows(cfg: Config, p: Point, input: Input, q: Point)
    requires p.node == ModelNode && Moves(cfg, p, input, q) && p.state.initialCount <= |p.state.messages|
    ensures Grown(p, input, q)
  {
    ModelStepCases(cfg, p.state, input);
    PreparedMessages(cfg, p, input);
    var t, reply := Prepared(cfg, p.state, input.context, input.frame, input.fits).value, input.outcome.reply;
    if q.state != Repaired(t, reply.usage) {
      var calls, content :|
        Judge(cfg, FirstMissing(t.required, t.completed), FrameOf(t), reply) == Accepted(calls, content)
        && q.state == Replying(t, calls, content, reply.usage);
      AcceptedCalls(cfg, FirstMissing(t.required, t.completed), FrameOf(t), reply, calls, content);
    }
  }

  /** Working on a call puts what it came to on the tape, under the id of the call. */
  lemma CallSpeaks(cfg: Config, p: Point, input: Input, q: Point)
    requires p.node in {ToolNode, ClarifyNode} && Moves(cfg, p, input, q)
    ensures (input.Answer? || (input.ToolReply? && !input.result.Refused?))
    ensures q.state.messages == p.state.messages + [Tool(CallOf(p).id, Said(input))]
    ensures q.state.initialCount == p.state.initialCount && q.state.segment == p.state.segment
  {
  }

  lemma CallStepGrows(cfg: Config, p: Point, input: Input, q: Point)
    requires p.node in {ToolNode, ClarifyNode} && Moves(cfg, p, input, q) && p.state.initialCount <= |p.state.messages|
    ensures Grown(p, input, q)
  {
    CallSpeaks(cfg, p, input, q);
    assert Says(p, input, Tool(CallOf(p).id, Said(input)));
  }

  lemma ReserveStepGrows(cfg: Config, p: Point, input: Input, q: Point)
    requires p.node in {ReserveModel, ReserveTool} && Moves(cfg, p, input, q)
      && p.state.initialCount <= |p.state.messages|
    ensures Grown(p, input, q)
  {
  }

  lemma StepGrows(cfg: Config, p: Point, input: Input, q: Point)
    requires Moves(cfg, p, input, q) && p.state.initialCount <= |p.state.messages|
    ensures Grown(p, input, q)
  {
    match p.node
    case ModelNode => ModelStepGrows(cfg, p, input, q);
    case ToolNode => CallStepGrows(cfg, p, input, q);
    case ClarifyNode => CallStepGrows(cfg, p, input, q);
    case _ => ReserveStepGrows(cfg, p, input, q);
  }

  /** Message m was said at a step since the context last changed. */
  ghost predicate SaidBefore(pts: seq<Point>, ins: seq<Input>, k: nat, m: Msg)
    requires k < |pts|
  {
    exists i: nat :: i < k && i < |ins| && pts[i + 1].state.segment == pts[k].state.segment && Says(pts[i], ins[i], m)
  }

  /** The initial messages stay in front for good; each message behind them was said by the model or by a
      call at a step of this run since the context last changed. */
  lemma {:induction false} MessagesFromSteps(cfg: Config, messages: seq<Msg>, pts: seq<Point>, ins: seq<Input>, k: nat)
    requires IsRunFrom(cfg, messages, pts, ins) && k < |pts|
    ensures messages <= pts[k].state.messages && pts[k].state.initialCount == |messages|
    ensures forall j :: |messages| <= j < |pts[k].state.messages| ==> SaidBefore(pts, ins, k, pts[k].state.messages[j])
  {
    if k > 0 {
      var p, q := pts[k - 1], pts[k];
      MessagesFromSteps(cfg, messages, pts, ins, k - 1);
      RunStep(cfg, pts, ins, k - 1);
      StepGrows(cfg, p, ins[k - 1], q);
      assert q.state.messages[..|messages|] == messages;
      forall j | |messages| <= j < |q.state.messages| ensures SaidBefore(pts, ins, k, q.state.messages[j]) {
        if !Says(p, ins[k - 1], q.state.messages[j]) {
          assert SaidBefore(pts, ins, k - 1, p.state.messages[j]);
          var i: nat :|
            i < k - 1 && pts[i + 1].state.segment == p.state.segment && Says(pts[i], ins[i], p.state.messages[j]);
          assert i < k;
        } else {
          assert k - 1 < k;
        }
      }
    }
  }

  /** What a step that leads from p to q adds to the tape: what a call came to, the reply that was accepted, or
      the notice that a reply has to be repaired. */
  ghost predicate Adds(p: Point, input: Input, q: Point, said: seq<Msg>) {
    if p.node in {ReserveModel, ReserveTool} then said == []
    else
      && |said| == 1 && Says(p, input, said[0])
      && if p.node != ModelNode then said[0].Tool?
         else if q.node == ReserveModel then said[0].System?
         else said[0].Assistant?
  }

  /** What a step writes behind: the tape so far, or where the context has changed the initial messages, with a
      note when something was completed. */
  ghost predicate Continues(messages: seq<Msg>, p: Point, q: Point, base: seq<Msg>) {
    if q.state.segment == p.state.segment then base == p.state.messages
    else if p.state.completed == [] then base == messages
    else |base| == |messages| + 1 && messages <= base && base[|messages|].User?
  }

  ghost predicate Written(messages: seq<Msg>, p: Point, input: Input, q: Point) {
    exists base, said ::
      Continues(messages, p, q, base) && Adds(p, input, q, said) && q.state.messages == base + said
  }

  lemma ModelStepWrites(cfg: Config, messages: seq<Msg>, p: Point, input: Input, q: Point)
    requires p.node == ModelNode && Moves(cfg, p, input, q)
    requires p.state.initialCount == |messages| && messages <= p.state.messages
    ensures Written(messages, p, input, q)
  {
    ModelStepCases(cfg, p.state, input);
    var t, reply := Prepared(cfg, p.state, input.context, input.frame, input.fits).value, input.outcome.reply;
    assert Take(p.state.messages, |messages|) == messages;
    assert Continues(messages, p, q, t.messages);
    if q.state == Repaired(t, reply.usage) {
      assert Adds(p, input, q, [System("invalid tool protocol")]);
    } else {
      var calls, content :|
        Judge(cfg, FirstMissing(t.required, t.completed), FrameOf(t), reply) == Accepted(calls, content)
        && q.state == Replying(t, calls, content, reply.usage);
      AcceptedCalls(cfg, FirstMissing(t.required, t.completed), FrameOf(t), reply, calls, content);
      assert Adds(p, input, q, [Assistant(content, calls)]);
    }
  }

  lemma CallWrites(cfg: Config, messages: seq<Msg>, p: Point, input: Input, q: Point)
    requires p.node in {ToolNode, ClarifyNode} && Moves(cfg, p, input, q)
    ensures Written(messages, p, input, q)
  {
    CallSpeaks(cfg, p, input, q);
    assert Adds(p, input, q, [Tool(CallOf(p).id, Said(input))]) && Continues(messages, p, q, p.state.messages);
  }

  lemma ReserveWrites(cfg: Config, messages: seq<Msg>, p: Point, input: Input, q: Point)
    requires p.node in {ReserveModel, ReserveTool} && Moves(cfg, p, input, q)
    ensures Written(messages, p, input, q)
  {
    assert q.state.messages == p.state.messages + [];
    assert Adds(p, input, q, []) && Continues(messages, p, q, p.state.messages);
  }

  /** Step by step nothing said is left out: each step of a run writes what it says, and that alone, behind the
      tape it has found. */
  lemma EachStepWrites(cfg: Config, messages: seq<Msg>, pts: seq<Point>, ins: seq<Input>, k: nat)
    requires IsRunFrom(cfg, messages, pts, ins) && k < |ins|
    ensures Written(messages, pts[k], ins[k], pts[k + 1])
  {
    var p, q := pts[k], pts[k + 1];
    MessagesFromSteps(cfg, messages, pts, ins, k);
    RunStep(cfg, pts, ins, k);
    match p.node
    case ModelNode => ModelStepWrites(cfg, messages, p, ins[k], q);
    case ToolNode => CallWrites(cfg, messages, p, ins[k], q);
    case ClarifyNode => CallWrites(cfg, messages, p, ins[k], q);
    case ReserveModel => ReserveWrites(cfg, messages, p, ins[k], q);
    case ReserveTool => ReserveWrites(cfg, messages, p, ins[k], q);
    case End =>
  }

  // ---------------------------------------------------------------- the final answer

  /** The model's last reply: no calls, and a text that says something. */
  predicate Concludes(p: Point, input: Input, content: string) {
    && p.node == ModelNode && input.Model? && input.outcome.Replied? && input.outcome.reply.calls == Some([])
    && input.outcome.reply.content == Some(content) && Speaks(content)
  }

  lemma ModelStepEnds(cfg: Config, p: Point, input: Input, q: Point)
    requires p.node == ModelNode && Moves(cfg, p, input, q)
    ensures q.node in {ReserveModel, ReserveTool, End} && (q.node == End ==> Concludes(p, input, q.state.content))
  {
    ModelStepCases(cfg, p.state, input);
    var t, reply := Prepared(cfg, p.state, input.context, input.frame, input.fits).value, input.outcome.reply;
    if q.state != Repaired(t, reply.usage) {
      AcceptedExactly(cfg, FirstMissing(t.required, t.completed), FrameOf(t), reply);
    }
  }

  lemma CallStepEnds(cfg: Config, p: Point, input: Input, q: Point)
    requires p.node in {ToolNode, ClarifyNode} && Moves(cfg, p, input, q) && p.state.required == cfg.required
    requires !p.state.evidenceUnavailable && !p.state.stopped
    ensures q.node == End <==> LosesRead(cfg, p, input) || (p.node == ClarifyNode && Stops(input.text))
    ensures LosesRead(cfg, p, input) ==> q.state.content == "required evidence unavailable"
    ensures p.node == ClarifyNode && Stops(input.text) ==> q.state.content == "stopped"
  {
  }

  /** A run ends with what the model last said, when it asked for nothing more; or with a fixed text, when a
      required read was lost or the user stopped. */
  lemma FinalAnswer(cfg: Config, messages: seq<Msg>, pts: seq<Point>, ins: seq<Input>, k: nat)
    requires IsRunFrom(cfg, messages, pts, ins) && k < |pts| && pts[k].node == End
    ensures k > 0
    ensures || Concludes(pts[k - 1], ins[k - 1], pts[k].state.content)
            || (LosesEvidence(cfg, pts, ins, k - 1) && pts[k].state.content == "required evidence unavailable")
            || (StopsAt(pts, ins, k - 1) && pts[k].state.content == "stopped")
  {
    if k > 0 {
      var p := pts[k - 1];
      RunStep(cfg, pts, ins, k - 1);
      RunInv(cfg, messages, pts, ins, k - 1);
      FlagsExactly(cfg, messages, pts, ins, k);
      if p.node == ModelNode {
        ModelStepEnds(cfg, p, ins[k - 1], pts[k]);
      } else if p.node in {ToolNode, ClarifyNode} {
        CallStepEnds(cfg, p, ins[k - 1], pts[k]);
        FlagStep(cfg, p, ins[k - 1], pts[k]);
      }
    }
  }

  // ---------------------------------------------------------------- when a step succeeds

  function Visits(pts: seq<Point>, node: Node, k: nat): nat
    requires k <= |pts|
  {
    if k == 0 then 0 else Visits(pts, node, k - 1) + if pts[k - 1].node == node then 1 else 0
  }

  /** Model and tool calls are counted as they are reserved. */
  lemma {:induction false} CallsCounted(cfg: Config, messages: seq<Msg>, pts: seq<Point>, ins: seq<Input>, k: nat)
    requires IsRunFrom(cfg, messages, pts, ins) && k < |pts|
    ensures pts[k].state.modelCalls == Visits(pts, ReserveModel, k)
    ensures pts[k].state.toolCalls == Visits(pts, ReserveTool, k)
  {
    if k > 0 {
      CallsCounted(cfg, messages, pts, ins, k - 1);
      RunStep(cfg, pts, ins, k - 1);
      if pts[k - 1].node == ModelNode { ModelStepKeeps(cfg, pts[k - 1].state, ins[k - 1], pts[k].state); }
    }
  }

  /** Reserving fails exactly when the deadline has passed or the budget is used up. */
  lemma ReserveSucceedsExactly(cfg: Config, messages: seq<Msg>, pts: seq<Point>, ins: seq<Input>, k: nat, expired: bool)
    requires IsRunFrom(cfg, messages, pts, ins) && k < |pts| && pts[k].node in {ReserveModel, ReserveTool}
    ensures Runnable(pts[k]) && Accepts(pts[k], Clock(expired))
    ensures var used := Visits(pts, pts[k].node, k);
      var allowed := if pts[k].node == ReserveModel then cfg.maxModels else cfg.maxTools;
      var result := Step(cfg, pts[k], Clock(expired));
      && used <= allowed
      && (result.Ok? <==> !expired && used < allowed)
      && (result.Err? ==>
            result.error == if expired then RunDeadline else if pts[k].node == ReserveModel then ModelBudget
              else ToolBudget)
      && (result.Ok? ==>
            result.value.node in if pts[k].node == ReserveModel then {ModelNode} else {ToolNode, ClarifyNode})
  {
    CallsCounted(cfg, messages, pts, ins, k);
    RunInv(cfg, messages, pts, ins, k);
  }

  /** A tool step fails exactly when the endpoint refuses the call; answering a question never fails. */
  lemma CallSucceedsExactly(cfg: Config, p: Point, input: Input)
    requires p.node in {ToolNode, ClarifyNode} && Runnable(p) && Accepts(p, input)
    ensures Step(cfg, p, input).Err? <==> input.ToolReply? && input.result.Refused?
    ensures Step(cfg, p, input).Err? ==> Step(cfg, p, input).error == ToolRefused
  {
  }

  // ---------------------------------------------------------------- when a model step succeeds

  /** The frame in force at a model step: built anew at the first one and when the context has changed. */
  function FrameInForce(cfg: Config, pts: seq<Point>, ins: seq<Input>, k: nat, context: Context, built: Frame): Frame
    requires k < |pts| && k <= |ins|
  {
    if cfg.contextual && (LastContext(pts, ins, k).None? || Changes(pts, ins, k, context)) then built
    else FrameOf(pts[k].state)
  }

  ghost predicate Framed(cfg: Config, p: Point) {
    cfg.contextual ==> (p.state.snapshot.Some? <==> p.state.frame.Some?)
  }

  lemma FramedStep(cfg: Config, p: Point, input: Input, q: Point)
    requires Framed(cfg, p) && Moves(cfg, p, input, q)
    ensures Framed(cfg, q)
  {
    if p.node == ModelNode { ModelStepCases(cfg, p.state, input); }
  }

  lemma {:induction false} AlwaysFramed(cfg: Config, messages: seq<Msg>, pts: seq<Point>, ins: seq<Input>, k: nat)
    requires IsRunFrom(cfg, messages, pts, ins) && k < |pts|
    ensures Framed(cfg, pts[k])
  {
    if k > 0 {
      AlwaysFramed(cfg, messages, pts, ins, k - 1);
      RunStep(cfg, pts, ins, k - 1);
      FramedStep(cfg, pts[k - 1], ins[k - 1], pts[k]);
    }
  }

  /** What has succeeded as far as a model step still counts it: reads do not survive a changed context. */
  ghost predicate StillDone(cfg: Config, pts: seq<Point>, ins: seq<Input>, k: nat, context: Context, n: Name)
    requires k < |pts| && k <= |ins|
  {
    Done(cfg, pts, ins, k, n) && (cfg.contextual && Changes(pts, ins, k, context) ==> n !in cfg.requiredReads)
  }

  /** The first listed tool that a model step has to ask for, if any. */
  ghost predicate AsksFor(cfg: Config, pts: seq<Point>, ins: seq<Input>, k: nat, context: Context,
                          missing: Option<Name>)
    requires k < |pts| && k <= |ins|
  {
    match missing
    case None => forall n :: n in cfg.required ==> StillDone(cfg, pts, ins, k, context, n)
    case Some(name) =>
      exists m: nat :: m < |cfg.required| && cfg.required[m] == name && !StillDone(cfg, pts, ins, k, context, name)
                       && forall j :: 0 <= j < m ==> StillDone(cfg, pts, ins, k, context, cfg.required[j])
  }

  /** The context is usable: it has not changed a second time, and it fits. */
  predicate Usable(cfg: Config, pts: seq<Point>, ins: seq<Input>, k: nat, context: Context, fits: bool)
    requires k < |pts| && k <= |ins|
  {
    cfg.contextual ==> fits && !(Changes(pts, ins, k, context) && Restarts(pts, ins, k) == 1)
  }

  function ContextFailure(pts: seq<Point>, ins: seq<Input>, k: nat, context: Context): Failure
    requires k < |pts| && k <= |ins|
  {
    if Changes(pts, ins, k, context) && Restarts(pts, ins, k) == 1 then ContextChanged else ContextOverflow
  }

  lemma PreparedExactly(cfg: Config, messages: seq<Msg>, pts: seq<Point>, ins: seq<Input>, k: nat, context: Context,
                        built: Frame, fits: bool)
    requires IsRunFrom(cfg, messages, pts, ins) && k < |pts|
    ensures var prepared := Prepared(cfg, pts[k].state, context, built, fits);
      && (prepared.Ok? <==> Usable(cfg, pts, ins, k, context, fits))
      && (prepared.Err? ==>
            prepared.error == ContextFailure(pts, ins, k, context))
      && (prepared.Ok? ==>
            && FrameOf(prepared.value) == FrameInForce(cfg, pts, ins, k, context, built)
            && prepared.value.required == cfg.required && prepared.value.repairs == pts[k].state.repairs
            && AsksFor(cfg, pts, ins, k, context, FirstMissing(cfg.required, prepared.value.completed)))
  {
    var s, prepared := pts[k].state, Prepared(cfg, pts[k].state, context, built, fits);
    RunInv(cfg, messages, pts, ins, k);
    AlwaysFramed(cfg, messages, pts, ins, k);
    if cfg.contextual { SnapshotIsLast(cfg, messages, pts, ins, k); }
    if s.snapshot.Some? { InvalidatedMeans(s.snapshot.value, context); }
    if prepared.Ok? {
      var completed := prepared.value.completed;
      forall n ensures n in completed <==> StillDone(cfg, pts, ins, k, context, n) {
        PreparedCompleted(cfg, s, context, built, fits, n);
        CompletedExactly(cfg, messages, pts, ins, k, n);
      }
      AsksForMissing(cfg, pts, ins, k, context, completed);
    }
  }

  lemma AsksForMissing(cfg: Config, pts: seq<Point>, ins: seq<Input>, k: nat, context: Context, completed: seq<Name>)
    requires k < |pts| && k <= |ins| && forall n :: n in completed <==> StillDone(cfg, pts, ins, k, context, n)
    ensures AsksFor(cfg, pts, ins, k, context, FirstMissing(cfg.required, completed))
  {
    NothingMissing(cfg.required, completed);
    if FirstMissing(cfg.required, completed).Some? {
      var m := MissingAt(cfg.required, completed);
    }
  }

  lemma AsksForOne(cfg: Config, pts: seq<Point>, ins: seq<Input>, k: nat, context: Context, a: Option<Name>,
                   b: Option<Name>)
    requires k < |pts| && k <= |ins| && AsksFor(cfg, pts, ins, k, context, a) && AsksFor(cfg, pts, ins, k, context, b)
    ensures a == b
  {
    if a.Some? && b.Some? {
      var m: nat :| m < |cfg.required| && cfg.required[m] == a.value
                    && forall j :: 0 <= j < m ==> StillDone(cfg, pts, ins, k, context, cfg.required[j]);
      var l: nat :| l < |cfg.required| && cfg.required[l] == b.value
                    && forall j :: 0 <= j < l ==> StillDone(cfg, pts, ins, k, context, cfg.required[j]);
    }
  }

  /** What the model's side of a step comes to when it is not a complete reply. */
  function Unanswered(outcome: ModelOutcome): Option<Failure> {
    match outcome
    case Inactive => Some(RunInactive)
    case OutOfTime => Some(RunDeadline)
    case TimedOut => Some(ModelDeadline)
    case Raised => Some(ModelFailure)
    case Replied(reply) => if reply.completed then None else Some(ModelIncomplete)
  }

  /** A model step succeeds exactly when the context is usable, the model replied in time and completely, and
      the reply is acceptable, or can be repaired and none has been repaired before. */
  lemma ModelSucceedsExactly(cfg: Config, messages: seq<Msg>, pts: seq<Point>, ins: seq<Input>, k: nat, input: Input,
                             missing: Option<Name>)
    requires IsRunFrom(cfg, messages, pts, ins) && k < |pts| && pts[k].node == ModelNode && input.Model?
    requires AsksFor(cfg, pts, ins, k, input.context, missing)
    ensures var frame := FrameInForce(cfg, pts, ins, k, input.context, input.frame);
      Step(cfg, pts[k], input).Ok? <==>
        && Usable(cfg, pts, ins, k, input.context, input.fits) && Unanswered(input.outcome).None?
        && (|| Acceptable(cfg, missing, frame, input.outcome.reply)
            || (Judge(cfg, missing, frame, input.outcome.reply).Repairable? && pts[k].state.repairs == 0))
    ensures !Usable(cfg, pts, ins, k, input.context, input.fits) ==>
      Step(cfg, pts[k], input) == Err(ContextFailure(pts, ins, k, input.context))
    ensures Usable(cfg, pts, ins, k, input.context, input.fits) && Unanswered(input.outcome).Some? ==>
      Step(cfg, pts[k], input) == Err(Unanswered(input.outcome).value)
  {
    PreparedExactly(cfg, messages, pts, ins, k, input.context, input.frame, input.fits);
    var prepared := Prepared(cfg, pts[k].state, input.context, input.frame, input.fits);
    if prepared.Ok? && Unanswered(input.outcome).None? {
      AsksForOne(cfg, pts, ins, k, input.context, missing, FirstMissing(cfg.required, prepared.value.completed));
      AcceptedExactly(cfg, missing, FrameOf(prepared.value), input.outcome.reply);
    }
  }

  /** A run repairs at most one reply. */
  lemma {:induction false} OneRepair(cfg: Config, messages: seq<Msg>, pts: seq<Point>, ins: seq<Input>, k: nat)
    requires IsRunFrom(cfg, messages, pts, ins) && k < |pts|
    ensures pts[k].state.repairs == Repairs(pts, ins, k) <= 1
  {
    if k > 0 {
      OneRepair(cfg, messages, pts, ins, k - 1);
      RunStep(cfg, pts, ins, k - 1);
      RepairStep(cfg, pts[k - 1], ins[k - 1], pts[k]);
    }
  }

  /** Model steps so far that led back to the model: the replies that were repaired. */
  function Repairs(pts: seq<Point>, ins: seq<Input>, k: nat): nat
    requires k < |pts|
  {
    if k == 0 then 0
    else Repairs(pts, ins, k - 1) + if pts[k - 1].node == ModelNode && pts[k].node == ReserveModel then 1 else 0
  }

  lemma RepairStep(cfg: Config, p: Point, input: Input, q: Point)
    requires Moves(cfg, p, input, q) && p.state.repairs <= 1
    ensures q.state.repairs == p.state.repairs + (if p.node == ModelNode && q.node == ReserveModel then 1 else 0) <= 1
  {
    if p.node == ModelNode {
      ModelStepCases(cfg, p.state, input);
      PreparedRepairs(cfg, p.state, input);
    }
  }

  lemma PreparedRepairs(cfg: Config, s: State, input: Input)
    requires input.Model? && Prepared(cfg, s, input.context, input.frame, input.fits).Ok?
    ensures Prepared(cfg, s, input.context, input.frame, input.fits).value.repairs == s.repairs
  {
  }
}
