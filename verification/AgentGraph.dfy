/** The bounded agent loop: five graph nodes over one persisted state, and the routing between them.
    Clocks, the model, the tools and the context loader are inputs of a step. */
module AgentGraph {
  import opened Prelude

  type Name = string

  const CLARIFY: Name := "clarify"
  const REVISE_PLAN: Name := "revise_plan"

  // ---------------------------------------------------------------- model replies

  /** The arguments text of a call: not a JSON object, or one whose relevant fields are read. */
  datatype Arguments = Malformed | Fields(text: string, question: Option<string>, maxPurchaseQty: Option<int>)

  /** One entry of a reply's tool_calls; None is an absent or non-string field. */
  datatype RawCall = NotACall | RawCall(id: Option<string>, name: Option<string>, args: Arguments)

  datatype Call = Call(id: string, name: Name, args: Arguments)

  datatype Usage = Usage(input: nat, output: nat, total: nat)

  /** calls: None when tool_calls is not a list; content: None when it is neither empty nor a string;
      usage: None when absent or partial. */
  datatype Reply = Reply(completed: bool, usage: Option<Usage>, calls: Option<seq<RawCall>>, content: Option<string>)

  /** State.usage: not yet reported, a running sum, or unknown. */
  datatype Tally = Unset | Known(usage: Usage) | Unknown

  // ---------------------------------------------------------------- context

  datatype Context = Plain(text: string) | Structured(instructions: string, data: string, sources: map<string, string>)

  datatype Limit = Limit(oneRun: bool, budget: bool, quantity: bool, upper: bool, value: Option<int>)

  datatype Frame = Frame(denied: set<Name>, unresolved: bool, limits: seq<Limit>)

  // ---------------------------------------------------------------- state

  type Ref = string

  datatype Msg =
    | Given(role: string, text: string)
    | System(text: string)
    | User(text: string)
    | Assistant(content: string, calls: seq<Call>)
    | Tool(callId: string, body: string)

  datatype State = State(
    messages: seq<Msg>,
    references: seq<Ref>,
    modelCalls: nat,
    toolCalls: nat,
    pending: seq<Call>,
    index: nat,
    content: string,
    usage: Tally,
    completed: seq<Name>,
    required: seq<Name>,
    repairs: nat,
    repairRequested: bool,
    evidenceUnavailable: bool,
    stopped: bool,
    initialCount: nat,
    snapshot: Option<Context>,
    segment: nat,
    frame: Option<Frame>)

  datatype Config = Config(
    names: set<Name>,
    maxModels: nat,
    maxTools: nat,
    required: seq<Name>,
    requiredReads: set<Name>,
    contextual: bool)

  datatype Node = ReserveModel | ModelNode | ReserveTool | ToolNode | ClarifyNode | End

  /** What a checkpoint holds: the state and the node to run next. */
  datatype Point = Point(node: Node, state: State)

  datatype Failure =
    | RunDeadline | ModelBudget | ToolBudget | ContextChanged | ContextOverflow | RunInactive
    | ModelDeadline | ModelFailure | ModelIncomplete | UnknownTool | ToolNotOffered | ReadOnlyIntent
    | LimitUnresolved | LimitNotSupported | LimitConflict | RequiredToolNotCompleted | ModelProtocol | ToolRefused

  datatype ModelOutcome = TimedOut | Raised | OutOfTime | Inactive | Replied(reply: Reply)

  datatype ToolOutcome =
    | Returned(success: bool, references: seq<Ref>, body: string)
    | Unusable | TimedOutTool | RaisedTool | Refused

  datatype Input =
    | Clock(expired: bool)
    | Model(context: Context, frame: Frame, fits: bool, outcome: ModelOutcome)
    | ToolReply(result: ToolOutcome)
    | Answer(text: string)

  function Start(cfg: Config, messages: seq<Msg>): Point {
    Point(ReserveModel,
          State(messages, [], 0, 0, [], 0, "", Unset, [], cfg.required,
                0, false, false, false, |messages|, None, 0, None))
  }

  // ---------------------------------------------------------------- judging a reply

  const WHITESPACE: set<char> :=
    {' ', '\t', '\n', '\r', '\U{000B}', '\U{000C}', '\U{001C}', '\U{001D}', '\U{001E}', '\U{001F}', '\U{0085}',
     '\U{00A0}', '\U{1680}', '\U{2000}', '\U{2001}', '\U{2002}', '\U{2003}', '\U{2004}', '\U{2005}', '\U{2006}',
     '\U{2007}', '\U{2008}', '\U{2009}', '\U{200A}', '\U{2028}', '\U{2029}', '\U{202F}', '\U{205F}', '\U{3000}'}

  predicate Blank(s: string) {
    forall i :: 0 <= i < |s| ==> s[i] in WHITESPACE
  }

  datatype Check = Pass | Protocol | Fail(code: Failure)

  datatype Verdict = Accepted(calls: seq<Call>, content: string) | Repairable | Rejected(code: Failure)

  /** Unauthorized names are rejected before any other defect is considered. */
  function NameCheck(cfg: Config, offered: set<Name>, c: RawCall): Check {
    if c.RawCall? && c.name.Some? && c.name.value !in cfg.names then Fail(UnknownTool)
    else if c.RawCall? && c.name.Some? && c.name.value !in offered then Fail(ToolNotOffered)
    else Pass
  }

  function NamesCheck(cfg: Config, offered: set<Name>, calls: seq<RawCall>): (r: Check)
    ensures !r.Protocol?
  {
    if calls == [] then Pass
    else
      var first := NameCheck(cfg, offered, calls[0]);
      if first.Pass? then NamesCheck(cfg, offered, calls[1..]) else first
  }

  function LimitsCheck(limits: seq<Limit>, args: Arguments): Check
    requires args.Fields?
  {
    if limits == [] then Pass
    else
      var l := limits[0];
      if l.oneRun && (l.budget || !l.upper) then Fail(LimitNotSupported)
      else if l.oneRun && l.quantity && args.maxPurchaseQty != l.value then Fail(LimitConflict)
      else LimitsCheck(limits[1..], args)
  }

  function CallCheck(cfg: Config, frame: Frame, ids: set<string>, c: RawCall): Check {
    if c.NotACall? || c.id.None? || c.id.value in ids || c.name.None? then Protocol
    else if c.name.value !in cfg.names then Fail(UnknownTool)
    else if c.args.Malformed? then Protocol
    else if cfg.contextual && c.name.value in frame.denied then Fail(ReadOnlyIntent)
    else if cfg.contextual && c.name.value == REVISE_PLAN && frame.unresolved then Fail(LimitUnresolved)
    else
      var limited := if cfg.contextual && c.name.value == REVISE_PLAN then LimitsCheck(frame.limits, c.args) else Pass;
      if limited != Pass then limited
      else if c.name.value == CLARIFY && (c.args.question.None? || Blank(c.args.question.value)) then Protocol
      else Pass
  }

  function CallsCheck(cfg: Config, frame: Frame, ids: set<string>, calls: seq<RawCall>): Check
    decreases calls
  {
    if calls == [] then Pass
    else
      var first := CallCheck(cfg, frame, ids, calls[0]);
      if first.Pass? then CallsCheck(cfg, frame, ids + {calls[0].id.value}, calls[1..]) else first
  }

  predicate WellFormed(c: RawCall) {
    c.RawCall? && c.id.Some? && c.name.Some? && c.args.Fields?
  }

  function Parse(c: RawCall): Call
    requires WellFormed(c)
  {
    Call(c.id.value, c.name.value, c.args)
  }

  function Parsed(calls: seq<RawCall>): (r: seq<Call>)
    requires forall i :: 0 <= i < |calls| ==> WellFormed(calls[i])
    ensures |r| == |calls|
    ensures forall i :: 0 <= i < |calls| ==> r[i] == Parse(calls[i])
  {
    if calls == [] then [] else [Parse(calls[0])] + Parsed(calls[1..])
  }

  lemma {:induction false} CheckedCallsParse(cfg: Config, frame: Frame, ids: set<string>, calls: seq<RawCall>)
    requires CallsCheck(cfg, frame, ids, calls) == Pass
    ensures forall i :: 0 <= i < |calls| ==> WellFormed(calls[i])
    decreases calls
  {
    if calls != [] {
      CheckedCallsParse(cfg, frame, ids + {calls[0].id.value}, calls[1..]);
      assert forall i :: 0 < i < |calls| ==> calls[i] == calls[1..][i - 1];
    }
  }

  function Offered(cfg: Config, missing: Option<Name>): set<Name> {
    if missing.Some? then cfg.names * {missing.value, CLARIFY} else cfg.names
  }

  function Judge(cfg: Config, missing: Option<Name>, frame: Frame, reply: Reply): Verdict {
    if reply.calls.None? || |reply.calls.value| > cfg.maxTools then Repairable
    else
      var calls := reply.calls.value;
      var named := NamesCheck(cfg, Offered(cfg, missing), calls);
      if named.Fail? then Rejected(named.code)
      else
        var checked := CallsCheck(cfg, frame, {}, calls);
        if checked.Fail? then Rejected(checked.code)
        else if checked.Protocol? then Repairable
        else if missing.Some? && calls == [] then Rejected(RequiredToolNotCompleted)
        else if reply.content.None? || (calls == [] && Blank(reply.content.value)) then Repairable
        else
          CheckedCallsParse(cfg, frame, {}, calls);
          Accepted(Parsed(calls), reply.content.value)
  }

  // ---------------------------------------------------------------- nodes

  function FirstMissing(required: seq<Name>, completed: seq<Name>): Option<Name> {
    if required == [] then None
    else if required[0] !in completed then Some(required[0])
    else FirstMissing(required[1..], completed)
  }

  predicate Invalidated(previous: Context, current: Context) {
    if previous.Structured? && current.Structured? then
      || previous.instructions != current.instructions
      || previous.data != current.data
      || exists key | key in previous.sources ::
         key !in current.sources || current.sources[key] != previous.sources[key]
    else previous != current
  }

  function Take<A>(s: seq<A>, n: nat): seq<A> {
    if n <= |s| then s[..n] else s
  }

  /** A context that changed under the run: drop the tape back to the initial messages once. */
  function Restarted(cfg: Config, s: State): State {
    var note := if s.completed == [] then [] else [User("already completed")];
    s.(messages := Take(s.messages, s.initialCount) + note,
       completed := Filter((n: Name) => n !in cfg.requiredReads, s.completed),
       segment := s.segment + 1,
       frame := None)
  }

  function Prepared(cfg: Config, s: State, context: Context, built: Frame, fits: bool): Result<State, Failure> {
    if !cfg.contextual then Ok(s)
    else
      var changed := s.snapshot.Some? && Invalidated(s.snapshot.value, context);
      if changed && s.segment >= 1 then Err(ContextChanged)
      else
        var t := if changed then Restarted(cfg, s) else s;
        if !fits then Err(ContextOverflow)
        else Ok(t.(snapshot := Some(context), frame := if t.frame.None? then Some(built) else t.frame))
  }

  function AddUsage(t: Tally, usage: Option<Usage>): Tally {
    if usage.None? || t.Unknown? then Unknown
    else
      var before := if t.Unset? then Usage(0, 0, 0) else t.usage;
      var now := usage.value;
      Known(Usage(before.input + now.input, before.output + now.output, before.total + now.total))
  }

  function Repaired(s: State, usage: Option<Usage>): State {
    s.(messages := s.messages + [System("invalid tool protocol")], pending := [], index := 0,
       repairRequested := true, repairs := 1, usage := AddUsage(s.usage, usage))
  }

  function Replying(s: State, calls: seq<Call>, content: string, usage: Option<Usage>): State {
    s.(messages := s.messages + [Assistant(content, calls)], pending := calls, index := 0, content := content,
       usage := AddUsage(s.usage, usage), repairRequested := false)
  }

  function FrameOf(s: State): Frame {
    if s.frame.Some? then s.frame.value else Frame({}, false, [])
  }

  function Concluded(cfg: Config, t: State, reply: Reply): Result<State, Failure> {
    if !reply.completed then Err(ModelIncomplete)
    else
      match Judge(cfg, FirstMissing(t.required, t.completed), FrameOf(t), reply)
      case Rejected(code) => Err(code)
      case Repairable => if t.repairs >= 1 then Err(ModelProtocol) else Ok(Repaired(t, reply.usage))
      case Accepted(calls, content) => Ok(Replying(t, calls, content, reply.usage))
  }

  function ModelStep(cfg: Config, s: State, input: Input): Result<State, Failure>
    requires input.Model?
  {
    match Prepared(cfg, s, input.context, input.frame, input.fits)
    case Err(code) => Err(code)
    case Ok(t) =>
      match input.outcome
      case Inactive => Err(RunInactive)
      case OutOfTime => Err(RunDeadline)
      case TimedOut => Err(ModelDeadline)
      case Raised => Err(ModelFailure)
      case Replied(reply) => Concluded(cfg, t, reply)
  }

  function Merged(known: seq<Ref>, more: seq<Ref>): seq<Ref> {
    if more == [] then known
    else
      var front := Merged(known, more[..|more| - 1]);
      if more[|more| - 1] in front then front else front + [more[|more| - 1]]
  }

  /** tool_update: append the reply, and only on success record the tool and its references. */
  function ToolUpdate(s: State, success: bool, references: seq<Ref>, body: string): State
    requires s.index < |s.pending|
  {
    var call := s.pending[s.index];
    s.(messages := s.messages + [Tool(call.id, body)],
       index := s.index + 1,
       completed := if success && call.name !in s.completed then s.completed + [call.name] else s.completed,
       references := if success then Merged(s.references, references) else s.references)
  }

  /** What a tool call comes to: timeouts, exceptions and malformed results are unsuccessful replies. */
  function Settled(outcome: ToolOutcome): (bool, seq<Ref>, string)
    requires !outcome.Refused?
  {
    match outcome
    case Returned(success, references, body) => (success, references, body)
    case TimedOutTool => (false, [], "tool_deadline")
    case RaisedTool => (false, [], "tool_failure")
    case Unusable => (false, [], "tool_protocol")
  }

  function ToolStep(cfg: Config, s: State, outcome: ToolOutcome): Result<State, Failure>
    requires s.index < |s.pending|
  {
    if outcome.Refused? then Err(ToolRefused)
    else
      var name := s.pending[s.index].name;
      var (success, references, body) := Settled(outcome);
      var t := ToolUpdate(s, success, references, body);
      Ok(if name in cfg.requiredReads && name in s.required && name !in t.completed
         then t.(evidenceUnavailable := true, content := "required evidence unavailable")
         else t)
  }

  const STOP_WORDS: set<string> := {"取消", "停止", "算了", "不用了", "cancel", "stop"}
  const STOP_PUNCTUATION: set<char> := {'。', '.', '!', '！'}

  function StripLeft(s: string, drop: set<char>): string {
    if s != [] && s[0] in drop then StripLeft(s[1..], drop) else s
  }

  function StripRight(s: string, drop: set<char>): string {
    if s != [] && s[|s| - 1] in drop then StripRight(s[..|s| - 1], drop) else s
  }

  function Lower(s: string): string {
    Map((c: char) => if 'A' <= c <= 'Z' then (c - 'A') + 'a' else c, s)
  }

  predicate Stops(answer: string) {
    var bare := StripRight(StripLeft(answer, WHITESPACE), WHITESPACE);
    Lower(StripRight(StripLeft(bare, STOP_PUNCTUATION), STOP_PUNCTUATION)) in STOP_WORDS
  }

  function ClarifyStep(s: State, answer: string): State
    requires s.index < |s.pending|
  {
    var t := ToolUpdate(s, true, [], answer);
    if Stops(answer) then t.(stopped := true, content := "stopped") else t
  }

  // ---------------------------------------------------------------- routing

  function AfterModel(s: State): Node {
    if s.repairRequested then ReserveModel else if s.pending != [] then ReserveTool else End
  }

  function AfterReserveTool(s: State): Node
    requires s.index < |s.pending|
  {
    if s.pending[s.index].name == CLARIFY then ClarifyNode else ToolNode
  }

  function AfterTool(s: State): Node {
    if s.evidenceUnavailable || s.stopped then End
    else if s.index < |s.pending| then ReserveTool
    else ReserveModel
  }

  /** A tool-side node has a call to work on. */
  predicate Runnable(p: Point) {
    p.node in {ReserveTool, ToolNode, ClarifyNode} ==> p.state.index < |p.state.pending|
  }

  predicate Accepts(p: Point, input: Input) {
    match p.node
    case ReserveModel => input.Clock?
    case ModelNode => input.Model?
    case ReserveTool => input.Clock?
    case ToolNode => input.ToolReply?
    case ClarifyNode => input.Answer?
    case End => false
  }

  function Step(cfg: Config, p: Point, input: Input): Result<Point, Failure>
    requires Runnable(p) && Accepts(p, input)
  {
    var s := p.state;
    match p.node
    case ReserveModel =>
      if input.expired then Err(RunDeadline)
      else if s.modelCalls >= cfg.maxModels then Err(ModelBudget)
      else Ok(Point(ModelNode, s.(modelCalls := s.modelCalls + 1)))
    case ModelNode =>
      (match ModelStep(cfg, s, input)
       case Err(code) => Err(code)
       case Ok(t) => Ok(Point(AfterModel(t), t)))
    case ReserveTool =>
      if input.expired then Err(RunDeadline)
      else if s.toolCalls >= cfg.maxTools then Err(ToolBudget)
      else
        var t := s.(toolCalls := s.toolCalls + 1);
        Ok(Point(AfterReserveTool(t), t))
    case ToolNode =>
      (match ToolStep(cfg, s, input.result)
       case Err(code) => Err(code)
       case Ok(t) => Ok(Point(AfterTool(t), t)))
    case ClarifyNode =>
      var t := ClarifyStep(s, input.text);
      Ok(Point(AfterTool(t), t))
  }

  ghost predicate Moves(cfg: Config, p: Point, input: Input, q: Point) {
    Runnable(p) && Accepts(p, input) && Step(cfg, p, input) == Ok(q)
  }

  ghost predicate MovesAt(cfg: Config, pts: seq<Point>, ins: seq<Input>, i: nat) {
    i < |ins| && i + 1 < |pts| && Moves(cfg, pts[i], ins[i], pts[i + 1])
  }

  /** An uninterrupted execution: every point follows from the one before it. */
  ghost predicate IsRun(cfg: Config, pts: seq<Point>, ins: seq<Input>) {
    && |pts| == |ins| + 1
    && forall i {:trigger MovesAt(cfg, pts, ins, i)} :: 0 <= i < |ins| ==> MovesAt(cfg, pts, ins, i)
  }

  /** Invocation id of the call a tool node executes: f"{run_id}:{model_calls}:{index}". */
  datatype InvId = InvId(modelCalls: nat, index: nat)

  function InvocationOf(p: Point): InvId {
    InvId(p.state.modelCalls, p.state.index)
  }

  function CallOf(p: Point): Call
    requires p.state.index < |p.state.pending|
  {
    p.state.pending[p.state.index]
  }
}
