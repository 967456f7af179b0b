/** What every uninterrupted execution of the agent graph keeps, for every sequence of model replies,
    tool results, user answers and context changes. */
module AgentGraphProofs {
  import opened Prelude
  import opened AgentGraph

  // ---------------------------------------------------------------- the message tape

  function Ids(calls: seq<Call>): seq<string> {
    Map((c: Call) => c.id, calls)
  }

  /** Reads a tape; the ids still to be answered, or None once a message breaks the protocol. */
  function Scan(tape: seq<Msg>): Option<seq<string>> {
    if tape == [] then Some([])
    else
      match Scan(tape[..|tape| - 1])
      case None => None
      case Some(open) =>
        match tape[|tape| - 1]
        case Assistant(_, calls) => if open == [] then Some(Ids(calls)) else None
        case Tool(id, _) => if open != [] && open[0] == id then Some(open[1..]) else None
        case _ => if open == [] then Some([]) else None
  }

  lemma ScanSnoc(tape: seq<Msg>, m: Msg)
    ensures Scan(tape + [m]) ==
            match Scan(tape)
            case None => None
            case Some(open) =>
              match m
              case Assistant(_, calls) => if open == [] then Some(Ids(calls)) else None
              case Tool(id, _) => if open != [] && open[0] == id then Some(open[1..]) else None
              case _ => if open == [] then Some([]) else None
  {
    assert (tape + [m])[..|tape|] == tape;
  }

  /** The message k places behind the assistant message at i replies to its k-th call. */
  ghost predicate Replies(tape: seq<Msg>, i: int, k: int) {
    && 0 <= i < |tape| && tape[i].Assistant? && 0 <= k < |tape[i].calls| && i + 1 + k < |tape|
    && tape[i + 1 + k].Tool? && tape[i + 1 + k].callId == tape[i].calls[k].id
  }

  /** As far as the tape goes, the calls of the assistant message at i are answered right behind it,
      one reply each, in call order. */
  ghost predicate AnsweredInOrder(tape: seq<Msg>, i: int)
    requires 0 <= i < |tape| && tape[i].Assistant?
  {
    forall k :: 0 <= k < |tape[i].calls| && i + 1 + k < |tape| ==> Replies(tape, i, k)
  }

  ghost predicate Belongs(tape: seq<Msg>, j: int)
    requires 0 <= j < |tape|
  {
    exists i :: 0 <= i < j && tape[i].Assistant? && j <= i + |tape[i].calls|
  }

  /** Every assistant call has exactly one reply, in order, and every reply answers a call. */
  ghost predicate Disciplined(tape: seq<Msg>) {
    && (forall i :: 0 <= i < |tape| && tape[i].Assistant?
          ==> i + |tape[i].calls| < |tape| && AnsweredInOrder(tape, i))
    && (forall j :: 0 <= j < |tape| && tape[j].Tool? ==> Belongs(tape, j))
  }

  /** The block at i is still waiting for replies when the tape ends: the open ids are its last ones. */
  lemma {:induction false} OpenBlock(tape: seq<Msg>, i: int)
    requires Scan(tape).Some? && 0 <= i < |tape| && tape[i].Assistant? && |tape| <= i + |tape[i].calls|
    ensures Scan(tape).value == Ids(tape[i].calls)[|tape| - i - 1..]
  {
    var n := |tape| - 1;
    if i < n {
      assert tape[..n][i] == tape[i];
      OpenBlock(tape[..n], i);
    }
  }

  lemma {:induction false} OpenMeansBlock(tape: seq<Msg>) returns (i: int)
    requires Scan(tape).Some? && Scan(tape).value != []
    ensures 0 <= i < |tape| && tape[i].Assistant? && |tape| <= i + |tape[i].calls|
  {
    var n := |tape| - 1;
    if tape[n].Assistant? {
      i := n;
    } else {
      i := OpenMeansBlock(tape[..n]);
      OpenBlock(tape[..n], i);
    }
  }

  lemma {:induction false} ReplyAt(tape: seq<Msg>, i: int, k: nat)
    requires Scan(tape).Some? && 0 <= i < |tape| && tape[i].Assistant?
    requires k < |tape[i].calls| && i + 1 + k < |tape|
    ensures Replies(tape, i, k)
  {
    var n := |tape| - 1;
    var front := tape[..n];
    assert front[i] == tape[i];
    if i + 1 + k < n {
      ReplyAt(front, i, k);
    } else {
      OpenBlock(front, i);
      assert Scan(front).value[0] == tape[i].calls[k].id;
    }
  }

  lemma {:induction false} ReplyBelongs(tape: seq<Msg>, j: int)
    requires Scan(tape).Some? && 0 <= j < |tape| && tape[j].Tool?
    ensures Belongs(tape, j)
  {
    var n := |tape| - 1;
    var front := tape[..n];
    if j < n {
      ReplyBelongs(front, j);
      var i :| 0 <= i < j && front[i].Assistant? && j <= i + |front[i].calls|;
      assert tape[i] == front[i];
    } else {
      var i := OpenMeansBlock(front);
      assert tape[i] == front[i];
    }
  }

  lemma BlockAnswered(tape: seq<Msg>, i: int)
    requires Scan(tape) == Some([]) && 0 <= i < |tape| && tape[i].Assistant?
    ensures i + |tape[i].calls| < |tape|
    ensures AnsweredInOrder(tape, i)
  {
    if |tape| <= i + |tape[i].calls| {
      OpenBlock(tape, i);
      assert false;
    }
    forall k | 0 <= k < |tape[i].calls| && i + 1 + k < |tape| ensures Replies(tape, i, k) {
      ReplyAt(tape, i, k);
    }
  }

  lemma ScanMeansDisciplined(tape: seq<Msg>)
    requires Scan(tape) == Some([])
    ensures Disciplined(tape)
  {
    forall i | 0 <= i < |tape| && tape[i].Assistant?
      ensures i + |tape[i].calls| < |tape| && AnsweredInOrder(tape, i) {
      BlockAnswered(tape, i);
    }
    forall j | 0 <= j < |tape| && tape[j].Tool? ensures Belongs(tape, j) {
      ReplyBelongs(tape, j);
    }
  }

  function Tape(s: State): seq<Msg>
    requires s.initialCount <= |s.messages|
  {
    s.messages[s.initialCount..]
  }

  ghost predicate TapeInv(p: Point) {
    var s := p.state;
    && s.initialCount <= |s.messages|
    && s.index <= |s.pending|
    && Scan(Tape(s)) == Some(Ids(s.pending[s.index..]))
    && (p.node in {ReserveModel, ModelNode} ==> s.index == |s.pending|)
    && Runnable(p)
  }

  lemma TapeGrows(s: State, m: Msg)
    requires s.initialCount <= |s.messages|
    ensures (s.messages + [m])[s.initialCount..] == Tape(s) + [m]
  {
  }

  lemma ToolUpdateTape(s: State, success: bool, references: seq<Ref>, body: string)
    requires s.initialCount <= |s.messages| && s.index < |s.pending|
    requires Scan(Tape(s)) == Some(Ids(s.pending[s.index..]))
    ensures var t := ToolUpdate(s, success, references, body);
      t.initialCount <= |t.messages| && Scan(Tape(t)) == Some(Ids(t.pending[t.index..]))
  {
    var m := Tool(CallId(s), body);
    TapeGrows(s, m);
    ScanSnoc(Tape(s), m);
    assert Ids(s.pending[s.index..])[1..] == Ids(s.pending[s.index + 1..]);
  }

  function CallId(s: State): string
    requires s.index < |s.pending|
  {
    s.pending[s.index].id
  }

  lemma PreparedTape(cfg: Config, s: State, context: Context, built: Frame, fits: bool)
    requires s.initialCount <= |s.messages| && Scan(Tape(s)) == Some([])
    requires Prepared(cfg, s, context, built, fits).Ok?
    ensures var t := Prepared(cfg, s, context, built, fits).value;
      t.initialCount <= |t.messages| && Scan(Tape(t)) == Some([])
  {
    var t := Restarted(cfg, s);
    var initial := s.messages[..s.initialCount];
    assert t.messages == initial + (if s.completed == [] then [] else [User("already completed")]);
    assert t.messages[s.initialCount..] == if s.completed == [] then [] else [User("already completed")];
    ScanSnoc([], User("already completed"));
    assert [] + [User("already completed")] == [User("already completed")];
  }

  lemma RepairedTape(t: State, usage: Option<Usage>)
    requires t.initialCount <= |t.messages| && Scan(Tape(t)) == Some([])
    ensures TapeInv(Point(AfterModel(Repaired(t, usage)), Repaired(t, usage)))
  {
    TapeGrows(t, System("invalid tool protocol"));
    ScanSnoc(Tape(t), System("invalid tool protocol"));
  }

  lemma ReplyingTape(t: State, calls: seq<Call>, content: string, usage: Option<Usage>)
    requires t.initialCount <= |t.messages| && Scan(Tape(t)) == Some([])
    ensures TapeInv(Point(AfterModel(Replying(t, calls, content, usage)), Replying(t, calls, content, usage)))
  {
    TapeGrows(t, Assistant(content, calls));
    ScanSnoc(Tape(t), Assistant(content, calls));
    assert calls[0..] == calls;
  }

  /** A model step that succeeds prepared the state, then either asked for a repair or took the reply. */
  ghost predicate Concludes(cfg: Config, t: State, reply: Reply, u: State) {
    || (u == Repaired(t, reply.usage) && t.repairs == 0)
    || (exists calls, content ::
          Judge(cfg, FirstMissing(t.required, t.completed), FrameOf(t), reply) == Accepted(calls, content)
          && u == Replying(t, calls, content, reply.usage))
  }

  lemma ModelStepCases(cfg: Config, s: State, input: Input)
    requires input.Model? && ModelStep(cfg, s, input).Ok?
    ensures Prepared(cfg, s, input.context, input.frame, input.fits).Ok? && input.outcome.Replied?
    ensures Concludes(cfg, Prepared(cfg, s, input.context, input.frame, input.fits).value, input.outcome.reply,
                      ModelStep(cfg, s, input).value)
  {
  }

  lemma ModelStepTape(cfg: Config, p: Point, input: Input, q: Point)
    requires TapeInv(p) && p.node == ModelNode && Moves(cfg, p, input, q)
    ensures TapeInv(q)
  {
    assert p.state.pending[p.state.index..] == [];
    ModelStepCases(cfg, p.state, input);
    PreparedTape(cfg, p.state, input.context, input.frame, input.fits);
    var t, reply := Prepared(cfg, p.state, input.context, input.frame, input.fits).value, input.outcome.reply;
    if q.state == Repaired(t, reply.usage) {
      RepairedTape(t, reply.usage);
    } else {
      var calls, content :|
        Judge(cfg, FirstMissing(t.required, t.completed), FrameOf(t), reply) == Accepted(calls, content)
        && q.state == Replying(t, calls, content, reply.usage);
      ReplyingTape(t, calls, content, reply.usage);
    }
  }

  lemma ToolStepTape(cfg: Config, p: Point, input: Input, q: Point)
    requires TapeInv(p) && p.node in {ToolNode, ClarifyNode} && Moves(cfg, p, input, q)
    ensures TapeInv(q)
  {
    if p.node == ToolNode {
      var (success, references, body) := Settled(input.result);
      ToolUpdateTape(p.state, success, references, body);
    } else {
      ToolUpdateTape(p.state, true, [], input.text);
    }
  }

  lemma ReserveStepTape(cfg: Config, p: Point, input: Input, q: Point)
    requires TapeInv(p) && p.node in {ReserveModel, ReserveTool} && Moves(cfg, p, input, q)
    ensures TapeInv(q)
  {
  }

  lemma TapeStep(cfg: Config, p: Point, input: Input, q: Point)
    requires TapeInv(p) && Moves(cfg, p, input, q)
    ensures TapeInv(q)
  {
    match p.node
    case ModelNode => ModelStepTape(cfg, p, input, q);
    case ToolNode => ToolStepTape(cfg, p, input, q);
    case ClarifyNode => ToolStepTape(cfg, p, input, q);
    case _ => ReserveStepTape(cfg, p, input, q);
  }

  // ---------------------------------------------------------------- required tools

  lemma {:induction false} NothingMissing(required: seq<Name>, completed: seq<Name>)
    ensures FirstMissing(required, completed).None? <==> forall n :: n in required ==> n in completed
  {
    if required != [] {
      NothingMissing(required[1..], completed);
      assert required == [required[0]] + required[1..];
    }
  }

  lemma {:induction false} MissingAt(required: seq<Name>, completed: seq<Name>) returns (k: nat)
    requires FirstMissing(required, completed).Some?
    ensures k < |required| && required[k] == FirstMissing(required, completed).value && required[k] !in completed
    ensures forall i :: 0 <= i < k ==> required[i] in completed
  {
    if required[0] !in completed {
      k := 0;
    } else {
      k := MissingAt(required[1..], completed);
      assert forall i :: 0 < i < k + 1 ==> required[i] == required[1..][i - 1];
      k := k + 1;
    }
  }

  lemma {:induction false} MissingIs(required: seq<Name>, completed: seq<Name>, k: nat)
    requires k < |required| && required[k] !in completed && forall i :: 0 <= i < k ==> required[i] in completed
    ensures FirstMissing(required, completed) == Some(required[k])
  {
    if k > 0 {
      assert required[1..][k - 1] == required[k];
      MissingIs(required[1..], completed, k - 1);
    }
  }

  /** What a call of the current batch may be: a question, the first outstanding required tool, a tool
      that already succeeded, or anything once nothing required is outstanding. */
  ghost predicate MayRun(required: seq<Name>, completed: seq<Name>, name: Name) {
    || name == CLARIFY
    || name in completed
    || FirstMissing(required, completed) in {None, Some(name)}
  }

  ghost predicate FirstAt(required: seq<Name>, l: int) {
    0 <= l < |required| && forall j :: 0 <= j < l ==> required[j] != required[l]
  }

  /** The required tools that have succeeded did so in the listed order: before the first success of
      one, everything listed before it had succeeded. Only the question may be asked ahead of its turn. */
  ghost predicate InListedOrder(required: seq<Name>, completed: seq<Name>) {
    forall i, l :: 0 <= i < |completed| && FirstAt(required, l) && completed[i] == required[l] && required[l] != CLARIFY
      ==> forall k :: 0 <= k < l ==> required[k] in completed[..i]
  }

  ghost predicate RequiredInv(cfg: Config, p: Point) {
    var s := p.state;
    && s.required == cfg.required
    && (forall i :: 0 <= i < |s.pending| ==> s.pending[i].name in cfg.names)
    && (forall i :: 0 <= i < |s.pending| ==> MayRun(s.required, s.completed, s.pending[i].name))
    && (s.segment == 0 ==> InListedOrder(s.required, s.completed))
    && (p.node != End ==> !s.evidenceUnavailable && !s.stopped)
    && (p.node == End && !s.evidenceUnavailable && !s.stopped ==> FirstMissing(s.required, s.completed).None?)
    && (p.node == ToolNode ==> s.index < |s.pending| && CallOf(p).name != CLARIFY)
    && (p.node == ClarifyNode ==> s.index < |s.pending| && CallOf(p).name == CLARIFY)
  }

  lemma CompletingKeepsMayRun(required: seq<Name>, completed: seq<Name>, done: Name, name: Name)
    requires MayRun(required, completed, done) && MayRun(required, completed, name)
    ensures MayRun(required, completed + [done], name)
  {
    NothingMissing(required, completed);
    NothingMissing(required, completed + [done]);
    if FirstMissing(required, completed).Some? && FirstMissing(required, completed).value != done {
      var k := MissingAt(required, completed);
      MissingIs(required, completed + [done], k);
    }
  }

  lemma CompletingKeepsOrder(required: seq<Name>, completed: seq<Name>, done: Name)
    requires InListedOrder(required, completed) && MayRun(required, completed, done) && done !in completed
    ensures InListedOrder(required, completed + [done])
  {
    NothingMissing(required, completed);
    var after := completed + [done];
    forall i, l, k | 0 <= i < |after| && FirstAt(required, l) && after[i] == required[l] && required[l] != CLARIFY
      && 0 <= k < l
      ensures required[k] in after[..i] {
      if i < |completed| {
        assert after[..i] == completed[..i];
      } else {
        assert after[..i] == completed;
        if FirstMissing(required, completed).Some? {
          var m := MissingAt(required, completed);
          assert required[l] in required;
        }
      }
    }
  }

  lemma {:induction false} NamesCheckMeans(cfg: Config, offered: set<Name>, calls: seq<RawCall>, i: nat)
    requires NamesCheck(cfg, offered, calls) == Pass && i < |calls| && WellFormed(calls[i])
    ensures calls[i].name.value in cfg.names && calls[i].name.value in offered
  {
    if i > 0 {
      assert calls[1..][i - 1] == calls[i];
      NamesCheckMeans(cfg, offered, calls[1..], i - 1);
    }
  }

  lemma AcceptedMeans(cfg: Config, missing: Option<Name>, frame: Frame, reply: Reply, calls: seq<Call>, content: string)
    requires Judge(cfg, missing, frame, reply) == Accepted(calls, content)
    ensures |calls| <= cfg.maxTools
    ensures calls == [] ==> missing.None?
    ensures forall i :: 0 <= i < |calls| ==> calls[i].name in cfg.names && calls[i].name in Offered(cfg, missing)
  {
    var raw := reply.calls.value;
    CheckedCallsParse(cfg, frame, {}, raw);
    forall i | 0 <= i < |calls| ensures calls[i].name in cfg.names && calls[i].name in Offered(cfg, missing) {
      NamesCheckMeans(cfg, Offered(cfg, missing), raw, i);
    }
  }

  lemma ReplyingRequired(cfg: Config, t: State, reply: Reply, calls: seq<Call>, content: string)
    requires Judge(cfg, FirstMissing(t.required, t.completed), FrameOf(t), reply) == Accepted(calls, content)
    requires t.required == cfg.required && !t.evidenceUnavailable && !t.stopped
    requires t.segment == 0 ==> InListedOrder(t.required, t.completed)
    ensures var u := Replying(t, calls, content, reply.usage); RequiredInv(cfg, Point(AfterModel(u), u))
  {
    AcceptedMeans(cfg, FirstMissing(t.required, t.completed), FrameOf(t), reply, calls, content);
  }

  lemma PreparedKeeps(cfg: Config, s: State, context: Context, built: Frame, fits: bool)
    requires Prepared(cfg, s, context, built, fits).Ok?
    ensures var t := Prepared(cfg, s, context, built, fits).value;
      && t.required == s.required && t.evidenceUnavailable == s.evidenceUnavailable && t.stopped == s.stopped
      && t.pending == s.pending && t.usage == s.usage && t.references == s.references
      && t.modelCalls == s.modelCalls && t.toolCalls == s.toolCalls && t.segment >= s.segment
      && (t.segment == 0 ==> t.completed == s.completed)
  {
  }

  lemma ModelStepRequired(cfg: Config, p: Point, input: Input, q: Point)
    requires RequiredInv(cfg, p) && p.node == ModelNode && Moves(cfg, p, input, q)
    ensures RequiredInv(cfg, q)
  {
    ModelStepCases(cfg, p.state, input);
    PreparedKeeps(cfg, p.state, input.context, input.frame, input.fits);
    var t, reply := Prepared(cfg, p.state, input.context, input.frame, input.fits).value, input.outcome.reply;
    if q.state != Repaired(t, reply.usage) {
      var calls, content :|
        Judge(cfg, FirstMissing(t.required, t.completed), FrameOf(t), reply) == Accepted(calls, content)
        && q.state == Replying(t, calls, content, reply.usage);
      ReplyingRequired(cfg, t, reply, calls, content);
    }
  }

  lemma ToolUpdateRequired(cfg: Config, p: Point, success: bool, references: seq<Ref>, body: string)
    requires RequiredInv(cfg, p) && p.node in {ToolNode, ClarifyNode} && p.state.index < |p.state.pending|
    ensures var u := ToolUpdate(p.state, success, references, body);
      && (forall i :: 0 <= i < |u.pending| ==> MayRun(u.required, u.completed, u.pending[i].name))
      && (u.segment == 0 ==> InListedOrder(u.required, u.completed))
  {
    var s := p.state;
    var done := s.pending[s.index].name;
    if success && done !in s.completed {
      forall i | 0 <= i < |s.pending| ensures MayRun(s.required, s.completed + [done], s.pending[i].name) {
        CompletingKeepsMayRun(s.required, s.completed, done, s.pending[i].name);
      }
      if s.segment == 0 {
        CompletingKeepsOrder(s.required, s.completed, done);
      }
    }
  }

  lemma ToolStepRequired(cfg: Config, p: Point, input: Input, q: Point)
    requires RequiredInv(cfg, p) && p.node in {ToolNode, ClarifyNode}
    requires Moves(cfg, p, input, q)
    ensures RequiredInv(cfg, q)
  {
    if p.node == ToolNode {
      var (success, references, body) := Settled(input.result);
      ToolUpdateRequired(cfg, p, success, references, body);
    } else {
      ToolUpdateRequired(cfg, p, true, [], input.text);
    }
  }

  lemma RequiredStep(cfg: Config, p: Point, input: Input, q: Point)
    requires RequiredInv(cfg, p) && Moves(cfg, p, input, q)
    ensures RequiredInv(cfg, q)
  {
    match p.node
    case ModelNode => ModelStepRequired(cfg, p, input, q);
    case ToolNode => ToolStepRequired(cfg, p, input, q);
    case ClarifyNode => ToolStepRequired(cfg, p, input, q);
    case _ =>
  }

  // ---------------------------------------------------------------- budgets

  ghost predicate BudgetInv(cfg: Config, p: Point) {
    && p.state.modelCalls <= cfg.maxModels && p.state.toolCalls <= cfg.maxTools
    && |p.state.pending| <= cfg.maxTools
  }

  /** Node steps the budgets still allow. */
  function Fuel(cfg: Config, p: Point): int {
    2 * (cfg.maxModels - p.state.modelCalls) + 2 * (cfg.maxTools - p.state.toolCalls)
    + if p.node in {ModelNode, ToolNode, ClarifyNode} then 1 else 0
  }

  lemma ModelStepKeeps(cfg: Config, s: State, input: Input, u: State)
    requires input.Model? && ModelStep(cfg, s, input) == Ok(u)
    ensures u.modelCalls == s.modelCalls && u.toolCalls == s.toolCalls && |u.pending| <= cfg.maxTools
    ensures u.references == s.references
    ensures input.outcome.Replied? && u.usage == AddUsage(s.usage, input.outcome.reply.usage)
  {
    ModelStepCases(cfg, s, input);
    PreparedKeeps(cfg, s, input.context, input.frame, input.fits);
    var t, reply := Prepared(cfg, s, input.context, input.frame, input.fits).value, input.outcome.reply;
    if u != Repaired(t, reply.usage) {
      var calls, content :|
        Judge(cfg, FirstMissing(t.required, t.completed), FrameOf(t), reply) == Accepted(calls, content)
        && u == Replying(t, calls, content, reply.usage);
      AcceptedMeans(cfg, FirstMissing(t.required, t.completed), FrameOf(t), reply, calls, content);
    }
  }

  /** Working off a call spends no budget. */
  lemma ToolSpends(cfg: Config, p: Point, input: Input, q: Point)
    requires p.node in {ToolNode, ClarifyNode} && Moves(cfg, p, input, q)
    ensures q.state.modelCalls == p.state.modelCalls && q.state.toolCalls == p.state.toolCalls
    ensures q.state.pending == p.state.pending && q.node in {End, ReserveTool, ReserveModel}
  {
  }

  lemma ReserveSpends(cfg: Config, p: Point, input: Input, q: Point)
    requires p.node in {ReserveModel, ReserveTool} && BudgetInv(cfg, p) && Moves(cfg, p, input, q)
    ensures BudgetInv(cfg, q) && Fuel(cfg, q) == Fuel(cfg, p) - 1
  {
  }

  lemma BudgetStep(cfg: Config, p: Point, input: Input, q: Point)
    requires BudgetInv(cfg, p) && Moves(cfg, p, input, q)
    ensures BudgetInv(cfg, q) && Fuel(cfg, q) == Fuel(cfg, p) - 1
  {
    match p.node
    case ModelNode => ModelStepKeeps(cfg, p.state, input, q.state);
    case ToolNode => ToolSpends(cfg, p, input, q);
    case ClarifyNode => ToolSpends(cfg, p, input, q);
    case _ => ReserveSpends(cfg, p, input, q);
  }

  // ---------------------------------------------------------------- runs

  ghost predicate Inv(cfg: Config, p: Point) {
    TapeInv(p) && RequiredInv(cfg, p) && BudgetInv(cfg, p)
  }

  ghost predicate IsRunFrom(cfg: Config, messages: seq<Msg>, pts: seq<Point>, ins: seq<Input>) {
    IsRun(cfg, pts, ins) && pts[0] == Start(cfg, messages)
  }

  lemma RunStep(cfg: Config, pts: seq<Point>, ins: seq<Input>, i: nat)
    requires IsRun(cfg, pts, ins) && i < |ins|
    ensures Moves(cfg, pts[i], ins[i], pts[i + 1])
  {
    assert MovesAt(cfg, pts, ins, i);
  }

  lemma StartInv(cfg: Config, messages: seq<Msg>)
    ensures Inv(cfg, Start(cfg, messages))
  {
    var s := Start(cfg, messages).state;
    assert Tape(s) == [] && s.pending[s.index..] == [];
  }

  lemma {:induction false} RunInv(cfg: Config, messages: seq<Msg>, pts: seq<Point>, ins: seq<Input>, k: nat)
    requires IsRunFrom(cfg, messages, pts, ins) && k < |pts|
    ensures Inv(cfg, pts[k]) && Fuel(cfg, pts[k]) == Fuel(cfg, pts[0]) - k
  {
    if k == 0 {
      StartInv(cfg, messages);
    } else {
      RunInv(cfg, messages, pts, ins, k - 1);
      RunStep(cfg, pts, ins, k - 1);
      TapeStep(cfg, pts[k - 1], ins[k - 1], pts[k]);
      RequiredStep(cfg, pts[k - 1], ins[k - 1], pts[k]);
      BudgetStep(cfg, pts[k - 1], ins[k - 1], pts[k]);
    }
  }

  /** Whenever the model is about to be called, the tape since the initial messages is disciplined. */
  lemma TapeDiscipline(cfg: Config, messages: seq<Msg>, pts: seq<Point>, ins: seq<Input>, k: nat)
    requires IsRunFrom(cfg, messages, pts, ins) && k < |pts| && pts[k].node in {ReserveModel, ModelNode}
    ensures pts[k].state.initialCount <= |pts[k].state.messages|
    ensures Disciplined(pts[k].state.messages[pts[k].state.initialCount..])
  {
    RunInv(cfg, messages, pts, ins, k);
    var s := pts[k].state;
    assert s.pending[s.index..] == [];
    ScanMeansDisciplined(Tape(s));
  }

  // A batch that asks twice for the first of two required tools.
  const TWO_TOOLS := Config({"a", "b", CLARIFY}, 8, 12, ["a", "b"], {}, false)
  const ASK_A := RawCall(Some("1"), Some("a"), Fields("{}", None, None))
  const ASK_A_AGAIN := RawCall(Some("2"), Some("a"), Fields("{}", None, None))
  const TWICE := Reply(true, None, Some([ASK_A, ASK_A_AGAIN]), Some(""))

  lemma TwiceAccepted()
    ensures Judge(TWO_TOOLS, Some("a"), Frame({}, false, []), TWICE)
            == Accepted([Call("1", "a", Fields("{}", None, None)), Call("2", "a", Fields("{}", None, None))], "")
  {
    var calls, frame := [ASK_A, ASK_A_AGAIN], Frame({}, false, []);
    assert |"a"| == 1 && |CLARIFY| == 7 && |REVISE_PLAN| == 11;
    var offered := Offered(TWO_TOOLS, Some("a"));
    assert calls[1..] == [ASK_A_AGAIN] && calls[1..][1..] == [];
    assert NamesCheck(TWO_TOOLS, offered, calls[1..][1..]) == Pass;
    assert NamesCheck(TWO_TOOLS, offered, calls[1..]) == Pass;
    assert "2" != "1" by { assert "2"[0] != "1"[0]; }
    assert CallsCheck(TWO_TOOLS, frame, {"1"} + {"2"}, calls[1..][1..]) == Pass;
    assert CallsCheck(TWO_TOOLS, frame, {} + {"1"}, calls[1..]) == Pass;
    CheckedCallsParse(TWO_TOOLS, frame, {}, calls);
    assert Parsed(calls) == [Parse(ASK_A), Parse(ASK_A_AGAIN)];
  }

  const TICK := Clock(false)
  const ASKED := Model(Plain(""), Frame({}, false, []), true, Replied(TWICE))
  const DONE := ToolReply(Returned(true, [], "done"))
  const P0 := Start(TWO_TOOLS, [])
  const P1 := Point(ModelNode, P0.state.(modelCalls := 1))
  const P2 := Point(ReserveTool,
    Replying(P1.state, [Call("1", "a", Fields("{}", None, None)), Call("2", "a", Fields("{}", None, None))], "", None))
  const P3 := Point(ToolNode, P2.state.(toolCalls := 1))

  lemma FirstHalf()
    ensures Moves(TWO_TOOLS, P0, TICK, P1) && Moves(TWO_TOOLS, P1, ASKED, P2) && Moves(TWO_TOOLS, P2, TICK, P3)
  {
    assert |"a"| == 1 && |CLARIFY| == 7;
    TwiceAccepted();
    assert FirstMissing(["a", "b"], []) == Some("a");
  }

  lemma SecondHalf() returns (p4: Point, p5: Point)
    ensures Moves(TWO_TOOLS, P3, DONE, p4) && Moves(TWO_TOOLS, p4, TICK, p5)
    ensures p5.node == ToolNode && p5.state.completed == ["a"] && p5.state.index < |p5.state.pending|
      && CallOf(p5).name == "a"
  {
    assert |"a"| == 1 && |CLARIFY| == 7;
    p4 := Point(ReserveTool, ToolUpdate(P3.state, true, [], "done"));
    p5 := Point(ToolNode, p4.state.(toolCalls := 2));
  }

  lemma WholeWalk(cfg: Config, p0: Point, p1: Point, p2: Point, p3: Point, p4: Point, p5: Point, i0: Input, i1: Input,
                  i2: Input, i3: Input, i4: Input)
    requires Moves(cfg, p0, i0, p1) && Moves(cfg, p1, i1, p2) && Moves(cfg, p2, i2, p3) && Moves(cfg, p3, i3, p4)
      && Moves(cfg, p4, i4, p5)
    ensures IsRun(cfg, [p0, p1, p2, p3, p4, p5], [i0, i1, i2, i3, i4])
  {
  }

  /** The run stands before a tool that is not the outstanding required one. */
  ghost predicate RunsAnotherTool(cfg: Config, pts: seq<Point>, ins: seq<Input>) {
    && IsRunFrom(cfg, [], pts, ins) && pts[|ins|].node == ToolNode
    && pts[|ins|].state.index < |pts[|ins|].state.pending|
    && FirstMissing(cfg.required, pts[|ins|].state.completed).Some?
    && CallOf(pts[|ins|]).name != FirstMissing(cfg.required, pts[|ins|].state.completed).value
  }

  /** "Only the outstanding tool runs" does not hold as it stands: here the first tool runs a second time
      while the second one is outstanding. */
  lemma RepeatRunsWhileOutstanding()
    ensures exists pts: seq<Point>, ins: seq<Input> :: RunsAnotherTool(TWO_TOOLS, pts, ins)
  {
    FirstHalf();
    var p4, p5 := SecondHalf();
    var pts, ins := [P0, P1, P2, P3, p4, p5], [TICK, ASKED, TICK, DONE, TICK];
    WholeWalk(TWO_TOOLS, P0, P1, P2, P3, p4, p5, TICK, ASKED, TICK, DONE, TICK);
    assert "a"[0] != "b"[0] && ["a", "b"][1..] == ["b"];
    assert FirstMissing(["a", "b"], ["a"]) == Some("b");
    assert pts[|ins|] == p5 && RunsAnotherTool(TWO_TOOLS, pts, ins);
  }

  /** One execution takes at most 2 * (max_models + max_tools) successful node steps: 40 with the
      defaults, and a failing one can only come last. */
  lemma Bounded(cfg: Config, messages: seq<Msg>, pts: seq<Point>, ins: seq<Input>)
    requires IsRunFrom(cfg, messages, pts, ins)
    ensures |ins| <= 2 * (cfg.maxModels + cfg.maxTools)
  {
    RunInv(cfg, messages, pts, ins, |ins|);
  }

  // ---------------------------------------------------------------- invocation ids

  /** q comes after the execution of p's call: a later model call, or a later call of the same batch. */
  ghost predicate After(p: Point, q: Point) {
    || q.state.modelCalls > p.state.modelCalls
    || (&& q.state.modelCalls == p.state.modelCalls && q.node != ModelNode
        && q.state.pending == p.state.pending && q.state.index > p.state.index)
  }

  lemma AfterStep(cfg: Config, p: Point, q: Point, input: Input, r: Point)
    requires Moves(cfg, q, input, r)
    requires After(p, q) || (p == q && p.node in {ToolNode, ClarifyNode})
    ensures After(p, r)
  {
    StepAdvances(cfg, q, input, r);
  }

  lemma {:induction false} InvocationsAdvance(cfg: Config, pts: seq<Point>, ins: seq<Input>, i: nat, j: nat)
    requires IsRun(cfg, pts, ins) && i < j < |pts| && pts[i].node in {ToolNode, ClarifyNode}
    ensures After(pts[i], pts[j])
    decreases j
  {
    if i < j - 1 {
      InvocationsAdvance(cfg, pts, ins, i, j - 1);
    }
    RunStep(cfg, pts, ins, j - 1);
    AfterStep(cfg, pts[i], pts[j - 1], ins[j - 1], pts[j - 1 + 1]);
  }

  lemma StepAdvances(cfg: Config, p: Point, input: Input, q: Point)
    requires Moves(cfg, p, input, q)
    ensures q.state.modelCalls >= p.state.modelCalls
    ensures p.node == ReserveModel ==> q.state.modelCalls > p.state.modelCalls
    ensures p.node in {ReserveTool, ToolNode, ClarifyNode} ==>
      q.node != ModelNode && q.state.pending == p.state.pending && q.state.index >= p.state.index
    ensures p.node in {ToolNode, ClarifyNode} ==> q.state.index > p.state.index
  {
    if p.node == ModelNode {
      ModelStepKeeps(cfg, p.state, input, q.state);
    }
  }

  /** Two tool executions of one run never carry the same invocation id. */
  lemma InvocationsDistinct(cfg: Config, pts: seq<Point>, ins: seq<Input>, i: nat, j: nat)
    requires IsRun(cfg, pts, ins) && i < |pts| && j < |pts|
    requires pts[i].node == ToolNode && pts[j].node == ToolNode && InvocationOf(pts[i]) == InvocationOf(pts[j])
    ensures i == j
  {
    if i < j { InvocationsAdvance(cfg, pts, ins, i, j); }
    if j < i { InvocationsAdvance(cfg, pts, ins, j, i); }
  }

  // ---------------------------------------------------------------- usage and references

  /** The usage reports of the model replies among the inputs, in order. */
  function Reports(ins: seq<Input>): seq<Option<Usage>> {
    if ins == [] then []
    else
      var last := ins[|ins| - 1];
      Reports(ins[..|ins| - 1])
      + if last.Model? && last.outcome.Replied? then [last.outcome.reply.usage] else []
  }

  function SumOf(reports: seq<Option<Usage>>, pick: Usage -> nat): nat {
    if reports == [] then 0
    else
      var last := reports[|reports| - 1];
      SumOf(reports[..|reports| - 1], pick) + if last.Some? then pick(last.value) else 0
  }

  /** Nothing reported yet; unknown forever once one report is; otherwise the totals. */
  function Total(reports: seq<Option<Usage>>): Tally {
    if reports == [] then Unset
    else if None in reports then Unknown
    else Known(Usage(SumOf(reports, (u: Usage) => u.input), SumOf(reports, (u: Usage) => u.output),
                     SumOf(reports, (u: Usage) => u.total)))
  }

  lemma SumSnoc(reports: seq<Option<Usage>>, usage: Option<Usage>, pick: Usage -> nat)
    ensures SumOf(reports + [usage], pick) == SumOf(reports, pick) + if usage.Some? then pick(usage.value) else 0
  {
    assert (reports + [usage])[..|reports|] == reports;
  }

  lemma TotalSnoc(reports: seq<Option<Usage>>, usage: Option<Usage>)
    ensures Total(reports + [usage]) == AddUsage(Total(reports), usage)
  {
    assert None in reports + [usage] <==> None in reports || usage.None?;
    SumSnoc(reports, usage, (u: Usage) => u.input);
    SumSnoc(reports, usage, (u: Usage) => u.output);
    SumSnoc(reports, usage, (u: Usage) => u.total);
  }

  lemma ReportsSnoc(ins: seq<Input>, k: nat)
    requires k < |ins|
    ensures Reports(ins[..k + 1]) == Reports(ins[..k])
              + if ins[k].Model? && ins[k].outcome.Replied? then [ins[k].outcome.reply.usage] else []
  {
    assert ins[..k + 1][..k] == ins[..k];
  }

  lemma StepUsage(cfg: Config, p: Point, input: Input, q: Point)
    requires Moves(cfg, p, input, q)
    ensures q.state.usage == if p.node == ModelNode then AddUsage(p.state.usage, input.outcome.reply.usage)
      else p.state.usage
    ensures p.node == ModelNode ==> input.outcome.Replied?
  {
    if p.node == ModelNode {
      ModelStepKeeps(cfg, p.state, input, q.state);
    }
  }

  ghost predicate UsageAt(p: Point, ins: seq<Input>, k: nat)
    requires k <= |ins|
  {
    p.state.usage == Total(Reports(ins[..k]))
  }

  lemma UsageStep(cfg: Config, p: Point, q: Point, ins: seq<Input>, k: nat)
    requires k < |ins| && Moves(cfg, p, ins[k], q) && UsageAt(p, ins, k)
    ensures UsageAt(q, ins, k + 1)
  {
    var before := Reports(ins[..k]);
    StepUsage(cfg, p, ins[k], q);
    ReportsSnoc(ins, k);
    if p.node == ModelNode {
      TotalSnoc(before, ins[k].outcome.reply.usage);
    } else {
      assert !ins[k].Model? && before + [] == before;
    }
  }

  /** The usage a run reports is the sum over all model replies, or unknown once any reply is. */
  lemma {:induction false} UsageIsTotal(cfg: Config, messages: seq<Msg>, pts: seq<Point>, ins: seq<Input>, k: nat)
    requires IsRunFrom(cfg, messages, pts, ins) && k <= |ins|
    ensures UsageAt(pts[k], ins, k)
  {
    if k > 0 {
      UsageIsTotal(cfg, messages, pts, ins, k - 1);
      RunStep(cfg, pts, ins, k - 1);
      UsageStep(cfg, pts[k - 1], pts[k - 1 + 1], ins, k - 1);
    }
  }

  lemma {:induction false} MergedFrom(known: seq<Ref>, more: seq<Ref>, r: Ref)
    ensures r in Merged(known, more) <==> r in known || r in more
  {
    if more != [] {
      assert more == more[..|more| - 1] + [more[|more| - 1]];
      MergedFrom(known, more[..|more| - 1], r);
    }
  }

  ghost predicate Grounds(input: Input, r: Ref) {
    input.ToolReply? && input.result.Returned? && input.result.success && r in input.result.references
  }

  /** Only successful tool results establish references. */
  lemma {:induction false} ReferencesGrounded(cfg: Config, messages: seq<Msg>, pts: seq<Point>, ins: seq<Input>,
                                              k: nat, r: Ref)
    requires IsRunFrom(cfg, messages, pts, ins) && k <= |ins|
    ensures r in pts[k].state.references <==> exists i :: 0 <= i < k && Grounds(ins[i], r)
  {
    if k > 0 {
      ReferencesGrounded(cfg, messages, pts, ins, k - 1, r);
      RunStep(cfg, pts, ins, k - 1);
      StepReferences(cfg, pts[k - 1], ins[k - 1], pts[k], r);
    }
  }

  lemma StepReferences(cfg: Config, p: Point, input: Input, q: Point, r: Ref)
    requires Moves(cfg, p, input, q)
    ensures r in q.state.references <==> r in p.state.references || Grounds(input, r)
  {
    match p.node
    case ModelNode => ModelStepKeeps(cfg, p.state, input, q.state);
    case ToolNode => MergedFrom(p.state.references, Settled(input.result).1, r);
    case ClarifyNode => MergedFrom(p.state.references, [], r);
    case _ =>
  }
}
