/** What the record of a run rests on: which tools count as completed, when required evidence counts as
    lost, when the run counts as stopped, and so what an end of the run means. */
module AgentOutcomes {
  import opened Prelude
  import opened AgentGraph
  import opened AgentGraphProofs

  /** The call the node works on succeeds: an answered question, or a tool that returned success. */
  predicate Succeeds(p: Point, input: Input) {
    p.node in {ToolNode, ClarifyNode}
      && (input.Answer? || (input.ToolReply? && input.result.Returned? && input.result.success))
  }

  ghost predicate SuccessAt(pts: seq<Point>, ins: seq<Input>, i: nat, n: Name) {
    && i < |ins| && i < |pts| && Succeeds(pts[i], ins[i])
    && pts[i].state.index < |pts[i].state.pending| && CallOf(pts[i]).name == n
  }

  /** Before point k tool n has succeeded; a required read must have done so since the context last changed. */
  ghost predicate Done(cfg: Config, pts: seq<Point>, ins: seq<Input>, k: nat, n: Name)
    requires k < |pts|
  {
    exists i: nat :: i < k && SuccessAt(pts, ins, i, n)
                     && (n in cfg.requiredReads ==> pts[i].state.segment == pts[k].state.segment)
  }

  // ---------------------------------------------------------------- one step

  lemma {:induction false} FilterKeeps(cfg: Config, names: seq<Name>, n: Name)
    ensures n in Filter((m: Name) => m !in cfg.requiredReads, names) <==> n in names && n !in cfg.requiredReads
  {
    FilterMember((m: Name) => m !in cfg.requiredReads, names, n);
  }

  lemma PreparedCompleted(cfg: Config, s: State, context: Context, built: Frame, fits: bool, n: Name)
    requires Prepared(cfg, s, context, built, fits).Ok?
    ensures var t := Prepared(cfg, s, context, built, fits).value;
      && t.segment >= s.segment
      && (n in t.completed <==> n in s.completed && (n in cfg.requiredReads ==> t.segment == s.segment))
  {
    FilterKeeps(cfg, s.completed, n);
  }

  lemma ModelStepCompleted(cfg: Config, p: Point, input: Input, q: Point, n: Name)
    requires p.node == ModelNode && Moves(cfg, p, input, q)
    ensures q.state.segment >= p.state.segment
    ensures n in q.state.completed <==>
      n in p.state.completed && (n in cfg.requiredReads ==> q.state.segment == p.state.segment)
  {
    ModelStepCases(cfg, p.state, input);
    PreparedCompleted(cfg, p.state, input.context, input.frame, input.fits, n);
  }

  lemma StepCompletes(cfg: Config, p: Point, input: Input, q: Point, n: Name)
    requires Moves(cfg, p, input, q)
    ensures q.state.segment >= p.state.segment && (p.node != ModelNode ==> q.state.segment == p.state.segment)
    ensures n in q.state.completed <==>
      || (n in p.state.completed && (n in cfg.requiredReads ==> q.state.segment == p.state.segment))
      || (Succeeds(p, input) && CallOf(p).name == n)
  {
    if p.node == ModelNode { ModelStepCompleted(cfg, p, input, q, n); }
  }

  // ---------------------------------------------------------------- completed tools

  lemma {:induction false} SegmentsRise(cfg: Config, pts: seq<Point>, ins: seq<Input>, i: nat, k: nat)
    requires IsRun(cfg, pts, ins) && i <= k < |pts|
    ensures pts[i].state.segment <= pts[k].state.segment
  {
    if i < k {
      SegmentsRise(cfg, pts, ins, i, k - 1);
      RunStep(cfg, pts, ins, k - 1);
      StepCompletes(cfg, pts[k - 1], ins[k - 1], pts[k], "");
    }
  }

  lemma DoneStep(cfg: Config, pts: seq<Point>, ins: seq<Input>, k: nat, n: Name)
    requires IsRun(cfg, pts, ins) && k + 1 < |pts|
    ensures Done(cfg, pts, ins, k + 1, n) <==>
      || (Done(cfg, pts, ins, k, n) && (n in cfg.requiredReads ==> pts[k + 1].state.segment == pts[k].state.segment))
      || SuccessAt(pts, ins, k, n)
  {
    RunStep(cfg, pts, ins, k);
    StepCompletes(cfg, pts[k], ins[k], pts[k + 1], n);
    if Done(cfg, pts, ins, k + 1, n) {
      var i: nat :| i < k + 1 && SuccessAt(pts, ins, i, n)
                    && (n in cfg.requiredReads ==> pts[i].state.segment == pts[k + 1].state.segment);
      if i < k { SegmentsRise(cfg, pts, ins, i, k); }
    }
    if Done(cfg, pts, ins, k, n) && (n in cfg.requiredReads ==> pts[k + 1].state.segment == pts[k].state.segment) {
      var i: nat :| i < k && SuccessAt(pts, ins, i, n)
                    && (n in cfg.requiredReads ==> pts[i].state.segment == pts[k].state.segment);
      assert i < k + 1;
    }
  }

  /** At every point of every run the completed tools are exactly those that have succeeded, a required read
      since the context last changed. */
  lemma {:induction false} CompletedExactly(cfg: Config, messages: seq<Msg>, pts: seq<Point>, ins: seq<Input>, k: nat,
                                            n: Name)
    requires IsRunFrom(cfg, messages, pts, ins) && k < |pts|
    ensures n in pts[k].state.completed <==> Done(cfg, pts, ins, k, n)
  {
    if k > 0 {
      CompletedExactly(cfg, messages, pts, ins, k - 1, n);
      RunStep(cfg, pts, ins, k - 1);
      StepCompletes(cfg, pts[k - 1], ins[k - 1], pts[k], n);
      DoneStep(cfg, pts, ins, k - 1, n);
    }
  }

  // ---------------------------------------------------------------- why a run ends early

  /** A required read is called, does not succeed, and has not succeeded since the context last changed. */
  ghost predicate LosesEvidence(cfg: Config, pts: seq<Point>, ins: seq<Input>, i: nat) {
    && i < |ins| && i < |pts| && pts[i].node == ToolNode && pts[i].state.index < |pts[i].state.pending|
    && CallOf(pts[i]).name in cfg.requiredReads && CallOf(pts[i]).name in cfg.required
    && !Succeeds(pts[i], ins[i]) && !Done(cfg, pts, ins, i, CallOf(pts[i]).name)
  }

  /** The user answers a question with a stop word. */
  ghost predicate StopsAt(pts: seq<Point>, ins: seq<Input>, i: nat) {
    i < |ins| && i < |pts| && pts[i].node == ClarifyNode && ins[i].Answer? && Stops(ins[i].text)
  }

  predicate LosesRead(cfg: Config, p: Point, input: Input)
    requires Runnable(p)
  {
    && p.node == ToolNode && CallOf(p).name in cfg.requiredReads && CallOf(p).name in cfg.required
    && !Succeeds(p, input) && CallOf(p).name !in p.state.completed
  }

  lemma FlagStep(cfg: Config, p: Point, input: Input, q: Point)
    requires Moves(cfg, p, input, q) && p.state.required == cfg.required
    ensures q.state.evidenceUnavailable <==> p.state.evidenceUnavailable || LosesRead(cfg, p, input)
    ensures q.state.stopped <==> p.state.stopped || (p.node == ClarifyNode && Stops(input.text))
  {
    if p.node == ModelNode {
      ModelStepCases(cfg, p.state, input);
      PreparedKeeps(cfg, p.state, input.context, input.frame, input.fits);
    }
  }

  /** The flags say exactly that: evidence is unavailable if and only if the last step lost a required read,
      and the run is stopped if and only if the last step was an answer with a stop word. */
  lemma FlagsExactly(cfg: Config, messages: seq<Msg>, pts: seq<Point>, ins: seq<Input>, k: nat)
    requires IsRunFrom(cfg, messages, pts, ins) && k < |pts|
    ensures pts[k].state.evidenceUnavailable <==> k > 0 && LosesEvidence(cfg, pts, ins, k - 1)
    ensures pts[k].state.stopped <==> k > 0 && StopsAt(pts, ins, k - 1)
    ensures pts[k].state.evidenceUnavailable || pts[k].state.stopped ==> pts[k].node == End
  {
    RunInv(cfg, messages, pts, ins, k);
    if k > 0 {
      RunInv(cfg, messages, pts, ins, k - 1);
      RunStep(cfg, pts, ins, k - 1);
      FlagStep(cfg, pts[k - 1], ins[k - 1], pts[k]);
      if pts[k - 1].state.index < |pts[k - 1].state.pending| {
        CompletedExactly(cfg, messages, pts, ins, k - 1, CallOf(pts[k - 1]).name);
      }
    }
  }

  // ---------------------------------------------------------------- required tools

  /** A run ends because its last step lost a required read, because its last step was a stop word, or with
      every required tool having succeeded, a required read since the context last changed. */
  lemma RequiredToolsCompleted(cfg: Config, messages: seq<Msg>, pts: seq<Point>, ins: seq<Input>, k: nat)
    requires IsRunFrom(cfg, messages, pts, ins) && k < |pts| && pts[k].node == End
    ensures k > 0
    ensures LosesEvidence(cfg, pts, ins, k - 1) || StopsAt(pts, ins, k - 1)
            || forall n :: n in cfg.required ==> Done(cfg, pts, ins, k, n)
  {
    RunInv(cfg, messages, pts, ins, k);
    FlagsExactly(cfg, messages, pts, ins, k);
    if !pts[k].state.evidenceUnavailable && !pts[k].state.stopped {
      NothingMissing(cfg.required, pts[k].state.completed);
      forall n | n in cfg.required ensures Done(cfg, pts, ins, k, n) {
        CompletedExactly(cfg, messages, pts, ins, k, n);
      }
    }
  }

  /** m is the first of the listed tools that has not succeeded. */
  ghost predicate Outstanding(cfg: Config, pts: seq<Point>, ins: seq<Input>, k: nat, m: nat)
    requires k < |pts|
  {
    && m < |cfg.required| && !Done(cfg, pts, ins, k, cfg.required[m])
    && forall j :: 0 <= j < m ==> Done(cfg, pts, ins, k, cfg.required[j])
  }

  lemma OutstandingIsMissing(cfg: Config, messages: seq<Msg>, pts: seq<Point>, ins: seq<Input>, k: nat, m: nat)
    requires IsRunFrom(cfg, messages, pts, ins) && k < |pts| && Outstanding(cfg, pts, ins, k, m)
    ensures FirstMissing(cfg.required, pts[k].state.completed) == Some(cfg.required[m])
  {
    CompletedExactly(cfg, messages, pts, ins, k, cfg.required[m]);
    forall j | 0 <= j < m ensures cfg.required[j] in pts[k].state.completed {
      CompletedExactly(cfg, messages, pts, ins, k, cfg.required[j]);
    }
    MissingIs(cfg.required, pts[k].state.completed, m);
  }

  /** While a required tool is outstanding, what runs is the first outstanding one exactly when it has not
      succeeded before: the only other tools that run are repeats. */
  lemma RequiredToolsFirst(cfg: Config, messages: seq<Msg>, pts: seq<Point>, ins: seq<Input>, k: nat, m: nat)
    requires IsRunFrom(cfg, messages, pts, ins) && k < |pts| && pts[k].node == ToolNode
    requires Outstanding(cfg, pts, ins, k, m)
    ensures pts[k].state.index < |pts[k].state.pending|
    ensures CallOf(pts[k]).name == cfg.required[m] <==> !Done(cfg, pts, ins, k, CallOf(pts[k]).name)
  {
    RunInv(cfg, messages, pts, ins, k);
    OutstandingIsMissing(cfg, messages, pts, ins, k, m);
    CompletedExactly(cfg, messages, pts, ins, k, CallOf(pts[k]).name);
  }

  /** Until the context changes, required tools succeed in the listed order: before one succeeds, each listed
      before it has. Only the clarifying question may be answered ahead of its place. */
  lemma RequiredInOrder(cfg: Config, messages: seq<Msg>, pts: seq<Point>, ins: seq<Input>, i: nat, l: nat, j: nat)
    requires IsRunFrom(cfg, messages, pts, ins) && FirstAt(cfg.required, l) && j < l
    requires cfg.required[l] != CLARIFY && SuccessAt(pts, ins, i, cfg.required[l]) && pts[i].state.segment == 0
    ensures exists h: nat :: h < i && SuccessAt(pts, ins, h, cfg.required[j])
  {
    var n, before := cfg.required[l], pts[i].state.completed;
    RunStep(cfg, pts, ins, i);
    RunInv(cfg, messages, pts, ins, i);
    RunInv(cfg, messages, pts, ins, i + 1);
    StepCompletes(cfg, pts[i], ins[i], pts[i + 1], n);
    var after := pts[i + 1].state.completed;
    assert after == if n in before then before else before + [n];
    var m :| 0 <= m < |after| && after[m] == n;
    assert cfg.required[j] in after[..m];
    assert cfg.required[j] in before by {
      if n !in before { assert after[..m] <= before; }
    }
    CompletedExactly(cfg, messages, pts, ins, i, cfg.required[j]);
  }

  // ---------------------------------------------------------------- stop words

  ghost predicate AllIn(s: string, chars: set<char>) {
    forall i :: 0 <= i < |s| ==> s[i] in chars
  }

  /** The letter, or its capital, whose code point is 32 before it. */
  predicate Alike(c: char, letter: char) {
    c == letter || ('a' <= letter <= 'z' && c as int + 32 == letter as int)
  }

  predicate AnyCase(s: string, word: string) {
    |s| == |word| && forall i :: 0 <= i < |word| ==> Alike(s[i], word[i])
  }

  ghost predicate StopWord(s: string) {
    exists word :: word in STOP_WORDS && AnyCase(s, word)
  }

  lemma NoCapitals(word: string)
    requires word in STOP_WORDS
    ensures forall i :: 0 <= i < |word| ==> !('A' <= word[i] <= 'Z')
  {
  }

  lemma StopWordMeans(s: string)
    ensures StopWord(s) <==> Lower(s) in STOP_WORDS
  {
    if Lower(s) in STOP_WORDS {
      NoCapitals(Lower(s));
      assert AnyCase(s, Lower(s));
    }
    if word :| word in STOP_WORDS && AnyCase(s, word) {
      NoCapitals(word);
      assert Lower(s) == word;
    }
  }

  /** A stop word in any case, with punctuation around it and blanks around that. */
  ghost predicate IsStopWord(answer: string) {
    exists a, b, core, c, d :: Wrapped(answer, a, b, core, c, d)
  }

  ghost predicate Wrapped(answer: string, a: string, b: string, core: string, c: string, d: string) {
    && answer == a + (b + core + c) + d && StopWord(core)
    && AllIn(a, WHITESPACE) && AllIn(d, WHITESPACE) && AllIn(b, STOP_PUNCTUATION) && AllIn(c, STOP_PUNCTUATION)
  }

  lemma {:induction false} LeftStripped(s: string, drop: set<char>) returns (front: string)
    ensures s == front + StripLeft(s, drop) && AllIn(front, drop)
  {
    if s != [] && s[0] in drop {
      var rest := LeftStripped(s[1..], drop);
      front := [s[0]] + rest;
    } else {
      front := "";
    }
  }

  lemma {:induction false} RightStripped(s: string, drop: set<char>) returns (back: string)
    ensures s == StripRight(s, drop) + back && AllIn(back, drop)
  {
    if s != [] && s[|s| - 1] in drop {
      var rest := RightStripped(s[..|s| - 1], drop);
      back := rest + [s[|s| - 1]];
    } else {
      back := "";
    }
  }

  lemma {:induction false} StripLeftExactly(front: string, s: string, drop: set<char>)
    requires AllIn(front, drop) && (s == [] || s[0] !in drop)
    ensures StripLeft(front + s, drop) == s
  {
    if front == [] {
      assert front + s == s;
    } else {
      assert (front + s)[1..] == front[1..] + s;
      StripLeftExactly(front[1..], s, drop);
    }
  }

  lemma {:induction false} StripRightExactly(s: string, back: string, drop: set<char>)
    requires AllIn(back, drop) && (s == [] || s[|s| - 1] !in drop)
    ensures StripRight(s + back, drop) == s
  {
    if back == [] {
      assert s + back == s;
    } else {
      assert (s + back)[..|s + back| - 1] == s + back[..|back| - 1];
      StripRightExactly(s, back[..|back| - 1], drop);
    }
  }

  /** Stripping both ends takes exactly what belongs to them off. */
  lemma StripBoth(front: string, s: string, back: string, drop: set<char>)
    requires AllIn(front, drop) && AllIn(back, drop) && s != [] && s[0] !in drop && s[|s| - 1] !in drop
    ensures StripRight(StripLeft(front + s + back, drop), drop) == s
  {
    assert front + s + back == front + (s + back);
    StripLeftExactly(front, s + back, drop);
    StripRightExactly(s, back, drop);
  }

  lemma StripGives(s: string, drop: set<char>) returns (front: string, back: string)
    ensures s == front + StripRight(StripLeft(s, drop), drop) + back && AllIn(front, drop) && AllIn(back, drop)
  {
    front := LeftStripped(s, drop);
    back := RightStripped(StripLeft(s, drop), drop);
  }

  lemma NoLetter(c: char)
    requires 'A' <= c <= 'Z' || 'a' <= c <= 'z'
    ensures c !in WHITESPACE && c !in STOP_PUNCTUATION
  {
  }

  lemma WordEnds(w: string)
    requires w in STOP_WORDS
    ensures w != [] && w[0] !in WHITESPACE && w[0] !in STOP_PUNCTUATION
    ensures w[|w| - 1] !in WHITESPACE && w[|w| - 1] !in STOP_PUNCTUATION
  {
  }

  /** Neither end of a stop word would be stripped. */
  lemma StopWordEnds(core: string)
    requires Lower(core) in STOP_WORDS
    ensures core != [] && core[0] !in WHITESPACE && core[0] !in STOP_PUNCTUATION
    ensures core[|core| - 1] !in WHITESPACE && core[|core| - 1] !in STOP_PUNCTUATION
  {
    var w := Lower(core);
    WordEnds(w);
    forall i | 0 <= i < |core| && w[i] !in WHITESPACE && w[i] !in STOP_PUNCTUATION
      ensures core[i] !in WHITESPACE && core[i] !in STOP_PUNCTUATION {
      if 'A' <= core[i] <= 'Z' { NoLetter(core[i]); } else { assert w[i] == core[i]; }
    }
  }

  lemma StopWordStops(answer: string, a: string, b: string, core: string, c: string, d: string)
    requires Wrapped(answer, a, b, core, c, d)
    ensures Stops(answer)
  {
    var inner := b + core + c;
    StopWordMeans(core);
    StopWordEnds(core);
    assert forall x :: x in STOP_PUNCTUATION ==> x !in WHITESPACE;
    assert inner[0] == if b == "" then core[0] else b[0];
    assert inner[|inner| - 1] == if c == "" then core[|core| - 1] else c[|c| - 1];
    StripBoth(a, inner, d, WHITESPACE);
    StripBoth(b, core, c, STOP_PUNCTUATION);
  }

  /** An answer stops the run exactly when it is a stop word. */
  lemma StopsExactly(answer: string)
    ensures Stops(answer) <==> IsStopWord(answer)
  {
    if Stops(answer) {
      var a, d := StripGives(answer, WHITESPACE);
      var bare := StripRight(StripLeft(answer, WHITESPACE), WHITESPACE);
      var b, c := StripGives(bare, STOP_PUNCTUATION);
      var core := StripRight(StripLeft(bare, STOP_PUNCTUATION), STOP_PUNCTUATION);
      StopWordMeans(core);
      assert Wrapped(answer, a, b, core, c, d);
    }
    if IsStopWord(answer) {
      var a, b, core, c, d :| Wrapped(answer, a, b, core, c, d);
      StopWordStops(answer, a, b, core, c, d);
    }
  }
}
