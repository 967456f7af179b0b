/** The pattern for amounts, as a description of texts, and that the scan reads exactly what it describes:
    the longest marked amount, else the one amount with a unit, with its value. */
module GroundingPattern {
  import opened Prelude
  import opened Grounding

  // ---------------------------------------------------------------- numbers

  predicate Whole(a: string) {
    a != "" && Digit(a[0]) && forall i :: 0 <= i < |a| ==> Digit(a[i]) || a[i] == ','
  }

  predicate Figured(f: string) {
    forall i :: 0 <= i < |f| ==> Digit(f[i])
  }

  /** A number: a digit, then digits and commas, then perhaps a point and digits. */
  predicate NumberOf(t: string, a: string, f: string) {
    Whole(a) && Figured(f) && t == if f == "" then a else a + ("." + f)
  }

  lemma {:induction false} RunFits(kind: Kind, s: string)
    ensures forall i :: 0 <= i < Run(kind, s) ==> Fits(kind, s[i])
  {
    if s != "" && Fits(kind, s[0]) {
      RunFits(kind, s[1..]);
      forall i | 0 <= i < Run(kind, s) ensures Fits(kind, s[i]) {
        if i > 0 { assert s[i] == s[1..][i - 1]; }
      }
    }
  }

  lemma {:induction false} RunIsLongest(kind: Kind, s: string, n: nat)
    requires n <= |s| && forall i :: 0 <= i < n ==> Fits(kind, s[i])
    ensures n <= Run(kind, s)
  {
    if n > 0 { RunIsLongest(kind, s[1..], n - 1); }
  }

  /** What is found at the start is a number. */
  lemma NumberFound(s: string) returns (a: string, f: string)
    requires NumberLength(s) > 0
    ensures NumberOf(s[..NumberLength(s)], a, f)
  {
    var whole := Run(FiguresAndCommas, s);
    var tail := s[whole..];
    a, f := s[..whole], "";
    RunFits(FiguresAndCommas, s);
    RunIsLongest(FiguresAndCommas, s, 1);
    if |tail| >= 2 && tail[0] == '.' && Digit(tail[1]) {
      var n := Run(Figures, tail[1..]);
      f := tail[1..][..n];
      RunFits(Figures, tail[1..]);
      RunIsLongest(Figures, tail[1..], 1);
      assert s[..NumberLength(s)] == a + ("." + f);
    }
  }

  /** And no longer number stands there. */
  lemma NumberIsLongest(s: string, t: string, a: string, f: string)
    requires t <= s && NumberOf(t, a, f)
    ensures |t| <= NumberLength(s)
  {
    var whole := Run(FiguresAndCommas, s);
    assert s[0] == a[0];
    forall i | 0 <= i < |a| ensures Fits(FiguresAndCommas, s[i]) { assert s[i] == t[i] == a[i]; }
    RunIsLongest(FiguresAndCommas, s, |a|);
    if f != "" {
      assert s[|a|] == t[|a|] == '.';
      RunFits(FiguresAndCommas, s);
      assert whole == |a|;
      var tail := s[whole..];
      forall i | 0 <= i < |f| ensures Fits(Figures, tail[1..][i]) { assert tail[1..][i] == t[|a| + 1 + i] == f[i]; }
      RunIsLongest(Figures, tail[1..], |f|);
      assert tail[1] == tail[1..][0];
    }
  }

  /** A number with nothing of a number behind it is read whole. */
  lemma NumberExactly(s: string, t: string, a: string, f: string)
    requires t <= s && NumberOf(t, a, f)
    requires |t| < |s| ==> !DigitOrComma(s[|t|]) && s[|t|] != '.'
    ensures NumberLength(s) == |t|
  {
    NumberIsLongest(s, t, a, f);
    var whole := Run(FiguresAndCommas, s);
    RunFits(FiguresAndCommas, s);
    if f == "" {
      assert whole == |a|;
    } else {
      assert s[|a|] == t[|a|] == '.';
      assert whole == |a|;
      var tail := s[whole..];
      RunFits(Figures, tail[1..]);
      assert |t| < |s| ==> tail[1..][|f|] == s[|t|];
    }
  }

  // ---------------------------------------------------------------- values

  function TenTo(n: nat): real {
    if n == 0 then 1.0 else TenTo(n - 1) * 10.0
  }

  lemma {:induction false} PowersOfTen(n: nat)
    ensures Power(n) == TenTo(n) > 0.0
  {
    if n > 0 { PowersOfTen(n - 1); }
  }

  /** The digits of a text, read as one number. */
  function DigitsOf(s: string): nat {
    if s == "" then 0
    else
      var front, last := DigitsOf(s[..|s| - 1]), s[|s| - 1];
      if Digit(last) then 10 * front + (last - '0') as nat else front
  }

  lemma {:induction false} CommasSkipped(s: string)
    requires forall i :: 0 <= i < |s| ==> Digit(s[i]) || s[i] == ','
    ensures ParseNat(WithoutCommas(s)) == DigitsOf(s) && Figured(WithoutCommas(s))
  {
    if s != "" {
      CommasSkipped(s[..|s| - 1]);
      WithoutLast(s);
      var front, last := WithoutCommas(s[..|s| - 1]), s[|s| - 1];
      assert forall i :: 0 <= i < |s| - 1 ==> s[..|s| - 1][i] == s[i];
      if last == ',' {
        assert WithoutCommas(s) == front + "" == front;
      } else {
        assert WithoutCommas(s) == front + [last];
        assert (front + [last])[..|front|] == front;
      }
    }
  }

  lemma WithoutLast(s: string)
    requires s != ""
    ensures WithoutCommas(s) == WithoutCommas(s[..|s| - 1]) + if s[|s| - 1] == ',' then "" else [s[|s| - 1]]
  {
    var front, last := s[..|s| - 1], [s[|s| - 1]];
    assert s == front + last;
    WithoutCommasConcat(front, last);
    assert last[1..] == "";
  }

  lemma {:induction false} FiguresRead(f: string)
    requires Figured(f)
    ensures ParseNat(f) == DigitsOf(f)
  {
    if f != "" { FiguresRead(f[..|f| - 1]); }
  }

  lemma {:induction false} WithoutCommasConcat(s: string, t: string)
    ensures WithoutCommas(s + t) == WithoutCommas(s) + WithoutCommas(t)
  {
    if s == "" {
      assert s + t == t;
    } else {
      assert (s + t)[1..] == s[1..] + t;
      WithoutCommasConcat(s[1..], t);
    }
  }

  /** The value of a number: the digits before the point, and those behind it as a decimal fraction. */
  function ValueOf(a: string, f: string): real {
    PowersOfTen(|f|);
    DigitsOf(a) as real + DigitsOf(f) as real / TenTo(|f|)
  }

  lemma SplitAtPoint(bare: string, whole: string, fraction: string)
    requires Figured(whole) && bare == if fraction == "" then whole else whole + ("." + fraction)
    ensures Run(Figures, bare) == |whole| <= |bare| && bare[..|whole|] == whole
    ensures fraction == (if |whole| < |bare| then bare[|whole| + 1..] else "")
  {
    var tail := if fraction == "" then "" else "." + fraction;
    assert bare == whole + tail;
    RunExactly(Figures, whole, tail);
  }

  lemma DecimalOfIs(t: string, bare: string, n: nat, whole: string, fraction: string)
    requires bare == WithoutCommas(t) && n == Run(Figures, bare) && whole == bare[..n]
    requires fraction == if n < |bare| then bare[n + 1..] else ""
    ensures DecimalOf(t) == Decimal(whole, fraction)
  {
  }

  lemma BareNumber(t: string, a: string, f: string)
    requires NumberOf(t, a, f)
    ensures WithoutCommas(t) == if f == "" then WithoutCommas(a) else WithoutCommas(a) + ("." + f)
  {
    if f != "" {
      WithoutCommasConcat(a, "." + f);
      NoCommas("." + f);
    }
  }

  lemma DecimalMeans(t: string, a: string, f: string)
    requires NumberOf(t, a, f)
    ensures DecimalOf(t) == ValueOf(a, f)
  {
    BareNumber(t, a, f);
    CommasSkipped(a);
    SplitAtPoint(WithoutCommas(t), WithoutCommas(a), f);
    DecimalOfIs(t, WithoutCommas(t), |WithoutCommas(a)|, WithoutCommas(a), f);
    FiguresRead(f);
    PowersOfTen(|f|);
  }

  ghost predicate IsNumber(t: string) {
    exists a, f :: NumberOf(t, a, f)
  }

  /** The value of a number text is that of its parts. */
  ghost predicate HasValue(t: string, value: real) {
    exists a, f :: NumberOf(t, a, f) && value == ValueOf(a, f)
  }

  lemma DecimalIsValue(t: string)
    requires IsNumber(t)
    ensures HasValue(t, DecimalOf(t))
  {
    var a, f :| NumberOf(t, a, f);
    DecimalMeans(t, a, f);
  }

  lemma NumberIsFound(s: string)
    requires NumberLength(s) > 0
    ensures IsNumber(s[..NumberLength(s)])
  {
    var a, f := NumberFound(s);
  }

  lemma NumberNoLonger(s: string, n: nat)
    requires n <= |s| && IsNumber(s[..n])
    ensures 0 < n <= NumberLength(s) && Digit(s[0])
  {
    var a, f :| NumberOf(s[..n], a, f);
    NumberIsLongest(s, s[..n], a, f);
    assert s[0] == s[..n][0] == a[0];
  }

  lemma NumberStopsAt(s: string, n: nat)
    requires n <= |s| && IsNumber(s[..n]) && (n < |s| ==> !DigitOrComma(s[n]) && s[n] != '.')
    ensures NumberLength(s) == n
  {
    var a, f :| NumberOf(s[..n], a, f);
    NumberExactly(s, s[..n], a, f);
  }

  // ---------------------------------------------------------------- blanks

  predicate AllBlank(s: string, i: nat, j: nat) {
    i <= j <= |s| && forall k :: i <= k < j ==> Space(s[k])
  }

  lemma BlanksFound(s: string, i: nat)
    requires i <= |s|
    ensures AllBlank(s, i, i + Run(Blanks, s[i..]))
  {
    RunFits(Blanks, s[i..]);
    forall k | i <= k < i + Run(Blanks, s[i..]) ensures Space(s[k]) { assert s[k] == s[i..][k - i]; }
  }

  lemma BlanksStopAt(s: string, i: nat, j: nat)
    requires AllBlank(s, i, j) && (j < |s| ==> !Space(s[j]))
    ensures Run(Blanks, s[i..]) == j - i
  {
    forall k | 0 <= k < j - i ensures Fits(Blanks, s[i..][k]) { assert s[i..][k] == s[i + k]; }
    RunIsLongest(Blanks, s[i..], j - i);
    RunFits(Blanks, s[i..]);
    assert j < |s| ==> s[i..][j - i] == s[j];
  }

  // ---------------------------------------------------------------- marked amounts

  /** The first i characters are a currency mark. */
  predicate MarkUpTo(free: bool, s: string, i: nat) {
    || (i == 1 && i <= |s| && s[0] in {'¥', '￥'})
    || (i == 3 && i <= |s| && (s[..3] == "CNY" || s[..3] == "RMB") && free)
  }

  /** A mark, blanks and a number, where p says. */
  ghost predicate Marked(free: bool, s: string, p: Behind) {
    p.mark <= p.start <= p.end <= |s| && MarkUpTo(free, s, p.mark) && AllBlank(s, p.mark, p.start)
      && IsNumber(s[p.start..p.end])
  }

  lemma MarkExactly(free: bool, s: string)
    ensures CurrencyMark(free, s) > 0 ==> MarkUpTo(free, s, CurrencyMark(free, s))
    ensures forall i: nat :: MarkUpTo(free, s, i) ==> CurrencyMark(free, s) == i > 0
  {
    assert "CNY"[0] == 'C' && "RMB"[0] == 'R';
    assert |s| >= 3 ==> s[..3][0] == s[0];
  }

  lemma Inner(s: string, j: nat, n: nat)
    requires j <= n <= |s|
    ensures s[j..][..n - j] == s[j..n]
  {
  }

  lemma BehindIs(free: bool, s: string, mark: nat, start: nat)
    requires mark == CurrencyMark(free, s) && start == mark + Run(Blanks, s[mark..])
    ensures BehindOf(free, s) == Behind(mark, start, start + NumberLength(s[start..]))
  {
  }

  lemma NumberAt(s: string, i: nat, j: nat)
    requires i <= |s| && j == i + NumberLength(s[i..]) && i < j
    ensures IsNumber(s[i..j])
  {
    NumberIsFound(s[i..]);
    Inner(s, i, j);
  }

  lemma MarkedParts(free: bool, s: string, p: Behind)
    requires p.mark == CurrencyMark(free, s) > 0 && p.start == p.mark + Run(Blanks, s[p.mark..])
    requires p.end == p.start + NumberLength(s[p.start..]) && p.start < p.end
    ensures Marked(free, s, p)
  {
    MarkExactly(free, s);
    BlanksFound(s, p.mark);
    NumberAt(s, p.start, p.end);
  }

  /** Where the parts of a marked amount are all found, they are one. */
  lemma MarkedThere(free: bool, s: string)
    requires BehindOf(free, s).mark > 0 && BehindOf(free, s).start < BehindOf(free, s).end
    ensures Marked(free, s, BehindOf(free, s))
  {
    MarkedParts(free, s, BehindOf(free, s));
  }

  /** And no longer one stands there. */
  lemma MarkedNoLonger(free: bool, s: string, p: Behind)
    requires Marked(free, s, p)
    ensures var q := BehindOf(free, s); q.mark == p.mark > 0 && q.start == p.start < p.end <= q.end
  {
    Inner(s, p.start, p.end);
    NumberNoLonger(s[p.start..], p.end - p.start);
    assert s[p.start] == s[p.start..][0];
    BlanksStopAt(s, p.mark, p.start);
    MarkExactly(free, s);
    BehindIs(free, s, p.mark, p.start);
  }

  // ---------------------------------------------------------------- amounts with a unit

  /** A sign or none, a number, blanks, a scale or none, and a unit, where p says. */
  ghost predicate Measured(s: string, p: Parts) {
    && p.start <= 1 && p.start <= p.after <= p.space <= p.unit < |s| && (p.start == 1 ==> s[0] == '-')
    && IsNumber(s[p.start..p.after]) && AllBlank(s, p.after, p.space)
    && (p.unit == p.space || (p.unit == p.space + 1 && s[p.space] in {'万', '千'})) && s[p.unit] in {'元', '分'}
  }

  /** Nothing it could be part of stands before it, and it is no span of minutes. */
  predicate Apart(prev: Option<char>, s: string, n: nat) {
    && (prev.Some? ==>
          && !('0' <= prev.value <= '9') && !('A' <= prev.value <= 'Z') && !('a' <= prev.value <= 'z')
          && prev.value !in {'_', '.', ','})
    && (n < |s| ==> s[n] != '钟')
  }

  lemma PartsAre(s: string, start: nat, after: nat, space: nat)
    requires start == (if s != "" && s[0] == '-' then 1 else 0) && after == start + NumberLength(s[start..])
    requires space == after + Run(Blanks, s[after..])
    ensures PartsOf(s) == Parts(start, after, space, if space < |s| && s[space] in {'万', '千'} then space + 1 else space)
  {
  }

  lemma NumberOnce(s: string, i: nat, j: nat)
    requires i <= j < |s| && IsNumber(s[i..j]) && !DigitOrComma(s[j]) && s[j] != '.'
    ensures i < j && Digit(s[i]) && NumberLength(s[i..]) == j - i
  {
    Inner(s, i, j);
    NumberNoLonger(s[i..], j - i);
    assert s[i] == s[i..][0] && s[j] == s[i..][j - i];
    NumberStopsAt(s[i..], j - i);
  }

  lemma MeasuredOnce(s: string, p: Parts)
    requires Measured(s, p)
    ensures PartsOf(s) == p
  {
    assert !Space(s[p.space]) && !DigitOrComma(s[p.space]) && s[p.space] != '.';
    assert p.after < p.space ==> Space(s[p.after]);
    NumberOnce(s, p.start, p.after);
    BlanksStopAt(s, p.after, p.space);
    PartsAre(s, p.start, p.after, p.space);
  }

  lemma MeasuredParts(s: string, p: Parts)
    requires p.start <= 1 && p.start <= |s| && (p.start == 1 ==> s[0] == '-')
    requires p.after == p.start + NumberLength(s[p.start..]) && p.start < p.after
      && p.space == p.after + Run(Blanks, s[p.after..])
    requires p.space <= p.unit < |s| && s[p.unit] in {'元', '分'}
    requires p.unit == p.space || (p.unit == p.space + 1 && s[p.space] in {'万', '千'})
    ensures Measured(s, p)
  {
    NumberAt(s, p.start, p.after);
    BlanksFound(s, p.after);
  }

  /** Where the parts were looked for. */
  ghost predicate LookedFor(s: string, p: Parts) {
    && p.start == (if s != "" && s[0] == '-' then 1 else 0) && p.start <= |s|
    && p.after == p.start + NumberLength(s[p.start..]) && p.after <= |s|
    && p.space == p.after + Run(Blanks, s[p.after..])
    && p.unit == if p.space < |s| && s[p.space] in {'万', '千'} then p.space + 1 else p.space
  }

  lemma PartsLookedFor(s: string, p: Parts)
    requires p == PartsOf(s)
    ensures LookedFor(s, p)
  {
  }

  lemma MeasuredThere(prev: Option<char>, s: string, p: Parts)
    requires LookedFor(s, p) && p.start < p.after && p.unit < |s| && s[p.unit] in {'元', '分'}
    ensures Measured(s, p)
  {
    MeasuredParts(s, p);
  }

  /** In minor units: yuan have a hundred, and a scale is a thousand or ten thousand. */
  function Minor(negative: bool, value: real, scale: Option<char>, unit: char): real {
    var signed := if negative then 0.0 - value else value;
    var scaled := match scale case Some('万') => signed * 10000.0 case Some('千') => signed * 1000.0 case _ => signed;
    if unit == '元' then scaled * 100.0 else scaled
  }

  lemma MinorMeans(negative: bool, value: real, scale: Option<char>, unit: char)
    ensures InMinor(if negative then -value else value, scale, unit) == Minor(negative, value, scale, unit)
  {
  }

  // ---------------------------------------------------------------- the pattern

  ghost predicate MarkedText(free: bool, s: string, n: nat) {
    exists p :: Marked(free, s, p) && n == p.end
  }

  ghost predicate MeasuredText(prev: Option<char>, s: string, n: nat) {
    exists p :: Measured(s, p) && n == p.unit + 1 && Apart(prev, s, n)
  }

  /** The value of a marked amount whose number runs from j to n. */
  ghost predicate InHundredths(s: string, j: nat, n: nat, minor: real) {
    j <= n <= |s| && exists value :: HasValue(s[j..n], value) && minor == value * 100.0
  }

  /** The value of an amount with a unit: that of its number with its sign, scale and unit. */
  ghost predicate InUnits(s: string, p: Parts, minor: real)
    requires p.start <= p.after <= p.space <= p.unit < |s|
  {
    exists value :: HasValue(s[p.start..p.after], value)
                    && minor == Minor(p.start == 1, value, if p.space < p.unit then Some(s[p.space])
                          else None, s[p.unit])
  }

  lemma HundredfoldIs(text: string, value: real)
    requires value == DecimalOf(text)
    ensures Hundredfold(text) == value * 100.0
  {
  }

  lemma HundredfoldMeans(s: string, j: nat, n: nat)
    requires j <= n <= |s| && IsNumber(s[j..n])
    ensures InHundredths(s, j, n, Hundredfold(s[j..n]))
  {
    DecimalIsValue(s[j..n]);
    HundredfoldIs(s[j..n], DecimalOf(s[j..n]));
  }

  lemma MarkedAmountIs(free: bool, s: string, p: Behind)
    requires p == BehindOf(free, s)
    ensures MarkedAmount(free, s) ==
      if p.mark > 0 && p.start < p.end then Some(Stated(p.end, Hundredfold(s[p.start..p.end]))) else None
  {
  }

  /** A marked amount is read where one starts, and as long as possible. */
  lemma MarkedExactly(free: bool, s: string, n: nat)
    requires MarkedText(free, s, n)
    ensures MarkedAmount(free, s).Some? && n <= MarkedAmount(free, s).value.length
  {
    var p :| Marked(free, s, p) && n == p.end;
    MarkedNoLonger(free, s, p);
    MarkedAmountIs(free, s, BehindOf(free, s));
  }

  /** And nothing else is; its value is a hundred times its number's. */
  lemma MarkedOnly(free: bool, s: string)
    requires MarkedAmount(free, s).Some?
    ensures MarkedText(free, s, MarkedAmount(free, s).value.length)
    ensures var stated := MarkedAmount(free, s).value;
      exists p :: Marked(free, s, p) && p.end == stated.length && InHundredths(s, p.start, p.end, stated.minor)
  {
    var p := BehindOf(free, s);
    MarkedAmountIs(free, s, p);
    MarkedThere(free, s);
    HundredfoldMeans(s, p.start, p.end);
  }

  lemma ValueAtIs(s: string, p: Parts, value: real)
    requires p.start <= p.after <= p.space <= p.unit < |s| && value == DecimalOf(s[p.start..p.after])
    ensures ValueAt(s, p)
         == InMinor(if p.start == 1 then -value else value, if p.space < p.unit then Some(s[p.space])
           else None, s[p.unit])
  {
  }

  lemma ValueAtMeans(s: string, p: Parts)
    requires Measured(s, p)
    ensures InUnits(s, p, ValueAt(s, p))
  {
    var value := DecimalOf(s[p.start..p.after]);
    DecimalIsValue(s[p.start..p.after]);
    ValueAtIs(s, p, value);
    MinorMeans(p.start == 1, value, if p.space < p.unit then Some(s[p.space]) else None, s[p.unit]);
  }

  lemma NumberNotEmpty(s: string, i: nat, j: nat)
    requires i <= j <= |s| && IsNumber(s[i..j])
    ensures i < j
  {
  }

  lemma StandsApart(prev: Option<char>, s: string, p: Parts)
    requires Measured(s, p)
    ensures StandsThere(prev, s, p) <==> Apart(prev, s, p.unit + 1)
  {
    NumberNotEmpty(s, p.start, p.after);
  }

  lemma UnitAmountIs(prev: Option<char>, s: string, p: Parts)
    requires p == PartsOf(s)
    ensures UnitAmount(prev, s) == if StandsThere(prev, s, p) then Some(Stated(p.unit + 1, ValueAt(s, p))) else None
  {
  }

  /** An amount with a unit is read where one starts and stands apart; its parts are found in one way only. */
  lemma MeasuredExactly(prev: Option<char>, s: string, p: Parts)
    requires Measured(s, p) && Apart(prev, s, p.unit + 1)
    ensures UnitAmount(prev, s).Some? && UnitAmount(prev, s).value.length == p.unit + 1
    ensures InUnits(s, p, UnitAmount(prev, s).value.minor)
  {
    MeasuredOnce(s, p);
    StandsApart(prev, s, p);
    UnitAmountIs(prev, s, p);
    ValueAtMeans(s, p);
  }

  /** And nothing else is. */
  lemma MeasuredOnly(prev: Option<char>, s: string)
    requires UnitAmount(prev, s).Some?
    ensures MeasuredText(prev, s, UnitAmount(prev, s).value.length)
  {
    var p := PartsOf(s);
    UnitAmountIs(prev, s, p);
    PartsLookedFor(s, p);
    MeasuredThere(prev, s, p);
    StandsApart(prev, s, p);
  }

  /** What is read at a position: a marked amount where one starts, else an amount with a unit. */
  lemma ReadExactly(word: char -> bool, prev: Option<char>, s: string)
    ensures AmountAt(word, prev, s) ==
      if exists n: nat ::
         MarkedText(Free(word, prev), s, n) then MarkedAmount(Free(word, prev), s) else UnitAmount(prev, s)
  {
    var free := Free(word, prev);
    if MarkedAmount(free, s).Some? {
      MarkedOnly(free, s);
    } else if n: nat :| MarkedText(free, s, n) {
      MarkedExactly(free, s, n);
    }
  }
}
