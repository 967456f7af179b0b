/** Which amounts a text states, and which of them the business records do not have. The pattern is
    matched left to right without backtracking: no alternative of it can succeed on a shorter number.
    Digits are the ASCII ones; which characters count as letters is an input. */
module Grounding {
  import opened Prelude
  import opened Presentation

  predicate Digit(c: char) {
    '0' <= c <= '9'
  }

  predicate DigitOrComma(c: char) {
    Digit(c) || c == ','
  }

  predicate Space(c: char) {
    c in {' ', '\t', '\n', '\r'}
  }

  datatype Kind = Figures | FiguresAndCommas | Blanks

  predicate Fits(kind: Kind, c: char) {
    match kind
    case Figures => Digit(c)
    case FiguresAndCommas => DigitOrComma(c)
    case Blanks => Space(c)
  }

  /** Length of the longest prefix of such characters. */
  function Run(kind: Kind, s: string): (n: nat)
    ensures n <= |s| && (n < |s| ==> !Fits(kind, s[n]))
  {
    if s == "" || !Fits(kind, s[0]) then 0 else 1 + Run(kind, s[1..])
  }

  /** \d[\d,]*(?:\.\d+)? at the start of s: its length, 0 when it is not there. */
  function NumberLength(s: string): (n: nat)
    ensures n <= |s|
  {
    if s == "" || !Digit(s[0]) then 0
    else
      var whole := Run(FiguresAndCommas, s);
      var tail := s[whole..];
      if |tail| >= 2 && tail[0] == '.' && Digit(tail[1]) then whole + 1 + Run(Figures, tail[1..]) else whole
  }

  function ParseNat(s: string): nat {
    if s == "" then 0
    else ParseNat(s[..|s| - 1]) * 10 + (if Digit(s[|s| - 1]) then (s[|s| - 1] - '0') as nat else 0)
  }

  function Power(n: nat): (r: real)
    ensures r > 0.0
  {
    if n == 0 then 1.0 else 10.0 * Power(n - 1)
  }

  function WithoutCommas(s: string): string {
    if s == "" then "" else (if s[0] == ',' then "" else [s[0]]) + WithoutCommas(s[1..])
  }

  function Decimal(whole: string, fraction: string): real {
    ParseNat(whole) as real + ParseNat(fraction) as real / Power(|fraction|)
  }

  /** The value of a number text: commas dropped, exact decimal. */
  function DecimalOf(text: string): real {
    var bare := WithoutCommas(text);
    var whole := Run(Figures, bare);
    Decimal(bare[..whole], if whole < |bare| then bare[whole + 1..] else "")
  }

  /** An amount in minor units, and the length of the text that states it. */
  datatype Stated = Stated(length: nat, minor: real)

  predicate StartsWith(s: string, prefix: string) {
    |prefix| <= |s| && s[..|prefix|] == prefix
  }

  /** No letter in front that would make a currency code part of a word. */
  predicate Free(word: char -> bool, prev: Option<char>) {
    prev.None? || !word(prev.value)
  }

  /** CNY / RMB at a word boundary, or a yuan sign: the length of the mark, 0 when there is none. */
  function CurrencyMark(free: bool, s: string): (n: nat)
    ensures n <= |s|
  {
    if s != "" && s[0] in {'¥', '￥'} then 1
    else if (StartsWith(s, "CNY") || StartsWith(s, "RMB")) && free then 3
    else 0
  }

  /** The value of a number text in hundredths. */
  function Hundredfold(text: string): real {
    DecimalOf(text) * 100.0
  }

  /** Where the parts of a marked amount would be: the mark up to mark, blanks up to start, the number up to end. */
  datatype Behind = Behind(mark: nat, start: nat, end: nat)

  function BehindOf(free: bool, s: string): (p: Behind)
    ensures p.mark <= p.start <= p.end <= |s|
  {
    var mark := CurrencyMark(free, s);
    var start := mark + Run(Blanks, s[mark..]);
    Behind(mark, start, start + NumberLength(s[start..]))
  }

  function MarkedAmount(free: bool, s: string): (r: Option<Stated>)
    ensures r.Some? ==> 0 < r.value.length <= |s|
  {
    var p := BehindOf(free, s);
    if p.mark > 0 && p.start < p.end then Some(Stated(p.end, Hundredfold(s[p.start..p.end]))) else None
  }

  predicate Glued(c: char) {
    Digit(c) || 'A' <= c <= 'Z' || 'a' <= c <= 'z' || c in {'_', '.', ','}
  }

  function InMinor(value: real, scale: Option<char>, unit: char): real {
    var fen := if unit == '元' then value * 100.0 else value;
    if scale == Some('万') then fen * 10000.0 else if scale == Some('千') then fen * 1000.0 else fen
  }

  /** Where the parts of an amount with a unit would be: the number from start to after, the blanks to space,
      a scale or none, and the unit. */
  datatype Parts = Parts(start: nat, after: nat, space: nat, unit: nat)

  function PartsOf(s: string): (p: Parts)
    ensures p.start <= p.after <= p.space <= |s| && p.space <= p.unit <= |s|
  {
    var sign := if s != "" && s[0] == '-' then 1 else 0;
    var after := sign + NumberLength(s[sign..]);
    var space := after + Run(Blanks, s[after..]);
    Parts(sign, after, space, if space < |s| && s[space] in {'万', '千'} then space + 1 else space)
  }

  /** They are all there, nothing the amount could be part of stands before it, and it is no span of minutes. */
  predicate StandsThere(prev: Option<char>, s: string, p: Parts) {
    && (prev.Some? ==> !Glued(prev.value)) && p.start < p.after && p.unit < |s| && s[p.unit] in {'元', '分'}
    && (p.unit + 1 < |s| ==> s[p.unit + 1] != '钟')
  }

  function ValueAt(s: string, p: Parts): real
    requires p.start <= p.after <= p.space <= p.unit < |s|
  {
    var value := DecimalOf(s[p.start..p.after]);
    InMinor(if p.start == 1 then -value else value, if p.space < p.unit then Some(s[p.space]) else None, s[p.unit])
  }

  function UnitAmount(prev: Option<char>, s: string): (r: Option<Stated>)
    ensures r.Some? ==> 0 < r.value.length <= |s|
  {
    var p := PartsOf(s);
    if StandsThere(prev, s, p) then Some(Stated(p.unit + 1, ValueAt(s, p))) else None
  }

  function AmountAt(word: char -> bool, prev: Option<char>, s: string): (r: Option<Stated>)
    ensures r.Some? ==> 0 < r.value.length <= |s|
  {
    var marked := MarkedAmount(Free(word, prev), s);
    if marked.Some? then marked else UnitAmount(prev, s)
  }

  predicate Recorded(minor: real, allowed: set<int>) {
    exists m | m in allowed :: m as real == minor
  }

  /** How far the scan moves from the start of s: behind the amount found there, or one character. */
  function Step(word: char -> bool, prev: Option<char>, s: string): (n: nat)
    requires s != ""
    ensures 0 < n <= |s|
  {
    var stated := AmountAt(word, prev, s);
    if stated.None? then 1 else stated.value.length
  }

  /** The amount stated at the start of s, if the records lack it. */
  function Lacking(word: char -> bool, prev: Option<char>, s: string, allowed: set<int>): seq<string> {
    var stated := AmountAt(word, prev, s);
    if stated.None? || Recorded(stated.value.minor, allowed) then [] else [s[..stated.value.length]]
  }

  /** The stated amounts the records lack, read from s with prev before it. */
  function Unsupported(word: char -> bool, prev: Option<char>, s: string, allowed: set<int>): seq<string>
    decreases |s|
  {
    if s == "" then []
    else
      var n := Step(word, prev, s);
      Lacking(word, prev, s, allowed) + Unsupported(word, Some(s[n - 1]), s[n..], allowed)
  }

  function Before(s: string, i: nat): Option<char>
    requires i <= |s|
  {
    if i == 0 then None else Some(s[i - 1])
  }

  lemma Unfold(word: char -> bool, prev: Option<char>, s: string, n: nat, last: Option<char>, rest: string,
               allowed: set<int>)
    requires s != "" && n == Step(word, prev, s) && last == Some(s[n - 1]) && rest == s[n..]
    ensures Unsupported(word, prev, s, allowed)
      == Lacking(word, prev, s, allowed) + Unsupported(word, last, rest, allowed)
  {
  }

  /** One turn of the scanning loop: what is found at position i, and where to go on. */
  method ScanAt(word: char -> bool, content: string, i: nat, allowed: set<int>) returns (found: seq<string>, next: nat)
    requires i < |content|
    ensures found == Lacking(word, Before(content, i), content[i..], allowed)
    ensures next == i + Step(word, Before(content, i), content[i..])
  {
    found, next := [], i + 1;
    var stated := AmountAt(word, Before(content, i), content[i..]);
    if stated.Some? {
      next := i + stated.value.length;
      if !Recorded(stated.value.minor, allowed) {
        found := [content[i..][..stated.value.length]];
      }
    }
  }

  method UnsupportedAmounts(word: char -> bool, content: string, allowed: set<int>) returns (invalid: seq<string>)
    ensures invalid == Unsupported(word, None, content, allowed)
  {
    invalid := [];
    var i := 0;
    assert content[0..] == content;
    while i < |content|
      invariant i <= |content|
      invariant Unsupported(word, None, content, allowed)
             == invalid + Unsupported(word, Before(content, i), content[i..], allowed)
      decreases |content| - i
    {
      var found, next := ScanAt(word, content, i, allowed);
      Turn(word, content, i, next, allowed);
      Regrouped(invalid, found, Unsupported(word, Before(content, next), content[next..], allowed),
                Unsupported(word, Before(content, i), content[i..], allowed));
      invalid, i := invalid + found, next;
    }
  }

  lemma Regrouped<A>(a: seq<A>, b: seq<A>, c: seq<A>, bc: seq<A>)
    requires bc == b + c
    ensures a + bc == (a + b) + c
  {
  }

  lemma Onwards(content: string, i: nat, n: nat)
    requires i < i + n <= |content|
    ensures content[i..][n..] == content[i + n..] && Before(content, i + n) == Some(content[i..][n - 1])
  {
  }

  /** What is left from i on is what this turn finds, then what is left from next on. */
  lemma Turn(word: char -> bool, content: string, i: nat, next: nat, allowed: set<int>)
    requires i < |content| && next == i + Step(word, Before(content, i), content[i..])
    ensures Unsupported(word, Before(content, i), content[i..], allowed)
         == Lacking(word, Before(content, i), content[i..], allowed)
          + Unsupported(word, Before(content, next), content[next..], allowed)
  {
    Onwards(content, i, next - i);
    Unfold(word, Before(content, i), content[i..], next - i, Before(content, next), content[next..], allowed);
  }

  // ---------------------------------------------------------------- printing and reading back

  lemma {:induction false} DigitsAreDigits(n: nat)
    ensures forall i :: 0 <= i < |Digits(n)| ==> Digit(Digits(n)[i])
    decreases n
  {
    if n >= 10 { DigitsAreDigits(n / 10); }
  }

  lemma {:induction false} DigitsReadBack(n: nat)
    ensures ParseNat(Digits(n)) == n
    decreases n
  {
    var last := [(n % 10) as char + '0'];
    assert ParseNat(last) == n % 10 by { assert last[..0] == ""; }
    if n >= 10 {
      DigitsReadBack(n / 10);
      assert Digits(n)[..|Digits(n)| - 1] == Digits(n / 10);
    }
  }

  lemma {:induction false} RunExactly(kind: Kind, s: string, rest: string)
    requires (forall i :: 0 <= i < |s| ==> Fits(kind, s[i])) && (rest != "" ==> !Fits(kind, rest[0]))
    ensures Run(kind, s + rest) == |s|
  {
    if s != "" {
      assert (s + rest)[1..] == s[1..] + rest;
      RunExactly(kind, s[1..], rest);
    } else {
      assert s + rest == rest;
    }
  }

  lemma {:induction false} NoCommas(s: string)
    requires forall i :: 0 <= i < |s| ==> s[i] != ','
    ensures WithoutCommas(s) == s
  {
    if s != "" { NoCommas(s[1..]); }
  }

  function Cents(minor: nat): string {
    Digits(minor / 10 % 10) + Digits(minor % 10)
  }

  lemma CentsReadBack(minor: nat)
    ensures |Cents(minor)| == 2 && Digit(Cents(minor)[0]) && Digit(Cents(minor)[1])
    ensures ParseNat(Cents(minor)) == minor % 100
  {
    var a, b := minor / 10 % 10, minor % 10;
    LastTwo(minor);
    DigitsAreDigits(a);
    DigitsAreDigits(b);
    DigitsReadBack(a);
    assert Cents(minor)[..1] == Digits(a);
  }

  lemma LastTwo(minor: nat)
    ensures (minor / 10 % 10) * 10 + minor % 10 == minor % 100
  {
  }

  /** What is printed as yuan is read back as one number, followed by anything that is no digit. */
  lemma YuanIsOneNumber(minor: nat, rest: string)
    requires rest != "" ==> !Digit(rest[0])
    ensures NumberLength(Yuan(minor) + rest) == |Yuan(minor)|
  {
    var whole, cents := Digits(minor / 100), Cents(minor);
    DigitsAreDigits(minor / 100);
    CentsReadBack(minor);
    assert Yuan(minor) + rest == whole + ("." + (cents + rest));
    PointNumber(whole, cents, rest);
  }

  lemma PointNumber(whole: string, cents: string, rest: string)
    requires whole != "" && cents != "" && (rest != "" ==> !Digit(rest[0]))
    requires (forall i :: 0 <= i < |whole| ==> Digit(whole[i])) && forall i :: 0 <= i < |cents| ==> Digit(cents[i])
    ensures NumberLength(whole + ("." + (cents + rest))) == |whole| + 1 + |cents|
  {
    var tail := "." + (cents + rest);
    var s := whole + tail;
    RunExactly(FiguresAndCommas, whole, tail);
    assert s[|whole|..] == tail;
    assert tail[1..] == cents + rest && tail[1] == cents[0];
    RunExactly(Figures, cents, rest);
    assert s[0] == whole[0];
  }

  /** And its value is exactly the amount. */
  lemma YuanReadsBack(minor: nat)
    ensures DecimalOf(Yuan(minor)) * 100.0 == minor as real
  {
    var whole, cents := Digits(minor / 100), Cents(minor);
    DigitsAreDigits(minor / 100);
    CentsReadBack(minor);
    assert Yuan(minor) == whole + "." + cents;
    NoCommas(Yuan(minor));
    RunExactly(Figures, whole, "." + cents);
    assert whole + "." + cents == whole + ("." + cents);
    DigitsReadBack(minor / 100);
    assert Yuan(minor)[..|whole|] == whole && Yuan(minor)[|whole| + 1..] == cents;
    assert Power(2) == 100.0 by { assert Power(1) == 10.0; }
    HundredthsAddUp(minor);
  }

  lemma HundredthsAddUp(minor: nat)
    ensures ((minor / 100) as real + (minor % 100) as real / 100.0) * 100.0 == minor as real
  {
    var whole, cents := minor / 100, minor % 100;
    assert minor == 100 * whole + cents;
    assert minor as real == 100.0 * whole as real + cents as real;
  }

  const CNY := "CNY "

  function Shown(minor: nat): string {
    CNY + Yuan(minor)
  }

  lemma MarkRead(t: string)
    requires t != "" && !Space(t[0])
    ensures var s := CNY + t; CurrencyMark(true, s) == 3 && Run(Blanks, s[3..]) == 1 && s[4..] == t
  {
    var s := CNY + t;
    assert s[..3] == "CNY";
    assert s[3..] == " " + t;
    RunExactly(Blanks, " ", t);
    assert s[4..] == t;
  }

  /** t starts with this number, whose value in yuan is minor fen. */
  ghost predicate Begins(t: string, number: string, minor: real) {
    && t != "" && !Space(t[0]) && NumberLength(t) == |number| > 0 && t[..|number|] == number
    && DecimalOf(number) * 100.0 == minor
  }

  lemma MarkedIs(s: string, number: string, minor: real)
    requires |s| >= 4 && CurrencyMark(true, s) == 3 && Run(Blanks, s[3..]) == 1 && Begins(s[4..], number, minor)
    ensures MarkedAmount(true, s) == Some(Stated(4 + |number|, minor))
  {
    assert s[4..4 + |number|] == number;
  }

  /** An amount behind CNY is read with its whole number. */
  lemma MarkedIsRead(word: char -> bool, prev: Option<char>, t: string, number: string, minor: real)
    requires (prev.Some? ==> !word(prev.value)) && Begins(t, number, minor)
    ensures AmountAt(word, prev, CNY + t) == Some(Stated(4 + |number|, minor))
  {
    MarkRead(t);
    MarkedIs(CNY + t, number, minor);
  }

  lemma MarkedUnsupported(word: char -> bool, prev: Option<char>, t: string, number: string, minor: real,
                          allowed: set<int>)
    requires (prev.Some? ==> !word(prev.value)) && Begins(t, number, minor)
    ensures Unsupported(word, prev, CNY + t, allowed)
            == (if Recorded(minor, allowed) then [] else [CNY + number])
              + Unsupported(word, Some(number[|number| - 1]), t[|number|..], allowed)
  {
    MarkedIsRead(word, prev, t, number, minor);
    MarkSlices(t, number);
    Unfold(word, prev, CNY + t, 4 + |number|, Some(number[|number| - 1]), t[|number|..], allowed);
  }

  lemma MarkSlices(t: string, number: string)
    requires 0 < |number| <= |t| && t[..|number|] == number
    ensures var s, n := CNY + t, 4 + |number|;
      s[..n] == CNY + number && s[n..] == t[|number|..] && (CNY + number)[n - 1] == number[|number| - 1]
  {
  }

  lemma YuanBegins(minor: nat, rest: string)
    requires rest != "" ==> !Digit(rest[0])
    ensures Begins(Yuan(minor) + rest, Yuan(minor), minor as real) && (Yuan(minor) + rest)[|Yuan(minor)|..] == rest
  {
    DigitsAreDigits(minor / 100);
    YuanIsOneNumber(minor, rest);
    YuanReadsBack(minor);
  }

  const SEPARATOR := "; "

  /** Amounts as an answer lists them. */
  function Listing(amounts: seq<nat>): string {
    if amounts == [] then "" else CNY + (Yuan(amounts[0]) + (SEPARATOR + Listing(amounts[1..])))
  }

  predicate Silent(c: char) {
    c !in {'¥', '￥', 'C', 'R', '-'} && !Digit(c)
  }

  lemma StartsAlike(s: string, prefix: string)
    requires prefix != ""
    ensures StartsWith(s, prefix) ==> s != "" && s[0] == prefix[0]
  {
  }

  lemma SilentHasNoAmount(word: char -> bool, prev: Option<char>, s: string)
    requires s != "" && Silent(s[0])
    ensures AmountAt(word, prev, s).None?
  {
    StartsAlike(s, "CNY");
    StartsAlike(s, "RMB");
    assert s[0..] == s;
  }

  lemma SilentStep(word: char -> bool, prev: Option<char>, s: string, allowed: set<int>)
    requires s != "" && Silent(s[0])
    ensures Step(word, prev, s) == 1 && Lacking(word, prev, s, allowed) == []
  {
    SilentHasNoAmount(word, prev, s);
  }

  lemma NothingSilent(word: char -> bool, prev: Option<char>, s: string, rest: string, allowed: set<int>)
    requires s != "" && Silent(s[0]) && rest == s[1..]
    ensures Unsupported(word, prev, s, allowed) == Unsupported(word, Some(s[0]), rest, allowed)
  {
    SilentStep(word, prev, s, allowed);
    Unfold(word, prev, s, 1, Some(s[0]), rest, allowed);
  }

  lemma NoAmountInSeparator(word: char -> bool, prev: Option<char>, rest: string, allowed: set<int>)
    ensures Unsupported(word, prev, SEPARATOR + rest, allowed) == Unsupported(word, Some(' '), rest, allowed)
  {
    assert (SEPARATOR + rest)[1..] == " " + rest && (" " + rest)[1..] == rest;
    NothingSilent(word, prev, SEPARATOR + rest, " " + rest, allowed);
    NothingSilent(word, Some(';'), " " + rest, rest, allowed);
  }

  function Unrecorded(allowed: set<int>): nat -> bool {
    (m: nat) => m !in allowed
  }

  lemma RecordedExactly(minor: nat, allowed: set<int>)
    ensures Recorded(minor as real, allowed) <==> minor in allowed
  {
    if Recorded(minor as real, allowed) {
      var m: int :| m in allowed && m as real == minor as real;
      assert m == minor;
    }
  }

  /** A text listing displayed amounts is grounded exactly in the records that have them: what is
      reported as unsupported are the unrecorded amounts, as displayed, in order. */
  lemma {:induction false} ListingIsGrounded(word: char -> bool, prev: Option<char>, amounts: seq<nat>,
                                             allowed: set<int>)
    requires (prev.Some? ==> !word(prev.value)) && !word(' ')
    ensures Unsupported(word, prev, Listing(amounts), allowed) == Map(Shown, Filter(Unrecorded(allowed), amounts))
    decreases amounts
  {
    if amounts != [] {
      ListingIsGrounded(word, Some(' '), amounts[1..], allowed);
      FirstOfListing(word, prev, amounts[0], Listing(amounts[1..]), allowed);
    }
  }

  lemma FirstOfListing(word: char -> bool, prev: Option<char>, minor: nat, rest: string, allowed: set<int>)
    requires prev.Some? ==> !word(prev.value)
    ensures Unsupported(word, prev, CNY + (Yuan(minor) + (SEPARATOR + rest)), allowed)
            == (if minor in allowed then [] else [Shown(minor)]) + Unsupported(word, Some(' '), rest, allowed)
  {
    YuanBegins(minor, SEPARATOR + rest);
    MarkedUnsupported(word, prev, Yuan(minor) + (SEPARATOR + rest), Yuan(minor), minor as real, allowed);
    NoAmountInSeparator(word, Some(Yuan(minor)[|Yuan(minor)| - 1]), rest, allowed);
    RecordedExactly(minor, allowed);
  }

  /** Every nonnegative amount, printed as yuan behind CNY, is read back as that amount. */
  lemma DisplayedAmountIsGrounded(word: char -> bool, minor: nat, allowed: set<int>)
    ensures Unsupported(word, None, Shown(minor), allowed) == if minor in allowed then [] else [Shown(minor)]
  {
    YuanBegins(minor, "");
    assert Yuan(minor) + "" == Yuan(minor);
    MarkedUnsupported(word, None, Yuan(minor), Yuan(minor), minor as real, allowed);
    RecordedExactly(minor, allowed);
  }
}
