/** The numeric-literal pattern `^-?\d+(\.\d+)?$` that the catalog returns for
    number attributes. `Matches` is a scanner (a deterministic automaton
    for this pattern); `NumericLiteral` reads the pattern piece by
    piece. `MatchesIffNumericLiteral` proves the two agree on every string. */
module NumericPattern {

  /** `\d`: an ASCII digit. */
  predicate IsDigit(c: char) {
    '0' <= c <= '9'
  }

  predicate AllDigits(s: string) {
    forall i :: 0 <= i < |s| ==> IsDigit(s[i])
  }

  /** `\d+` */
  predicate DigitRun(s: string) {
    |s| > 0 && AllDigits(s)
  }

  /** `\d+(\.\d+)?`: digits, optionally followed by a point and more digits. */
  ghost predicate Unsigned(u: string) {
    || DigitRun(u)
    || exists k :: 0 < k < |u| && u[k] == '.' && DigitRun(u[..k]) && DigitRun(u[k + 1..])
  }

  /** `^-?\d+(\.\d+)?$`: an optional minus sign, then an unsigned literal,
      anchored at both ends (no `m` flag, so `$` is the end of the string). */
  ghost predicate NumericLiteral(s: string) {
    if |s| > 0 && s[0] == '-' then Unsigned(s[1..]) else Unsigned(s)
  }

  /** The states of the scanner: nothing read, the sign read, in the whole
      part, just after the point, in the fraction, and failed. */
  datatype Scanner = Start | Signed | Whole | Point | Fraction | Rejected

  function Step(q: Scanner, c: char): Scanner {
    match q
    case Start => if c == '-' then Signed else if IsDigit(c) then Whole else Rejected
    case Signed => if IsDigit(c) then Whole else Rejected
    case Whole => if IsDigit(c) then Whole else if c == '.' then Point else Rejected
    case Point => if IsDigit(c) then Fraction else Rejected
    case Fraction => if IsDigit(c) then Fraction else Rejected
    case Rejected => Rejected
  }

  function Run(q: Scanner, s: string): Scanner
    decreases |s|
  {
    if |s| == 0 then q else Run(Step(q, s[0]), s[1..])
  }

  predicate Accepting(q: Scanner) {
    q == Whole || q == Fraction
  }

  /** The pattern's `test`: does the whole string match? */
  predicate Matches(s: string) {
    Accepting(Run(Start, s))
  }

  // ---------------------------------------------------------------------------
  // The scanner accepts exactly the strings the pattern describes.

  lemma AllDigitsCons(s: string)
    requires |s| > 0
    ensures AllDigits(s) <==> IsDigit(s[0]) && AllDigits(s[1..])
  {
  }

  lemma {:induction false} RunRejected(s: string)
    ensures Run(Rejected, s) == Rejected
    decreases |s|
  {
    if |s| > 0 {
      RunRejected(s[1..]);
    }
  }

  lemma {:induction false} RunFraction(s: string)
    ensures Run(Fraction, s) == if AllDigits(s) then Fraction else Rejected
    decreases |s|
  {
    if |s| > 0 {
      AllDigitsCons(s);
      if IsDigit(s[0]) {
        RunFraction(s[1..]);
      } else {
        RunRejected(s[1..]);
      }
    }
  }

  lemma RunPoint(s: string)
    ensures Accepting(Run(Point, s)) <==> DigitRun(s)
  {
    if |s| > 0 {
      AllDigitsCons(s);
      if IsDigit(s[0]) {
        RunFraction(s[1..]);
      } else {
        RunRejected(s[1..]);
      }
    }
  }

  /** What may follow the first digit of an unsigned literal: `\d*(\.\d+)?`. */
  ghost predicate WholeTail(t: string) {
    || AllDigits(t)
    || exists k :: 0 <= k < |t| && t[k] == '.' && AllDigits(t[..k]) && DigitRun(t[k + 1..])
  }

  lemma WholeTailCons(t: string)
    requires |t| > 0 && IsDigit(t[0])
    ensures WholeTail(t) <==> WholeTail(t[1..])
  {
    AllDigitsCons(t);
    var u := t[1..];
    if exists k :: 0 <= k < |t| && t[k] == '.' && AllDigits(t[..k]) && DigitRun(t[k + 1..]) {
      var k :| 0 <= k < |t| && t[k] == '.' && AllDigits(t[..k]) && DigitRun(t[k + 1..]);
      assert k > 0;
      AllDigitsCons(t[..k]);
      assert t[..k][1..] == u[..k - 1];
      assert t[k + 1..] == u[k..];
      assert u[k - 1] == '.';
    }
    if exists k :: 0 <= k < |u| && u[k] == '.' && AllDigits(u[..k]) && DigitRun(u[k + 1..]) {
      var k :| 0 <= k < |u| && u[k] == '.' && AllDigits(u[..k]) && DigitRun(u[k + 1..]);
      AllDigitsCons(t[..k + 1]);
      assert t[..k + 1][1..] == u[..k];
      assert t[k + 2..] == u[k + 1..];
      assert t[k + 1] == '.';
    }
  }

  /** A tail that starts with neither a digit nor a point is no tail, unless empty. */
  lemma WholeTailOther(t: string)
    requires |t| > 0 && !IsDigit(t[0]) && t[0] != '.'
    ensures !WholeTail(t)
  {
  }

  /** After a point, the tail is complete exactly when a digit run follows. */
  lemma WholeTailPoint(t: string)
    requires |t| > 0 && t[0] == '.'
    ensures WholeTail(t) <==> DigitRun(t[1..])
  {
  }

  lemma {:induction false} RunWhole(t: string)
    ensures Accepting(Run(Whole, t)) <==> WholeTail(t)
    decreases |t|
  {
    if |t| > 0 {
      if IsDigit(t[0]) {
        RunWhole(t[1..]);
        WholeTailCons(t);
      } else if t[0] == '.' {
        RunPoint(t[1..]);
        WholeTailPoint(t);
      } else {
        RunRejected(t[1..]);
        WholeTailOther(t);
      }
    }
  }

  lemma UnsignedStartsWithDigit(u: string)
    ensures Unsigned(u) ==> |u| > 0 && IsDigit(u[0])
  {
  }

  lemma UnsignedAsWholeTail(u: string)
    requires |u| > 0 && IsDigit(u[0])
    ensures Unsigned(u) <==> WholeTail(u[1..])
  {
    WholeTailCons(u);
    if WholeTail(u) && !AllDigits(u) {
      var k :| 0 <= k < |u| && u[k] == '.' && AllDigits(u[..k]) && DigitRun(u[k + 1..]);
      assert k > 0;
      assert 0 < k < |u| && u[k] == '.' && DigitRun(u[..k]) && DigitRun(u[k + 1..]);
    }
  }

  lemma RunSigned(u: string)
    ensures Accepting(Run(Signed, u)) <==> Unsigned(u)
  {
    UnsignedStartsWithDigit(u);
    if |u| > 0 {
      if IsDigit(u[0]) {
        RunWhole(u[1..]);
        UnsignedAsWholeTail(u);
      } else {
        RunRejected(u[1..]);
      }
    }
  }

  /** The scanner and the reading of the pattern agree on every string. */
  lemma MatchesIffNumericLiteral(s: string)
    ensures Matches(s) <==> NumericLiteral(s)
  {
    UnsignedStartsWithDigit(s);
    if |s| > 0 {
      if s[0] == '-' {
        RunSigned(s[1..]);
      } else if IsDigit(s[0]) {
        RunWhole(s[1..]);
        UnsignedAsWholeTail(s);
      } else {
        RunRejected(s[1..]);
      }
    }
  }

  /** Strings the pattern accepts and rejects. */
  lemma NumericLiteralExamples()
    ensures NumericLiteral("10") && NumericLiteral("-3") && NumericLiteral("4.5")
    ensures NumericLiteral("12.5") && NumericLiteral("-0.25")
    ensures !NumericLiteral("") && !NumericLiteral("-") && !NumericLiteral("1.")
    ensures !NumericLiteral(".5") && !NumericLiteral("+1") && !NumericLiteral("abc")
    ensures !NumericLiteral("1.2.3") && !NumericLiteral("--1") && !NumericLiteral(" 1")
  {
    MatchesIffNumericLiteral("10");
    MatchesIffNumericLiteral("-3");
    MatchesIffNumericLiteral("4.5");
    MatchesIffNumericLiteral("12.5");
    MatchesIffNumericLiteral("-0.25");
    MatchesIffNumericLiteral("");
    MatchesIffNumericLiteral("-");
    MatchesIffNumericLiteral("1.");
    MatchesIffNumericLiteral(".5");
    MatchesIffNumericLiteral("+1");
    MatchesIffNumericLiteral("abc");
    MatchesIffNumericLiteral("1.2.3");
    MatchesIffNumericLiteral("--1");
    MatchesIffNumericLiteral(" 1");
  }
}
