/**
  The string operations the application applies to user input and to keys:
  Python's `str.strip()`, the `lower()` comparison against the two session
  commands, and the decimal rendering of a task number.
 */
module Text {

  /** Python's `str.isspace()` for one character: the Unicode whitespace
      code points (bidirectional classes WS, B, S and category Zs). */
  predicate IsSpace(c: char) {
    || c == ' '
    || ('\t' <= c <= '\r')
    || ('\U{1C}' <= c <= '\U{1F}')
    || c == '\U{85}'
    || c == '\U{A0}'
    || c == '\U{1680}'
    || ('\U{2000}' <= c <= '\U{200A}')
    || c == '\U{2028}'
    || c == '\U{2029}'
    || c == '\U{202F}'
    || c == '\U{205F}'
    || c == '\U{3000}'
  }

  /** A string that `strip()` turns into the empty string. */
  predicate IsBlank(s: string) {
    forall i :: 0 <= i < |s| ==> IsSpace(s[i])
  }

  /** The number of whitespace characters at the start of `s`. */
  function LeadCount(s: string): (n: nat)
    ensures n <= |s|
    ensures forall i :: 0 <= i < n ==> IsSpace(s[i])
    ensures n < |s| ==> !IsSpace(s[n])
  {
    if s != [] && IsSpace(s[0]) then 1 + LeadCount(s[1..]) else 0
  }

  /** `s` without its leading whitespace. */
  function StripLeft(s: string): (r: string)
    ensures r == s[LeadCount(s)..]
  {
    s[LeadCount(s)..]
  }

  /** `s` without its trailing whitespace. */
  function StripRight(s: string): (r: string)
    ensures |r| <= |s| && r == s[..|r|]
    ensures forall i :: |r| <= i < |s| ==> IsSpace(s[i])
    ensures r == [] || !IsSpace(r[|r| - 1])
  {
    if s != [] && IsSpace(s[|s| - 1]) then StripRight(s[..|s| - 1]) else s
  }

  /** Python's `s.strip()`: the infix of `s` that starts after its leading
      whitespace and ends before its trailing whitespace. */
  function Strip(s: string): (r: string)
    ensures LeadCount(s) + |r| <= |s|
    ensures r == s[LeadCount(s)..LeadCount(s) + |r|]
    ensures forall i :: LeadCount(s) + |r| <= i < |s| ==> IsSpace(s[i])
    ensures r == [] || (!IsSpace(r[0]) && !IsSpace(r[|r| - 1]))
  {
    StripRight(StripLeft(s))
  }

  /** `strip()` yields the empty string exactly for the blank strings. */
  lemma StripEmptyIffBlank(s: string)
    ensures Strip(s) == [] <==> IsBlank(s)
  {
    if Strip(s) == [] {
      forall i | 0 <= i < |s| ensures IsSpace(s[i]) {
        if i >= LeadCount(s) {
          assert LeadCount(s) + |Strip(s)| <= i;
        }
      }
    } else {
      var k := LeadCount(s);
      assert s[k] == Strip(s)[0];
    }
  }

  /** Stripping twice is stripping once. */
  lemma StripIdempotent(s: string)
    ensures Strip(Strip(s)) == Strip(s)
  {
    var r := Strip(s);
    if r != [] {
      assert LeadCount(r) == 0;
      assert StripLeft(r) == r;
      assert StripRight(r) == r;
    }
  }

  /** ASCII case folding of one character. */
  function LowerChar(c: char): char {
    if 'A' <= c <= 'Z' then (c as int + 32) as char else c
  }

  /** Case folding of a string. Python's `lower()` also folds non-ASCII
      letters; none of those folds to a plain ASCII letter of "start" or
      "continue", so the command test below is unaffected. */
  function Lower(s: string): (r: string)
    ensures |r| == |s|
    ensures forall i :: 0 <= i < |s| ==> r[i] == LowerChar(s[i])
  {
    seq(|s|, i requires 0 <= i < |s| => LowerChar(s[i]))
  }

  /** `user_msg.lower() in ["start", "continue"]`. */
  predicate IsSessionCommand(s: string) {
    Lower(s) == "start" || Lower(s) == "continue"
  }

  /** The command test ignores letter case: it accepts a string exactly when
      it accepts the folded string. */
  lemma SessionCommandIgnoresCase(s: string)
    ensures IsSessionCommand(s) <==> IsSessionCommand(Lower(s))
  {
    assert Lower(Lower(s)) == Lower(s);
  }

  /** Which inputs count as a session command: exactly the strings that
      spell "start" or "continue" letter by letter once each letter is
      folded, so "Start" and "CONTINUE" count and " start" does not. */
  lemma SessionCommandSpelling(s: string)
    ensures IsSessionCommand(s) <==>
              || (|s| == 5 && forall i :: 0 <= i < 5 ==> LowerChar(s[i]) == "start"[i])
              || (|s| == 8 && forall i :: 0 <= i < 8 ==> LowerChar(s[i]) == "continue"[i])
  {
    var l := Lower(s);
    if |s| == 5 && forall i :: 0 <= i < 5 ==> LowerChar(s[i]) == "start"[i] {
      assert l == "start";
    }
    if |s| == 8 && forall i :: 0 <= i < 8 ==> LowerChar(s[i]) == "continue"[i] {
      assert l == "continue";
    }
  }

  predicate IsDigit(c: char) {
    '0' <= c <= '9'
  }

  function DigitChar(d: nat): (c: char)
    requires d < 10
    ensures IsDigit(c)
  {
    ('0' as int + d) as char
  }

  /** The decimal rendering of `n`, as Python's `f"{n}"` writes it. */
  function Decimal(n: nat): (r: string)
    ensures |r| >= 1
    ensures forall i :: 0 <= i < |r| ==> IsDigit(r[i])
    ensures n < 10 <==> |r| == 1
  {
    if n < 10 then [DigitChar(n)] else Decimal(n / 10) + [DigitChar(n % 10)]
  }

  /** Different numbers have different renderings. */
  lemma {:induction false} DecimalInjective(a: nat, b: nat)
    requires Decimal(a) == Decimal(b)
    ensures a == b
  {
    if a >= 10 && b >= 10 {
      var da, db := Decimal(a), Decimal(b);
      assert da[|da| - 1] == db[|db| - 1];
      assert DigitChar(a % 10) == DigitChar(b % 10);
      assert Decimal(a / 10) == da[..|da| - 1] == db[..|db| - 1] == Decimal(b / 10);
      DecimalInjective(a / 10, b / 10);
    } else if a < 10 && b < 10 {
      assert DigitChar(a) == DigitChar(b);
    }
  }
}
