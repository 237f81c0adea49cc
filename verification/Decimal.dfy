/** The shell script's arithmetic on unbounded decimal strings. */
module Decimal {
  import opened Text

  datatype Fault = Underflow

  predicate Digits(s: string) {
    forall i :: 0 <= i < |s| ==> '0' <= s[i] <= '9'
  }

  predicate Number(s: string) {
    s != "" && Digits(s)
  }

  predicate Canonical(s: string) {
    Number(s) && (|s| > 1 ==> s[0] != '0')
  }

  function Digit(c: char): nat
    requires '0' <= c <= '9'
  {
    (c - '0') as int
  }

  function DigitChar(d: nat): char
    requires d < 10
  {
    '0' + d as char
  }

  function Value(s: string): nat
    requires Digits(s)
  {
    if s == "" then 0 else 10 * Value(s[..|s| - 1]) + Digit(s[|s| - 1])
  }

  /** `v` moved `n` decimal places up. */
  function Shift(v: int, n: nat): int {
    if n == 0 then v else 10 * Shift(v, n - 1)
  }

  /** `>` inside `[[ ]]`, on strings of ASCII digits. */
  predicate LexGreater(a: string, b: string) {
    if b == "" then a != ""
    else if a == "" then false
    else a[0] > b[0] || (a[0] == b[0] && LexGreater(a[1..], b[1..]))
  }

  // ----- the value of a digit string

  lemma {:induction false} ShiftAdd(u: int, v: int, n: nat)
    ensures Shift(u + v, n) == Shift(u, n) + Shift(v, n)
  {
    if n > 0 {
      ShiftAdd(u, v, n - 1);
    }
  }

  lemma {:induction false} ShiftMonotone(u: int, v: int, n: nat)
    requires u <= v
    ensures Shift(u, n) <= Shift(v, n)
  {
    if n > 0 {
      ShiftMonotone(u, v, n - 1);
    }
  }

  lemma {:induction false} ShiftOfOne(m: nat, n: nat)
    requires m <= n
    ensures 0 < Shift(1, m) <= Shift(1, n)
    ensures Shift(0, n) == 0
  {
    if n > 0 {
      ShiftOfOne(if m < n then m else n - 1, n - 1);
    }
  }

  /** Place value orders numbers: a larger digit outweighs everything below it. */
  lemma Outweighs(u: int, v: int, low: int, n: nat)
    requires u < v && low < Shift(1, n)
    ensures Shift(u, n) + low < Shift(v, n)
  {
    ShiftAdd(u, 1, n);
    ShiftMonotone(u + 1, v, n);
  }

  lemma {:induction false} ValueSplit(a: string, b: string)
    requires Digits(a) && Digits(b)
    ensures Digits(a + b)
    ensures Value(a + b) == Shift(Value(a), |b|) + Value(b)
  {
    if b == "" {
      assert a + b == a;
    } else {
      var b' := b[..|b| - 1];
      ValueSplit(a, b');
      assert (a + b)[..|a + b| - 1] == a + b';
    }
  }

  lemma {:induction false} ValueBound(s: string)
    requires Digits(s)
    ensures Value(s) < Shift(1, |s|)
  {
    if s != "" {
      ValueBound(s[..|s| - 1]);
    }
  }

  lemma ValueHead(s: string)
    requires Number(s)
    ensures Value(s) == Shift(Digit(s[0]), |s| - 1) + Value(s[1..])
  {
    assert s == s[..1] + s[1..];
    ValueSplit(s[..1], s[1..]);
    assert s[..1][..0] == "";
    assert Value(s[..1]) == Digit(s[0]);
  }

  lemma LeadingZero(s: string)
    requires Number(s) && s[0] == '0'
    ensures Value(s) == Value(s[1..])
  {
    ValueHead(s);
    ShiftOfOne(0, |s| - 1);
  }

  /** Without leading zeros, the longer number is the larger one. */
  lemma LongerIsLarger(a: string, b: string)
    requires Number(a) && Number(b) && a[0] != '0' && |a| > |b|
    ensures Value(a) > Value(b)
  {
    ValueHead(a);
    ValueBound(b);
    ShiftOfOne(|b|, |a| - 1);
    ShiftMonotone(1, Digit(a[0]), |a| - 1);
  }

  /** The first digits decide, unless they are equal. */
  lemma HeadDecides(a: string, b: string)
    requires Number(a) && Number(b) && |a| == |b|
    ensures a[0] > b[0] ==> Value(a) > Value(b)
    ensures a[0] == b[0] ==> Value(a) - Value(b) == Value(a[1..]) - Value(b[1..])
  {
    ValueHead(a);
    ValueHead(b);
    ValueBound(b[1..]);
    if a[0] > b[0] {
      Outweighs(Digit(b[0]), Digit(a[0]), Value(b[1..]), |a| - 1);
    }
  }

  /** At equal length, lexicographic and numeric order agree. */
  lemma {:induction false} LexIsNumeric(a: string, b: string)
    requires Digits(a) && Digits(b) && |a| == |b|
    ensures LexGreater(a, b) <==> Value(a) > Value(b)
    ensures a == b <==> Value(a) == Value(b)
  {
    if a != "" {
      LexIsNumeric(a[1..], b[1..]);
      HeadDecides(a, b);
      HeadDecides(b, a);
      if a[0] == b[0] {
        assert a == [a[0]] + a[1..] && b == [b[0]] + b[1..];
      }
    }
  }

  // ----- the shell functions

  /** The loop that strips leading zeros but keeps the last digit. */
  method StripZeros(s: string) returns (r: string)
    requires Number(s)
    ensures Canonical(r) && Value(r) == Value(s)
  {
    r := s;
    while |r| > 1 && r[0] == '0'
      invariant Number(r) && Value(r) == Value(s)
      decreases |r|
    {
      LeadingZero(r);
      r := r[1..];
    }
  }

  method DecimalGe(left: string, right: string) returns (ge: bool)
    requires Number(left) && Number(right)
    ensures ge <==> Value(left) >= Value(right)
  {
    var l := StripZeros(left);
    var r := StripZeros(right);
    if |l| != |r| {
      if |l| > |r| {
        LongerIsLarger(l, r);
      } else {
        LongerIsLarger(r, l);
      }
      return |l| > |r|;
    }
    LexIsNumeric(l, r);
    return l == r || LexGreater(l, r);
  }

  /** The leading digits of `right` that line up with a digit of `left`. */
  function Reached(left: string, right: string): string {
    if |right| > |left| then right[..|left|] else right
  }

  method PadZeros(s: string, width: nat) returns (r: string)
    requires Number(s)
    ensures Number(r) && Value(r) == Value(s)
    ensures |r| == if |s| < width then width else |s|
    ensures |s| >= width ==> r == s
  {
    r := s;
    while |r| < width
      invariant Number(r) && Value(r) == Value(s)
      invariant r == s || |s| < |r| <= width
      decreases width - |r|
    {
      LeadingZero("0" + r);
      assert ("0" + r)[1..] == r;
      r := "0" + r;
    }
  }

  /**
   * The column loop. Digit `i` of `left` meets digit `i` of `right`, counted from the front,
   * so digits of `right` past the length of `left` are never read.
   */
  method SubtractColumns(left: string, right: string) returns (out: string, borrow: nat)
    requires Number(left) && Number(right) && |left| <= |right|
    ensures Number(out) && |out| == |left| && borrow <= 1
    ensures Value(out) - Shift(borrow, |left|) == Value(left) - Value(right[..|left|])
  {
    ghost var used := right[..|left|];
    var i := |left|;
    borrow, out := 0, "";
    while i > 0
      invariant 0 <= i <= |left| && |out| == |left| - i
      invariant Digits(out) && 0 <= borrow <= 1
      invariant Value(out) - Shift(borrow, |out|) == Value(left[i..]) - Value(used[i..])
    {
      i := i - 1;
      var digit := Digit(left[i]) - Digit(right[i]) - borrow;
      ghost var before := borrow;
      if digit < 0 {
        digit, borrow := digit + 10, 1;
      } else {
        borrow := 0;
      }
      Prepend(out, digit, left, used, i, before, borrow);
      out := [DigitChar(digit)] + out;
    }
    assert left[0..] == left && used[0..] == used;
  }

  lemma Prepend(out: string, digit: nat, left: string, used: string, i: nat, before: nat, after: nat)
    requires Digits(out) && Number(left) && Number(used) && |left| == |used|
    requires i < |left| && |out| == |left| - i - 1
    requires digit < 10 && digit - 10 * after == Digit(left[i]) - Digit(used[i]) - before
    requires Value(out) - Shift(before, |out|) == Value(left[i + 1..]) - Value(used[i + 1..])
    ensures Digits([DigitChar(digit)] + out)
    ensures Value([DigitChar(digit)] + out) - Shift(after, |out| + 1) == Value(left[i..]) - Value(used[i..])
  {
    ValuePrepend(digit, out);
    ValueFrom(left, i);
    ValueFrom(used, i);
    Column(Digit(left[i]), Digit(used[i]), before, digit, after, |out|);
  }

  lemma ValuePrepend(digit: nat, s: string)
    requires digit < 10 && Digits(s)
    ensures Digits([DigitChar(digit)] + s)
    ensures Value([DigitChar(digit)] + s) == Shift(digit, |s|) + Value(s)
  {
    var next := [DigitChar(digit)] + s;
    assert next[0] == DigitChar(digit) && Digit(next[0]) == digit && next[1..] == s;
    assert Digits(next) by {
      assert forall i :: 1 <= i < |next| ==> next[i] == s[i - 1];
    }
    ValueHead(next);
  }

  lemma ValueFrom(s: string, i: nat)
    requires Digits(s) && i < |s|
    ensures Value(s[i..]) == Shift(Digit(s[i]), |s| - i - 1) + Value(s[i + 1..])
  {
    ValueHead(s[i..]);
    assert s[i..][1..] == s[i + 1..];
  }

  /**
   * An overhanging `right` loses its last digits, because it is padded to the length of `left`
   * but never stripped to it.
   */
  method DecimalSubtract(left: string, right: string) returns (r: Result<string, Fault>)
    requires Number(left) && Number(right)
    ensures r.Err? <==> Value(left) < Value(right)
    ensures r.Ok? ==> Canonical(r.value)
    ensures r.Ok? ==> Value(r.value) == Value(left) - Value(Reached(left, right))
  {
    var ge := DecimalGe(left, right);
    if !ge {
      return Err(Underflow);
    }
    var padded := PadZeros(right, |left|);
    var out, borrow := SubtractColumns(left, padded);
    ExactWhen(left, right);
    assert padded[..|left|] == if |right| > |left| then Reached(left, right) else padded;
    NoBorrow(out, borrow, Value(left) - Value(Reached(left, right)));
    var stripped := StripZeros(out);
    return Ok(stripped);
  }

  /** A difference that is not negative leaves no borrow. */
  lemma NoBorrow(out: string, borrow: nat, difference: nat)
    requires Digits(out) && borrow <= 1 && Value(out) - Shift(borrow, |out|) == difference
    ensures borrow == 0 && Value(out) == difference
  {
    ValueBound(out);
    ShiftOfOne(0, |out|);
  }

  /** One column of the subtraction, `n` places up: digit minus new borrow is what was asked. */
  lemma Column(l: int, r: int, before: int, digit: int, after: int, n: nat)
    requires digit - 10 * after == l - r - before
    ensures Shift(digit, n) - Shift(after, n + 1) == Shift(l, n) - Shift(r, n) - Shift(before, n)
  {
    ShiftAdd(digit, r + before, n);
    ShiftAdd(r, before, n);
    ShiftAdd(l, 10 * after, n);
    ShiftTen(after, n);
  }

  lemma {:induction false} ShiftTen(v: int, n: nat)
    ensures Shift(10 * v, n) == Shift(v, n + 1)
  {
    if n > 0 {
      ShiftTen(v, n - 1);
    }
  }

  // ----- when the difference is exact

  predicate SubtractsExactly(left: string, right: string)
    requires Digits(right)
  {
    |right| <= |left| || Value(right) == 0
  }

  /** The whole of `right` is subtracted exactly when no significant digit of it overhangs. */
  lemma ExactWhen(left: string, right: string)
    requires Number(left) && Number(right)
    ensures Value(Reached(left, right)) <= Value(right)
    ensures Value(Reached(left, right)) == Value(right) <==> SubtractsExactly(left, right)
  {
    var head := Reached(left, right);
    var tail := right[|head|..];
    assert right == head + tail;
    ValueSplit(head, tail);
    ShiftGrows(Value(head), |tail|);
  }

  lemma {:induction false} ShiftGrows(v: nat, n: nat)
    ensures Shift(v, n) >= v
    ensures v > 0 && n > 0 ==> Shift(v, n) > v
  {
    if n > 0 {
      ShiftGrows(v, n - 1);
    }
  }

  /** A canonical `right` no larger than `left` never overhangs with significant digits. */
  lemma CanonicalIsExact(left: string, right: string)
    requires Number(left) && Canonical(right) && Value(left) >= Value(right)
    ensures SubtractsExactly(left, right)
  {
    if |right| > |left| {
      LongerIsLarger(right, left);
    }
  }

  /** The known bad case: an uncanonical balance longer than the target. */
  lemma UncanonicalCounterexample()
    ensures Number("5") && Number("03") && Value("5") >= Value("03")
    ensures Value("5") - Value(Reached("5", "03")) == 5
    ensures Value("5") - Value("03") == 2
  {
    assert "5"[..0] == "" && "03"[..1] == "0" && "0"[..0] == "";
    assert Value("0") == 0 && Value("03") == 3;
    assert Reached("5", "03") == "0";
  }

  /**
   * The funding decision of `fund_owner`. Nothing is sent when the balance suffices;
   * otherwise the top-up never leaves the owner short, and is exact under the stated condition.
   */
  method TopUp(current: string, target: string) returns (topUp: Option<string>)
    requires Number(current) && Number(target)
    ensures topUp.None? <==> Value(current) >= Value(target)
    ensures topUp.Some? ==> Canonical(topUp.value)
    ensures topUp.Some? ==> Value(topUp.value) + Value(current) >= Value(target)
    ensures topUp.Some? ==>
      (Value(topUp.value) + Value(current) == Value(target) <==> SubtractsExactly(target, current))
    ensures topUp.Some? && Canonical(current) ==> Value(topUp.value) + Value(current) == Value(target)
  {
    var enough := DecimalGe(current, target);
    if enough {
      return None;
    }
    var difference := DecimalSubtract(target, current);
    ExactWhen(target, current);
    if Canonical(current) {
      CanonicalIsExact(target, current);
    }
    return Some(difference.value);
  }
}
