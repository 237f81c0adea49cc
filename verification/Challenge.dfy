/** The challenge text that an owner signs, and its decoder. */
module Challenge {
  import opened Text
  import opened Decimal

  const HEAD := "svpchain-mcp-auth-v1"
  const PREFIX := HEAD + ":"

  datatype Parsed = Parsed(chainId: string, nonceHex: string, expiresAt: int)

  datatype ParseError = NoPrefix | Malformed | BadTime | NoChainId | NoNonce

  predicate Int64(n: int) {
    -0x8000_0000_0000_0000 <= n < 0x8000_0000_0000_0000
  }

  // ----- strconv and fmt

  function FormatNat(n: nat): string {
    if n < 10 then [DigitChar(n)] else FormatNat(n / 10) + [DigitChar(n % 10)]
  }

  /** The verb %d. */
  function FormatInt(n: int): string {
    if n < 0 then "-" + FormatNat(-n) else FormatNat(n)
  }

  /** strconv.ParseInt in base 10 at 64 bits. */
  function ParseInt(s: string): Option<int> {
    if s == "" then None
    else
      var digits := if s[0] == '+' || s[0] == '-' then s[1..] else s;
      if digits == "" || !Digits(digits) then None
      else
        var n := if s[0] == '-' then 0 - Value(digits) else Value(digits);
        if Int64(n) then Some(n) else None
  }

  /** strings.SplitN with separator ':'. */
  function SplitN(s: string, n: nat): (parts: seq<string>)
    requires n >= 1
    ensures 1 <= |parts| <= n
  {
    if n == 1 || ':' !in s then [s]
    else
      var i := FirstColon(s);
      [s[..i]] + SplitN(s[i + 1..], n - 1)
  }

  function FirstColon(s: string): (i: nat)
    requires ':' in s
    ensures i < |s| && s[i] == ':' && forall j :: 0 <= j < i ==> s[j] != ':'
  {
    if s[0] == ':' then 0
    else
      FirstColon(s[1..]) + 1
  }

  // ----- the protocol functions

  function BuildChallenge(chainId: string, nonceHex: string, expiresAt: int): string {
    Colon(HEAD, Colon(chainId, Colon(nonceHex, FormatInt(expiresAt))))
  }

  function Colon(a: string, b: string): string {
    a + ":" + b
  }

  function ParseChallenge(text: string): Result<Parsed, ParseError> {
    if !HasPrefix(text, PREFIX) then Err(NoPrefix)
    else
      var parts := SplitN(text, 4);
      if |parts| != 4 then Err(Malformed)
      else
        var expires := ParseInt(parts[3]);
        if expires.None? then Err(BadTime)
        else if parts[1] == "" then Err(NoChainId)
        else if parts[2] == "" then Err(NoNonce)
        else Ok(Parsed(parts[1], parts[2], expires.value))
  }

  // ----- decimal text

  lemma {:induction false} FormatNatCanonical(n: nat)
    ensures Canonical(FormatNat(n)) && Value(FormatNat(n)) == n
    ensures FormatNat(n)[0] == '0' <==> n == 0
  {
    var s := FormatNat(n);
    assert s[..|s| - 1] == if n < 10 then "" else FormatNat(n / 10);
    if n >= 10 {
      FormatNatCanonical(n / 10);
    }
  }

  lemma ParsePlain(digits: string, negative: bool)
    requires Number(digits)
    ensures
      var n := if negative then 0 - Value(digits) else Value(digits);
      ParseInt(if negative then "-" + digits else digits) == if Int64(n) then Some(n) else None
  {
    if negative {
      assert ("-" + digits)[1..] == digits && ("-" + digits)[0] == '-';
    }
  }

  lemma ParseFormatted(n: int)
    ensures ParseInt(FormatInt(n)) == if Int64(n) then Some(n) else None
  {
    FormatNatCanonical(if n < 0 then -n else n);
    ParsePlain(FormatNat(if n < 0 then -n else n), n < 0);
  }

  /** Two canonical numerals of the same value are the same text. */
  lemma CanonicalUnique(a: string, b: string)
    requires Canonical(a) && Canonical(b) && Value(a) == Value(b)
    ensures a == b
  {
    if |a| > |b| {
      LongerIsLarger(a, b);
    } else if |b| > |a| {
      LongerIsLarger(b, a);
    }
    LexIsNumeric(a, b);
  }

  // ----- the round trip

  lemma SplitAtColon(a: string, rest: string, n: nat)
    requires ':' !in a && n > 1
    ensures SplitN(Colon(a, rest), n) == [a] + SplitN(rest, n - 1)
  {
    var s := Colon(a, rest);
    assert s[|a|] == ':' && forall j :: 0 <= j < |a| ==> s[j] == a[j];
    assert FirstColon(s) == |a| && s[..|a|] == a && s[|a| + 1..] == rest;
  }

  lemma JoinHead(head: string, later: seq<string>)
    requires later != []
    ensures Join([head] + later, ":") == Colon(head, Join(later, ":"))
  {
    assert ([head] + later)[1..] == later;
  }

  /** Every part but the last is free of colons. */
  lemma {:induction false} PartsHaveNoColon(s: string, n: nat, k: nat)
    requires n >= 1 && k < |SplitN(s, n)| - 1
    ensures ':' !in SplitN(s, n)[k]
  {
    if n > 1 && ':' in s && k > 0 {
      PartsHaveNoColon(s[FirstColon(s) + 1..], n - 1, k - 1);
    }
  }

  /** The parts rebuild the text. */
  lemma {:induction false} PartsRebuild(s: string, n: nat)
    requires n >= 1
    ensures Join(SplitN(s, n), ":") == s
  {
    if n > 1 && ':' in s {
      var i := FirstColon(s);
      PartsRebuild(s[i + 1..], n - 1);
      JoinHead(s[..i], SplitN(s[i + 1..], n - 1));
      assert s == Colon(s[..i], s[i + 1..]);
    }
  }

  lemma SplitTwo(n: string, time: string)
    requires ':' !in n
    ensures SplitN(Colon(n, time), 2) == [n, time]
  {
    SplitAtColon(n, time, 2);
  }

  /** Four fields, the first separator of which is certain. */
  lemma SplitFour(head: string, c: string, n: string, time: string)
    requires ':' !in head
    ensures ':' !in c && ':' !in n ==>
      SplitN(Colon(head, Colon(c, Colon(n, time))), 4) == [head, c, n, time]
  {
    if ':' !in c && ':' !in n {
      SplitTwo(n, time);
      SplitAtColon(c, Colon(n, time), 3);
      SplitAtColon(head, Colon(c, Colon(n, time)), 4);
    }
  }

  lemma JoinFour(text: string)
    requires |SplitN(text, 4)| == 4
    ensures
      var parts := SplitN(text, 4);
      text == Colon(parts[0], Colon(parts[1], Colon(parts[2], parts[3])))
  {
    var parts := SplitN(text, 4);
    PartsRebuild(text, 4);
    JoinHead(parts[2], [parts[3]]);
    JoinHead(parts[1], [parts[2], parts[3]]);
    JoinHead(parts[0], [parts[1], parts[2], parts[3]]);
    assert [parts[2]] + [parts[3]] == [parts[2], parts[3]];
    assert [parts[1]] + [parts[2], parts[3]] == [parts[1], parts[2], parts[3]];
    assert [parts[0]] + [parts[1], parts[2], parts[3]] == parts;
  }

  lemma FirstPart(head: string, text: string)
    requires ':' !in head && HasPrefix(text, head + ":")
    ensures SplitN(text, 4)[0] == head
  {
    var rest := text[|head| + 1..];
    assert text == Colon(head, rest);
    SplitAtColon(head, rest, 4);
  }

  ghost predicate Wellformed(chainId: string, nonceHex: string, expiresAt: int) {
    chainId != "" && ':' !in chainId && nonceHex != "" && ':' !in nonceHex && Int64(expiresAt)
  }

  /** Decoding undoes formatting exactly on non-empty, colon-free fields and 64-bit times. */
  lemma RoundTrip(chainId: string, nonceHex: string, expiresAt: int)
    ensures ParseChallenge(BuildChallenge(chainId, nonceHex, expiresAt)) == Ok(Parsed(chainId, nonceHex, expiresAt))
       <==> Wellformed(chainId, nonceHex, expiresAt)
  {
    var text := BuildChallenge(chainId, nonceHex, expiresAt);
    SplitFour(HEAD, chainId, nonceHex, FormatInt(expiresAt));
    ParseFormatted(expiresAt);
    assert HasPrefix(text, PREFIX);
    if |SplitN(text, 4)| == 4 {
      FieldsAreParts(text, SplitN(text, 4));
    }
  }

  lemma FieldsAreParts(text: string, parts: seq<string>)
    requires parts == SplitN(text, 4) && |parts| == 4 && HasPrefix(text, PREFIX)
    ensures ':' !in parts[1] && ':' !in parts[2]
    ensures ParseChallenge(text).Ok? <==> ParseInt(parts[3]).Some? && parts[1] != "" && parts[2] != ""
    ensures ParseChallenge(text).Ok? ==>
      ParseChallenge(text).value == Parsed(parts[1], parts[2], ParseInt(parts[3]).value)
  {
    PartsHaveNoColon(text, 4, 1);
    PartsHaveNoColon(text, 4, 2);
  }

  lemma FormatIntInjective(a: int, b: int)
    requires FormatInt(a) == FormatInt(b)
    ensures a == b
  {
    FormatNatCanonical(if a < 0 then -a else a);
    FormatNatCanonical(if b < 0 then -b else b);
    if a < 0 && b < 0 {
      assert FormatInt(a)[1..] == FormatNat(-a) && FormatInt(b)[1..] == FormatNat(-b);
    }
  }

  /** Texts of one chain determine the nonce and the time, whatever the chain is called. */
  lemma InjectiveForChain(c: string, n1: string, t1: int, n2: string, t2: int)
    requires ':' !in n1 && ':' !in n2
    requires BuildChallenge(c, n1, t1) == BuildChallenge(c, n2, t2)
    ensures n1 == n2 && t1 == t2
  {
    var tail1, tail2 := Colon(n1, FormatInt(t1)), Colon(n2, FormatInt(t2));
    ColonCancels(HEAD, Colon(c, tail1), Colon(c, tail2));
    ColonCancels(c, tail1, tail2);
    FirstField(n1, FormatInt(t1), n2, FormatInt(t2));
    FormatIntInjective(t1, t2);
  }

  lemma FirstField(a1: string, b1: string, a2: string, b2: string)
    requires ':' !in a1 && ':' !in a2 && Colon(a1, b1) == Colon(a2, b2)
    ensures a1 == a2 && b1 == b2
  {
    SplitAtColon(a1, b1, 2);
    SplitAtColon(a2, b2, 2);
    assert SplitN(Colon(a1, b1), 2)[0] == a1 && SplitN(Colon(a2, b2), 2)[0] == a2;
    ColonCancels(a1, b1, b2);
  }

  /** The signed text determines all three fields, when the first two are free of colons. */
  lemma Injective(c1: string, n1: string, t1: int, c2: string, n2: string, t2: int)
    requires ':' !in c1 && ':' !in n1 && ':' !in c2 && ':' !in n2
    requires BuildChallenge(c1, n1, t1) == BuildChallenge(c2, n2, t2)
    ensures c1 == c2 && n1 == n2 && t1 == t2
  {
    var tail1, tail2 := Colon(n1, FormatInt(t1)), Colon(n2, FormatInt(t2));
    ColonCancels(HEAD, Colon(c1, tail1), Colon(c2, tail2));
    FirstField(c1, tail1, c2, tail2);
    InjectiveForChain(c1, n1, t1, n2, t2);
  }

  // ----- the normal form

  /** The time field that an accepted text carries, as written. */
  function TimeText(text: string): string
    requires ParseChallenge(text).Ok?
  {
    SplitN(text, 4)[3]
  }

  lemma HeadHasNoColon()
    ensures ':' !in HEAD
  {
  }

  lemma ParsedIsInt64(s: string)
    ensures ParseInt(s).Some? ==> Int64(ParseInt(s).value)
  {
  }

  lemma AcceptedShape(text: string)
    requires ParseChallenge(text).Ok?
    ensures
      var p := ParseChallenge(text).value;
      && Wellformed(p.chainId, p.nonceHex, p.expiresAt)
      && ParseInt(TimeText(text)) == Some(p.expiresAt)
      && text == Colon(HEAD, Colon(p.chainId, Colon(p.nonceHex, TimeText(text))))
  {
    FieldsAreParts(text, SplitN(text, 4));
    ParsedIsInt64(TimeText(text));
    JoinFour(text);
    HeadHasNoColon();
    FirstPart(HEAD, text);
  }

  /** No plus sign, no leading zero and no negative zero. */
  ghost predicate PlainTime(s: string)
    requires s != ""
  {
    if s[0] == '-' then Canonical(s[1..]) && s != "-0" else Canonical(s)
  }

  /**
   * Rebuilding an accepted text keeps its fields, and gives back the text itself exactly
   * when its time was written the plain way.
   */
  lemma NormalForm(text: string)
    requires ParseChallenge(text).Ok?
    ensures
      var p := ParseChallenge(text).value;
      var rebuilt := BuildChallenge(p.chainId, p.nonceHex, p.expiresAt);
      && ParseChallenge(rebuilt) == Ok(p)
      && TimeText(text) != ""
      && (rebuilt == text <==> PlainTime(TimeText(text)))
  {
    var p, time := ParseChallenge(text).value, TimeText(text);
    AcceptedShape(text);
    RoundTrip(p.chainId, p.nonceHex, p.expiresAt);
    var rebuilt := BuildChallenge(p.chainId, p.nonceHex, p.expiresAt);
    ColonCancels(HEAD, Colon(p.chainId, Colon(p.nonceHex, FormatInt(p.expiresAt))),
                 Colon(p.chainId, Colon(p.nonceHex, time)));
    ColonCancels(p.chainId, Colon(p.nonceHex, FormatInt(p.expiresAt)), Colon(p.nonceHex, time));
    ColonCancels(p.nonceHex, FormatInt(p.expiresAt), time);
    PlainTimes(time, p.expiresAt);
  }

  lemma ColonCancels(a: string, b1: string, b2: string)
    ensures Colon(a, b1) == Colon(a, b2) <==> b1 == b2
  {
    assert Colon(a, b1)[|a| + 1..] == b1 && Colon(a, b2)[|a| + 1..] == b2;
  }

  lemma PlainTimes(time: string, n: int)
    requires ParseInt(time) == Some(n)
    ensures FormatInt(n) == time <==> PlainTime(time)
  {
    if time[0] == '-' {
      PlainNegative(time[1..]);
      assert time == "-" + time[1..];
      if n == 0 {
        assert FormatInt(n) == "0";
      }
    } else if time[0] == '+' {
      FormatNatCanonical(n);
    } else {
      FormatNatCanonical(n);
      if Canonical(time) {
        CanonicalUnique(time, FormatNat(n));
      }
    }
  }

  lemma PlainNegative(digits: string)
    requires Number(digits)
    ensures Canonical(digits) <==> FormatNat(Value(digits)) == digits
    ensures digits == "0" ==> Value(digits) == 0
    ensures Canonical(digits) && Value(digits) == 0 ==> digits == "0"
  {
    FormatNatCanonical(Value(digits));
    if Canonical(digits) {
      CanonicalUnique(digits, FormatNat(Value(digits)));
    }
  }
}
