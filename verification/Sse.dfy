/** The scanner that pulls `data:` payloads out of a text/event-stream body. */
module Sse {
  import opened Text

  /** A response body: its text, and the transport error that cut it short, if any. */
  datatype Body = Body(text: string, readError: Option<string>)

  const MAX_LINE := 4 * 1024 * 1024
  const TOO_LONG := "token too long"
  const FIELD := "data:"

  function Utf8Size(c: char): nat {
    if c < '\U{80}' then 1 else if c < '\U{800}' then 2 else if c < '\U{10000}' then 3 else 4
  }

  function Bytes(s: string): nat {
    if s == "" then 0 else Bytes(s[..|s| - 1]) + Utf8Size(s[|s| - 1])
  }

  /** The line and its newline must fit the scanner's buffer. */
  predicate Fits(line: string) {
    Bytes(line) < MAX_LINE
  }

  function Newline(s: string): (i: nat)
    requires '\n' in s
    ensures i < |s| && s[i] == '\n' && forall j :: 0 <= j < i ==> s[j] != '\n'
  {
    if s[0] == '\n' then 0 else Newline(s[1..]) + 1
  }

  /** bufio.ScanLines, before the carriage returns come off. */
  function Lines(text: string): seq<string>
    decreases |text|
  {
    if text == "" then []
    else if '\n' !in text then [text]
    else [text[..Newline(text)]] + Lines(text[Newline(text) + 1..])
  }

  function StripReturns(line: string): string {
    if line != "" && line[|line| - 1] == '\r' then StripReturns(line[..|line| - 1]) else line
  }

  /** What a line contributes; the empty string for nothing. */
  function Payload(line: string): string {
    var l := StripReturns(line);
    if HasPrefix(l, FIELD) then TrimSpace(l[|FIELD|..]) else ""
  }

  function Payloads(lines: seq<string>): seq<string> {
    if lines == [] then []
    else (if Payload(lines[0]) == "" then [] else [Payload(lines[0])]) + Payloads(lines[1..])
  }

  /** The lines before the first that does not fit. */
  function Readable(lines: seq<string>): seq<string> {
    if lines == [] || !Fits(lines[0]) then [] else [lines[0]] + Readable(lines[1..])
  }

  /** The payloads up to and including the first on which the callback stops. */
  function UpTo(stops: string -> bool, payloads: seq<string>): seq<string> {
    if payloads == [] then []
    else if stops(payloads[0]) then [payloads[0]]
    else [payloads[0]] + UpTo(stops, payloads[1..])
  }

  predicate Stopped(stops: string -> bool, delivered: seq<string>) {
    exists i :: 0 <= i < |delivered| && stops(delivered[i])
  }

  function Delivered(body: Body, stops: string -> bool): seq<string> {
    UpTo(stops, Payloads(Readable(Lines(body.text))))
  }

  function ScanError(body: Body, stops: string -> bool): Option<string> {
    if Stopped(stops, Delivered(body, stops)) then None
    else if Readable(Lines(body.text)) != Lines(body.text) then Some(TOO_LONG)
    else body.readError
  }

  lemma {:induction false} UpToNone(stops: string -> bool, a: seq<string>, b: seq<string>)
    requires !Stopped(stops, a)
    ensures UpTo(stops, a + b) == a + UpTo(stops, b)
  {
    if a == [] {
      assert a + b == b;
    } else {
      assert (a + b)[1..] == a[1..] + b;
      assert !Stopped(stops, a[1..]) by {
        assert forall i :: 0 <= i < |a| - 1 ==> a[1..][i] == a[i + 1];
      }
      UpToNone(stops, a[1..], b);
    }
  }

  /** One step of the scanner: the next line and the text after it. */
  method NextLine(text: string) returns (line: string, later: string)
    requires text != ""
    ensures Lines(text) == [line] + Lines(later) && |later| < |text|
  {
    if '\n' in text {
      var i := Newline(text);
      return text[..i], text[i + 1..];
    }
    return text, "";
  }

  /** Delivered so far without a stop, with `todo` still to read. */
  ghost predicate Scanning(all: seq<string>, delivered: seq<string>, todo: seq<string>, stops: string -> bool) {
    && Payloads(Readable(all)) == delivered + Payloads(Readable(todo))
    && (Readable(all) == all <==> Readable(todo) == todo)
    && !Stopped(stops, delivered)
  }

  lemma HeadLine(line: string, later: seq<string>)
    requires Fits(line)
    ensures
      var all := [line] + later;
      && Readable(all) == [line] + Readable(later)
      && (Readable(all) == all <==> Readable(later) == later)
      && Payloads(Readable(all)) == (if Payload(line) == "" then [] else [Payload(line)]) + Payloads(Readable(later))
  {
    assert ([line] + later)[1..] == later && ([line] + Readable(later))[1..] == Readable(later);
  }

  lemma ReadNothing(all: seq<string>, delivered: seq<string>, line: string, later: seq<string>, stops: string -> bool)
    requires Scanning(all, delivered, [line] + later, stops) && Fits(line) && Payload(line) == ""
    ensures Scanning(all, delivered, later, stops)
  {
    HeadLine(line, later);
    var rest := Payloads(Readable(later));
    assert [] + rest == rest;
  }

  lemma ReadData(all: seq<string>, delivered: seq<string>, line: string, later: seq<string>, stops: string -> bool)
    requires Scanning(all, delivered, [line] + later, stops) && Fits(line)
    requires Payload(line) != "" && !stops(Payload(line))
    ensures Scanning(all, delivered + [Payload(line)], later, stops)
  {
    HeadLine(line, later);
    Associates(delivered, [Payload(line)], Payloads(Readable(later)));
  }

  lemma ReadStop(all: seq<string>, delivered: seq<string>, line: string, later: seq<string>, stops: string -> bool)
    requires Scanning(all, delivered, [line] + later, stops) && Fits(line)
    requires Payload(line) != "" && stops(Payload(line))
    ensures UpTo(stops, Payloads(Readable(all))) == delivered + [Payload(line)]
    ensures Stopped(stops, delivered + [Payload(line)])
  {
    HeadLine(line, later);
    UpToNone(stops, delivered, [Payload(line)] + Payloads(Readable(later)));
    assert (delivered + [Payload(line)])[|delivered|] == Payload(line);
  }

  lemma ReadLast(all: seq<string>, delivered: seq<string>, todo: seq<string>, stops: string -> bool)
    requires Scanning(all, delivered, todo, stops) && Readable(todo) == []
    ensures UpTo(stops, Payloads(Readable(all))) == delivered
  {
    UpToNone(stops, delivered, []);
    assert delivered + [] == delivered;
  }

  /**
   * The callback of both adapters never fails and stops on the payload alone, so it appears
   * here as the predicate `stops`, and `delivered` is the log of its invocations.
   */
  method ScanSse(body: Body, stops: string -> bool) returns (delivered: seq<string>, err: Option<string>)
    ensures delivered == Delivered(body, stops)
    ensures err == ScanError(body, stops)
  {
    var rest := body.text;
    delivered := [];
    ghost var all := Lines(body.text);
    while rest != ""
      invariant Scanning(all, delivered, Lines(rest), stops)
      decreases |rest|
    {
      ghost var todo := Lines(rest);
      var line;
      line, rest := NextLine(rest);
      if !Fits(line) {
        ReadLast(all, delivered, todo, stops);
        return delivered, Some(TOO_LONG);
      }
      var data := Payload(line);
      if data == "" {
        ReadNothing(all, delivered, line, Lines(rest), stops);
        continue;
      }
      if stops(data) {
        ReadStop(all, delivered, line, Lines(rest), stops);
        return delivered + [data], None;
      }
      ReadData(all, delivered, line, Lines(rest), stops);
      delivered := delivered + [data];
    }
    ReadLast(all, delivered, [], stops);
    return delivered, body.readError;
  }

  // ----- the round trip

  datatype Item =
    | Data(before: string, payload: string, after: string, crlf: bool)
    | Noise(line: string, crlf: bool)

  function LineOf(item: Item): string {
    match item
    case Data(before, payload, after, _) => FIELD + (before + payload + after)
    case Noise(line, _) => line
  }

  /** A line as the scanner sees it. */
  function RawLine(item: Item): string {
    LineOf(item) + if item.crlf then "\r" else ""
  }

  function Printed(item: Item): string {
    LineOf(item) + (if item.crlf then "\r\n" else "\n")
  }

  function Print(items: seq<Item>): string {
    if items == [] then "" else Printed(items[0]) + Print(items[1..])
  }

  /** A payload with white space around it, or a line that is not a data line or a blank one. */
  ghost predicate Printable(item: Item) {
    && '\n' !in LineOf(item)
    && Fits(RawLine(item))
    && match item
       case Data(before, payload, after, _) => Blank(before) && Blank(after) && Trimmed(payload) && payload != ""
       case Noise(line, _) => HasPrefix(line, FIELD) ==> Blank(line[|FIELD|..])
  }

  function PayloadsOf(items: seq<Item>): seq<string> {
    if items == [] then []
    else (if items[0].Data? then [items[0].payload] else []) + PayloadsOf(items[1..])
  }

  function RawLines(items: seq<Item>): seq<string> {
    if items == [] then []
    else [RawLine(items[0])] + RawLines(items[1..])
  }

  lemma FirstLine(raw: string, rest: string)
    requires '\n' !in raw
    ensures Lines(raw + "\n" + rest) == [raw] + Lines(rest)
  {
    var text := raw + "\n" + rest;
    assert text[|raw|] == '\n' && forall j :: 0 <= j < |raw| ==> text[j] == raw[j];
    assert Newline(text) == |raw| && text[..|raw|] == raw && text[|raw| + 1..] == rest;
  }

  lemma PrintedLine(item: Item, rest: string)
    ensures Printed(item) + rest == RawLine(item) + "\n" + rest
  {
    if item.crlf {
      assert "\r\n" == "\r" + "\n";
      assert LineOf(item) + "\r\n" == LineOf(item) + "\r" + "\n";
    } else {
      assert LineOf(item) + "" == LineOf(item);
    }
  }

  lemma PrintedBefore(items: seq<Item>, rest: string)
    requires items != []
    ensures Print(items) + rest == RawLine(items[0]) + "\n" + (Print(items[1..]) + rest)
  {
    PrintedLine(items[0], Print(items[1..]) + rest);
    Associates(Printed(items[0]), Print(items[1..]), rest);
  }

  /** Whatever follows the printed lines. */
  lemma {:induction false} LinesBefore(items: seq<Item>, rest: string)
    requires forall i :: 0 <= i < |items| ==> '\n' !in LineOf(items[i])
    ensures Lines(Print(items) + rest) == RawLines(items) + Lines(rest)
  {
    if items == [] {
      assert "" + rest == rest && [] + Lines(rest) == Lines(rest);
    } else {
      LinesBefore(items[1..], rest);
      PrintedBefore(items, rest);
      FirstLine(RawLine(items[0]), Print(items[1..]) + rest);
      Associates([RawLine(items[0])], RawLines(items[1..]), Lines(rest));
    }
  }

  lemma LinesOfPrinted(items: seq<Item>)
    requires forall i :: 0 <= i < |items| ==> '\n' !in LineOf(items[i])
    ensures Lines(Print(items)) == RawLines(items)
  {
    LinesBefore(items, "");
    assert Print(items) + "" == Print(items) && RawLines(items) + [] == RawLines(items);
  }

  lemma {:induction false} StripReturnsShape(line: string) returns (returns': string)
    ensures line == StripReturns(line) + returns' && Blank(returns')
    ensures HasPrefix(StripReturns(line), FIELD) <==> HasPrefix(line, FIELD)
  {
    if line != "" && line[|line| - 1] == '\r' {
      returns' := StripReturnsShape(line[..|line| - 1]);
      returns' := returns' + "\r";
      if HasPrefix(line, FIELD) {
        assert line[|FIELD| - 1] == ':';
        assert line[..|line| - 1][..|FIELD|] == FIELD;
      }
    } else {
      returns' := "";
    }
  }

  /** Carriage returns at the end make no difference: they are white space anyway. */
  lemma PayloadIsTrimmed(line: string)
    ensures Payload(line) == if HasPrefix(line, FIELD) then TrimSpace(line[|FIELD|..]) else ""
  {
    var returns' := StripReturnsShape(line);
    if HasPrefix(line, FIELD) {
      var value := StripReturns(line)[|FIELD|..];
      assert line[|FIELD|..] == value + returns';
      TrimSpaceBlank(value, returns');
    }
  }

  lemma TrimSpaceBlank(s: string, pad: string)
    requires Blank(pad)
    ensures TrimSpace(s + pad) == TrimSpace(s)
  {
    TrimLeftAppend(s, pad);
    if Blank(s) {
      TrimLeftBlank(s, "");
      TrimLeftBlank(s, pad);
      TrimLeftBlank(pad, "");
      assert s + "" == s && pad + "" == pad;
    } else {
      TrimRightBlank(TrimLeft(s), pad);
    }
  }

  lemma {:induction false} TrimLeftAppend(s: string, t: string)
    ensures !Blank(s) ==> TrimLeft(s + t) == TrimLeft(s) + t
  {
    if s != "" && IsSpace(s[0]) {
      assert (s + t)[1..] == s[1..] + t;
      assert !Blank(s) ==> !Blank(s[1..]);
      TrimLeftAppend(s[1..], t);
    }
  }

  lemma PayloadOfData(before: string, payload: string, after: string, end: string)
    requires Blank(before) && Blank(after) && Blank(end) && Trimmed(payload)
    ensures Payload(FIELD + (before + payload + after) + end) == payload
  {
    var raw := FIELD + (before + payload + after) + end;
    PayloadIsTrimmed(raw);
    assert raw[|FIELD|..] == before + payload + (after + end);
    TrimPadded(before, payload, after + end);
  }

  lemma BlankValue(value: string)
    requires Blank(value)
    ensures TrimSpace(value) == ""
  {
    TrimPadded(value, "", "");
    assert value + "" + "" == value;
  }

  lemma PayloadOfNoise(line: string, end: string)
    requires (end == "" || end == "\r") && (HasPrefix(line, FIELD) ==> Blank(line[|FIELD|..]))
    ensures Payload(line + end) == ""
  {
    var raw := line + end;
    PayloadIsTrimmed(raw);
    if HasPrefix(raw, FIELD) {
      assert raw[|FIELD| - 1] == ':';
      assert line == raw[..|line|] && HasPrefix(line, FIELD);
      assert raw[|FIELD|..] == line[|FIELD|..] + end;
      BlankValue(raw[|FIELD|..]);
    }
  }

  lemma PayloadOfItem(item: Item)
    requires Printable(item)
    ensures Payload(RawLine(item)) == if item.Data? then item.payload else ""
  {
    var end := if item.crlf then "\r" else "";
    match item
    case Data(before, payload, after, _) => PayloadOfData(before, payload, after, end);
    case Noise(line, _) => PayloadOfNoise(line, end);
  }

  lemma {:induction false} PayloadsOfPrinted(items: seq<Item>)
    requires forall i :: 0 <= i < |items| ==> Printable(items[i])
    ensures Payloads(RawLines(items)) == PayloadsOf(items)
    ensures Readable(RawLines(items)) == RawLines(items)
  {
    if items != [] {
      PayloadOfItem(items[0]);
      PayloadsOfPrinted(items[1..]);
      assert RawLines(items)[1..] == RawLines(items[1..]);
    }
  }

  /**
   * Scanning what was printed delivers exactly the payloads, in order, up to the first on
   * which the callback stops; the only error left is the transport's own.
   */
  lemma RoundTrip(items: seq<Item>, readError: Option<string>, stops: string -> bool)
    requires forall i :: 0 <= i < |items| ==> Printable(items[i])
    ensures Delivered(Body(Print(items), readError), stops) == UpTo(stops, PayloadsOf(items))
    ensures ScanError(Body(Print(items), readError), stops) ==
      if Stopped(stops, UpTo(stops, PayloadsOf(items))) then None else readError
  {
    LinesOfPrinted(items);
    PayloadsOfPrinted(items);
  }

  lemma {:induction false} ReadableUpTo(lines: seq<string>, long: string, later: seq<string>)
    requires Readable(lines) == lines && !Fits(long)
    ensures Readable(lines + ([long] + later)) == lines
  {
    if lines == [] {
      assert [] + ([long] + later) == [long] + later;
    } else {
      assert Fits(lines[0]) && Readable(lines)[1..] == lines[1..];
      assert ([lines[0]] + Readable(lines[1..]))[1..] == Readable(lines[1..]);
      ReadableUpTo(lines[1..], long, later);
      assert (lines + ([long] + later))[1..] == lines[1..] + ([long] + later);
    }
  }

  lemma LinesOfLong(long: string, tail: string)
    requires '\n' !in long && long != "" && (tail != "" ==> tail[0] == '\n')
    ensures Lines(long + tail) == [long] + Lines(if tail == "" then "" else tail[1..])
  {
    if tail == "" {
      assert long + tail == long && [long] + [] == [long];
    } else {
      assert long + tail == long + "\n" + tail[1..];
      FirstLine(long, tail[1..]);
    }
  }

  /** A line that does not fit ends the scan with an error, whatever follows it, unless it was over before. */
  lemma TooLong(items: seq<Item>, long: string, tail: string, readError: Option<string>, stops: string -> bool)
    requires forall i :: 0 <= i < |items| ==> Printable(items[i])
    requires '\n' !in long && !Fits(long) && (tail != "" ==> tail[0] == '\n')
    ensures
      var body := Body(Print(items) + (long + tail), readError);
      && Delivered(body, stops) == UpTo(stops, PayloadsOf(items))
      && ScanError(body, stops) ==
           if Stopped(stops, UpTo(stops, PayloadsOf(items))) then None else Some(TOO_LONG)
  {
    assert long != "";
    LinesBefore(items, long + tail);
    LinesOfLong(long, tail);
    PayloadsOfPrinted(items);
    ReadableUpTo(RawLines(items), long, Lines(if tail == "" then "" else tail[1..]));
  }

  // ----- where a stream is over

  /** The first n payloads are read on, and the next one, if there is one, is where the scan stops. */
  ghost predicate StopsAt(stops: string -> bool, payloads: seq<string>, n: nat) {
    && n <= |payloads|
    && (forall k :: 0 <= k < n ==> !stops(payloads[k]))
    && (n < |payloads| ==> stops(payloads[n]))
  }

  lemma {:induction false} UpToStop(stops: string -> bool, payloads: seq<string>, n: nat)
    requires StopsAt(stops, payloads, n)
    ensures UpTo(stops, payloads) == if n < |payloads| then payloads[..n + 1] else payloads
    ensures Stopped(stops, UpTo(stops, payloads)) <==> n < |payloads|
  {
    UpToNone(stops, payloads[..n], payloads[n..]);
    assert payloads == payloads[..n] + payloads[n..];
    if n < |payloads| {
      assert payloads[..n + 1] == payloads[..n] + [payloads[n]];
      assert payloads[..n + 1][n] == payloads[n];
    } else {
      assert UpTo(stops, []) == [];
      assert payloads[..n] + [] == payloads;
    }
  }
}
