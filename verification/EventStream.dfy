/**
 * The reference reading of a text/event-stream: section 9.2.6 of the WHATWG HTML standard,
 * for the data field of already decoded text without a byte order mark.
 */
module EventStream {
  import opened Text
  import opened Sse

  function Break(s: string): (i: nat)
    ensures i <= |s| && forall j :: 0 <= j < i ==> s[j] != '\n' && s[j] != '\r'
    ensures i < |s| ==> s[i] == '\n' || s[i] == '\r'
  {
    if s == "" || s[0] == '\n' || s[0] == '\r' then 0 else Break(s[1..]) + 1
  }

  /** Lines end with CRLF, LF or a lone CR. */
  function StreamLines(text: string): seq<string>
    decreases |text|
  {
    if text == "" then []
    else
      var i := Break(text);
      if i == |text| then [text]
      else if text[i] == '\r' && i + 1 < |text| && text[i + 1] == '\n' then [text[..i]] + StreamLines(text[i + 2..])
      else [text[..i]] + StreamLines(text[i + 1..])
  }

  predicate DataField(line: string) {
    line == "data" || HasPrefix(line, FIELD)
  }

  /** What follows the colon, less one leading space. */
  function FieldValue(line: string): string
    requires DataField(line)
  {
    if line == "data" then ""
    else
      var v := line[|FIELD|..];
      if HasPrefix(v, " ") then v[1..] else v
  }

  /** The events dispatched, given the data buffer so far; an unfinished event is dropped. */
  function Dispatched(lines: seq<string>, buffer: string): seq<string>
    decreases |lines|
  {
    if lines == [] then []
    else if lines[0] == "" then
      (if buffer == "" then [] else [buffer[..|buffer| - 1]]) + Dispatched(lines[1..], "")
    else if DataField(lines[0]) then
      Dispatched(lines[1..], buffer + FieldValue(lines[0]) + "\n")
    else Dispatched(lines[1..], buffer)
  }

  ghost predicate Plain(s: string) {
    '\n' !in s && '\r' !in s
  }

  /** Data lines carry a trimmed payload after at most one space; no other line is a data field. */
  ghost predicate Conforming(item: Item) {
    match item
    case Data(before, payload, after, _) =>
      (before == "" || before == " ") && after == "" && payload != "" && Trimmed(payload) && Plain(payload)
    case Noise(line, _) => Plain(line) && !DataField(line)
  }

  /** Every event has one data line, and is closed by a blank line. */
  ghost predicate OneDataLineEach(items: seq<Item>, pending: bool)
    decreases |items|
  {
    if items == [] then !pending
    else if items[0].Data? then !pending && OneDataLineEach(items[1..], true)
    else OneDataLineEach(items[1..], pending && items[0].line != "")
  }

  function LineTexts(items: seq<Item>): seq<string> {
    if items == [] then [] else [LineOf(items[0])] + LineTexts(items[1..])
  }

  lemma PlainLine(item: Item)
    requires Conforming(item)
    ensures Plain(LineOf(item))
  {
  }

  lemma {:induction false} StreamLinesOfPrinted(items: seq<Item>)
    requires forall i :: 0 <= i < |items| ==> Conforming(items[i])
    ensures StreamLines(Print(items)) == LineTexts(items)
  {
    if items != [] {
      StreamLinesOfPrinted(items[1..]);
      PlainLine(items[0]);
      FirstStreamLine(LineOf(items[0]), items[0].crlf, Print(items[1..]));
    }
  }

  lemma FirstStreamLine(line: string, crlf: bool, rest: string)
    requires Plain(line)
    ensures StreamLines(line + (if crlf then "\r\n" else "\n") + rest) == [line] + StreamLines(rest)
  {
    var end := if crlf then "\r\n" else "\n";
    var text := line + end + rest;
    assert forall j :: 0 <= j < |line| ==> text[j] == line[j];
    assert text[|line|] == end[0] && (crlf ==> text[|line| + 1] == '\n');
    assert Break(text) == |line| && text[..|line|] == line && text[|line| + |end|..] == rest;
  }

  /** The data buffer while `waiting` is pending. */
  function Buffer(waiting: string): string {
    if waiting == "" then "" else waiting + "\n"
  }

  lemma BlankLine(lines: seq<string>, waiting: string)
    requires lines != [] && lines[0] == ""
    ensures Dispatched(lines, Buffer(waiting)) == (if waiting == "" then [] else [waiting]) + Dispatched(lines[1..], "")
  {
    assert waiting != "" ==> (waiting + "\n")[..|waiting|] == waiting;
  }

  lemma DataLine(lines: seq<string>, payload: string)
    requires lines != [] && lines[0] != "" && DataField(lines[0]) && FieldValue(lines[0]) == payload != ""
    ensures Dispatched(lines, "") == Dispatched(lines[1..], Buffer(payload))
  {
    assert "" + payload == payload;
  }

  lemma DataItem(items: seq<Item>)
    requires items != [] && items[0].Data? && Conforming(items[0])
    ensures Dispatched(LineTexts(items), "") == Dispatched(LineTexts(items[1..]), Buffer(items[0].payload))
  {
    DataLineValue(items[0]);
    assert LineTexts(items)[1..] == LineTexts(items[1..]);
    DataLine(LineTexts(items), items[0].payload);
  }

  lemma {:induction false} DispatchOfPrinted(items: seq<Item>, waiting: string)
    requires forall i :: 0 <= i < |items| ==> Conforming(items[i])
    requires OneDataLineEach(items, waiting != "")
    ensures Dispatched(LineTexts(items), Buffer(waiting))
         == (if waiting == "" then [] else [waiting]) + PayloadsOf(items)
  {
    if items != [] {
      var item, rest, lines := items[0], items[1..], LineTexts(items);
      assert lines[1..] == LineTexts(rest);
      if item.Data? {
        DispatchOfPrinted(rest, item.payload);
        DataItem(items);
      } else if item.line == "" {
        DispatchOfPrinted(rest, "");
        BlankLine(lines, waiting);
      } else {
        DispatchOfPrinted(rest, waiting);
      }
    }
  }

  lemma DataLineValue(item: Item)
    requires item.Data? && Conforming(item)
    ensures DataField(LineOf(item)) && LineOf(item) != "" && FieldValue(LineOf(item)) == item.payload
  {
    var v := LineOf(item)[|FIELD|..];
    assert v == item.before + item.payload + item.after == item.before + item.payload;
    if item.before == " " {
      assert v[1..] == item.payload;
    } else {
      assert v == item.payload && v[0] != ' ';
    }
  }

  lemma ConformingIsPrintable(item: Item)
    requires Conforming(item) && Fits(RawLine(item))
    ensures Printable(item)
  {
  }

  /** On such streams the scanner delivers the events of the standard, up to the first stop. */
  lemma AgreesWithStandard(items: seq<Item>, readError: Option<string>, stops: string -> bool)
    requires forall i :: 0 <= i < |items| ==> Conforming(items[i]) && Fits(RawLine(items[i]))
    requires OneDataLineEach(items, false)
    ensures Delivered(Body(Print(items), readError), stops)
         == UpTo(stops, Dispatched(StreamLines(Print(items)), ""))
  {
    forall i | 0 <= i < |items|
      ensures Printable(items[i])
    {
      ConformingIsPrintable(items[i]);
    }
    RoundTrip(items, readError, stops);
    StreamLinesOfPrinted(items);
    DispatchOfPrinted(items, "");
    assert [] + PayloadsOf(items) == PayloadsOf(items);
  }
}
