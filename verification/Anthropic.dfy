/** The Anthropic adapter: typed events in, one reply out. */
module Anthropic {
  import opened Text
  import opened Assembly
  import Sse

  /** A decoded payload. Other stands for every event that touches no block and ends nothing. */
  datatype Event =
    | BlockStart(index: int, kind: string, id: string, name: string)
    | TextDelta(index: int, text: string)
    | JsonDelta(index: int, json: string)
    | OtherDelta(index: int)
    | MessageStop
    | Other

  datatype Block = Block(kind: string, id: string, name: string, json: string)

  const TOOL_USE := "tool_use"

  // ----- what a stream says

  predicate Delta(e: Event) {
    e.TextDelta? || e.JsonDelta? || e.OtherDelta?
  }

  predicate On(e: Event, i: int) {
    (e.BlockStart? || Delta(e)) && e.index == i
  }

  /** What an event makes of the block it is on: a start begins it afresh. */
  function Change(b: Block, e: Event): Block {
    if e.BlockStart? then Block(e.kind, e.id, e.name, "")
    else if e.JsonDelta? then b.(json := b.json + e.json)
    else b
  }

  function Deltas(events: seq<Event>): seq<string> {
    if events == [] then []
    else
      var last := events[|events| - 1];
      Deltas(events[..|events| - 1]) + if last.TextDelta? then [last.text] else []
  }

  /** A start always counts, a delta only when nothing came before it: indices can repeat. */
  function Starts(events: seq<Event>): seq<int> {
    if events == [] then []
    else
      var before, last := Starts(events[..|events| - 1]), events[|events| - 1];
      if last.BlockStart? || (Delta(last) && last.index !in before) then before + [last.index] else before
  }

  const NO_BLOCK := Block("", "", "", "")

  function BlockAt(events: seq<Event>, i: int): Block {
    if events == [] then NO_BLOCK
    else
      var before, last := BlockAt(events[..|events| - 1], i), events[|events| - 1];
      if On(last, i) then Change(before, last) else before
  }

  function Normalize(c: ToolCall): ToolCall {
    if TrimSpace(c.arguments) == "" then c.(arguments := "{}") else c
  }

  function CallOfBlock(b: Block): ToolCall {
    Normalize(ToolCall(b.id, b.name, b.json))
  }

  function CallsAt(events: seq<Event>, order: seq<int>): seq<ToolCall> {
    if order == [] then []
    else
      var b := BlockAt(events, order[|order| - 1]);
      CallsAt(events, order[..|order| - 1]) + if b.kind == TOOL_USE then [CallOfBlock(b)] else []
  }

  function ReplyTo(events: seq<Event>): Reply {
    Reply(Concat(Deltas(events)), CallsAt(events, Starts(events)))
  }

  // ----- the accumulators

  ghost predicate Holds(blocks: map<int, Block>, order: seq<int>, events: seq<Event>) {
    && order == Starts(events)
    && (forall i :: i in blocks <==> i in order)
    && forall i :: i in order ==> blocks[i] == BlockAt(events, i)
  }

  lemma EventAppend(events: seq<Event>, ev: Event, i: int)
    ensures BlockAt(events + [ev], i) == if On(ev, i) then Change(BlockAt(events, i), ev) else BlockAt(events, i)
    ensures Starts(events + [ev]) ==
      Starts(events) + if ev.BlockStart? || (Delta(ev) && ev.index !in Starts(events)) then [ev.index] else []
    ensures Deltas(events + [ev]) == Deltas(events) + if ev.TextDelta? then [ev.text] else []
  {
    assert (events + [ev])[..|events|] == events;
  }

  lemma {:induction false} UnseenBlock(events: seq<Event>, i: int)
    ensures i !in Starts(events) ==> BlockAt(events, i) == NO_BLOCK
  {
    if events != [] {
      UnseenBlock(events[..|events| - 1], i);
    }
  }

  /** An event that is on no block changes nothing. */
  lemma SkipKeepsHolds(blocks: map<int, Block>, order: seq<int>, events: seq<Event>, ev: Event)
    requires Holds(blocks, order, events) && !ev.BlockStart? && !Delta(ev)
    ensures Holds(blocks, order, events + [ev])
  {
    EventAppend(events, ev, 0);
    forall i | i in order ensures blocks[i] == BlockAt(events + [ev], i) {
      EventAppend(events, ev, i);
    }
  }

  lemma ChangeKeepsHolds(blocks: map<int, Block>, order: seq<int>, events: seq<Event>, ev: Event)
    requires Holds(blocks, order, events) && (ev.BlockStart? || Delta(ev))
    ensures
      Holds(blocks[ev.index := Change(Previous(blocks, ev.index), ev)],
            if ev.BlockStart? || ev.index !in blocks then order + [ev.index] else order,
            events + [ev])
  {
    var order' := if ev.BlockStart? || ev.index !in blocks then order + [ev.index] else order;
    var blocks' := blocks[ev.index := Change(Previous(blocks, ev.index), ev)];
    PreviousHolds(blocks, order, events, ev.index);
    EventAppend(events, ev, ev.index);
    assert order' == Starts(events + [ev]) by {
      assert order + [] == order;
    }
    forall i
      ensures i in blocks' <==> i in order'
      ensures i in order' ==> blocks'[i] == BlockAt(events + [ev], i)
    {
      ChangedBlock(blocks, order, events, ev, i);
    }
  }

  lemma ChangedBlock(blocks: map<int, Block>, order: seq<int>, events: seq<Event>, ev: Event, i: int)
    requires Holds(blocks, order, events) && (ev.BlockStart? || Delta(ev))
    ensures
      var blocks' := blocks[ev.index := Change(Previous(blocks, ev.index), ev)];
      && (i in blocks' <==> i in order || i == ev.index)
      && (i in blocks' ==> blocks'[i] == BlockAt(events + [ev], i))
  {
    EventAppend(events, ev, i);
    PreviousHolds(blocks, order, events, ev.index);
  }

  function Previous(blocks: map<int, Block>, i: int): Block {
    if i in blocks then blocks[i] else NO_BLOCK
  }

  lemma PreviousHolds(blocks: map<int, Block>, order: seq<int>, events: seq<Event>, i: int)
    requires Holds(blocks, order, events)
    ensures (i in blocks <==> i in order) && Previous(blocks, i) == BlockAt(events, i)
  {
    UnseenBlock(events, i);
  }

  class Accumulator {
    var blocks: map<int, Block>
    var order: seq<int>
    var content: string
    var emitted: seq<string>
    ghost var events: seq<Event>

    ghost predicate Valid()
      reads this
    {
      && Holds(blocks, order, events)
      && emitted == Deltas(events)
      && content == Concat(emitted)
    }

    constructor ()
      ensures Valid() && events == []
    {
      blocks, order, content, emitted, events := map[], [], "", [], [];
    }

    method Start(ev: Event)
      requires Holds(blocks, order, events) && ev.BlockStart?
      modifies this`blocks, this`order
      ensures Holds(blocks, order, events + [ev])
    {
      ghost var blocks0, order0 := blocks, order;
      blocks := blocks[ev.index := Block(ev.kind, ev.id, ev.name, "")];
      order := order + [ev.index];
      ChangeKeepsHolds(blocks0, order0, events, ev);
    }

    /** A delta before any start creates an empty block. */
    method Extend(ev: Event)
      requires Holds(blocks, order, events) && Delta(ev)
      modifies this`blocks, this`order
      ensures Holds(blocks, order, events + [ev])
    {
      ghost var blocks0, order0 := blocks, order;
      if ev.index !in blocks {
        blocks := blocks[ev.index := NO_BLOCK];
        order := order + [ev.index];
      }
      var b := blocks[ev.index];
      if ev.JsonDelta? {
        b := b.(json := b.json + ev.json);
      }
      blocks := blocks[ev.index := b];
      assert blocks == blocks0[ev.index := Change(Previous(blocks0, ev.index), ev)];
      ChangeKeepsHolds(blocks0, order0, events, ev);
    }

    /** The part of an event that concerns its block. */
    method AddToBlocks(ev: Event)
      requires Holds(blocks, order, events)
      modifies this`blocks, this`order
      ensures Holds(blocks, order, events + [ev])
    {
      if ev.BlockStart? {
        Start(ev);
      } else if Delta(ev) {
        Extend(ev);
      } else {
        SkipKeepsHolds(blocks, order, events, ev);
      }
    }

    /** The part of an event that is text. */
    method AddText(ev: Event)
      requires emitted == Deltas(events) && content == Concat(emitted)
      modifies this`emitted, this`content
      ensures emitted == Deltas(events + [ev]) && content == Concat(emitted)
    {
      EventAppend(events, ev, 0);
      if ev.TextDelta? {
        ConcatAppend(emitted, [ev.text]);
        content := content + ev.text;
        emitted := emitted + [ev.text];
      }
    }

    method AddEvent(ev: Event)
      requires Valid()
      modifies this
      ensures Valid() && events == old(events) + [ev]
    {
      AddToBlocks(ev);
      AddText(ev);
      events := events + [ev];
    }

    method Finish() returns (reply: Reply)
      requires Valid()
      ensures reply == ReplyTo(events)
    {
      var out: seq<ToolCall> := [];
      for k := 0 to |order|
        invariant out == CallsAt(events, order[..k])
      {
        assert order[..k + 1][..k] == order[..k];
        var i := order[k];
        assert i in order && i in blocks;
        var b := blocks[i];
        if b.kind != TOOL_USE {
          continue;
        }
        out := out + [CallOfBlock(b)];
      }
      assert order[..|order|] == order;
      return Reply(content, out);
    }
  }

  predicate IsStop(decode: string -> Event, data: string) {
    decode(data).MessageStop?
  }

  function Events(decode: string -> Event, delivered: seq<string>): seq<Event> {
    seq(|delivered|, k requires 0 <= k < |delivered| => decode(delivered[k]))
  }

  /** What one attempt at a stream amounts to: the text emitted, and the reply or an error. */
  function Outcome(body: Sse.Body, decode: string -> Event): (seq<string>, Result<Reply, string>) {
    var stops := data => IsStop(decode, data);
    var events := Events(decode, Sse.Delivered(body, stops));
    var err := Sse.ScanError(body, stops);
    (Deltas(events), if err.Some? then Err(err.value) else Ok(ReplyTo(events)))
  }

  method FoldEvents(delivered: seq<string>, decode: string -> Event) returns (acc: Accumulator)
    ensures fresh(acc) && acc.Valid() && acc.events == Events(decode, delivered)
  {
    acc := new Accumulator();
    for k := 0 to |delivered|
      invariant fresh(acc) && acc.Valid() && acc.events == Events(decode, delivered[..k])
    {
      EventsAppend(decode, delivered, k);
      acc.AddEvent(decode(delivered[k]));
    }
    assert delivered[..|delivered|] == delivered;
  }

  lemma EventsAppend(decode: string -> Event, delivered: seq<string>, k: nat)
    requires k < |delivered|
    ensures Events(decode, delivered[..k + 1]) == Events(decode, delivered[..k]) + [decode(delivered[k])]
  {
  }

  /** The stream part of Chat, after the response status has been checked. */
  method ReadStream(body: Sse.Body, decode: string -> Event) returns (emitted: seq<string>, r: Result<Reply, string>)
    ensures (emitted, r) == Outcome(body, decode)
  {
    var stops := data => IsStop(decode, data);
    var delivered, err := Sse.ScanSse(body, stops);
    var acc := FoldEvents(delivered, decode);
    emitted := acc.emitted;
    if err.Some? {
      return emitted, Err(err.value);
    }
    var reply := acc.Finish();
    return emitted, Ok(reply);
  }

  /** The text of a stream is that of its text deltas, in order. */
  lemma {:induction false} TextsConcatenate(a: seq<Event>, b: seq<Event>)
    ensures Deltas(a + b) == Deltas(a) + Deltas(b)
    ensures |b| == 1 ==> Deltas(b) == if b[0].TextDelta? then [b[0].text] else []
  {
    if b == [] {
      assert a + b == a;
    } else {
      var shorter, last := b[..|b| - 1], b[|b| - 1];
      assert b == shorter + [last];
      Associates(a, shorter, [last]);
      TextsConcatenate(a, shorter);
      EventAppend(shorter, last, 0);
      EventAppend(a + shorter, last, 0);
      Associates(Deltas(a), Deltas(shorter), if last.TextDelta? then [last.text] else []);
    }
  }

  // ----- from the text of a stream to the reply

  lemma {:induction false} StopChangesNoCall(events: seq<Event>, stop: Event, order: seq<int>)
    requires stop.MessageStop?
    ensures CallsAt(events + [stop], order) == CallsAt(events, order)
  {
    if order != [] {
      StopChangesNoCall(events, stop, order[..|order| - 1]);
      EventAppend(events, stop, order[|order| - 1]);
    }
  }

  lemma StopAddsNothing(events: seq<Event>, stop: Event)
    requires stop.MessageStop?
    ensures Deltas(events + [stop]) == Deltas(events) && ReplyTo(events + [stop]) == ReplyTo(events)
  {
    EventAppend(events, stop, 0);
    StopChangesNoCall(events, stop, Starts(events));
  }

  /** The first n payloads decode to events that do not end the message, and the next, if any, ends it. */
  ghost predicate MessageEndsAt(decode: string -> Event, payloads: seq<string>, n: nat) {
    && n <= |payloads|
    && (forall k :: 0 <= k < n ==> !decode(payloads[k]).MessageStop?)
    && (n < |payloads| ==> decode(payloads[n]).MessageStop?)
  }

  lemma OutcomeOfScan(body: Sse.Body, payloads: seq<string>, err: Option<string>, decode: string -> Event, n: nat)
    requires MessageEndsAt(decode, payloads, n)
    requires
      var stops := data => IsStop(decode, data);
      && Sse.Delivered(body, stops) == Sse.UpTo(stops, payloads)
      && Sse.ScanError(body, stops) == if Sse.Stopped(stops, Sse.UpTo(stops, payloads)) then None else err
    ensures
      var events := Events(decode, payloads[..n]);
      Outcome(body, decode) ==
        (Deltas(events), if n < |payloads| || err.None? then Ok(ReplyTo(events)) else Err(err.value))
  {
    var stops := data => IsStop(decode, data);
    Sse.UpToStop(stops, payloads, n);
    if n < |payloads| {
      EventsAppend(decode, payloads, n);
      StopAddsNothing(Events(decode, payloads[..n]), decode(payloads[n]));
    } else {
      assert payloads[..n] == payloads;
    }
  }

  /**
   * A stream is over at its first message_stop, or where the body ends without an error: then
   * the payloads before that make the reply. One that breaks off is that error, and no reply.
   */
  lemma StreamLaw(items: seq<Sse.Item>, readError: Option<string>, decode: string -> Event, n: nat)
    requires forall i :: 0 <= i < |items| ==> Sse.Printable(items[i])
    requires MessageEndsAt(decode, Sse.PayloadsOf(items), n)
    ensures
      var payloads := Sse.PayloadsOf(items);
      var events := Events(decode, payloads[..n]);
      Outcome(Sse.Body(Sse.Print(items), readError), decode) ==
        (Deltas(events), if n < |payloads| || readError.None? then Ok(ReplyTo(events)) else Err(readError.value))
  {
    var stops := data => IsStop(decode, data);
    Sse.RoundTrip(items, readError, stops);
    OutcomeOfScan(Sse.Body(Sse.Print(items), readError), Sse.PayloadsOf(items), readError, decode, n);
  }

  /** So is one with a line too long for the scanner before it is over. */
  lemma LongLineLaw(items: seq<Sse.Item>, long: string, tail: string, readError: Option<string>,
                    decode: string -> Event)
    requires forall i :: 0 <= i < |items| ==> Sse.Printable(items[i])
    requires '\n' !in long && !Sse.Fits(long) && (tail != "" ==> tail[0] == '\n')
    requires MessageEndsAt(decode, Sse.PayloadsOf(items), |Sse.PayloadsOf(items)|)
    ensures Outcome(Sse.Body(Sse.Print(items) + (long + tail), readError), decode) ==
      (Deltas(Events(decode, Sse.PayloadsOf(items))), Err(Sse.TOO_LONG))
  {
    var body, payloads := Sse.Body(Sse.Print(items) + (long + tail), readError), Sse.PayloadsOf(items);
    Sse.TooLong(items, long, tail, readError, data => IsStop(decode, data));
    OutcomeOfScan(body, payloads, Some(Sse.TOO_LONG), decode, |payloads|);
    assert payloads[..|payloads|] == payloads;
  }

  // ----- agreement with the abstract fold

  /** The blocks that some event starts as a tool use, whatever comes before or after it. */
  function ToolBlocks(events: seq<Event>): set<int> {
    set e | e in events && e.BlockStart? && e.kind == TOOL_USE :: e.index
  }

  /** The part of a stream that speaks of the given blocks, as shards. */
  function ToolShards(events: seq<Event>, tools: set<int>): seq<Shard> {
    if events == [] then []
    else
      var before, last := ToolShards(events[..|events| - 1], tools), events[|events| - 1];
      if (last.BlockStart? || last.JsonDelta?) && last.index in tools then before + [ShardOf(last)] else before
  }

  function ShardOf(e: Event): Shard
    requires e.BlockStart? || e.JsonDelta?
  {
    if e.BlockStart? then Shard(e.index, e.id, e.name, "") else Shard(e.index, "", "", e.json)
  }

  /** The shards of all tool blocks. */
  function AllToolShards(events: seq<Event>): seq<Shard> {
    ToolShards(events, ToolBlocks(events))
  }

  function AbstractCalls(events: seq<Event>): seq<ToolCall> {
    var calls := Assemble(AllToolShards(events));
    seq(|calls|, k requires 0 <= k < |calls| => Normalize(calls[k]))
  }

  /** An index is started again, or started after a delta. */
  ghost predicate Restarted(events: seq<Event>, i: int) {
    exists j, k :: 0 <= j < k < |events| && On(events[j], i) && On(events[k], i) && events[k].BlockStart?
  }

  lemma {:induction false} StartsAreSeen(events: seq<Event>, i: int)
    ensures i in Starts(events) <==> exists k :: 0 <= k < |events| && On(events[k], i)
  {
    if events != [] {
      var before, last := events[..|events| - 1], events[|events| - 1];
      StartsAreSeen(before, i);
      if i in Starts(before) {
        var k :| 0 <= k < |before| && On(before[k], i);
        assert On(events[k], i);
      } else if On(last, i) {
        assert events[|events| - 1] == last;
      }
    }
  }

  /** The members of `order` that are in `tools`, in their order. */
  function Chosen(order: seq<int>, tools: set<int>): seq<int> {
    if order == [] then []
    else
      var before, i := Chosen(order[..|order| - 1], tools), order[|order| - 1];
      if i in tools then before + [i] else before
  }

  /** The blocks that are tool uses by the last start on them. */
  function EndedAsTool(events: seq<Event>): set<int> {
    set i | i in Starts(events) && BlockAt(events, i).kind == TOOL_USE
  }

  /** The block that each call of the reply comes from. */
  function Places(events: seq<Event>): seq<int> {
    Chosen(Starts(events), EndedAsTool(events))
  }

  lemma {:induction false} CallsOfPlaces(order: seq<int>, whole: seq<Event>)
    ensures |CallsAt(whole, order)| == |Chosen(order, EndedAsTool(whole))|
    ensures forall k :: 0 <= k < |CallsAt(whole, order)| ==>
      CallsAt(whole, order)[k] == CallOfBlock(BlockAt(whole, Chosen(order, EndedAsTool(whole))[k]))
  {
    if order != [] {
      CallsOfPlaces(order[..|order| - 1], whole);
      UnseenBlock(whole, order[|order| - 1]);
    }
  }

  lemma ChosenAppend(order: seq<int>, i: int, tools: set<int>)
    ensures Chosen(order + [i], tools) == Chosen(order, tools) + if i in tools then [i] else []
  {
    assert (order + [i])[..|order|] == order;
  }

  lemma {:induction false} ChosenMembers(order: seq<int>, tools: set<int>, i: int)
    ensures i in Chosen(order, tools) <==> i in order && i in tools
  {
    if order != [] {
      ChosenMembers(order[..|order| - 1], tools, i);
    }
  }

  // ----- what becomes of a tool block

  lemma RestartGrows(events: seq<Event>, i: int)
    requires events != [] && Restarted(events[..|events| - 1], i)
    ensures Restarted(events, i)
  {
    var before := events[..|events| - 1];
    var j, k :| 0 <= j < k < |before| && On(before[j], i) && On(before[k], i) && before[k].BlockStart?;
    assert On(events[j], i) && On(events[k], i);
  }

  /** A start on a block that was never restarted is the first event on it. */
  lemma LastStartIsFirst(events: seq<Event>, i: int)
    requires events != [] && On(events[|events| - 1], i) && events[|events| - 1].BlockStart?
    requires !Restarted(events, i)
    ensures i !in Starts(events[..|events| - 1]) && i !in ToolBlocks(events[..|events| - 1])
  {
    var before := events[..|events| - 1];
    StartsAreSeen(before, i);
    forall k | 0 <= k < |before|
      ensures !On(before[k], i)
    {
      assert before[k] == events[k];
    }
  }

  /** Without a restart, a block started as a tool use stays one. */
  lemma {:induction false} ToolStays(events: seq<Event>, i: int)
    requires i in ToolBlocks(events) && !Restarted(events, i)
    ensures BlockAt(events, i).kind == TOOL_USE
  {
    var before, last := events[..|events| - 1], events[|events| - 1];
    assert events == before + [last];
    if last.BlockStart? && last.index == i {
      LastStartIsFirst(events, i);
    } else {
      if Restarted(before, i) {
        RestartGrows(events, i);
      }
      ToolStays(before, i);
    }
  }

  lemma {:induction false} ToolWasStarted(events: seq<Event>, i: int)
    requires BlockAt(events, i).kind == TOOL_USE
    ensures i in ToolBlocks(events) && i in Starts(events)
  {
    var before, last := events[..|events| - 1], events[|events| - 1];
    assert events == before + [last];
    if !(last.BlockStart? && last.index == i) {
      ToolWasStarted(before, i);
    }
  }

  function Count(s: seq<int>, i: int): nat {
    if s == [] then 0 else Count(s[..|s| - 1], i) + if s[|s| - 1] == i then 1 else 0
  }

  lemma CountAppend(s: seq<int>, x: int, i: int)
    ensures Count(s + [x], i) == Count(s, i) + if x == i then 1 else 0
  {
    assert (s + [x])[..|s|] == s;
  }

  lemma {:induction false} CountMembers(s: seq<int>, i: int)
    ensures Count(s, i) >= 1 <==> i in s
  {
    if s != [] {
      CountMembers(s[..|s| - 1], i);
    }
  }

  lemma {:induction false} CountDistinct(s: seq<int>, i: int)
    requires Distinct(s)
    ensures Count(s, i) == if i in s then 1 else 0
  {
    if s != [] {
      CountDistinct(s[..|s| - 1], i);
    }
  }

  lemma {:induction false} CountChosen(order: seq<int>, tools: set<int>, i: int)
    ensures Count(Chosen(order, tools), i) == if i in tools then Count(order, i) else 0
  {
    if order != [] {
      var shorter := order[..|order| - 1];
      CountChosen(shorter, tools, i);
      CountAppend(Chosen(shorter, tools), order[|order| - 1], i);
    }
  }

  lemma StartsCount(before: seq<Event>, last: Event, i: int)
    ensures Count(Starts(before + [last]), i) == Count(Starts(before), i) +
      if On(last, i) && (last.BlockStart? || i !in Starts(before)) then 1 else 0
  {
    EventAppend(before, last, i);
    if last.BlockStart? || Delta(last) {
      CountAppend(Starts(before), last.index, i);
    }
  }

  lemma {:induction false} RestartCountsTwice(events: seq<Event>, i: int)
    requires Restarted(events, i)
    ensures Count(Starts(events), i) >= 2
  {
    var before, last := events[..|events| - 1], events[|events| - 1];
    assert events == before + [last];
    if Restarted(before, i) {
      RestartCountsTwice(before, i);
      StartsCount(before, last, i);
    } else {
      var j, k :| 0 <= j < k < |events| && On(events[j], i) && On(events[k], i) && events[k].BlockStart?;
      assert forall m :: 0 <= m < |before| ==> before[m] == events[m];
      assert On(before[j], i);
      StartsAreSeen(before, i);
      CountMembers(Starts(before), i);
      StartsCount(before, last, i);
    }
  }

  lemma {:induction false} NoRestartCountsOnce(events: seq<Event>, i: int)
    requires !Restarted(events, i)
    ensures Count(Starts(events), i) <= 1
  {
    if events != [] {
      var before, last := events[..|events| - 1], events[|events| - 1];
      assert events == before + [last];
      if Restarted(before, i) {
        RestartGrows(events, i);
      }
      NoRestartCountsOnce(before, i);
      CountMembers(Starts(before), i);
      StartsCount(before, last, i);
      if On(last, i) && last.BlockStart? {
        LastStartIsFirst(events, i);
      }
    }
  }

  /**
   * A block started as a tool use gives one call exactly when it is not restarted. A restarted
   * one gives two calls or more if its last start is a tool use again, and else none.
   */
  lemma CallsPerBlock(events: seq<Event>, i: int)
    requires i in ToolBlocks(events)
    ensures Count(Places(events), i) == 1 <==> !Restarted(events, i)
    ensures Restarted(events, i) ==>
      if BlockAt(events, i).kind == TOOL_USE then Count(Places(events), i) >= 2 else i !in Places(events)
  {
    CountChosen(Starts(events), EndedAsTool(events), i);
    CountMembers(Places(events), i);
    if Restarted(events, i) {
      RestartCountsTwice(events, i);
      CountMembers(Starts(events), i);
    } else {
      NoRestartCountsOnce(events, i);
      ToolStays(events, i);
      ToolWasStarted(events, i);
      CountMembers(Starts(events), i);
    }
  }

  // ----- no restart: the folds agree

  /** Without restarts, the first event on a tool block is its start, and no later one is. */
  lemma FirstIsStart(whole: seq<Event>, k: nat)
    requires k < |whole| && (whole[k].BlockStart? || Delta(whole[k]))
    requires whole[k].index in ToolBlocks(whole) && !Restarted(whole, whole[k].index)
    ensures whole[k].BlockStart? <==> whole[k].index !in Starts(whole[..k])
  {
    var i := whole[k].index;
    StartsAreSeen(whole[..k], i);
    assert forall j :: 0 <= j < k ==> whole[..k][j] == whole[j];
    if !whole[k].BlockStart? && i !in Starts(whole[..k]) {
      var s :| 0 <= s < |whole| && whole[s].BlockStart? && whole[s].index == i;
      if s < k {
        assert On(whole[..k][s], i);
      }
      assert On(whole[k], i) && On(whole[s], i);
    }
  }

  function AsCall(b: Block): ToolCall {
    ToolCall(b.id, b.name, b.json)
  }

  ghost predicate PlacesAgree(part: seq<Event>, tools: set<int>) {
    Chosen(Starts(part), tools) == Order(ToolShards(part, tools))
  }

  ghost predicate CallsAgree(part: seq<Event>, tools: set<int>) {
    forall i :: i in tools ==> CallOf(Of(ToolShards(part, tools), i)) == AsCall(BlockAt(part, i))
  }

  ghost predicate AgreeOn(part: seq<Event>, tools: set<int>) {
    PlacesAgree(part, tools) && CallsAgree(part, tools)
  }

  lemma ShardsAppend(part: seq<Event>, e: Event, tools: set<int>)
    ensures ToolShards(part + [e], tools) == ToolShards(part, tools) +
      if (e.BlockStart? || e.JsonDelta?) && e.index in tools then [ShardOf(e)] else []
  {
    assert (part + [e])[..|part|] == part;
  }

  /** An event that speaks of no tool call, or adds nothing to its arguments. */
  lemma OneSilentEvent(part: seq<Event>, e: Event, tools: set<int>)
    requires AgreeOn(part, tools)
    requires (e.BlockStart? || e.JsonDelta?) ==> e.index !in tools
    requires Delta(e) && e.index in tools ==> e.index in Starts(part)
    ensures AgreeOn(part + [e], tools)
  {
    ShardsAppend(part, e, tools);
    EventAppend(part, e, 0);
    if e.BlockStart? || Delta(e) {
      ChosenAppend(Starts(part), e.index, tools);
    }
    forall i | i in tools
      ensures AsCall(BlockAt(part + [e], i)) == AsCall(BlockAt(part, i))
    {
      EventAppend(part, e, i);
    }
  }

  /** One shard does to the abstract call what its event does to the block. */
  lemma ShardMatchesEvent(own: seq<Shard>, b: Block, e: Event)
    requires (e.BlockStart? || e.JsonDelta?) && CallOf(own) == AsCall(b)
    requires e.BlockStart? ==> own == []
    ensures CallOf(own + [ShardOf(e)]) == AsCall(Change(b, e))
  {
    CallAppend(own, ShardOf(e));
  }

  lemma OneMorePlace(part: seq<Event>, e: Event, tools: set<int>)
    requires AgreeOn(part, tools) && (e.BlockStart? || e.JsonDelta?) && e.index in tools
    requires e.BlockStart? <==> e.index !in Starts(part)
    ensures PlacesAgree(part + [e], tools)
  {
    ShardsAppend(part, e, tools);
    EventAppend(part, e, 0);
    ChosenAppend(Starts(part), e.index, tools);
    ChosenMembers(Starts(part), tools, e.index);
    OfAppend(ToolShards(part, tools), ShardOf(e), e.index);
  }

  lemma OneMoreCall(part: seq<Event>, e: Event, tools: set<int>)
    requires AgreeOn(part, tools) && (e.BlockStart? || e.JsonDelta?) && e.index in tools
    requires e.BlockStart? <==> e.index !in Starts(part)
    ensures CallsAgree(part + [e], tools)
  {
    var shards, s := ToolShards(part, tools), ShardOf(e);
    ShardsAppend(part, e, tools);
    ChosenMembers(Starts(part), tools, e.index);
    OrderIsDistinct(shards);
    forall i | i in tools
      ensures CallOf(Of(shards + [s], i)) == AsCall(BlockAt(part + [e], i))
    {
      EventAppend(part, e, i);
      OfAppend(shards, s, i);
      if i == e.index {
        ShardMatchesEvent(Of(shards, i), BlockAt(part, i), e);
      }
    }
  }

  ghost predicate NoToolRestarted(events: seq<Event>) {
    forall i :: i in ToolBlocks(events) ==> !Restarted(events, i)
  }

  lemma {:induction false} PrefixesAgree(whole: seq<Event>, n: nat)
    requires n <= |whole| && NoToolRestarted(whole)
    ensures AgreeOn(whole[..n], ToolBlocks(whole))
  {
    if n > 0 {
      PrefixesAgree(whole, n - 1);
      var e, tools := whole[n - 1], ToolBlocks(whole);
      assert whole[..n] == whole[..n - 1] + [e];
      if (e.BlockStart? || Delta(e)) && e.index in tools {
        FirstIsStart(whole, n - 1);
      }
      if (e.BlockStart? || e.JsonDelta?) && e.index in tools {
        OneMorePlace(whole[..n - 1], e, tools);
        OneMoreCall(whole[..n - 1], e, tools);
      } else {
        OneSilentEvent(whole[..n - 1], e, tools);
      }
    }
  }

  lemma SameTools(events: seq<Event>)
    requires NoToolRestarted(events)
    ensures EndedAsTool(events) == ToolBlocks(events)
  {
    forall i
      ensures i in EndedAsTool(events) <==> i in ToolBlocks(events)
    {
      if BlockAt(events, i).kind == TOOL_USE {
        ToolWasStarted(events, i);
      }
      if i in ToolBlocks(events) {
        ToolStays(events, i);
      }
    }
  }

  lemma AgreementGivesCalls(events: seq<Event>)
    requires EndedAsTool(events) == ToolBlocks(events) && AgreeOn(events, ToolBlocks(events))
    ensures CallsAt(events, Starts(events)) == AbstractCalls(events)
  {
    var calls, places := CallsAt(events, Starts(events)), Places(events);
    CallsOfPlaces(Starts(events), events);
    forall k | 0 <= k < |calls|
      ensures calls[k] == AbstractCalls(events)[k]
    {
      ChosenMembers(Starts(events), ToolBlocks(events), places[k]);
    }
  }

  /** Every tool block has its place among the abstract calls. */
  lemma {:induction false} ToolsHaveShards(events: seq<Event>, tools: set<int>)
    ensures forall i :: i in ToolBlocks(events) * tools ==> i in Order(ToolShards(events, tools))
  {
    if events != [] {
      var before, last := events[..|events| - 1], events[|events| - 1];
      ToolsHaveShards(before, tools);
      assert events == before + [last];
      ShardsAppend(before, last, tools);
      if (last.BlockStart? || last.JsonDelta?) && last.index in tools {
        OfAppend(ToolShards(before, tools), ShardOf(last), last.index);
      }
    }
  }

  /** Block for block, the reply's calls are those of the abstract fold over all tool blocks. */
  ghost predicate Refines(events: seq<Event>) {
    && Places(events) == Order(AllToolShards(events))
    && CallsAt(events, Starts(events)) == AbstractCalls(events)
  }

  /**
   * The calls come from the blocks that were started as tool uses, in order of their first
   * appearance, and are those of the abstract fold over them, blank arguments becoming an empty
   * object, exactly when none of these blocks is started again or started after a delta.
   */
  lemma Refinement(events: seq<Event>)
    ensures Refines(events) <==> NoToolRestarted(events)
  {
    if NoToolRestarted(events) {
      PrefixesAgree(events, |events|);
      assert events[..|events|] == events;
      SameTools(events);
      AgreementGivesCalls(events);
    } else {
      var i :| i in ToolBlocks(events) && Restarted(events, i);
      CallsPerBlock(events, i);
      ToolsHaveShards(events, ToolBlocks(events));
      OrderIsDistinct(AllToolShards(events));
      CountDistinct(Order(AllToolShards(events)), i);
    }
  }

  lemma OnOneBlock(first: Event, second: Event, third: Event)
    requires first.BlockStart? && second.JsonDelta? && third.BlockStart?
    requires first.index == second.index == third.index == 0
    ensures
      var events := [first, second, third];
      Starts(events) == [0, 0] && BlockAt(events, 0) == Block(third.kind, third.id, third.name, "")
  {
    EventAppend([], first, 0);
    EventAppend([first], second, 0);
    EventAppend([first, second], third, 0);
    assert [] + [first] == [first] && [first] + [second] == [first, second];
    assert [first, second] + [third] == [first, second, third];
  }

  /** A block started twice is called twice, with the arguments of the second start only. */
  lemma RestartExample()
    ensures
      var events := [BlockStart(0, TOOL_USE, "a", "f"), JsonDelta(0, "1"), BlockStart(0, TOOL_USE, "b", "f")];
      CallsAt(events, Starts(events)) == [ToolCall("b", "f", "{}"), ToolCall("b", "f", "{}")]
  {
    var events := [BlockStart(0, TOOL_USE, "a", "f"), JsonDelta(0, "1"), BlockStart(0, TOOL_USE, "b", "f")];
    OnOneBlock(events[0], events[1], events[2]);
    assert [0, 0][..1] == [0];
    assert CallsAt(events, []) == [] && CallsAt(events, [0]) == [ToolCall("b", "f", "{}")];
  }

  /** A tool block started again as text loses its call. */
  lemma LostCallExample()
    ensures
      var events := [BlockStart(0, TOOL_USE, "a", "f"), JsonDelta(0, "1"), BlockStart(0, "text", "", "")];
      CallsAt(events, Starts(events)) == [] && AbstractCalls(events) == [ToolCall("a", "f", "1")]
  {
    var events := [BlockStart(0, TOOL_USE, "a", "f"), JsonDelta(0, "1"), BlockStart(0, "text", "", "")];
    OnOneBlock(events[0], events[1], events[2]);
    assert "text" != TOOL_USE by {
      assert |"text"| == 4 && |TOOL_USE| == 8;
    }
    assert [0, 0][..1] == [0];
    assert CallsAt(events, []) == [] && CallsAt(events, [0]) == [];
    assert events[0] in events && 0 in ToolBlocks(events);
    ThreeToolShards(events[0], events[1], events[2], ToolBlocks(events));
    ThreeShards(ShardOf(events[0]), ShardOf(events[1]), ShardOf(events[2]));
    assert "" + "1" + "" == "1" && TrimSpace("1") == "1";
  }

  lemma ThreeToolShards(first: Event, second: Event, third: Event, tools: set<int>)
    requires first.BlockStart? && second.JsonDelta? && third.BlockStart?
    requires first.index == second.index == third.index && first.index in tools
    ensures ToolShards([first, second, third], tools) == [ShardOf(first), ShardOf(second), ShardOf(third)]
  {
    ShardsAppend([], first, tools);
    ShardsAppend([first], second, tools);
    ShardsAppend([first, second], third, tools);
    assert [] + [first] == [first] && [first] + [second] == [first, second];
    assert [first, second] + [third] == [first, second, third];
  }

  lemma ThreeShards(first: Shard, second: Shard, third: Shard)
    requires first.index == second.index == third.index
    requires second.id == third.id == "" && second.name == third.name == ""
    ensures Assemble([first, second, third]) ==
      [ToolCall(first.id, first.name, first.args + second.args + third.args)]
  {
    OneCall([first, second, third], first.index);
    CallAppend([], first);
    CallAppend([first], second);
    CallAppend([first, second], third);
    assert [] + [first] == [first] && [first] + [second] == [first, second];
    assert [first, second] + [third] == [first, second, third];
    assert "" + first.args == first.args;
  }

  lemma {:induction false} OneCall(shards: seq<Shard>, i: int)
    requires shards != [] && forall k :: 0 <= k < |shards| ==> shards[k].index == i
    ensures Order(shards) == [i] && Of(shards, i) == shards
  {
    if |shards| > 1 {
      OneCall(shards[..|shards| - 1], i);
    }
  }
}
