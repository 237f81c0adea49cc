/** The OpenAI-compatible adapter: frames in, one reply out. */
module OpenAi {
  import opened Text
  import opened Assembly
  import Sse

  datatype Choice = Choice(content: string, toolCalls: seq<Shard>)

  /** A decoded payload; anything that is not a chunk is skipped. */
  datatype Frame = Malformed | Chunk(choices: seq<Choice>)

  datatype Acc = Acc(id: string, name: string, args: string)

  // ----- what a stream says

  /** Empty content is not a delta. */
  function DeltaOf(ch: Choice): seq<string> {
    if ch.content == "" then [] else [ch.content]
  }

  function ChoiceDeltas(choices: seq<Choice>): seq<string> {
    if choices == [] then [] else ChoiceDeltas(choices[..|choices| - 1]) + DeltaOf(choices[|choices| - 1])
  }

  function ChoiceShards(choices: seq<Choice>): seq<Shard> {
    if choices == [] then []
    else ChoiceShards(choices[..|choices| - 1]) + choices[|choices| - 1].toolCalls
  }

  function ChoicesOf(frame: Frame): seq<Choice> {
    if frame.Chunk? then frame.choices else []
  }

  function Choices(frames: seq<Frame>): seq<Choice> {
    if frames == [] then [] else Choices(frames[..|frames| - 1]) + ChoicesOf(frames[|frames| - 1])
  }

  function Deltas(frames: seq<Frame>): seq<string> {
    ChoiceDeltas(Choices(frames))
  }

  function Shards(frames: seq<Frame>): seq<Shard> {
    ChoiceShards(Choices(frames))
  }

  function ReplyTo(frames: seq<Frame>): Reply {
    Reply(Concat(Deltas(frames)), Assemble(Shards(frames)))
  }

  lemma {:induction false} DeltasConcatenate(a: seq<Choice>, b: seq<Choice>)
    ensures ChoiceDeltas(a + b) == ChoiceDeltas(a) + ChoiceDeltas(b)
  {
    if b == [] {
      assert a + b == a;
    } else {
      var shorter, last := b[..|b| - 1], b[|b| - 1];
      assert b == shorter + [last];
      Associates(a, shorter, [last]);
      DeltasConcatenate(a, shorter);
      ChoicesAppend(shorter, last);
      ChoicesAppend(a + shorter, last);
      Associates(ChoiceDeltas(a), ChoiceDeltas(shorter), DeltaOf(last));
    }
  }

  lemma {:induction false} ShardsConcatenate(a: seq<Choice>, b: seq<Choice>)
    ensures ChoiceShards(a + b) == ChoiceShards(a) + ChoiceShards(b)
  {
    if b == [] {
      assert a + b == a;
    } else {
      var shorter, last := b[..|b| - 1], b[|b| - 1];
      assert b == shorter + [last];
      Associates(a, shorter, [last]);
      ShardsConcatenate(a, shorter);
      ChoicesAppend(shorter, last);
      ChoicesAppend(a + shorter, last);
      Associates(ChoiceShards(a), ChoiceShards(shorter), last.toolCalls);
    }
  }

  lemma ChoicesOfAppend(frames: seq<Frame>, frame: Frame)
    ensures Choices(frames + [frame]) == Choices(frames) + ChoicesOf(frame)
  {
    assert (frames + [frame])[..|frames|] == frames;
  }

  lemma {:induction false} FramesConcatenate(a: seq<Frame>, b: seq<Frame>)
    ensures Choices(a + b) == Choices(a) + Choices(b)
  {
    if b == [] {
      assert a + b == a;
    } else {
      var shorter, last := b[..|b| - 1], b[|b| - 1];
      assert b == shorter + [last];
      Associates(a, shorter, [last]);
      FramesConcatenate(a, shorter);
      ChoicesOfAppend(shorter, last);
      ChoicesOfAppend(a + shorter, last);
      Associates(Choices(a), Choices(shorter), ChoicesOf(last));
    }
  }

  /** A stream says what its parts say, one after the other. */
  lemma StreamsConcatenate(a: seq<Frame>, b: seq<Frame>)
    ensures Deltas(a + b) == Deltas(a) + Deltas(b) && Shards(a + b) == Shards(a) + Shards(b)
  {
    FramesConcatenate(a, b);
    DeltasConcatenate(Choices(a), Choices(b));
    ShardsConcatenate(Choices(a), Choices(b));
  }

  /** A frame says what its choices say; a choice its text, if it has any, and its shards; a malformed frame nothing. */
  lemma OneFrame(a: seq<Choice>, b: seq<Choice>, ch: Choice)
    ensures Deltas([Chunk(a + b)]) == Deltas([Chunk(a), Chunk(b)])
    ensures Shards([Chunk(a + b)]) == Shards([Chunk(a), Chunk(b)])
    ensures Deltas([Chunk([ch])]) == (if ch.content == "" then [] else [ch.content])
    ensures Shards([Chunk([ch])]) == ch.toolCalls
    ensures Deltas([Malformed]) == [] && Shards([Malformed]) == []
  {
    FramesConcatenate([Chunk(a)], [Chunk(b)]);
    assert [Chunk(a)] + [Chunk(b)] == [Chunk(a), Chunk(b)];
    JustOne(a + b);
    JustOne(a);
    JustOne(b);
    JustOne([ch]);
    ChoicesAppend([], ch);
    assert [] + [ch] == [ch] && [] + ch.toolCalls == ch.toolCalls;
    assert [Malformed][..0] == [];
  }

  lemma JustOne(choices: seq<Choice>)
    ensures Choices([Chunk(choices)]) == choices
  {
    assert [Chunk(choices)][..0] == [] && [] + choices == choices;
  }

  /**
   * Frame boundaries, choice boundaries, shard boundaries and interleaving do not matter:
   * streams of the same text and, index by index, the same atoms give the same reply.
   */
  lemma SameReply(frames: seq<Frame>, others: seq<Frame>)
    requires Concat(Deltas(frames)) == Concat(Deltas(others))
    requires Order(Shards(frames)) == Order(Shards(others))
    requires forall i :: i in Order(Shards(frames)) ==> Atoms(Of(Shards(frames), i)) == Atoms(Of(Shards(others), i))
    ensures ReplyTo(frames) == ReplyTo(others)
  {
    ShardingIndependence(Shards(frames), Shards(others));
  }

  predicate IsDone(data: string) {
    data == "[DONE]"
  }

  function Frames(decode: string -> Frame, delivered: seq<string>): seq<Frame> {
    if delivered == [] then []
    else
      var last := delivered[|delivered| - 1];
      Frames(decode, delivered[..|delivered| - 1]) + if IsDone(last) then [] else [decode(last)]
  }

  /** What one more payload says. */
  function ChoicesIn(decode: string -> Frame, data: string): seq<Choice> {
    if IsDone(data) then [] else ChoicesOf(decode(data))
  }

  lemma FramesAppend(decode: string -> Frame, delivered: seq<string>, data: string)
    ensures Choices(Frames(decode, delivered + [data])) == Choices(Frames(decode, delivered)) + ChoicesIn(decode, data)
  {
    var frames := Frames(decode, delivered);
    assert (delivered + [data])[..|delivered|] == delivered;
    if IsDone(data) {
      assert frames + [] == frames && Choices(frames) + [] == Choices(frames);
    } else {
      ChoicesOfAppend(frames, decode(data));
    }
  }

  lemma FramesPrefix(decode: string -> Frame, delivered: seq<string>, k: nat)
    requires k < |delivered|
    ensures
      var before, later := Choices(Frames(decode, delivered[..k])), Choices(Frames(decode, delivered[..k + 1]));
      later == if IsDone(delivered[k]) then before else before + ChoicesOf(decode(delivered[k]))
  {
    FramesAppend(decode, delivered[..k], delivered[k]);
    assert delivered[..k + 1] == delivered[..k] + [delivered[k]];
    if IsDone(delivered[k]) {
      assert Choices(Frames(decode, delivered[..k])) + [] == Choices(Frames(decode, delivered[..k]));
    }
  }

  lemma ChoicesAppend(choices: seq<Choice>, ch: Choice)
    ensures ChoiceShards(choices + [ch]) == ChoiceShards(choices) + ch.toolCalls
    ensures ChoiceDeltas(choices + [ch]) == ChoiceDeltas(choices) + DeltaOf(ch)
  {
    assert (choices + [ch])[..|choices|] == choices;
  }

  // ----- the accumulators

  function AsCall(acc: Acc): ToolCall {
    ToolCall(acc.id, acc.name, acc.args)
  }

  /** The accumulators hold, index by index, the calls of the shards so far. */
  ghost predicate Holds(calls: map<int, Acc>, order: seq<int>, shards: seq<Shard>) {
    && order == Order(shards)
    && (forall i :: i in calls <==> i in order)
    && forall i :: i in order ==> AsCall(calls[i]) == CallOf(Of(shards, i))
  }

  function Absorb(acc: Acc, tc: Shard): Acc {
    Acc(if tc.id != "" then tc.id else acc.id, if tc.name != "" then tc.name else acc.name, acc.args + tc.args)
  }

  /** A fresh accumulator stands for a call without shards. */
  function Previous(calls: map<int, Acc>, i: int): Acc {
    if i in calls then calls[i] else Acc("", "", "")
  }

  lemma PreviousHolds(calls: map<int, Acc>, order: seq<int>, shards: seq<Shard>, i: int)
    requires Holds(calls, order, shards)
    ensures i in calls <==> i in order
    ensures AsCall(Previous(calls, i)) == CallOf(Of(shards, i))
  {
    OrderIsDistinct(shards);
    if i !in order {
      assert Of(shards, i) == [];
    }
  }

  lemma CallAt(calls: map<int, Acc>, order: seq<int>, shards: seq<Shard>, k: nat)
    requires Holds(calls, order, shards) && k < |order|
    ensures order[k] in calls && |Assemble(shards)| == |order| && AsCall(calls[order[k]]) == Assemble(shards)[k]
  {
    var i := order[k];
    assert i in order;
    assert AsCall(calls[i]) == CallOf(Of(shards, i));
    assert Assemble(shards)[k] == CallOf(Of(shards, Order(shards)[k]));
  }

  lemma AbsorbKeepsHolds(calls: map<int, Acc>, order: seq<int>, shards: seq<Shard>, tc: Shard)
    requires Holds(calls, order, shards)
    ensures Holds(calls[tc.index := Absorb(Previous(calls, tc.index), tc)],
                  if tc.index in calls then order else order + [tc.index],
                  shards + [tc])
  {
    var calls' := calls[tc.index := Absorb(Previous(calls, tc.index), tc)];
    var order' := if tc.index in calls then order else order + [tc.index];
    PreviousHolds(calls, order, shards, tc.index);
    OfAppend(shards, tc, tc.index);
    forall i | i in order'
      ensures AsCall(calls'[i]) == CallOf(Of(shards + [tc], i))
    {
      OfAppend(shards, tc, i);
      if i == tc.index {
        CallAppend(Of(shards, i), tc);
      }
    }
  }

  lemma MorePrefix(before: seq<Choice>, more: seq<Choice>, k: nat)
    requires k < |more|
    ensures before + more[..k] + [more[k]] == before + more[..k + 1]
  {
  }

  class Accumulator {
    var calls: map<int, Acc>
    var order: seq<int>
    var content: string
    var emitted: seq<string>
    ghost var choices: seq<Choice>

    ghost predicate Valid()
      reads this
    {
      && Holds(calls, order, ChoiceShards(choices))
      && emitted == ChoiceDeltas(choices)
      && content == Concat(emitted)
    }

    constructor ()
      ensures Valid() && choices == []
    {
      calls, order, content, emitted, choices := map[], [], "", [], [];
    }

    method AddShard(tc: Shard, ghost before: seq<Shard>)
      requires Holds(calls, order, before)
      modifies this`calls, this`order
      ensures Holds(calls, order, before + [tc])
    {
      ghost var calls0, order0 := calls, order;
      if tc.index !in calls {
        calls := calls[tc.index := Acc("", "", "")];
        order := order + [tc.index];
      }
      var acc := calls[tc.index];
      if tc.id != "" {
        acc := acc.(id := tc.id);
      }
      if tc.name != "" {
        acc := acc.(name := tc.name);
      }
      acc := acc.(args := acc.args + tc.args);
      calls := calls[tc.index := acc];
      assert acc == Absorb(Previous(calls0, tc.index), tc);
      assert calls == calls0[tc.index := acc];
      AbsorbKeepsHolds(calls0, order0, before, tc);
    }

    method AddShards(toolCalls: seq<Shard>, ghost before: seq<Shard>)
      requires Holds(calls, order, before)
      modifies this`calls, this`order
      ensures Holds(calls, order, before + toolCalls)
    {
      assert before + toolCalls[..0] == before;
      for k := 0 to |toolCalls|
        invariant Holds(calls, order, before + toolCalls[..k])
      {
        assert before + toolCalls[..k + 1] == before + toolCalls[..k] + [toolCalls[k]];
        AddShard(toolCalls[k], before + toolCalls[..k]);
      }
      assert toolCalls[..|toolCalls|] == toolCalls;
    }

    /** The text of a choice. */
    method AddText(ch: Choice)
      requires emitted == ChoiceDeltas(choices) && content == Concat(emitted)
      modifies this`emitted, this`content
      ensures emitted == ChoiceDeltas(choices + [ch]) && content == Concat(emitted)
    {
      ChoicesAppend(choices, ch);
      if ch.content != "" {
        ConcatAppend(emitted, [ch.content]);
        content := content + ch.content;
        emitted := emitted + [ch.content];
      } else {
        assert emitted + [] == emitted;
      }
    }

    method AddChoice(ch: Choice)
      requires Valid()
      modifies this
      ensures Valid() && choices == old(choices) + [ch]
    {
      AddText(ch);
      AddCalls(ch);
      choices := choices + [ch];
    }

    /** The shards of a choice. */
    method AddCalls(ch: Choice)
      requires Holds(calls, order, ChoiceShards(choices))
      modifies this`calls, this`order
      ensures Holds(calls, order, ChoiceShards(choices + [ch]))
    {
      ChoicesAppend(choices, ch);
      AddShards(ch.toolCalls, ChoiceShards(choices));
    }

    method AddFrame(frame: Frame)
      requires Valid()
      modifies this
      ensures Valid()
      ensures choices == old(choices) + ChoicesOf(frame)
    {
      if frame.Malformed? {
        assert choices + [] == choices;
        return;
      }
      AddChoices(frame.choices);
    }

    method AddChoices(more: seq<Choice>)
      requires Valid()
      modifies this
      ensures Valid() && choices == old(choices) + more
    {
      ghost var before := choices;
      assert before + more[..0] == before;
      for k := 0 to |more|
        invariant Valid() && choices == before + more[..k]
      {
        MorePrefix(before, more, k);
        AddChoice(more[k]);
      }
      assert more[..|more|] == more;
    }

    method Finish() returns (reply: Reply)
      requires Valid()
      ensures reply == Reply(Concat(ChoiceDeltas(choices)), Assemble(ChoiceShards(choices)))
    {
      var out: seq<ToolCall> := [];
      ghost var all := Assemble(ChoiceShards(choices));
      for k := 0 to |order|
        invariant out == all[..k]
      {
        CallAt(calls, order, ChoiceShards(choices), k);
        assert all[..k + 1] == all[..k] + [all[k]];
        out := out + [AsCall(calls[order[k]])];
      }
      assert all[..|order|] == all;
      return Reply(content, out);
    }
  }

  method FoldFrames(delivered: seq<string>, decode: string -> Frame) returns (acc: Accumulator)
    ensures fresh(acc) && acc.Valid() && acc.choices == Choices(Frames(decode, delivered))
  {
    acc := new Accumulator();
    for k := 0 to |delivered|
      invariant fresh(acc) && acc.Valid() && acc.choices == Choices(Frames(decode, delivered[..k]))
    {
      FramesPrefix(decode, delivered, k);
      if !IsDone(delivered[k]) {
        acc.AddFrame(decode(delivered[k]));
      }
    }
    assert delivered[..|delivered|] == delivered;
  }

  /** What one attempt at a stream amounts to: the text emitted, and the reply or an error. */
  function Outcome(body: Sse.Body, decode: string -> Frame): (seq<string>, Result<Reply, string>) {
    var frames := Frames(decode, Sse.Delivered(body, IsDone));
    var err := Sse.ScanError(body, IsDone);
    (Deltas(frames), if err.Some? then Err(err.value) else Ok(ReplyTo(frames)))
  }

  /** The stream part of Chat, after the response status has been checked. */
  method ReadStream(body: Sse.Body, decode: string -> Frame) returns (emitted: seq<string>, r: Result<Reply, string>)
    ensures (emitted, r) == Outcome(body, decode)
  {
    var delivered, err := Sse.ScanSse(body, IsDone);
    var acc := FoldFrames(delivered, decode);
    emitted := acc.emitted;
    if err.Some? {
      return emitted, Err(err.value);
    }
    var reply := acc.Finish();
    return emitted, Ok(reply);
  }

  // ----- from the text of a stream to the reply

  function Decoded(decode: string -> Frame, payloads: seq<string>): seq<Frame> {
    seq(|payloads|, k requires 0 <= k < |payloads| => decode(payloads[k]))
  }

  lemma {:induction false} FramesAreDecoded(decode: string -> Frame, payloads: seq<string>)
    requires forall k :: 0 <= k < |payloads| ==> payloads[k] != "[DONE]"
    ensures Frames(decode, payloads) == Decoded(decode, payloads)
  {
    if payloads != [] {
      FramesAreDecoded(decode, payloads[..|payloads| - 1]);
    }
  }

  lemma FramesUpToDone(decode: string -> Frame, payloads: seq<string>, n: nat)
    requires Sse.StopsAt(IsDone, payloads, n)
    ensures Frames(decode, Sse.UpTo(IsDone, payloads)) == Decoded(decode, payloads[..n])
  {
    Sse.UpToStop(IsDone, payloads, n);
    FramesAreDecoded(decode, payloads[..n]);
    if n < |payloads| {
      assert payloads[..n + 1][..n] == payloads[..n];
      assert Frames(decode, payloads[..n]) + [] == Frames(decode, payloads[..n]);
    } else {
      assert payloads[..n] == payloads;
    }
  }

  lemma OutcomeOfScan(body: Sse.Body, payloads: seq<string>, err: Option<string>, decode: string -> Frame, n: nat)
    requires Sse.StopsAt(IsDone, payloads, n) && Sse.Delivered(body, IsDone) == Sse.UpTo(IsDone, payloads)
    requires Sse.ScanError(body, IsDone) == if Sse.Stopped(IsDone, Sse.UpTo(IsDone, payloads)) then None else err
    ensures
      var frames := Decoded(decode, payloads[..n]);
      Outcome(body, decode) ==
        (Deltas(frames), if n < |payloads| || err.None? then Ok(ReplyTo(frames)) else Err(err.value))
  {
    FramesUpToDone(decode, payloads, n);
    Sse.UpToStop(IsDone, payloads, n);
  }

  /**
   * A stream is over at its first "[DONE]", or where the body ends without an error: then the
   * payloads before that make the reply. One that breaks off is that error, and no reply.
   */
  lemma StreamLaw(items: seq<Sse.Item>, readError: Option<string>, decode: string -> Frame, n: nat)
    requires forall i :: 0 <= i < |items| ==> Sse.Printable(items[i])
    requires Sse.StopsAt(data => data == "[DONE]", Sse.PayloadsOf(items), n)
    ensures
      var payloads := Sse.PayloadsOf(items);
      var frames := Decoded(decode, payloads[..n]);
      Outcome(Sse.Body(Sse.Print(items), readError), decode) ==
        (Deltas(frames), if n < |payloads| || readError.None? then Ok(ReplyTo(frames)) else Err(readError.value))
  {
    var payloads := Sse.PayloadsOf(items);
    assert Sse.StopsAt(IsDone, payloads, n);
    Sse.RoundTrip(items, readError, IsDone);
    OutcomeOfScan(Sse.Body(Sse.Print(items), readError), payloads, readError, decode, n);
  }

  /** So is one with a line too long for the scanner before it is over. */
  lemma LongLineLaw(items: seq<Sse.Item>, long: string, tail: string, readError: Option<string>,
                    decode: string -> Frame)
    requires forall i :: 0 <= i < |items| ==> Sse.Printable(items[i])
    requires '\n' !in long && !Sse.Fits(long) && (tail != "" ==> tail[0] == '\n')
    requires Sse.StopsAt(IsDone, Sse.PayloadsOf(items), |Sse.PayloadsOf(items)|)
    ensures Outcome(Sse.Body(Sse.Print(items) + (long + tail), readError), decode) ==
      (Deltas(Decoded(decode, Sse.PayloadsOf(items))), Err(Sse.TOO_LONG))
  {
    var body, payloads := Sse.Body(Sse.Print(items) + (long + tail), readError), Sse.PayloadsOf(items);
    Sse.TooLong(items, long, tail, readError, IsDone);
    OutcomeOfScan(body, payloads, Some(Sse.TOO_LONG), decode, |payloads|);
    assert payloads[..|payloads|] == payloads;
  }
}
