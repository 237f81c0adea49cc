/** One chat round: an HTTP exchange per attempt, and the retry rule over attempts. */
module LlmClient {
  import opened Text
  import opened Assembly
  import Challenge
  import Sse
  import OpenAi
  import Anthropic

  /** The wire format and its decoder; the decoder is a library, so any function will do. */
  datatype Provider =
    | OpenAiFormat(decodeChunk: string -> OpenAi.Frame)
    | AnthropicFormat(decodeEvent: string -> Anthropic.Event)

  /** What one request meets: no response, or a status and a body. */
  datatype Exchange = NoResponse(error: string) | Response(status: int, body: Sse.Body)

  /** `marked` errors were classified as transient when they were made. */
  datatype Failure = Failure(marked: bool, message: string)

  datatype Attempted = Success(reply: Reply) | Failed(failure: Failure)

  const MAX_RETRIES := 2
  const BASE_DELAY := 1000
  const FOUR_HUNDREDS := "LLM HTTP 4"

  function HttpMessage(status: int): string {
    "LLM HTTP " + Challenge.FormatInt(status)
  }

  /** httpError; the body text that follows the status in the message is left out. */
  function HttpError(status: int): Failure {
    Failure(status == 429 || status >= 500, HttpMessage(status))
  }

  predicate IsRetryable(f: Failure) {
    f.marked || !HasPrefix(f.message, FOUR_HUNDREDS)
  }

  /** The numbers below 1000 that start with the digit 4. */
  predicate StartsWithFour(n: int) {
    n == 4 || 40 <= n < 50 || 400 <= n < 500
  }

  lemma LeadingFour(n: nat)
    requires n < 1000
    ensures Challenge.FormatNat(n)[0] == '4' <==> StartsWithFour(n)
  {
    if n >= 10 {
      assert Challenge.FormatNat(n)[0] == Challenge.FormatNat(n / 10)[0];
    }
    if n >= 100 {
      assert Challenge.FormatNat(n / 10)[0] == Challenge.FormatNat(n / 100)[0] by {
        assert n / 10 / 10 == n / 100;
      }
    }
  }

  lemma PrefixByDigit(rest: string)
    requires rest != ""
    ensures HasPrefix("LLM HTTP " + rest, FOUR_HUNDREDS) <==> rest[0] == '4'
  {
    var s := "LLM HTTP " + rest;
    assert FOUR_HUNDREDS == "LLM HTTP " + "4";
    assert s[9] == rest[0];
    assert rest[0] == '4' ==> s[..10] == "LLM HTTP " + "4";
  }

  /**
   * A status is final exactly when it is printed with a leading 4 and is neither 429 nor above
   * 499: besides the 4xx, these are 4 and 40 to 49.
   */
  lemma FinalStatuses(status: int)
    ensures !IsRetryable(HttpError(status)) <==> StartsWithFour(status) && status != 429
  {
    if 0 <= status < 500 {
      LeadingFour(status);
    }
    Challenge.FormatNatCanonical(if status < 0 then -status else status);
    PrefixByDigit(Challenge.FormatInt(status));
  }

  // ----- one attempt

  function StreamOutcome(p: Provider, body: Sse.Body): (seq<string>, Result<Reply, string>) {
    match p
    case OpenAiFormat(decode) => OpenAi.Outcome(body, decode)
    case AnthropicFormat(decode) => Anthropic.Outcome(body, decode)
  }

  /** The text emitted and the outcome of one exchange. */
  function Attempt(p: Provider, x: Exchange): (seq<string>, Attempted) {
    match x
    case NoResponse(error) => ([], Failed(Failure(false, error)))
    case Response(status, body) =>
      if status < 200 || status >= 300 then ([], Failed(HttpError(status)))
      else
        var (emitted, r) := StreamOutcome(p, body);
        (emitted, if r.Ok? then Success(r.value) else Failed(Failure(false, r.error)))
  }

  method ModelChat(p: Provider, x: Exchange) returns (emitted: seq<string>, outcome: Attempted)
    ensures (emitted, outcome) == Attempt(p, x)
  {
    if x.NoResponse? {
      return [], Failed(Failure(false, x.error));
    }
    if x.status < 200 || x.status >= 300 {
      return [], Failed(HttpError(x.status));
    }
    var r;
    match p {
      case OpenAiFormat(decode) => emitted, r := OpenAi.ReadStream(x.body, decode);
      case AnthropicFormat(decode) => emitted, r := Anthropic.ReadStream(x.body, decode);
    }
    outcome := if r.Ok? then Success(r.value) else Failed(Failure(false, r.error));
  }

  /** A successful attempt returns as content exactly the text it emitted. */
  lemma ContentIsWhatWasEmitted(p: Provider, x: Exchange)
    ensures Attempt(p, x).1.Success? ==> Attempt(p, x).1.reply.content == Concat(Attempt(p, x).0)
  {
  }

  /**
   * The two wire formats agree. A chunk stream and an event stream that carry the same text
   * and the same calls, however sharded and interleaved, give the same reply but for blank
   * arguments, provided no tool block of the event stream is restarted.
   */
  lemma ProvidersAgree(frames: seq<OpenAi.Frame>, events: seq<Anthropic.Event>)
    requires Concat(OpenAi.Deltas(frames)) == Concat(Anthropic.Deltas(events))
    requires Anthropic.NoToolRestarted(events)
    requires
      var shards, others := OpenAi.Shards(frames), Anthropic.AllToolShards(events);
      Order(shards) == Order(others) && forall i :: i in Order(shards) ==> Atoms(Of(shards, i)) == Atoms(Of(others, i))
    ensures
      var one, two := OpenAi.ReplyTo(frames), Anthropic.ReplyTo(events);
      && one.content == two.content
      && |one.calls| == |two.calls|
      && forall k :: 0 <= k < |one.calls| ==> two.calls[k] == Anthropic.Normalize(one.calls[k])
  {
    Anthropic.Refinement(events);
    ShardingIndependence(OpenAi.Shards(frames), Anthropic.AllToolShards(events));
  }

  // ----- the retry rule

  /** Whether the context is done when the k-th attempt is about to begin, and after its delay. */
  datatype Context = Context(doneBefore: nat -> bool, doneAfter: nat -> bool)

  /** Attempt k failed before anything was emitted, in a way worth retrying, and the wait passed. */
  ghost predicate Retried(p: Provider, xs: nat -> Exchange, ctx: Context, k: nat) {
    var (emitted, outcome) := Attempt(p, xs(k));
    && !ctx.doneBefore(k)
    && emitted == []
    && outcome.Failed? && IsRetryable(outcome.failure)
    && k < MAX_RETRIES
    && !ctx.doneAfter(k)
  }

  /** The delays after attempts 0 to n-1, each twice the one before. */
  function Delays(n: nat): nat {
    if n == 0 then 0 else Delays(n - 1) + Delay(n - 1)
  }

  function Delay(k: nat): nat {
    if k == 0 then BASE_DELAY else 2 * Delay(k - 1)
  }

  datatype Round = Replied(reply: Reply) | Gave(failure: Failure) | Cancelled

  /** How the round ends at attempt k, the first that is not retried. */
  ghost predicate EndsAt(p: Provider, xs: nat -> Exchange, ctx: Context, k: nat, heard: seq<string>, r: Round) {
    var (emitted, outcome) := Attempt(p, xs(k));
    if ctx.doneBefore(k) then heard == [] && r == Cancelled
    else
      && heard == emitted
      && match outcome
         case Success(reply) => r == Replied(reply)
         case Failed(failure) =>
           if emitted != [] || !IsRetryable(failure) || k == MAX_RETRIES then r == Gave(failure)
           else ctx.doneAfter(k) && r == Cancelled
  }

  /**
   * `heard` is everything that reached the caller's callback, over all attempts; `slept` is
   * the delay asked for, in milliseconds.
   */
  method WithRetry(p: Provider, xs: nat -> Exchange, ctx: Context)
    returns (r: Round, heard: seq<string>, last: nat, slept: nat)
    ensures last <= MAX_RETRIES
    ensures forall k :: 0 <= k < last ==> Retried(p, xs, ctx, k)
    ensures EndsAt(p, xs, ctx, last, heard, r)
    ensures slept <= Delays(MAX_RETRIES)
  {
    heard, slept, last := [], 0, 0;
    while true
      invariant 0 <= last <= MAX_RETRIES && heard == []
      invariant forall k :: 0 <= k < last ==> Retried(p, xs, ctx, k)
      invariant slept == Delays(last)
      decreases MAX_RETRIES - last
    {
      if ctx.doneBefore(last) {
        DelaysGrow(last, MAX_RETRIES);
        return Cancelled, heard, last, slept;
      }
      var emitted, outcome := ModelChat(p, xs(last));
      var started := emitted != [];
      heard := heard + emitted;
      assert heard == emitted;
      match outcome {
        case Success(reply) =>
          DelaysGrow(last, MAX_RETRIES);
          return Replied(reply), heard, last, slept;
        case Failed(failure) =>
          if started || !IsRetryable(failure) || last == MAX_RETRIES {
            DelaysGrow(last, MAX_RETRIES);
            return Gave(failure), heard, last, slept;
          }
      }
      slept := slept + Delay(last);
      DelaysGrow(last + 1, MAX_RETRIES);
      if ctx.doneAfter(last) {
        return Cancelled, heard, last, slept;
      }
      last := last + 1;
    }
  }

  lemma {:induction false} DelaysGrow(m: nat, n: nat)
    requires m <= n
    ensures Delays(m) <= Delays(n)
  {
    if m < n {
      DelaysGrow(m, n - 1);
    }
  }

  /** All the waiting of a round comes to at most three times the base delay. */
  lemma TotalDelay()
    ensures Delays(MAX_RETRIES) == 3 * BASE_DELAY
  {
    assert Delays(1) == Delays(0) + Delay(0);
    assert Delays(2) == Delays(1) + Delay(1);
  }

  ghost predicate RoundOf(p: Provider, xs: nat -> Exchange, ctx: Context, last: nat, heard: seq<string>, r: Round) {
    && last <= MAX_RETRIES
    && (forall k :: 0 <= k < last ==> Retried(p, xs, ctx, k))
    && EndsAt(p, xs, ctx, last, heard, r)
  }

  /** Everything emitted by attempts 0 to n-1. */
  function EmittedBy(p: Provider, xs: nat -> Exchange, n: nat): seq<string> {
    if n == 0 then [] else EmittedBy(p, xs, n - 1) + Attempt(p, xs(n - 1)).0
  }

  /**
   * No token is delivered twice. What the caller hears over the whole round is all that was
   * emitted by the attempts made, and all of that comes from the last one; after a reply it
   * spells out the reply's content.
   */
  lemma {:induction false} NoTokenTwice(p: Provider, xs: nat -> Exchange, ctx: Context,
                                        last: nat, heard: seq<string>, r: Round)
    requires RoundOf(p, xs, ctx, last, heard, r)
    ensures EmittedBy(p, xs, last) == []
    ensures heard == if ctx.doneBefore(last) then EmittedBy(p, xs, last) else EmittedBy(p, xs, last + 1)
    ensures r.Replied? ==> Concat(heard) == r.reply.content
  {
    NothingBefore(p, xs, ctx, last);
    ContentIsWhatWasEmitted(p, xs(last));
    assert [] + Attempt(p, xs(last)).0 == Attempt(p, xs(last)).0;
  }

  lemma {:induction false} NothingBefore(p: Provider, xs: nat -> Exchange, ctx: Context, n: nat)
    requires forall k :: 0 <= k < n ==> Retried(p, xs, ctx, k)
    ensures EmittedBy(p, xs, n) == []
  {
    if n > 0 {
      NothingBefore(p, xs, ctx, n - 1);
      assert Retried(p, xs, ctx, n - 1);
    }
  }

  /** The retry rule leaves no choice: the same exchanges and context end every round alike. */
  lemma RoundIsDetermined(p: Provider, xs: nat -> Exchange, ctx: Context,
                          last: nat, heard: seq<string>, r: Round, last': nat, heard': seq<string>, r': Round)
    requires RoundOf(p, xs, ctx, last, heard, r) && RoundOf(p, xs, ctx, last', heard', r')
    ensures last == last' && heard == heard' && r == r'
  {
    EndIsNotRetried(p, xs, ctx, last, heard, r);
    EndIsNotRetried(p, xs, ctx, last', heard', r');
  }

  lemma EndIsNotRetried(p: Provider, xs: nat -> Exchange, ctx: Context, k: nat, heard: seq<string>, r: Round)
    requires k <= MAX_RETRIES && EndsAt(p, xs, ctx, k, heard, r)
    ensures !Retried(p, xs, ctx, k)
  {
  }

  // ----- what a round comes to, from the bytes of its responses

  /** The payloads decode to the frames or events of a stream that is over after n of them, or is never over. */
  ghost predicate OverAt(p: Provider, payloads: seq<string>, n: nat) {
    match p
    case OpenAiFormat(_) => Sse.StopsAt(data => data == "[DONE]", payloads, n)
    case AnthropicFormat(decode) => Anthropic.MessageEndsAt(decode, payloads, n)
  }

  /** What the given payloads say, under either format. */
  function Said(p: Provider, payloads: seq<string>): (seq<string>, Reply) {
    match p
    case OpenAiFormat(decode) =>
      var frames := OpenAi.Decoded(decode, payloads);
      (OpenAi.Deltas(frames), OpenAi.ReplyTo(frames))
    case AnthropicFormat(decode) =>
      var events := Anthropic.Events(decode, payloads);
      (Anthropic.Deltas(events), Anthropic.ReplyTo(events))
  }

  lemma StreamOf(p: Provider, items: seq<Sse.Item>, readError: Option<string>, n: nat)
    requires forall i :: 0 <= i < |items| ==> Sse.Printable(items[i])
    requires OverAt(p, Sse.PayloadsOf(items), n)
    ensures
      var payloads := Sse.PayloadsOf(items);
      var (text, reply) := Said(p, payloads[..n]);
      StreamOutcome(p, Sse.Body(Sse.Print(items), readError)) ==
        (text, if n < |payloads| || readError.None? then Ok(reply) else Err(readError.value))
  {
    match p
    case OpenAiFormat(decode) => OpenAi.StreamLaw(items, readError, decode, n);
    case AnthropicFormat(decode) => Anthropic.StreamLaw(items, readError, decode, n);
  }

  /** Attempt k is made: every attempt before it failed in silence and was worth retrying. */
  ghost predicate Made(p: Provider, xs: nat -> Exchange, ctx: Context, k: nat) {
    k <= MAX_RETRIES && !ctx.doneBefore(k) && forall j :: 0 <= j < k ==> Retried(p, xs, ctx, j)
  }

  lemma MadeIsReached(p: Provider, xs: nat -> Exchange, ctx: Context, k: nat,
                      last: nat, heard: seq<string>, r: Round)
    requires Made(p, xs, ctx, k) && RoundOf(p, xs, ctx, last, heard, r)
    ensures k <= last && (!Retried(p, xs, ctx, k) ==> last == k)
  {
    EndIsNotRetried(p, xs, ctx, last, heard, r);
  }

  /** A response with a status from 200 to 299 and a whole stream ends the round with its reply. */
  lemma WholeStreamReplies(p: Provider, xs: nat -> Exchange, ctx: Context, k: nat, status: int,
                           items: seq<Sse.Item>, readError: Option<string>, n: nat,
                           last: nat, heard: seq<string>, r: Round)
    requires forall i :: 0 <= i < |items| ==> Sse.Printable(items[i])
    requires OverAt(p, Sse.PayloadsOf(items), n) && (n < |Sse.PayloadsOf(items)| || readError.None?)
    requires 200 <= status <= 299 && xs(k) == Response(status, Sse.Body(Sse.Print(items), readError))
    requires Made(p, xs, ctx, k) && RoundOf(p, xs, ctx, last, heard, r)
    ensures
      var (text, reply) := Said(p, Sse.PayloadsOf(items)[..n]);
      last == k && heard == text && r == Replied(reply)
  {
    StreamOf(p, items, readError, n);
    MadeIsReached(p, xs, ctx, k, last, heard, r);
  }

  /** How a round goes on after a failure: it is retried, cancelled while waiting, or given up. */
  ghost predicate FailsWith(p: Provider, xs: nat -> Exchange, ctx: Context, k: nat, f: string, worthIt: bool,
                            text: seq<string>, last: nat, heard: seq<string>, r: Round) {
    if worthIt && k < MAX_RETRIES then
      if ctx.doneAfter(k) then last == k && heard == [] && r == Cancelled else last > k
    else
      last == k && heard == text && r.Gave? && r.failure.message == f
  }

  lemma FailedAttempt(p: Provider, xs: nat -> Exchange, ctx: Context, k: nat, text: seq<string>, f: Failure,
                      last: nat, heard: seq<string>, r: Round)
    requires Attempt(p, xs(k)) == (text, Failed(f))
    requires Made(p, xs, ctx, k) && RoundOf(p, xs, ctx, last, heard, r)
    ensures FailsWith(p, xs, ctx, k, f.message, text == [] && IsRetryable(f), text, last, heard, r)
  {
    MadeIsReached(p, xs, ctx, k, last, heard, r);
  }

  /**
   * A stream that breaks off fails with the read error. The attempt is worth another one
   * exactly when nothing was heard of it and the error does not read like an HTTP 4xx.
   */
  lemma BrokenStreamFails(p: Provider, xs: nat -> Exchange, ctx: Context, k: nat, status: int,
                          items: seq<Sse.Item>, error: string, last: nat, heard: seq<string>, r: Round)
    requires forall i :: 0 <= i < |items| ==> Sse.Printable(items[i])
    requires OverAt(p, Sse.PayloadsOf(items), |Sse.PayloadsOf(items)|)
    requires 200 <= status <= 299 && xs(k) == Response(status, Sse.Body(Sse.Print(items), Some(error)))
    requires Made(p, xs, ctx, k) && RoundOf(p, xs, ctx, last, heard, r)
    ensures
      var text := Said(p, Sse.PayloadsOf(items)).0;
      FailsWith(p, xs, ctx, k, error, text == [] && !HasPrefix(error, "LLM HTTP 4"), text, last, heard, r)
  {
    BrokenAttempt(p, status, items, error);
    FailedAttempt(p, xs, ctx, k, Said(p, Sse.PayloadsOf(items)).0, Failure(false, error), last, heard, r);
  }

  lemma BrokenAttempt(p: Provider, status: int, items: seq<Sse.Item>, error: string)
    requires forall i :: 0 <= i < |items| ==> Sse.Printable(items[i])
    requires OverAt(p, Sse.PayloadsOf(items), |Sse.PayloadsOf(items)|) && 200 <= status <= 299
    ensures Attempt(p, Response(status, Sse.Body(Sse.Print(items), Some(error))))
      == (Said(p, Sse.PayloadsOf(items)).0, Failed(Failure(false, error)))
  {
    var payloads := Sse.PayloadsOf(items);
    StreamOf(p, items, Some(error), |payloads|);
    assert payloads[..|payloads|] == payloads;
  }

  /** A status outside 200 to 299 fails with that status, and nothing is heard. */
  lemma BadStatusFails(p: Provider, xs: nat -> Exchange, ctx: Context, k: nat, status: int, body: Sse.Body,
                       last: nat, heard: seq<string>, r: Round)
    requires !(200 <= status <= 299) && xs(k) == Response(status, body)
    requires Made(p, xs, ctx, k) && RoundOf(p, xs, ctx, last, heard, r)
    ensures FailsWith(p, xs, ctx, k, "LLM HTTP " + Challenge.FormatInt(status),
                      !(StartsWithFour(status) && status != 429), [], last, heard, r)
  {
    FinalStatuses(status);
    FailedAttempt(p, xs, ctx, k, [], HttpError(status), last, heard, r);
  }

  /** Without a response the attempt fails with the transport's error, and nothing is heard. */
  lemma NoResponseFails(p: Provider, xs: nat -> Exchange, ctx: Context, k: nat, error: string,
                        last: nat, heard: seq<string>, r: Round)
    requires xs(k) == NoResponse(error)
    requires Made(p, xs, ctx, k) && RoundOf(p, xs, ctx, last, heard, r)
    ensures FailsWith(p, xs, ctx, k, error, !HasPrefix(error, "LLM HTTP 4"), [], last, heard, r)
  {
    FailedAttempt(p, xs, ctx, k, [], Failure(false, error), last, heard, r);
  }
}
