/** The bounded loop that lets the model read through the private MCP tools. */
module Runner {
  import opened Text
  import Assembly
  import opened Translation
  import opened McpClient

  const MAX_ROUNDS := 8

  datatype RunError = NoTools | ChatFailed | NotReadOnly | BadArguments | TooManyRounds

  predicate ReadOnly(name: string) {
    var n := ToLower(TrimSpace(name));
    HasPrefix(n, "get_") || HasPrefix(n, "list_") || HasPrefix(n, "quote_") || n == "whoami"
  }

  /** The names the model is offered. */
  function Offered(tools: Catalog): set<string> {
    set name | name in tools && ReadOnly(name)
  }

  /** A tool the runner may call is one that the client may send twice. */
  lemma ReadOnlyIsRetrySafe(name: string)
    ensures ReadOnly(name) ==> RetrySafeTool(name)
  {
  }

  /** `later` extends `log` by calls of the given tools only. */
  ghost predicate OnlySends(log: seq<Event>, later: seq<Event>, names: set<string>) {
    && log <= later
    && forall i :: |log| <= i < |later| && later[i].Sent? ==> later[i].tool in names
  }

  lemma OneCall(b: Backend, s: State, log: seq<Event>, tool: string, names: set<string>)
    requires OnlySends(log, s.log, names) && (tool in s.tools ==> tool in names)
    ensures OnlySends(log, Called(b, s, tool).0.log, names)
  {
    SendDiscipline(b, s, tool);
    var later := Called(b, s, tool).0.log;
    forall i | |s.log| <= i < |later| && later[i].Sent?
      ensures later[i].tool in names
    {
      assert later[i] == Added(b, s, tool)[i - |s.log|];
    }
  }

  // ----- the tool calls of one assistant message

  /** What a call does to the client, and its result; and the calls that are not made at all. */
  datatype Env = Env(
    use: (State, string) -> (State, Result<string, string>),
    refuses: Assembly.ToolCall -> Option<RunError>)

  /** `decodes` tells which arguments decode to a JSON object, or to null. */
  ghost function Through(b: Backend, decodes: string -> bool): Env {
    Env((s, tool) => Called(b, s, tool), call => Refusal(call, decodes))
  }

  function Refusal(call: Assembly.ToolCall, decodes: string -> bool): Option<RunError> {
    if !ReadOnly(call.name) then Some(NotReadOnly)
    else if !decodes(call.arguments) then Some(BadArguments)
    else None
  }

  function Last<T>(s: seq<T>): T
    requires s != []
  {
    s[|s| - 1]
  }

  /** The states the client passes through: call k takes state k to the next one. */
  ghost predicate Made(env: Env, states: seq<State>, calls: seq<Assembly.ToolCall>) {
    && 1 <= |states| <= |calls| + 1
    && forall k :: 0 <= k < |states| - 1 ==>
         env.refuses(calls[k]).None? && states[k + 1] == env.use(states[k], calls[k].name).0
  }

  /** Each call made is answered under its own id and name with its own result. */
  ghost predicate Answered(env: Env, states: seq<State>, calls: seq<Assembly.ToolCall>, answers: seq<Message>) {
    && |answers| == |states| - 1 <= |calls|
    && forall k :: 0 <= k < |answers| ==>
         var out := env.use(states[k], calls[k].name).1;
         var text := if out.Ok? then out.value else "error: " + out.error;
         answers[k] == Message(Role.Tool, text, [], calls[k].id, calls[k].name)
  }

  lemma OneMoreCall(env: Env, states: seq<State>, calls: seq<Assembly.ToolCall>, answers: seq<Message>,
                    next: State, answer: Message)
    requires Made(env, states, calls) && Answered(env, states, calls, answers) && |answers| < |calls|
    requires
      var call := calls[|answers|];
      var (t, out) := env.use(Last(states), call.name);
      && env.refuses(call).None? && next == t
      && answer == Message(Role.Tool, if out.Ok? then out.value else "error: " + out.error, [], call.id, call.name)
    ensures Made(env, states + [next], calls) && Answered(env, states + [next], calls, answers + [answer])
  {
  }

  ghost predicate Extends(s: State, t: State) {
    t.tools == s.tools && OnlySends(s.log, t.log, Offered(s.tools))
  }

  lemma ExtendsOn(s: State, t: State, u: State)
    requires Extends(s, t) && Extends(t, u)
    ensures Extends(s, u)
  {
    forall i | |s.log| <= i < |u.log| && u.log[i].Sent?
      ensures u.log[i].tool in Offered(s.tools)
    {
      if i < |t.log| {
        assert t.log[i] == u.log[i];
      }
    }
  }

  lemma CallExtends(b: Backend, s: State, tool: string)
    requires ReadOnly(tool)
    ensures Extends(s, Called(b, s, tool).0)
  {
    CallKeepsTools(b, s, tool);
    OneCall(b, s, s.log, tool, Offered(s.tools));
  }

  /** Nothing is sent but the tools on offer. */
  lemma {:induction false} CallsExtend(b: Backend, decodes: string -> bool, states: seq<State>,
                                       calls: seq<Assembly.ToolCall>)
    requires Made(Through(b, decodes), states, calls)
    ensures Extends(states[0], Last(states))
  {
    if |states| > 1 {
      var before, k := states[..|states| - 1], |states| - 2;
      assert Last(before) == states[k];
      CallsExtend(b, decodes, before, calls);
      assert Through(b, decodes).refuses(calls[k]) == Refusal(calls[k], decodes);
      CallExtends(b, states[k], calls[k].name);
      ExtendsOn(states[0], states[k], Last(states));
    }
  }

  ghost predicate Passed(env: Env, calls: seq<Assembly.ToolCall>) {
    forall k :: 0 <= k < |calls| ==> env.refuses(calls[k]).None?
  }

  lemma PassedMeansAllowed(b: Backend, decodes: string -> bool, calls: seq<Assembly.ToolCall>)
    requires Passed(Through(b, decodes), calls)
    ensures forall k :: 0 <= k < |calls| ==> ReadOnly(calls[k].name) && decodes(calls[k].arguments)
  {
    forall k | 0 <= k < |calls|
      ensures ReadOnly(calls[k].name) && decodes(calls[k].arguments)
    {
      assert Through(b, decodes).refuses(calls[k]) == Refusal(calls[k], decodes);
    }
  }

  /** Runs the calls in order, up to the first that is refused; `states` is what the client went through. */
  method AnswerCalls(client: Client, calls: seq<Assembly.ToolCall>, decodes: string -> bool)
    returns (r: Result<seq<Message>, RunError>, ghost states: seq<State>)
    modifies client
    ensures
      var env := Through(client.backend, decodes);
      && Made(env, states, calls) && states[0] == old(client.View()) && Last(states) == client.View()
      && (r.Ok? ==> |states| == |calls| + 1 && Answered(env, states, calls, r.value))
      && (r.Err? ==> |states| <= |calls| && env.refuses(calls[|states| - 1]) == Some(r.error))
    ensures r.Ok? ==> forall k :: 0 <= k < |calls| ==> ReadOnly(calls[k].name) && decodes(calls[k].arguments)
    ensures OnlySends(old(client.log), client.log, Offered(client.tools))
  {
    ghost var env := Through(client.backend, decodes);
    var answers: seq<Message> := [];
    states := [client.View()];
    for k := 0 to |calls|
      invariant |answers| == k && states != [] && states[0] == old(client.View()) && Last(states) == client.View()
      invariant Made(env, states, calls) && Answered(env, states, calls, answers)
    {
      var call := calls[k];
      if !ReadOnly(call.name) {
        CallsExtend(client.backend, decodes, states, calls);
        return Err(NotReadOnly), states;
      }
      if !decodes(call.arguments) {
        CallsExtend(client.backend, decodes, states, calls);
        return Err(BadArguments), states;
      }
      var out := client.Call(call.name);
      var text := if out.Ok? then out.value else "error: " + out.error;
      var answer := Message(Role.Tool, text, [], call.id, call.name);
      OneMoreCall(env, states, calls, answers, client.View(), answer);
      states, answers := states + [client.View()], answers + [answer];
    }
    CallsExtend(client.backend, decodes, states, calls);
    PassedMeansAllowed(client.backend, decodes, calls);
    return Ok(answers), states;
  }

  /** Seen from the backend: each call sends its own tool, and its answer is what that tool delivered. */
  lemma OwnToolOwnReply(b: Backend, decodes: string -> bool, states: seq<State>, calls: seq<Assembly.ToolCall>,
                        answers: seq<Message>, k: nat) returns (out: Result<string, string>)
    requires Made(Through(b, decodes), states, calls) && Answered(Through(b, decodes), states, calls, answers)
    requires k < |answers|
    ensures calls[k].name in states[k].tools && states[k].session.Some? ==>
      states[k].log + [Sent(states[k].session.value, calls[k].name)] <= states[k + 1].log
    ensures Delivered(b, states[k], calls[k].name, out)
    ensures answers[k].content == if out.Ok? then out.value else "error: " + out.error
    ensures answers[k].toolCallId == calls[k].id && answers[k].name == calls[k].name
  {
    out := Called(b, states[k], calls[k].name).1;
    CallDelivers(b, states[k], calls[k].name);
    if calls[k].name in states[k].tools && states[k].session.Some? {
      CallAdds(b, states[k], calls[k].name);
    }
  }

  // ----- the rounds of a task

  /** `chats` is what the model returns to each request, None for an error. */
  datatype Task = Task(prompt: string, intent: string, chats: nat -> Option<Assembly.Reply>)

  function CallsOf(task: Task, k: nat): seq<Assembly.ToolCall> {
    if task.chats(k).Some? then task.chats(k).value.calls else []
  }

  /** Every call of round k was made. */
  ghost predicate Completed(task: Task, k: nat, states: seq<State>) {
    CallsOf(task, k) != [] && |states| == |CallsOf(task, k)| + 1
  }

  /** Round k adds the model's own message to the history, and then the answers to its calls. */
  ghost predicate Grows(env: Env, task: Task, k: nat, states: seq<State>, h: seq<Message>, later: seq<Message>) {
    && Completed(task, k, states)
    && var reply := task.chats(k).value;
       && |later| > |h| && later[..|h|] == h
       && later[|h|] == Message(Assistant, reply.content, reply.calls, "", "")
       && Answered(env, states, reply.calls, later[|h| + 1..])
  }

  /** The result when round k is the last. */
  ghost predicate Ends(env: Env, task: Task, k: nat, states: seq<State>, r: Result<string, RunError>) {
    if task.chats(k).None? then r == Err(ChatFailed)
    else
      var reply := task.chats(k).value;
      if reply.calls == [] then
        var text := TrimSpace(reply.content);
        r == Ok(if text != "" then text else "(no response)")
      else if 1 <= |states| <= |reply.calls| then
        r.Err? && env.refuses(reply.calls[|states| - 1]) == Some(r.error)
      else r == Err(TooManyRounds)
  }

  /**
   * A task of at most `limit` rounds: the requests sent, the states of each round, the result
   * and the client it leaves. It goes on exactly while every call is made, up to the limit.
   */
  ghost predicate Played(env: Env, s: State, task: Task, limit: nat, requests: seq<seq<Message>>,
                         rounds: seq<seq<State>>, r: Result<string, RunError>, left: State) {
    && 1 <= |requests| == |rounds| <= limit
    && Going(env, s, task, requests, rounds, |requests| - 1)
    && Last(rounds) != [] && Last(Last(rounds)) == left
    && Ends(env, task, |requests| - 1, Last(rounds), r)
    && (Completed(task, |requests| - 1, Last(rounds)) ==> |requests| == limit)
  }

  /** The first request is the prompt and the intent, and the first n rounds were completed. */
  ghost predicate Going(env: Env, s: State, task: Task, requests: seq<seq<Message>>, rounds: seq<seq<State>>, n: nat) {
    && n < |requests| && n <= |rounds|
    && requests[0] == [Message(System, task.prompt, [], "", ""), Message(User, task.intent, [], "", "")]
    && (forall k :: 0 <= k < |rounds| ==> Made(env, rounds[k], CallsOf(task, k)) && rounds[k][0] == At(s, rounds, k))
    && forall k :: 0 <= k < n ==> Grows(env, task, k, rounds[k], requests[k], requests[k + 1])
  }

  /** The client when round k begins. */
  ghost function At(s: State, rounds: seq<seq<State>>, k: nat): State {
    if 0 < k <= |rounds| && rounds[k - 1] != [] then Last(rounds[k - 1]) else s
  }

  /** A well-paired history that opens with the prompt and the intent. */
  ghost predicate History(h: seq<Message>, task: Task) {
    WellPaired(h) && h[0].content == task.prompt && h[1].content == task.intent
  }

  /** Every call in a history was let through. */
  ghost predicate AllPassed(env: Env, h: seq<Message>) {
    forall k :: 0 <= k < |h| ==> Passed(env, h[k].calls)
  }

  /** The later history repeats the earlier one and adds exactly one round. */
  ghost predicate Follows(earlier: seq<Message>, later: seq<Message>) {
    earlier < later && Round(later[|earlier|..], |later| - |earlier| - 1)
  }

  /** The requests of a task, oldest first: each is a history of it, one round longer than the one before. */
  ghost predicate Transcript(env: Env, requests: seq<seq<Message>>, task: Task) {
    && (forall k :: 0 <= k < |requests| ==> History(requests[k], task) && AllPassed(env, requests[k]))
    && (forall k :: 0 < k < |requests| ==> Follows(requests[k - 1], requests[k]))
  }

  // ----- every history is well paired

  lemma AnsweredIsRound(env: Env, states: seq<State>, asked: Message, answers: seq<Message>)
    requires asked.role == Assistant && asked.calls != []
    requires |answers| == |asked.calls| && Answered(env, states, asked.calls, answers)
    ensures Round([asked] + answers, |answers|)
    ensures forall k :: 0 <= k < |answers| ==> answers[k].calls == []
  {
    var round := [asked] + answers;
    assert forall k :: 1 <= k <= |answers| ==> round[k] == answers[k - 1];
  }

  lemma ExtendHistory(h: seq<Message>, task: Task, round: seq<Message>, n: nat)
    requires History(h, task) && |round| == n + 1 && Round(round, n)
    ensures History(h + round, task) && Follows(h, h + round)
  {
    RoundsAppend(h[2..], round, n);
    assert (h + round)[2..] == h[2..] + round && (h + round)[|h|..] == round;
  }

  lemma ExtendPassed(env: Env, h: seq<Message>, asked: Message, answers: seq<Message>)
    requires AllPassed(env, h) && Passed(env, asked.calls)
    requires forall k :: 0 <= k < |answers| ==> answers[k].calls == []
    ensures AllPassed(env, h + ([asked] + answers))
  {
    var later := h + ([asked] + answers);
    forall k | 0 <= k < |later|
      ensures Passed(env, later[k].calls)
    {
      if k > |h| {
        assert later[k] == answers[k - |h| - 1];
      }
    }
  }

  lemma OneMoreRound(env: Env, task: Task, k: nat, states: seq<State>, h: seq<Message>, later: seq<Message>)
    requires Made(env, states, CallsOf(task, k)) && Grows(env, task, k, states, h, later)
    requires History(h, task) && AllPassed(env, h)
    ensures History(later, task) && AllPassed(env, later) && Follows(h, later)
  {
    var asked, answers := later[|h|], later[|h| + 1..];
    assert later == h + ([asked] + answers);
    AnsweredIsRound(env, states, asked, answers);
    ExtendHistory(h, task, [asked] + answers, |answers|);
    ExtendPassed(env, h, asked, answers);
  }

  lemma FirstRequest(env: Env, h: seq<Message>, task: Task)
    requires h == [Message(System, task.prompt, [], "", ""), Message(User, task.intent, [], "", "")]
    ensures History(h, task) && AllPassed(env, h)
  {
  }

  lemma {:induction false} RequestIsHistory(env: Env, s: State, task: Task, requests: seq<seq<Message>>,
                                            rounds: seq<seq<State>>, n: nat, k: nat)
    requires Going(env, s, task, requests, rounds, n) && k <= n
    ensures History(requests[k], task) && AllPassed(env, requests[k])
    ensures k > 0 ==> Follows(requests[k - 1], requests[k])
  {
    if k == 0 {
      FirstRequest(env, requests[0], task);
    } else {
      RequestIsHistory(env, s, task, requests, rounds, n, k - 1);
      OneMoreRound(env, task, k - 1, rounds[k - 1], requests[k - 1], requests[k]);
    }
  }

  /** The requests of a task are well paired, and each adds one round to the one before. */
  lemma RequestsAreTranscript(env: Env, s: State, task: Task, requests: seq<seq<Message>>, rounds: seq<seq<State>>)
    requires requests != [] && Going(env, s, task, requests, rounds, |requests| - 1)
    ensures Transcript(env, requests, task)
  {
    forall k | 0 <= k < |requests|
      ensures History(requests[k], task) && AllPassed(env, requests[k])
      ensures k > 0 ==> Follows(requests[k - 1], requests[k])
    {
      RequestIsHistory(env, s, task, requests, rounds, |requests| - 1, k);
    }
  }

  lemma {:induction false} RoundsExtend(b: Backend, decodes: string -> bool, s: State, task: Task,
                                        requests: seq<seq<Message>>, rounds: seq<seq<State>>, n: nat, k: nat)
    requires Going(Through(b, decodes), s, task, requests, rounds, n) && k < |rounds|
    ensures Extends(s, Last(rounds[k]))
  {
    CallsExtend(b, decodes, rounds[k], CallsOf(task, k));
    if k > 0 {
      RoundsExtend(b, decodes, s, task, requests, rounds, n, k - 1);
      ExtendsOn(s, rounds[k][0], Last(rounds[k]));
    }
  }

  lemma PlayedIsOrderly(b: Backend, decodes: string -> bool, s: State, task: Task, limit: nat,
                        requests: seq<seq<Message>>, rounds: seq<seq<State>>, r: Result<string, RunError>, left: State)
    requires Played(Through(b, decodes), s, task, limit, requests, rounds, r, left)
    ensures |requests| <= limit && Transcript(Through(b, decodes), requests, task)
    ensures OnlySends(s.log, left.log, Offered(s.tools))
  {
    RequestsAreTranscript(Through(b, decodes), s, task, requests, rounds);
    RoundsExtend(b, decodes, s, task, requests, rounds, |requests| - 1, |rounds| - 1);
  }

  /**
   * A message of a request loses no meaning in translation, unless the arguments of a call
   * were the JSON null, which the runner lets through. An empty text never decodes.
   */
  lemma RequestKeepsMeaning(parse: string -> Json, b: Backend, decodes: string -> bool, m: Message)
    requires Passed(Through(b, decodes), m.calls) && !decodes("")
    ensures ReadBack(Translate(parse, m)) == Meant(parse, m) <==>
      (m.role == Assistant ==> forall k :: 0 <= k < |m.calls| ==> !parse(m.calls[k].arguments).Null?)
  {
    PassedMeansAllowed(b, decodes, m.calls);
    ReadsAsSupplied(parse, m);
    SuppliedIsMeant(parse, m);
    assert forall k :: 0 <= k < |m.calls| ==>
      (Survives(parse, m.calls[k].arguments) <==> !parse(m.calls[k].arguments).Null?);
  }

  // ----- the loop

  /** One round: the task ends, or the history grows by a round. */
  method PlayRound(client: Client, task: Task, decodes: string -> bool, round: nat, messages: seq<Message>)
    returns (ended: Option<Result<string, RunError>>, later: seq<Message>, ghost states: seq<State>)
    modifies client
    ensures
      var env := Through(client.backend, decodes);
      && Made(env, states, CallsOf(task, round)) && states[0] == old(client.View()) && Last(states) == client.View()
      && (ended.Some? ==> Ends(env, task, round, states, ended.value) && !Completed(task, round, states))
      && (ended.None? ==> Grows(env, task, round, states, messages, later))
  {
    states := [client.View()];
    var chat := task.chats(round);
    if chat.None? {
      return Some(Err(ChatFailed)), messages, states;
    }
    var reply := chat.value;
    if reply.calls == [] {
      var text := TrimSpace(reply.content);
      return Some(Ok(if text != "" then text else "(no response)")), messages, states;
    }
    var answers;
    answers, states := AnswerCalls(client, reply.calls, decodes);
    if answers.Err? {
      return Some(Err(answers.error)), messages, states;
    }
    later := messages + [Message(Assistant, reply.content, reply.calls, "", "")] + answers.value;
    assert later[|messages| + 1..] == answers.value && later[..|messages|] == messages;
    return None, later, states;
  }

  lemma OneMoreTrace(env: Env, s: State, task: Task, requests: seq<seq<Message>>, rounds: seq<seq<State>>,
                     states: seq<State>)
    requires |requests| == |rounds| + 1 && Going(env, s, task, requests, rounds, |rounds|)
    requires Made(env, states, CallsOf(task, |rounds|)) && states[0] == At(s, rounds, |rounds|)
    ensures Going(env, s, task, requests, rounds + [states], |rounds|)
  {
    var more := rounds + [states];
    forall k | 0 <= k < |more|
      ensures Made(env, more[k], CallsOf(task, k)) && more[k][0] == At(s, more, k)
    {
      if k < |rounds| {
        assert more[k] == rounds[k];
      }
      assert At(s, more, k) == At(s, rounds, k);
    }
  }

  lemma GoOn(env: Env, s: State, task: Task, requests: seq<seq<Message>>, rounds: seq<seq<State>>,
             states: seq<State>, later: seq<Message>)
    requires |requests| == |rounds| + 1 && Going(env, s, task, requests, rounds, |rounds|)
    requires Made(env, states, CallsOf(task, |rounds|)) && states[0] == At(s, rounds, |rounds|)
    requires Grows(env, task, |rounds|, states, requests[|rounds|], later)
    ensures Going(env, s, task, requests + [later], rounds + [states], |rounds| + 1)
  {
    OneMoreTrace(env, s, task, requests, rounds, states);
  }

  lemma StopHere(env: Env, s: State, task: Task, limit: nat, requests: seq<seq<Message>>, rounds: seq<seq<State>>,
                 states: seq<State>, r: Result<string, RunError>)
    requires |requests| == |rounds| + 1 <= limit && Going(env, s, task, requests, rounds, |rounds|)
    requires Made(env, states, CallsOf(task, |rounds|)) && states[0] == At(s, rounds, |rounds|)
    requires Ends(env, task, |rounds|, states, r) && !Completed(task, |rounds|, states)
    ensures Played(env, s, task, limit, requests, rounds + [states], r, Last(states))
  {
    OneMoreTrace(env, s, task, requests, rounds, states);
  }

  /** Going on after the last round is an error. */
  lemma LimitReached(env: Env, s: State, task: Task, requests: seq<seq<Message>>, more: seq<Message>,
                     rounds: seq<seq<State>>)
    requires requests != [] && |requests| == |rounds| && Going(env, s, task, requests + [more], rounds, |rounds|)
    ensures
      Played(env, s, task, |requests|, requests, rounds, Err(TooManyRounds), At(s, rounds, |rounds|))
  {
    var all := requests + [more];
    assert forall k :: 0 <= k < |requests| ==> all[k] == requests[k];
    assert Grows(env, task, |requests| - 1, rounds[|requests| - 1], all[|requests| - 1], all[|requests|]);
  }

  /** The loop over the rounds. */
  method PlayRounds(client: Client, task: Task, decodes: string -> bool, limit: nat)
    returns (r: Result<string, RunError>, requests: seq<seq<Message>>, ghost rounds: seq<seq<State>>)
    requires limit > 0
    modifies client
    ensures
      Played(Through(client.backend, decodes), old(client.View()), task, limit, requests, rounds, r, client.View())
  {
    ghost var env, s := Through(client.backend, decodes), client.View();
    requests, rounds := [], [];
    var messages := [Message(System, task.prompt, [], "", ""), Message(User, task.intent, [], "", "")];
    for round := 0 to limit
      invariant |requests| == |rounds| == round && client.View() == At(s, rounds, round)
      invariant Going(env, s, task, requests + [messages], rounds, round)
    {
      requests := requests + [messages];
      var ended, later;
      ghost var states;
      ended, later, states := PlayRound(client, task, decodes, round, messages);
      if ended.Some? {
        StopHere(env, s, task, limit, requests, rounds, states, ended.value);
        return ended.value, requests, rounds + [states];
      }
      GoOn(env, s, task, requests, rounds, states, later);
      messages, rounds := later, rounds + [states];
    }
    LimitReached(env, s, task, requests, messages, rounds);
    return Err(TooManyRounds), requests, rounds;
  }

  /** One task; `requests` are the histories the model was sent. */
  method Run(client: Client, task: Task, decodes: string -> bool)
    returns (r: Result<string, RunError>, requests: seq<seq<Message>>, ghost rounds: seq<seq<State>>)
    modifies client
    ensures Offered(client.tools) == {} ==>
      r == Err(NoTools) && requests == [] && client.View() == old(client.View())
    ensures Offered(client.tools) != {} ==>
      Played(Through(client.backend, decodes), old(client.View()), task, MAX_ROUNDS, requests, rounds, r, client.View())
    ensures |requests| <= MAX_ROUNDS && Transcript(Through(client.backend, decodes), requests, task)
    ensures OnlySends(old(client.log), client.log, Offered(client.tools))
  {
    if Offered(client.tools) == {} {
      return Err(NoTools), [], [];
    }
    ghost var s := client.View();
    r, requests, rounds := PlayRounds(client, task, decodes, MAX_ROUNDS);
    PlayedIsOrderly(client.backend, decodes, s, task, MAX_ROUNDS, requests, rounds, r, client.View());
  }
}
