/**
 * The private MCP connection: one session at a time over a catalog frozen at startup. The
 * backend is an oracle, and the ghost log records every session opened or closed and every
 * tool call sent.
 */
module McpClient {
  import opened Text

  /** An input schema, compared by structure. */
  datatype Schema = Schema(json: string)

  datatype Tool = Tool(name: string, description: string, schema: Schema)

  type Catalog = map<string, Tool>

  /** One entry of a tools/list reply; the schema may be missing. */
  datatype Listed = Listed(name: string, description: string, schema: Option<Schema>)

  datatype Connection = Refused(error: string) | ListFailed(error: string) | Lists(tools: seq<Listed>)

  datatype Reply = Content(text: string, isError: bool) | Failed(error: string)

  /** What the n-th connection attempt and the n-th call sent will meet. */
  datatype Backend = Backend(connections: nat -> Connection, replies: nat -> Reply)

  datatype Event = Opened(session: nat) | Closed(session: nat) | Sent(session: nat, tool: string)

  // ----- names and errors

  predicate SessionFailure(error: string) {
    var message := ToLower(error);
    || Contains(message, "409 conflict")
    || Contains(message, "stream id conflicts")
    || Contains(message, "connection closed")
    || Contains(message, "broken session")
    || Contains(message, "client is closing")
    || Contains(message, "hanging get")
    || Contains(message, "failed to reconnect")
    || Contains(message, "consumer stopped")
    || Contains(message, "session is closed")
    || Contains(message, "session not found")
  }

  predicate RetrySafeTool(name: string) {
    var n := ToLower(TrimSpace(name));
    || HasPrefix(n, "get_")
    || HasPrefix(n, "list_")
    || HasPrefix(n, "quote_")
    || HasPrefix(n, "build_")
    || (Contains(n, "_build_") && HasSuffix(n, "_tx"))
    || n == "whoami"
  }

  const NOT_CONNECTED := "private defi mcp" + " session is" + " not connected"

  /** Lower-case words without the letters b, h, l and u. */
  ghost predicate Plain(s: string) {
    forall i :: 0 <= i < |s| ==>
      (s[i] == ' ' || 'a' <= s[i] <= 'z') && s[i] != 'b' && s[i] != 'h' && s[i] != 'l' && s[i] != 'u'
  }

  /** Every pattern has a character that such a text lacks. */
  lemma PlainIsNotSessionFailure(s: string)
    requires Plain(s)
    ensures !SessionFailure(s)
  {
    assert forall i :: 0 <= i < |s| ==> LowerChar(s[i]) == s[i];
    assert ToLower(s) == s;
    MissingChar(s, "409 conflict", 0);
    MissingChar(s, "stream id conflicts", 14);
    MissingChar(s, "connection closed", 12);
    MissingChar(s, "broken session", 0);
    MissingChar(s, "client is closing", 1);
    MissingChar(s, "hanging get", 0);
    MissingChar(s, "failed to reconnect", 3);
    MissingChar(s, "consumer stopped", 4);
    MissingChar(s, "session is closed", 12);
    MissingChar(s, "session not found", 14);
  }

  lemma PlainParts(a: string, b: string, c: string)
    requires Plain(a) && Plain(b) && Plain(c)
    ensures Plain(a + b + c)
  {
  }

  /** The error for a missing session is not itself a session failure. */
  lemma NotConnectedIsNotSessionFailure()
    ensures !SessionFailure(NOT_CONNECTED)
  {
    PlainParts("private defi mcp", " session is", " not connected");
    PlainIsNotSessionFailure(NOT_CONNECTED);
  }

  // ----- the catalog

  function Entry(t: Listed): Tool
    requires t.schema.Some?
  {
    Tool(TrimSpace(t.name), t.description, t.schema.value)
  }

  predicate Acceptable(t: Listed) {
    TrimSpace(t.name) != "" && t.schema.Some?
  }

  ghost predicate ValidListing(tools: seq<Listed>) {
    && tools != []
    && (forall i :: 0 <= i < |tools| ==> Acceptable(tools[i]))
    && (forall i :: 0 <= i < |tools| ==> NewName(tools, i))
  }

  /** The catalog a listing stands for. */
  ghost function CatalogOf(tools: seq<Listed>): Catalog
    requires forall i :: 0 <= i < |tools| ==> Acceptable(tools[i])
  {
    if tools == [] then map[]
    else
      var last := tools[|tools| - 1];
      assert Acceptable(last);
      CatalogOf(tools[..|tools| - 1])[TrimSpace(last.name) := Entry(last)]
  }

  lemma {:induction false} CatalogNames(tools: seq<Listed>)
    requires forall i :: 0 <= i < |tools| ==> Acceptable(tools[i])
    ensures CatalogOf(tools).Keys == set i | 0 <= i < |tools| :: TrimSpace(tools[i].name)
    ensures forall name :: name in CatalogOf(tools) ==> CatalogOf(tools)[name].name == name
  {
    if tools != [] {
      CatalogNames(tools[..|tools| - 1]);
    }
  }

  lemma CatalogStep(tools: seq<Listed>, i: nat)
    requires i < |tools| && forall k :: 0 <= k <= i ==> Acceptable(tools[k])
    ensures CatalogOf(tools[..i + 1]) == CatalogOf(tools[..i])[TrimSpace(tools[i].name) := Entry(tools[i])]
  {
    assert tools[..i + 1][..i] == tools[..i];
  }

  ghost predicate NewName(tools: seq<Listed>, i: nat)
    requires i < |tools|
  {
    forall k :: 0 <= k < i ==> TrimSpace(tools[k].name) != TrimSpace(tools[i].name)
  }

  lemma NewNames(tools: seq<Listed>, i: nat)
    requires i < |tools| && forall k :: 0 <= k < i ==> Acceptable(tools[k])
    ensures TrimSpace(tools[i].name) !in CatalogOf(tools[..i]) <==> NewName(tools, i)
  {
    CatalogNames(tools[..i]);
    assert forall k :: 0 <= k < i ==> tools[..i][k] == tools[k];
  }

  /** The loop of connectSession over the listed tools; None for an error. */
  method ReadListing(tools: seq<Listed>) returns (r: Option<Catalog>)
    ensures r.Some? <==> ValidListing(tools)
    ensures r.Some? ==> r.value == CatalogOf(tools)
  {
    var catalog: Catalog := map[];
    for i := 0 to |tools|
      invariant forall k :: 0 <= k < i ==> Acceptable(tools[k]) && NewName(tools, k)
      invariant catalog == CatalogOf(tools[..i])
      invariant i > 0 ==> catalog != map[]
    {
      NewNames(tools, i);
      var name := TrimSpace(tools[i].name);
      if name == "" || tools[i].schema.None? {
        assert !Acceptable(tools[i]);
        return None;
      }
      if name in catalog {
        assert !NewName(tools, i);
        return None;
      }
      CatalogStep(tools, i);
      catalog := catalog[name := Entry(tools[i])];
      assert name in catalog;
    }
    assert tools[..|tools|] == tools;
    if |catalog| == 0 {
      return None;
    }
    return Some(catalog);
  }

  /**
   * An accepted catalog files every tool under its own name, and no name is empty. It holds
   * each listed tool, with its description and schema under its trimmed name, and no other.
   */
  lemma AcceptedCatalog(tools: seq<Listed>)
    requires ValidListing(tools)
    ensures Named(CatalogOf(tools)) && "" !in CatalogOf(tools)
    ensures forall name :: name in CatalogOf(tools) <==>
      exists i :: 0 <= i < |tools| && TrimSpace(tools[i].name) == name
    ensures forall i :: 0 <= i < |tools| ==>
      var name := TrimSpace(tools[i].name);
      name in CatalogOf(tools) && CatalogOf(tools)[name] == Tool(name, tools[i].description, tools[i].schema.value)
  {
    CatalogNames(tools);
    assert forall i :: 0 <= i < |tools| ==> Acceptable(tools[i]);
    forall i | 0 <= i < |tools|
      ensures CatalogOf(tools)[TrimSpace(tools[i].name)] == Entry(tools[i])
    {
      CatalogHolds(tools, i);
    }
  }

  lemma {:induction false} CatalogHolds(tools: seq<Listed>, i: nat)
    requires i < |tools|
    requires forall k :: 0 <= k < |tools| ==> Acceptable(tools[k])
    requires forall k :: 0 <= k < |tools| ==> NewName(tools, k)
    ensures TrimSpace(tools[i].name) in CatalogOf(tools)
    ensures CatalogOf(tools)[TrimSpace(tools[i].name)] == Entry(tools[i])
  {
    var before := tools[..|tools| - 1];
    if i < |before| {
      assert NewName(tools, |tools| - 1);
      forall k | 0 <= k < |before|
        ensures NewName(before, k)
      {
        assert NewName(tools, k);
      }
      CatalogHolds(before, i);
    }
  }

  predicate SameSchemas(want: Catalog, got: Catalog) {
    want.Keys == got.Keys && forall name :: name in want ==> want[name].schema == got[name].schema
  }

  lemma {:induction false} SubsetOfSameSize(a: set<string>, b: set<string>)
    requires a <= b && |a| == |b|
    ensures a == b
  {
    if a != {} {
      var x :| x in a;
      SubsetOfSameSize(a - {x}, b - {x});
    }
  }

  /** One-sided look-ups and a size check decide two-sided agreement. */
  method SameCatalog(want: Catalog, got: Catalog) returns (same: bool)
    ensures same <==> SameSchemas(want, got)
  {
    if |want| != |got| {
      assert |want.Keys| != |got.Keys|;
      return false;
    }
    var todo := want.Keys;
    while todo != {}
      invariant todo <= want.Keys
      invariant forall n :: n in want && n !in todo ==> n in got && want[n].schema == got[n].schema
      decreases |todo|
    {
      var name :| name in todo;
      todo := todo - {name};
      if name !in got || want[name].schema != got[name].schema {
        return false;
      }
    }
    SubsetOfSameSize(want.Keys, got.Keys);
    return true;
  }

  ghost predicate Named(tools: Catalog) {
    forall name :: name in tools ==> tools[name].name == name
  }

  /** Each tool of the catalog once, in some order. */
  ghost predicate Enumerates(out: seq<Tool>, tools: Catalog) {
    && (forall i :: 0 <= i < |out| ==> out[i].name in tools && tools[out[i].name] == out[i])
    && (forall name :: name in tools ==> tools[name] in out)
    && (forall i, j :: 0 <= i < j < |out| ==> out[i].name != out[j].name)
  }

  // ----- the state machine

  datatype State = State(
    session: Option<nat>,
    tools: Catalog,
    attempts: nat,       // connections tried so far; also the id of the next session
    sent: nat,           // calls sent so far
    log: seq<Event>)

  /** connectSession: the session and its catalog, with every failed session closed again. */
  ghost function Open(b: Backend, s: State): (State, Option<Catalog>) {
    var id, next := s.attempts, s.(attempts := s.attempts + 1);
    match b.connections(id)
    case Refused(_) => (next, None)
    case ListFailed(_) => (next.(log := s.log + [Opened(id), Closed(id)]), None)
    case Lists(tools) =>
      if ValidListing(tools) then (next.(log := s.log + [Opened(id)]), Some(CatalogOf(tools)))
      else (next.(log := s.log + [Opened(id), Closed(id)]), None)
  }

  ghost function CloseCurrent(s: State): State {
    if s.session.None? then s else s.(session := None, log := s.log + [Closed(s.session.value)])
  }

  ghost function Reconnected(b: Backend, s: State): (State, bool) {
    var (next, catalog) := Open(b, CloseCurrent(s));
    if catalog.None? then (next, false)
    else if !SameSchemas(s.tools, catalog.value) then (next.(log := next.log + [Closed(s.attempts)]), false)
    else (next.(session := Some(s.attempts)), true)
  }

  ghost function Send(b: Backend, s: State, tool: string): (State, Reply) {
    if s.session.None? then (s, Failed(NOT_CONNECTED))
    else (s.(sent := s.sent + 1, log := s.log + [Sent(s.session.value, tool)]), b.replies(s.sent))
  }

  predicate Broken(r: Reply) {
    r.Failed? && SessionFailure(r.error)
  }

  /** What Call makes of a reply: a tool error is an error too. */
  function Answer(r: Reply): Result<string, string> {
    match r
    case Failed(error) => Err(error)
    case Content(text, isError) => if isError then Err(TrimSpace(text)) else Ok(text)
  }

  ghost function Called(b: Backend, s: State, tool: string): (State, Result<string, string>) {
    if tool !in s.tools then (s, Err("tool is not in the startup MCP catalog"))
    else
      var (sent, reply) := Send(b, s, tool);
      if !Broken(reply) then (sent, Answer(reply))
      else
        var (reconnected, ok) := Reconnected(b, sent);
        if !ok then (reconnected, Err("private defi mcp session failed"))
        else if !RetrySafeTool(tool) then (reconnected, Answer(reply))
        else
          var (again, second) := Send(b, reconnected, tool);
          (again, Answer(second))
  }

  lemma ReconnectKeepsTools(b: Backend, s: State)
    ensures Reconnected(b, s).0.tools == s.tools
  {
  }

  lemma CallKeepsTools(b: Backend, s: State, tool: string)
    ensures Called(b, s, tool).0.tools == s.tools
  {
    ReconnectKeepsTools(b, Send(b, s, tool).0);
  }

  // ----- the client object

  class Client {
    const backend: Backend
    var session: Option<nat>
    const tools: Catalog
    var attempts: nat
    var sent: nat
    ghost var log: seq<Event>

    ghost function View(): State
      reads this
    {
      State(session, tools, attempts, sent, log)
    }

    /** The client that a successful Connect returns. */
    constructor (backend: Backend, tools: Catalog)
      ensures this.backend == backend
      ensures View() == State(Some(0), tools, 1, 0, [Opened(0)])
    {
      this.backend, this.tools := backend, tools;
      session, attempts, sent, log := Some(0), 1, 0, [Opened(0)];
    }

    method ConnectSession() returns (catalog: Option<Catalog>)
      modifies this
      ensures (View(), catalog) == Open(backend, old(View()))
    {
      var id := attempts;
      attempts := attempts + 1;
      var connection := backend.connections(id);
      match connection {
        case Refused(_) =>
          return None;
        case ListFailed(_) =>
          log := log + [Opened(id), Closed(id)];
          return None;
        case Lists(tools) =>
          catalog := ReadListing(tools);
          log := log + [Opened(id)];
          if catalog.None? {
            log := log + [Closed(id)];
            assert View().log == old(log) + [Opened(id), Closed(id)];
          }
      }
    }

    method Reconnect() returns (ok: bool)
      modifies this
      ensures (View(), ok) == Reconnected(backend, old(View()))
    {
      var previous := session;
      session := None;
      if previous.Some? {
        log := log + [Closed(previous.value)];
      }
      assert View() == CloseCurrent(old(View()));
      var id := attempts;
      var catalog := ConnectSession();
      if catalog.None? {
        return false;
      }
      var same := SameCatalog(tools, catalog.value);
      if !same {
        log := log + [Closed(id)];
        return false;
      }
      session := Some(id);
      return true;
    }

    method CallTool(tool: string) returns (reply: Reply)
      modifies this
      ensures (View(), reply) == Send(backend, old(View()), tool)
    {
      if session.None? {
        return Failed(NOT_CONNECTED);
      }
      log := log + [Sent(session.value, tool)];
      reply := backend.replies(sent);
      sent := sent + 1;
    }

    method Call(tool: string) returns (r: Result<string, string>)
      modifies this
      ensures (View(), r) == Called(backend, old(View()), tool)
      ensures Delivered(backend, old(View()), tool, r)
    {
      CallDelivers(backend, View(), tool);
      if tool !in tools {
        return Err("tool is not in the startup MCP catalog");
      }
      var reply := CallTool(tool);
      if reply.Failed? && SessionFailure(reply.error) {
        var ok := Reconnect();
        if !ok {
          return Err("private defi mcp session failed");
        }
        if RetrySafeTool(tool) {
          reply := CallTool(tool);
        }
      }
      return Answer(reply);
    }

    /** The catalog's tools, in an arbitrary order. */
    method Tools() returns (out: seq<Tool>)
      requires Named(tools)
      ensures Enumerates(out, tools)
    {
      out := [];
      var todo := tools.Keys;
      while todo != {}
        invariant todo <= tools.Keys
        invariant forall i :: 0 <= i < |out| ==>
          out[i].name in tools && tools[out[i].name] == out[i] && out[i].name !in todo
        invariant forall n :: n in tools && n !in todo ==> tools[n] in out
        invariant forall i, j :: 0 <= i < j < |out| ==> out[i].name != out[j].name
        decreases |todo|
      {
        var name :| name in todo;
        todo := todo - {name};
        out := out + [tools[name]];
      }
    }

    method Close()
      modifies this
      ensures View() == CloseCurrent(old(View()))
    {
      if session.None? {
        return;
      }
      log := log + [Closed(session.value)];
      session := None;
    }
  }

  /** Startup: a client over an open session, or nothing left open. Without a token nothing is tried. */
  method Connect(backend: Backend, token: string) returns (client: Option<Client>, ghost log: seq<Event>)
    ensures log == if TrimSpace(token) == "" then [] else Open(backend, Unstarted()).0.log
    ensures client.None? <==> TrimSpace(token) == "" || Open(backend, Unstarted()).1.None?
    ensures client.Some? ==>
      && client.value.backend == backend
      && client.value.View() == Started(Open(backend, Unstarted()).1.value)
      && NoLeak(client.value.View())
      && Named(client.value.tools) && "" !in client.value.tools
    ensures client.None? ==> SessionsOpen(log) == {}
  {
    if TrimSpace(token) == "" {
      return None, [];
    }
    log := Open(backend, Unstarted()).0.log;
    StartsWithoutLeak(backend);
    var connection := backend.connections(0);
    if connection.Lists? {
      var catalog := ReadListing(connection.tools);
      if catalog.Some? {
        AcceptedCatalog(connection.tools);
        var c := new Client(backend, catalog.value);
        return Some(c), log;
      }
    }
    return None, log;
  }

  ghost function Unstarted(): State {
    State(None, map[], 0, 0, [])
  }

  ghost function Started(tools: Catalog): State {
    State(Some(0), tools, 1, 0, [Opened(0)])
  }

  // ----- whole runs

  datatype Op = CallOp(tool: string) | CloseOp

  ghost function Apply(b: Backend, s: State, op: Op): State {
    match op
    case CallOp(tool) => Called(b, s, tool).0
    case CloseOp => CloseCurrent(s)
  }

  ghost function After(b: Backend, s: State, ops: seq<Op>): State {
    if ops == [] then s else Apply(b, After(b, s, ops[..|ops| - 1]), ops[|ops| - 1])
  }

  /** The sessions that were opened and not closed. */
  ghost function SessionsOpen(log: seq<Event>): set<nat> {
    if log == [] then {}
    else
      var before := SessionsOpen(log[..|log| - 1]);
      match log[|log| - 1]
      case Opened(id) => before + {id}
      case Closed(id) => before - {id}
      case Sent(_, _) => before
  }

  /**
   * At every moment at most one session is open: a session opens only when none is, under an
   * id of its own, only the open session is closed, and only a tool of the catalog is sent,
   * on the open session.
   */
  ghost predicate Orderly(log: seq<Event>, tools: Catalog) {
    log != [] ==> Orderly(log[..|log| - 1], tools) && MayFollow(log[..|log| - 1], log[|log| - 1], tools)
  }

  ghost predicate MayFollow(log: seq<Event>, e: Event, tools: Catalog) {
    match e
    case Opened(id) => SessionsOpen(log) == {} && Below(log, id)
    case Closed(id) => SessionsOpen(log) == {id}
    case Sent(id, tool) => SessionsOpen(log) == {id} && tool in tools
  }

  ghost predicate Below(log: seq<Event>, id: nat) {
    forall i :: 0 <= i < |log| ==> log[i].session < id
  }

  /** The log is orderly, and what it leaves open is the current session. */
  ghost predicate NoLeak(s: State) {
    && Orderly(s.log, s.tools)
    && SessionsOpen(s.log) == (if s.session.Some? then {s.session.value} else {})
    && Below(s.log, s.attempts)
  }

  lemma LogAppend(log: seq<Event>, e: Event, tools: Catalog)
    requires Orderly(log, tools) && MayFollow(log, e, tools)
    ensures Orderly(log + [e], tools)
    ensures SessionsOpen(log + [e]) == if e.Closed? then {} else {e.session}
  {
    assert (log + [e])[..|log|] == log;
  }

  /** Opening a session on an orderly log, and closing it again. */
  lemma OpenedLog(log: seq<Event>, tools: Catalog, id: nat)
    requires Orderly(log, tools) && SessionsOpen(log) == {} && Below(log, id)
    ensures
      var one := log + [Opened(id)];
      Orderly(one, tools) && SessionsOpen(one) == {id} && Below(one, id + 1)
    ensures
      var two := log + [Opened(id), Closed(id)];
      Orderly(two, tools) && SessionsOpen(two) == {} && Below(two, id + 1)
  {
    var one := log + [Opened(id)];
    LogAppend(log, Opened(id), tools);
    LogAppend(one, Closed(id), tools);
    assert log + [Opened(id), Closed(id)] == one + [Closed(id)];
  }

  lemma OpenKeepsNoLeak(b: Backend, s: State)
    requires NoLeak(s) && s.session.None?
    ensures
      var (t, catalog) := Open(b, s);
      && t.session == s.session && t.tools == s.tools && t.attempts == s.attempts + 1
      && (catalog.Some? ==> NoLeak(t.(session := Some(s.attempts))))
      && (catalog.None? ==> NoLeak(t))
  {
    OpenedLog(s.log, s.tools, s.attempts);
  }

  lemma CloseKeepsNoLeak(s: State)
    requires NoLeak(s)
    ensures NoLeak(CloseCurrent(s))
  {
    if s.session.Some? {
      LogAppend(s.log, Closed(s.session.value), s.tools);
    }
  }

  lemma ReconnectKeepsNoLeak(b: Backend, s: State)
    requires NoLeak(s)
    ensures NoLeak(Reconnected(b, s).0) && Reconnected(b, s).0.tools == s.tools
    ensures Reconnected(b, s).1 <==> Reconnected(b, s).0.session.Some?
  {
    CloseKeepsNoLeak(s);
    var closed := CloseCurrent(s);
    OpenKeepsNoLeak(b, closed);
    var (next, catalog) := Open(b, closed);
    if catalog.Some? {
      CloseKeepsNoLeak(next.(session := Some(s.attempts)));
    }
  }

  lemma SendKeepsNoLeak(b: Backend, s: State, tool: string)
    requires NoLeak(s) && tool in s.tools
    ensures NoLeak(Send(b, s, tool).0)
  {
    if s.session.Some? {
      LogAppend(s.log, Sent(s.session.value, tool), s.tools);
    }
  }

  lemma CallKeepsNoLeak(b: Backend, s: State, tool: string)
    requires NoLeak(s)
    ensures NoLeak(Called(b, s, tool).0) && Called(b, s, tool).0.tools == s.tools
  {
    if tool in s.tools {
      SendKeepsNoLeak(b, s, tool);
      var (sent, reply) := Send(b, s, tool);
      if Broken(reply) {
        ReconnectKeepsNoLeak(b, sent);
        SendKeepsNoLeak(b, Reconnected(b, sent).0, tool);
      }
    }
  }

  /**
   * In every reachable state the catalog is the one frozen at startup, at most one session
   * has been open at any moment, and none is open now but the current one.
   */
  lemma {:induction false} NoSessionLeak(b: Backend, s: State, ops: seq<Op>)
    requires NoLeak(s)
    ensures NoLeak(After(b, s, ops)) && After(b, s, ops).tools == s.tools
  {
    if ops != [] {
      var before := After(b, s, ops[..|ops| - 1]);
      NoSessionLeak(b, s, ops[..|ops| - 1]);
      match ops[|ops| - 1]
      case CallOp(tool) => CallKeepsNoLeak(b, before, tool);
      case CloseOp => CloseKeepsNoLeak(before);
    }
  }

  lemma StartsWithoutLeak(b: Backend)
    ensures
      var (s, catalog) := Open(b, Unstarted());
      if catalog.Some? then NoLeak(Started(catalog.value)) else SessionsOpen(s.log) == {}
  {
    var (s, catalog) := Open(b, Unstarted());
    var tools := if catalog.Some? then catalog.value else map[];
    OpenedLog([], tools, 0);
    assert [] + [Opened(0)] == [Opened(0)];
  }

  /** Without a session nothing is ever opened or sent again, so no call succeeds. */
  lemma {:induction false} DisconnectIsFinal(b: Backend, s: State, ops: seq<Op>)
    requires s.session.None?
    ensures After(b, s, ops) == s
  {
    NotConnectedIsNotSessionFailure();
    if ops != [] {
      DisconnectIsFinal(b, s, ops[..|ops| - 1]);
    }
  }

  /** A broken session that cannot be replaced is lost for good, whatever is called afterwards. */
  lemma LostForGood(b: Backend, s: State, tool: string, ops: seq<Op>)
    requires tool in s.tools && s.session.Some? && Broken(b.replies(s.sent)) && !Reopens(b, s)
    ensures
      var lost := Called(b, s, tool).0;
      lost.session.None? && After(b, lost, ops) == lost
  {
    var sent := Send(b, s, tool).0;
    ReconnectAdds(b, sent);
    assert Reopens(b, sent) <==> Reopens(b, s);
    DisconnectIsFinal(b, Called(b, s, tool).0, ops);
  }

  /** What one call adds to the log. */
  ghost function Added(b: Backend, s: State, tool: string): seq<Event> {
    var t := Called(b, s, tool).0;
    if s.log <= t.log then t.log[|s.log|..] else t.log
  }

  ghost function Sends(log: seq<Event>): nat {
    if log == [] then 0 else Sends(log[..|log| - 1]) + One(log[|log| - 1])
  }

  /** The next connection attempt would yield a session with the frozen names and schemas. */
  ghost predicate Reopens(b: Backend, s: State) {
    && b.connections(s.attempts).Lists?
    && ValidListing(b.connections(s.attempts).tools)
    && SameSchemas(s.tools, CatalogOf(b.connections(s.attempts).tools))
  }

  ghost predicate Retries(b: Backend, s: State, tool: string) {
    RetrySafeTool(tool) && Broken(b.replies(s.sent)) && Reopens(b, s)
  }

  /** The events of a call on an open session, case by case. */
  ghost function EventsOfCall(b: Backend, s: State, tool: string): seq<Event>
    requires s.session.Some?
  {
    var was, id := s.session.value, s.attempts;
    if !Broken(b.replies(s.sent)) then [Sent(was, tool)]
    else if b.connections(id).Refused? then [Sent(was, tool), Closed(was)]
    else if !Reopens(b, s) then [Sent(was, tool), Closed(was), Opened(id), Closed(id)]
    else if RetrySafeTool(tool) then [Sent(was, tool), Closed(was), Opened(id), Sent(id, tool)]
    else [Sent(was, tool), Closed(was), Opened(id)]
  }

  lemma ReconnectAdds(b: Backend, s: State)
    requires s.session.Some?
    ensures
      var (t, ok) := Reconnected(b, s);
      var was, id := s.session.value, s.attempts;
      && (ok <==> Reopens(b, s))
      && (ok ==> t.session == Some(id))
      && t.log == s.log + (if b.connections(id).Refused? then [Closed(was)]
                           else if ok then [Closed(was), Opened(id)]
                           else [Closed(was), Opened(id), Closed(id)])
  {
  }

  lemma CallAdds(b: Backend, s: State, tool: string)
    requires tool in s.tools && s.session.Some?
    ensures Called(b, s, tool).0.log == s.log + EventsOfCall(b, s, tool)
  {
    var sent := Send(b, s, tool).0;
    if Broken(b.replies(s.sent)) {
      ReconnectAdds(b, sent);
      assert Reopens(b, sent) <==> Reopens(b, s);
    }
  }

  lemma EventsShape(b: Backend, s: State, tool: string)
    requires s.session.Some?
    ensures Sends(EventsOfCall(b, s, tool)) == if Retries(b, s, tool) then 2 else 1
    ensures forall e :: e in EventsOfCall(b, s, tool) && e.Sent? ==> e.tool == tool
  {
    CountSends(s.session.value, s.attempts, tool);
  }

  /**
   * A call sends its tool once, and never again unless the tool may be retried: then exactly
   * when the first send met a broken session and a new session with the frozen catalog could
   * be opened, and on that session. Without a session, or for an unknown tool, nothing is sent.
   */
  lemma SendDiscipline(b: Backend, s: State, tool: string)
    ensures s.log <= Called(b, s, tool).0.log
    ensures forall e :: e in Added(b, s, tool) && e.Sent? ==> e.tool == tool && tool in s.tools
    ensures Sends(Added(b, s, tool)) ==
      if tool !in s.tools || s.session.None? then 0 else if Retries(b, s, tool) then 2 else 1
    ensures tool in s.tools && s.session.Some? && Retries(b, s, tool) ==>
      Added(b, s, tool) ==
        [Sent(s.session.value, tool), Closed(s.session.value), Opened(s.attempts), Sent(s.attempts, tool)]
  {
    if tool in s.tools && s.session.Some? {
      CallAdds(b, s, tool);
      var more := EventsOfCall(b, s, tool);
      assert (s.log + more)[|s.log|..] == more;
      EventsShape(b, s, tool);
    } else {
      NotConnectedIsNotSessionFailure();
      assert s.log[|s.log|..] == [];
    }
  }

  /**
   * What the caller of a tool gets. The reply that counts is the second if the call is sent
   * again, and else the first. Its text is the result, or for a tool error, trimmed, the error.
   */
  ghost predicate Delivered(b: Backend, s: State, tool: string, r: Result<string, string>) {
    if tool !in s.tools || s.session.None? || (Broken(b.replies(s.sent)) && !Reopens(b, s)) then r.Err?
    else
      match b.replies(if Retries(b, s, tool) then s.sent + 1 else s.sent)
      case Failed(error) => r == Err(error)
      case Content(text, true) => r == Err(TrimSpace(text))
      case Content(text, false) => r == Ok(text)
  }

  lemma CallDelivers(b: Backend, s: State, tool: string)
    ensures Delivered(b, s, tool, Called(b, s, tool).1)
  {
    NotConnectedIsNotSessionFailure();
    if tool in s.tools && s.session.Some? && Broken(b.replies(s.sent)) {
      var sent := Send(b, s, tool).0;
      ReconnectAdds(b, sent);
      ReconnectSendsNothing(b, sent);
      assert Reopens(b, sent) <==> Reopens(b, s);
    }
  }

  lemma ReconnectSendsNothing(b: Backend, s: State)
    ensures Reconnected(b, s).0.sent == s.sent
  {
  }

  lemma CountSends(was: nat, id: nat, tool: string)
    ensures Sends([Sent(was, tool)]) == 1
    ensures Sends([Sent(was, tool), Closed(was)]) == 1
    ensures Sends([Sent(was, tool), Closed(was), Opened(id)]) == 1
    ensures Sends([Sent(was, tool), Closed(was), Opened(id), Closed(id)]) == 1
    ensures Sends([Sent(was, tool), Closed(was), Opened(id), Sent(id, tool)]) == 2
  {
    Count(Sent(was, tool), Closed(was), Opened(id), Closed(id));
    Count(Sent(was, tool), Closed(was), Opened(id), Sent(id, tool));
  }

  function One(e: Event): nat {
    if e.Sent? then 1 else 0
  }

  lemma Count(a: Event, b: Event, c: Event, d: Event)
    ensures Sends([a]) == One(a)
    ensures Sends([a, b]) == One(a) + One(b)
    ensures Sends([a, b, c]) == One(a) + One(b) + One(c)
    ensures Sends([a, b, c, d]) == One(a) + One(b) + One(c) + One(d)
  {
    assert [a][..0] == [];
    assert [a, b][..1] == [a];
    assert [a, b, c][..2] == [a, b];
    assert [a, b, c, d][..3] == [a, b, c];
  }
}
