/** The registry of operations, and everything the agent publishes from it. */
module Toolbridge {
  import opened Text
  import opened Sorting
  import opened McpClient

  /** What an operation runs: a handler of this agent, or a tool of the private catalog. */
  datatype Target = Local | Proxy(tool: string)

  datatype Op = Op(
    skill: string,
    tool: string,
    inputSchema: Option<Schema>,
    rawInputSchema: Option<Schema>,
    target: Target)

  type Ops = map<string, Op>

  datatype Descriptor = Descriptor(skill: string, tool: string, inputSchema: Option<Schema>)

  const SKILL_EVM := "svpchain-evm"
  const SKILL_META := "svpchain-meta"

  /** Every operation is filed under its own name. */
  ghost predicate Filed(ops: Ops) {
    forall name :: name in ops ==> ops[name].tool == name
  }

  /** The operations of a skill; the empty skill stands for all. */
  function Selected(ops: Ops, skill: string): set<string> {
    set name | name in ops && (skill == "" || ops[name].skill == skill)
  }

  function Describe(op: Op): Descriptor {
    Descriptor(op.skill, op.tool, if op.rawInputSchema.Some? then op.rawInputSchema else op.inputSchema)
  }

  /** The chosen operations in order of their names. */
  ghost function InOrder(ops: Ops, names: set<string>): (r: seq<Op>)
    requires names <= ops.Keys
  {
    var order := Arrange(names);
    seq(|order|, k requires 0 <= k < |order| => ops[order[k]])
  }

  function ToolsOf(s: seq<Op>): seq<string> {
    seq(|s|, k requires 0 <= k < |s| => s[k].tool)
  }

  /** There is one way to list a set of operations by strictly increasing name. */
  lemma OneOrder(ops: Ops, names: set<string>, s: seq<Op>)
    requires Filed(ops) && names <= ops.Keys
    requires forall i :: 0 <= i < |s| ==> s[i].tool in names && ops[s[i].tool] == s[i]
    requires forall name :: name in names ==> ops[name] in s
    requires Increasing(ToolsOf(s))
    ensures s == InOrder(ops, names)
  {
    forall name | name in names
      ensures name in ToolsOf(s)
    {
      var i :| 0 <= i < |s| && s[i] == ops[name];
      assert ToolsOf(s)[i] == name;
    }
    IncreasingUnique(ToolsOf(s), Arrange(names));
    forall i | 0 <= i < |s|
      ensures s[i] == InOrder(ops, names)[i]
    {
      assert ToolsOf(s)[i] == Arrange(names)[i];
    }
  }

  function Key(op: Op): string {
    op.tool
  }

  lemma SortedIsIncreasing(s: seq<Op>)
    requires SortedBy(s, Key)
    requires forall i, j :: 0 <= i < j < |s| ==> s[i].tool != s[j].tool
    ensures Increasing(ToolsOf(s))
  {
    forall i, j | 0 <= i < j < |s|
      ensures Lt(ToolsOf(s)[i], ToolsOf(s)[j])
    {
      assert Le(Key(s[i]), Key(s[j]));
    }
  }

  /** The tools of one skill. */
  function InSkill(ops: Ops, skill: string): set<string> {
    set name | name in ops && ops[name].skill == skill
  }

  ghost function Groups(ops: Ops): map<string, seq<string>> {
    map skill | skill in (set name | name in ops :: ops[name].skill) :: Arrange(InSkill(ops, skill))
  }

  ghost function Descriptors(ops: Ops, skill: string): seq<Descriptor> {
    var listed := InOrder(ops, Selected(ops, skill));
    seq(|listed|, k requires 0 <= k < |listed| => Describe(listed[k]))
  }

  /** The names of a set, each once, at least one. */
  ghost predicate IsGroup(s: seq<string>, names: set<string>) {
    NoRepeats(s) && s != [] && forall name :: name in s <==> name in names
  }

  /** Each skill has the group of its operations among those done. */
  ghost predicate Grouped(ops: Ops, groups: map<string, seq<string>>, done: set<string>) {
    && done <= ops.Keys
    && (forall skill :: skill in groups ==> IsGroup(groups[skill], InSkill(ops, skill) * done))
    && (forall name :: name in done ==> ops[name].skill in groups)
  }

  function FileUnder(groups: map<string, seq<string>>, skill: string, tool: string): map<string, seq<string>> {
    groups[skill := (if skill in groups then groups[skill] else []) + [tool]]
  }

  lemma FileOne(ops: Ops, groups: map<string, seq<string>>, done: set<string>, name: string)
    requires Filed(ops) && Grouped(ops, groups, done) && name in ops && name !in done
    ensures
      Grouped(ops, FileUnder(groups, ops[name].skill, ops[name].tool), done + {name})
  {
    var skill, later := ops[name].skill, done + {name};
    var before := if skill in groups then groups[skill] else [];
    assert forall n :: n in before <==> n in InSkill(ops, skill) * done;
    assert InSkill(ops, skill) * later == InSkill(ops, skill) * done + {name};
    assert IsGroup(before + [name], InSkill(ops, skill) * later);
    forall other | other in groups && other != skill
      ensures InSkill(ops, other) * later == InSkill(ops, other) * done
    {
    }
  }

  lemma SortedGroup(s: seq<string>, names: set<string>, sorted: seq<string>)
    requires IsGroup(s, names) && SortedForm(s, sorted)
    ensures sorted == Arrange(names)
  {
    PermutationHasNoRepeats(s, sorted);
    assert Increasing(sorted) by {
      assert forall i :: 0 <= i < |sorted| ==> Identity(sorted[i]) == sorted[i];
    }
    IncreasingUnique(sorted, Arrange(names));
  }

  ghost predicate SortedForm(s: seq<string>, sorted: seq<string>) {
    SortedBy(sorted, Identity) && multiset(sorted) == multiset(s)
  }

  function Identity(s: string): string {
    s
  }

  /** Sorts each group in place; which is first does not matter. */
  method SortGroups(groups: map<string, seq<string>>) returns (out: map<string, seq<string>>)
    ensures out.Keys == groups.Keys
    ensures forall skill :: skill in out ==> SortedForm(groups[skill], out[skill])
  {
    out := groups;
    var todo := groups.Keys;
    while todo != {}
      invariant todo <= groups.Keys == out.Keys
      invariant forall skill :: skill in todo ==> out[skill] == groups[skill]
      invariant forall skill :: skill in out && skill !in todo ==> SortedForm(groups[skill], out[skill])
      decreases |todo|
    {
      var skill :| skill in todo;
      todo := todo - {skill};
      var sorted := Sort(out[skill], Identity);
      out := out[skill := sorted];
    }
  }

  lemma SortedGroupsAre(ops: Ops, groups: map<string, seq<string>>, sorted: map<string, seq<string>>)
    requires Grouped(ops, groups, ops.Keys)
    requires sorted.Keys == groups.Keys
    requires forall skill :: skill in sorted ==> SortedForm(groups[skill], sorted[skill])
    ensures sorted == Groups(ops)
  {
    forall skill | skill in groups
      ensures skill in Groups(ops) && sorted[skill] == Groups(ops)[skill]
    {
      assert InSkill(ops, skill) * ops.Keys == InSkill(ops, skill);
      assert IsGroup(groups[skill], InSkill(ops, skill));
      assert groups[skill][0] in groups[skill];
      assert groups[skill][0] in InSkill(ops, skill);
      SortedGroup(groups[skill], InSkill(ops, skill), sorted[skill]);
    }
  }

  class Registry {
    var ops: Ops

    constructor ()
      ensures ops == map[]
    {
      ops := map[];
    }

    method Add(skill: string, tool: string, schema: Option<Schema>) returns (ok: bool)
      modifies this
      ensures ok <==> tool !in old(ops)
      ensures ops == if ok then old(ops)[tool := Op(skill, tool, schema, None, Local)] else old(ops)
    {
      if tool in ops {
        return false;
      }
      ops := ops[tool := Op(skill, tool, schema, None, Local)];
      return true;
    }

    method AddProxy(skill: string, tool: string, schema: Schema) returns (ok: bool)
      modifies this
      ensures ok <==> tool !in old(ops)
      ensures ops == if ok then old(ops)[tool := Op(skill, tool, None, Some(schema), Proxy(tool))] else old(ops)
    {
      if tool in ops {
        return false;
      }
      ops := ops[tool := Op(skill, tool, None, Some(schema), Proxy(tool))];
      return true;
    }

    /** Visits the map in an arbitrary order; the result does not depend on it. */
    method List() returns (out: seq<Op>)
      requires Filed(ops)
      ensures out == InOrder(ops, ops.Keys)
    {
      out := [];
      var todo := ops.Keys;
      while todo != {}
        invariant todo <= ops.Keys
        invariant forall i :: 0 <= i < |out| ==> out[i].tool in ops.Keys - todo && ops[out[i].tool] == out[i]
        invariant forall name :: name in ops && name !in todo ==> ops[name] in out
        invariant NoRepeats(out)
        decreases |todo|
      {
        var name :| name in todo;
        todo := todo - {name};
        out := out + [ops[name]];
      }
      var sorted := Sort(out, Key);
      PermutationHasNoRepeats(out, sorted);
      assert forall i :: 0 <= i < |sorted| ==> sorted[i] in out;
      assert forall i, j :: 0 <= i < j < |sorted| ==> sorted[i] != sorted[j];
      SortedIsIncreasing(sorted);
      OneOrder(ops, ops.Keys, sorted);
      return sorted;
    }

    /** The first loop of BySkill: the names of each skill, in no particular order. */
    method Group() returns (out: map<string, seq<string>>)
      requires Filed(ops)
      ensures Grouped(ops, out, ops.Keys)
    {
      out := map[];
      var todo := ops.Keys;
      while todo != {}
        invariant todo <= ops.Keys
        invariant Grouped(ops, out, ops.Keys - todo)
        decreases |todo|
      {
        var name :| name in todo;
        FileOne(ops, out, ops.Keys - todo, name);
        assert ops.Keys - (todo - {name}) == ops.Keys - todo + {name};
        todo := todo - {name};
        out := FileUnder(out, ops[name].skill, ops[name].tool);
      }
    }

    /** As List, for the names of each skill. */
    method BySkill() returns (out: map<string, seq<string>>)
      requires Filed(ops)
      ensures out == Groups(ops)
    {
      var groups := Group();
      out := SortGroups(groups);
      SortedGroupsAre(ops, groups, out);
    }

    /** The body of list_tools. */
    method ListTools(skill: string) returns (out: seq<Descriptor>)
      requires Filed(ops)
      ensures out == Descriptors(ops, skill)
    {
      var all := List();
      InOrderIsIncreasing(ops, ops.Keys);
      ghost var names := Selected(ops, skill);
      ghost var kept;
      out, kept := Select(all, skill, names);
      KeptIsInOrder(ops, names, kept);
    }
  }

  /** The loop of list_tools. */
  method Select(all: seq<Op>, skill: string, ghost names: set<string>)
    returns (out: seq<Descriptor>, ghost kept: seq<Op>)
    requires Increasing(ToolsOf(all))
    requires forall k :: 0 <= k < |all| ==> (all[k].tool in names <==> skill == "" || all[k].skill == skill)
    ensures Kept(all, names, kept) && |out| == |kept| && forall i :: 0 <= i < |out| ==> out[i] == Describe(kept[i])
  {
    kept, out := [], [];
    for k := 0 to |all|
      invariant Kept(all[..k], names, kept)
      invariant |out| == |kept| && forall i :: 0 <= i < |out| ==> out[i] == Describe(kept[i])
    {
      KeepOne(all, k, names, kept);
      if skill != "" && all[k].skill != skill {
        continue;
      }
      kept := kept + [all[k]];
      out := out + [Describe(all[k])];
    }
    assert all[..|all|] == all;
  }

  /** The operations of `part` that are wanted, in their order. */
  ghost predicate Kept(part: seq<Op>, names: set<string>, kept: seq<Op>) {
    && (forall i :: 0 <= i < |kept| ==> kept[i] in part && kept[i].tool in names)
    && (forall i :: 0 <= i < |part| && part[i].tool in names ==> part[i] in kept)
    && Increasing(ToolsOf(kept))
  }

  lemma KeepOne(all: seq<Op>, k: nat, names: set<string>, kept: seq<Op>)
    requires k < |all| && Increasing(ToolsOf(all)) && Kept(all[..k], names, kept)
    ensures all[k].tool in names ==> Kept(all[..k + 1], names, kept + [all[k]])
    ensures all[k].tool !in names ==> Kept(all[..k + 1], names, kept)
  {
    assert all[..k + 1] == all[..k] + [all[k]];
    if all[k].tool in names {
      var more := kept + [all[k]];
      forall i, j | 0 <= i < j < |more|
        ensures Lt(ToolsOf(more)[i], ToolsOf(more)[j])
      {
        if j == |kept| {
          var p :| 0 <= p < k && all[..k][p] == kept[i];
          assert Lt(ToolsOf(all)[p], ToolsOf(all)[k]);
        } else {
          assert Lt(ToolsOf(kept)[i], ToolsOf(kept)[j]);
        }
      }
    }
  }

  lemma KeptIsInOrder(ops: Ops, names: set<string>, kept: seq<Op>)
    requires Filed(ops) && names <= ops.Keys && Kept(InOrder(ops, ops.Keys), names, kept)
    ensures kept == InOrder(ops, names)
  {
    var all, order := InOrder(ops, ops.Keys), Arrange(ops.Keys);
    forall name | name in names
      ensures ops[name] in kept
    {
      assert name in order;
      var i :| 0 <= i < |order| && order[i] == name;
      assert all[i] == ops[name];
    }
    forall i | 0 <= i < |kept|
      ensures ops[kept[i].tool] == kept[i]
    {
      var p :| 0 <= p < |all| && all[p] == kept[i];
      assert order[p] in ops.Keys;
    }
    OneOrder(ops, names, kept);
  }

  lemma InOrderIsIncreasing(ops: Ops, names: set<string>)
    requires Filed(ops) && names <= ops.Keys
    ensures Increasing(ToolsOf(InOrder(ops, names)))
  {
    var s, order := InOrder(ops, names), Arrange(names);
    forall i | 0 <= i < |s|
      ensures ToolsOf(s)[i] == order[i]
    {
      assert order[i] in names;
    }
  }

  // ----- the agent's own operations and the startup loop

  const BROADCAST := "broadcast_evm_tx"
  const TX_STATUS := "evm_tx_status"
  const LIST_TOOLS := "list_tools"

  predicate Reserved(name: string) {
    || name == "auth_challenge" || name == "auth_verify"
    || name == BROADCAST || name == TX_STATUS || name == LIST_TOOLS
  }

  /** The schemas reflected from the local handlers. */
  datatype LocalSchemas = LocalSchemas(broadcast: Option<Schema>, txStatus: Option<Schema>, listTools: Option<Schema>)

  function LocalOps(s: LocalSchemas): Ops {
    map[BROADCAST := Op(SKILL_EVM, BROADCAST, s.broadcast, None, Local),
        TX_STATUS := Op(SKILL_EVM, TX_STATUS, s.txStatus, None, Local),
        LIST_TOOLS := Op(SKILL_META, LIST_TOOLS, s.listTools, None, Local)]
  }

  /** What the agent serves, as a function of the frozen catalog. */
  function WiredOps(s: LocalSchemas, tools: Catalog): Ops {
    LocalOps(s) + ProxyOps(tools)
  }

  function ProxyOps(tools: Catalog): Ops {
    map name | name in tools && !Reserved(name) :: Op(SKILL_EVM, name, None, Some(tools[name].schema), Proxy(name))
  }

  lemma LocalNamesDiffer()
    ensures BROADCAST != TX_STATUS && BROADCAST != LIST_TOOLS && TX_STATUS != LIST_TOOLS
  {
    assert |BROADCAST| == 16 && |TX_STATUS| == 13 && |LIST_TOOLS| == 10;
  }

  /** wire.Build: none of the three can clash. */
  method Build(s: LocalSchemas) returns (reg: Registry)
    ensures fresh(reg) && reg.ops == LocalOps(s)
  {
    LocalNamesDiffer();
    reg := new Registry();
    var a := reg.Add(SKILL_EVM, BROADCAST, s.broadcast);
    var b := reg.Add(SKILL_EVM, TX_STATUS, s.txStatus);
    var c := reg.Add(SKILL_META, LIST_TOOLS, s.listTools);
    assert a && b && c;
  }

  /**
   * The proxy loop over the catalog's tools, in whatever order they come. It never fails, and
   * what it registers depends on the catalog alone.
   */
  method Startup(s: LocalSchemas, tools: seq<Tool>, ghost catalog: Catalog) returns (ok: bool, reg: Registry)
    requires Named(catalog) && Enumerates(tools, catalog)
    ensures fresh(reg) && ok
    ensures reg.ops == WiredOps(s, catalog) && Filed(reg.ops)
  {
    reg := Build(s);
    ghost var done: Catalog := map[];
    assert reg.ops == WiredOps(s, done);
    for k := 0 to |tools|
      invariant fresh(reg) && reg.ops == WiredOps(s, done)
      invariant done.Keys == set i | 0 <= i < k :: tools[i].name
      invariant forall name :: name in done ==> name in catalog && done[name] == catalog[name]
    {
      var name := tools[k].name;
      ghost var more := done[name := tools[k]];
      assert name !in done;
      WireOne(s, done, tools[k]);
      done := more;
      if Reserved(name) {
        continue;
      }
      var added := reg.AddProxy(SKILL_EVM, name, tools[k].schema);
      if !added {
        return false, reg;
      }
    }
    AllEnumerated(tools, catalog, done);
    WiredIsFiled(s, catalog);
    return true, reg;
  }

  function ProxyOp(tool: Tool): Op {
    Op(SKILL_EVM, tool.name, None, Some(tool.schema), Proxy(tool.name))
  }

  lemma ProxyOne(done: Catalog, tool: Tool)
    requires tool.name !in done
    ensures ProxyOps(done[tool.name := tool]) ==
      if Reserved(tool.name) then ProxyOps(done) else ProxyOps(done)[tool.name := ProxyOp(tool)]
    ensures tool.name !in ProxyOps(done)
  {
  }

  lemma LocalNamesAreReserved(s: LocalSchemas, name: string)
    ensures name in LocalOps(s) ==> Reserved(name)
  {
  }

  lemma MergeOne(local: Ops, proxies: Ops, name: string, op: Op)
    requires name !in local
    ensures local + proxies[name := op] == (local + proxies)[name := op]
  {
  }

  lemma WireOne(s: LocalSchemas, done: Catalog, tool: Tool)
    requires tool.name !in done
    ensures WiredOps(s, done[tool.name := tool]) ==
      if Reserved(tool.name) then WiredOps(s, done) else WiredOps(s, done)[tool.name := ProxyOp(tool)]
    ensures !Reserved(tool.name) ==> tool.name !in WiredOps(s, done)
  {
    ProxyOne(done, tool);
    LocalNamesAreReserved(s, tool.name);
    if !Reserved(tool.name) {
      MergeOne(LocalOps(s), ProxyOps(done), tool.name, ProxyOp(tool));
    }
  }

  lemma AllEnumerated(tools: seq<Tool>, catalog: Catalog, done: Catalog)
    requires Named(catalog) && Enumerates(tools, catalog)
    requires done.Keys == set i | 0 <= i < |tools| :: tools[i].name
    requires forall name :: name in done ==> name in catalog && done[name] == catalog[name]
    ensures done == catalog
  {
    forall name | name in catalog
      ensures name in done
    {
      var i :| 0 <= i < |tools| && tools[i] == catalog[name];
      assert tools[i].name == name;
    }
  }

  lemma WiredIsFiled(s: LocalSchemas, catalog: Catalog)
    ensures Filed(WiredOps(s, catalog))
  {
  }

  // ----- what is advertised is what is dispatched

  /** The executor's gate before it calls an operation. */
  predicate Dispatches(ops: Ops, skill: string, tool: string) {
    skill != "" && tool != "" && tool in ops && ops[tool].skill == skill
  }

  /**
   * list_tools over the wired registry: strictly increasing by name, and exactly the
   * operations that the executor would dispatch under that skill. A proxied one names a tool
   * of the frozen catalog.
   */
  lemma AdvertisedIsDispatched(s: LocalSchemas, catalog: Catalog, skill: string)
    requires "" !in catalog
    ensures
      var ops := WiredOps(s, catalog);
      var listed := Descriptors(ops, skill);
      && (forall i, j :: 0 <= i < j < |listed| ==> Lt(listed[i].tool, listed[j].tool))
      && (forall d :: d in listed <==>
           && Dispatches(ops, d.skill, d.tool)
           && (skill == "" || d.skill == skill)
           && d == Describe(ops[d.tool]))
      && (forall name :: name in ops && ops[name].target.Proxy? ==> ops[name].target.tool == name && name in catalog)
  {
    var ops := WiredOps(s, catalog);
    WiredIsFiled(s, catalog);
    WiredNamesAreNotEmpty(s, catalog);
    DescriptorsInOrder(ops, skill);
    forall d
      ensures d in Descriptors(ops, skill) <==>
        Dispatches(ops, d.skill, d.tool) && (skill == "" || d.skill == skill) && d == Describe(ops[d.tool])
    {
      DescriptorMembers(ops, skill, d);
    }
  }

  lemma WiredNamesAreNotEmpty(s: LocalSchemas, catalog: Catalog)
    requires "" !in catalog
    ensures forall name :: name in WiredOps(s, catalog) ==> name != "" && WiredOps(s, catalog)[name].skill != ""
  {
    assert |BROADCAST| == 16 && |TX_STATUS| == 13 && |LIST_TOOLS| == 10;
    assert |SKILL_EVM| > 0 && |SKILL_META| > 0;
  }

  lemma DescriptorsInOrder(ops: Ops, skill: string)
    requires Filed(ops)
    ensures
      var listed := Descriptors(ops, skill);
      forall i, j :: 0 <= i < j < |listed| ==> Lt(listed[i].tool, listed[j].tool)
  {
    InOrderIsIncreasing(ops, Selected(ops, skill));
    var listed, names := InOrder(ops, Selected(ops, skill)), ToolsOf(InOrder(ops, Selected(ops, skill)));
    forall i, j | 0 <= i < j < |listed|
      ensures Lt(Describe(listed[i]).tool, Describe(listed[j]).tool)
    {
      assert Lt(names[i], names[j]);
    }
  }

  lemma DescriptorMembers(ops: Ops, skill: string, d: Descriptor)
    requires Filed(ops) && forall name :: name in ops ==> name != "" && ops[name].skill != ""
    ensures d in Descriptors(ops, skill) <==>
      Dispatches(ops, d.skill, d.tool) && (skill == "" || d.skill == skill) && d == Describe(ops[d.tool])
  {
    var order := Arrange(Selected(ops, skill));
    if d in Descriptors(ops, skill) {
      var i :| 0 <= i < |order| && Descriptors(ops, skill)[i] == d;
      assert order[i] in order;
      assert d == Describe(ops[order[i]]);
    }
    if d.tool in ops && d == Describe(ops[d.tool]) && (skill == "" || d.skill == skill) {
      assert d.tool in order;
      var i :| 0 <= i < |order| && order[i] == d.tool;
      assert Descriptors(ops, skill)[i] == d;
    }
  }

  /** Every tool of the catalog but the reserved ones is advertised with its own schema. */
  lemma CatalogIsAdvertised(s: LocalSchemas, catalog: Catalog, name: string)
    requires "" !in catalog && name in catalog && !Reserved(name)
    ensures Descriptor("svpchain-evm", name, Some(catalog[name].schema)) in Descriptors(WiredOps(s, catalog), "")
  {
    WiredIsFiled(s, catalog);
    WiredNamesAreNotEmpty(s, catalog);
    LocalNamesAreReserved(s, name);
    Advertised(WiredOps(s, catalog), name);
  }

  /** So are the agent's own. */
  lemma OwnToolsAreAdvertised(s: LocalSchemas, catalog: Catalog)
    requires "" !in catalog
    ensures
      var listed := Descriptors(WiredOps(s, catalog), "");
      && Descriptor("svpchain-evm", "broadcast_evm_tx", s.broadcast) in listed
      && Descriptor("svpchain-evm", "evm_tx_status", s.txStatus) in listed
      && Descriptor("svpchain-meta", "list_tools", s.listTools) in listed
  {
    var ops := WiredOps(s, catalog);
    WiredIsFiled(s, catalog);
    WiredNamesAreNotEmpty(s, catalog);
    OwnOps(s, catalog);
    Advertised(ops, BROADCAST);
    Advertised(ops, TX_STATUS);
    Advertised(ops, LIST_TOOLS);
  }

  /** The tools of the authentication protocol are never served from the registry. */
  lemma AuthToolsAreNotServed(s: LocalSchemas, catalog: Catalog)
    ensures "auth_challenge" !in WiredOps(s, catalog) && "auth_verify" !in WiredOps(s, catalog)
  {
    assert |"auth_challenge"| == 14 && |"auth_verify"| == 11;
    assert |BROADCAST| == 16 && |TX_STATUS| == 13 && |LIST_TOOLS| == 10;
  }

  lemma OwnOps(s: LocalSchemas, catalog: Catalog)
    ensures
      var ops := WiredOps(s, catalog);
      && BROADCAST in ops && ops[BROADCAST] == Op(SKILL_EVM, BROADCAST, s.broadcast, None, Local)
      && TX_STATUS in ops && ops[TX_STATUS] == Op(SKILL_EVM, TX_STATUS, s.txStatus, None, Local)
      && LIST_TOOLS in ops && ops[LIST_TOOLS] == Op(SKILL_META, LIST_TOOLS, s.listTools, None, Local)
  {
    LocalNamesDiffer();
  }

  lemma Advertised(ops: Ops, name: string)
    requires Filed(ops) && name in ops && forall n :: n in ops ==> n != "" && ops[n].skill != ""
    ensures Describe(ops[name]) in Descriptors(ops, "")
  {
    DescriptorMembers(ops, "", Describe(ops[name]));
  }

  // ----- the agent card

  datatype SkillMeta = SkillMeta(id: string, name: string, desc: string, tags: seq<string>)

  datatype CardSkill = CardSkill(id: string, name: string, description: string, tags: seq<string>)

  function CardEntry(meta: SkillMeta, overrides: map<string, string>, tools: seq<string>): CardSkill {
    var desc := if meta.id in overrides && overrides[meta.id] != "" then overrides[meta.id] else meta.desc;
    CardSkill(meta.id, meta.name, desc + " Tools: " + Join(tools, ", ") + ".", meta.tags)
  }

  /** The skills of the card: those with a tool, in the fixed order of their descriptions. */
  ghost function CardSkills(metas: seq<SkillMeta>, overrides: map<string, string>, ops: Ops): seq<CardSkill> {
    if metas == [] then []
    else CardSkills(metas[..|metas| - 1], overrides, ops) + EntryOf(metas[|metas| - 1], overrides, ops)
  }

  ghost function EntryOf(meta: SkillMeta, overrides: map<string, string>, ops: Ops): seq<CardSkill> {
    if InSkill(ops, meta.id) == {} then [] else [CardEntry(meta, overrides, Arrange(InSkill(ops, meta.id)))]
  }

  /**
   * A skill is on the card exactly when list_tools has something for it. Its entry keeps the
   * skill's own fields, starts with the override if that is not empty, and names those tools.
   */
  lemma CardMatchesListing(meta: SkillMeta, overrides: map<string, string>, ops: Ops)
    requires Filed(ops) && meta.id != ""
    ensures
      var listed := Descriptors(ops, meta.id);
      var tools := seq(|listed|, k requires 0 <= k < |listed| => listed[k].tool);
      var entries := CardSkills([meta], overrides, ops);
      && (entries == [] <==> listed == [])
      && (listed != [] ==>
           && |entries| == 1
           && (entries[0].id, entries[0].name, entries[0].tags) == (meta.id, meta.name, meta.tags)
           && entries[0].description ==
                (if meta.id in overrides && overrides[meta.id] != "" then overrides[meta.id] else meta.desc)
                + " Tools: " + Join(tools, ", ") + ".")
  {
    var names, order := InSkill(ops, meta.id), Arrange(InSkill(ops, meta.id));
    assert Selected(ops, meta.id) == names;
    var listed := Descriptors(ops, meta.id);
    var tools := seq(|listed|, k requires 0 <= k < |listed| => listed[k].tool);
    assert tools == order by {
      forall k | 0 <= k < |order|
        ensures tools[k] == order[k]
      {
        assert order[k] in names;
      }
    }
    if names != {} {
      var name :| name in names;
      assert name in order;
    }
    assert [meta][..0] == [];
  }

  lemma CardsAppend(metas: seq<SkillMeta>, meta: SkillMeta, overrides: map<string, string>, ops: Ops)
    ensures CardSkills(metas + [meta], overrides, ops)
         == CardSkills(metas, overrides, ops) + EntryOf(meta, overrides, ops)
  {
    assert (metas + [meta])[..|metas|] == metas;
  }

  /** The card lists the skills in the fixed order. */
  lemma {:induction false} CardsConcatenate(a: seq<SkillMeta>, b: seq<SkillMeta>, overrides: map<string, string>,
                                            ops: Ops)
    ensures CardSkills(a + b, overrides, ops) == CardSkills(a, overrides, ops) + CardSkills(b, overrides, ops)
  {
    if b == [] {
      assert a + b == a;
    } else {
      var shorter, last := b[..|b| - 1], b[|b| - 1];
      assert b == shorter + [last];
      Associates(a, shorter, [last]);
      CardsConcatenate(a, shorter, overrides, ops);
      CardsAppend(shorter, last, overrides, ops);
      CardsAppend(a + shorter, last, overrides, ops);
      Associates(CardSkills(a, overrides, ops), CardSkills(shorter, overrides, ops), EntryOf(last, overrides, ops));
    }
  }

  method BuildCardSkills(metas: seq<SkillMeta>, overrides: map<string, string>, reg: Registry)
    returns (skills: seq<CardSkill>)
    requires Filed(reg.ops)
    ensures skills == CardSkills(metas, overrides, reg.ops)
  {
    var bySkill := reg.BySkill();
    skills := [];
    for k := 0 to |metas|
      invariant skills == CardSkills(metas[..k], overrides, reg.ops)
    {
      var meta := metas[k];
      assert metas[..k + 1][..k] == metas[..k];
      GroupOf(reg.ops, meta.id);
      var tools := if meta.id in bySkill then bySkill[meta.id] else [];
      if |tools| == 0 {
        continue;
      }
      skills := skills + [CardEntry(meta, overrides, tools)];
    }
    assert metas[..|metas|] == metas;
  }

  lemma GroupOf(ops: Ops, skill: string)
    ensures skill in Groups(ops) <==> InSkill(ops, skill) != {}
    ensures skill in Groups(ops) ==> Groups(ops)[skill] == Arrange(InSkill(ops, skill)) && Groups(ops)[skill] != []
  {
    if InSkill(ops, skill) != {} {
      var name :| name in InSkill(ops, skill);
      assert ops[name].skill == skill;
      assert name in Arrange(InSkill(ops, skill));
    }
    if skill in Groups(ops) {
      var name :| name in ops && ops[name].skill == skill;
      assert name in InSkill(ops, skill);
    }
  }

  /**
   * The whole startup: whatever order the catalog comes in and whatever order the maps are
   * walked in, the same tools are listed and the same card is published and hashed.
   */
  method StartupCard(s: LocalSchemas, client: Client, metas: seq<SkillMeta>, overrides: map<string, string>)
    returns (skills: seq<CardSkill>, listed: seq<Descriptor>)
    requires Named(client.tools)
    ensures skills == CardSkills(metas, overrides, WiredOps(s, client.tools))
    ensures listed == Descriptors(WiredOps(s, client.tools), "")
  {
    var tools := client.Tools();
    var ok, reg := Startup(s, tools, client.tools);
    skills := BuildCardSkills(metas, overrides, reg);
    listed := reg.ListTools("");
  }
}
