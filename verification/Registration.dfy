/** Bringing the on-chain agent record in line with what the agent serves. */
module Registration {
  import opened Text
  import Sorting

  datatype Pricing = Pricing(unit: string, amount: string)

  /** The on-chain record. */
  datatype Agent = Agent(
    agentId: string,
    owner: string,
    bond: string,
    endpoint: string,
    capabilityHash: seq<bv8>,
    capabilities: seq<string>,
    metadata: string,
    pricing: Option<Pricing>)

  /** What should be on chain; empty metadata and absent pricing mean: leave as it is. */
  datatype Desired = Desired(
    endpoint: string,
    capabilityHash: seq<bv8>,
    capabilities: seq<string>,
    metadata: string,
    pricing: Option<Pricing>)

  datatype RegisterMsg = RegisterMsg(owner: string, agentId: string, bond: string, fields: Desired)

  datatype UpdateMsg = UpdateMsg(owner: string, agentId: string, fields: Desired)

  datatype Reason = EndpointMoved | CardChanged | CapabilitiesChanged | MetadataChanged | PricingChanged

  // ----- the chain

  /** The agents by their ids. */
  type Chain = map<string, Agent>

  datatype Msg = RegisterAgent(register: RegisterMsg) | UpdateAgent(update: UpdateMsg)

  datatype Refusal = NotSignedByOwner | AlreadyRegistered | NoSuchAgent | NotTheOwner

  function ApplyRegister(m: RegisterMsg): Agent {
    Agent(m.agentId, m.owner, m.bond, m.fields.endpoint, m.fields.capabilityHash, m.fields.capabilities,
          m.fields.metadata, m.fields.pricing)
  }

  /** Every mutable field takes the value sent. */
  function ApplyUpdate(a: Agent, m: UpdateMsg): Agent {
    a.(endpoint := m.fields.endpoint,
       capabilityHash := m.fields.capabilityHash,
       capabilities := m.fields.capabilities,
       metadata := m.fields.metadata,
       pricing := m.fields.pricing)
  }

  /**
   * A message speaks for the owner that signed it. It registers an id that is not taken, or
   * updates the agent it names, if that owner owns it.
   */
  function Deliver(chain: Chain, signer: string, m: Msg): Result<Chain, Refusal> {
    match m
    case RegisterAgent(reg) =>
      if reg.owner != signer then Err(NotSignedByOwner)
      else if reg.agentId in chain then Err(AlreadyRegistered)
      else Ok(chain[reg.agentId := ApplyRegister(reg)])
    case UpdateAgent(up) =>
      if up.owner != signer then Err(NotSignedByOwner)
      else if up.agentId !in chain then Err(NoSuchAgent)
      else if chain[up.agentId].owner != up.owner then Err(NotTheOwner)
      else Ok(chain[up.agentId := ApplyUpdate(chain[up.agentId], up)])
  }

  /** Agents are filed under their own ids, and an id comes from its owner's address. */
  ghost predicate Filed(idOf: string -> string, chain: Chain) {
    forall id :: id in chain ==> chain[id].agentId == id && idOf(chain[id].owner) == id
  }

  /** Different addresses have different ids. */
  ghost predicate Injective(idOf: string -> string) {
    forall a, b :: idOf(a) == idOf(b) ==> a == b
  }

  /** Nothing but the agent `id` differs. */
  ghost predicate OnlyTouches(chain: Chain, later: Chain, id: string) {
    later.Keys <= chain.Keys + {id} && forall other :: other in chain && other != id ==>
      other in later && later[other] == chain[other]
  }

  // ----- building the messages

  function BuildRegister(idOf: string -> string, owner: string, want: Desired, bond: string): RegisterMsg {
    RegisterMsg(owner, idOf(owner), bond, want)
  }

  method BuildUpdate(existing: Agent, want: Desired) returns (m: UpdateMsg)
    ensures m == Update(existing, want)
  {
    var metadata := existing.metadata;
    if want.metadata != "" {
      metadata := want.metadata;
    }
    var pricing := existing.pricing;
    if want.pricing.Some? {
      pricing := want.pricing;
    }
    return UpdateMsg(existing.owner, existing.agentId,
                     Desired(want.endpoint, want.capabilityHash, want.capabilities, metadata, pricing));
  }

  /** The desired values, with what was left open filled in from the record. */
  function Update(existing: Agent, want: Desired): UpdateMsg {
    UpdateMsg(existing.owner, existing.agentId,
      want.(metadata := if want.metadata != "" then want.metadata else existing.metadata,
            pricing := if want.pricing.Some? then want.pricing else existing.pricing))
  }

  // ----- drift

  predicate SamePricing(a: Option<Pricing>, b: Option<Pricing>) {
    if a.None? || b.None? then a == b
    else a.value.unit == b.value.unit && a.value.amount == b.value.amount
  }

  /** Sorted copies are equal exactly when the tags are the same up to order. */
  method SameSet(a: seq<string>, b: seq<string>) returns (same: bool)
    ensures same <==> multiset(a) == multiset(b)
  {
    if |a| != |b| {
      assert |multiset(a)| != |multiset(b)|;
      return false;
    }
    var as' := Sorting.Sort(a, x => x);
    var bs' := Sorting.Sort(b, x => x);
    if multiset(a) == multiset(b) {
      Sorting.SortedUnique(as', bs');
    }
    return as' == bs';
  }

  /** What the record and the served agent disagree about. */
  ghost predicate Disagrees(r: Reason, existing: Agent, want: Desired) {
    match r
    case EndpointMoved => existing.endpoint != want.endpoint
    case CardChanged => existing.capabilityHash != want.capabilityHash
    case CapabilitiesChanged => multiset(existing.capabilities) != multiset(want.capabilities)
    case MetadataChanged => want.metadata != "" && existing.metadata != want.metadata
    case PricingChanged => want.pricing.Some? && existing.pricing != want.pricing
  }

  function Rank(r: Reason): nat {
    match r
    case EndpointMoved => 0
    case CardChanged => 1
    case CapabilitiesChanged => 2
    case MetadataChanged => 3
    case PricingChanged => 4
  }

  /** The disagreements of rank below n, each once and in order. */
  ghost predicate Listed(reasons: seq<Reason>, n: nat, existing: Agent, want: Desired) {
    && (forall r :: r in reasons <==> Rank(r) < n && Disagrees(r, existing, want))
    && (forall i, j :: 0 <= i < j < |reasons| ==> Rank(reasons[i]) < Rank(reasons[j]))
  }

  /** One test of Drift. */
  method Note(reasons: seq<Reason>, r: Reason, differs: bool, ghost existing: Agent, ghost want: Desired)
    returns (more: seq<Reason>)
    requires Listed(reasons, Rank(r), existing, want) && (differs <==> Disagrees(r, existing, want))
    ensures Listed(more, Rank(r) + 1, existing, want)
  {
    assert forall i :: 0 <= i < |reasons| ==> reasons[i] in reasons;
    if differs {
      return reasons + [r];
    }
    return reasons;
  }

  method Drift(existing: Agent, want: Desired) returns (reasons: seq<Reason>)
    ensures forall r :: r in reasons <==> Disagrees(r, existing, want)
    ensures forall i, j :: 0 <= i < j < |reasons| ==> Rank(reasons[i]) < Rank(reasons[j])
    ensures reasons == [] <==> Current(existing, want)
  {
    reasons := Note([], EndpointMoved, existing.endpoint != want.endpoint, existing, want);
    reasons := Note(reasons, CardChanged, existing.capabilityHash != want.capabilityHash, existing, want);
    var same := SameSet(existing.capabilities, want.capabilities);
    reasons := Note(reasons, CapabilitiesChanged, !same, existing, want);
    reasons := Note(reasons, MetadataChanged, want.metadata != "" && existing.metadata != want.metadata,
                    existing, want);
    reasons := Note(reasons, PricingChanged, want.pricing.Some? && !SamePricing(existing.pricing, want.pricing),
                    existing, want);
    ListedIsEmpty(reasons, existing, want);
  }

  lemma ListedIsEmpty(reasons: seq<Reason>, existing: Agent, want: Desired)
    requires Listed(reasons, 5, existing, want)
    ensures reasons == [] <==> Current(existing, want)
  {
    if reasons != [] {
      assert reasons[0] in reasons;
    } else {
      assert EndpointMoved !in reasons && CardChanged !in reasons && CapabilitiesChanged !in reasons;
      assert MetadataChanged !in reasons && PricingChanged !in reasons;
    }
  }

  /** Nothing to submit. */
  ghost predicate Current(existing: Agent, want: Desired) {
    && existing.endpoint == want.endpoint
    && existing.capabilityHash == want.capabilityHash
    && multiset(existing.capabilities) == multiset(want.capabilities)
    && (want.metadata != "" ==> existing.metadata == want.metadata)
    && (want.pricing.Some? ==> existing.pricing == want.pricing)
  }

  /** The same record, up to the order of its tags. */
  ghost predicate SameRecord(a: Agent, b: Agent) {
    multiset(a.capabilities) == multiset(b.capabilities) && a == b.(capabilities := a.capabilities)
  }

  /** There is drift exactly when an update would change something other than the order of tags. */
  lemma DriftIsExact(existing: Agent, want: Desired)
    ensures Current(existing, want) <==> SameRecord(ApplyUpdate(existing, Update(existing, want)), existing)
  {
  }

  /**
   * An update built from a stored record and signed by its owner is never refused. It changes
   * that record only and leaves it current, keeps who the agent is and what it has bonded, and
   * clears neither metadata nor pricing.
   */
  lemma UpdateIsAccepted(idOf: string -> string, chain: Chain, id: string, want: Desired)
    requires Filed(idOf, chain) && id in chain
    ensures
      var a := chain[id];
      var r := Deliver(chain, a.owner, UpdateAgent(Update(a, want)));
      && r.Ok? && id in r.value && OnlyTouches(chain, r.value, id) && Filed(idOf, r.value)
      && var b := r.value[id];
         && Current(b, want)
         && b.agentId == a.agentId && b.owner == a.owner && b.bond == a.bond
         && (want.metadata == "" ==> b.metadata == a.metadata)
         && (want.pricing.None? ==> b.pricing == a.pricing)
  {
  }

  /** A registration under a free id is never refused, and leaves a current record of its owner. */
  lemma RegistrationIsAccepted(idOf: string -> string, chain: Chain, owner: string, want: Desired, bond: string)
    requires Filed(idOf, chain) && idOf(owner) !in chain
    ensures
      var id := idOf(owner);
      var r := Deliver(chain, owner, RegisterAgent(BuildRegister(idOf, owner, want, bond)));
      && r.Ok? && id in r.value && OnlyTouches(chain, r.value, id) && Filed(idOf, r.value)
      && var b := r.value[id];
         Current(b, want) && b.agentId == id && b.owner == owner && b.bond == bond
         && b.metadata == want.metadata && b.pricing == want.pricing
  {
  }

  // ----- whole runs of the command

  /** A refused message leaves the chain as it was. */
  function Sent(chain: Chain, signer: string, m: Msg): Chain {
    var r := Deliver(chain, signer, m);
    if r.Ok? then r.value else chain
  }

  /** The command for one owner: what is on chain afterwards. */
  ghost function Reconcile(idOf: string -> string, chain: Chain, owner: string, bond: string, want: Desired): Chain {
    var id := idOf(owner);
    if id !in chain then
      if want.pricing.None? then chain
      else Sent(chain, owner, RegisterAgent(BuildRegister(idOf, owner, want, bond)))
    else if Current(chain[id], want) then chain
    else Sent(chain, owner, UpdateAgent(Update(chain[id], want)))
  }

  method Submit(idOf: string -> string, chain: Chain, owner: string, bond: string, want: Desired)
    returns (after: Chain)
    ensures after == Reconcile(idOf, chain, owner, bond, want)
  {
    var id := idOf(owner);
    if id !in chain {
      if want.pricing.None? {
        return chain;
      }
      return Sent(chain, owner, RegisterAgent(BuildRegister(idOf, owner, want, bond)));
    }
    var drift := Drift(chain[id], want);
    if drift == [] {
      return chain;
    }
    var m := BuildUpdate(chain[id], want);
    return Sent(chain, owner, UpdateAgent(m));
  }

  /** One run is enough: the owner's record is current, a second run changes nothing, and nobody else is touched. */
  lemma Converges(idOf: string -> string, chain: Chain, owner: string, bond: string, want: Desired)
    requires Filed(idOf, chain) && Injective(idOf) && (idOf(owner) in chain || want.pricing.Some?)
    ensures
      var id, after := idOf(owner), Reconcile(idOf, chain, owner, bond, want);
      && id in after && Current(after[id], want) && after[id].owner == owner
      && OnlyTouches(chain, after, id) && Filed(idOf, after)
      && Reconcile(idOf, after, owner, bond, want) == after
  {
    var id := idOf(owner);
    if id in chain {
      assert idOf(chain[id].owner) == idOf(owner);
      UpdateIsAccepted(idOf, chain, id, want);
    } else {
      RegistrationIsAccepted(idOf, chain, owner, want, bond);
    }
  }

  ghost function ReconcileAll(idOf: string -> string, chain: Chain, owner: string, bond: string,
                              wants: seq<Desired>): Chain {
    if wants == [] then chain
    else
      var before := ReconcileAll(idOf, chain, owner, bond, wants[..|wants| - 1]);
      Reconcile(idOf, before, owner, bond, wants[|wants| - 1])
  }

  function LastMetadata(wants: seq<Desired>, otherwise: string): string {
    if wants == [] then otherwise
    else if wants[|wants| - 1].metadata != "" then wants[|wants| - 1].metadata
    else LastMetadata(wants[..|wants| - 1], otherwise)
  }

  function LastPricing(wants: seq<Desired>, otherwise: Option<Pricing>): Option<Pricing> {
    if wants == [] then otherwise
    else if wants[|wants| - 1].pricing.Some? then wants[|wants| - 1].pricing
    else LastPricing(wants[..|wants| - 1], otherwise)
  }

  /** One run on a stored record. */
  lemma RunKeepsIdentity(idOf: string -> string, chain: Chain, owner: string, bond: string, want: Desired)
    requires Filed(idOf, chain) && Injective(idOf) && idOf(owner) in chain
    ensures
      var id, after := idOf(owner), Reconcile(idOf, chain, owner, bond, want);
      && id in after && Current(after[id], want) && OnlyTouches(chain, after, id) && Filed(idOf, after)
      && SameIdentity(chain[id], after[id])
      && after[id].metadata == (if want.metadata != "" then want.metadata else chain[id].metadata)
      && after[id].pricing == (if want.pricing.Some? then want.pricing else chain[id].pricing)
  {
    Converges(idOf, chain, owner, bond, want);
    assert idOf(chain[idOf(owner)].owner) == idOf(owner);
    UpdateIsAccepted(idOf, chain, idOf(owner), want);
  }

  ghost predicate SameIdentity(a: Agent, b: Agent) {
    a.agentId == b.agentId && a.owner == b.owner && a.bond == b.bond
  }

  /**
   * Over any sequence of runs the owner's record follows the last desired state where that is
   * definite, the last value ever supplied for metadata and pricing, and keeps who it is. No
   * other record is touched.
   */
  lemma {:induction false} RunsConverge(idOf: string -> string, chain: Chain, owner: string, bond: string,
                                        wants: seq<Desired>)
    requires Filed(idOf, chain) && Injective(idOf) && idOf(owner) in chain
    ensures
      var id, after := idOf(owner), ReconcileAll(idOf, chain, owner, bond, wants);
      && id in after && OnlyTouches(chain, after, id) && Filed(idOf, after)
      && after[id].metadata == LastMetadata(wants, chain[id].metadata)
      && after[id].pricing == LastPricing(wants, chain[id].pricing)
      && (wants != [] ==> Current(after[id], wants[|wants| - 1]))
      && SameIdentity(chain[id], after[id])
  {
    if wants != [] {
      var before := wants[..|wants| - 1];
      RunsConverge(idOf, chain, owner, bond, before);
      RunKeepsIdentity(idOf, ReconcileAll(idOf, chain, owner, bond, before), owner, bond, wants[|wants| - 1]);
    }
  }

  lemma {:induction false} RunsCompose(idOf: string -> string, chain: Chain, owner: string, bond: string,
                                       first: seq<Desired>, later: seq<Desired>)
    ensures ReconcileAll(idOf, chain, owner, bond, first + later)
         == ReconcileAll(idOf, ReconcileAll(idOf, chain, owner, bond, first), owner, bond, later)
  {
    if later == [] {
      assert first + later == first;
    } else {
      RunsCompose(idOf, chain, owner, bond, first, later[..|later| - 1]);
      assert (first + later)[..|first + later| - 1] == first + later[..|later| - 1];
    }
  }

  lemma {:induction false} NothingUntilPriced(idOf: string -> string, chain: Chain, owner: string, bond: string,
                                              wants: seq<Desired>)
    requires idOf(owner) !in chain && forall k :: 0 <= k < |wants| ==> wants[k].pricing.None?
    ensures ReconcileAll(idOf, chain, owner, bond, wants) == chain
  {
    if wants != [] {
      NothingUntilPriced(idOf, chain, owner, bond, wants[..|wants| - 1]);
    }
  }

  /**
   * Starting unregistered, the first desired state that names a price registers; those before
   * it leave no trace, and those after it run on from the record it made.
   */
  lemma FirstRegistration(idOf: string -> string, chain: Chain, owner: string, bond: string,
                          before: seq<Desired>, first: Desired, later: seq<Desired>)
    requires idOf(owner) !in chain
    requires (forall k :: 0 <= k < |before| ==> before[k].pricing.None?) && first.pricing.Some?
    ensures
      var registered := Agent(idOf(owner), owner, bond, first.endpoint, first.capabilityHash, first.capabilities,
                              first.metadata, first.pricing);
      ReconcileAll(idOf, chain, owner, bond, before + [first] + later)
        == ReconcileAll(idOf, chain[idOf(owner) := registered], owner, bond, later)
  {
    RunsCompose(idOf, chain, owner, bond, before + [first], later);
    RunsCompose(idOf, chain, owner, bond, before, [first]);
    NothingUntilPriced(idOf, chain, owner, bond, before);
    assert [first][..0] == [];
  }
}
