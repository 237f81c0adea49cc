/**
 * The authentication protocol as a state machine. Any number of AuthChallenge and AuthVerify
 * calls, lookups and sweeps interleave; Issue and Mint read the clock before they take their
 * lock, so each is two steps. The maps issued, proven and minted are history.
 */
module AuthRun {
  import opened Text
  import N = NonceStore
  import T = TenantStore

  /**
   * `text` is the challenge for a nonce and its expiry; `recover` is base64 decoding followed
   * by signature recovery, None when either fails.
   */
  datatype Env = Env(
    nonceTtl: int,
    bearerTtl: int,
    text: (string, int) -> string,
    recover: (string, string) -> Option<string>)

  datatype Issued = Issued(owner: string, expiresAt: int, text: string)

  datatype Proof = Proof(owner: string, expiresAt: int, signature: string, at: int)

  datatype Mint = Mint(nonce: string, rec: T.Record)

  datatype State = State(
    now: int,
    nonces: N.Entries,
    tenants: T.Tenants,
    issued: map<string, Issued>,   // by nonce
    inserting: set<string>,        // issued, not yet stored
    proven: map<string, Proof>,    // by nonce: verifications that passed
    unminted: set<string>,         // proven, bearer not yet generated
    minted: map<string, Mint>,     // by bearer
    storing: set<string>)          // minted, not yet stored

  datatype Step =
    | Tick(now: int)
    | ReadIssue(owner: string, nonce: string)
    | InsertNonce(nonce: string)
    | Verify(nonce: string, signature: string)
    | ReadMint(nonce: string, bearer: string, random: string)
    | StoreTenant(bearer: string)
    | SweepNonces
    | SweepTenants

  function Start(now: int): State {
    State(now, map[], T.Tenants(map[], map[]), map[], {}, map[], {}, map[], {})
  }

  /** The clock never runs back, and random identifiers are fresh. */
  predicate Enabled(s: State, step: Step) {
    match step
    case Tick(now) => s.now <= now
    case ReadIssue(owner, nonce) => owner != "" && nonce !in s.issued
    case InsertNonce(nonce) => nonce in s.inserting
    case ReadMint(nonce, bearer, random) =>
      && nonce in s.unminted
      && bearer !in s.minted
      && forall b :: b in s.minted ==> s.minted[b].rec.tenantId != "auto-" + random
    case StoreTenant(bearer) => bearer in s.storing
    case _ => true
  }

  predicate Passes(env: Env, s: State, nonce: string, signature: string) {
    var c := N.Taken(s.nonces, nonce, s.now);
    c.Bound? && env.recover(env.text(nonce, c.entry.expiresAt), signature) == Some(c.entry.owner)
  }

  function Next(env: Env, s: State, step: Step): State {
    match step
    case Tick(now) => s.(now := now)
    case ReadIssue(owner, nonce) =>
      var expiresAt := s.now + env.nonceTtl;
      s.(issued := s.issued[nonce := Issued(owner, expiresAt, env.text(nonce, expiresAt))],
         inserting := s.inserting + {nonce})
    case InsertNonce(nonce) =>
      if nonce !in s.issued then s
      else s.(nonces := s.nonces[nonce := N.Entry(s.issued[nonce].owner, s.issued[nonce].expiresAt)],
              inserting := s.inserting - {nonce})
    case Verify(nonce, signature) =>
      var rest := s.(nonces := s.nonces - {nonce});
      if Passes(env, s, nonce, signature) then
        var entry := s.nonces[nonce];
        rest.(proven := s.proven[nonce := Proof(entry.owner, entry.expiresAt, signature, s.now)],
              unminted := s.unminted + {nonce})
      else rest
    case ReadMint(nonce, bearer, random) =>
      if nonce !in s.proven then s
      else
        var rec := T.Record("auto-" + random, s.proven[nonce].owner, s.now + env.bearerTtl);
        s.(minted := s.minted[bearer := Mint(nonce, rec)],
           unminted := s.unminted - {nonce},
           storing := s.storing + {bearer})
    case StoreTenant(bearer) =>
      if bearer !in s.minted then s
      else s.(tenants := T.Add(s.tenants, bearer, s.minted[bearer].rec), storing := s.storing - {bearer})
    case SweepNonces => s.(nonces := N.Live(s.nonces, s.now))
    case SweepTenants => s.(tenants := T.Live(s.tenants, s.now))
  }

  function After(env: Env, start: State, run: seq<Step>): State {
    if run == [] then start else Next(env, After(env, start, run[..|run| - 1]), run[|run| - 1])
  }

  predicate Legal(env: Env, start: State, run: seq<Step>) {
    run != [] ==>
      Legal(env, start, run[..|run| - 1]) && Enabled(After(env, start, run[..|run| - 1]), run[|run| - 1])
  }

  // ----- what every step keeps

  ghost predicate NonceInv(env: Env, issued: map<string, Issued>, inserting: set<string>,
                           nonces: N.Entries, proven: map<string, Proof>) {
    && inserting <= issued.Keys
    && inserting !! nonces.Keys
    && proven.Keys !! nonces.Keys + inserting
    && (forall n :: n in issued ==>
         issued[n].owner != "" && issued[n].text == env.text(n, issued[n].expiresAt))
    && (forall n :: n in nonces ==>
         n in issued && nonces[n] == N.Entry(issued[n].owner, issued[n].expiresAt))
  }

  /** A proof names the owner and expiry of its nonce, in time, over the text that was issued. */
  ghost predicate Sound(env: Env, issued: map<string, Issued>, nonce: string, p: Proof) {
    && nonce in issued
    && p.owner == issued[nonce].owner
    && p.expiresAt == issued[nonce].expiresAt
    && p.at < p.expiresAt
    && env.recover(issued[nonce].text, p.signature) == Some(p.owner)
  }

  ghost predicate ProofInv(env: Env, issued: map<string, Issued>, proven: map<string, Proof>) {
    forall n :: n in proven ==> Sound(env, issued, n, proven[n])
  }

  /** Each mint used up a proof of its own. */
  ghost predicate MintInv(proven: map<string, Proof>, unminted: set<string>, minted: map<string, Mint>) {
    && unminted <= proven.Keys
    && (forall b :: b in minted ==>
         && minted[b].nonce in proven
         && minted[b].nonce !in unminted
         && minted[b].rec.owner == proven[minted[b].nonce].owner)
    && (forall a, b :: a in minted && b in minted && a != b ==>
         minted[a].nonce != minted[b].nonce && minted[a].rec.tenantId != minted[b].rec.tenantId)
  }

  /** The two maps are one: bearers map one to one onto the stored tenant ids. */
  ghost predicate TenantInv(minted: map<string, Mint>, storing: set<string>, t: T.Tenants) {
    && storing <= minted.Keys
    && storing !! t.byBearer.Keys
    && (forall b :: b in t.byBearer ==>
         && b in minted
         && t.byBearer[b] == minted[b].rec.tenantId
         && t.byBearer[b] in t.byTenant
         && t.byTenant[t.byBearer[b]] == minted[b].rec)
    && t.byTenant.Keys == t.byBearer.Values
    && (forall a, b :: a in t.byBearer && b in t.byBearer && a != b ==> t.byBearer[a] != t.byBearer[b])
  }

  ghost predicate Inv(env: Env, s: State) {
    && NonceInv(env, s.issued, s.inserting, s.nonces, s.proven)
    && ProofInv(env, s.issued, s.proven)
    && MintInv(s.proven, s.unminted, s.minted)
    && TenantInv(s.minted, s.storing, s.tenants)
  }

  lemma IssueKeepsInv(env: Env, s: State, step: Step)
    requires Inv(env, s) && Enabled(s, step) && step.ReadIssue?
    ensures Inv(env, Next(env, s, step))
  {
  }

  lemma VerifyKeepsInv(env: Env, s: State, step: Step)
    requires Inv(env, s) && step.Verify?
    ensures Inv(env, Next(env, s, step))
  {
    var n := step.nonce;
    if Passes(env, s, n, step.signature) {
      assert s.issued[n].text == env.text(n, s.nonces[n].expiresAt);
    }
  }

  lemma RecordKeepsMints(proven: map<string, Proof>, unminted: set<string>, minted: map<string, Mint>,
                         bearer: string, m: Mint)
    requires MintInv(proven, unminted, minted) && bearer !in minted
    requires m.nonce in unminted && m.rec.owner == proven[m.nonce].owner
    requires forall b :: b in minted ==> minted[b].rec.tenantId != m.rec.tenantId
    ensures MintInv(proven, unminted - {m.nonce}, minted[bearer := m])
  {
  }

  lemma RecordKeepsTenants(minted: map<string, Mint>, storing: set<string>, t: T.Tenants, bearer: string, m: Mint)
    requires TenantInv(minted, storing, t) && bearer !in minted
    ensures TenantInv(minted[bearer := m], storing + {bearer}, t)
  {
  }

  lemma MintKeepsMints(env: Env, s: State, step: Step)
    requires MintInv(s.proven, s.unminted, s.minted) && Enabled(s, step) && step.ReadMint?
    ensures
      var later := Next(env, s, step);
      MintInv(later.proven, later.unminted, later.minted)
  {
    var rec := T.Record("auto-" + step.random, s.proven[step.nonce].owner, s.now + env.bearerTtl);
    RecordKeepsMints(s.proven, s.unminted, s.minted, step.bearer, Mint(step.nonce, rec));
  }

  lemma MintKeepsInv(env: Env, s: State, step: Step)
    requires Inv(env, s) && Enabled(s, step) && step.ReadMint?
    ensures Inv(env, Next(env, s, step))
  {
    MintKeepsMints(env, s, step);
    RecordKeepsTenants(s.minted, s.storing, s.tenants, step.bearer, Next(env, s, step).minted[step.bearer]);
  }

  lemma StoreKeepsTenants(minted: map<string, Mint>, storing: set<string>, t: T.Tenants, bearer: string)
    requires TenantInv(minted, storing, t) && bearer in storing
    requires forall b :: b in minted && b != bearer ==> minted[b].rec.tenantId != minted[bearer].rec.tenantId
    ensures TenantInv(minted, storing - {bearer}, T.Add(t, bearer, minted[bearer].rec))
  {
    var rec := minted[bearer].rec;
    var added := T.Add(t, bearer, rec);
    AddedValues(t.byBearer, bearer, rec.tenantId);
    forall b | b in added.byBearer
      ensures added.byTenant[added.byBearer[b]] == minted[b].rec
    {
      assert b != bearer ==> added.byBearer[b] == t.byBearer[b] != rec.tenantId;
    }
  }

  lemma AddedValues(m: map<string, string>, k: string, v: string)
    requires k !in m
    ensures m[k := v].Values == m.Values + {v}
  {
    var n := m[k := v];
    forall x | x in m.Values + {v}
      ensures x in n.Values
    {
      if x == v {
        assert n[k] == v;
      } else {
        var j :| j in m && m[j] == x;
        assert n[j] == x;
      }
    }
  }

  lemma SweepKeepsTenants(minted: map<string, Mint>, storing: set<string>, t: T.Tenants, now: int)
    requires TenantInv(minted, storing, t)
    ensures TenantInv(minted, storing, T.Live(t, now))
  {
    var live := T.Live(t, now);
    forall id | id in live.byTenant
      ensures id in live.byBearer.Values
    {
      var b :| b in t.byBearer && t.byBearer[b] == id;
      assert live.byBearer[b] == id;
    }
  }

  lemma OtherKeepsInv(env: Env, s: State, step: Step)
    requires Inv(env, s) && Enabled(s, step) && (step.Tick? || step.InsertNonce? || step.SweepNonces?)
    ensures Inv(env, Next(env, s, step))
  {
  }

  lemma StepKeepsInv(env: Env, s: State, step: Step)
    requires Inv(env, s) && Enabled(s, step)
    ensures Inv(env, Next(env, s, step))
  {
    match step
    case ReadIssue(_, _) => IssueKeepsInv(env, s, step);
    case Verify(_, _) => VerifyKeepsInv(env, s, step);
    case ReadMint(_, _, _) => MintKeepsInv(env, s, step);
    case StoreTenant(bearer) => StoreKeepsTenants(s.minted, s.storing, s.tenants, bearer);
    case SweepTenants => SweepKeepsTenants(s.minted, s.storing, s.tenants, s.now);
    case _ => OtherKeepsInv(env, s, step);
  }

  lemma {:induction false} InvariantFrom(env: Env, start: State, run: seq<Step>)
    requires Inv(env, start) && Legal(env, start, run)
    ensures Inv(env, After(env, start, run))
  {
    if run != [] {
      var before := run[..|run| - 1];
      InvariantFrom(env, start, before);
      StepKeepsInv(env, After(env, start, before), run[|run| - 1]);
    }
  }

  lemma Invariant(env: Env, now: int, run: seq<Step>)
    requires Legal(env, Start(now), run)
    ensures Inv(env, After(env, Start(now), run))
  {
    InvariantFrom(env, Start(now), run);
  }

  // ----- every accepted bearer has a history

  /** What one step adds to the issued nonces. */
  lemma IssueOrigin(env: Env, s: State, step: Step, nonce: string)
    requires nonce in Next(env, s, step).issued
    ensures
      var entry := Next(env, s, step).issued[nonce];
      || (nonce in s.issued && s.issued[nonce] == entry)
      || (step == ReadIssue(entry.owner, nonce) && entry.expiresAt == s.now + env.nonceTtl)
  {
  }

  /** The step that put a nonce into the log. */
  lemma {:induction false} IssuedAt(env: Env, now: int, run: seq<Step>, nonce: string) returns (i: nat)
    requires Legal(env, Start(now), run) && nonce in After(env, Start(now), run).issued
    ensures i < |run|
    ensures
      var entry := After(env, Start(now), run).issued[nonce];
      && run[i] == ReadIssue(entry.owner, nonce)
      && entry.expiresAt == After(env, Start(now), run[..i]).now + env.nonceTtl
  {
    var before, last := run[..|run| - 1], run[|run| - 1];
    var s := After(env, Start(now), before);
    IssueOrigin(env, s, last, nonce);
    if nonce !in s.issued || s.issued[nonce] != After(env, Start(now), run).issued[nonce] {
      i := |run| - 1;
    } else {
      i := IssuedAt(env, now, before, nonce);
      assert before[..i] == run[..i];
    }
  }

  /**
   * At step i the nonce was issued to `owner`; at step j, before it expired, a signature came
   * in that recovers to `owner` over the text issued at step i.
   */
  ghost predicate ProvedOwnership(env: Env, now: int, run: seq<Step>, i: nat, j: nat, nonce: string, owner: string)
    requires i < j < |run|
  {
    var expiresAt := After(env, Start(now), run[..i]).now + env.nonceTtl;
    && run[i] == ReadIssue(owner, nonce)
    && run[j].Verify? && run[j].nonce == nonce
    && After(env, Start(now), run[..j]).now < expiresAt
    && env.recover(env.text(nonce, expiresAt), run[j].signature) == Some(owner)
  }

  lemma Longer(env: Env, now: int, run: seq<Step>, i: nat, j: nat, nonce: string, owner: string)
    requires run != [] && i < j < |run| - 1
    requires ProvedOwnership(env, now, run[..|run| - 1], i, j, nonce, owner)
    ensures ProvedOwnership(env, now, run, i, j, nonce, owner)
  {
    assert run[..|run| - 1][..i] == run[..i] && run[..|run| - 1][..j] == run[..j];
  }

  /** What one step adds to the proofs. */
  lemma ProofOrigin(env: Env, s: State, step: Step, nonce: string)
    requires nonce in Next(env, s, step).proven
    ensures
      || (nonce in s.proven && s.proven[nonce] == Next(env, s, step).proven[nonce])
      || (&& step.Verify? && step.nonce == nonce && Passes(env, s, nonce, step.signature)
          && Next(env, s, step).proven[nonce].owner == s.nonces[nonce].owner)
  {
  }

  lemma {:induction false} OwnershipOfProof(env: Env, now: int, run: seq<Step>, nonce: string) returns (i: nat, j: nat)
    requires Legal(env, Start(now), run) && nonce in After(env, Start(now), run).proven
    ensures i < j < |run|
    ensures ProvedOwnership(env, now, run, i, j, nonce, After(env, Start(now), run).proven[nonce].owner)
  {
    var before, last := run[..|run| - 1], run[|run| - 1];
    var s := After(env, Start(now), before);
    ProofOrigin(env, s, last, nonce);
    if last.Verify? && last.nonce == nonce && Passes(env, s, nonce, last.signature) {
      NoncesWereIssued(env, now, before, nonce);
      i := IssuedAt(env, now, before, nonce);
      j := |run| - 1;
      assert before[..i] == run[..i];
    } else {
      i, j := OwnershipOfProof(env, now, before, nonce);
      Longer(env, now, run, i, j, nonce, s.proven[nonce].owner);
    }
  }

  lemma NoncesWereIssued(env: Env, now: int, run: seq<Step>, nonce: string)
    requires Legal(env, Start(now), run) && nonce in After(env, Start(now), run).nonces
    ensures
      var s := After(env, Start(now), run);
      && nonce in s.issued && s.issued[nonce].owner != ""
      && s.nonces[nonce] == N.Entry(s.issued[nonce].owner, s.issued[nonce].expiresAt)
  {
    Invariant(env, now, run);
  }

  lemma UnmintedAreProven(env: Env, now: int, run: seq<Step>, nonce: string)
    requires Legal(env, Start(now), run) && nonce in After(env, Start(now), run).unminted
    ensures nonce in After(env, Start(now), run).proven
  {
    Invariant(env, now, run);
  }

  /** What one step adds to the minted bearers. */
  lemma MintOrigin(env: Env, s: State, step: Step, bearer: string)
    requires Enabled(s, step) && bearer in Next(env, s, step).minted
    ensures
      var mint := Next(env, s, step).minted[bearer];
      if step.ReadMint? && step.bearer == bearer then
        && step.nonce in s.proven
        && mint.rec == T.Record("auto-" + step.random, s.proven[step.nonce].owner, s.now + env.bearerTtl)
      else bearer in s.minted && s.minted[bearer] == mint
  {
  }

  /** Steps i, j and k are the issue, the proof and the mint behind a bearer and its record. */
  ghost predicate MintHistory(env: Env, now: int, run: seq<Step>, i: nat, j: nat, k: nat,
                              bearer: string, rec: T.Record)
    requires i < j < k < |run|
  {
    && run[k].ReadMint? && run[k].bearer == bearer
    && rec.tenantId == "auto-" + run[k].random
    && rec.expiresAt == After(env, Start(now), run[..k]).now + env.bearerTtl
    && ProvedOwnership(env, now, run, i, j, run[k].nonce, rec.owner)
  }

  lemma LongerMint(env: Env, now: int, run: seq<Step>, i: nat, j: nat, k: nat,
                   bearer: string, rec: T.Record)
    requires run != [] && i < j < k < |run| - 1
    requires MintHistory(env, now, run[..|run| - 1], i, j, k, bearer, rec)
    ensures MintHistory(env, now, run, i, j, k, bearer, rec)
  {
    assert run[..|run| - 1][..k] == run[..k];
    Longer(env, now, run, i, j, run[k].nonce, rec.owner);
  }

  lemma {:induction false} OwnershipOfMint(env: Env, now: int, run: seq<Step>, bearer: string)
      returns (i: nat, j: nat, k: nat)
    requires Legal(env, Start(now), run) && bearer in After(env, Start(now), run).minted
    ensures i < j < k < |run|
    ensures MintHistory(env, now, run, i, j, k, bearer, After(env, Start(now), run).minted[bearer].rec)
  {
    var before, last := run[..|run| - 1], run[|run| - 1];
    var s := After(env, Start(now), before);
    MintOrigin(env, s, last, bearer);
    if last.ReadMint? && last.bearer == bearer {
      k := |run| - 1;
      i, j := OwnershipOfProof(env, now, before, last.nonce);
      Longer(env, now, run, i, j, last.nonce, s.proven[last.nonce].owner);
    } else {
      i, j, k := OwnershipOfMint(env, now, before, bearer);
      LongerMint(env, now, run, i, j, k, bearer, s.minted[bearer].rec);
    }
  }

  /**
   * A bearer that is accepted was minted by a verification that came after the issue of its
   * own nonce, to the same owner and over the text that owner was given, before the nonce
   * expired; and the bearer has not expired itself.
   */
  lemma AcceptedBearerHasHistory(env: Env, now: int, run: seq<Step>, bearer: string)
      returns (i: nat, j: nat, k: nat)
    requires Legal(env, Start(now), run)
    requires var s := After(env, Start(now), run); T.Resolve(s.tenants, bearer, s.now).Active?
    ensures i < j < k < |run|
    ensures
      var s := After(env, Start(now), run);
      var rec := T.Resolve(s.tenants, bearer, s.now).rec;
      MintHistory(env, now, run, i, j, k, bearer, rec) && s.now < rec.expiresAt
  {
    Invariant(env, now, run);
    var s := After(env, Start(now), run);
    AcceptedWasMinted(s.minted, s.storing, s.tenants, bearer, s.now);
    i, j, k := OwnershipOfMint(env, now, run, bearer);
  }

  lemma AcceptedWasMinted(minted: map<string, Mint>, storing: set<string>, t: T.Tenants, bearer: string, now: int)
    requires TenantInv(minted, storing, t) && T.Resolve(t, bearer, now).Active?
    ensures bearer in minted && T.Resolve(t, bearer, now).rec == minted[bearer].rec
    ensures now < minted[bearer].rec.expiresAt
  {
  }

  lemma {:induction false} MintIsLogged(env: Env, now: int, run: seq<Step>, j: nat)
    requires Legal(env, Start(now), run) && j < |run| && run[j].ReadMint?
    ensures
      var minted := After(env, Start(now), run).minted;
      run[j].bearer in minted && minted[run[j].bearer].nonce == run[j].nonce
  {
    var before := run[..|run| - 1];
    if j < |run| - 1 {
      MintIsLogged(env, now, before, j);
    } else {
      UnmintedAreProven(env, now, before, run[j].nonce);
    }
  }

  /** No nonce pays for two bearers. */
  lemma {:induction false} OneBearerPerNonce(env: Env, now: int, run: seq<Step>, j: nat, k: nat)
    requires Legal(env, Start(now), run) && j < k < |run|
    requires run[j].ReadMint? && run[k].ReadMint?
    ensures run[j].nonce != run[k].nonce && run[j].bearer != run[k].bearer
  {
    var before := run[..|run| - 1];
    if k < |run| - 1 {
      OneBearerPerNonce(env, now, before, j, k);
    } else {
      MintIsLogged(env, now, before, j);
      Invariant(env, now, before);
    }
  }

  /** Issued, and neither waiting to be stored nor in the store. */
  ghost predicate Burnt(s: State, nonce: string) {
    nonce in s.issued && nonce !in s.inserting && nonce !in s.nonces
  }

  /** Any verification of a stored nonce burns it, whether or not it passes. */
  lemma VerifyBurns(env: Env, s: State, nonce: string, signature: string)
    requires Inv(env, s) && nonce in s.nonces
    ensures Burnt(Next(env, s, Verify(nonce, signature)), nonce)
  {
  }

  lemma StepKeepsBurnt(env: Env, s: State, step: Step, nonce: string)
    requires Enabled(s, step) && Burnt(s, nonce)
    ensures Burnt(Next(env, s, step), nonce)
  {
  }

  /** A burnt nonce never verifies again, in any continuation and with any signature. */
  lemma {:induction false} BurntForever(env: Env, s: State, run: seq<Step>, nonce: string)
    requires Legal(env, s, run) && Burnt(s, nonce)
    ensures Burnt(After(env, s, run), nonce)
    ensures forall signature :: !Passes(env, After(env, s, run), nonce, signature)
  {
    if run != [] {
      var before := run[..|run| - 1];
      BurntForever(env, s, before, nonce);
      StepKeepsBurnt(env, After(env, s, before), run[|run| - 1], nonce);
    }
  }

  // ----- an honest owner gets in

  predicate Verifies(step: Step, nonce: string) {
    step.Verify? && step.nonce == nonce
  }

  lemma NonceStays(env: Env, s: State, step: Step, nonce: string)
    requires NonceInv(env, s.issued, s.inserting, s.nonces, s.proven)
    requires Enabled(s, step) && nonce in s.nonces && !Verifies(step, nonce)
    requires Next(env, s, step).now < s.nonces[nonce].expiresAt
    ensures nonce in Next(env, s, step).nonces && Next(env, s, step).nonces[nonce] == s.nonces[nonce]
  {
  }

  /** A stored nonce that nobody verifies stays as it is until it expires, whatever else happens. */
  lemma {:induction false} NonceWaits(env: Env, s: State, run: seq<Step>, nonce: string)
    requires Inv(env, s) && Legal(env, s, run) && nonce in s.nonces
    requires forall k :: 0 <= k < |run| ==> !Verifies(run[k], nonce)
    requires After(env, s, run).now < s.nonces[nonce].expiresAt
    ensures nonce in After(env, s, run).nonces && After(env, s, run).nonces[nonce] == s.nonces[nonce]
  {
    if run != [] {
      var before := run[..|run| - 1];
      assert forall k :: 0 <= k < |before| ==> before[k] == run[k];
      ClockRuns(env, After(env, s, before), run[|run| - 1]);
      NonceWaits(env, s, before, nonce);
      InvariantFrom(env, s, before);
      NonceStays(env, After(env, s, before), run[|run| - 1], nonce);
    }
  }

  lemma ClockRuns(env: Env, s: State, step: Step)
    requires Enabled(s, step)
    ensures s.now <= Next(env, s, step).now
  {
  }

  /**
   * An owner who signs the text that was issued, before it expires and before anybody else uses
   * up the nonce, passes, whatever happens in between.
   */
  lemma HonestProofPasses(env: Env, s: State, owner: string, nonce: string, wait: seq<Step>, signature: string)
    requires Inv(env, s) && Enabled(s, ReadIssue(owner, nonce))
    requires
      var stored := Next(env, Next(env, s, ReadIssue(owner, nonce)), InsertNonce(nonce));
      Legal(env, stored, wait) && After(env, stored, wait).now < s.now + env.nonceTtl
    requires forall k :: 0 <= k < |wait| ==> !Verifies(wait[k], nonce)
    requires env.recover(env.text(nonce, s.now + env.nonceTtl), signature) == Some(owner)
    ensures
      var stored := Next(env, Next(env, s, ReadIssue(owner, nonce)), InsertNonce(nonce));
      Passes(env, After(env, stored, wait), nonce, signature)
  {
    IssueStores(env, s, owner, nonce);
    NonceWaits(env, Next(env, Next(env, s, ReadIssue(owner, nonce)), InsertNonce(nonce)), wait, nonce);
  }

  lemma IssueStores(env: Env, s: State, owner: string, nonce: string)
    requires Inv(env, s) && Enabled(s, ReadIssue(owner, nonce))
    ensures
      var stored := Next(env, Next(env, s, ReadIssue(owner, nonce)), InsertNonce(nonce));
      && Inv(env, stored)
      && nonce in stored.nonces && stored.nonces[nonce] == N.Entry(owner, s.now + env.nonceTtl)
  {
    StepKeepsInv(env, s, ReadIssue(owner, nonce));
    StepKeepsInv(env, Next(env, s, ReadIssue(owner, nonce)), InsertNonce(nonce));
  }

  /** A proof that passes is on record, under its owner, and waits for a bearer. */
  lemma PassedIsProven(env: Env, s: State, nonce: string, signature: string)
    requires Passes(env, s, nonce, signature)
    ensures
      var later := Next(env, s, Verify(nonce, signature));
      && nonce in later.proven && later.proven[nonce].owner == s.nonces[nonce].owner
      && nonce in later.unminted && nonce !in later.nonces
  {
  }

  lemma BearerStays(env: Env, s: State, step: Step, bearer: string)
    requires TenantInv(s.minted, s.storing, s.tenants) && Enabled(s, step) && bearer in s.tenants.byBearer
    requires Next(env, s, step).now < s.minted[bearer].rec.expiresAt
    ensures
      var later := Next(env, s, step);
      bearer in later.tenants.byBearer && bearer in later.minted && later.minted[bearer] == s.minted[bearer]
  {
    assert bearer in s.minted;
    if step.SweepTenants? {
      SweepSparesLive(s.minted, s.storing, s.tenants, bearer, s.now);
    }
  }

  lemma SweepSparesLive(minted: map<string, Mint>, storing: set<string>, t: T.Tenants, bearer: string, now: int)
    requires TenantInv(minted, storing, t) && bearer in t.byBearer && now < minted[bearer].rec.expiresAt
    ensures bearer in T.Live(t, now).byBearer
  {
    assert t.byTenant[t.byBearer[bearer]] == minted[bearer].rec;
    assert !T.Dead(t, bearer, now);
  }

  /** A stored bearer leads to its own record until that expires, whatever else happens. */
  lemma {:induction false} BearerWaits(env: Env, s: State, run: seq<Step>, bearer: string)
    requires Inv(env, s) && Legal(env, s, run) && bearer in s.tenants.byBearer
    requires After(env, s, run).now < s.minted[bearer].rec.expiresAt
    ensures
      var later := After(env, s, run);
      && bearer in later.tenants.byBearer && bearer in later.minted && later.minted[bearer] == s.minted[bearer]
      && T.Resolve(later.tenants, bearer, later.now) == T.Active(s.minted[bearer].rec)
  {
    if run != [] {
      var before := run[..|run| - 1];
      var t := After(env, s, before);
      ClockRuns(env, t, run[|run| - 1]);
      BearerWaits(env, s, before, bearer);
      InvariantFrom(env, s, before);
      BearerStays(env, t, run[|run| - 1], bearer);
    }
    InvariantFrom(env, s, run);
    StoredIsActive(After(env, s, run), bearer);
  }

  lemma StoredIsActive(s: State, bearer: string)
    requires TenantInv(s.minted, s.storing, s.tenants) && bearer in s.tenants.byBearer
    requires s.now < s.minted[bearer].rec.expiresAt
    ensures T.Resolve(s.tenants, bearer, s.now) == T.Active(s.minted[bearer].rec)
  {
  }

  /** Who has proved to own the address is admitted under it until the bearer expires, whatever happens in between. */
  lemma ProvenOwnerIsAdmitted(env: Env, s: State, nonce: string, bearer: string, random: string, wait: seq<Step>)
    requires Inv(env, s) && Enabled(s, ReadMint(nonce, bearer, random))
    requires
      var stored := Next(env, Next(env, s, ReadMint(nonce, bearer, random)), StoreTenant(bearer));
      Legal(env, stored, wait) && After(env, stored, wait).now < s.now + env.bearerTtl
    ensures
      var stored := Next(env, Next(env, s, ReadMint(nonce, bearer, random)), StoreTenant(bearer));
      var later := After(env, stored, wait);
      T.Resolve(later.tenants, bearer, later.now)
        == T.Active(T.Record("auto-" + random, s.proven[nonce].owner, s.now + env.bearerTtl))
  {
    var minted := Next(env, s, ReadMint(nonce, bearer, random));
    var stored := Next(env, minted, StoreTenant(bearer));
    StepKeepsInv(env, s, ReadMint(nonce, bearer, random));
    MintOrigin(env, s, ReadMint(nonce, bearer, random), bearer);
    StepKeepsInv(env, minted, StoreTenant(bearer));
    BearerWaits(env, stored, wait, bearer);
  }

  // ----- sweeping changes no success

  predicate IsSweep(step: Step) {
    step.SweepNonces? || step.SweepTenants?
  }

  function Unswept(run: seq<Step>): seq<Step> {
    if run == [] then []
    else
      var rest, last := Unswept(run[..|run| - 1]), run[|run| - 1];
      if IsSweep(last) then rest else rest + [last]
  }

  /** `u` holds what `s` holds, and some entries that have expired. */
  ghost predicate NoncesAgree(s: N.Entries, u: N.Entries, now: int) {
    && (forall n :: n in s ==> n in u && u[n] == s[n])
    && (forall n :: n in u && n !in s ==> now >= u[n].expiresAt)
  }

  ghost predicate TenantsAgree(s: set<string>, u: set<string>, minted: map<string, Mint>, now: int) {
    && s <= u <= minted.Keys
    && (forall b :: b in u && b !in s ==> now >= minted[b].rec.expiresAt)
  }

  ghost predicate Agree(s: State, u: State) {
    && u == s.(nonces := u.nonces, tenants := u.tenants)
    && NoncesAgree(s.nonces, u.nonces, s.now)
    && TenantsAgree(s.tenants.byBearer.Keys, u.tenants.byBearer.Keys, s.minted, s.now)
  }

  /** The same outcome, or an expiry reported as an absence. */
  ghost predicate SameOutcomes(s: State, u: State, nonce: string, bearer: string) {
    && (|| N.Taken(s.nonces, nonce, s.now) == N.Taken(u.nonces, nonce, u.now)
        || (N.Taken(s.nonces, nonce, s.now).NotFound? && N.Taken(u.nonces, nonce, u.now).Expired?))
    && (|| T.Resolve(s.tenants, bearer, s.now) == T.Resolve(u.tenants, bearer, u.now)
        || (T.Resolve(s.tenants, bearer, s.now).NotFound? && T.Resolve(u.tenants, bearer, u.now).Expired?))
  }

  lemma AgreeingLookups(minted: map<string, Mint>, storing: set<string>, s: T.Tenants, u: T.Tenants,
                        bearer: string, now: int)
    requires TenantInv(minted, storing, s) && TenantInv(minted, storing, u)
    requires TenantsAgree(s.byBearer.Keys, u.byBearer.Keys, minted, now)
    ensures
      || T.Resolve(s, bearer, now) == T.Resolve(u, bearer, now)
      || (T.Resolve(s, bearer, now).NotFound? && T.Resolve(u, bearer, now).Expired?)
  {
    if bearer in u.byBearer {
      assert u.byTenant[u.byBearer[bearer]] == minted[bearer].rec;
      if bearer in s.byBearer {
        assert s.byTenant[s.byBearer[bearer]] == minted[bearer].rec;
      }
    }
  }

  lemma AgreeingOutcomes(env: Env, s: State, u: State, nonce: string, bearer: string)
    requires Inv(env, s) && Inv(env, u) && Agree(s, u)
    ensures SameOutcomes(s, u, nonce, bearer)
  {
    AgreeingLookups(s.minted, s.storing, s.tenants, u.tenants, bearer, s.now);
  }

  lemma VerifiesAgree(env: Env, s: State, u: State, step: Step)
    requires Agree(s, u) && step.Verify?
    ensures Agree(Next(env, s, step), Next(env, u, step))
  {
    assert Passes(env, s, step.nonce, step.signature) <==> Passes(env, u, step.nonce, step.signature);
  }

  lemma MintsAgree(env: Env, s: State, u: State, step: Step)
    requires Agree(s, u) && Enabled(s, step) && (step.ReadMint? || step.StoreTenant?)
    ensures Agree(Next(env, s, step), Next(env, u, step))
  {
    if step.StoreTenant? && step.bearer in s.minted {
      var rec := s.minted[step.bearer].rec;
      assert T.Add(s.tenants, step.bearer, rec).byBearer.Keys == s.tenants.byBearer.Keys + {step.bearer};
      assert T.Add(u.tenants, step.bearer, rec).byBearer.Keys == u.tenants.byBearer.Keys + {step.bearer};
    }
  }

  lemma OthersAgree(env: Env, s: State, u: State, step: Step)
    requires Agree(s, u) && Enabled(s, step)
    requires step.Tick? || step.ReadIssue? || step.InsertNonce?
    ensures Agree(Next(env, s, step), Next(env, u, step))
  {
  }

  lemma SweepAgrees(env: Env, s: State, u: State, step: Step)
    requires Inv(env, s) && Agree(s, u) && IsSweep(step)
    ensures Agree(Next(env, s, step), u)
  {
    if step.SweepTenants? {
      SweepKeepsAgreement(s.minted, s.storing, s.tenants, u.tenants.byBearer.Keys, s.now);
    }
  }

  lemma SweepKeepsAgreement(minted: map<string, Mint>, storing: set<string>, s: T.Tenants, u: set<string>, now: int)
    requires TenantInv(minted, storing, s) && TenantsAgree(s.byBearer.Keys, u, minted, now)
    ensures TenantsAgree(T.Live(s, now).byBearer.Keys, u, minted, now)
  {
    var live := T.Live(s, now);
    forall b | b in s.byBearer && b !in live.byBearer
      ensures now >= minted[b].rec.expiresAt
    {
      assert T.Dead(s, b, now);
    }
  }

  lemma {:induction false} RunsAgree(env: Env, now: int, run: seq<Step>)
    requires Legal(env, Start(now), run)
    ensures Legal(env, Start(now), Unswept(run))
    ensures Agree(After(env, Start(now), run), After(env, Start(now), Unswept(run)))
  {
    if run != [] {
      var before, last := run[..|run| - 1], run[|run| - 1];
      RunsAgree(env, now, before);
      var s, u := After(env, Start(now), before), After(env, Start(now), Unswept(before));
      if IsSweep(last) {
        Invariant(env, now, before);
        SweepAgrees(env, s, u, last);
      } else {
        assert Unswept(run)[..|Unswept(run)| - 1] == Unswept(before);
        match last
        case Verify(_, _) => VerifiesAgree(env, s, u, last);
        case ReadMint(_, _, _) => MintsAgree(env, s, u, last);
        case StoreTenant(_) => MintsAgree(env, s, u, last);
        case _ => OthersAgree(env, s, u, last);
      }
    }
  }

  /** Sweeps can be put anywhere: they take nothing away that a later step needs. */
  lemma {:induction false} SweepsFitIn(env: Env, now: int, run: seq<Step>)
    requires Legal(env, Start(now), Unswept(run))
    ensures Legal(env, Start(now), run)
  {
    if run != [] {
      var before, last := run[..|run| - 1], run[|run| - 1];
      if !IsSweep(last) {
        assert Unswept(run)[..|Unswept(run)| - 1] == Unswept(before);
      }
      SweepsFitIn(env, now, before);
      RunsAgree(env, now, before);
      var s, u := After(env, Start(now), before), After(env, Start(now), Unswept(before));
      if !IsSweep(last) {
        AgreeingSteps(s, u, last);
      }
    }
  }

  lemma AgreeingSteps(s: State, u: State, step: Step)
    requires Agree(s, u)
    ensures Enabled(s, step) <==> Enabled(u, step)
  {
  }

  /**
   * A run is legal exactly when it is legal without its sweeps. Both then have the same clock,
   * issues, proofs and mints, and any consumption or lookup then tried has the same outcome,
   * but for an expiry reported as an absence.
   */
  lemma SweepTransparency(env: Env, now: int, run: seq<Step>, nonce: string, bearer: string)
    ensures Legal(env, Start(now), run) <==> Legal(env, Start(now), Unswept(run))
    ensures Legal(env, Start(now), run) ==>
      var s, u := After(env, Start(now), run), After(env, Start(now), Unswept(run));
      u == s.(nonces := u.nonces, tenants := u.tenants) && SameOutcomes(s, u, nonce, bearer)
  {
    if Legal(env, Start(now), Unswept(run)) {
      SweepsFitIn(env, now, run);
    }
    if Legal(env, Start(now), run) {
      RunsAgree(env, now, run);
      Invariant(env, now, run);
      Invariant(env, now, Unswept(run));
      AgreeingOutcomes(env, After(env, Start(now), run), After(env, Start(now), Unswept(run)), nonce, bearer);
    }
  }
}
