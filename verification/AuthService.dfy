/**
 * The service that runs the protocol on the two stores. Its ghost field `steps` is the run so
 * far, and Valid() says that the stores hold what that run leaves in them.
 */
module AuthService {
  import opened Text
  import opened AuthRun
  import Challenge
  import N = NonceStore
  import T = TenantStore

  datatype AuthError =
    | OwnerRequired
    | IssueFailed(issue: N.IssueError)
    | NonceNotFound
    | NonceExpired
    | NotRecovered
    | WrongOwner
    | MintFailed(mint: T.MintError)

  /** Time.Unix on a time in nanoseconds. */
  function Unix(time: int): int {
    time / 1_000_000_000
  }

  function ForChain(chainId: string, nonceTtl: int, bearerTtl: int, recover: (string, string) -> Option<string>): Env {
    Env(nonceTtl, bearerTtl,
        (nonce, expiresAt) => Challenge.BuildChallenge(chainId, nonce, Unix(expiresAt)),
        recover)
  }

  /** No two nonces share a challenge text, so a signature answers one nonce only. */
  lemma TextDeterminesNonce(e: Env, chainId: string, nonce: string, expiry: int, other: string, otherExpiry: int)
    requires e == ForChain(chainId, e.nonceTtl, e.bearerTtl, e.recover)
    requires ':' !in nonce && ':' !in other
    requires e.text(nonce, expiry) == e.text(other, otherExpiry)
    ensures nonce == other && Unix(expiry) == Unix(otherExpiry)
  {
    Challenge.InjectiveForChain(chainId, nonce, Unix(expiry), other, Unix(otherExpiry));
  }

  /** The token of a bearer header, whatever its case; the empty string for any other header. */
  function BearerOf(header: string): string {
    if |header| > |BEARER| && ToLower(header[..|BEARER|]) == BEARER then TrimSpace(header[|BEARER|..]) else ""
  }

  const BEARER := "bearer "

  function Presented(header: string, envelope: string): string {
    if BearerOf(header) != "" then BearerOf(header) else envelope
  }

  /** A header of the bearer scheme, in any case, decides; without a header the envelope does. */
  lemma PresentedToken(scheme: string, token: string, envelope: string)
    requires |scheme| == 7 && ToLower(scheme) == "bearer " && TrimSpace(token) != ""
    ensures Presented(scheme + token, envelope) == TrimSpace(token)
    ensures Presented("", envelope) == envelope
  {
    var header := scheme + token;
    assert header[..7] == scheme && header[7..] == token;
  }

  /** The text that an owner signs names this chain, this nonce and this expiry in seconds. */
  lemma TextNamesFields(e: Env, chainId: string, nonce: string, expiry: int)
    requires e == ForChain(chainId, e.nonceTtl, e.bearerTtl, e.recover)
    requires Challenge.Wellformed(chainId, nonce, Unix(expiry))
    ensures Challenge.ParseChallenge(e.text(nonce, expiry)) ==
      Ok(Challenge.Parsed(chainId, nonce, expiry / 1_000_000_000))
  {
    Challenge.RoundTrip(chainId, nonce, Unix(expiry));
  }

  lemma Extend(env: Env, start: State, run: seq<Step>, step: Step)
    requires Legal(env, start, run) && Enabled(After(env, start, run), step)
    ensures Legal(env, start, run + [step])
    ensures After(env, start, run + [step]) == Next(env, After(env, start, run), step)
  {
    assert (run + [step])[..|run|] == run;
  }

  class Service {
    const env: Env
    const nonces: N.NonceStore
    const tenants: T.DynamicTenantStore
    ghost const started: int
    ghost var steps: seq<Step>
    ghost var now: State

    /** The fields agree with what the run so far leads to. */
    ghost predicate Reached()
      reads this
    {
      && Legal(env, Start(started), steps)
      && now == After(env, Start(started), steps)
      && env.nonceTtl == nonces.ttl && env.bearerTtl == tenants.ttl
    }

    ghost predicate Valid()
      reads this, nonces, tenants
    {
      Reached() && nonces.entries == now.nonces && tenants.Maps() == now.tenants
    }

    constructor (chainId: string, recover: (string, string) -> Option<string>,
                 nonces: N.NonceStore, tenants: T.DynamicTenantStore, ghost started: int)
      requires nonces.entries == map[] && tenants.Maps() == T.Tenants(map[], map[])
      ensures Valid() && steps == [] && this.started == started
      ensures this.nonces == nonces && this.tenants == tenants
      ensures env == ForChain(chainId, nonces.ttl, tenants.ttl, recover)
    {
      this.env := ForChain(chainId, nonces.ttl, tenants.ttl, recover);
      this.nonces, this.tenants := nonces, tenants;
      this.started, steps, now := started, [], Start(started);
    }

    ghost method Record(step: Step)
      requires Reached() && Enabled(now, step)
      modifies this`steps, this`now
      ensures Reached() && steps == old(steps) + [step]
      ensures now == Next(env, old(now), step)
    {
      ghost var more := steps + [step];
      Extend(env, Start(started), steps, step);
      steps, now := more, After(env, Start(started), more);
    }

    /** Both halves of an issue. */
    ghost method RecordIssue(owner: string, nonce: string)
      requires Reached() && owner != "" && nonce !in now.issued
      modifies this`steps, this`now
      ensures Reached() && steps == old(steps) + [ReadIssue(owner, nonce), InsertNonce(nonce)]
      ensures now.nonces == old(now).nonces[nonce := N.Entry(owner, old(now).now + env.nonceTtl)]
      ensures now.tenants == old(now).tenants && now.now == old(now).now
    {
      Record(ReadIssue(owner, nonce));
      Record(InsertNonce(nonce));
    }

    /** Both halves of a mint. */
    ghost method RecordMint(nonce: string, bearer: string, random: string)
      requires Reached() && nonce in now.proven
      requires Enabled(now, ReadMint(nonce, bearer, random))
      modifies this`steps, this`now
      ensures Reached() && steps == old(steps) + [ReadMint(nonce, bearer, random), StoreTenant(bearer)]
      ensures now.nonces == old(now).nonces
      ensures now.tenants == T.Add(old(now).tenants, bearer,
        T.Record("auto-" + random, old(now).proven[nonce].owner, old(now).now + env.bearerTtl))
    {
      Record(ReadMint(nonce, bearer, random));
      Record(StoreTenant(bearer));
    }

    /** Returns the challenge text, its nonce and its expiry in seconds. */
    method AuthChallenge(owner: string, random: Option<string>, time: int)
      returns (r: Result<(string, string, int), AuthError>)
      requires Valid() && now.now <= time
      requires random.Some? ==> random.value !in now.issued
      modifies this, nonces
      ensures Valid() && now.now == time
      ensures r.Ok? <==> owner != "" && random.Some?
      ensures r.Ok? ==>
        && steps == old(steps) + [Tick(time), ReadIssue(owner, random.value), InsertNonce(random.value)]
        && r.value == (env.text(random.value, time + nonces.ttl), random.value, Unix(time + nonces.ttl))
      ensures r.Err? ==> steps == old(steps) + [Tick(time)]
    {
      Record(Tick(time));
      if owner == "" {
        return Err(OwnerRequired);
      }
      var issued := nonces.Issue(owner, random, time);
      if issued.Err? {
        return Err(IssueFailed(issued.error));
      }
      var (nonce, expiresAt) := issued.value;
      RecordIssue(owner, nonce);
      return Ok((env.text(nonce, expiresAt), nonce, Unix(expiresAt)));
    }

    /** Whether a verification passes, in terms of the stored entry. */
    predicate Proves(entries: N.Entries, nonce: string, signature: string, time: int) {
      && nonce in entries
      && time < entries[nonce].expiresAt
      && env.recover(env.text(nonce, entries[nonce].expiresAt), signature) == Some(entries[nonce].owner)
    }

    /** The first half of AuthVerify: the owner if the proof holds, and the nonce is used up. */
    method Check(nonce: string, signature: string, time: int) returns (r: Result<string, AuthError>)
      requires Valid() && now.now <= time
      modifies this, nonces
      ensures Valid() && steps == old(steps) + [Tick(time), Verify(nonce, signature)]
      ensures nonces.entries == old(nonces.entries) - {nonce}
      ensures r.Ok? <==> Proves(old(nonces.entries), nonce, signature, time)
      ensures r.Ok? ==> r.value == old(nonces.entries)[nonce].owner
      ensures r.Ok? ==> nonce in now.proven && now.proven[nonce].owner == r.value && nonce in now.unminted
      ensures now.now == time && now.minted == old(now.minted)
    {
      Record(Tick(time));
      var consumed := nonces.Consume(nonce, time);
      Record(Verify(nonce, signature));
      if consumed.NotFound? {
        return Err(NonceNotFound);
      }
      if consumed.Expired? {
        return Err(NonceExpired);
      }
      var recovered := env.recover(env.text(nonce, consumed.entry.expiresAt), signature);
      if recovered.None? {
        return Err(NotRecovered);
      }
      if recovered.value != consumed.entry.owner {
        return Err(WrongOwner);
      }
      return Ok(consumed.entry.owner);
    }

    /** The second half of AuthVerify: a bearer for the owner who proved the nonce. */
    method Grant(owner: string, nonce: string, bearer: Option<string>, random: Option<string>, later: int)
      returns (r: Result<(string, string, int), AuthError>)
      requires Valid() && now.now <= later && owner != ""
      requires nonce in now.proven && now.proven[nonce].owner == owner && nonce in now.unminted
      requires Unused(bearer, random)
      modifies this, tenants
      ensures Valid()
      ensures r.Ok? <==> bearer.Some? && random.Some?
      ensures r.Ok? ==>
        && r.value == (bearer.value, owner, Unix(later + tenants.ttl))
        && steps == old(steps) + [Tick(later), ReadMint(nonce, bearer.value, random.value), StoreTenant(bearer.value)]
      ensures r.Err? ==> tenants.Maps() == old(tenants.Maps())
    {
      Record(Tick(later));
      var minted := tenants.Mint(owner, bearer, random, later);
      if minted.Err? {
        return Err(MintFailed(minted.error));
      }
      RecordMint(nonce, bearer.value, random.value);
      return Ok((minted.value.0, owner, Unix(minted.value.1.expiresAt)));
    }

    /** The generators never repeat themselves. */
    ghost predicate Unused(bearer: Option<string>, random: Option<string>)
      reads this
    {
      && (bearer.Some? ==> bearer.value !in now.minted)
      && (random.Some? ==> forall b :: b in now.minted ==> now.minted[b].rec.tenantId != "auto-" + random.value)
    }

    /**
     * The nonce is consumed at `time` and the bearer minted at `later`. On success the bearer,
     * its owner and its expiry in seconds.
     */
    method AuthVerify(nonce: string, signature: string, bearer: Option<string>, random: Option<string>,
                      time: int, later: int)
      returns (r: Result<(string, string, int), AuthError>)
      requires Valid() && now.now <= time <= later
      requires Unused(bearer, random)
      modifies this, nonces, tenants
      ensures Valid() && nonces.entries == old(nonces.entries) - {nonce}
      ensures r.Ok? <==> Proves(old(nonces.entries), nonce, signature, time) && bearer.Some? && random.Some?
      ensures r.Err? ==> tenants.Maps() == old(tenants.Maps())
      ensures r.Ok? ==>
        && r.value == (bearer.value, old(nonces.entries)[nonce].owner, Unix(later + tenants.ttl))
        && steps == old(steps) + [Tick(time), Verify(nonce, signature), Tick(later),
                                  ReadMint(nonce, bearer.value, random.value), StoreTenant(bearer.value)]
    {
      if nonce in nonces.entries {
        NoncesWereIssued(env, started, steps, nonce);
      }
      var owner := Check(nonce, signature, time);
      if owner.Err? {
        return Err(owner.error);
      }
      r := Grant(owner.value, nonce, bearer, random, later);
    }

    /** Whoever presents an accepted bearer has, through this service, proved to own the address. */
    method Authenticate(bearer: string, time: int) returns (r: T.Found)
      requires Valid() && now.now <= time
      modifies this
      ensures Valid() && steps == old(steps) + [Tick(time)]
      ensures r == T.Resolve(tenants.Maps(), bearer, time)
      ensures r.Active? ==>
        exists i, j, k :: 0 <= i < j < k < |steps| && MintHistory(env, started, steps, i, j, k, bearer, r.rec)
    {
      Record(Tick(time));
      r := tenants.LookupByBearer(bearer, time);
      if r.Active? {
        ghost var i, j, k := AcceptedBearerHasHistory(env, started, steps, bearer);
        assert MintHistory(env, started, steps, i, j, k, bearer, r.rec);
      }
    }

    /**
     * The tenant a request acts for: the bearer of the authorization header, or else of the
     * envelope. An unknown or expired one, or none at all, makes no tenant and no error.
     */
    method Attach(header: string, envelope: string, time: int) returns (tenant: Option<T.Record>)
      requires Valid() && now.now <= time
      modifies this
      ensures Valid() && tenants.Maps() == old(tenants.Maps())
      ensures
        var bearer := Presented(header, envelope);
        tenant == if bearer != "" && T.Resolve(tenants.Maps(), bearer, time).Active?
          then Some(T.Resolve(tenants.Maps(), bearer, time).rec) else None
      ensures tenant.Some? ==>
        exists i, j, k :: 0 <= i < j < k < |steps| &&
          MintHistory(env, started, steps, i, j, k, Presented(header, envelope), tenant.value)
    {
      var bearer := Presented(header, envelope);
      if bearer == "" {
        return None;
      }
      var r := Authenticate(bearer, time);
      return if r.Active? then Some(r.rec) else None;
    }

    method Sweep(time: int)
      requires Valid() && now.now <= time
      modifies this, nonces, tenants
      ensures Valid() && steps == old(steps) + [Tick(time), SweepNonces, SweepTenants]
    {
      Record(Tick(time));
      nonces.Sweep(time);
      Record(SweepNonces);
      tenants.Sweep(time);
      Record(SweepTenants);
    }
  }
}
