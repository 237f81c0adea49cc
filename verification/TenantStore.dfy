/** Bearers and the tenant records they lead to, kept in two maps. Times are in nanoseconds. */
module TenantStore {
  import opened Text

  datatype Record = Record(tenantId: string, owner: string, expiresAt: int)

  datatype MintError = NoOwner | NoBearer | NoTenantId

  /** byBearer leads to a tenant id, byTenant from there to the record. */
  datatype Tenants = Tenants(byBearer: map<string, string>, byTenant: map<string, Record>)

  datatype Found = Active(rec: Record) | NotFound | Expired

  function Resolve(t: Tenants, bearer: string, now: int): Found {
    if bearer !in t.byBearer || t.byBearer[bearer] !in t.byTenant then NotFound
    else
      var rec := t.byTenant[t.byBearer[bearer]];
      if now >= rec.expiresAt then Expired else Active(rec)
  }

  function Add(t: Tenants, bearer: string, rec: Record): Tenants {
    Tenants(t.byBearer[bearer := rec.tenantId], t.byTenant[rec.tenantId := rec])
  }

  predicate Dead(t: Tenants, bearer: string, now: int)
    requires bearer in t.byBearer
  {
    var id := t.byBearer[bearer];
    id !in t.byTenant || now >= t.byTenant[id].expiresAt
  }

  /** What is left once the given bearers have been examined. */
  function Examined(t: Tenants, bearers: set<string>, now: int): Tenants {
    Tenants(
      map b | b in t.byBearer && !(b in bearers && Dead(t, b, now)) :: t.byBearer[b],
      t.byTenant - (set b | b in t.byBearer && b in bearers && Dead(t, b, now) :: t.byBearer[b]))
  }

  function Live(t: Tenants, now: int): Tenants {
    Examined(t, t.byBearer.Keys, now)
  }

  /** One visit of a sweep: a dead bearer leaves both maps. */
  function Visited(t: Tenants, bearer: string, now: int): Tenants
    requires bearer in t.byBearer
  {
    if Dead(t, bearer, now) then Tenants(t.byBearer - {bearer}, t.byTenant - {t.byBearer[bearer]}) else t
  }

  /** A bearer is dead on its own account: examining others first does not change the verdict. */
  lemma ExamineOne(t: Tenants, bearers: set<string>, bearer: string, now: int)
    requires bearer in t.byBearer && bearer !in bearers
    ensures
      var e := Examined(t, bearers, now);
      && bearer in e.byBearer
      && (Dead(e, bearer, now) <==> Dead(t, bearer, now))
      && Examined(t, bearers + {bearer}, now) == Visited(e, bearer, now)
  {
    var e, id := Examined(t, bearers, now), t.byBearer[bearer];
    var next := Examined(t, bearers + {bearer}, now);
    if Dead(t, bearer, now) {
      assert next.byBearer == e.byBearer - {bearer};
      assert next.byTenant == e.byTenant - {id};
    } else {
      assert next.byBearer == e.byBearer;
      assert next.byTenant == e.byTenant;
    }
  }

  lemma ExamineNone(t: Tenants, now: int)
    ensures Examined(t, {}, now) == t
  {
    assert Examined(t, {}, now).byBearer == t.byBearer;
    assert Examined(t, {}, now).byTenant == t.byTenant;
  }

  /**
   * A mint leaves another bearer's lookups alone, at every time, exactly when it does not
   * overwrite that bearer's record with a different one: hence the need for fresh tenant ids.
   */
  lemma MintKeepsOthers(t: Tenants, bearer: string, other: string, rec: Record)
    requires other in t.byBearer && t.byBearer[other] in t.byTenant && other != bearer
    ensures (forall now :: Resolve(Add(t, bearer, rec), other, now) == Resolve(t, other, now))
       <==> t.byBearer[other] != rec.tenantId || t.byTenant[rec.tenantId] == rec
  {
    var added, id := Add(t, bearer, rec), t.byBearer[other];
    if id == rec.tenantId && t.byTenant[id] != rec {
      var early := (if rec.expiresAt < t.byTenant[id].expiresAt then rec.expiresAt else t.byTenant[id].expiresAt) - 1;
      assert Resolve(added, other, early) == Active(rec);
      assert Resolve(t, other, early) == Active(t.byTenant[id]);
    }
  }

  class DynamicTenantStore {
    const ttl: int
    var byBearer: map<string, string>
    var byTenant: map<string, Record>

    function Maps(): Tenants
      reads this
    {
      Tenants(byBearer, byTenant)
    }

    constructor (ttl: int)
      ensures this.ttl == ttl && Maps() == Tenants(map[], map[])
    {
      this.ttl := ttl;
      byBearer, byTenant := map[], map[];
    }

    /** The two random texts are None when the generator failed. */
    method Mint(owner: string, bearer: Option<string>, random: Option<string>, now: int)
      returns (r: Result<(string, Record), MintError>)
      modifies this
      ensures r.Ok? <==> owner != "" && bearer.Some? && random.Some?
      ensures r.Ok? ==> r.value == (bearer.value, Record("auto-" + random.value, owner, now + ttl))
      ensures Maps() == if r.Ok? then Add(old(Maps()), r.value.0, r.value.1) else old(Maps())
    {
      if owner == "" {
        return Err(NoOwner);
      }
      if bearer.None? {
        return Err(NoBearer);
      }
      if random.None? {
        return Err(NoTenantId);
      }
      var rec := Record("auto-" + random.value, owner, now + ttl);
      byBearer := byBearer[bearer.value := rec.tenantId];
      byTenant := byTenant[rec.tenantId := rec];
      return Ok((bearer.value, rec));
    }

    method LookupByBearer(bearer: string, now: int) returns (r: Found)
      ensures r == Resolve(Maps(), bearer, now)
    {
      if bearer !in byBearer {
        return NotFound;
      }
      var id := byBearer[bearer];
      if id !in byTenant {
        return NotFound;
      }
      var rec := byTenant[id];
      if now >= rec.expiresAt {
        return Expired;
      }
      return Active(rec);
    }

    method Visit(bearer: string, now: int)
      requires bearer in byBearer
      modifies this
      ensures Maps() == Visited(old(Maps()), bearer, now)
    {
      var id := byBearer[bearer];
      if id !in byTenant || now >= byTenant[id].expiresAt {
        byBearer := byBearer - {bearer};
        byTenant := byTenant - {id};
      }
    }

    /**
     * Visits the bearers in an arbitrary order, deleting from both maps as it goes. The result
     * does not depend on the order, even when two bearers share a tenant id.
     */
    method Sweep(now: int)
      modifies this
      ensures Maps() == Live(old(Maps()), now)
    {
      var todo := byBearer.Keys;
      ghost var before := Maps();
      ExamineNone(before, now);
      assert before.byBearer.Keys - todo == {};
      while todo != {}
        invariant todo <= before.byBearer.Keys
        invariant Maps() == Examined(before, before.byBearer.Keys - todo, now)
        decreases |todo|
      {
        var bearer :| bearer in todo;
        ExamineOne(before, before.byBearer.Keys - todo, bearer, now);
        assert before.byBearer.Keys - (todo - {bearer}) == before.byBearer.Keys - todo + {bearer};
        Visit(bearer, now);
        todo := todo - {bearer};
      }
      assert before.byBearer.Keys - todo == before.byBearer.Keys;
    }
  }
}
