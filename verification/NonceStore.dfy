/** Single-use, time-limited challenge nonces. Times are in nanoseconds. */
module NonceStore {
  import opened Text

  datatype Entry = Entry(owner: string, expiresAt: int)

  datatype IssueError = NoOwner | NoRandom

  type Entries = map<string, Entry>

  datatype Consumed = Bound(entry: Entry) | NotFound | Expired

  function Taken(entries: Entries, nonce: string, now: int): Consumed {
    if nonce !in entries then NotFound
    else if now >= entries[nonce].expiresAt then Expired
    else Bound(entries[nonce])
  }

  function Live(entries: Entries, now: int): Entries {
    map nonce | nonce in entries && now < entries[nonce].expiresAt :: entries[nonce]
  }

  class NonceStore {
    const ttl: int
    var entries: Entries

    constructor (ttl: int)
      ensures this.ttl == ttl && entries == map[]
    {
      this.ttl := ttl;
      entries := map[];
    }

    /** `random` is the hex text of the random bytes, None when the generator failed. */
    method Issue(owner: string, random: Option<string>, now: int) returns (r: Result<(string, int), IssueError>)
      modifies this
      ensures r.Ok? <==> owner != "" && random.Some?
      ensures r.Ok? ==> r.value == (random.value, now + ttl)
      ensures entries == if r.Ok? then old(entries)[random.value := Entry(owner, now + ttl)] else old(entries)
    {
      if owner == "" {
        return Err(NoOwner);
      }
      if random.None? {
        return Err(NoRandom);
      }
      var expiresAt := now + ttl;
      entries := entries[random.value := Entry(owner, expiresAt)];
      return Ok((random.value, expiresAt));
    }

    /** The nonce is gone afterwards, whatever the outcome. */
    method Consume(nonce: string, now: int) returns (r: Consumed)
      modifies this
      ensures r == Taken(old(entries), nonce, now)
      ensures entries == old(entries) - {nonce}
    {
      if nonce !in entries {
        return NotFound;
      }
      var entry := entries[nonce];
      entries := entries - {nonce};
      if now >= entry.expiresAt {
        return Expired;
      }
      return Bound(entry);
    }

    /** Visits the entries in an arbitrary order, deleting as it goes. */
    method Sweep(now: int)
      modifies this
      ensures entries == Live(old(entries), now)
    {
      var todo := entries.Keys;
      ghost var before := entries;
      while todo != {}
        invariant todo <= entries.Keys
        invariant forall n :: n in entries ==> n in before && entries[n] == before[n]
        invariant forall n :: n in before && n !in todo ==> (n in entries <==> now < before[n].expiresAt)
        decreases |todo|
      {
        var nonce :| nonce in todo;
        todo := todo - {nonce};
        if now >= entries[nonce].expiresAt {
          entries := entries - {nonce};
        }
      }
    }
  }
}
