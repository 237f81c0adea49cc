/** The fixed-window request counter, one window per client address. */
module RateLimiter {
  import opened Text

  datatype Entry = Entry(count: int, start: int)

  datatype Limits = Limits(max: int, window: int)

  /** What one request does to the entry of its own address. */
  function Count(c: Limits, e: Option<Entry>, now: int): Entry {
    if e.None? || now - e.value.start >= c.window then Entry(1, now)
    else Entry(e.value.count + 1, e.value.start)
  }

  predicate Admits(c: Limits, e: Option<Entry>, now: int) {
    e.None? || now - e.value.start >= c.window || e.value.count + 1 <= c.max
  }

  function Find(entries: map<string, Entry>, ip: string): Option<Entry> {
    if ip in entries then Some(entries[ip]) else None
  }

  function Unexpired(c: Limits, entries: map<string, Entry>, now: int): map<string, Entry> {
    map ip | ip in entries && now - entries[ip].start < c.window :: entries[ip]
  }

  class IPRateLimiter {
    const limits: Limits
    var entries: map<string, Entry>

    constructor (max: int, window: int)
      ensures limits == Limits(max, window) && entries == map[]
    {
      limits := Limits(max, window);
      entries := map[];
    }

    method Allow(ip: string, now: int) returns (ok: bool)
      modifies this
      ensures ok == Answer(limits, old(entries), ip, now)
      ensures entries == After(limits, old(entries), Request(ip, now))
      ensures ip == "" ==> ok && entries == old(entries)
      ensures ip != "" ==>
        var opens := ip !in old(entries) || now >= old(entries)[ip].start + limits.window;
        && entries.Keys == old(entries).Keys + {ip}
        && entries[ip] == (if opens then Entry(1, now) else Entry(old(entries)[ip].count + 1, old(entries)[ip].start))
        && (ok <==> opens || entries[ip].count <= limits.max)
    {
      if ip == "" {
        return true;
      }
      if ip !in entries || now - entries[ip].start >= limits.window {
        entries := entries[ip := Entry(1, now)];
        return true;
      }
      var e := entries[ip];
      entries := entries[ip := e.(count := e.count + 1)];
      return entries[ip].count <= limits.max;
    }

    /** Visits the entries in an arbitrary order, deleting as it goes. */
    method Sweep(now: int)
      modifies this
      ensures entries == After(limits, old(entries), Swept(now))
      ensures forall ip :: ip in entries <==> ip in old(entries) && now < old(entries)[ip].start + limits.window
    {
      var todo := entries.Keys;
      ghost var before := entries;
      while todo != {}
        invariant todo <= entries.Keys
        invariant forall ip :: ip in entries ==> ip in before && entries[ip] == before[ip]
        invariant forall ip :: ip in before && ip !in todo ==>
          (ip in entries <==> now - before[ip].start < limits.window)
        decreases |todo|
      {
        var ip :| ip in todo;
        todo := todo - {ip};
        if now - entries[ip].start >= limits.window {
          entries := entries - {ip};
        }
      }
    }
  }

  // ----- whole runs

  datatype Call = Request(ip: string, at: int) | Swept(at: int)

  function After(c: Limits, entries: map<string, Entry>, call: Call): map<string, Entry> {
    match call
    case Request(ip, at) => if ip == "" then entries else entries[ip := Count(c, Find(entries, ip), at)]
    case Swept(at) => Unexpired(c, entries, at)
  }

  predicate Answer(c: Limits, entries: map<string, Entry>, ip: string, at: int) {
    ip == "" || Admits(c, Find(entries, ip), at)
  }

  function Entries(c: Limits, run: seq<Call>): map<string, Entry> {
    if run == [] then map[] else After(c, Entries(c, run[..|run| - 1]), run[|run| - 1])
  }

  ghost predicate Monotone(run: seq<Call>) {
    forall i, j :: 0 <= i < j < |run| ==> run[i].at <= run[j].at
  }

  /** The calls of a run that concern one address: neither sweeps nor other addresses. */
  function Own(run: seq<Call>, ip: string): seq<Call> {
    if run == [] then []
    else
      var own, last := Own(run[..|run| - 1], ip), run[|run| - 1];
      if last.Request? && last.ip == ip then own + [last] else own
  }

  /** The window an address is in, had nothing ever been swept. */
  function Window(c: Limits, run: seq<Call>, ip: string): Option<Entry> {
    if run == [] then None
    else
      var before, last := Window(c, run[..|run| - 1], ip), run[|run| - 1];
      if last.Request? && last.ip == ip then Some(Count(c, before, last.at)) else before
  }

  lemma {:induction false} WindowOfOwn(c: Limits, run: seq<Call>, ip: string)
    ensures Window(c, run, ip) == Window(c, Own(run, ip), ip)
  {
    if run != [] {
      WindowOfOwn(c, run[..|run| - 1], ip);
      var own, last := Own(run[..|run| - 1], ip), run[|run| - 1];
      if last.Request? && last.ip == ip {
        assert (own + [last])[..|own|] == own;
      }
    }
  }

  /** The store holds the unswept window, or that window had run out by the end of the run. */
  lemma {:induction false} StoreTracksWindow(c: Limits, run: seq<Call>, ip: string, now: int)
    requires Monotone(run) && ip != ""
    requires run != [] ==> run[|run| - 1].at <= now
    ensures Find(Entries(c, run), ip) == Window(c, run, ip)
         || (Find(Entries(c, run), ip).None? && now - Window(c, run, ip).value.start >= c.window)
  {
    if run != [] {
      var last := run[|run| - 1];
      StoreTracksWindow(c, run[..|run| - 1], ip, last.at);
    }
  }

  lemma AnswerFromWindow(c: Limits, run: seq<Call>, ip: string, at: int)
    requires Monotone(run + [Request(ip, at)]) && ip != ""
    ensures Answer(c, Entries(c, run), ip, at) <==> Admits(c, Window(c, run, ip), at)
  {
    var whole := run + [Request(ip, at)];
    assert forall i :: 0 <= i < |run| ==> whole[i] == run[i];
    assert whole[|run|].at == at;
    StoreTracksWindow(c, run, ip, at);
  }

  /**
   * Sweeps and other addresses never change an answer: two runs in which an address made the
   * same calls give it the same answer next, whatever else happened in them.
   */
  lemma OnlyOwnCallsMatter(c: Limits, run: seq<Call>, other: seq<Call>, ip: string, at: int)
    requires Monotone(run + [Request(ip, at)]) && Monotone(other + [Request(ip, at)])
    requires Own(run, ip) == Own(other, ip)
    ensures Answer(c, Entries(c, run), ip, at) <==> Answer(c, Entries(c, other), ip, at)
  {
    if ip != "" {
      AnswerFromWindow(c, run, ip, at);
      AnswerFromWindow(c, other, ip, at);
      WindowOfOwn(c, run, ip);
      WindowOfOwn(c, other, ip);
    }
  }

  // ----- the bound over any interval

  /** How many requests of `ip` with a time in [from, to) the run admitted. */
  function Admitted(c: Limits, run: seq<Call>, ip: string, from: int, to: int): nat {
    if run == [] then 0
    else
      var before, last := run[..|run| - 1], run[|run| - 1];
      Admitted(c, before, ip, from, to) +
      if last.Request? && last.ip == ip && from <= last.at < to && Answer(c, Entries(c, before), ip, last.at)
      then 1 else 0
  }

  /** What one window can admit: its first request always passes. */
  function Cap(c: Limits): nat {
    if c.max < 1 then 1 else c.max
  }

  function Used(c: Limits, e: Entry): int {
    if e.count < Cap(c) then e.count else Cap(c)
  }

  /**
   * The admissions since `from` were spent in `k` windows, all but the last full. Either the
   * first of the k opened before `from`, and its opening request is not among them, or it
   * opened later; the last opened at least k-1 window lengths after the first.
   */
  ghost predicate Spent(c: Limits, admitted: nat, e: Option<Entry>, from: int, k: nat) {
    if k == 0 then admitted == 0
    else
      && e.Some? && e.value.count >= 1
      && (|| (admitted <= (k - 1) * Cap(c) + Used(c, e.value) - 1 && e.value.start > from + (k - 2) * c.window)
          || (admitted <= (k - 1) * Cap(c) + Used(c, e.value) && e.value.start >= from + (k - 1) * c.window))
  }

  lemma {:induction false} WindowIsRecent(c: Limits, run: seq<Call>, ip: string)
    requires Monotone(run) && Window(c, run, ip).Some?
    ensures run != [] && Window(c, run, ip).value.count >= 1
    ensures Window(c, run, ip).value.start <= run[|run| - 1].at
  {
    var last := run[|run| - 1];
    if Window(c, run[..|run| - 1], ip).Some? {
      WindowIsRecent(c, run[..|run| - 1], ip);
    }
  }

  lemma Times(a: int, b: int, p: nat)
    ensures a <= b ==> a * p <= b * p
  {
    if a <= b {
      assert b * p == a * p + (b - a) * p;
      assert (b - a) * p >= 0;
    }
  }

  /** One more request, counted or not, in the window the address is already in. */
  lemma SpendSameWindow(c: Limits, admitted: nat, e: Entry, from: int, k: nat, at: int)
    requires c.window > 0 && e.count >= 1 && from <= at < e.start + c.window
    requires Spent(c, admitted, Some(e), from, k)
    ensures Spent(c, admitted + (if e.count + 1 <= c.max then 1 else 0), Some(Entry(e.count + 1, e.start)),
                  from, if k == 0 then 1 else k)
  {
  }

  /** A request that opens a window at least one window length after the previous one. */
  lemma SpendNewWindow(c: Limits, admitted: nat, e: Option<Entry>, from: int, k: nat, at: int)
    requires c.window > 0 && from <= at
    requires e.Some? ==> at >= e.value.start + c.window
    requires Spent(c, admitted, e, from, k)
    ensures Spent(c, admitted + 1, Some(Entry(1, at)), from, k + 1)
  {
    var cap, w := Cap(c), c.window;
    assert k * cap == (k - 1) * cap + cap;
    assert (k - 1) * w == (k - 2) * w + w;
    assert k * w == (k - 1) * w + w;
  }

  /** One more request since `from`: it is counted in the current window, or opens the next. */
  lemma SpendRequest(c: Limits, admitted: nat, e: Option<Entry>, from: int, k: nat, at: int) returns (k': nat)
    requires c.window > 0 && from <= at && Spent(c, admitted, e, from, k)
    requires e.Some? ==> e.value.count >= 1
    ensures Spent(c, admitted + (if Admits(c, e, at) then 1 else 0), Some(Count(c, e, at)), from, k')
  {
    if e.None? || at - e.value.start >= c.window {
      SpendNewWindow(c, admitted, e, from, k, at);
      k' := k + 1;
    } else {
      SpendSameWindow(c, admitted, e.value, from, k, at);
      k' := if k == 0 then 1 else k;
    }
  }

  lemma {:induction false} WindowsUsed(c: Limits, run: seq<Call>, ip: string, from: int, to: int) returns (k: nat)
    requires Monotone(run) && ip != "" && c.window > 0
    requires forall i :: 0 <= i < |run| ==> run[i].at < to
    ensures Spent(c, Admitted(c, run, ip, from, to), Window(c, run, ip), from, k)
  {
    if run == [] {
      return 0;
    }
    var before, last := run[..|run| - 1], run[|run| - 1];
    k := WindowsUsed(c, before, ip, from, to);
    if last.Request? && last.ip == ip {
      if last.at < from {
        NothingEarlier(c, run, ip, from, to);
        k := 0;
      } else {
        var e := Window(c, before, ip);
        assert run == before + [last];
        AnswerFromWindow(c, before, ip, last.at);
        if e.Some? {
          WindowIsRecent(c, before, ip);
        }
        k := SpendRequest(c, Admitted(c, before, ip, from, to), e, from, k, last.at);
      }
    }
  }

  lemma {:induction false} NothingEarlier(c: Limits, run: seq<Call>, ip: string, from: int, to: int)
    requires Monotone(run) && (run != [] ==> run[|run| - 1].at < from)
    ensures Admitted(c, run, ip, from, to) == 0
  {
    if run != [] {
      NothingEarlier(c, run[..|run| - 1], ip, from, to);
    }
  }

  /**
   * Over any n window lengths, fewer than n+1 full windows are admitted: a fixed window lets
   * a burst straddle its boundary, but never counts the opening request of the first window.
   */
  lemma {:induction false} SlidingBound(c: Limits, run: seq<Call>, ip: string, from: int, n: nat)
    requires Monotone(run) && ip != "" && c.window > 0
    ensures Admitted(c, run, ip, from, from + n * c.window) <= (n + 1) * Cap(c) - 1
  {
    var to := from + n * c.window;
    if run != [] && run[|run| - 1].at >= to {
      SlidingBound(c, run[..|run| - 1], ip, from, n);
    } else {
      var k := WindowsUsed(c, run, ip, from, to);
      Times(0, n, Cap(c));
      assert (n + 1) * Cap(c) == n * Cap(c) + Cap(c);
      if k > 0 {
        WindowIsRecent(c, run, ip);
        FitsIn(c, Admitted(c, run, ip, from, to), Window(c, run, ip), from, k, n);
      }
    }
  }

  lemma FitsIn(c: Limits, admitted: nat, e: Option<Entry>, from: int, k: nat, n: nat)
    requires c.window > 0 && k > 0 && Spent(c, admitted, e, from, k)
    requires e.value.start < from + n * c.window
    ensures admitted <= (n + 1) * Cap(c) - 1
  {
    var cap, w := Cap(c), c.window;
    assert (k - 1) * cap + cap == k * cap && n * cap + cap == (n + 1) * cap;
    Times(n, k - 1, w);
    Times(n, k - 2, w);
    Times(k, n, cap);
    Times(k, n + 1, cap);
  }

  // ----- the bound is tight

  /** A run that ends no later than `at`, with the given window and count of admissions. */
  ghost predicate Reaches(c: Limits, run: seq<Call>, ip: string, from: int, to: int, at: int, e: Entry, admitted: nat) {
    && Monotone(run) && (run != [] ==> run[|run| - 1].at <= at)
    && Window(c, run, ip) == Some(e)
    && Admitted(c, run, ip, from, to) == admitted
  }

  lemma OneMore(c: Limits, run: seq<Call>, ip: string, from: int, to: int, at: int, e: Entry, admitted: nat)
    requires ip != "" && from <= at < to && Reaches(c, run, ip, from, to, at, e, admitted)
    requires Admits(c, Some(e), at)
    ensures Reaches(c, run + [Request(ip, at)], ip, from, to, at, Count(c, Some(e), at), admitted + 1)
  {
    var more := run + [Request(ip, at)];
    assert more[..|run|] == run;
    AnswerFromWindow(c, run, ip, at);
  }

  /** m more requests, for which the window still has room. */
  lemma {:induction false} RestOfWindow(c: Limits, run: seq<Call>, ip: string, from: int, to: int, at: int,
                                        e: Entry, admitted: nat, m: nat) returns (more: seq<Call>)
    requires ip != "" && from <= at < to && Reaches(c, run, ip, from, to, at, e, admitted)
    requires m > 0 ==> at - e.start < c.window && e.count + m <= c.max
    ensures Reaches(c, more, ip, from, to, at, Entry(e.count + m, e.start), admitted + m)
  {
    more := run;
    if m > 0 {
      more := RestOfWindow(c, run, ip, from, to, at, e, admitted, m - 1);
      OneMore(c, more, ip, from, to, at, Entry(e.count + m - 1, e.start), admitted + m - 1);
      more := more + [Request(ip, at)];
    }
  }

  /** A full window, spent at the moment it opens, after the previous one ran out. */
  lemma WholeWindow(c: Limits, run: seq<Call>, ip: string, from: int, to: int, at: int, e: Entry, admitted: nat)
      returns (more: seq<Call>)
    requires ip != "" && c.window > 0 && from <= at < to && e.start + c.window <= at
    requires Reaches(c, run, ip, from, to, at, e, admitted)
    ensures Reaches(c, more, ip, from, to, at, Entry(Cap(c), at), admitted + Cap(c))
  {
    OneMore(c, run, ip, from, to, at, e, admitted);
    more := RestOfWindow(c, run + [Request(ip, at)], ip, from, to, at, Entry(1, at), admitted + 1, Cap(c) - 1);
  }

  /** One request just before `from`, and the rest of its window at `from`. */
  lemma SplitWindow(c: Limits, ip: string, from: int, to: int) returns (run: seq<Call>)
    requires ip != "" && c.window > 0 && from < to && (c.window > 1 || Cap(c) == 1)
    ensures Reaches(c, run, ip, from, to, from, Entry(Cap(c), from - 1), Cap(c) - 1)
  {
    run := [Request(ip, from - 1)];
    assert run[..0] == [];
    run := RestOfWindow(c, run, ip, from, to, from, Entry(1, from - 1), 0, Cap(c) - 1);
  }

  lemma ReachesLater(c: Limits, run: seq<Call>, ip: string, from: int, to: int, at: int, later: int,
                     e: Entry, admitted: nat)
    requires Reaches(c, run, ip, from, to, at, e, admitted) && at <= later
    ensures Reaches(c, run, ip, from, to, later, e, admitted)
  {
  }

  lemma Step(n: int, w: int)
    ensures n * w == (n - 1) * w + w
  {
  }

  /** Then n full windows, the last just inside the interval. */
  lemma {:induction false} Bursts(c: Limits, ip: string, from: int, n: nat, to: int) returns (run: seq<Call>)
    requires ip != "" && c.window > 0 && from < to && (c.window > 1 || Cap(c) == 1)
    requires from - 1 + n * c.window < to
    ensures Reaches(c, run, ip, from, to, from + n * c.window,
                    Entry(Cap(c), from - 1 + n * c.window), (n + 1) * Cap(c) - 1)
  {
    if n == 0 {
      run := SplitWindow(c, ip, from, to);
    } else {
      var at := from - 1 + n * c.window;
      Step(n, c.window);
      Step(n + 1, Cap(c));
      Times(0, n - 1, c.window);
      Times(0, n, Cap(c));
      run := Bursts(c, ip, from, n - 1, to);
      ReachesLater(c, run, ip, from, to, at + 1 - c.window, at, Entry(Cap(c), at - c.window), n * Cap(c) - 1);
      run := WholeWindow(c, run, ip, from, to, at, Entry(Cap(c), at - c.window), n * Cap(c) - 1);
      ReachesLater(c, run, ip, from, to, at, at + 1, Entry(Cap(c), at), (n + 1) * Cap(c) - 1);
    }
  }

  /** The interval is not empty and a window is longer than the moment it opens at; or its cap is one. */
  predicate CanReach(c: Limits, n: nat) {
    Cap(c) == 1 || (n > 0 && c.window > 1)
  }

  /** Some monotone run reaches the bound. */
  lemma BoundIsReached(c: Limits, ip: string, from: int, n: nat) returns (run: seq<Call>)
    requires ip != "" && c.window > 0 && CanReach(c, n)
    ensures Monotone(run) && Admitted(c, run, ip, from, from + n * c.window) == (n + 1) * Cap(c) - 1
  {
    run := [];
    if n > 0 {
      Times(1, n, c.window);
      run := Bursts(c, ip, from, n, from + n * c.window);
    }
  }

  /** Otherwise no run admits more than n caps. */
  lemma BoundIsMissed(c: Limits, run: seq<Call>, ip: string, from: int, n: nat)
    requires Monotone(run) && ip != "" && c.window > 0 && !CanReach(c, n)
    ensures Admitted(c, run, ip, from, from + n * c.window) <= n * Cap(c)
    decreases |run|
  {
    var to := from + n * c.window;
    if n == 0 {
      NothingInside(c, run, ip, from);
    } else if run != [] && run[|run| - 1].at >= to {
      BoundIsMissed(c, run[..|run| - 1], ip, from, n);
    } else {
      var k := WindowsUsed(c, run, ip, from, to);
      Times(0, n, Cap(c));
      if k > 0 {
        WindowIsRecent(c, run, ip);
        FitsShort(c, Admitted(c, run, ip, from, to), Window(c, run, ip), from, k, n);
      }
    }
  }

  /** Windows one moment long: each is spent at the moment it opens. */
  lemma FitsShort(c: Limits, admitted: nat, e: Option<Entry>, from: int, k: nat, n: nat)
    requires c.window == 1 && k > 0 && Spent(c, admitted, e, from, k)
    requires e.value.start < from + n * c.window
    ensures admitted <= n * Cap(c)
  {
    assert n * c.window == n && (k - 1) * c.window == k - 1 && (k - 2) * c.window == k - 2;
    Step(k, Cap(c));
    Times(k, n, Cap(c));
  }

  lemma {:induction false} NothingInside(c: Limits, run: seq<Call>, ip: string, from: int)
    ensures Admitted(c, run, ip, from, from) == 0
  {
    if run != [] {
      NothingInside(c, run[..|run| - 1], ip, from);
    }
  }

  /** The bound is the best one exactly in these cases. */
  lemma BoundIsTight(c: Limits, ip: string, from: int, n: nat)
    requires ip != "" && c.window > 0
    ensures CanReach(c, n) <==>
      exists run :: Monotone(run) && Admitted(c, run, ip, from, from + n * c.window) == (n + 1) * Cap(c) - 1
  {
    if CanReach(c, n) {
      var run := BoundIsReached(c, ip, from, n);
    } else {
      forall run | Monotone(run)
        ensures Admitted(c, run, ip, from, from + n * c.window) <= n * Cap(c)
      {
        BoundIsMissed(c, run, ip, from, n);
      }
      assert (n + 1) * Cap(c) == n * Cap(c) + Cap(c);
    }
  }
}
