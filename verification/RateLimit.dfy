/**
 * The in-memory sliding-window rate limiter with lockouts. Clock readings are parameters; an
 * operation that reads the clock twice has two of them.
 */
module RateLimit {
  import opened Common

  /** Keys without an entry and keys with an empty entry behave alike. */
  datatype Limiter = Limiter(windows: map<string, seq<int>>, lockouts: map<string, int>)

  const FRESH := Limiter(map[], map[])

  function Stamps(l: Limiter, key: string): seq<int> {
    if key in l.windows then l.windows[key] else []
  }

  function Prune(ts: seq<int>, cutoff: int): seq<int> {
    if ts == [] then []
    else Prune(ts[..|ts| - 1], cutoff) + (if ts[|ts| - 1] > cutoff then [ts[|ts| - 1]] else [])
  }

  predicate AllStale(ts: seq<int>, cutoff: int) {
    forall i :: 0 <= i < |ts| ==> ts[i] <= cutoff
  }

  datatype Op =
    | Allow(key: string, limit: int, window: int, t0: int, t1: int)
    | Lockout(key: string, duration: int, t0: int)
    | IsLockedOut(key: string, t0: int)
    | Reset(key: string)
    | Cleanup(maxWindow: int, t0: int, t1: int)

  datatype Answer = Answer(after: Limiter, said: Option<bool>)

  predicate Locked(l: Limiter, key: string, t: int) {
    key in l.lockouts && t < l.lockouts[key]
  }

  function Do(l: Limiter, op: Op): Answer {
    match op
    case Allow(key, limit, window, t0, t1) =>
      if Locked(l, key, t0) then Answer(l, Some(false))
      else
        var kept := Prune(Stamps(l, key), t1 - window);
        var ok := |kept| < limit;
        Answer(Limiter(l.windows[key := if ok then kept + [t1] else kept], l.lockouts - {key}), Some(ok))
    case Lockout(key, duration, t0) =>
      Answer(l.(lockouts := l.lockouts[key := t0 + duration]), None)
    case IsLockedOut(key, t0) =>
      if Locked(l, key, t0) then Answer(l, Some(true))
      else Answer(l.(lockouts := l.lockouts - {key}), Some(false))
    case Reset(key) =>
      Answer(Limiter(l.windows - {key}, l.lockouts - {key}), None)
    case Cleanup(maxWindow, t0, t1) =>
      Answer(Limiter(map k | k in l.windows && !AllStale(l.windows[k], t0 - maxWindow) :: l.windows[k],
                     map k | k in l.lockouts && t1 <= l.lockouts[k] :: l.lockouts[k]), None)
  }

  // ---------- time ----------

  /** The clock after the operation, given that it read `now` before. */
  function ClockAfter(op: Op, now: int): int {
    match op
    case Allow(_, _, _, _, t1) => t1
    case Lockout(_, _, t0) => t0
    case IsLockedOut(_, t0) => t0
    case Reset(_) => now
    case Cleanup(_, _, t1) => t1
  }

  predicate InTime(op: Op, now: int) {
    match op
    case Allow(_, _, _, t0, t1) => now <= t0 <= t1
    case Lockout(_, _, t0) => now <= t0
    case IsLockedOut(_, t0) => now <= t0
    case Reset(_) => true
    case Cleanup(_, t0, t1) => now <= t0 <= t1
  }

  /** The clock never runs backwards. */
  predicate Timed(ops: seq<Op>, now: int)
    decreases |ops|
  {
    ops == [] || (InTime(ops[0], now) && Timed(ops[1..], ClockAfter(ops[0], now)))
  }

  // ---------- pruning ----------

  ghost predicate Sorted(ts: seq<int>) {
    forall i, j :: 0 <= i < j < |ts| ==> ts[i] <= ts[j]
  }

  lemma {:induction false} PruneMembers(ts: seq<int>, cutoff: int)
    ensures forall i :: 0 <= i < |Prune(ts, cutoff)| ==> Prune(ts, cutoff)[i] > cutoff
    ensures AllStale(ts, cutoff) <==> Prune(ts, cutoff) == []
  {
    if ts != [] {
      PruneMembers(ts[..|ts| - 1], cutoff);
      if AllStale(ts[..|ts| - 1], cutoff) && ts[|ts| - 1] <= cutoff {
        assert AllStale(ts, cutoff);
      }
    }
  }

  lemma PruneSnoc(ts: seq<int>, t: int, cutoff: int)
    ensures Prune(ts + [t], cutoff) == Prune(ts, cutoff) + if t > cutoff then [t] else []
  {
    assert (ts + [t])[..|ts|] == ts;
  }

  lemma {:induction false} PruneTwice(ts: seq<int>, c: int, d: int)
    requires c <= d
    ensures Prune(Prune(ts, c), d) == Prune(ts, d)
  {
    if ts != [] {
      var init, last := ts[..|ts| - 1], ts[|ts| - 1];
      PruneTwice(init, c, d);
      if last > c {
        PruneSnoc(Prune(init, c), last, d);
      } else {
        assert Prune(ts, c) == Prune(init, c) && Prune(ts, d) == Prune(init, d);
      }
    }
  }

  lemma PruneSuffixSnoc(ts: seq<int>, t: int, cutoff: int, k: nat)
    requires k <= |ts| && Prune(ts, cutoff) == ts[k..] && AllStale(ts[..k], cutoff) && t > cutoff
    ensures Prune(ts + [t], cutoff) == (ts + [t])[k..] && AllStale((ts + [t])[..k], cutoff)
  {
    PruneSnoc(ts, t, cutoff);
    assert (ts + [t])[k..] == ts[k..] + [t];
    assert (ts + [t])[..k] == ts[..k];
  }

  lemma SortedIsStale(ts: seq<int>, cutoff: int)
    requires Sorted(ts) && ts != [] && ts[|ts| - 1] <= cutoff
    ensures AllStale(ts, cutoff)
  {
    forall i | 0 <= i < |ts| ensures ts[i] <= ts[|ts| - 1] {
    }
  }

  /** Pruning sorted timestamps keeps a suffix of them. */
  lemma {:induction false} PruneSorted(ts: seq<int>, cutoff: int) returns (k: nat)
    requires Sorted(ts)
    ensures k <= |ts| && Prune(ts, cutoff) == ts[k..] && AllStale(ts[..k], cutoff)
  {
    if ts == [] {
      k := 0;
    } else if ts[|ts| - 1] <= cutoff {
      SortedIsStale(ts, cutoff);
      PruneMembers(ts, cutoff);
      k := |ts|;
      assert ts[..k] == ts;
    } else {
      var init, last := ts[..|ts| - 1], ts[|ts| - 1];
      assert ts == init + [last];
      k := PruneSorted(init, cutoff);
      PruneSuffixSnoc(init, last, cutoff, k);
    }
  }

  // ---------- at most `limit` permits in any window ----------

  function CountIn(ts: seq<int>, low: int, high: int): nat {
    if ts == [] then 0
    else CountIn(ts[..|ts| - 1], low, high) + (if low < ts[|ts| - 1] <= high then 1 else 0)
  }

  /** Elements `n` places apart are at least a window apart. */
  ghost predicate Spaced(ts: seq<int>, n: nat, window: int) {
    forall i, j :: 0 <= i && j == i + n && j < |ts| ==> ts[i] + window <= ts[j]
  }

  lemma {:induction false} CountStale(ts: seq<int>, low: int, high: int)
    requires AllStale(ts, low)
    ensures CountIn(ts, low, high) == 0
  {
    if ts != [] {
      CountStale(ts[..|ts| - 1], low, high);
    }
  }

  lemma {:induction false} CountBoth(a: seq<int>, b: seq<int>, low: int, high: int)
    ensures CountIn(a + b, low, high) == CountIn(a, low, high) + CountIn(b, low, high)
  {
    if b == [] {
      assert a + b == a;
    } else {
      assert (a + b)[..|a + b| - 1] == a + b[..|b| - 1];
      CountBoth(a, b[..|b| - 1], low, high);
    }
  }

  lemma {:induction false} CountWithin(ts: seq<int>, low: int, high: int)
    ensures CountIn(ts, low, high) <= |ts|
    ensures (forall i :: 0 <= i < |ts| ==> low < ts[i] <= high) ==> CountIn(ts, low, high) == |ts|
  {
    if ts != [] {
      CountWithin(ts[..|ts| - 1], low, high);
    }
  }

  /** Stale elements up to k count for nothing. */
  lemma CountTail(ts: seq<int>, k: nat, low: int, high: int)
    requires k <= |ts| && AllStale(ts[..k], low)
    ensures CountIn(ts, low, high) == CountIn(ts[k..], low, high) <= |ts| - k
  {
    CountStale(ts[..k], low, high);
    CountBoth(ts[..k], ts[k..], low, high);
    CountWithin(ts[k..], low, high);
    assert ts[..k] + ts[k..] == ts;
  }

  lemma InitIsSpaced(ts: seq<int>, n: nat, window: int)
    requires Sorted(ts) && Spaced(ts, n, window) && ts != []
    ensures Sorted(ts[..|ts| - 1]) && Spaced(ts[..|ts| - 1], n, window)
  {
  }

  /** All but the last n elements are at least a window before the last one. */
  lemma OldIsStale(ts: seq<int>, n: nat, window: int, t: int)
    requires Sorted(ts) && Spaced(ts, n, window) && 0 < n < |ts| && ts[|ts| - 1] <= t
    ensures AllStale(ts[..|ts| - n], t - window)
  {
    var k := |ts| - n - 1;
    assert ts[k] + window <= ts[|ts| - 1];
    forall i | 0 <= i <= k ensures ts[i] <= ts[k] {
    }
  }

  /** Spacing bounds the number of elements in every half-open interval as long as the window. */
  lemma {:induction false} SpacedCount(ts: seq<int>, n: nat, window: int, t: int)
    requires Sorted(ts) && Spaced(ts, n, window) && n > 0
    ensures CountIn(ts, t - window, t) <= n
  {
    if |ts| <= n {
      CountTail(ts, 0, t - window, t);
    } else if ts[|ts| - 1] > t {
      InitIsSpaced(ts, n, window);
      SpacedCount(ts[..|ts| - 1], n, window, t);
    } else {
      OldIsStale(ts, n, window, t);
      CountTail(ts, |ts| - n, t - window, t);
    }
  }

  /**
   * `permits` lists when requests for the key were permitted; the entry holds the latest of them, and
   * those it no longer holds are a window old.
   */
  ghost predicate Tracks(stamps: seq<int>, permits: seq<int>, n: nat, window: int, now: int) {
    && Sorted(permits) && Spaced(permits, n, window)
    && (forall i :: 0 <= i < |permits| ==> permits[i] <= now)
    && |stamps| <= |permits| && stamps == permits[|permits| - |stamps|..]
    && (forall i :: 0 <= i < |permits| - |stamps| ==> permits[i] + window <= now)
  }

  lemma SortedSuffix(stamps: seq<int>, permits: seq<int>)
    requires Sorted(permits) && |stamps| <= |permits| && stamps == permits[|permits| - |stamps|..]
    ensures Sorted(stamps)
  {
  }

  lemma SuffixOfSuffix(stamps: seq<int>, permits: seq<int>, k: nat)
    requires k <= |stamps| <= |permits| && stamps == permits[|permits| - |stamps|..]
    ensures stamps[k..] == permits[|permits| - (|stamps| - k)..]
    ensures forall i :: |permits| - |stamps| <= i < |permits| - (|stamps| - k) ==>
              permits[i] == stamps[..k][i - (|permits| - |stamps|)]
  {
  }

  lemma PruneTracks(stamps: seq<int>, permits: seq<int>, n: nat, window: int, now: int, t: int)
    requires Tracks(stamps, permits, n, window, now) && now <= t
    ensures Tracks(Prune(stamps, t - window), permits, n, window, t)
  {
    SortedSuffix(stamps, permits);
    var k := PruneSorted(stamps, t - window);
    SuffixOfSuffix(stamps, permits, k);
    forall i | 0 <= i < |permits| - (|stamps| - k) ensures permits[i] + window <= t {
      if i >= |permits| - |stamps| {
        assert stamps[..k][i - (|permits| - |stamps|)] <= t - window;
      }
    }
  }

  lemma PermitTracks(kept: seq<int>, permits: seq<int>, n: nat, window: int, t: int)
    requires Tracks(kept, permits, n, window, t) && |kept| < n
    ensures Tracks(kept + [t], permits + [t], n, window, t)
  {
    var permits' := permits + [t];
    assert kept + [t] == permits'[|permits'| - |kept| - 1..];
  }

  lemma HeldIsCount(kept: seq<int>, permits: seq<int>, n: nat, window: int, t: int)
    requires Tracks(kept, permits, n, window, t)
    requires forall i :: 0 <= i < |kept| ==> kept[i] > t - window
    ensures CountIn(permits, t - window, t) == |kept|
  {
    var k := |permits| - |kept|;
    assert forall i :: 0 <= i < k ==> permits[..k][i] == permits[i];
    assert forall i :: 0 <= i < |kept| ==> kept[i] == permits[k + i];
    CountTail(permits, k, t - window, t);
    CountWithin(kept, t - window, t);
  }

  /** What the entry still holds after pruning is what the window of the full record holds. */
  lemma KeptIsCount(stamps: seq<int>, permits: seq<int>, n: nat, window: int, now: int, t: int)
    requires Tracks(stamps, permits, n, window, now) && now <= t
    ensures CountIn(permits, t - window, t) == |Prune(stamps, t - window)|
  {
    PruneTracks(stamps, permits, n, window, now, t);
    PruneMembers(stamps, t - window);
    HeldIsCount(Prune(stamps, t - window), permits, n, window, t);
  }

  /** What a step other than Allow and Reset on the key does to the key's entry. */
  lemma OtherTracks(l: Limiter, op: Op, key: string, permits: seq<int>, n: nat, window: int, now: int)
    requires Tracks(Stamps(l, key), permits, n, window, now) && InTime(op, now)
    requires op.Allow? || op.Reset? ==> op.key != key
    requires op.Cleanup? ==> window <= op.maxWindow
    ensures Tracks(Stamps(Do(l, op).after, key), permits, n, window, ClockAfter(op, now))
  {
    var stamps, stamps' := Stamps(l, key), Stamps(Do(l, op).after, key);
    if stamps' != stamps {
      assert stamps' == [] && AllStale(stamps, op.t0 - op.maxWindow);
      forall i | 0 <= i < |permits| ensures permits[i] + window <= ClockAfter(op, now) {
        if i >= |permits| - |stamps| {
          assert permits[i] == stamps[i - (|permits| - |stamps|)];
        }
      }
    }
  }

  function End(l: Limiter, ops: seq<Op>): Limiter
    decreases |ops|
  {
    if ops == [] then l else End(Do(l, ops[0]).after, ops[1..])
  }

  function ClockEnd(ops: seq<Op>, now: int): int
    decreases |ops|
  {
    if ops == [] then now else ClockEnd(ops[1..], ClockAfter(ops[0], now))
  }

  function NextPermits(l: Limiter, op: Op, key: string, permits: seq<int>): seq<int> {
    if op == Reset(key) then []
    else if Permitted(l, op, key) then permits + [op.t1]
    else permits
  }

  function PermitsFrom(l: Limiter, ops: seq<Op>, key: string, permits: seq<int>): seq<int>
    decreases |ops|
  {
    if ops == [] then permits
    else PermitsFrom(Do(l, ops[0]).after, ops[1..], key, NextPermits(l, ops[0], key, permits))
  }

  /** When requests for the key were permitted since its last Reset; ever, if it was never reset. */
  function Permits(ops: seq<Op>, key: string): seq<int> {
    PermitsFrom(FRESH, ops, key, [])
  }

  predicate Permitted(l: Limiter, op: Op, key: string) {
    op.Allow? && op.key == key && Do(l, op).said == Some(true)
  }

  /** The key has one limit and one window, and no cleanup looks back less than the window. */
  predicate OneRule(op: Op, key: string, limit: int, window: int) {
    match op
    case Allow(k, n, w, _, _) => k == key ==> n == limit && w == window
    case Cleanup(maxWindow, _, _) => window <= maxWindow
    case _ => true
  }

  /** A request for the key that is not locked out. */
  lemma RequestTracks(stamps: seq<int>, permits: seq<int>, limit: int, window: int, now: int, t: int)
    requires Tracks(stamps, permits, Max(limit, 0), window, now) && now <= t
    ensures var kept := Prune(stamps, t - window);
            if |kept| < limit then Tracks(kept + [t], permits + [t], Max(limit, 0), window, t)
            else Tracks(kept, permits, Max(limit, 0), window, t)
  {
    PruneTracks(stamps, permits, Max(limit, 0), window, now, t);
    if |Prune(stamps, t - window)| < limit {
      PermitTracks(Prune(stamps, t - window), permits, Max(limit, 0), window, t);
    }
  }

  lemma TracksLater(stamps: seq<int>, permits: seq<int>, n: nat, window: int, now: int, later: int)
    requires Tracks(stamps, permits, n, window, now) && now <= later
    ensures Tracks(stamps, permits, n, window, later)
  {
  }

  /** An Allow sees the limiter only through the lockout and the pruned entry of its key. */
  lemma AllowShape(l: Limiter, key: string, limit: int, window: int, t0: int, t1: int)
    ensures var op := Allow(key, limit, window, t0, t1);
            var kept := Prune(Stamps(l, key), t1 - window);
            var ok := !Locked(l, key, t0) && |kept| < limit;
            && Do(l, op).said == Some(ok) && Permitted(l, op, key) == ok
            && Stamps(Do(l, op).after, key) ==
               if Locked(l, key, t0) then Stamps(l, key) else if ok then kept + [t1] else kept
  {
  }

  lemma AllowTracks(l: Limiter, key: string, limit: int, window: int, t0: int, t1: int, permits: seq<int>, now: int)
    requires Tracks(Stamps(l, key), permits, Max(limit, 0), window, now) && now <= t0 <= t1
    ensures var op := Allow(key, limit, window, t0, t1);
            Tracks(Stamps(Do(l, op).after, key), if Permitted(l, op, key) then permits + [t1] else permits,
                   Max(limit, 0), window, t1)
  {
    AllowShape(l, key, limit, window, t0, t1);
    if Locked(l, key, t0) {
      TracksLater(Stamps(l, key), permits, Max(limit, 0), window, now, t1);
    } else {
      RequestTracks(Stamps(l, key), permits, limit, window, now, t1);
    }
  }

  lemma StepTracks(l: Limiter, op: Op, key: string, limit: int, window: int, permits: seq<int>, now: int)
    requires InTime(op, now) && OneRule(op, key, limit, window)
    requires Tracks(Stamps(l, key), permits, Max(limit, 0), window, now)
    ensures Tracks(Stamps(Do(l, op).after, key), NextPermits(l, op, key, permits), Max(limit, 0), window, ClockAfter(op, now))
  {
    if op.Allow? && op.key == key {
      AllowTracks(l, key, limit, window, op.t0, op.t1, permits, now);
    } else if op != Reset(key) {
      OtherTracks(l, op, key, permits, Max(limit, 0), window, now);
    }
  }

  lemma {:induction false} RunTracks(l: Limiter, ops: seq<Op>, key: string, limit: int, window: int,
                                     permits: seq<int>, now: int)
    requires Timed(ops, now) && forall op | op in ops :: OneRule(op, key, limit, window)
    requires Tracks(Stamps(l, key), permits, Max(limit, 0), window, now)
    ensures Tracks(Stamps(End(l, ops), key), PermitsFrom(l, ops, key, permits), Max(limit, 0), window, ClockEnd(ops, now))
    decreases |ops|
  {
    if ops != [] {
      StepTracks(l, ops[0], key, limit, window, permits, now);
      RunTracks(Do(l, ops[0]).after, ops[1..], key, limit, window,
                NextPermits(l, ops[0], key, permits), ClockAfter(ops[0], now));
    }
  }

  lemma ReachTracks(ops: seq<Op>, key: string, limit: int, window: int, start: int)
    requires Timed(ops, start) && forall op | op in ops :: OneRule(op, key, limit, window)
    ensures Tracks(Stamps(End(FRESH, ops), key), Permits(ops, key), Max(limit, 0), window, ClockEnd(ops, start))
  {
    RunTracks(FRESH, ops, key, limit, window, [], start);
  }

  lemma AllowCounts(l: Limiter, key: string, limit: int, window: int, permits: seq<int>, now: int, t0: int, t1: int)
    requires Tracks(Stamps(l, key), permits, Max(limit, 0), window, now) && now <= t0 <= t1
    ensures Do(l, Allow(key, limit, window, t0, t1)).said ==
            Some(!Locked(l, key, t0) && CountIn(permits, t1 - window, t1) < limit)
  {
    KeptIsCount(Stamps(l, key), permits, Max(limit, 0), window, now, t1);
  }

  function Unexpired(until: Option<int>, now: int): Option<int> {
    if until.Some? && now < until.value then until else None
  }

  function ActiveLockout(l: Limiter, key: string, now: int): Option<int> {
    if Locked(l, key, now) then Some(l.lockouts[key]) else None
  }

  /** What an operation does to the time until which the key is locked out, by its meaning. */
  function Relock(until: Option<int>, op: Op, key: string): Option<int> {
    match op
    case Lockout(k, duration, t0) => if k == key then Some(t0 + duration) else until
    case Reset(k) => if k == key then None else until
    case _ => until
  }

  /** The expiry the latest Lockout of the key has set, None without one since the last Reset. */
  function LockedUntil(ops: seq<Op>, key: string, until: Option<int>): Option<int>
    decreases |ops|
  {
    if ops == [] then until else LockedUntil(ops[1..], key, Relock(until, ops[0], key))
  }

  /** No operation drops a lockout before it has run out. */
  lemma StepLocks(l: Limiter, op: Op, key: string, now: int, until: Option<int>)
    requires InTime(op, now) && ActiveLockout(l, key, now) == Unexpired(until, now)
    ensures var t := ClockAfter(op, now);
            ActiveLockout(Do(l, op).after, key, t) == Unexpired(Relock(until, op, key), t)
  {
  }

  lemma {:induction false} RunLocks(l: Limiter, ops: seq<Op>, key: string, now: int, until: Option<int>)
    requires Timed(ops, now) && ActiveLockout(l, key, now) == Unexpired(until, now)
    ensures var t := ClockEnd(ops, now);
            ActiveLockout(End(l, ops), key, t) == Unexpired(LockedUntil(ops, key, until), t)
    decreases |ops|
  {
    if ops != [] {
      StepLocks(l, ops[0], key, now, until);
      RunLocks(Do(l, ops[0]).after, ops[1..], key, ClockAfter(ops[0], now), Relock(until, ops[0], key));
    }
  }

  lemma ReachLocks(ops: seq<Op>, key: string, start: int, t: int)
    requires Timed(ops, start) && ClockEnd(ops, start) <= t
    ensures Locked(End(FRESH, ops), key, t) <==> Unexpired(LockedUntil(ops, key, None), t).Some?
  {
    RunLocks(FRESH, ops, key, start, None);
  }

  /** After any run, a key is reported as locked out exactly until its latest Lockout runs out. */
  lemma LockedOutIsExact(ops: seq<Op>, key: string, start: int, t: int)
    requires Timed(ops, start) && ClockEnd(ops, start) <= t
    ensures Do(End(FRESH, ops), IsLockedOut(key, t)).said == Some(Unexpired(LockedUntil(ops, key, None), t).Some?)
  {
    ReachLocks(ops, key, start, t);
  }

  /**
   * After any run, a request is permitted exactly when the latest Lockout of the key has run out and
   * fewer than `limit` requests were permitted in the window ending now.
   */
  lemma AllowIsExact(ops: seq<Op>, key: string, limit: int, window: int, start: int, t0: int, t1: int)
    requires Timed(ops, start) && ClockEnd(ops, start) <= t0 <= t1
    requires forall op | op in ops :: OneRule(op, key, limit, window)
    ensures Do(End(FRESH, ops), Allow(key, limit, window, t0, t1)).said ==
            Some(Unexpired(LockedUntil(ops, key, None), t0).None?
                 && CountIn(Permits(ops, key), t1 - window, t1) < limit)
  {
    var l, permits := End(FRESH, ops), Permits(ops, key);
    ReachTracks(ops, key, limit, window, start);
    ReachLocks(ops, key, start, t0);
    AllowCounts(l, key, limit, window, permits, ClockEnd(ops, start), t0, t1);
  }

  /** Every interval (t - window, t] of every run holds at most `limit` permitted requests of the key. */
  lemma SlidingWindowBound(ops: seq<Op>, key: string, limit: int, window: int, start: int, t: int)
    requires Timed(ops, start) && forall op | op in ops :: OneRule(op, key, limit, window)
    ensures CountIn(Permits(ops, key), t - window, t) <= Max(limit, 0)
  {
    if limit > 0 {
      ReachTracks(ops, key, limit, window, start);
      SpacedCount(Permits(ops, key), limit, window, t);
    } else {
      NothingPermitted(FRESH, ops, key, limit, window);
    }
  }

  lemma {:induction false} NothingPermitted(l: Limiter, ops: seq<Op>, key: string, limit: int, window: int)
    requires limit <= 0 && forall op | op in ops :: OneRule(op, key, limit, window)
    ensures PermitsFrom(l, ops, key, []) == []
    decreases |ops|
  {
    if ops != [] {
      assert OneRule(ops[0], key, limit, window);
      NothingPermitted(Do(l, ops[0]).after, ops[1..], key, limit, window);
    }
  }

  /** What a cleanup forgets: the keys last used beyond its horizon, and the lockouts that have run out. */
  lemma CleanupForgetsExactly(l: Limiter, maxWindow: int, t0: int, t1: int, key: string)
    ensures var l' := Do(l, Cleanup(maxWindow, t0, t1)).after;
            && (key in l'.windows <==> exists i :: 0 <= i < |Stamps(l, key)| && Stamps(l, key)[i] + maxWindow > t0)
            && (key in l'.windows ==> l'.windows[key] == Stamps(l, key))
            && (key in l'.lockouts <==> key in l.lockouts && t1 <= l.lockouts[key])
            && (key in l'.lockouts ==> l'.lockouts[key] == l.lockouts[key])
  {
    var stamps := Stamps(l, key);
    if !AllStale(stamps, t0 - maxWindow) {
      var i :| 0 <= i < |stamps| && stamps[i] > t0 - maxWindow;
      assert stamps[i] + maxWindow > t0;
    }
  }

  // ---------- when is Cleanup invisible? ----------

  /** What the operations on the key answered. */
  function Answers(l: Limiter, ops: seq<Op>, key: string): seq<Option<bool>>
    decreases |ops|
  {
    if ops == [] then []
    else (if Concerns(ops[0], key) then [Do(l, ops[0]).said] else []) + Answers(Do(l, ops[0]).after, ops[1..], key)
  }

  predicate Concerns(op: Op, key: string) {
    !op.Cleanup? && op.key == key
  }

  function WithoutCleanups(ops: seq<Op>): seq<Op>
    decreases |ops|
  {
    if ops == [] then []
    else (if ops[0].Cleanup? then [] else [ops[0]]) + WithoutCleanups(ops[1..])
  }

  /**
   * Timestamps that no window up to `widest` can tell apart from `now` on; without a positive window
   * they are all out of sight.
   */
  ghost predicate SameStamps(a: seq<int>, b: seq<int>, now: int, widest: int) {
    && Prune(a, now - widest) == Prune(b, now - widest)
    && (widest <= 0 ==> AllStale(a, now - widest))
  }

  ghost predicate Alike(l: Limiter, m: Limiter, key: string, now: int, widest: int) {
    && SameStamps(Stamps(l, key), Stamps(m, key), now, widest)
    && ActiveLockout(l, key, now) == ActiveLockout(m, key, now)
  }

  lemma SamePruned(a: seq<int>, b: seq<int>, cutoff: int, later: int)
    requires Prune(a, cutoff) == Prune(b, cutoff) && cutoff <= later
    ensures Prune(a, later) == Prune(b, later)
  {
    PruneTwice(a, cutoff, later);
    PruneTwice(b, cutoff, later);
  }

  lemma SameLater(a: seq<int>, b: seq<int>, now: int, later: int, widest: int)
    requires SameStamps(a, b, now, widest) && now <= later
    ensures SameStamps(a, b, later, widest)
  {
    SamePruned(a, b, now - widest, later - widest);
  }

  /** Both prune to the same timestamps, and to the same again after a request was added or not. */
  lemma SameRequest(a: seq<int>, b: seq<int>, now: int, t: int, window: int, widest: int)
    requires SameStamps(a, b, now, widest) && now <= t && window <= widest
    ensures Prune(a, t - window) == Prune(b, t - window)
    ensures var kept := Prune(a, t - window);
            SameStamps(kept, kept, t, widest) && SameStamps(kept + [t], kept + [t], t, widest)
  {
    SameLater(a, b, now, t, widest);
    SamePruned(a, b, t - widest, t - window);
    if widest <= 0 {
      PruneMembers(a, t - window);
    }
  }

  /** The key uses no window wider than `widest`, and no cleanup looks back less than that. */
  predicate WithinHorizon(op: Op, key: string, widest: int) {
    && (op.Allow? && op.key == key ==> op.window <= widest)
    && (op.Cleanup? ==> widest <= op.maxWindow || widest <= 0)
  }

  /** The lockouts of the key go on alike. */
  lemma SameLockout(l: Limiter, m: Limiter, op: Op, key: string, now: int)
    requires InTime(op, now) && ActiveLockout(l, key, now) == ActiveLockout(m, key, now)
    ensures var t := ClockAfter(op, now);
            && ActiveLockout(Do(l, op).after, key, t) == ActiveLockout(Do(m, op).after, key, t)
            && (op.Cleanup? ==> ActiveLockout(Do(l, op).after, key, t) == ActiveLockout(m, key, t))
  {
    var until := ActiveLockout(l, key, now);
    StepLocks(l, op, key, now, until);
    StepLocks(m, op, key, now, until);
  }

  lemma AllowSaysAlike(l: Limiter, m: Limiter, op: Op, now: int, widest: int)
    requires op.Allow? && InTime(op, now) && op.window <= widest
    requires Alike(l, m, op.key, now, widest)
    ensures Locked(l, op.key, op.t0) == Locked(m, op.key, op.t0)
    ensures Prune(Stamps(l, op.key), op.t1 - op.window) == Prune(Stamps(m, op.key), op.t1 - op.window)
    ensures Do(l, op).said == Do(m, op).said
  {
    SameRequest(Stamps(l, op.key), Stamps(m, op.key), now, op.t1, op.window, widest);
    AllowShape(l, op.key, op.limit, op.window, op.t0, op.t1);
    AllowShape(m, op.key, op.limit, op.window, op.t0, op.t1);
  }

  lemma AllowStaysAlike(l: Limiter, m: Limiter, op: Op, now: int, widest: int)
    requires op.Allow? && InTime(op, now) && op.window <= widest
    requires Alike(l, m, op.key, now, widest)
    ensures SameStamps(Stamps(Do(l, op).after, op.key), Stamps(Do(m, op).after, op.key), op.t1, widest)
  {
    var a, b := Stamps(l, op.key), Stamps(m, op.key);
    AllowSaysAlike(l, m, op, now, widest);
    AllowShape(l, op.key, op.limit, op.window, op.t0, op.t1);
    AllowShape(m, op.key, op.limit, op.window, op.t0, op.t1);
    if Locked(l, op.key, op.t0) {
      SameLater(a, b, now, op.t1, widest);
    } else {
      SameRequest(a, b, now, op.t1, op.window, widest);
    }
  }

  lemma OtherStamps(l: Limiter, op: Op, key: string)
    requires !op.Cleanup? && !(op.Allow? && op.key == key)
    ensures Stamps(Do(l, op).after, key) == if op == Reset(key) then [] else Stamps(l, key)
  {
  }

  /** An operation on the key gets the same answer, and every operation leaves the key alike. */
  lemma StepStaysAlike(l: Limiter, m: Limiter, op: Op, key: string, now: int, widest: int)
    requires !op.Cleanup? && InTime(op, now) && WithinHorizon(op, key, widest)
    requires Alike(l, m, key, now, widest)
    ensures op.key == key ==> Do(l, op).said == Do(m, op).said
    ensures Alike(Do(l, op).after, Do(m, op).after, key, ClockAfter(op, now), widest)
  {
    SameLockout(l, m, op, key, now);
    if op.Allow? && op.key == key {
      AllowSaysAlike(l, m, op, now, widest);
      AllowStaysAlike(l, m, op, now, widest);
    } else {
      OtherStamps(l, op, key);
      OtherStamps(m, op, key);
      SameLater(Stamps(l, key), Stamps(m, key), now, ClockAfter(op, now), widest);
    }
  }

  lemma CleanupStaysAlike(l: Limiter, m: Limiter, op: Op, key: string, now: int, widest: int)
    requires op.Cleanup? && InTime(op, now) && WithinHorizon(op, key, widest)
    requires Alike(l, m, key, now, widest)
    ensures Alike(Do(l, op).after, m, key, ClockAfter(op, now), widest)
  {
    SameLockout(l, m, op, key, now);
    SameLater(Stamps(l, key), Stamps(m, key), now, op.t1, widest);
    PruneMembers(Stamps(l, key), op.t1 - widest);
  }

  lemma {:induction false} AlikeAnswers(l: Limiter, m: Limiter, ops: seq<Op>, key: string, now: int, widest: int)
    requires Alike(l, m, key, now, widest) && Timed(ops, now)
    requires forall op | op in ops :: WithinHorizon(op, key, widest)
    ensures Answers(l, ops, key) == Answers(m, WithoutCleanups(ops), key)
    decreases |ops|
  {
    if ops != [] {
      var op := ops[0];
      if op.Cleanup? {
        CleanupStaysAlike(l, m, op, key, now, widest);
        AlikeAnswers(Do(l, op).after, m, ops[1..], key, ClockAfter(op, now), widest);
        assert WithoutCleanups(ops) == WithoutCleanups(ops[1..]);
      } else {
        StepStaysAlike(l, m, op, key, now, widest);
        AlikeAnswers(Do(l, op).after, Do(m, op).after, ops[1..], key, ClockAfter(op, now), widest);
        assert WithoutCleanups(ops)[1..] == WithoutCleanups(ops[1..]);
      }
    }
  }

  /**
   * Every answer about a key is the one given had no Cleanup happened, if no cleanup looks back less
   * than the key's windows; windows of other keys do not matter.
   */
  lemma CleanupIsInvisible(ops: seq<Op>, key: string, start: int, widest: int)
    requires Timed(ops, start) && forall op | op in ops :: WithinHorizon(op, key, widest)
    ensures Answers(FRESH, ops, key) == Answers(FRESH, WithoutCleanups(ops), key)
  {
    AlikeAnswers(FRESH, FRESH, ops, key, start, widest);
  }

  /** The key is only used with the window, and cleanups only with the horizon. */
  predicate Uses(op: Op, key: string, window: int, horizon: int) {
    (op.Allow? && op.key == key ==> op.window == window) && (op.Cleanup? ==> op.maxWindow == horizon)
  }

  ghost predicate InvisibleAt(key: string, window: int, horizon: int) {
    forall ops: seq<Op>, start: int ::
      Timed(ops, start) && (forall op | op in ops :: Uses(op, key, window, horizon)) ==>
      Answers(FRESH, ops, key) == Answers(FRESH, WithoutCleanups(ops), key)
  }

  /** Cleanups leave no trace in any run exactly when the window is within the horizon or not positive. */
  lemma CleanupIsInvisibleExactlyWhen(key: string, window: int, horizon: int)
    ensures InvisibleAt(key, window, horizon) <==> window <= horizon || window <= 0
  {
    if window <= horizon || window <= 0 {
      forall ops: seq<Op>, start: int
        | Timed(ops, start) && forall op | op in ops :: Uses(op, key, window, horizon)
        ensures Answers(FRESH, ops, key) == Answers(FRESH, WithoutCleanups(ops), key)
      {
        CleanupIsInvisible(ops, key, start, window);
      }
    } else {
      CleanupBeyondHorizonIsVisible(key, window, horizon);
    }
  }

  /** A request, a cleanup, and the request repeated as soon as the cleanup forgets the first. */
  function Forgetful(key: string, window: int, horizon: int): seq<Op> {
    var t := Max(horizon, 0);
    [Allow(key, 1, window, 0, 0), Cleanup(horizon, t, t), Allow(key, 1, window, t, t)]
  }

  lemma FirstRequestPasses(key: string, window: int, t: int)
    ensures Do(FRESH, Allow(key, 1, window, t, t)) == Answer(Limiter(map[key := [t]], map[]), Some(true))
  {
    assert Prune([], t - window) + [t] == [t];
  }

  lemma RepeatedRequestFails(key: string, window: int, t: int)
    requires t < window
    ensures Do(Limiter(map[key := [0]], map[]), Allow(key, 1, window, t, t)).said == Some(false)
  {
    PruneSnoc([], 0, t - window);
    assert [] + [0] == [0];
  }

  lemma AnswersOfTwo(l: Limiter, a: Op, b: Op, key: string)
    requires Concerns(a, key) && Concerns(b, key)
    ensures Answers(l, [a, b], key) == [Do(l, a).said, Do(Do(l, a).after, b).said]
  {
    assert [a, b][1..] == [b] && [b][1..] == [];
    assert Answers(Do(l, a).after, [b], key) == [Do(Do(l, a).after, b).said];
  }

  lemma AnswersAroundCleanup(l: Limiter, a: Op, c: Op, b: Op, key: string)
    requires Concerns(a, key) && Concerns(b, key) && c.Cleanup?
    ensures Answers(l, [a, c, b], key) == [Do(l, a).said, Do(Do(Do(l, a).after, c).after, b).said]
    ensures WithoutCleanups([a, c, b]) == [a, b]
  {
    assert [a, c, b][1..] == [c, b] && [c, b][1..] == [b] && [b][1..] == [];
    var l1 := Do(l, a).after;
    assert Answers(Do(l1, c).after, [b], key) == [Do(Do(l1, c).after, b).said];
    assert Answers(l1, [c, b], key) == Answers(Do(l1, c).after, [b], key);
    assert WithoutCleanups([b]) == [b];
  }

  lemma ForgetfulIsTimed(key: string, window: int, horizon: int)
    ensures Timed(Forgetful(key, window, horizon), 0)
  {
    var t := Max(horizon, 0);
    var ops := Forgetful(key, window, horizon);
    assert ops[1..] == [ops[1], ops[2]] && [ops[1], ops[2]][1..] == [ops[2]];
    assert Timed([ops[2]], t) && Timed([ops[1], ops[2]], 0);
  }

  /** Every window beyond the horizon sees the cleanup: it lets a second request through. */
  lemma CleanupBeyondHorizonIsVisible(key: string, window: int, horizon: int)
    requires 0 < window && horizon < window
    ensures var ops := Forgetful(key, window, horizon);
            && Timed(ops, 0) && (forall op | op in ops :: Uses(op, key, window, horizon))
            && Answers(FRESH, ops, key) == [Some(true), Some(true)]
            && Answers(FRESH, WithoutCleanups(ops), key) == [Some(true), Some(false)]
  {
    var t := Max(horizon, 0);
    var first, sweep, second := Allow(key, 1, window, 0, 0), Cleanup(horizon, t, t), Allow(key, 1, window, t, t);
    ForgetfulIsTimed(key, window, horizon);
    AnswersAroundCleanup(FRESH, first, sweep, second, key);
    AnswersOfTwo(FRESH, first, second, key);
    FirstRequestPasses(key, window, 0);
    FirstRequestPasses(key, window, t);
    RepeatedRequestFails(key, window, t);
    assert Do(Limiter(map[key := [0]], map[]), sweep).after == FRESH;
  }

  // ---------- the source's object ----------

  /** The slice filter of Allow: it compacts the backing array while reading from it. */
  method PruneInPlace(a: array<int>, cutoff: int) returns (n: nat)
    modifies a
    ensures n <= a.Length && a[..n] == Prune(old(a[..]), cutoff)
  {
    n := 0;
    var i := 0;
    while i < a.Length
      invariant 0 <= n <= i <= a.Length
      invariant a[..n] == Prune(old(a[..])[..i], cutoff)
      invariant a[i..] == old(a[..])[i..]
    {
      ghost var seen := old(a[..])[..i + 1];
      assert seen[..i] == old(a[..])[..i] && a[i] == a[i..][0] == seen[i];
      ghost var rest := a[i..];
      if a[i] > cutoff {
        a[n] := a[i];
        n := n + 1;
      }
      assert a[i + 1..] == rest[1..];
      i := i + 1;
    }
    assert old(a[..])[..i] == old(a[..]);
  }

  /** An entry's timestamps live in a backing array, which is compacted and sliced. */
  method PruneEntry(stamps: seq<int>, cutoff: int) returns (kept: seq<int>)
    ensures kept == Prune(stamps, cutoff)
  {
    var backing := new int[|stamps|](i requires 0 <= i < |stamps| => stamps[i]);
    assert backing[..] == stamps;
    var n := PruneInPlace(backing, cutoff);
    return backing[..n];
  }

  class RateLimiter {
    var windows: map<string, seq<int>>
    var lockouts: map<string, int>

    ghost function Abs(): Limiter reads this {
      Limiter(windows, lockouts)
    }

    constructor ()
      ensures Abs() == FRESH
    {
      windows, lockouts := map[], map[];
    }

    method AllowRequest(key: string, limit: int, window: int, t0: int, t1: int) returns (ok: bool)
      modifies this
      ensures Answer(Abs(), Some(ok)) == Do(old(Abs()), Allow(key, limit, window, t0, t1))
    {
      if key in lockouts {
        if t0 < lockouts[key] {
          return false;
        }
        lockouts := lockouts - {key};
      }
      assert lockouts == old(lockouts) - {key};
      var valid := PruneEntry(if key in windows then windows[key] else [], t1 - window);
      if |valid| >= limit {
        windows := windows[key := valid];
        return false;
      }
      windows := windows[key := valid + [t1]];
      return true;
    }

    method LockOut(key: string, duration: int, t0: int)
      modifies this
      ensures Abs() == Do(old(Abs()), Lockout(key, duration, t0)).after
    {
      lockouts := lockouts[key := t0 + duration];
    }

    method CheckLockedOut(key: string, t0: int) returns (locked: bool)
      modifies this
      ensures Answer(Abs(), Some(locked)) == Do(old(Abs()), IsLockedOut(key, t0))
    {
      if key !in lockouts {
        assert lockouts == lockouts - {key};
        return false;
      }
      if t0 < lockouts[key] {
        return true;
      }
      lockouts := lockouts - {key};
      return false;
    }

    method ResetKey(key: string)
      modifies this
      ensures Abs() == Do(old(Abs()), Reset(key)).after
    {
      windows := windows - {key};
      lockouts := lockouts - {key};
    }

    method Sweep(maxWindow: int, t0: int, t1: int)
      modifies this
      ensures Abs() == Do(old(Abs()), Cleanup(maxWindow, t0, t1)).after
    {
      var cutoff := t0 - maxWindow;
      var todo := windows.Keys;
      while todo != {}
        invariant todo <= windows.Keys && lockouts == old(lockouts)
        invariant forall k :: k in windows <==> k in old(windows) && (k in todo || !AllStale(old(windows)[k], cutoff))
        invariant forall k | k in windows :: windows[k] == old(windows)[k]
        decreases todo
      {
        var k := Pick(todo);
        var allStale := true;
        var i := 0;
        while i < |windows[k]| && allStale
          invariant 0 <= i <= |windows[k]|
          invariant allStale ==> forall j :: 0 <= j < i ==> windows[k][j] <= cutoff
          invariant !allStale ==> !AllStale(windows[k], cutoff)
        {
          if windows[k][i] > cutoff {
            allStale := false;
          }
          i := i + 1;
        }
        if allStale {
          windows := windows - {k};
        }
        todo := todo - {k};
      }
      var rest := lockouts.Keys;
      while rest != {}
        invariant rest <= lockouts.Keys
        invariant windows == Do(old(Abs()), Cleanup(maxWindow, t0, t1)).after.windows
        invariant forall k :: k in lockouts <==> k in old(lockouts) && (k in rest || t1 <= old(lockouts)[k])
        invariant forall k | k in lockouts :: lockouts[k] == old(lockouts)[k]
        decreases rest
      {
        var k := Pick(rest);
        if t1 > lockouts[k] {
          lockouts := lockouts - {k};
        }
        rest := rest - {k};
      }
    }
  }
}
