/**
 * The lockout logic of the login handler: one key counts failures, a second key locks the address
 * out, and together they bound failed password checks.
 */
module Login {
  import opened Common
  import opened RateLimit

  const WINDOW := 900_000_000_000   // 15 minutes in nanoseconds
  const MAX_COUNTED := 9

  function LockKey(ip: string): string { "login_lock:" + ip }
  function FailKey(ip: string): string { "login_fail:" + ip }

  datatype Credentials = LookupFails | Wrong | Right

  /** One request: its credentials and its clock readings, `check` being when the password is compared. */
  datatype Attempt = Attempt(credentials: Credentials, tLock: int, check: int, t0: int, t1: int, tOut: int)

  datatype Verdict = LockedOut | Unavailable | Rejected(counted: bool) | Passed

  datatype Handled = Handled(after: Limiter, verdict: Verdict)

  function Handle(l: Limiter, ip: string, a: Attempt): Handled {
    var gate := Do(l, IsLockedOut(LockKey(ip), a.tLock));
    if gate.said == Some(true) then Handled(gate.after, LockedOut)
    else match a.credentials
      case LookupFails => Handled(gate.after, Unavailable)
      case Right => Handled(Do(gate.after, Reset(FailKey(ip))).after, Passed)
      case Wrong => AfterReject(gate.after, ip, a)
  }

  /** A failed check is counted if there is room and locks the address out otherwise. */
  function AfterReject(l: Limiter, ip: string, a: Attempt): Handled {
    var count := Do(l, Allow(FailKey(ip), MAX_COUNTED, WINDOW, a.t0, a.t1));
    if count.said == Some(true) then Handled(count.after, Rejected(true))
    else Handled(Do(count.after, Lockout(LockKey(ip), WINDOW, a.tOut)).after, Rejected(false))
  }

  method HandleLogin(limiter: RateLimiter, ip: string, a: Attempt) returns (verdict: Verdict)
    modifies limiter
    ensures Handled(limiter.Abs(), verdict) == Handle(old(limiter.Abs()), ip, a)
  {
    var locked := limiter.CheckLockedOut(LockKey(ip), a.tLock);
    if locked {
      return LockedOut;
    }
    if a.credentials == LookupFails {
      return Unavailable;
    }
    if a.credentials == Wrong {
      var ok := limiter.AllowRequest(FailKey(ip), MAX_COUNTED, WINDOW, a.t0, a.t1);
      if !ok {
        limiter.LockOut(LockKey(ip), WINDOW, a.tOut);
      }
      return Rejected(ok);
    }
    limiter.ResetKey(FailKey(ip));
    return Passed;
  }

  // ---------- runs ----------

  /** A login from the address, or any other use of the limiter. */
  datatype Event = Try(a: Attempt) | Other(op: Op)

  function After(l: Limiter, ip: string, e: Event): Limiter {
    match e
    case Try(a) => Handle(l, ip, a).after
    case Other(op) => Do(l, op).after
  }

  function Clock(e: Event, now: int): int {
    match e
    case Try(a) => a.tOut
    case Other(op) => ClockAfter(op, now)
  }

  /** Serial handling, other uses of the limiter on other keys, cleanups looking back 15 minutes or more. */
  predicate Admissible(e: Event, ip: string, now: int) {
    match e
    case Try(a) => now <= a.tLock && InSequence(a)
    case Other(op) => InTime(op, now) && Unrelated(op, ip)
  }

  /** The clock readings of one request. */
  predicate InSequence(a: Attempt) {
    a.tLock <= a.check <= a.t0 <= a.t1 <= a.tOut
  }

  predicate Unrelated(op: Op, ip: string) {
    match op
    case Cleanup(maxWindow, _, _) => WINDOW <= maxWindow
    case IsLockedOut(_, _) => true
    case _ => op.key != LockKey(ip) && op.key != FailKey(ip)
  }

  predicate AllAdmissible(es: seq<Event>, ip: string, now: int)
    decreases |es|
  {
    es == [] || (Admissible(es[0], ip, now) && AllAdmissible(es[1..], ip, Clock(es[0], now)))
  }

  /** A failed password check: when it was made, counted and answered, and whether the count had room. */
  datatype Failure = Failure(check: int, counted: int, out: int, room: bool)

  /** A success makes the failures before it forgotten. */
  function NextFailures(l: Limiter, ip: string, e: Event, fs: seq<Failure>): seq<Failure> {
    match e
    case Other(_) => fs
    case Try(a) =>
      match Handle(l, ip, a).verdict
      case Rejected(counted) => fs + [Failure(a.check, a.t1, a.tOut, counted)]
      case Passed => []
      case _ => fs
  }

  function FailuresFrom(l: Limiter, ip: string, es: seq<Event>, fs: seq<Failure>): seq<Failure>
    decreases |es|
  {
    if es == [] then fs else FailuresFrom(After(l, ip, es[0]), ip, es[1..], NextFailures(l, ip, es[0], fs))
  }

  /** The failed checks of the address since its last success; all of them if there was none. */
  function Failures(ip: string, es: seq<Event>): seq<Failure> {
    FailuresFrom(FRESH, ip, es, [])
  }

  function Checks(fs: seq<Failure>): seq<int> {
    seq(|fs|, i requires 0 <= i < |fs| => fs[i].check)
  }

  // ---------- the invariant ----------

  function Counted(fs: seq<Failure>): seq<int> {
    if fs == [] then []
    else
      var before := Counted(fs[..|fs| - 1]);
      if fs[|fs| - 1].room then before + [fs[|fs| - 1].counted] else before
  }

  /** When the address may try again after a failure. */
  function FreeAt(f: Failure): int {
    if f.room then f.out else f.out + WINDOW
  }

  /** Failures come one after the other, each when the address was free again. */
  ghost predicate Ordered(fs: seq<Failure>, now: int) {
    && (forall i :: 0 <= i < |fs| ==> fs[i].check <= fs[i].counted <= fs[i].out <= now)
    && (forall i, j :: 0 <= i < j < |fs| ==> FreeAt(fs[i]) <= fs[j].check)
  }

  /** Nine failures were counted in the 15 minutes up to t. */
  ghost predicate Crowded(fs: seq<Failure>, t: int) {
    CountIn(Counted(fs), t - WINDOW, t) >= MAX_COUNTED
  }

  /** Each failure found no room exactly when nine were counted before it. */
  ghost predicate Justified(fs: seq<Failure>) {
    fs == [] ||
    (var init, last := fs[..|fs| - 1], fs[|fs| - 1];
     Justified(init) && (last.room <==> !Crowded(init, last.counted)))
  }

  /** The expiry of the lockout that the failures so far call for. */
  function Penalty(fs: seq<Failure>): Option<int> {
    if fs == [] || fs[|fs| - 1].room then None else Some(fs[|fs| - 1].out + WINDOW)
  }

  /** The two keys say what the failures so far call for. */
  ghost predicate KeysInv(l: Limiter, ip: string, fs: seq<Failure>, now: int) {
    && ActiveLockout(l, LockKey(ip), now) == Unexpired(Penalty(fs), now)
    && ActiveLockout(l, FailKey(ip), now) == None
    && Tracks(Stamps(l, FailKey(ip)), Counted(fs), MAX_COUNTED, WINDOW, now)
  }

  ghost predicate Inv(l: Limiter, ip: string, fs: seq<Failure>, now: int) {
    KeysInv(l, ip, fs, now) && Ordered(fs, now) && Justified(fs)
  }

  lemma KeysDiffer(ip: string)
    ensures LockKey(ip) != FailKey(ip)
  {
    assert LockKey(ip)[6] == 'l' && FailKey(ip)[6] == 'f';
  }

  lemma CountedSnoc(fs: seq<Failure>, f: Failure)
    ensures Counted(fs + [f]) == if f.room then Counted(fs) + [f.counted] else Counted(fs)
  {
    assert (fs + [f])[..|fs|] == fs;
  }

  // ---------- time passes, other operations ----------

  lemma LockoutLater(l: Limiter, key: string, until: Option<int>, now: int, later: int)
    requires ActiveLockout(l, key, now) == Unexpired(until, now) && now <= later
    ensures ActiveLockout(l, key, later) == Unexpired(until, later)
  {
  }

  lemma KeysLater(l: Limiter, ip: string, fs: seq<Failure>, now: int, later: int)
    requires KeysInv(l, ip, fs, now) && now <= later
    ensures KeysInv(l, ip, fs, later)
  {
    LockoutLater(l, LockKey(ip), Penalty(fs), now, later);
    LockoutLater(l, FailKey(ip), None, now, later);
    TracksLater(Stamps(l, FailKey(ip)), Counted(fs), MAX_COUNTED, WINDOW, now, later);
  }

  lemma OrderedLater(fs: seq<Failure>, now: int, later: int)
    requires Ordered(fs, now) && now <= later
    ensures Ordered(fs, later)
  {
  }

  /** Other uses of the limiter, and asking whether the address is locked out, change nothing. */
  lemma UnrelatedKeepsKeys(l: Limiter, ip: string, op: Op, fs: seq<Failure>, now: int)
    requires KeysInv(l, ip, fs, now) && InTime(op, now) && Unrelated(op, ip)
    ensures KeysInv(Do(l, op).after, ip, fs, ClockAfter(op, now))
  {
    StepLocks(l, op, LockKey(ip), now, Penalty(fs));
    StepLocks(l, op, FailKey(ip), now, None);
    OtherTracks(l, op, FailKey(ip), Counted(fs), MAX_COUNTED, WINDOW, now);
  }

  // ---------- a failed check ----------

  function CountOp(ip: string, a: Attempt): Op {
    Allow(FailKey(ip), MAX_COUNTED, WINDOW, a.t0, a.t1)
  }

  /** The failure a rejected attempt is. */
  function FailureOf(l: Limiter, ip: string, a: Attempt): Failure {
    Failure(a.check, a.t1, a.tOut, Permitted(l, CountOp(ip, a), FailKey(ip)))
  }

  lemma RejectShape(l: Limiter, ip: string, a: Attempt)
    ensures var count := Do(l, CountOp(ip, a)).after;
            var room := FailureOf(l, ip, a).room;
            AfterReject(l, ip, a) ==
            Handled(if room then count else Do(count, Lockout(LockKey(ip), WINDOW, a.tOut)).after, Rejected(room))
  {
  }

  /** The failure counts if there is room, by the failures counted so far. */
  lemma RejectCounts(l: Limiter, ip: string, a: Attempt, fs: seq<Failure>)
    requires KeysInv(l, ip, fs, a.tLock) && InSequence(a)
    ensures FailureOf(l, ip, a).room <==> !Crowded(fs, a.t1)
  {
    LockoutLater(l, FailKey(ip), None, a.tLock, a.t0);
    AllowCounts(l, FailKey(ip), MAX_COUNTED, WINDOW, Counted(fs), a.tLock, a.t0, a.t1);
  }

  lemma CountTracks(l: Limiter, ip: string, a: Attempt, fs: seq<Failure>)
    requires KeysInv(l, ip, fs, a.tLock) && InSequence(a)
    ensures Tracks(Stamps(Do(l, CountOp(ip, a)).after, FailKey(ip)), Counted(fs + [FailureOf(l, ip, a)]),
                   MAX_COUNTED, WINDOW, a.t1)
  {
    AllowTracks(l, FailKey(ip), MAX_COUNTED, WINDOW, a.t0, a.t1, Counted(fs), a.tLock);
    CountedSnoc(fs, FailureOf(l, ip, a));
  }

  lemma RejectTracks(l: Limiter, ip: string, a: Attempt, fs: seq<Failure>)
    requires KeysInv(l, ip, fs, a.tLock) && InSequence(a)
    ensures Tracks(Stamps(AfterReject(l, ip, a).after, FailKey(ip)), Counted(fs + [FailureOf(l, ip, a)]),
                   MAX_COUNTED, WINDOW, a.tOut)
  {
    CountTracks(l, ip, a, fs);
    RejectShape(l, ip, a);
    var count := Do(l, CountOp(ip, a)).after;
    assert Stamps(AfterReject(l, ip, a).after, FailKey(ip)) == Stamps(count, FailKey(ip));
    TracksLater(Stamps(count, FailKey(ip)), Counted(fs + [FailureOf(l, ip, a)]), MAX_COUNTED, WINDOW, a.t1, a.tOut);
  }

  /** An address that was free is locked out afterwards exactly if the failure found no room. */
  lemma RejectLocks(l: Limiter, ip: string, a: Attempt, key: string)
    requires ActiveLockout(l, key, a.tLock) == None && InSequence(a)
    ensures ActiveLockout(AfterReject(l, ip, a).after, key, a.tOut) ==
            Unexpired(if key == LockKey(ip) then Penalty([FailureOf(l, ip, a)]) else None, a.tOut)
  {
    var count := Do(l, CountOp(ip, a)).after;
    RejectShape(l, ip, a);
    StepLocks(l, CountOp(ip, a), key, a.tLock, None);
    LockoutLater(count, key, None, a.t1, a.tOut);
    StepLocks(count, Lockout(LockKey(ip), WINDOW, a.tOut), key, a.tOut, None);
  }

  lemma PenaltySnoc(fs: seq<Failure>, f: Failure)
    ensures Penalty(fs + [f]) == Penalty([f])
  {
  }

  lemma RejectKeepsKeys(l: Limiter, ip: string, a: Attempt, fs: seq<Failure>)
    requires KeysInv(l, ip, fs, a.tLock) && InSequence(a) && Unexpired(Penalty(fs), a.tLock).None?
    ensures KeysInv(AfterReject(l, ip, a).after, ip, fs + [FailureOf(l, ip, a)], a.tOut)
  {
    KeysDiffer(ip);
    RejectTracks(l, ip, a, fs);
    RejectLocks(l, ip, a, LockKey(ip));
    RejectLocks(l, ip, a, FailKey(ip));
    PenaltySnoc(fs, FailureOf(l, ip, a));
  }

  lemma AppendOrdered(fs: seq<Failure>, f: Failure, now: int, t: int)
    requires Ordered(fs, now) && now <= f.check <= f.counted <= f.out <= t
    requires Unexpired(Penalty(fs), f.check).None?
    ensures Ordered(fs + [f], t)
  {
    var gs := fs + [f];
    forall i, j | 0 <= i < j < |gs| ensures FreeAt(gs[i]) <= gs[j].check {
      if i < |fs| - 1 && j == |fs| {
        assert FreeAt(fs[i]) <= fs[|fs| - 1].check;
      }
    }
  }

  lemma AppendJustified(fs: seq<Failure>, f: Failure)
    requires Justified(fs) && (f.room <==> !Crowded(fs, f.counted))
    ensures Justified(fs + [f])
  {
    assert (fs + [f])[..|fs|] == fs;
  }

  lemma {:induction false} JustifiedAt(fs: seq<Failure>, i: nat)
    requires Justified(fs) && i < |fs|
    ensures fs[i].room <==> !Crowded(fs[..i], fs[i].counted)
  {
    if i < |fs| - 1 {
      JustifiedAt(fs[..|fs| - 1], i);
      assert fs[..|fs| - 1][..i] == fs[..i];
    }
  }

  lemma RejectKeepsInv(l: Limiter, ip: string, a: Attempt, fs: seq<Failure>)
    requires Inv(l, ip, fs, a.tLock) && InSequence(a) && Unexpired(Penalty(fs), a.tLock).None?
    ensures Inv(AfterReject(l, ip, a).after, ip, fs + [FailureOf(l, ip, a)], a.tOut)
  {
    RejectKeepsKeys(l, ip, a, fs);
    RejectCounts(l, ip, a, fs);
    var f := FailureOf(l, ip, a);
    AppendOrdered(fs, f, a.tLock, a.tOut);
    AppendJustified(fs, f);
  }

  // ---------- whole runs ----------

  /** The gate lets a request through exactly when no lockout is called for. */
  lemma GateKeepsInv(l: Limiter, ip: string, t: int, fs: seq<Failure>, now: int)
    requires Inv(l, ip, fs, now) && now <= t
    ensures var gate := Do(l, IsLockedOut(LockKey(ip), t));
            Inv(gate.after, ip, fs, t) && gate.said == Some(Unexpired(Penalty(fs), t).Some?)
  {
    UnrelatedKeepsKeys(l, ip, IsLockedOut(LockKey(ip), t), fs, now);
    OrderedLater(fs, now, t);
    LockoutLater(l, LockKey(ip), Penalty(fs), now, t);
  }

  /** What a login comes to, once the gate has answered. */
  lemma TryShape(l: Limiter, ip: string, a: Attempt, fs: seq<Failure>)
    ensures var gate := Do(l, IsLockedOut(LockKey(ip), a.tLock));
            var fs' := NextFailures(l, ip, Try(a), fs);
            if gate.said == Some(false) && a.credentials == Wrong then
              Handle(l, ip, a).after == AfterReject(gate.after, ip, a).after && fs' == fs + [FailureOf(gate.after, ip, a)]
            else if gate.said == Some(false) && a.credentials == Right then
              Handle(l, ip, a).after == Do(gate.after, Reset(FailKey(ip))).after && fs' == []
            else Handle(l, ip, a).after == gate.after && fs' == fs
  {
    RejectShape(Do(l, IsLockedOut(LockKey(ip), a.tLock)).after, ip, a);
  }

  /** An address that is free starts afresh after a success. */
  lemma SuccessKeepsInv(l: Limiter, ip: string, fs: seq<Failure>, t: int)
    requires KeysInv(l, ip, fs, t) && Unexpired(Penalty(fs), t).None?
    ensures Inv(Do(l, Reset(FailKey(ip))).after, ip, [], t)
  {
    KeysDiffer(ip);
    StepLocks(l, Reset(FailKey(ip)), LockKey(ip), t, Penalty(fs));
    StepLocks(l, Reset(FailKey(ip)), FailKey(ip), t, None);
  }

  lemma TryKeepsInv(l: Limiter, ip: string, a: Attempt, fs: seq<Failure>, now: int)
    requires Inv(l, ip, fs, now) && Admissible(Try(a), ip, now)
    ensures Inv(Handle(l, ip, a).after, ip, NextFailures(l, ip, Try(a), fs), a.tOut)
  {
    GateKeepsInv(l, ip, a.tLock, fs, now);
    TryShape(l, ip, a, fs);
    var gate := Do(l, IsLockedOut(LockKey(ip), a.tLock));
    if gate.said == Some(false) && a.credentials == Wrong {
      RejectKeepsInv(gate.after, ip, a, fs);
    } else if gate.said == Some(false) && a.credentials == Right {
      SuccessKeepsInv(gate.after, ip, fs, a.tLock);
      InvLater(Handle(l, ip, a).after, ip, [], a.tLock, a.tOut);
    } else {
      InvLater(gate.after, ip, fs, a.tLock, a.tOut);
    }
  }

  lemma InvLater(l: Limiter, ip: string, fs: seq<Failure>, now: int, later: int)
    requires Inv(l, ip, fs, now) && now <= later
    ensures Inv(l, ip, fs, later)
  {
    KeysLater(l, ip, fs, now, later);
    OrderedLater(fs, now, later);
  }

  lemma StepKeepsInv(l: Limiter, ip: string, e: Event, fs: seq<Failure>, now: int)
    requires Inv(l, ip, fs, now) && Admissible(e, ip, now)
    ensures Inv(After(l, ip, e), ip, NextFailures(l, ip, e, fs), Clock(e, now))
  {
    match e
    case Try(a) => TryKeepsInv(l, ip, a, fs, now);
    case Other(op) =>
      UnrelatedKeepsKeys(l, ip, op, fs, now);
      OrderedLater(fs, now, ClockAfter(op, now));
  }

  function End(l: Limiter, ip: string, es: seq<Event>): Limiter
    decreases |es|
  {
    if es == [] then l else End(After(l, ip, es[0]), ip, es[1..])
  }

  function ClockAtEnd(es: seq<Event>, now: int): int
    decreases |es|
  {
    if es == [] then now else ClockAtEnd(es[1..], Clock(es[0], now))
  }

  lemma {:induction false} RunKeepsInv(l: Limiter, ip: string, es: seq<Event>, fs: seq<Failure>, now: int)
    requires Inv(l, ip, fs, now) && AllAdmissible(es, ip, now)
    ensures Inv(End(l, ip, es), ip, FailuresFrom(l, ip, es, fs), ClockAtEnd(es, now))
    decreases |es|
  {
    if es != [] {
      StepKeepsInv(l, ip, es[0], fs, now);
      RunKeepsInv(After(l, ip, es[0]), ip, es[1..], NextFailures(l, ip, es[0], fs), Clock(es[0], now));
    }
  }

  lemma Reached(ip: string, es: seq<Event>, start: int)
    requires AllAdmissible(es, ip, start)
    ensures Inv(End(FRESH, ip, es), ip, Failures(ip, es), ClockAtEnd(es, start))
  {
    RunKeepsInv(FRESH, ip, es, [], start);
  }

  // ---------- from the invariant to the bound ----------

  lemma {:induction false} CountedOfRoomy(a: seq<Failure>, b: seq<Failure>)
    requires forall i :: 0 <= i < |b| ==> b[i].room
    ensures |Counted(a + b)| == |Counted(a)| + |b|
    ensures forall i :: 0 <= i < |b| ==> Counted(a + b)[|Counted(a)| + i] == b[i].counted
  {
    if b == [] {
      assert a + b == a;
    } else {
      var init := b[..|b| - 1];
      CountedOfRoomy(a, init);
      assert a + b == (a + init) + [b[|b| - 1]];
      CountedSnoc(a + init, b[|b| - 1]);
    }
  }

  lemma {:induction false} CountedPrefix(a: seq<Failure>, b: seq<Failure>)
    ensures Counted(a) <= Counted(a + b)
  {
    if b == [] {
      assert a + b == a;
    } else {
      CountedPrefix(a, b[..|b| - 1]);
      assert a + b == (a + b[..|b| - 1]) + [b[|b| - 1]];
      CountedSnoc(a + b[..|b| - 1], b[|b| - 1]);
    }
  }

  /** Where ten counted failures in a row sit among all counted ones. */
  lemma RoomyPlace(fs: seq<Failure>, i: nat) returns (p: nat)
    requires i + 10 <= |fs| && forall j :: i <= j < i + 10 ==> fs[j].room
    ensures p + 9 < |Counted(fs)| && Counted(fs)[p] == fs[i].counted && Counted(fs)[p + 9] == fs[i + 9].counted
  {
    var a, b, c := fs[..i], fs[i..i + 10], fs[i + 10..];
    CountedOfRoomy(a, b);
    CountedPrefix(a + b, c);
    assert a + b + c == fs;
    p := |Counted(a)|;
    assert Counted(a + b)[p + 0] == b[0].counted && Counted(a + b)[p + 9] == b[9].counted;
  }

  lemma TenCounted(fs: seq<Failure>, i: nat)
    requires Spaced(Counted(fs), MAX_COUNTED, WINDOW) && i + 10 <= |fs|
    requires forall j :: i <= j < i + 10 ==> fs[j].room
    ensures fs[i].counted + WINDOW <= fs[i + 9].counted
  {
    var p := RoomyPlace(fs, i);
  }

  lemma TenApart(fs: seq<Failure>, i: nat, now: int)
    requires Ordered(fs, now) && Spaced(Counted(fs), MAX_COUNTED, WINDOW) && i + 10 < |fs|
    ensures fs[i].check + WINDOW <= fs[i + 10].check
  {
    if forall j :: i <= j < i + 10 ==> fs[j].room {
      TenCounted(fs, i);
      assert FreeAt(fs[i + 9]) <= fs[i + 10].check;
    } else {
      var j :| i <= j < i + 10 && !fs[j].room;
      assert FreeAt(fs[j]) <= fs[i + 10].check;
      assert i < j ==> FreeAt(fs[i]) <= fs[j].check;
    }
  }

  lemma BoundFromInv(fs: seq<Failure>, now: int, t: int)
    requires Ordered(fs, now) && Spaced(Counted(fs), MAX_COUNTED, WINDOW)
    ensures CountIn(Checks(fs), t - WINDOW, t) <= 10
  {
    var cs := Checks(fs);
    forall i, j | 0 <= i < j < |cs| ensures cs[i] <= cs[j] {
      assert FreeAt(fs[i]) <= fs[j].check;
    }
    forall i, j | 0 <= i && j == i + 10 && j < |cs| ensures cs[i] + WINDOW <= cs[j] {
      TenApart(fs, i, now);
    }
    SpacedCount(cs, 10, WINDOW, t);
  }

  /** Without a success in between, at most ten password checks of the address fail in any 15-minute interval. */
  lemma AtMostTenFailures(ip: string, es: seq<Event>, start: int, t: int)
    requires AllAdmissible(es, ip, start)
    ensures CountIn(Checks(Failures(ip, es)), t - WINDOW, t) <= 10
  {
    Reached(ip, es, start);
    BoundFromInv(Failures(ip, es), ClockAtEnd(es, start), t);
  }

  /** Some failure less than 15 minutes ago had nine counted failures in the 15 minutes before it. */
  ghost predicate DeservesLockout(fs: seq<Failure>, t: int) {
    exists i :: 0 <= i < |fs| && t < fs[i].out + WINDOW && Crowded(fs[..i], fs[i].counted)
  }

  /** Only the latest failure can still call for a lockout. */
  lemma DeservedIsPending(fs: seq<Failure>, now: int, t: int)
    requires Ordered(fs, now) && Justified(fs) && now <= t
    ensures DeservesLockout(fs, t) <==> Unexpired(Penalty(fs), t).Some?
  {
    forall i | 0 <= i < |fs| ensures
      && (fs[i].room <==> !Crowded(fs[..i], fs[i].counted))
      && (i < |fs| - 1 ==> FreeAt(fs[i]) <= t)
    {
      JustifiedAt(fs, i);
      assert i < |fs| - 1 ==> FreeAt(fs[i]) <= fs[|fs| - 1].check;
    }
    if Unexpired(Penalty(fs), t).Some? {
      var k := |fs| - 1;
      assert !fs[k].room && Crowded(fs[..k], fs[k].counted);
    }
  }

  /**
   * What a login comes to after any run. It is turned away as locked out exactly within 15 minutes of a
   * failure that found nine counted failures in the 15 minutes before it, failures before the last success
   * forgotten: nobody is locked out for less, and nobody escapes. Otherwise it passes exactly with the right
   * credentials, and with wrong ones is rejected, counted as long as there is room.
   */
  lemma VerdictIsExact(ip: string, es: seq<Event>, start: int, a: Attempt)
    requires AllAdmissible(es, ip, start) && Admissible(Try(a), ip, ClockAtEnd(es, start))
    ensures var fs := Failures(ip, es);
            Handle(End(FRESH, ip, es), ip, a).verdict ==
            if DeservesLockout(fs, a.tLock) then LockedOut
            else match a.credentials
              case LookupFails => Unavailable
              case Right => Passed
              case Wrong => Rejected(!Crowded(fs, a.t1))
  {
    var l, fs, now := End(FRESH, ip, es), Failures(ip, es), ClockAtEnd(es, start);
    Reached(ip, es, start);
    GateKeepsInv(l, ip, a.tLock, fs, now);
    DeservedIsPending(fs, now, a.tLock);
    var gate := Do(l, IsLockedOut(LockKey(ip), a.tLock)).after;
    RejectCounts(gate, ip, a, fs);
    RejectShape(gate, ip, a);
  }

  lemma KeysApart(ip: string, other: string)
    requires ip != other
    ensures LockKey(ip) != LockKey(other) && FailKey(ip) != FailKey(other)
    ensures LockKey(ip) != FailKey(other) && FailKey(ip) != LockKey(other)
  {
    assert LockKey(ip)[11..] == ip && LockKey(other)[11..] == other;
    assert FailKey(ip)[11..] == ip && FailKey(other)[11..] == other;
    assert LockKey(ip)[6] == LockKey(other)[6] == 'l' && FailKey(ip)[6] == FailKey(other)[6] == 'f';
  }

  /** A login from one address changes nothing for another. */
  lemma OtherAddressesUntouched(l: Limiter, ip: string, a: Attempt, other: string, t: int)
    requires ip != other
    ensures var l' := Handle(l, ip, a).after;
            && Stamps(l', FailKey(other)) == Stamps(l, FailKey(other))
            && (Locked(l', LockKey(other), t) <==> Locked(l, LockKey(other), t))
            && (Locked(l', FailKey(other), t) <==> Locked(l, FailKey(other), t))
  {
    KeysApart(ip, other);
  }
}
