/**
 * The ICE fallback controller. A failure handler decides under the lock and applies the new
 * configuration in a second critical section; runs interleave both sections freely.
 */
module IceFallback {
  import opened Common

  const FAILURE_THRESHOLD := 2
  const MINUTE := 60_000_000_000

  datatype Candidate = ANY | TCP | TLS
  datatype Connection = UNKNOWN | OVER_UDP | OVER_TCP | OVER_TURN

  datatype Config = Config(subscriber: Candidate, publisher: Candidate)

  /** What the handler reads besides its own state. `canTCP` joins client support and the RTT test. */
  datatype Circumstances = Circumstances(
    enabled: bool,            // AllowTCPFallback and not one-shot signalling
    recentSignal: bool,       // a recent signal from a valid source
    connection: Connection,   // lowest priority connection type of the two transports
    canTCP: bool,
    turns: bool)

  /** `pending` are the failure handlers between their two critical sections. */
  datatype Transport = Transport(
    failureCount: nat, reconfigured: bool, lastFailure: Option<int>, config: Config, pending: seq<Candidate>)

  const FRESH := Transport(0, false, None, Config(ANY, ANY), [])

  function Next(preference: Candidate, c: Circumstances): Candidate {
    match c.connection
    case OVER_UDP => if preference != ANY then ANY else if c.canTCP then TCP else if c.turns then TLS else ANY
    case OVER_TCP => if c.turns then TLS else preference
    case OVER_TURN => preference
    case UNKNOWN => ANY
  }

  function ResetTo(t: Transport, reconfigured: bool): Transport {
    t.(failureCount := 0, reconfigured := reconfigured, lastFailure := None)
  }

  /** `now` is when lastFailure is set, `now'` when the elapsed time is taken. */
  function Fail(t: Transport, short: bool, now: int, now': int, c: Circumstances): Transport {
    if !c.enabled || t.reconfigured then t
    else if !c.recentSignal then t.(failureCount := 0, lastFailure := None)
    else
      var counted := if short then t else t.(failureCount := t.failureCount + 1, lastFailure := Some(now));
      var soon := t.lastFailure.Some? && now' - t.lastFailure.value <= MINUTE;
      var next := Next(t.config.subscriber, c);
      if (!short && (counted.failureCount < FAILURE_THRESHOLD || !soon)) || next == t.config.subscriber then counted
      else counted.(reconfigured := true, pending := t.pending + [next])
  }

  function Configure(t: Transport, config: Config, reset: bool): Transport {
    if config == t.config then (if reset then ResetTo(t, false) else t)
    else ResetTo(t, !reset).(config := config)
  }

  // ---------- runs ----------

  datatype Event =
    | Failure(short: bool, now: int, now': int, c: Circumstances)
    | Apply(i: nat)                 // a failure handler reaches configureICE
    | SetConfig(config: Config)     // SetICEConfig or ICERestart
    | ShortReconnect                // the reset of HandleClientReconnect; its failure follows as a Failure

  /**
   * Since the last explicit reset: `changes` of the configuration by failure handlers, `decided` and
   * `applied` handlers, the handlers `inherited` in flight at the reset, the configuration `base` left by
   * it and the `choice` a failure made from there. `latest` is the failure counted last since the reset,
   * forgotten when the signal is found interrupted or a change is applied; `counted` lists all ever.
   */
  datatype World = World(
    t: Transport, changes: nat, decided: nat, applied: nat, inherited: nat,
    base: Config, choice: Option<Candidate>, latest: Option<int>, counted: seq<int>)

  const START := World(FRESH, 0, 0, 0, 0, Config(ANY, ANY), None, None, [])

  /** The failure is looked at: fallback is enabled and no change was decided or applied since the reset. */
  predicate Considered(w: World, e: Event) {
    e.Failure? && e.c.enabled && w.decided == 0 && w.changes == 0
  }

  predicate Counts(w: World, e: Event) {
    Considered(w, e) && e.c.recentSignal && !e.short
  }

  function Step(w: World, e: Event): World {
    match e
    case Failure(short, now, now', c) =>
      var t' := Fail(w.t, short, now, now', c);
      var decides := |t'.pending| - |w.t.pending|;
      w.(t := t', decided := w.decided + decides,
         choice := if decides > 0 then Some(Next(w.base.subscriber, c)) else w.choice,
         latest := if Counts(w, e) then Some(now) else if Considered(w, e) && !c.recentSignal then None else w.latest,
         counted := if Counts(w, e) then w.counted + [now] else w.counted)
    case Apply(i) =>
      if i >= |w.t.pending| then w
      else
        var p := w.t.pending[i];
        var t' := Configure(w.t.(pending := w.t.pending[..i] + w.t.pending[i + 1..]), Config(p, p), false);
        var changed := t'.config != w.t.config;
        w.(t := t', applied := w.applied + 1, changes := w.changes + (if changed then 1 else 0),
           latest := if changed then None else w.latest)
    case SetConfig(config) => AfterReset(w, Configure(w.t, config, true))
    case ShortReconnect => AfterReset(w, ResetTo(w.t, false))
  }

  function AfterReset(w: World, t: Transport): World {
    World(t, 0, 0, 0, |t.pending|, t.config, None, None, w.counted)
  }

  function Run(w: World, es: seq<Event>): World
    decreases |es|
  {
    if es == [] then w else Run(Step(w, es[0]), es[1..])
  }

  ghost predicate Inv(w: World) {
    && |w.t.pending| + w.applied == w.inherited + w.decided
    && w.changes <= w.applied
    && w.decided <= 1 && (w.t.reconfigured <==> w.decided + w.changes > 0)
    && (w.t.failureCount > 0 <==> w.t.lastFailure.Some?) && w.t.lastFailure == w.latest
    && (w.latest.Some? ==> w.counted != [] && w.latest.value == w.counted[|w.counted| - 1])
  }

  /** Without handlers from before the reset, the configuration is the base or the choice made from it. */
  ghost predicate Settled(w: World) {
    w.inherited == 0 ==>
      && w.changes == w.applied
      && (w.decided == 1 ==> w.choice.Some? && w.choice.value != w.base.subscriber)
      && (w.applied == 0 ==> w.t.config == w.base)
      && (w.applied == 0 && w.decided == 1 ==> w.t.pending == [w.choice.value])
      && (w.applied == 1 ==> w.decided == 1 && w.t.config == Config(w.choice.value, w.choice.value))
  }

  lemma StepKeepsInv(w: World, e: Event)
    requires Inv(w)
    ensures Inv(Step(w, e))
  {
  }

  lemma StepSettles(w: World, e: Event)
    requires Inv(w) && Settled(w)
    ensures Settled(Step(w, e))
  {
    assert w.inherited == 0 ==> w.applied <= 1;
  }

  lemma {:induction false} RunKeepsInv(w: World, es: seq<Event>)
    requires Inv(w) && Settled(w)
    ensures Inv(Run(w, es)) && Settled(Run(w, es))
    decreases |es|
  {
    if es != [] {
      StepKeepsInv(w, es[0]);
      StepSettles(w, es[0]);
      RunKeepsInv(Step(w, es[0]), es[1..]);
    }
  }

  /**
   * Between explicit resets, failures change the configuration at most once more than there were
   * handlers in flight at the reset; at most once if there were none.
   */
  lemma FailuresChangeAtMostOnce(es: seq<Event>)
    ensures var w := Run(START, es); w.changes <= w.inherited + 1
  {
    RunKeepsInv(START, es);
  }

  // ---------- the bound is attained for every number of handlers in flight ----------

  /** The k-th failure prefers TCP or TLS by turns. */
  function Wish(k: nat): Candidate {
    if k % 2 == 0 then TCP else TLS
  }

  function Wishes(from: nat, last: nat): seq<Candidate>
    requires from <= last
  {
    seq(last - from, i requires 0 <= i < last - from => Wish(from + i))
  }

  function WishfulFailure(k: nat): Event {
    Failure(true, k, k, Circumstances(true, true, OVER_UDP, k % 2 == 0, true))
  }

  /** n failures, each followed by a reset before its handler gets on. */
  function Prelude(n: nat): seq<Event> {
    if n == 0 then [] else Prelude(n - 1) + [WishfulFailure(n - 1), ShortReconnect]
  }

  function Applies(n: nat): seq<Event> {
    if n == 0 then [] else [Apply(0)] + Applies(n - 1)
  }

  lemma {:induction false} RunAppend(w: World, a: seq<Event>, b: seq<Event>)
    ensures Run(w, a + b) == Run(Run(w, a), b)
    decreases |a|
  {
    if a == [] {
      AppendNothing(b);
    } else {
      assert (a + b)[1..] == a[1..] + b;
      RunAppend(Step(w, a[0]), a[1..], b);
    }
  }

  lemma RunTwo(w: World, a: Event, b: Event)
    ensures Run(w, [a, b]) == Step(Step(w, a), b)
  {
    assert [a, b][1..] == [b] && [b][1..] == [];
    assert Run(Step(w, a), [b]) == Step(Step(w, a), b);
  }

  /** After a reset with n handlers in flight. */
  function Crowded(n: nat): World {
    World(Transport(0, false, None, Config(ANY, ANY), Wishes(0, n)), 0, 0, 0, n, Config(ANY, ANY), None, None, [])
  }

  /** One more failure is decided. */
  lemma OneMore(n: nat)
    ensures Step(Crowded(n), WishfulFailure(n)) ==
            World(Transport(0, true, None, Config(ANY, ANY), Wishes(0, n + 1)), 0, 1, 0, n, Config(ANY, ANY), Some(Wish(n)), None, [])
  {
    assert Wishes(0, n) + [Wish(n)] == Wishes(0, n + 1);
  }

  lemma OneMoreCrowded(n: nat)
    ensures Run(Crowded(n), [WishfulFailure(n), ShortReconnect]) == Crowded(n + 1)
  {
    RunTwo(Crowded(n), WishfulFailure(n), ShortReconnect);
    OneMore(n);
  }

  lemma {:induction false} AfterPrelude(n: nat)
    ensures Run(START, Prelude(n)) == Crowded(n)
  {
    if n > 0 {
      AfterPrelude(n - 1);
      RunAppend(START, Prelude(n - 1), [WishfulFailure(n - 1), ShortReconnect]);
      OneMoreCrowded(n - 1);
    }
  }

  lemma WishesDiffer(k: nat)
    ensures Wish(k) != Wish(k + 1)
  {
  }

  lemma ApplyFirst(w: World, from: nat, last: nat)
    requires from < last && w.t.pending == Wishes(from, last) && w.t.config.subscriber != Wish(from)
    ensures var w' := Step(w, Apply(0));
            && w'.t.pending == Wishes(from + 1, last) && w'.t.config.subscriber == Wish(from)
            && w'.changes == w.changes + 1 && w'.inherited == w.inherited
  {
    assert Wishes(from, last)[..0] + Wishes(from, last)[1..] == Wishes(from + 1, last);
  }

  lemma RunFirst(w: World, e: Event, es: seq<Event>)
    ensures Run(w, [e] + es) == Run(Step(w, e), es)
  {
    assert ([e] + es)[1..] == es;
  }

  /** Each of the handlers in flight changes the configuration. */
  lemma {:induction false} AppliesChange(w: World, from: nat, last: nat)
    requires from <= last && w.t.pending == Wishes(from, last) && w.t.config.subscriber != Wish(from)
    ensures var w' := Run(w, Applies(last - from));
            w'.changes == w.changes + (last - from) && w'.inherited == w.inherited
    decreases last - from
  {
    if from < last {
      ApplyFirst(w, from, last);
      WishesDiffer(from);
      AppliesChange(Step(w, Apply(0)), from + 1, last);
      RunFirst(w, Apply(0), Applies(last - from - 1));
    }
  }

  lemma AllChange(n: nat)
    ensures var w := Run(Crowded(n), [WishfulFailure(n)] + Applies(n + 1));
            w.inherited == n && w.changes == n + 1
  {
    var decided := Step(Crowded(n), WishfulFailure(n));
    RunFirst(Crowded(n), WishfulFailure(n), Applies(n + 1));
    OneMore(n);
    AppliesChange(decided, 0, n + 1);
  }

  /**
   * The allowance is needed in full: for every n there is a run in which n handlers are in flight at a
   * reset and failures change the configuration n + 1 times after it.
   */
  lemma InFlightHandlersChangeAgain(n: nat)
    ensures var w := Run(START, Prelude(n) + ([WishfulFailure(n)] + Applies(n + 1)));
            w.inherited == n && w.changes == n + 1
  {
    RunAppend(START, Prelude(n), [WishfulFailure(n)] + Applies(n + 1));
    AfterPrelude(n);
    AllChange(n);
  }

  /** The failure passes every test but the search for another candidate. */
  predicate Passes(w: World, e: Event) {
    && Considered(w, e) && e.c.recentSignal
    && (e.short || (w.latest.Some? && e.now' - w.latest.value <= MINUTE))
  }

  predicate DecidesOn(w: World, e: Event, p: Candidate) {
    Step(w, e).t.pending == w.t.pending + [p]
  }

  /**
   * When a failure decides, and on what. It must find fallback enabled and the signal alive, be the first
   * to decide or change anything since the reset, and be short-lived or within a minute of the failure
   * counted last. TCP is decided only after UDP with nothing preferred, where TCP can be used; TLS only
   * where TURN/TLS is enabled and not preferred yet, after TCP or, for want of TCP, after UDP with nothing
   * preferred; the return to everything only after UDP or an unknown connection with something preferred.
   * Over TURN nothing is decided.
   */
  lemma DecisionTable(es: seq<Event>, e: Event)
    requires e.Failure?
    ensures var w := Run(START, es);
            var preferred, over := w.t.config.subscriber, e.c.connection;
            && (DecidesOn(w, e, TCP) <==> Passes(w, e) && over == OVER_UDP && preferred == ANY && e.c.canTCP)
            && (DecidesOn(w, e, TLS) <==>
                  && Passes(w, e) && e.c.turns && preferred != TLS
                  && (over == OVER_TCP || (over == OVER_UDP && preferred == ANY && !e.c.canTCP)))
            && (DecidesOn(w, e, ANY) <==> Passes(w, e) && preferred != ANY && (over == OVER_UDP || over == UNKNOWN))
            && (Step(w, e).t.pending == w.t.pending || exists p :: DecidesOn(w, e, p))
            && Step(w, e).t.config == w.t.config
  {
    RunKeepsInv(START, es);
    var w := Run(START, es);
    DecidesOnNext(w, e, TCP);
    DecidesOnNext(w, e, TLS);
    DecidesOnNext(w, e, ANY);
    assert Step(w, e).t.pending != w.t.pending ==> DecidesOn(w, e, Next(w.t.config.subscriber, e.c));
  }

  lemma DecidesOnNext(w: World, e: Event, p: Candidate)
    requires Inv(w) && e.Failure?
    ensures DecidesOn(w, e, p) <==>
            Passes(w, e) && Next(w.t.config.subscriber, e.c) == p && p != w.t.config.subscriber
  {
    var q := Next(w.t.config.subscriber, e.c);
    if DecidesOn(w, e, p) {
      assert (w.t.pending + [p])[|w.t.pending|] == p && (w.t.pending + [q])[|w.t.pending|] == q;
    }
  }

  /** An explicit reset puts its configuration in force and forgets every failure and decision before it. */
  lemma ResetStartsAfresh(es: seq<Event>, e: Event)
    requires e.SetConfig? || e.ShortReconnect?
    ensures var w := Run(START, es);
            var w' := Step(w, e);
            && w'.t.config == (if e.SetConfig? then e.config else w.t.config)
            && w'.t.pending == w.t.pending
            && !w'.t.reconfigured && w'.t.failureCount == 0 && w'.t.lastFailure.None?
  {
  }

  /** A failure that is not short-lived decides on a change only after a counted failure in the last minute. */
  lemma SecondFailureWithinAMinute(es: seq<Event>, e: Event)
    requires e.Failure? && !e.short && e.now <= e.now'
    requires Step(Run(START, es), e).decided != Run(START, es).decided
    ensures var w := Run(START, es);
            w.counted != [] && e.now - w.counted[|w.counted| - 1] <= MINUTE
  {
    RunKeepsInv(START, es);
  }

  /**
   * With no handler in flight at the last reset, the configuration in force is the one of that reset
   * until the one handler that may be decided has been applied; then both transports prefer what a
   * failure chose for the configuration of the reset, which is never what was preferred before.
   */
  lemma AppliedChangeIsInForce(es: seq<Event>)
    requires Run(START, es).inherited == 0
    ensures var w := Run(START, es);
            && w.changes == w.applied <= w.decided <= 1
            && (w.applied == 0 ==> w.t.config == w.base)
            && (w.applied == 1 ==>
                  && w.choice.Some? && w.choice.value != w.base.subscriber
                  && w.t.config == Config(w.choice.value, w.choice.value))
  {
    RunKeepsInv(START, es);
  }

  // ---------- the source's object ----------

  class TransportManager {
    var failureCount: nat
    var reconfigured: bool
    var lastFailure: Option<int>
    var config: Config
    var pending: seq<Candidate>

    ghost function Abs(): Transport reads this {
      Transport(failureCount, reconfigured, lastFailure, config, pending)
    }

    constructor ()
      ensures Abs() == FRESH
    {
      failureCount, reconfigured, lastFailure := 0, false, None;
      config, pending := Config(ANY, ANY), [];
    }

    method ResetTransportConfigure(flag: bool)
      modifies this
      ensures Abs() == ResetTo(old(Abs()), flag)
    {
      failureCount, reconfigured, lastFailure := 0, flag, None;
    }

    /** Up to the release of the lock; a decided change is then in flight. */
    method HandleConnectionFailed(short: bool, now: int, now': int, c: Circumstances)
      modifies this
      ensures Abs() == Fail(old(Abs()), short, now, now', c)
    {
      if !c.enabled || reconfigured {
        return;
      }
      if !c.recentSignal {
        failureCount, lastFailure := 0, None;
        return;
      }
      if !short {
        failureCount := failureCount + 1;
        var previous := lastFailure;
        lastFailure := Some(now);
        if failureCount < FAILURE_THRESHOLD || previous.None? || now' - previous.value > MINUTE {
          return;
        }
      }
      var next := Next(config.subscriber, c);
      if next == config.subscriber {
        return;
      }
      reconfigured := true;
      pending := pending + [next];
    }

    method ConfigureICE(c: Config, reset: bool)
      modifies this
      ensures Abs() == Configure(old(Abs()), c, reset)
    {
      var isEqual := config == c;
      if reset || !isEqual {
        ResetTransportConfigure(!reset);
      }
      if isEqual {
        return;
      }
      config := c;
    }
  }
}
