/**
 * The media-loss maximiser and the 32-bit register of lossy updates it feeds: every report is folded
 * into exactly one update, and the register's bits are the verdicts on the latest updates.
 */
module MediaLoss {
  import opened Common

  newtype uint8 = x: int | 0 <= x < 256

  const UPDATE_DELTA := 1_000_000_000          // one second in nanoseconds
  const LOSSY: uint8 := 63                     // uint8(255 * 25 / 100)
  const UNSTABLE_COUNT := 20
  const WIDTH := 32
  const MODULUS := 0x1_0000_0000

  // ---------- the maximiser ----------

  datatype Proxy = Proxy(max: uint8, last: Option<int>, valid: bool)

  function Highest(rs: seq<uint8>): uint8 {
    if rs == [] then 0
    else if Highest(rs[..|rs| - 1]) < rs[|rs| - 1] then rs[|rs| - 1] else Highest(rs[..|rs| - 1])
  }

  /** Highest is the maximum. */
  lemma {:induction false} HighestIsMaximum(rs: seq<uint8>)
    requires rs != []
    ensures Highest(rs) in rs && forall r | r in rs :: r <= Highest(rs)
  {
    var init := rs[..|rs| - 1];
    if init != [] {
      HighestIsMaximum(init);
    }
    assert rs == init + [rs[|rs| - 1]];
  }

  function Fold(p: Proxy, rs: seq<uint8>): Proxy {
    p.(max := if p.max < Highest(rs) then Highest(rs) else p.max, valid := p.valid || rs != [])
  }

  predicate Due(p: Proxy, now: int) {
    p.valid && (p.last.Some? ==> now - p.last.value > UPDATE_DELTA)
  }

  class MediaLossProxy {
    var max: uint8
    var last: Option<int>
    var valid: bool

    ghost function Abs(): Proxy reads this {
      Proxy(max, last, valid)
    }

    constructor ()
      ensures Abs() == Proxy(0, None, false)
    {
      max, last, valid := 0, None, false;
    }

    /** The loop of HandleMaxLossFeedback; NotifySubscriberNodeMediaLoss is the case of one report. */
    method Record(rs: seq<uint8>)
      modifies this
      ensures Abs() == Fold(old(Abs()), rs)
    {
      var i := 0;
      while i < |rs|
        invariant 0 <= i <= |rs|
        invariant Abs() == Fold(old(Abs()), rs[..i])
      {
        assert rs[..i + 1][..i] == rs[..i];
        valid := true;
        if max < rs[i] {
          max := rs[i];
        }
        i := i + 1;
      }
      assert rs[..i] == rs;
    }

    method MaybeUpdate(now: int) returns (update: Option<uint8>)
      modifies this
      ensures update == if Due(old(Abs()), now) then Some(old(max)) else None
      ensures Abs() == if Due(old(Abs()), now) then Proxy(0, Some(now), false) else old(Abs())
    {
      if (last.None? || now - last.value > UPDATE_DELTA) && valid {
        update := Some(max);
        max, last, valid := 0, Some(now), false;
      } else {
        update := None;
      }
    }
  }

  // ---------- the register ----------

  function Ones(n: nat): nat {
    if n == 0 then 0 else n % 2 + Ones(n / 2)
  }

  datatype Shift = Shift(register: nat, fired: bool)

  /** `favourable` is the round-trip and recent-signal test that gates the switch to TCP. */
  function Observe(register: nat, loss: uint8, favourable: bool): Shift {
    var shifted := (register * 2) % MODULUS;
    if loss < LOSSY then Shift(shifted, false)
    else if Ones(shifted + 1) >= UNSTABLE_COUNT && favourable then Shift(0, true)
    else Shift(shifted + 1, false)
  }

  /** The part of the transport manager that keeps the register; `enabled` joins its two settings. */
  class LossMonitor {
    const enabled: bool
    var register: nat

    constructor (enabled: bool)
      ensures this.enabled == enabled && register == 0
    {
      this.enabled := enabled;
      register := 0;
    }

    method OnMediaLossUpdate(loss: uint8, favourable: bool) returns (fired: bool)
      modifies this
      ensures Shift(register, fired) ==
              if enabled then Observe(old(register), loss, favourable) else Shift(old(register), false)
    {
      if !enabled {
        return false;
      }
      register := (register * 2) % MODULUS;
      if loss >= LOSSY {
        register := register + 1;
        if Ones(register) >= UNSTABLE_COUNT && favourable {
          register := 0;
          return true;
        }
      }
      return false;
    }
  }

  /** The number whose binary digits are `h`, the latest last. */
  function Bits(h: seq<bool>): nat {
    if h == [] then 0 else 2 * Bits(h[..|h| - 1]) + if h[|h| - 1] then 1 else 0
  }

  function Count(h: seq<bool>): nat {
    if h == [] then 0 else Count(h[..|h| - 1]) + if h[|h| - 1] then 1 else 0
  }

  function Latest(h: seq<bool>): seq<bool> {
    h[|h| - Min(|h|, WIDTH)..]
  }

  function Pow2(n: nat): nat {
    if n == 0 then 1 else 2 * Pow2(n - 1)
  }

  lemma BitsSnoc(h: seq<bool>, b: bool)
    ensures Bits(h + [b]) == 2 * Bits(h) + if b then 1 else 0
    ensures Count(h + [b]) == Count(h) + if b then 1 else 0
  {
    assert (h + [b])[..|h|] == h;
  }

  lemma OnesStep(n: nat, b: nat)
    requires b < 2
    ensures Ones(2 * n + b) == Ones(n) + b
  {
    assert (2 * n + b) / 2 == n && (2 * n + b) % 2 == b;
  }

  lemma {:induction false} OnesOfBits(h: seq<bool>)
    ensures Ones(Bits(h)) == Count(h)
  {
    if h != [] {
      OnesOfBits(h[..|h| - 1]);
      OnesStep(Bits(h[..|h| - 1]), if h[|h| - 1] then 1 else 0);
    }
  }

  lemma {:induction false} BitsBound(h: seq<bool>)
    ensures Bits(h) < Pow2(|h|)
  {
    if h != [] {
      BitsBound(h[..|h| - 1]);
    }
  }

  lemma {:induction false} BitsHead(h: seq<bool>)
    requires h != []
    ensures Bits(h) == (if h[0] then Pow2(|h| - 1) else 0) + Bits(h[1..])
  {
    if |h| == 1 {
      assert h == [] + [h[0]];
    } else {
      BitsHead(h[..|h| - 1]);
      assert h[..|h| - 1][1..] == h[1..][..|h| - 2];
    }
  }

  lemma {:induction false} Pow2Monotone(a: nat, b: nat)
    requires a <= b
    ensures Pow2(a) <= Pow2(b)
  {
    if a < b {
      Pow2Monotone(a, b - 1);
    }
  }

  lemma {:induction false} Pow2Sum(a: nat, b: nat)
    ensures Pow2(a + b) == Pow2(a) * Pow2(b)
  {
    if a > 0 {
      Pow2Sum(a - 1, b);
    }
  }

  lemma Pow2Width()
    ensures Pow2(31) * 2 == MODULUS
  {
    assert Pow2(4) == 16;
    Pow2Sum(4, 4);
    Pow2Sum(8, 8);
    Pow2Sum(16, 16);
  }

  /** A full register loses its oldest bit in the shift. */
  lemma FullShift(w: seq<bool>)
    requires |w| == WIDTH
    ensures (Bits(w) * 2) % MODULUS == 2 * Bits(w[1..])
  {
    Pow2Width();
    BitsHead(w);
    BitsBound(w[1..]);
  }

  lemma PartialShift(w: seq<bool>)
    requires |w| < WIDTH
    ensures (Bits(w) * 2) % MODULUS == 2 * Bits(w)
  {
    Pow2Width();
    BitsBound(w);
    Pow2Monotone(|w|, 31);
  }

  /** Shifting drops exactly the verdict that falls out of the last 32. */
  lemma ShiftIsSlide(h: seq<bool>, b: bool)
    ensures (Bits(Latest(h)) * 2) % MODULUS + (if b then 1 else 0) == Bits(Latest(h + [b]))
  {
    var w := Latest(h);
    if |h| < WIDTH {
      PartialShift(w);
      assert Latest(h + [b]) == w + [b];
      BitsSnoc(w, b);
    } else {
      FullShift(w);
      assert Latest(h + [b]) == w[1..] + [b];
      BitsSnoc(w[1..], b);
    }
  }

  // ---------- the pipeline ----------

  /**
   * `batches` are the reports of each update and `pending` those not yet in one; `updates` and `times`
   * are the updates made. An update is `unheard` if the callback was removed or fallback is disabled;
   * otherwise it is `inFlight` from the release of the proxy's lock until the register takes it, and
   * `observed` then. `cleared` of the observed ones came before the register was last cleared, and
   * `fires` counts the unstable signals.
   */
  datatype Pipeline = Pipeline(
    proxy: Proxy, batches: seq<seq<uint8>>, pending: seq<uint8>, updates: seq<uint8>, times: seq<int>,
    enabled: bool, listening: bool, unheard: seq<uint8>, inFlight: seq<uint8>, observed: seq<uint8>,
    register: nat, cleared: nat, fires: nat)

  function Start(enabled: bool): Pipeline {
    Pipeline(Proxy(0, None, false), [], [], [], [], enabled, true, [], [], [], 0, 0, 0)
  }

  /**
   * The two critical sections of a report, an update reaching the register, the callback being removed,
   * and the register being cleared.
   */
  datatype Event = Report(rs: seq<uint8>) | Poll(now: int) | Arrive(i: nat, favourable: bool) | Unlisten | Clear

  function Without(s: seq<uint8>, i: nat): seq<uint8>
    requires i < |s|
  {
    s[..i] + s[i + 1..]
  }

  function Update(p: Pipeline, now: int): Pipeline {
    var loss := p.proxy.max;
    var heard := p.listening && p.enabled;
    p.(proxy := Proxy(0, Some(now), false), batches := p.batches + [p.pending], pending := [],
       updates := p.updates + [loss], times := p.times + [now],
       unheard := if heard then p.unheard else p.unheard + [loss],
       inFlight := if heard then p.inFlight + [loss] else p.inFlight)
  }

  function Take(p: Pipeline, i: nat, favourable: bool): Pipeline
    requires i < |p.inFlight|
  {
    var s := Observe(p.register, p.inFlight[i], favourable);
    p.(inFlight := Without(p.inFlight, i), observed := p.observed + [p.inFlight[i]],
       register := s.register,
       cleared := if s.fired then |p.observed| + 1 else p.cleared,
       fires := p.fires + if s.fired then 1 else 0)
  }

  function Step(p: Pipeline, e: Event): Pipeline {
    match e
    case Report(rs) => p.(proxy := Fold(p.proxy, rs), pending := p.pending + rs)
    case Poll(now) => if Due(p.proxy, now) then Update(p, now) else p
    case Arrive(i, favourable) => if i < |p.inFlight| then Take(p, i, favourable) else p
    case Unlisten => p.(listening := false)
    case Clear => p.(register := 0, cleared := |p.observed|)
  }

  function Run(p: Pipeline, es: seq<Event>): Pipeline
    decreases |es|
  {
    if es == [] then p else Run(Step(p, es[0]), es[1..])
  }

  function Reports(es: seq<Event>): seq<uint8> {
    if es == [] then []
    else if es[0].Report? then es[0].rs + Reports(es[1..])
    else Reports(es[1..])
  }

  function Flatten(bs: seq<seq<uint8>>): seq<uint8> {
    if bs == [] then [] else Flatten(bs[..|bs| - 1]) + bs[|bs| - 1]
  }

  // ---------- reports and updates ----------

  ghost predicate ProxyInv(p: Proxy, pending: seq<uint8>, times: seq<int>) {
    && p.max == Highest(pending) && (p.valid <==> pending != [])
    && p.last == (if times == [] then None else Some(times[|times| - 1]))
  }

  /** Each update is the maximum of a non-empty batch. */
  ghost predicate Maxima(batches: seq<seq<uint8>>, updates: seq<uint8>) {
    && |batches| == |updates|
    && (forall i :: 0 <= i < |batches| ==> batches[i] != [] && updates[i] == Highest(batches[i]))
  }

  ghost predicate Apart(times: seq<int>) {
    forall i :: 0 < i < |times| ==> times[i] - times[i - 1] > UPDATE_DELTA
  }

  ghost predicate BatchInv(p: Pipeline, reports: seq<uint8>) {
    && ProxyInv(p.proxy, p.pending, p.times)
    && Maxima(p.batches, p.updates) && |p.times| == |p.updates|
    && Flatten(p.batches) + p.pending == reports
    && Apart(p.times)
  }

  lemma {:induction false} HighestOfBoth(a: seq<uint8>, b: seq<uint8>)
    ensures Highest(a + b) == if Highest(a) < Highest(b) then Highest(b) else Highest(a)
  {
    if b == [] {
      assert a + b == a;
    } else {
      HighestOfBoth(a, b[..|b| - 1]);
      assert (a + b)[..|a + b| - 1] == a + b[..|b| - 1];
    }
  }

  lemma FlattenSnoc(bs: seq<seq<uint8>>, b: seq<uint8>)
    ensures Flatten(bs + [b]) + [] == Flatten(bs) + b
  {
    assert (bs + [b])[..|bs|] == bs;
  }

  lemma MaximaSnoc(batches: seq<seq<uint8>>, updates: seq<uint8>, b: seq<uint8>, m: uint8)
    requires Maxima(batches, updates) && b != [] && m == Highest(b)
    ensures Maxima(batches + [b], updates + [m])
  {
  }

  lemma ApartSnoc(times: seq<int>, now: int)
    requires Apart(times) && (times != [] ==> now - times[|times| - 1] > UPDATE_DELTA)
    ensures Apart(times + [now])
  {
  }

  lemma UpdateKeepsBatches(p: Pipeline, now: int, reports: seq<uint8>)
    requires BatchInv(p, reports) && Due(p.proxy, now)
    ensures BatchInv(Update(p, now), reports)
  {
    FlattenSnoc(p.batches, p.pending);
    MaximaSnoc(p.batches, p.updates, p.pending, p.proxy.max);
    ApartSnoc(p.times, now);
  }

  lemma ReportKeepsBatches(p: Pipeline, rs: seq<uint8>, reports: seq<uint8>)
    requires BatchInv(p, reports)
    ensures BatchInv(Step(p, Report(rs)), reports + rs)
  {
    HighestOfBoth(p.pending, rs);
    Reassociate(Flatten(p.batches), p.pending, rs);
  }

  lemma StepKeepsBatches(p: Pipeline, e: Event, reports: seq<uint8>)
    requires BatchInv(p, reports)
    ensures BatchInv(Step(p, e), if e.Report? then reports + e.rs else reports)
  {
    if e.Report? {
      ReportKeepsBatches(p, e.rs, reports);
    } else if e.Poll? && Due(p.proxy, e.now) {
      UpdateKeepsBatches(p, e.now, reports);
    }
  }

  // ---------- updates and the register ----------

  function Verdicts(losses: seq<uint8>): seq<bool> {
    seq(|losses|, i requires 0 <= i < |losses| => losses[i] >= LOSSY)
  }

  /** The verdicts on the updates the register has taken since it was last cleared. */
  ghost function Seen(p: Pipeline): seq<bool>
    requires p.cleared <= |p.observed|
  {
    Verdicts(p.observed[p.cleared..])
  }

  ghost predicate RegisterInv(p: Pipeline) {
    p.cleared <= |p.observed| && p.register == Bits(Latest(Seen(p)))
  }

  /** Every update is in exactly one place. */
  ghost predicate Conserved(p: Pipeline) {
    multiset(p.updates) == multiset(p.unheard) + multiset(p.inFlight) + multiset(p.observed)
  }

  lemma ObserveSlides(verdicts: seq<bool>, register: nat, loss: uint8, favourable: bool)
    requires register == Bits(Latest(verdicts))
    ensures var s := Observe(register, loss, favourable);
            var seen := verdicts + [loss >= LOSSY];
            && s.register == (if s.fired then 0 else Bits(Latest(seen)))
            && (s.fired <==> Count(Latest(seen)) >= UNSTABLE_COUNT && loss >= LOSSY && favourable)
  {
    var seen := verdicts + [loss >= LOSSY];
    ShiftIsSlide(verdicts, loss >= LOSSY);
    OnesOfBits(Latest(seen));
  }

  lemma VerdictsSnoc(observed: seq<uint8>, cleared: nat, loss: uint8)
    requires cleared <= |observed|
    ensures Verdicts((observed + [loss])[cleared..]) == Verdicts(observed[cleared..]) + [loss >= LOSSY]
  {
    assert (observed + [loss])[cleared..] == observed[cleared..] + [loss];
  }

  lemma NothingSeen(observed: seq<uint8>)
    ensures Bits(Latest(Verdicts(observed[|observed|..]))) == 0
  {
  }

  lemma TakeKeepsRegister(p: Pipeline, i: nat, favourable: bool)
    requires RegisterInv(p) && i < |p.inFlight|
    ensures RegisterInv(Take(p, i, favourable))
  {
    ObserveSlides(Seen(p), p.register, p.inFlight[i], favourable);
    VerdictsSnoc(p.observed, p.cleared, p.inFlight[i]);
    NothingSeen(p.observed + [p.inFlight[i]]);
  }

  lemma StepKeepsRegister(p: Pipeline, e: Event)
    requires RegisterInv(p)
    ensures RegisterInv(Step(p, e))
  {
    if e.Arrive? && e.i < |p.inFlight| {
      TakeKeepsRegister(p, e.i, e.favourable);
    } else if e.Clear? {
      NothingSeen(p.observed);
    }
  }

  lemma MultisetSnoc(s: seq<uint8>, x: uint8)
    ensures multiset(s + [x]) == multiset(s) + multiset{x}
  {
  }

  lemma TakeConserves(p: Pipeline, i: nat, favourable: bool)
    requires Conserved(p) && i < |p.inFlight|
    ensures Conserved(Take(p, i, favourable))
  {
    var x := p.inFlight[i];
    assert p.inFlight == p.inFlight[..i] + [x] + p.inFlight[i + 1..];
    assert multiset(p.inFlight) == multiset(Without(p.inFlight, i)) + multiset{x};
    MultisetSnoc(p.observed, x);
  }

  lemma StepConserves(p: Pipeline, e: Event)
    requires Conserved(p)
    ensures Conserved(Step(p, e))
  {
    if e.Arrive? && e.i < |p.inFlight| {
      TakeConserves(p, e.i, e.favourable);
    } else if e.Poll? {
      MultisetSnoc(p.updates, p.proxy.max);
      MultisetSnoc(p.unheard, p.proxy.max);
      MultisetSnoc(p.inFlight, p.proxy.max);
    }
  }

  // ---------- whole runs ----------

  ghost predicate Inv(p: Pipeline, reports: seq<uint8>) {
    BatchInv(p, reports) && RegisterInv(p) && Conserved(p)
  }

  lemma StepKeepsInv(p: Pipeline, e: Event, reports: seq<uint8>)
    requires Inv(p, reports)
    ensures Inv(Step(p, e), if e.Report? then reports + e.rs else reports)
  {
    StepKeepsBatches(p, e, reports);
    StepKeepsRegister(p, e);
    StepConserves(p, e);
  }

  lemma {:induction false} RunKeepsInv(p: Pipeline, es: seq<Event>, reports: seq<uint8>)
    requires Inv(p, reports)
    ensures Inv(Run(p, es), reports + Reports(es))
    decreases |es|
  {
    if es == [] {
      AppendNothing(reports);
    } else {
      StepKeepsInv(p, es[0], reports);
      if es[0].Report? {
        RunKeepsInv(Step(p, es[0]), es[1..], reports + es[0].rs);
        Reassociate(reports, es[0].rs, Reports(es[1..]));
      } else {
        RunKeepsInv(Step(p, es[0]), es[1..], reports);
      }
    }
  }

  lemma ReachedInv(enabled: bool, es: seq<Event>)
    ensures Inv(Run(Start(enabled), es), Reports(es))
  {
    RunKeepsInv(Start(enabled), es, []);
    AppendNothing(Reports(es));
  }

  /**
   * Through any run, the updates are the maxima of consecutive non-empty batches that together with the
   * pending reports are all reports made, each exactly once and in order; updates are over a second apart.
   */
  lemma EveryReportCountsOnce(enabled: bool, es: seq<Event>, i: nat)
    requires i < |Run(Start(enabled), es).updates|
    ensures var p := Run(Start(enabled), es);
            && |p.batches| == |p.updates| == |p.times|
            && Flatten(p.batches) + p.pending == Reports(es)
            && p.updates[i] in p.batches[i] && (forall r | r in p.batches[i] :: r <= p.updates[i])
            && (i > 0 ==> p.times[i] - p.times[i - 1] > UPDATE_DELTA)
  {
    ReachedInv(enabled, es);
    HighestIsMaximum(Run(Start(enabled), es).batches[i]);
  }

  /**
   * A poll makes an update exactly when reports are pending and the last update is over a second old. The
   * update is the maximum of the pending reports and goes on its way if the callback is in place and
   * fallback enabled, and unheard otherwise.
   */
  lemma UpdatesExactlyWhenDue(enabled: bool, es: seq<Event>, now: int)
    ensures var p := Run(Start(enabled), es);
            var p' := Step(p, Poll(now));
            if p.pending == [] || (p.times != [] && now - p.times[|p.times| - 1] <= 1_000_000_000) then p' == p
            else exists m :: m in p.pending && (forall r | r in p.pending :: r <= m)
                   && p'.updates == p.updates + [m] && p'.times == p.times + [now] && p'.pending == []
                   && p'.inFlight == (if p.listening && enabled then p.inFlight + [m] else p.inFlight)
                   && p'.unheard == (if p.listening && enabled then p.unheard else p.unheard + [m])
                   && p'.register == p.register && p'.observed == p.observed
  {
    ReachedInv(enabled, es);
    RunKeepsEnabled(Start(enabled), es);
    var p := Run(Start(enabled), es);
    DueByReports(p, now);
    if p.pending != [] {
      HighestIsMaximum(p.pending);
    }
  }

  lemma {:induction false} RunKeepsEnabled(p: Pipeline, es: seq<Event>)
    ensures Run(p, es).enabled == p.enabled
    decreases |es|
  {
    if es != [] {
      RunKeepsEnabled(Step(p, es[0]), es[1..]);
    }
  }

  lemma DueByReports(p: Pipeline, now: int)
    requires ProxyInv(p.proxy, p.pending, p.times)
    ensures Due(p.proxy, now) <==> p.pending != [] && (p.times != [] ==> now - p.times[|p.times| - 1] > UPDATE_DELTA)
  {
  }

  /**
   * The register's ones are the lossy ones among the last 32 updates it has taken since it was last
   * cleared, and every update is taken once, still on its way, or not heard at all.
   */
  lemma RegisterCountsLossyUpdates(enabled: bool, es: seq<Event>)
    ensures var p := Run(Start(enabled), es);
            && p.cleared <= |p.observed|
            && Ones(p.register) == Count(Latest(Verdicts(p.observed[p.cleared..]))) && p.register < MODULUS
            && multiset(p.updates) == multiset(p.unheard) + multiset(p.inFlight) + multiset(p.observed)
  {
    ReachedInv(enabled, es);
    var w := Latest(Seen(Run(Start(enabled), es)));
    OnesOfBits(w);
    BitsBound(w);
    Pow2Width();
    Pow2Monotone(|w|, 32);
    Pow2Sum(1, 31);
  }

  /** Clearing the register leaves nothing of what it has taken. */
  lemma ClearForgets(enabled: bool, es: seq<Event>)
    ensures var p := Run(Start(enabled), es);
            var p' := Step(p, Clear);
            p'.register == 0 && p'.cleared == |p'.observed| && p' == p.(register := 0, cleared := p'.cleared)
  {
  }

  lemma {:induction false} NobodyListens(p: Pipeline, es: seq<Event>)
    requires !p.listening
    ensures |Run(p, es).unheard| - |p.unheard| == |Run(p, es).updates| - |p.updates|
    decreases |es|
  {
    if es != [] {
      NobodyListens(Step(p, es[0]), es[1..]);
    }
  }

  /** Once the callback is removed, all further updates go unheard. */
  lemma UnlistenIsFinal(enabled: bool, es: seq<Event>, rest: seq<Event>)
    ensures var p := Run(Start(enabled), es);
            var p' := Run(Step(p, Unlisten), rest);
            |p'.unheard| - |p.unheard| == |p'.updates| - |p.updates|
  {
    NobodyListens(Step(Run(Start(enabled), es), Unlisten), rest);
  }

  // ---------- do updates reach the register in the order they were made? ----------

  /** The updates taken, those on their way and those nobody hears are the updates made, in order. */
  ghost predicate InOrder(p: Pipeline) {
    p.observed + p.inFlight + p.unheard == p.updates
  }

  /** Updates go unheard only from some moment on. */
  ghost predicate HeardInv(p: Pipeline) {
    && (p.listening && p.enabled ==> p.unheard == [])
    && (!p.enabled ==> p.inFlight == [] && p.observed == [])
  }

  /** An update is taken before a different one made earlier. */
  predicate Overtakes(p: Pipeline, e: Event) {
    e.Arrive? && e.i < |p.inFlight| && exists k :: 0 <= k < e.i && p.inFlight[k] != p.inFlight[e.i]
  }

  lemma UpdateInOrder(p: Pipeline, now: int)
    requires HeardInv(p) && InOrder(p)
    ensures InOrder(Update(p, now))
  {
    var loss := p.proxy.max;
    if p.listening && p.enabled {
      assert p.observed + (p.inFlight + [loss]) + [] == p.observed + p.inFlight + [] + [loss];
    } else {
      assert p.observed + p.inFlight + (p.unheard + [loss]) == p.observed + p.inFlight + p.unheard + [loss];
    }
  }

  /** Moving the i-th element to the front changes a list unless all before it are equal to it. */
  lemma MoveToFront(s: seq<uint8>, i: nat)
    requires i < |s|
    ensures [s[i]] + Without(s, i) == s <==> forall k :: 0 <= k < i ==> s[k] == s[i]
  {
    var t := [s[i]] + Without(s, i);
    if forall k :: 0 <= k < i ==> s[k] == s[i] {
      assert forall k :: 0 <= k < |s| ==> t[k] == s[k];
    }
    if t == s {
      FrontIsConstant(s, i, i);
    }
  }

  lemma {:induction false} FrontIsConstant(s: seq<uint8>, i: nat, n: nat)
    requires n <= i < |s| && [s[i]] + Without(s, i) == s
    ensures forall k :: 0 <= k < n ==> s[k] == s[i]
  {
    if n > 0 {
      FrontIsConstant(s, i, n - 1);
      assert n > 1 ==> ([s[i]] + Without(s, i))[n - 1] == s[n - 2];
      assert ([s[i]] + Without(s, i))[n - 1] == s[n - 1];
    }
  }

  /** Equal beginnings and ends leave the middles to decide. */
  lemma MiddlesDecide(a: seq<uint8>, b: seq<uint8>, b': seq<uint8>, c: seq<uint8>)
    requires |b| == |b'|
    ensures a + b + c == a + b' + c <==> b == b'
  {
    if a + b + c == a + b' + c {
      assert (a + b + c)[|a|..|a| + |b|] == b;
      assert (a + b' + c)[|a|..|a| + |b|] == b';
    }
  }

  lemma TakeInOrder(p: Pipeline, i: nat, favourable: bool)
    requires InOrder(p) && i < |p.inFlight|
    ensures InOrder(Take(p, i, favourable)) <==> forall k :: 0 <= k < i ==> p.inFlight[k] == p.inFlight[i]
  {
    var x, rest := p.inFlight[i], Without(p.inFlight, i);
    assert p.observed + [x] + rest + p.unheard == p.observed + ([x] + rest) + p.unheard;
    MiddlesDecide(p.observed, [x] + rest, p.inFlight, p.unheard);
    MoveToFront(p.inFlight, i);
  }

  lemma StepKeepsHeard(p: Pipeline, e: Event)
    requires HeardInv(p)
    ensures HeardInv(Step(p, e))
  {
  }

  lemma StepInOrder(p: Pipeline, e: Event)
    requires HeardInv(p) && InOrder(p)
    ensures InOrder(Step(p, e)) <==> !Overtakes(p, e)
  {
    if e.Arrive? && e.i < |p.inFlight| {
      TakeInOrder(p, e.i, e.favourable);
    } else if e.Poll? {
      UpdateInOrder(p, e.now);
    }
  }

  lemma {:induction false} RunKeepsHeard(p: Pipeline, es: seq<Event>)
    requires HeardInv(p)
    ensures HeardInv(Run(p, es))
    decreases |es|
  {
    if es != [] {
      StepKeepsHeard(p, es[0]);
      RunKeepsHeard(Step(p, es[0]), es[1..]);
    }
  }

  /**
   * In every run, a step upsets the order in which the register gets to see the updates exactly when the
   * register takes an update while a different one, made earlier, is still on its way.
   */
  lemma OrderBreaksExactly(enabled: bool, es: seq<Event>, e: Event)
    requires InOrder(Run(Start(enabled), es))
    ensures InOrder(Step(Run(Start(enabled), es), e)) <==> !Overtakes(Run(Start(enabled), es), e)
  {
    RunKeepsHeard(Start(enabled), es);
    StepInOrder(Run(Start(enabled), es), e);
  }

  /** No update is made while the one before it is on its way. */
  predicate Prompt(p: Pipeline, es: seq<Event>)
    decreases |es|
  {
    es == [] || ((es[0].Poll? && Due(p.proxy, es[0].now) ==> p.inFlight == []) && Prompt(Step(p, es[0]), es[1..]))
  }

  lemma {:induction false} PromptRun(p: Pipeline, es: seq<Event>)
    requires HeardInv(p) && InOrder(p) && |p.inFlight| <= 1 && Prompt(p, es)
    ensures InOrder(Run(p, es)) && |Run(p, es).inFlight| <= 1
    decreases |es|
  {
    if es != [] {
      StepKeepsHeard(p, es[0]);
      StepInOrder(p, es[0]);
      PromptRun(Step(p, es[0]), es[1..]);
    }
  }

  /** If each update reaches the register before the next one is made, the register sees them in order. */
  lemma PromptUpdatesStayInOrder(enabled: bool, es: seq<Event>)
    requires Prompt(Start(enabled), es)
    ensures InOrder(Run(Start(enabled), es))
  {
    PromptRun(Start(enabled), es);
  }

  /** Whenever the latest update is more than a second old, nothing is on its way. */
  predicate TakenWithinASecond(p: Pipeline, es: seq<Event>)
    decreases |es|
  {
    es == [] ||
    (&& (es[0].Poll? && p.times != [] && es[0].now - p.times[|p.times| - 1] > UPDATE_DELTA ==> p.inFlight == [])
     && TakenWithinASecond(Step(p, es[0]), es[1..]))
  }

  lemma {:induction false} SecondsArePrompt(p: Pipeline, es: seq<Event>, reports: seq<uint8>)
    requires Inv(p, reports) && TakenWithinASecond(p, es) && (p.times == [] ==> p.inFlight == [])
    ensures Prompt(p, es)
    decreases |es|
  {
    if es != [] {
      StepKeepsInv(p, es[0], reports);
      if es[0].Poll? {
        DueByReports(p, es[0].now);
      }
      SecondsArePrompt(Step(p, es[0]), es[1..], if es[0].Report? then reports + es[0].rs else reports);
    }
  }

  /** As updates are over a second apart, none that reaches the register within a second is overtaken. */
  lemma UpdatesWithinASecondStayInOrder(enabled: bool, es: seq<Event>)
    requires TakenWithinASecond(Start(enabled), es)
    ensures InOrder(Run(Start(enabled), es))
  {
    SecondsArePrompt(Start(enabled), es, []);
    PromptUpdatesStayInOrder(enabled, es);
  }

  lemma OneUpdate(p: Pipeline, r: uint8, now: int)
    requires p.enabled && p.listening && p.pending == [] && p.proxy.max == 0 && !p.proxy.valid
    requires p.proxy.last.Some? ==> now - p.proxy.last.value > UPDATE_DELTA
    ensures var p' := Step(Step(p, Report([r])), Poll(now));
            && p'.enabled && p'.listening && p'.pending == [] && p'.proxy == Proxy(0, Some(now), false)
            && p'.updates == p.updates + [r] && p'.inFlight == p.inFlight + [r] && p'.observed == p.observed
  {
    assert [r][..0] == [];
    assert Highest([r]) == r;
  }

  /** Overtaking does happen: any two updates can reach the register in the wrong order. */
  lemma UpdatesCanSwap(a: uint8, b: uint8, t: int, t': int, favourable: bool)
    requires t' - t > UPDATE_DELTA
    ensures var p := Run(Start(true), [Report([a]), Poll(t), Report([b]), Poll(t'), Arrive(1, favourable)]);
            p.updates == [a, b] && p.observed == [b] && p.inFlight == [a] && (InOrder(p) <==> a == b)
  {
    var es := [Report([a]), Poll(t), Report([b]), Poll(t'), Arrive(1, favourable)];
    Suffixes(es);
    var p := Start(true);
    var p1 := Step(p, es[0]);
    var p2 := Step(p1, es[1]);
    OneUpdate(p, a, t);
    assert Run(p, es[0..]) == Run(p1, es[1..]);
    assert Run(p1, es[1..]) == Run(p2, es[2..]);
    var p3 := Step(p2, es[2]);
    var p4 := Step(p3, es[3]);
    OneUpdate(p2, b, t');
    assert Run(p2, es[2..]) == Run(p3, es[3..]);
    assert Run(p3, es[3..]) == Run(p4, es[4..]);
    var p5 := Step(p4, es[4]);
    assert Run(p4, es[4..]) == Run(p5, es[5..]);
    SwapLast(p4, a, b, favourable);
  }

  lemma SwapLast(p: Pipeline, a: uint8, b: uint8, favourable: bool)
    requires p.inFlight == [a, b] && p.observed == []
    ensures var p' := Step(p, Arrive(1, favourable));
            p'.observed == [b] && p'.inFlight == [a] && p'.updates == p.updates && p'.unheard == p.unheard
  {
    assert [a, b][..1] + [a, b][2..] == [a];
  }

  /**
   * The unstable signal fires exactly when a lossy update arrives under favourable conditions and makes
   * 20 among the last 32; the register then starts afresh.
   */
  lemma FiresExactlyWhenUnstable(enabled: bool, es: seq<Event>, e: Event)
    ensures var p := Run(Start(enabled), es);
            && p.cleared <= |p.observed|
            && Step(p, e).fires == p.fires + (if
                 && e.Arrive? && e.i < |p.inFlight| && e.favourable && p.inFlight[e.i] >= LOSSY
                 && Count(Latest(Verdicts(p.observed[p.cleared..]) + [true])) >= UNSTABLE_COUNT then 1 else 0)
            && (Step(p, e).fires != p.fires ==> Step(p, e).register == 0 && Step(p, e).cleared == |Step(p, e).observed|)
  {
    ReachedInv(enabled, es);
    var p := Run(Start(enabled), es);
    if e.Arrive? && e.i < |p.inFlight| {
      TakeFires(p, e.i, e.favourable);
    }
  }

  lemma TakeFires(p: Pipeline, i: nat, favourable: bool)
    requires RegisterInv(p) && i < |p.inFlight|
    ensures var p' := Take(p, i, favourable);
            && p'.fires == p.fires + (if favourable && p.inFlight[i] >= LOSSY
                                         && Count(Latest(Seen(p) + [true])) >= UNSTABLE_COUNT then 1 else 0)
            && (p'.fires != p.fires ==> p'.register == 0 && p'.cleared == |p'.observed|)
  {
    ObserveSlides(Seen(p), p.register, p.inFlight[i], favourable);
  }
}
