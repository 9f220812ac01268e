/**
 * Loss counting over 16-bit sequence numbers. Packets have an unbounded index of which the wire
 * carries the low 16 bits; the statistics see only those.
 */
module DataTrackStats {
  import opened Common

  const SPAN := 0x1_0000
  const HALF := 0x8000

  newtype uint16 = x: int | 0 <= x < 0x1_0000

  function Wire(x: nat): uint16 { (x % SPAN) as uint16 }

  /** Go's uint16 subtraction. */
  function Minus(a: uint16, b: uint16): uint16 {
    ((a as int - b as int) % SPAN) as uint16
  }

  datatype Stats = Stats(
    startTime: int, endTime: int, highest: uint16,
    packets: nat, lost: nat, outOfOrder: nat, frames: nat)

  const FRESH := Stats(0, 0, 0, 0, 0, 0, 0)

  function Update(d: Stats, number: uint16, final: bool, arrival: int): Stats {
    if d.endTime != 0 then d
    else
      var frames := d.frames + if final then 1 else 0;
      if d.startTime == 0 then d.(startTime := arrival, highest := number, packets := 1, frames := frames)
      else
        var diff := Minus(number, d.highest) as int;
        if diff == 0 then d
        else if diff > HALF then
          d.(packets := d.packets + 1, outOfOrder := d.outOfOrder + 1, frames := frames,
             lost := if d.lost > 0 then d.lost - 1 else 0)
        else
          d.(packets := d.packets + 1, lost := d.lost + diff - 1, highest := number, frames := frames)
  }

  class DataTrackStats {
    var startTime: int
    var endTime: int
    var highest: uint16
    var packets: nat
    var lost: nat
    var outOfOrder: nat
    var frames: nat

    ghost function Abs(): Stats reads this {
      Stats(startTime, endTime, highest, packets, lost, outOfOrder, frames)
    }

    constructor ()
      ensures Abs() == FRESH
    {
      startTime, endTime, highest, packets, lost, outOfOrder, frames := 0, 0, 0, 0, 0, 0, 0;
    }

    method Receive(number: uint16, final: bool, arrival: int)
      modifies this
      ensures Abs() == Update(old(Abs()), number, final, arrival)
    {
      if endTime != 0 {
        return;
      }
      if startTime == 0 {
        startTime, highest, packets := arrival, number, 1;
      } else {
        var diff := Minus(number, highest);
        if diff == 0 {
          return;
        } else if diff as int > HALF {
          packets, outOfOrder := packets + 1, outOfOrder + 1;
          if lost > 0 {
            lost := lost - 1;
          }
        } else {
          packets := packets + 1;
          lost := lost + diff as int - 1;
          highest := number;
        }
      }
      if final {
        frames := frames + 1;
      }
    }

    /** After Close, at any time but 0, the counters are frozen whatever still arrives. */
    method Close(now: int)
      modifies this
      ensures Abs() == old(Abs()).(endTime := now)
      ensures (forall ps :: Run(Abs(), ps) == Abs()) <==> now != 0
    {
      endTime := now;
      FrozenExactlyWhen(Abs());
    }
  }

  // ---------- runs over true indices ----------

  datatype Packet = Packet(index: nat, final: bool, arrival: int)

  function Run(d: Stats, ps: seq<Packet>): Stats
    decreases |ps|
  {
    if ps == [] then d else Run(Update(d, Wire(ps[0].index), ps[0].final, ps[0].arrival), ps[1..])
  }

  lemma {:induction false} ClosedIgnores(d: Stats, ps: seq<Packet>)
    requires d.endTime != 0
    ensures Run(d, ps) == d
    decreases |ps|
  {
    if ps != [] {
      ClosedIgnores(d, ps[1..]);
    }
  }

  lemma RunOfOne(d: Stats, p: Packet)
    ensures Run(d, [p]) == Update(d, Wire(p.index), p.final, p.arrival)
  {
    assert [p][1..] == [];
  }

  /** The packet after the highest one leaves its mark on open statistics. */
  lemma OpenNotices(d: Stats, p: Packet)
    requires d.endTime == 0 && p == Packet(d.highest as int + 1, false, 1)
    ensures Update(d, Wire(p.index), p.final, p.arrival) != d
  {
    MinusIsDistance(p.index, d.highest as int);
  }

  /** Statistics are out of reach of every further run of arrivals exactly when they have an end time. */
  lemma FrozenExactlyWhen(d: Stats)
    ensures (forall ps :: Run(d, ps) == d) <==> d.endTime != 0
  {
    if d.endTime != 0 {
      forall ps ensures Run(d, ps) == d {
        ClosedIgnores(d, ps);
      }
    } else {
      var p := Packet(d.highest as int + 1, false, 1);
      OpenNotices(d, p);
      RunOfOne(d, p);
    }
  }

  /** The indices between first and highest that have not been received. */
  function Missing(first: nat, high: nat, received: set<nat>): set<nat> {
    Interval(first, high + 1) - received
  }

  function Interval(a: nat, b: nat): (s: set<nat>)
    ensures forall y: nat :: y in s <==> a <= y < b
    ensures |s| == if a <= b then b - a else 0
    decreases b
  {
    if b <= a then {} else Interval(a, b - 1) + {b - 1}
  }

  /** Within half the number space of the highest index so far. */
  predicate Near(x: nat, high: nat) {
    high - HALF < x <= high + HALF
  }

  /** The statistics describe exactly the indices received so far, of which `first` came first. */
  ghost predicate Exact(d: Stats, first: nat, high: nat, received: set<nat>) {
    && d.endTime == 0 && d.startTime != 0
    && d.highest == Wire(high)
    && d.lost == |Missing(first, high, received)|
    && first <= high && high in received
    && (forall y | y in received :: y <= high)
  }

  lemma MinusIsDistance(x: nat, high: nat)
    requires Near(x, high)
    ensures Minus(Wire(x), Wire(high)) as int == if high <= x then x - high else SPAN + x - high
  {
    var a, b := x / SPAN, high / SPAN;
    assert x == SPAN * a + x % SPAN && high == SPAN * b + high % SPAN;
  }

  lemma MissingGrows(first: nat, high: nat, x: nat, received: set<nat>)
    requires first <= high < x && forall y | y in received :: y <= high
    ensures |Missing(first, x, received + {x})| == |Missing(first, high, received)| + (x - high - 1)
  {
    assert Missing(first, x, received + {x}) == Missing(first, high, received) + Interval(high + 1, x);
  }

  lemma MissingShrinks(first: nat, high: nat, x: nat, received: set<nat>)
    requires x in Missing(first, high, received)
    ensures |Missing(first, high, received + {x})| == |Missing(first, high, received)| - 1
  {
    assert Missing(first, high, received) == Missing(first, high, received + {x}) + {x};
  }

  lemma MissingAfter(first: nat, high: nat, x: nat, received: set<nat>)
    requires first <= high && forall y | y in received :: y <= high
    ensures |Missing(first, Max(high, x), received + {x})| ==
            |Missing(first, high, received)|
            + (if x > high then x - high - 1 else if x in Missing(first, high, received) then -1 else 0)
  {
    if x > high {
      MissingGrows(first, high, x, received);
    } else if x in Missing(first, high, received) {
      MissingShrinks(first, high, x, received);
    } else {
      assert Missing(first, high, received + {x}) == Missing(first, high, received);
    }
  }

  /** What an arrival near the highest index does, in terms of true indices. */
  lemma UpdateShape(d: Stats, high: nat, p: Packet)
    requires d.endTime == 0 && d.startTime != 0 && d.highest == Wire(high) && Near(p.index, high)
    ensures var x, d' := p.index, Update(d, Wire(p.index), p.final, p.arrival);
            && d'.endTime == 0 && d'.startTime != 0 && d'.highest == Wire(Max(high, x))
            && d'.lost == (if x > high then d.lost + (x - high - 1) else if x == high then d.lost else Max(d.lost - 1, 0))
            && (x == high ==> d' == d)
            && (x != high ==>
                  && d'.packets == d.packets + 1
                  && d'.outOfOrder == d.outOfOrder + (if x < high then 1 else 0)
                  && d'.frames == d.frames + (if p.final then 1 else 0))
  {
    MinusIsDistance(p.index, high);
  }

  /**
   * One arrival near the highest index keeps the loss count exact if and only if it is not behind the
   * highest, or fills a hole after the first arrival, or finds nothing counted as lost.
   */
  lemma StaysExactExactlyWhen(d: Stats, first: nat, high: nat, received: set<nat>, p: Packet)
    requires Exact(d, first, high, received) && Near(p.index, high)
    ensures Exact(Update(d, Wire(p.index), p.final, p.arrival), first, Max(high, p.index), received + {p.index})
            <==> high <= p.index || p.index in Missing(first, high, received) || d.lost == 0
  {
    UpdateShape(d, high, p);
    MissingAfter(first, high, p.index, received);
  }

  /** Distinct indices, but for repetitions of the highest so far, each near it and none before the first. */
  predicate WellBehaved(ps: seq<Packet>, first: nat, high: nat, received: set<nat>)
    decreases |ps|
  {
    ps == [] ||
    (var x := ps[0].index;
     && first <= x && (x !in received || x == high) && Near(x, high)
     && WellBehaved(ps[1..], first, Max(high, x), received + {x}))
  }

  function Indices(ps: seq<Packet>): set<nat> {
    if ps == [] then {} else {ps[0].index} + Indices(ps[1..])
  }

  function Highest(ps: seq<Packet>, high: nat): nat
    decreases |ps|
  {
    if ps == [] then high else Highest(ps[1..], Max(high, ps[0].index))
  }

  /** Arrivals behind the highest index before them. */
  function Late(ps: seq<Packet>, high: nat): nat
    decreases |ps|
  {
    if ps == [] then 0
    else (if ps[0].index < high then 1 else 0) + Late(ps[1..], Max(high, ps[0].index))
  }

  /** Arrivals that end a frame, repetitions of the highest index not counted again. */
  function Finals(ps: seq<Packet>, high: nat): nat
    decreases |ps|
  {
    if ps == [] then 0
    else (if ps[0].final && ps[0].index != high then 1 else 0) + Finals(ps[1..], Max(high, ps[0].index))
  }

  lemma ArrivalStaysExact(d: Stats, first: nat, high: nat, received: set<nat>, p: Packet)
    requires Exact(d, first, high, received) && Near(p.index, high)
    requires first <= p.index && (p.index !in received || p.index == high)
    ensures var d' := Update(d, Wire(p.index), p.final, p.arrival);
            && Exact(d', first, Max(high, p.index), received + {p.index})
            && (d.packets == |received| ==> d'.packets == |received + {p.index}|)
            && d'.outOfOrder == d.outOfOrder + (if p.index < high then 1 else 0)
            && d'.frames == d.frames + (if p.final && p.index != high then 1 else 0)
  {
    StaysExactExactlyWhen(d, first, high, received, p);
    UpdateShape(d, high, p);
    if p.index in received {
      assert received + {p.index} == received;
    }
  }

  lemma {:induction false} RunStaysExact(d: Stats, ps: seq<Packet>, first: nat, high: nat, received: set<nat>)
    requires Exact(d, first, high, received) && WellBehaved(ps, first, high, received) && d.packets == |received|
    ensures var d' := Run(d, ps);
            && Exact(d', first, Highest(ps, high), received + Indices(ps))
            && d'.packets == |received + Indices(ps)|
            && d'.outOfOrder == d.outOfOrder + Late(ps, high)
            && d'.frames == d.frames + Finals(ps, high)
    decreases |ps|
  {
    if ps == [] {
      assert received + Indices(ps) == received;
    } else {
      var x := ps[0].index;
      ArrivalStaysExact(d, first, high, received, ps[0]);
      RunStaysExact(Update(d, Wire(x), ps[0].final, ps[0].arrival), ps[1..], first, Max(high, x), received + {x});
      IndicesFirst(received, ps);
    }
  }

  lemma IndicesFirst(received: set<nat>, ps: seq<Packet>)
    requires ps != []
    ensures received + {ps[0].index} + Indices(ps[1..]) == received + Indices(ps)
  {
  }

  /**
   * For a well-behaved stream, numPacketsLost is the number of indices between first and highest not
   * yet received, however often the 16-bit numbers wrapped around; the other counters are the distinct
   * packets received, those that came late and those that ended a frame.
   */
  lemma LossIsExact(p: Packet, ps: seq<Packet>)
    requires p.arrival != 0 && WellBehaved(ps, p.index, p.index, {p.index})
    ensures var d := Run(FRESH, [p] + ps);
            && d.lost == |Missing(p.index, Highest(ps, p.index), Indices([p] + ps))|
            && d.packets == |Indices([p] + ps)|
            && d.outOfOrder == Late(ps, p.index)
            && d.frames == (if p.final then 1 else 0) + Finals(ps, p.index)
            && d.startTime == p.arrival
  {
    var d := Update(FRESH, Wire(p.index), p.final, p.arrival);
    assert ([p] + ps)[1..] == ps;
    assert Missing(p.index, p.index, {p.index}) == {};
    RunStaysExact(d, ps, p.index, p.index, {p.index});
    RunKeepsStart(d, ps);
  }

  lemma {:induction false} RunKeepsStart(d: Stats, ps: seq<Packet>)
    requires d.startTime != 0
    ensures Run(d, ps).startTime == d.startTime
    decreases |ps|
  {
    if ps != [] {
      RunKeepsStart(Update(d, Wire(ps[0].index), ps[0].final, ps[0].arrival), ps[1..]);
    }
  }

  // ---------- late duplicates ----------

  /** Arrivals near the highest index before them, duplicates and indices before the first included. */
  predicate AllNear(ps: seq<Packet>, high: nat)
    decreases |ps|
  {
    ps == [] || (Near(ps[0].index, high) && AllNear(ps[1..], Max(high, ps[0].index)))
  }

  /** Like Exact, but for a count that may be too low. */
  ghost predicate AtMost(d: Stats, first: nat, high: nat, received: set<nat>) {
    && d.endTime == 0 && d.startTime != 0
    && d.highest == Wire(high)
    && d.lost <= |Missing(first, high, received)|
    && first <= high && high in received
    && (forall y | y in received :: y <= high)
  }

  lemma ArrivalStaysAtMost(d: Stats, first: nat, high: nat, received: set<nat>, p: Packet)
    requires AtMost(d, first, high, received) && Near(p.index, high)
    ensures AtMost(Update(d, Wire(p.index), p.final, p.arrival), first, Max(high, p.index), received + {p.index})
  {
    UpdateShape(d, high, p);
    MissingAfter(first, high, p.index, received);
  }

  lemma {:induction false} RunStaysAtMost(d: Stats, ps: seq<Packet>, first: nat, high: nat, received: set<nat>)
    requires AtMost(d, first, high, received) && AllNear(ps, high)
    ensures AtMost(Run(d, ps), first, Highest(ps, high), received + Indices(ps))
    decreases |ps|
  {
    if ps == [] {
      assert received + Indices(ps) == received;
    } else {
      var x := ps[0].index;
      ArrivalStaysAtMost(d, first, high, received, ps[0]);
      RunStaysAtMost(Update(d, Wire(x), ps[0].final, ps[0].arrival), ps[1..], first, Max(high, x), received + {x});
      assert received + {x} + Indices(ps[1..]) == received + Indices(ps);
    }
  }

  /** Whatever arrives near the highest index, numPacketsLost is never too high. */
  lemma LossIsNeverTooHigh(p: Packet, ps: seq<Packet>)
    requires p.arrival != 0 && AllNear(ps, p.index)
    ensures Run(FRESH, [p] + ps).lost <= |Missing(p.index, Highest(ps, p.index), Indices([p] + ps))|
  {
    assert ([p] + ps)[1..] == ps;
    assert Missing(p.index, p.index, {p.index}) == {};
    RunStaysAtMost(Update(FRESH, Wire(p.index), p.final, p.arrival), ps, p.index, p.index, {p.index});
  }

  /** It can be too low: after x, x + 2 and x again, index x + 1 is missing and nothing counts as lost. */
  lemma LateDuplicateHidesLoss(a: Packet, b: Packet)
    requires a.arrival != 0 && b.index == a.index + 2
    ensures Run(FRESH, [a, b, a]).lost == 0
    ensures Missing(a.index, Highest([b, a], a.index), Indices([a, b, a])) == {a.index + 1}
  {
    var ps := [a, b, a];
    Suffixes(ps);
    var d1 := Update(FRESH, Wire(a.index), a.final, a.arrival);
    var d2 := Update(d1, Wire(b.index), b.final, b.arrival);
    UpdateShape(d1, a.index, b);
    UpdateShape(d2, b.index, a);
    assert Run(FRESH, ps[0..]) == Run(d1, ps[1..]);
    assert Run(d1, ps[1..]) == Run(d2, ps[2..]);
    RunOfOne(d2, a);
    assert ps[2..] == [a];
    DuplicateLists(a, b);
  }

  lemma DuplicateLists(a: Packet, b: Packet)
    requires b.index == a.index + 2
    ensures Highest([b, a], a.index) == b.index && Indices([a, b, a]) == {a.index, b.index}
  {
    assert [a, b, a][1..] == [b, a] && [b, a][1..] == [a] && [a][1..] == [];
    assert Highest([a], b.index) == b.index;
    assert Indices([a]) == {a.index} + Indices([]);
    assert Indices([b, a]) == {b.index} + Indices([a]);
    assert Indices([a, b, a]) == {a.index} + Indices([b, a]);
  }
}
