/**
 * The LiveKit signal relay: a sink that batches and retries, a stream that may lose, delay,
 * repeat or reorder packets, and a reader that trims overlaps and rejects gaps.
 *
 * Every critical section of the sink's mutex is one step, so runs range over all interleavings of
 * writers, closers, write goroutines, the stream and the reader.
 */
module SignalRelay {
  import opened Common

  type Message = string

  datatype Packet = Packet(base: nat, close: bool, msgs: seq<Message>)

  // ---------- the sink ----------

  /** A live write goroutine: waiting for the mutex the first time, or inside Stream.Send. */
  datatype Loop = Starting | Sending(n: nat, close: bool)

  /** How Stream.Send came back: no error, an error before the deadline, an error after it. */
  datatype Outcome = Acked | Failed | Expired

  datatype Sink = Sink(
    next: nat,               // seq
    queue: seq<Message>,
    writing: bool,
    draining: bool,
    streamOpen: bool,        // Stream.Err() == nil
    loops: seq<Loop>,        // the write goroutines alive now
    closeOnFailure: bool)

  /** A critical section of the write loop leaves the sink in some state and may build a packet. */
  datatype Turn = Turn(sink: Sink, sent: Option<Packet>)

  function NewSink(closeOnFailure: bool): Sink {
    Sink(0, [], false, false, true, [], closeOnFailure)
  }

  predicate Accepts(s: Sink) {
    s.streamOpen && !s.draining
  }

  function SpawnIfIdle(s: Sink): Sink {
    if s.writing then s else s.(writing := true, loops := s.loops + [Starting])
  }

  function Enqueue(s: Sink, m: Message): Sink {
    if Accepts(s) then SpawnIfIdle(s.(queue := s.queue + [m])) else s
  }

  function Drain(s: Sink): Sink {
    SpawnIfIdle(s.(draining := true))
  }

  /** Go's q[n:], which the invariant shows never to be out of range. */
  function Drop(q: seq<Message>, n: nat): seq<Message> {
    if n <= |q| then q[n..] else []
  }

  function LoopExit(s: Sink, i: nat, err: bool): Sink
    requires i < |s.loops|
  {
    s.(writing := false,
       loops := s.loops[..i] + s.loops[i + 1..],
       streamOpen := s.streamOpen && !s.draining && !(err && s.closeOnFailure))
  }

  function LoopTop(s: Sink, i: nat, err: bool): Turn
    requires i < |s.loops|
  {
    if (!s.draining && s.queue == []) || !s.streamOpen then
      Turn(LoopExit(s, i, err), None)
    else
      Turn(s.(loops := s.loops[i := Sending(|s.queue|, s.draining)]),
           Some(Packet(s.next, s.draining, s.queue)))
  }

  function AfterSend(s: Sink, i: nat, o: Outcome): Turn
    requires i < |s.loops| && s.loops[i].Sending?
  {
    var l := s.loops[i];
    match o
    case Acked =>
      var s' := s.(next := s.next + l.n, queue := Drop(s.queue, l.n));
      if l.close then Turn(LoopExit(s', i, false), None) else LoopTop(s', i, false)
    case Failed =>
      LoopTop(s, i, true)
    case Expired =>
      Turn(LoopExit(s.(next := s.next + |s.queue|, queue := []), i, true), None)
  }

  // ---------- the reader ----------

  datatype Error = Undecodable | MessageDropped | ChannelRefused

  /** Whether CopySignalStreamToMessageChannel is still in its loop, and how it left it. */
  datatype Status = Reading | Closed | Stopped(error: Error)

  /** `out` lists every message the receiving channel has accepted. */
  datatype Reader = Reader(next: nat, out: seq<Message>, status: Status)

  /** The part of a packet the reader has not seen yet, or the gap it reports. */
  function Unseen(next: nat, p: Packet): Option<seq<Message>> {
    if next < p.base then None
    else Some(p.msgs[Min(next - p.base, |p.msgs|)..])
  }

  datatype Result = Batch(msgs: seq<Message>) | Refused(error: Error)

  function ReadPacket(next: nat, p: Packet, decodes: bool): Result {
    if !decodes then Refused(Undecodable)
    else match Unseen(next, p)
      case None => Refused(MessageDropped)
      case Some(res) => Batch(res)
  }

  /** One packet through the copy loop; the channel accepts at most `room` more messages. */
  function Receive(r: Reader, p: Packet, decodes: bool, room: nat): Reader {
    if !r.status.Reading? then r
    else match ReadPacket(r.next, p, decodes)
      case Refused(error) => r.(status := Stopped(error))
      case Batch(res) =>
        var k := Min(|res|, room);
        Reader(r.next + |res|, r.out + res[..k],
               if k < |res| then Stopped(ChannelRefused) else if p.close then Closed else Reading)
  }

  // ---------- the whole relay ----------

  /** `history` lists every message WriteMessage accepted; `net` every packet ever handed to Send. */
  datatype Relay = Relay(sink: Sink, history: seq<Message>, net: set<Packet>, reader: Reader)

  datatype Event =
    | Write(m: Message)
    | Close
    | StreamBreaks
    | LoopStarts(i: nat)
    | SendReturns(i: nat, outcome: Outcome)
    | Deliver(p: Packet, decodes: bool, room: nat)

  function NewRelay(closeOnFailure: bool): Relay {
    Relay(NewSink(closeOnFailure), [], {}, Reader(0, [], Reading))
  }

  function Apply(r: Relay, t: Turn): Relay {
    r.(sink := t.sink, net := if t.sent.Some? then r.net + {t.sent.value} else r.net)
  }

  /** An event that is not enabled leaves the relay as it is. */
  function Step(r: Relay, e: Event): Relay {
    match e
    case Write(m) =>
      r.(sink := Enqueue(r.sink, m), history := if Accepts(r.sink) then r.history + [m] else r.history)
    case Close => r.(sink := Drain(r.sink))
    case StreamBreaks => r.(sink := r.sink.(streamOpen := false))
    case LoopStarts(i) =>
      if i < |r.sink.loops| && r.sink.loops[i].Starting? then Apply(r, LoopTop(r.sink, i, false)) else r
    case SendReturns(i, o) =>
      if i < |r.sink.loops| && r.sink.loops[i].Sending? then Apply(r, AfterSend(r.sink, i, o)) else r
    case Deliver(p, decodes, room) =>
      if p in r.net then r.(reader := Receive(r.reader, p, decodes, room)) else r
  }

  function Run(r: Relay, es: seq<Event>): Relay
    decreases |es|
  {
    if es == [] then r else Run(Step(r, es[0]), es[1..])
  }

  // ---------- the invariant ----------

  ghost predicate QueueInv(s: Sink, history: seq<Message>) {
    && s.next + |s.queue| == |history|
    && s.queue == history[s.next..]
    && |s.loops| == (if s.writing then 1 else 0)
    && (s.streamOpen && (s.queue != [] || s.draining) ==> s.writing)
  }

  ghost predicate SinkInv(s: Sink, history: seq<Message>) {
    && QueueInv(s, history)
    && (s.writing && s.loops[0].Sending? ==>
          s.loops[0].n <= |s.queue| && (s.loops[0].close ==> s.draining))
  }

  ghost predicate PacketInv(p: Packet, s: Sink, history: seq<Message>) {
    && p.base <= s.next
    && p.base + |p.msgs| <= |history|
    && p.msgs == history[p.base..p.base + |p.msgs|]
    && (p.close ==> s.draining && p.base + |p.msgs| == |history|)
  }

  ghost predicate ReaderInv(r: Reader, s: Sink, history: seq<Message>) {
    && r.next <= |history|
    && r.out <= history
    && (!r.status.Stopped? ==> r.out == history[..r.next])
    && (r.status.Closed? ==> s.draining && r.out == history)
  }

  ghost predicate Inv(r: Relay) {
    && SinkInv(r.sink, r.history)
    && (forall p | p in r.net :: PacketInv(p, r.sink, r.history))
    && ReaderInv(r.reader, r.sink, r.history)
  }

  /** What one critical section of the write loop promises. */
  ghost predicate GoodTurn(s: Sink, t: Turn, history: seq<Message>) {
    && SinkInv(t.sink, history)
    && s.next <= t.sink.next && t.sink.draining == s.draining
    && (t.sent.Some? ==> PacketInv(t.sent.value, t.sink, history))
  }

  lemma TopIsGood(s: Sink, history: seq<Message>, err: bool)
    requires QueueInv(s, history) && s.writing
    ensures GoodTurn(s, LoopTop(s, 0, err), history)
  {
  }

  lemma AfterSendIsGood(s: Sink, history: seq<Message>, o: Outcome)
    requires SinkInv(s, history) && s.writing && s.loops[0].Sending?
    ensures GoodTurn(s, AfterSend(s, 0, o), history)
  {
    var l := s.loops[0];
    match o
    case Acked =>
      var s' := s.(next := s.next + l.n, queue := Drop(s.queue, l.n));
      assert s'.queue == history[s'.next..];
      if !l.close {
        TopIsGood(s', history, false);
      }
    case Failed => TopIsGood(s, history, true);
    case Expired => assert history[|history|..] == [];
  }

  lemma UnseenExtends(next: nat, s: Sink, history: seq<Message>, p: Packet)
    requires next <= |history| && PacketInv(p, s, history) && p.base <= next
    ensures var res := Unseen(next, p).value;
            && next + |res| <= |history|
            && res == history[next..next + |res|]
            && (p.close ==> next + |res| == |history|)
  {
  }

  lemma SliceExtends(history: seq<Message>, next: nat, res: seq<Message>, k: nat)
    requires k <= |res| && next + |res| <= |history| && res == history[next..next + |res|]
    ensures history[..next] + res[..k] == history[..next + k]
  {
    assert res[..k] == history[next..next + k];
  }

  /** The channel takes k messages of a batch that continues what was delivered. */
  lemma BatchKeepsReader(r: Reader, s: Sink, history: seq<Message>, res: seq<Message>, k: nat, close: bool)
    requires ReaderInv(r, s, history) && r.status.Reading?
    requires k <= |res| && r.next + |res| <= |history| && res == history[r.next..r.next + |res|]
    requires close ==> s.draining && r.next + |res| == |history|
    ensures ReaderInv(Reader(r.next + |res|, r.out + res[..k],
                             if k < |res| then Stopped(ChannelRefused) else if close then Closed else Reading), s, history)
  {
    SliceExtends(history, r.next, res, k);
  }

  lemma ReceiveKeepsReader(r: Reader, s: Sink, history: seq<Message>, p: Packet, decodes: bool, room: nat)
    requires ReaderInv(r, s, history) && PacketInv(p, s, history)
    ensures ReaderInv(Receive(r, p, decodes, room), s, history)
  {
    if r.status.Reading? && decodes && p.base <= r.next {
      UnseenExtends(r.next, s, history, p);
      var res := Unseen(r.next, p).value;
      BatchKeepsReader(r, s, history, res, Min(|res|, room), p.close);
    }
  }

  lemma StepKeepsInv(r: Relay, e: Event)
    requires Inv(r)
    ensures Inv(Step(r, e))
  {
    var s := r.sink;
    match e
    case Write(m) =>
      if Accepts(s) {
        var h' := r.history + [m];
        assert s.queue + [m] == h'[s.next..];
        forall p | p in r.net ensures PacketInv(p, Step(r, e).sink, h') {
          assert PacketInv(p, s, r.history);
          assert h'[p.base..p.base + |p.msgs|] == r.history[p.base..p.base + |p.msgs|];
        }
        assert h'[..r.reader.next] == r.history[..r.reader.next];
      }
    case Close =>
    case StreamBreaks =>
    case LoopStarts(i) =>
      if i < |s.loops| && s.loops[i].Starting? {
        TopIsGood(s, r.history, false);
      }
    case SendReturns(i, o) =>
      if i < |s.loops| && s.loops[i].Sending? {
        AfterSendIsGood(s, r.history, o);
      }
    case Deliver(p, decodes, room) =>
      if p in r.net {
        ReceiveKeepsReader(r.reader, s, r.history, p, decodes, room);
      }
  }

  lemma {:induction false} RunKeepsInv(r: Relay, es: seq<Event>)
    requires Inv(r)
    ensures Inv(Run(r, es))
    decreases |es|
  {
    if es != [] {
      StepKeepsInv(r, es[0]);
      RunKeepsInv(Step(r, es[0]), es[1..]);
    }
  }

  // ---------- what every run guarantees ----------

  /** In order, no repeats, no holes: the channel has received a prefix of what was accepted. */
  lemma DeliveredIsPrefixOfAccepted(closeOnFailure: bool, es: seq<Event>)
    ensures var r := Run(NewRelay(closeOnFailure), es);
            && r.reader.out <= r.history
            && r.reader.next <= |r.history|
            && (r.reader.status.Reading? ==> r.reader.out == r.history[..r.reader.next])
  {
    RunKeepsInv(NewRelay(closeOnFailure), es);
  }

  /**
   * What becomes of a packet in flight, in terms of what was delivered before. It is reported as a gap
   * exactly when it starts beyond that. Otherwise delivery goes on to the packet's last message, as far as
   * the channel has room: a message refused stops the reader, a close packet fully accepted closes it.
   */
  lemma PacketOutcome(closeOnFailure: bool, es: seq<Event>, p: Packet, decodes: bool, room: nat)
    requires var r := Run(NewRelay(closeOnFailure), es); p in r.net && r.reader.status.Reading?
    ensures var r := Run(NewRelay(closeOnFailure), es);
            var r' := Step(r, Deliver(p, decodes, room));
            var end := Max(|r.reader.out|, p.base + |p.msgs|);
            var got := Min(end, |r.reader.out| + room);
            && r'.sink == r.sink && r'.history == r.history && r'.net == r.net
            && (!decodes ==> r'.reader == r.reader.(status := Stopped(Undecodable)))
            && (decodes && |r.reader.out| < p.base ==> r'.reader == r.reader.(status := Stopped(MessageDropped)))
            && (decodes && p.base <= |r.reader.out| ==>
                  && end <= |r.history| && r'.reader.out == r.history[..got]
                  && r'.reader.status ==
                     if got < end then Stopped(ChannelRefused) else if p.close then Closed else Reading)
  {
    RunKeepsInv(NewRelay(closeOnFailure), es);
    var r := Run(NewRelay(closeOnFailure), es);
    if decodes && p.base <= r.reader.next {
      BatchOutcome(r.reader, r.sink, r.history, p, room);
    }
  }

  lemma BatchOutcome(r: Reader, s: Sink, history: seq<Message>, p: Packet, room: nat)
    requires ReaderInv(r, s, history) && PacketInv(p, s, history) && r.status.Reading? && p.base <= r.next
    ensures var end := Max(r.next, p.base + |p.msgs|);
            var got := Min(end, r.next + room);
            && end <= |history|
            && Receive(r, p, true, room) ==
               Reader(end, history[..got], if got < end then Stopped(ChannelRefused) else if p.close then Closed else Reading)
  {
    UnseenExtends(r.next, s, history, p);
    var res := Unseen(r.next, p).value;
    assert r.next + |res| == Max(r.next, p.base + |p.msgs|);
    SliceExtends(history, r.next, res, Min(|res|, room));
  }

  /** A reader that has left its loop takes nothing more. */
  lemma {:induction false} StoppedIsFinal(r: Relay, es: seq<Event>)
    requires !r.reader.status.Reading?
    ensures Run(r, es).reader == r.reader
    decreases |es|
  {
    if es != [] {
      StoppedIsFinal(Step(r, es[0]), es[1..]);
    }
  }

  /** A close packet handled without error means nothing accepted was left behind, then and forever. */
  lemma CleanCloseDeliversEverything(closeOnFailure: bool, es: seq<Event>)
    requires Run(NewRelay(closeOnFailure), es).reader.status.Closed?
    ensures var r := Run(NewRelay(closeOnFailure), es);
            r.reader.out == r.history && !Accepts(r.sink)
  {
    RunKeepsInv(NewRelay(closeOnFailure), es);
  }

  /** At most one write loop; while the stream is open no queued message and no close is forgotten. */
  lemma NothingIsForgotten(closeOnFailure: bool, es: seq<Event>)
    ensures var s := Run(NewRelay(closeOnFailure), es).sink;
            && |s.loops| <= 1
            && (s.streamOpen && (s.queue != [] || s.draining) ==> |s.loops| == 1)
            && (forall l | l in s.loops && l.Sending? :: l.n <= |s.queue|)
  {
    RunKeepsInv(NewRelay(closeOnFailure), es);
  }

  // ---------- what the write loop sends ----------

  /** The packet a loop is sending is in flight and holds the n messages from the sink's sequence number on. */
  ghost predicate SentInv(r: Relay) {
    r.sink.writing && |r.sink.loops| == 1 && r.sink.loops[0].Sending? ==>
      var l := r.sink.loops[0];
      && r.sink.next + l.n <= |r.history|
      && Packet(r.sink.next, l.close, r.history[r.sink.next..r.sink.next + l.n]) in r.net
  }

  /**
   * How the write loop goes on from a sequence number. If the stream is open and there are messages from
   * there on, or a close, to be sent, exactly one packet with all of them goes out and the loop waits for
   * it. Otherwise the loop ends, and the stream is closed by a drain or, if so configured, by an error.
   */
  ghost predicate GoesOn(r: Relay, r': Relay, base: nat, last: bool, err: bool) {
    && base <= |r.history| && r'.history == r.history && r'.reader == r.reader
    && r'.sink.next == base && r'.sink.queue == r.history[base..]
    && r'.sink.draining == r.sink.draining
    && if !last && r.sink.streamOpen && (base < |r.history| || r.sink.draining)
       then && r'.net == r.net + {Packet(base, r.sink.draining, r.history[base..])}
            && r'.sink.loops == [Sending(|r.history| - base, r.sink.draining)] && r'.sink.writing
            && r'.sink.streamOpen
       else && r'.net == r.net && r'.sink.loops == [] && !r'.sink.writing
            && r'.sink.streamOpen == (r.sink.streamOpen && !r.sink.draining && !(err && r.sink.closeOnFailure))
  }

  lemma LoopTopGoesOn(r: Relay, s: Sink, err: bool)
    requires QueueInv(s, r.history) && s.writing
    requires s.draining == r.sink.draining && s.streamOpen == r.sink.streamOpen && s.closeOnFailure == r.sink.closeOnFailure
    ensures GoesOn(r, Apply(r, LoopTop(s, 0, err)), s.next, false, err)
  {
    assert s.loops[..0] + s.loops[1..] == [];
    assert s.loops[0 := Sending(|s.queue|, s.draining)] == [Sending(|s.queue|, s.draining)];
  }

  /** The sequence number from which a loop goes on: past what was sent or given up, or where it was. */
  function NextBase(r: Relay, e: Event): nat
    requires e.LoopStarts? || (e.SendReturns? && |r.sink.loops| > 0 && r.sink.loops[0].Sending?)
  {
    if e.LoopStarts? || e.outcome == Failed then r.sink.next
    else if e.outcome == Acked then r.sink.next + r.sink.loops[0].n
    else |r.history|
  }

  /** The loop is about to be told that its last packet is through, or gives up. */
  predicate IsLast(r: Relay, e: Event) {
    && e.SendReturns? && |r.sink.loops| > 0 && r.sink.loops[0].Sending?
    && (e.outcome == Expired || (e.outcome == Acked && r.sink.loops[0].close))
  }

  /** An event of the write loop that is alive. */
  predicate LoopEvent(r: Relay, e: Event) {
    && (e.LoopStarts? || e.SendReturns?) && e.i < |r.sink.loops|
    && (r.sink.loops[e.i].Starting? <==> e.LoopStarts?)
  }

  /** What a loop's start and each way Send can return come to. */
  lemma LoopGoesOn(r: Relay, e: Event)
    requires Inv(r) && LoopEvent(r, e)
    ensures GoesOn(r, Step(r, e), NextBase(r, e), IsLast(r, e), e.SendReturns? && e.outcome != Acked)
  {
    var s := r.sink;
    assert s.loops[..0] + s.loops[1..] == [];
    if e.LoopStarts? {
      LoopTopGoesOn(r, s, false);
    } else if e.outcome == Failed {
      LoopTopGoesOn(r, s, true);
    } else if e.outcome == Acked {
      AckGoesOn(r);
    }
  }

  lemma AckGoesOn(r: Relay)
    requires Inv(r) && |r.sink.loops| == 1 && r.sink.loops[0].Sending?
    ensures GoesOn(r, Step(r, SendReturns(0, Acked)), r.sink.next + r.sink.loops[0].n, r.sink.loops[0].close, false)
  {
    var s := r.sink;
    var s' := s.(next := s.next + s.loops[0].n, queue := Drop(s.queue, s.loops[0].n));
    assert s'.queue == r.history[s'.next..];
    if s.loops[0].close {
      assert s.loops[..0] + s.loops[1..] == [];
    } else {
      LoopTopGoesOn(r, s', false);
    }
  }

  lemma GoingOnIsSent(r: Relay, r': Relay, base: nat, last: bool, err: bool)
    requires GoesOn(r, r', base, last, err)
    ensures SentInv(r')
  {
    assert r.history[base..] == r.history[base..|r.history|];
  }

  lemma WriteKeepsSent(r: Relay, m: Message)
    requires Inv(r) && SentInv(r)
    ensures SentInv(Step(r, Write(m)))
  {
    var s := r.sink;
    if s.writing && s.loops[0].Sending? {
      var h := r.history + [m];
      assert h[s.next..s.next + s.loops[0].n] == r.history[s.next..s.next + s.loops[0].n];
    }
  }

  lemma StepKeepsSent(r: Relay, e: Event)
    requires Inv(r) && SentInv(r)
    ensures SentInv(Step(r, e))
  {
    if LoopEvent(r, e) {
      LoopGoesOn(r, e);
      GoingOnIsSent(r, Step(r, e), NextBase(r, e), IsLast(r, e), e.SendReturns? && e.outcome != Acked);
    } else if e.Write? {
      WriteKeepsSent(r, e.m);
    }
  }

  ghost predicate InSomePacket(net: set<Packet>, history: seq<Message>, j: nat)
    requires j < |history|
  {
    exists p :: p in net && p.base <= j < p.base + |p.msgs| && p.msgs[j - p.base] == history[j]
  }

  /** Everything the sink has moved on from was put on the stream. */
  ghost predicate Covered(r: Relay) {
    forall j :: 0 <= j < r.sink.next && j < |r.history| ==> InSomePacket(r.net, r.history, j)
  }

  lemma PacketCovers(net: set<Packet>, history: seq<Message>, p: Packet, j: nat)
    requires p in net && p.base <= j < p.base + |p.msgs| && p.base + |p.msgs| <= |history|
    requires p.msgs == history[p.base..p.base + |p.msgs|]
    ensures InSomePacket(net, history, j)
  {
    assert p.msgs[j - p.base] == history[j];
  }

  predicate GivesUp(e: Event) {
    e.SendReturns? && e.outcome == Expired
  }

  lemma StepKeepsCovered(r: Relay, e: Event)
    requires Inv(r) && SentInv(r) && Covered(r) && !GivesUp(e)
    ensures Covered(Step(r, e))
  {
    var s, r' := r.sink, Step(r, e);
    if LoopEvent(r, e) {
      LoopGoesOn(r, e);
    }
    forall j | 0 <= j < r'.sink.next && j < |r'.history| ensures InSomePacket(r'.net, r'.history, j) {
      if j < s.next {
        assert InSomePacket(r.net, r.history, j);
        var p :| p in r.net && p.base <= j < p.base + |p.msgs| && p.msgs[j - p.base] == r.history[j];
        assert p in r'.net;
      } else {
        var n := s.loops[0].n;
        PacketCovers(r'.net, r'.history, Packet(s.next, s.loops[0].close, r.history[s.next..s.next + n]), j);
      }
    }
  }

  lemma {:induction false} RunKeepsCovered(r: Relay, es: seq<Event>)
    requires Inv(r) && SentInv(r) && Covered(r) && forall e | e in es :: !GivesUp(e)
    ensures Inv(Run(r, es)) && Covered(Run(r, es))
    decreases |es|
  {
    if es != [] {
      StepKeepsInv(r, es[0]);
      StepKeepsSent(r, es[0]);
      StepKeepsCovered(r, es[0]);
      RunKeepsCovered(Step(r, es[0]), es[1..]);
    }
  }

  lemma {:induction false} RunKeepsSent(r: Relay, es: seq<Event>)
    requires Inv(r) && SentInv(r)
    ensures Inv(Run(r, es)) && SentInv(Run(r, es))
    decreases |es|
  {
    if es != [] {
      StepKeepsInv(r, es[0]);
      StepKeepsSent(r, es[0]);
      RunKeepsSent(Step(r, es[0]), es[1..]);
    }
  }

  /**
   * In every run, a loop waiting for n messages to be sent has put exactly the n messages from the sink's
   * sequence number on into flight, and its close flag with them.
   */
  lemma WhatIsSentIsInFlight(closeOnFailure: bool, es: seq<Event>, l: Loop)
    requires var s := Run(NewRelay(closeOnFailure), es).sink; l in s.loops && l.Sending?
    ensures var r := Run(NewRelay(closeOnFailure), es);
            && r.sink.next + l.n <= |r.history|
            && Packet(r.sink.next, l.close, r.history[r.sink.next..r.sink.next + l.n]) in r.net
  {
    RunKeepsSent(NewRelay(closeOnFailure), es);
  }

  /** Unless the sink gives up, each accepted message it no longer queues went out in some packet. */
  lemma NothingIsSkipped(closeOnFailure: bool, es: seq<Event>, j: nat)
    requires forall e | e in es :: !GivesUp(e)
    requires j < Run(NewRelay(closeOnFailure), es).sink.next
    ensures var r := Run(NewRelay(closeOnFailure), es);
            && j < |r.history|
            && exists p :: p in r.net && p.base <= j < p.base + |p.msgs| && p.msgs[j - p.base] == r.history[j]
  {
    var r := Run(NewRelay(closeOnFailure), es);
    RunKeepsCovered(NewRelay(closeOnFailure), es);
    assert InSomePacket(r.net, r.history, j);
  }

  /**
   * A run in which Send reports success only once the reader has taken the batch in, and only a sink
   * that closes its stream on failure gives a batch up. Packets may still be lost, late, repeated or
   * out of order.
   */
  ghost predicate Acknowledged(r: Relay, es: seq<Event>)
    decreases |es|
  {
    es == [] ||
    (&& (es[0].SendReturns? && es[0].i < |r.sink.loops| && r.sink.loops[es[0].i].Sending? ==>
           && (es[0].outcome == Expired ==> r.sink.closeOnFailure)
           && (es[0].outcome == Acked ==> r.sink.next + r.sink.loops[es[0].i].n <= r.reader.next))
     && Acknowledged(Step(r, es[0]), es[1..]))
  }

  /** Nothing in flight starts beyond the reader, and nothing new will. */
  ghost predicate Seamless(r: Relay) {
    && r.reader.status != Stopped(MessageDropped)
    && (forall p | p in r.net :: p.base <= r.reader.next)
    && (r.sink.streamOpen ==> r.sink.next <= r.reader.next)
  }

  lemma AcknowledgedStep(r: Relay, e: Event)
    requires Inv(r) && Seamless(r) && Acknowledged(r, [e])
    ensures Seamless(Step(r, e))
  {
    var r' := Step(r, e);
    assert r.reader.next <= r'.reader.next;
    forall p | p in r'.net ensures p.base <= r'.reader.next {
    }
  }

  lemma {:induction false} AcknowledgedRun(r: Relay, es: seq<Event>)
    requires Inv(r) && Seamless(r) && Acknowledged(r, es)
    ensures Seamless(Run(r, es))
    decreases |es|
  {
    if es != [] {
      StepKeepsInv(r, es[0]);
      AcknowledgedStep(r, es[0]);
      AcknowledgedRun(Step(r, es[0]), es[1..]);
    }
  }

  /**
   * No false alarm: retries with grown batches, loss, duplicates and reordering never produce a gap
   * report, and neither does giving up when that closes the stream.
   */
  lemma NoFalseGap(closeOnFailure: bool, es: seq<Event>)
    requires Acknowledged(NewRelay(closeOnFailure), es)
    ensures Run(NewRelay(closeOnFailure), es).reader.status != Stopped(MessageDropped)
  {
    AcknowledgedRun(NewRelay(closeOnFailure), es);
  }

  function Writes(ms: seq<Message>): seq<Event> {
    seq(|ms|, i requires 0 <= i < |ms| => Write(ms[i]))
  }

  lemma {:induction false} RunAppend(r: Relay, a: seq<Event>, b: seq<Event>)
    ensures Run(r, a + b) == Run(Run(r, a), b)
    decreases |a|
  {
    if a == [] {
      AppendNothing(b);
    } else {
      assert (a + b)[1..] == a[1..] + b;
      RunAppend(Step(r, a[0]), a[1..], b);
    }
  }

  /** While the sink accepts, writes queue up behind at most one write loop. */
  lemma {:induction false} WritesQueueUp(r: Relay, ms: seq<Message>)
    requires Accepts(r.sink) && ms != []
    ensures Run(r, Writes(ms)) ==
            r.(sink := SpawnIfIdle(r.sink.(queue := r.sink.queue + ms)), history := r.history + ms)
    decreases |ms|
  {
    var r' := Step(r, Write(ms[0]));
    var rest := ms[1..];
    assert ms == [ms[0]] + rest;
    assert Writes(ms)[0] == Write(ms[0]) && Writes(ms)[1..] == Writes(rest);
    if rest == [] {
      assert Run(r', Writes(rest)) == r';
    } else {
      WritesQueueUp(r', rest);
      Reassociate(r.sink.queue, [ms[0]], rest);
      Reassociate(r.history, [ms[0]], rest);
    }
  }

  /**
   * Any number of messages accepted by an idle sink: one round of the write loop puts all of them on the
   * channel if the reader has everything before them, and has the gap reported if it has not.
   */
  lemma IdleRound(r: Relay, ms: seq<Message>, room: nat)
    requires Inv(r) && Accepts(r.sink) && !r.sink.writing && r.reader.status.Reading? && 0 < |ms| <= room
    ensures var p := Packet(|r.history|, false, ms);
            var r' := Run(r, Writes(ms) + [LoopStarts(0), Deliver(p, true, room)]);
            && r'.history == r.history + ms
            && (r.reader.out == r.history ==> r'.reader.out == r'.history && r'.reader.status.Reading?)
            && (r.reader.out != r.history ==> r'.reader == r.reader.(status := Stopped(MessageDropped)))
  {
    RoundIsReception(r, ms, room);
    ContinuingBatch(r.reader, r.sink, r.history, ms, room);
  }

  /** The round hands the reader one packet with all the messages. */
  lemma RoundIsReception(r: Relay, ms: seq<Message>, room: nat)
    requires Inv(r) && Accepts(r.sink) && !r.sink.writing && ms != []
    ensures var p := Packet(|r.history|, false, ms);
            var r' := Run(r, Writes(ms) + [LoopStarts(0), Deliver(p, true, room)]);
            r'.history == r.history + ms && r'.reader == Receive(r.reader, p, true, room)
  {
    RunRound(r, Writes(ms), LoopStarts(0), Deliver(Packet(|r.history|, false, ms), true, room));
    WritesQueueUp(r, ms);
    QueuedBatchArrives(r, ms, Run(r, Writes(ms)), room);
  }

  lemma QueuedBatchArrives(r: Relay, ms: seq<Message>, r1: Relay, room: nat)
    requires Inv(r) && Accepts(r.sink) && !r.sink.writing
    requires r1 == r.(sink := SpawnIfIdle(r.sink.(queue := r.sink.queue + ms)), history := r.history + ms) && ms != []
    ensures var p := Packet(|r.history|, false, ms);
            var r' := Step(Step(r1, LoopStarts(0)), Deliver(p, true, room));
            r'.history == r.history + ms && r'.reader == Receive(r.reader, p, true, room)
  {
    QueuedBatchGoesOut(r, ms, r1);
  }

  lemma RunRound(r: Relay, es: seq<Event>, a: Event, b: Event)
    ensures Run(r, es + [a, b]) == Step(Step(Run(r, es), a), b)
  {
    RunAppend(r, es, [a, b]);
    var r1 := Run(r, es);
    assert [a, b][1..] == [b] && [b][1..] == [];
    assert Run(Step(r1, a), [b]) == Step(Step(r1, a), b);
  }

  lemma ContinuingBatch(r: Reader, s: Sink, history: seq<Message>, ms: seq<Message>, room: nat)
    requires ReaderInv(r, s, history) && r.status.Reading? && |ms| <= room
    ensures Receive(r, Packet(|history|, false, ms), true, room) ==
            if r.out == history then Reader(|history| + |ms|, history + ms, Reading)
            else r.(status := Stopped(MessageDropped))
  {
    assert r.next == |history| <==> r.out == history;
    assert ms[0..] == ms && ms[..|ms|] == ms;
  }

  lemma QueuedBatchGoesOut(r: Relay, ms: seq<Message>, r1: Relay)
    requires Inv(r) && Accepts(r.sink) && !r.sink.writing
    requires r1 == r.(sink := SpawnIfIdle(r.sink.(queue := r.sink.queue + ms)), history := r.history + ms) && ms != []
    ensures var r' := Step(r1, LoopStarts(0));
            && r'.history == r1.history && r'.reader == r.reader && Packet(|r.history|, false, ms) in r'.net
  {
    assert r.sink.queue == [] && r.sink.next == |r.history| && r.sink.loops == [];
    assert r1.sink.queue == ms && r1.sink.loops == [Starting];
  }

  lemma {:induction false} DrainStays(r: Relay, es: seq<Event>)
    ensures Run(r, es).sink.draining <==> r.sink.draining || Close in es
    decreases |es|
  {
    if es != [] {
      DrainStays(Step(r, es[0]), es[1..]);
    }
  }

  /** After any run, a write is accepted exactly while the stream is open and no close was asked for. */
  lemma AcceptsExactly(closeOnFailure: bool, es: seq<Event>, m: Message)
    ensures var r := Run(NewRelay(closeOnFailure), es);
            Step(r, Write(m)).history == if r.sink.streamOpen && Close !in es then r.history + [m] else r.history
  {
    DrainStays(NewRelay(closeOnFailure), es);
  }

  /**
   * A close asked for while the sink is idle and the reader has everything: one round closes the reader
   * cleanly, the acknowledgement ends the loop, and the stream is closed.
   */
  lemma CloseRound(r: Relay, room: nat)
    requires Inv(r) && Accepts(r.sink) && !r.sink.writing && r.reader.status.Reading? && r.reader.out == r.history
    ensures var p := Packet(|r.history|, true, []);
            var r' := Run(r, [Close, LoopStarts(0), Deliver(p, true, room), SendReturns(0, Acked)]);
            && r'.reader.status.Closed? && r'.reader.out == r'.history == r.history
            && r'.sink.loops == [] && !r'.sink.streamOpen
  {
    var p := Packet(|r.history|, true, []);
    var es := [Close, LoopStarts(0), Deliver(p, true, room), SendReturns(0, Acked)];
    Suffixes(es);
    assert r.sink.queue == [] && r.sink.next == |r.history| && r.sink.loops == [];
    var r1 := Step(r, es[0]);
    StepKeepsInv(r, es[0]);
    assert Run(r, es[0..]) == Run(r1, es[1..]);
    var r2 := Step(r1, es[1]);
    StepKeepsInv(r1, es[1]);
    LoopGoesOn(r1, es[1]);
    assert r2.sink.loops == [Sending(0, true)] && p in r2.net;
    assert Run(r1, es[1..]) == Run(r2, es[2..]);
    var r3 := Step(r2, es[2]);
    StepKeepsInv(r2, es[2]);
    assert r.reader.next == |r.history| && Unseen(r.reader.next, p) == Some([]);
    assert Run(r2, es[2..]) == Run(r3, es[3..]);
    var r4 := Step(r3, es[3]);
    LoopGoesOn(r3, es[3]);
    assert Run(r3, es[3..]) == Run(r4, es[4..]);
  }

  /** A sink that stays open after giving up is idle again, with the reader where it was. */
  lemma GiveUpLeavesReaderBehind(r: Relay)
    requires Inv(r) && Accepts(r.sink) && !r.sink.closeOnFailure && r.sink.writing && r.sink.loops[0].Sending?
    ensures var r' := Step(r, SendReturns(0, Expired));
            && Inv(r') && Accepts(r'.sink) && !r'.sink.writing
            && r'.reader == r.reader && r'.history == r.history && r'.sink.next == |r.history|
  {
    StepKeepsInv(r, SendReturns(0, Expired));
  }

  // ---------- the source's objects ----------

  class SignalMessageSink {
    var next: nat
    var queue: seq<Message>
    var writing: bool
    var draining: bool
    var streamOpen: bool
    var loops: seq<Loop>
    const closeOnFailure: bool

    ghost function State(): Sink reads this {
      Sink(next, queue, writing, draining, streamOpen, loops, closeOnFailure)
    }

    constructor (closeOnFailure: bool)
      ensures State() == NewSink(closeOnFailure)
    {
      this.closeOnFailure := closeOnFailure;
      next, queue, writing, draining, streamOpen, loops := 0, [], false, false, true, [];
    }

    method WriteMessage(m: Message) returns (ok: bool)
      modifies this
      ensures ok == Accepts(old(State()))
      ensures State() == Enqueue(old(State()), m)
    {
      if !streamOpen || draining {
        return false;
      }
      queue := queue + [m];
      if !writing {
        writing := true;
        loops := loops + [Starting];
      }
      return true;
    }

    method CloseSink()
      modifies this
      ensures State() == Drain(old(State()))
    {
      draining := true;
      if !writing {
        writing := true;
        loops := loops + [Starting];
      }
    }

    /** The loop head and, when it breaks, the code after the loop; the mutex is held throughout. */
    method Top(i: nat, err: bool) returns (sent: Option<Packet>)
      requires i < |loops|
      modifies this
      ensures Turn(State(), sent) == LoopTop(old(State()), i, err)
    {
      var close := draining;
      if (!close && |queue| == 0) || !streamOpen {
        Exit(i, err);
        return None;
      }
      loops := loops[i := Sending(|queue|, close)];
      return Some(Packet(next, close, queue));
    }

    method Exit(i: nat, err: bool)
      requires i < |loops|
      modifies this
      ensures State() == LoopExit(old(State()), i, err)
    {
      loops := loops[..i] + loops[i + 1..];
      writing := false;
      if draining {
        streamOpen := false;
      }
      if err && closeOnFailure {
        streamOpen := false;
      }
    }

    method SendReturned(i: nat, o: Outcome) returns (sent: Option<Packet>)
      requires i < |loops| && loops[i].Sending? && loops[i].n <= |queue|
      modifies this
      ensures Turn(State(), sent) == AfterSend(old(State()), i, o)
    {
      var n, close := loops[i].n, loops[i].close;
      if o == Expired {
        next := next + |queue|;
        queue := [];
        Exit(i, true);
        return None;
      }
      if o == Acked {
        next := next + n;
        queue := queue[n..];
        if close {
          Exit(i, false);
          return None;
        }
      }
      sent := Top(i, o == Failed);
    }
  }

  class SignalMessageReader {
    var next: nat

    constructor ()
      ensures next == 0
    {
      next := 0;
    }

    /** `decodes` is whether the inner reader makes sense of the packet. */
    method Read(p: Packet, decodes: bool) returns (res: Result)
      modifies this
      ensures res == ReadPacket(old(next), p, decodes)
      ensures next == old(next) + (if res.Batch? then |res.msgs| else 0)
    {
      if !decodes {
        return Refused(Undecodable);
      }
      if next < p.base {
        return Refused(MessageDropped);
      }
      var msgs := p.msgs;
      if next > p.base {
        var n := next - p.base;
        if n > |msgs| {
          n := |msgs|;
        }
        msgs := msgs[n..];
      }
      next := next + |msgs|;
      return Batch(msgs);
    }
  }

  /** A bounded channel; `accepted` lists everything ever put on it. */
  class MessageChannel {
    const size: nat
    var buffer: seq<Message>
    var isClosed: bool
    ghost var accepted: seq<Message>

    ghost predicate Valid() reads this {
      |buffer| <= size
    }

    /** How many messages it can hold at once. */
    ghost function Capacity(): nat reads this {
      if isClosed then 0 else size
    }

    ghost function Room(): nat reads this requires Valid() {
      if isClosed then 0 else size - |buffer|
    }

    ghost function Free(): Space reads this requires Valid() {
      Space(Room(), Capacity())
    }

    constructor (size: nat)
      ensures Valid() && this.size == size && !isClosed && buffer == [] && accepted == []
    {
      this.size := size;
      buffer, isClosed, accepted := [], false, [];
    }

    method WriteMessage(m: Message) returns (ok: bool)
      requires Valid()
      modifies this
      ensures Valid() && Capacity() == old(Capacity())
      ensures ok == (old(Room()) > 0)
      ensures accepted == old(accepted) + (if ok then [m] else [])
      ensures Room() == old(Room()) - (if ok then 1 else 0)
    {
      if isClosed || |buffer| == size {
        return false;
      }
      buffer := buffer + [m];
      accepted := accepted + [m];
      return true;
    }

    /** Whoever reads the channel takes up to n messages out. */
    method Consume(n: nat)
      requires Valid()
      modifies this
      ensures Valid() && Capacity() == old(Capacity()) && accepted == old(accepted)
      ensures Room() == Freed(old(Room()), Capacity(), n)
      ensures buffer == old(buffer)[Min(n, |old(buffer)|)..]
    {
      buffer := buffer[Min(n, |buffer|)..];
    }

    /** `notify` is whether the onClose callback, if there is one, is called. */
    method CloseChannel() returns (notify: bool)
      requires Valid()
      modifies this
      ensures Valid() && isClosed && Room() == 0 && buffer == old(buffer) && accepted == old(accepted)
      ensures notify == !old(isClosed)
    {
      if isClosed {
        return false;
      }
      isClosed := true;
      return true;
    }
  }

  function Freed(room: nat, capacity: nat, n: nat): nat {
    Min(room + n, capacity)
  }

  /** What others do to the channel between two writes. */
  datatype Meanwhile = Takes(n: nat) | Closes

  /** A packet, whether it decodes, and what happens to the channel before each of its messages is written. */
  datatype Arrival = Arrival(p: Packet, decodes: bool, acts: seq<Meanwhile>)

  /** The room and the capacity a channel has. */
  datatype Space = Space(room: nat, capacity: nat)

  function After(space: Space, acts: seq<Meanwhile>): Space {
    if acts == [] then space
    else match acts[0]
      case Takes(n) => space.(room := Freed(space.room, space.capacity, n))
      case Closes => Space(0, 0)
  }

  datatype Fill = Fill(written: nat, space: Space)

  /** How many of n messages a channel takes in, and what space it has left. */
  function FillUp(n: nat, space: Space, acts: seq<Meanwhile>): Fill {
    if n == 0 then Fill(0, space)
    else
      var now := After(space, acts);
      if now.room == 0 then Fill(0, now)
      else
        var rest := FillUp(n - 1, now.(room := now.room - 1), if acts == [] then [] else acts[1..]);
        Fill(rest.written + 1, rest.space)
  }

  function FillWith(r: Reader, a: Arrival, space: Space): Fill {
    match ReadPacket(r.next, a.p, a.decodes)
    case Refused(_) => Fill(0, space)
    case Batch(msgs) => FillUp(|msgs|, space, a.acts)
  }

  /** Packets in arrival order through the copy loop. */
  function Copy(r: Reader, arrivals: seq<Arrival>, space: Space): Reader
    decreases |arrivals|
  {
    if arrivals == [] || !r.status.Reading? then r
    else
      var f := FillWith(r, arrivals[0], space);
      Copy(Receive(r, arrivals[0].p, arrivals[0].decodes, f.written), arrivals[1..], f.space)
  }

  /**
   * Whatever slices arrive, in whatever order, decodable or not, and whatever happens to the channel
   * meanwhile, the copy loop writes a prefix of the history.
   */
  lemma {:induction false} CopyKeepsReader(r: Reader, s: Sink, history: seq<Message>, arrivals: seq<Arrival>, space: Space)
    requires ReaderInv(r, s, history)
    requires forall a | a in arrivals :: PacketInv(a.p, s, history)
    ensures ReaderInv(Copy(r, arrivals, space), s, history)
    decreases |arrivals|
  {
    if arrivals != [] && r.status.Reading? {
      var a := arrivals[0];
      var f := FillWith(r, a, space);
      ReceiveKeepsReader(r, s, history, a.p, a.decodes, f.written);
      CopyKeepsReader(Receive(r, a.p, a.decodes, f.written), s, history, arrivals[1..], f.space);
    }
  }

  method Disturb(ch: MessageChannel, act: Meanwhile)
    requires ch.Valid()
    modifies ch
    ensures ch.Valid() && ch.accepted == old(ch.accepted)
    ensures ch.Free() == After(old(ch.Free()), [act])
  {
    if act.Closes? {
      var _ := ch.CloseChannel();
    } else {
      ch.Consume(act.n);
    }
  }

  method WriteAll(ch: MessageChannel, msgs: seq<Message>, acts: seq<Meanwhile>) returns (ok: bool)
    requires ch.Valid()
    modifies ch
    ensures ch.Valid()
    ensures var f := FillUp(|msgs|, old(ch.Free()), acts);
            && ok == (f.written == |msgs|) && f.written <= |msgs|
            && ch.accepted == old(ch.accepted) + msgs[..f.written] && ch.Free() == f.space
  {
    ghost var f := FillUp(|msgs|, ch.Free(), acts);
    var left := acts;
    var j := 0;
    while j < |msgs|
      invariant 0 <= j <= |msgs|
      invariant ch.Valid()
      invariant ch.accepted == old(ch.accepted) + msgs[..j]
      invariant var rest := FillUp(|msgs| - j, ch.Free(), left); f == Fill(j + rest.written, rest.space)
    {
      if left != [] {
        Disturb(ch, left[0]);
      }
      ok := ch.WriteMessage(msgs[j]);
      if !ok {
        return false;
      }
      left := if left == [] then [] else left[1..];
      j := j + 1;
    }
    return true;
  }

  method CopyPacket(reader: SignalMessageReader, ch: MessageChannel, a: Arrival) returns (status: Status)
    requires ch.Valid()
    modifies ch, reader
    ensures ch.Valid()
    ensures var r := Reader(old(reader.next), old(ch.accepted), Reading);
            var f := FillWith(r, a, old(ch.Free()));
            Reader(reader.next, ch.accepted, status) == Receive(r, a.p, a.decodes, f.written) && ch.Free() == f.space
  {
    var res := reader.Read(a.p, a.decodes);
    if res.Refused? {
      return Stopped(res.error);
    }
    var ok := WriteAll(ch, res.msgs, a.acts);
    return if !ok then Stopped(ChannelRefused) else if a.p.close then Closed else Reading;
  }

  method CopySignalStreamToMessageChannel(arrivals: seq<Arrival>, ch: MessageChannel) returns (status: Status)
    requires ch.Valid()
    modifies ch
    ensures ch.Valid()
    ensures var r := Copy(Reader(0, old(ch.accepted), Reading), arrivals, old(ch.Free()));
            ch.accepted == r.out && status == r.status
  {
    var reader := new SignalMessageReader();
    ghost var final := Copy(Reader(0, ch.accepted, Reading), arrivals, ch.Free());
    status := Reading;
    var k := 0;
    while k < |arrivals| && status.Reading?
      invariant 0 <= k <= |arrivals|
      invariant ch.Valid() && fresh(reader)
      invariant Copy(Reader(reader.next, ch.accepted, status), arrivals[k..], ch.Free()) == final
    {
      assert arrivals[k..][1..] == arrivals[k + 1..];
      status := CopyPacket(reader, ch, arrivals[k]);
      k := k + 1;
    }
  }
}
