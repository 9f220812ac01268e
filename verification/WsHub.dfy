/**
 * The WebSocket hub: the connection map with replacement and kick, sequence-numbered broadcast into
 * bounded send buffers, and replay on reconnect. Connection objects are named by ids, so that two
 * connections of one user stay distinguishable.
 */
module WsHub {
  import opened Common
  import opened RingBuffer

  const SEND_BUF_SIZE: nat := 256
  const REPLAY_SIZE: nat := 1000

  type ConnId = int
  type UserId = int
  type ChannelId = int

  datatype Msg = Broadcast(n: nat, channel: ChannelId, body: string) | Direct(body: string)

  /** The part a connection object has played so far. */
  datatype Phase = New | Live | Replaced | Kicked | Unregistered

  /**
   * `queued` lists every message ever put on the send channel and `lost` every message counted in
   * msgsDropped; `buffered` of the queued ones wait for the write pump. `closes` counts close(c.send).
   * `since` is the number of broadcasts made before the connection was registered.
   */
  datatype Conn = Conn(
    user: UserId,
    focus: ChannelId,
    voice: ChannelId,
    closed: bool,
    closes: nat,
    queued: seq<Msg>,
    buffered: nat,
    lost: seq<Msg>,
    phase: Phase,
    since: nat)

  /** A past broadcast, the connections it was addressed to, and those of them already closed then. */
  datatype Record = Record(channel: ChannelId, body: string, audience: set<ConnId>, deaf: set<ConnId>)

  datatype State = State(conns: map<ConnId, Conn>, clients: map<UserId, ConnId>, log: seq<Record>)

  function NewConn(user: UserId): Conn {
    Conn(user, 0, 0, false, 0, [], 0, [], New, 0)
  }

  const EMPTY := State(map[], map[], [])

  // ---------- one connection ----------

  function SendMsg(c: Conn, m: Msg): Conn {
    if c.closed then c
    else if c.buffered < SEND_BUF_SIZE then c.(queued := c.queued + [m], buffered := c.buffered + 1)
    else c.(lost := c.lost + [m])
  }

  function CloseSend(c: Conn): Conn {
    if c.closed then c else c.(closed := true, closes := c.closes + 1)
  }

  // ---------- the hub ----------

  predicate Registered(s: State, id: ConnId) {
    id in s.conns && s.conns[id].user in s.clients && s.clients[s.conns[id].user] == id
  }

  predicate Addressed(s: State, id: ConnId, channel: ChannelId) {
    && Registered(s, id)
    && (channel == 0 || s.conns[id].focus == channel || s.conns[id].voice == channel)
  }

  function Update(s: State, id: ConnId, c: Conn): State {
    s.(conns := s.conns[id := c])
  }

  function SetVoice(s: State, id: ConnId, channel: ChannelId): State
    requires id in s.conns
  {
    Update(s, id, s.conns[id].(voice := channel))
  }

  /** Written so that re-registering the registered object itself is covered too. */
  function RegisterNow(s: State, id: ConnId): State
    requires id in s.conns
  {
    var user := s.conns[id].user;
    if user in s.clients && s.clients[user] in s.conns then
      var prev := s.clients[user];
      var s1 := SetVoice(s, prev, 0);
      var s2 := if s1.conns[id].voice == 0 then SetVoice(s1, id, s.conns[prev].voice) else s1;
      var s3 := Update(s2, prev, CloseSend(s2.conns[prev]).(phase := Replaced));
      Enter(s3, id)
    else
      Enter(s, id)
  }

  function Enter(s: State, id: ConnId): State
    requires id in s.conns
  {
    Update(s, id, s.conns[id].(phase := Live, since := |s.log|)).(clients := s.clients[s.conns[id].user := id])
  }

  function UnregisterNow(s: State, id: ConnId): State
    requires id in s.conns
  {
    if Registered(s, id) then
      Update(s, id, s.conns[id].(phase := Unregistered)).(clients := s.clients - {s.conns[id].user})
    else s
  }

  function KickClient(s: State, id: ConnId): State
    requires id in s.conns
  {
    var clients := if Registered(s, id) then s.clients - {s.conns[id].user} else s.clients;
    var c := CloseSend(s.conns[id]);
    Update(s, id, if Registered(s, id) then c.(phase := Kicked) else c).(clients := clients)
  }

  function DeliverBroadcast(s: State, channel: ChannelId, body: string): State {
    var m := Broadcast(|s.log| + 1, channel, body);
    State(map id | id in s.conns :: if Addressed(s, id, channel) then SendMsg(s.conns[id], m) else s.conns[id],
          s.clients,
          s.log + [RecordOf(s, channel, body)])
  }

  function RecordOf(s: State, channel: ChannelId, body: string): Record {
    Record(channel, body,
           set id | id in s.conns && Addressed(s, id, channel),
           set id | id in s.conns && Addressed(s, id, channel) && s.conns[id].closed)
  }

  /** What the replay buffer has been given: deliverBroadcast pushes each stamped message once. */
  function Pushed(log: seq<Record>): seq<Entry> {
    seq(|log|, i requires 0 <= i < |log| => Entry(i + 1, log[i].body))
  }

  // ---------- runs ----------

  datatype Event =
    | Connect(id: ConnId, user: UserId)
    | Register(id: ConnId)
    | Unregister(id: ConnId)
    | Kick(id: ConnId)
    | Say(channel: ChannelId, body: string)
    | SendDirect(id: ConnId, body: string)
    | ClosePumps(id: ConnId)
    | PumpOne(id: ConnId)
    | Focus(id: ConnId, channel: ChannelId)
    | ChangeVoice(id: ConnId, channel: ChannelId)

  /** Connection objects are created once and registered at most once; they handle messages after that. */
  predicate Enabled(s: State, e: Event) {
    match e
    case Connect(id, _) => id !in s.conns
    case Register(id) => id in s.conns && s.conns[id].phase == New
    case Say(_, _) => true
    case Focus(id, _) => id in s.conns && s.conns[id].phase != New
    case ChangeVoice(id, _) => id in s.conns && s.conns[id].phase != New
    case PumpOne(id) => id in s.conns && s.conns[id].buffered > 0
    case _ => e.id in s.conns
  }

  function Step(s: State, e: Event): State {
    if !Enabled(s, e) then s
    else match e
      case Connect(id, user) => Update(s, id, NewConn(user))
      case Register(id) => RegisterNow(s, id)
      case Unregister(id) => UnregisterNow(s, id)
      case Kick(id) => KickClient(s, id)
      case Say(channel, body) => DeliverBroadcast(s, channel, body)
      case SendDirect(id, body) => Update(s, id, SendMsg(s.conns[id], Direct(body)))
      case ClosePumps(id) => Update(s, id, CloseSend(s.conns[id]))
      case PumpOne(id) => Update(s, id, s.conns[id].(buffered := s.conns[id].buffered - 1))
      case Focus(id, channel) => Update(s, id, s.conns[id].(focus := channel))
      case ChangeVoice(id, channel) => SetVoice(s, id, channel)
  }

  function Run(s: State, es: seq<Event>): State
    decreases |es|
  {
    if es == [] then s else Run(Step(s, es[0]), es[1..])
  }

  // ---------- the invariant ----------

  /** Broadcasts in the send channel are numbered upwards, between `low` and `high`. */
  ghost predicate Ascending(q: seq<Msg>, low: nat, high: nat) {
    && (forall i :: 0 <= i < |q| && q[i].Broadcast? ==> low < q[i].n <= high)
    && (forall i, j :: 0 <= i < j < |q| && q[i].Broadcast? && q[j].Broadcast? ==> q[i].n < q[j].n)
  }

  /** The i-th broadcast was queued to the connection or counted as dropped. */
  ghost predicate Holds(c: Conn, log: seq<Record>, i: nat)
    requires i < |log|
  {
    var m := Broadcast(i + 1, log[i].channel, log[i].body);
    m in c.queued || m in c.lost
  }

  /**
   * The connection accounts for exactly the broadcasts addressed to it while its send channel was open,
   * all of them made since its registration.
   */
  ghost predicate Served(c: Conn, id: ConnId, log: seq<Record>) {
    forall i :: 0 <= i < |log| ==>
      && (Holds(c, log, i) <==> id in log[i].audience && id !in log[i].deaf)
      && (id in log[i].audience ==> c.phase != New && c.since <= i)
      && (id in log[i].deaf ==> c.closed)
  }

  /** Every broadcast to everyone since its registration was addressed to the connection. */
  ghost predicate Reached(c: Conn, id: ConnId, log: seq<Record>) {
    forall i :: c.since <= i < |log| && log[i].channel == 0 ==> id in log[i].audience
  }

  ghost predicate ConnInv(s: State, id: ConnId)
    requires id in s.conns
  {
    var c := s.conns[id];
    && c.closes == (if c.closed then 1 else 0)
    && c.since <= |s.log|
    && (c.phase == Live <==> Registered(s, id))
    && (c.phase in {Replaced, Kicked} ==> c.closed)
    && (c.phase == New ==> c.voice == 0 && c.focus == 0)
    && Ascending(c.queued, c.since, if c.phase == New then 0 else |s.log|)
    && Ascending(c.lost, c.since, if c.phase == New then 0 else |s.log|)
    && Served(c, id, s.log)
    && (c.phase == Live ==> Reached(c, id, s.log))
  }

  ghost predicate Inv(s: State) {
    && MapOk(s)
    && (forall i :: 0 <= i < |s.log| ==> s.log[i].audience <= s.conns.Keys && s.log[i].deaf <= s.conns.Keys)
    && (forall id | id in s.conns :: ConnInv(s, id))
  }

  /** The two connections account for the same broadcasts. */
  ghost predicate SameBroadcasts(c: Conn, c': Conn) {
    forall m: Msg | m.Broadcast? :: m in c.queued || m in c.lost <==> m in c'.queued || m in c'.lost
  }

  /** A step that touches one connection and keeps its place in the map keeps all the others. */
  lemma UpdateKeepsInv(s: State, id: ConnId, c: Conn)
    requires Inv(s) && id in s.conns
    requires c.user == s.conns[id].user && c.phase == s.conns[id].phase && c.since == s.conns[id].since
    requires s.conns[id].closed ==> c.closed
    requires c.closes == if c.closed then 1 else 0
    requires c.phase == New ==> c.voice == 0 && c.focus == 0
    requires Ascending(c.queued, c.since, if c.phase == New then 0 else |s.log|)
    requires Ascending(c.lost, c.since, if c.phase == New then 0 else |s.log|)
    requires SameBroadcasts(s.conns[id], c)
    ensures Inv(Update(s, id, c))
  {
    var s' := Update(s, id, c);
    forall k | k in s'.conns ensures ConnInv(s', k) {
      assert ConnInv(s, k);
      assert Registered(s', k) == Registered(s, k);
    }
  }

  lemma ConnectKeepsInv(s: State, id: ConnId, user: UserId)
    requires Inv(s) && id !in s.conns
    ensures Inv(Update(s, id, NewConn(user)))
  {
    var s' := Update(s, id, NewConn(user));
    forall k | k in s'.conns ensures ConnInv(s', k) {
      if k != id {
        assert ConnInv(s, k) && Registered(s', k) == Registered(s, k);
      }
    }
  }

  lemma LeaveKeepsInv(s: State, id: ConnId, c: Conn)
    requires Inv(s) && Registered(s, id)
    requires c == s.conns[id].(phase := Unregistered) || c == CloseSend(s.conns[id]).(phase := Kicked)
    ensures Inv(Update(s, id, c).(clients := s.clients - {c.user}))
  {
    var s' := Update(s, id, c).(clients := s.clients - {c.user});
    forall k | k in s'.conns ensures ConnInv(s', k) {
      assert ConnInv(s, k);
      assert k != id ==> Registered(s', k) == Registered(s, k);
    }
  }

  /** The client map points at connections of its own users. */
  ghost predicate MapOk(s: State) {
    forall u | u in s.clients :: s.clients[u] in s.conns && s.conns[s.clients[u]].user == u
  }

  /** The voice channel of the user's registered connection, 0 without one. */
  function UserVoice(s: State, u: UserId): ChannelId {
    if u in s.clients && s.clients[u] in s.conns then s.conns[s.clients[u]].voice else 0
  }

  /** Registration touches the new connection, which takes over the voice channel, and the old one. */
  lemma RegisterShape(s: State, id: ConnId, k: ConnId)
    requires MapOk(s) && id in s.conns && s.conns[id].voice == 0 && !Registered(s, id) && k in s.conns
    ensures var s' := RegisterNow(s, id);
            var user := s.conns[id].user;
            && s'.conns.Keys == s.conns.Keys && s'.clients == s.clients[user := id] && s'.log == s.log
            && s'.conns[k] ==
               if k == id then s.conns[k].(phase := Live, since := |s.log|, voice := UserVoice(s, user))
               else if user in s.clients && k == s.clients[user] then CloseSend(s.conns[k].(voice := 0)).(phase := Replaced)
               else s.conns[k]
  {
  }

  lemma RegisterKeepsInv(s: State, id: ConnId)
    requires Inv(s) && id in s.conns && s.conns[id].phase == New
    ensures Inv(RegisterNow(s, id))
  {
    var s' := RegisterNow(s, id);
    assert ConnInv(s, id);
    RegisterShape(s, id, id);
    forall k | k in s'.conns ensures ConnInv(s', k) && s'.conns[k].user == s.conns[k].user {
      RegisterShape(s, id, k);
      assert ConnInv(s, k);
      assert Registered(s', k) <==> k == id || (Registered(s, k) && s.conns[k].user != s.conns[id].user);
    }
  }

  lemma SendKeeps(c: Conn, m: Msg, low: nat, high: nat)
    requires Ascending(c.queued, low, high) && Ascending(c.lost, low, high)
    requires m.Broadcast? ==> m.n == high + 1 && low <= high
    ensures var c' := SendMsg(c, m);
            var high' := if m.Broadcast? then high + 1 else high;
            && Ascending(c'.queued, low, high') && Ascending(c'.lost, low, high')
            && (forall x: Msg :: x in c'.queued || x in c'.lost <==> x in c.queued || x in c.lost || (x == m && !c.closed))
            && c' == c.(queued := c'.queued, lost := c'.lost, buffered := c'.buffered)
  {
    assert m in c.queued + [m] && m in c.lost + [m];
  }

  lemma DeliverServes(s: State, channel: ChannelId, body: string, id: ConnId)
    requires Inv(s) && id in s.conns
    ensures var s' := DeliverBroadcast(s, channel, body); Served(s'.conns[id], id, s'.log)
  {
    var s' := DeliverBroadcast(s, channel, body);
    var c, c' := s.conns[id], s'.conns[id];
    assert ConnInv(s, id);
    if Addressed(s, id, channel) {
      SendKeeps(c, Broadcast(|s.log| + 1, channel, body), c.since, |s.log|);
    }
    forall i | 0 <= i < |s'.log| ensures Holds(c', s'.log, i) <==> id in s'.log[i].audience && id !in s'.log[i].deaf {
      if i < |s.log| {
        assert Holds(c', s'.log, i) == Holds(c, s.log, i);
      }
    }
  }

  lemma DeliverKeepsConn(s: State, channel: ChannelId, body: string, id: ConnId)
    requires Inv(s) && id in s.conns
    ensures ConnInv(DeliverBroadcast(s, channel, body), id)
  {
    DeliverServes(s, channel, body, id);
    assert ConnInv(s, id) && Registered(DeliverBroadcast(s, channel, body), id) == Registered(s, id);
    if Addressed(s, id, channel) {
      SendKeeps(s.conns[id], Broadcast(|s.log| + 1, channel, body), s.conns[id].since, |s.log|);
    }
  }

  lemma StepKeepsInv(s: State, e: Event)
    requires Inv(s)
    ensures Inv(Step(s, e))
  {
    if Enabled(s, e) {
      if !e.Connect? && !e.Say? {
        assert ConnInv(s, e.id);
      }
      match e
      case Connect(id, user) => ConnectKeepsInv(s, id, user);
      case Register(id) => RegisterKeepsInv(s, id);
      case Unregister(id) =>
        if Registered(s, id) { LeaveKeepsInv(s, id, s.conns[id].(phase := Unregistered)); }
      case Kick(id) =>
        if Registered(s, id) {
          LeaveKeepsInv(s, id, CloseSend(s.conns[id]).(phase := Kicked));
        } else {
          UpdateKeepsInv(s, id, CloseSend(s.conns[id]));
        }
      case Say(channel, body) =>
        forall id | id in s.conns ensures ConnInv(Step(s, e), id) {
          DeliverKeepsConn(s, channel, body, id);
        }
      case SendDirect(id, body) =>
        var c := s.conns[id];
        SendKeeps(c, Direct(body), c.since, if c.phase == New then 0 else |s.log|);
        UpdateKeepsInv(s, id, SendMsg(c, Direct(body)));
      case _ => UpdateKeepsInv(s, e.id, Step(s, e).conns[e.id]);
    }
  }

  lemma {:induction false} RunKeepsInv(s: State, es: seq<Event>)
    requires Inv(s)
    ensures Inv(Run(s, es))
    decreases |es|
  {
    if es != [] {
      StepKeepsInv(s, es[0]);
      RunKeepsInv(Step(s, es[0]), es[1..]);
    }
  }

  // ---------- what every run guarantees ----------

  /** One client per user, and a stale unregister or kick never evicts the connection that replaced it. */
  lemma ReplacementIsNeverEvicted(es: seq<Event>, stale: ConnId)
    requires var s := Run(EMPTY, es); stale in s.conns && s.conns[stale].phase in {Replaced, Kicked, Unregistered}
    ensures var s := Run(EMPTY, es);
            && (forall u, v | u in s.clients && v in s.clients :: s.clients[u] == s.clients[v] ==> u == v)
            && UnregisterNow(s, stale).clients == s.clients
            && KickClient(s, stale).clients == s.clients
            && (s.conns[stale].phase != Unregistered ==> s.conns[stale].closed)
  {
    RunKeepsInv(EMPTY, es);
    assert ConnInv(Run(EMPTY, es), stale);
  }

  /** An unregister or kick takes out that connection, if it is the registered one, and no other. */
  lemma RemovalTakesOutExactlyOne(es: seq<Event>, id: ConnId, k: ConnId)
    requires id in Run(EMPTY, es).conns
    ensures var s := Run(EMPTY, es);
            && (Registered(UnregisterNow(s, id), k) <==> Registered(s, k) && k != id)
            && (Registered(KickClient(s, id), k) <==> Registered(s, k) && k != id)
            && KickClient(s, id).conns[id].closed
  {
    RunKeepsInv(EMPTY, es);
  }

  /** A message is counted as dropped only by an open connection whose send buffer is full. */
  lemma DroppedOnlyWhenFull(s: State, e: Event, id: ConnId)
    requires id in s.conns && id in Step(s, e).conns && Step(s, e).conns[id].lost != s.conns[id].lost
    ensures !s.conns[id].closed && s.conns[id].buffered >= SEND_BUF_SIZE
    ensures Step(s, e).conns[id].queued == s.conns[id].queued
  {
    assert e.Say? || e.SendDirect?;
  }

  lemma StepKeepsClosed(s: State, e: Event, id: ConnId)
    requires Inv(s) && id in s.conns && s.conns[id].closed
    ensures var s' := Step(s, e);
            && id in s'.conns && s'.conns[id].closed
            && s'.conns[id].queued == s.conns[id].queued && s'.conns[id].lost == s.conns[id].lost
  {
  }

  /** A closed send channel stays closed, was closed exactly once, and nothing is queued on it again. */
  lemma {:induction false} ClosedIsFinal(s: State, es: seq<Event>, id: ConnId)
    requires Inv(s) && id in s.conns && s.conns[id].closed
    ensures var s' := Run(s, es);
            && id in s'.conns && s'.conns[id].closed && s'.conns[id].closes == 1
            && s'.conns[id].queued == s.conns[id].queued && s'.conns[id].lost == s.conns[id].lost
    decreases |es|
  {
    assert ConnInv(s, id);
    if es != [] {
      StepKeepsInv(s, es[0]);
      StepKeepsClosed(s, es[0], id);
      ClosedIsFinal(Step(s, es[0]), es[1..], id);
    }
  }

  /** Broadcast numbers queued to one connection strictly increase. */
  lemma QueuedNumbersIncrease(es: seq<Event>, id: ConnId, i: nat, j: nat)
    requires id in Run(EMPTY, es).conns
    requires var q := Run(EMPTY, es).conns[id].queued; i < j < |q| && q[i].Broadcast? && q[j].Broadcast?
    ensures var q := Run(EMPTY, es).conns[id].queued; q[i].n < q[j].n
  {
    RunKeepsInv(EMPTY, es);
    assert ConnInv(Run(EMPTY, es), id);
  }

  // ---------- the send buffer ----------

  /** How many messages the write pump has taken from a connection's send channel. */
  function Pumped(s: State, es: seq<Event>, id: ConnId): nat
    decreases |es|
  {
    if es == [] then 0
    else (if es[0] == PumpOne(id) && Enabled(s, es[0]) then 1 else 0) + Pumped(Step(s, es[0]), es[1..], id)
  }

  /** What the buffer does not hold any more. */
  function Taken(s: State, id: ConnId): int {
    if id in s.conns then |s.conns[id].queued| - s.conns[id].buffered else 0
  }

  ghost predicate BufferOk(s: State, id: ConnId) {
    id in s.conns ==> 0 <= Taken(s, id) && s.conns[id].buffered <= 256
  }

  lemma StepBuffers(s: State, e: Event, id: ConnId)
    requires MapOk(s) && BufferOk(s, id)
    ensures BufferOk(Step(s, e), id)
    ensures Taken(Step(s, e), id) == Taken(s, id) + (if e == PumpOne(id) && Enabled(s, e) then 1 else 0)
  {
  }

  lemma {:induction false} RunBuffers(s: State, es: seq<Event>, id: ConnId)
    requires Inv(s) && BufferOk(s, id)
    ensures BufferOk(Run(s, es), id) && Taken(Run(s, es), id) == Taken(s, id) + Pumped(s, es, id)
    decreases |es|
  {
    if es != [] {
      StepKeepsInv(s, es[0]);
      StepBuffers(s, es[0], id);
      RunBuffers(Step(s, es[0]), es[1..], id);
    }
  }

  /** In every run the send buffer holds what was queued and not pumped, at most 256 messages. */
  lemma BufferHoldsTheUnpumped(es: seq<Event>, id: ConnId)
    requires id in Run(EMPTY, es).conns
    ensures var c := Run(EMPTY, es).conns[id];
            c.buffered == |c.queued| - Pumped(EMPTY, es, id) <= 256
  {
    RunBuffers(EMPTY, es, id);
  }

  /** The message an event sends to a connection, if any. */
  function MessageFor(s: State, e: Event, id: ConnId): Option<Msg>
    requires id in s.conns
  {
    var c := s.conns[id];
    match e
    case Say(channel, body) =>
      if c.user in s.clients && s.clients[c.user] == id && (channel == 0 || channel == c.focus || channel == c.voice)
      then Some(Broadcast(|s.log| + 1, channel, body)) else None
    case SendDirect(k, body) => if k == id then Some(Direct(body)) else None
    case _ => None
  }

  /**
   * In every run, a message to an open connection is queued, behind all others, if and only if fewer than
   * 256 of the messages queued before have not been pumped, and is counted as dropped otherwise. A closed
   * connection and one without a message keep what they have.
   */
  lemma SendIsExact(es: seq<Event>, e: Event, id: ConnId)
    requires id in Run(EMPTY, es).conns
    ensures var s := Run(EMPTY, es);
            var c := s.conns[id];
            var m := MessageFor(s, e, id);
            && id in Step(s, e).conns
            && var c' := Step(s, e).conns[id];
            && c'.user == c.user
            && (m.None? || c.closed ==> c'.queued == c.queued && c'.lost == c.lost)
            && (m.Some? && !c.closed ==>
                  if |c.queued| - Pumped(EMPTY, es, id) < 256
                  then c'.queued == c.queued + [m.value] && c'.lost == c.lost
                  else c'.queued == c.queued && c'.lost == c.lost + [m.value])
  {
    RunKeepsInv(EMPTY, es);
    BufferHoldsTheUnpumped(es, id);
    StepSends(Run(EMPTY, es), e, id);
  }

  lemma StepSends(s: State, e: Event, id: ConnId)
    requires Inv(s) && id in s.conns
    ensures var c := s.conns[id];
            var m := MessageFor(s, e, id);
            && id in Step(s, e).conns
            && var c' := Step(s, e).conns[id];
            && c'.user == c.user
            && (m.None? || c.closed ==> c'.queued == c.queued && c'.lost == c.lost)
            && (m.Some? && !c.closed ==>
                  if c.buffered < 256
                  then c'.queued == c.queued + [m.value] && c'.lost == c.lost
                  else c'.queued == c.queued && c'.lost == c.lost + [m.value])
  {
  }

  // ---------- who is registered, who is closed ----------

  /** The event registers another connection of the same user. */
  predicate Replaces(s: State, e: Event, id: ConnId)
    requires id in s.conns
  {
    e.Register? && e.id != id && e.id in s.conns && s.conns[e.id].phase == New && s.conns[e.id].user == s.conns[id].user
  }

  /**
   * In every run, a connection is the registered one of its user from its registration until it is
   * unregistered, kicked or replaced; and it is closed from the moment it is kicked, replaced while
   * registered, or given up by its pumps.
   */
  lemma LifetimesAreExact(es: seq<Event>, e: Event, id: ConnId)
    requires id in Run(EMPTY, es).conns
    ensures var s := Run(EMPTY, es);
            var s' := Step(s, e);
            && id in s'.conns
            && (Registered(s', id) <==>
                  || (e == Register(id) && s.conns[id].phase == New)
                  || (Registered(s, id) && e != Unregister(id) && e != Kick(id) && !Replaces(s, e, id)))
            && (s'.conns[id].closed <==>
                  || s.conns[id].closed || e == Kick(id) || e == ClosePumps(id)
                  || (Registered(s, id) && Replaces(s, e, id)))
  {
    RunKeepsInv(EMPTY, es);
    if e.Register? && Enabled(Run(EMPTY, es), e) {
      RegisterLifetimes(Run(EMPTY, es), e.id, id);
    } else {
      OtherLifetimes(Run(EMPTY, es), e, id);
    }
  }

  lemma RegisterLifetimes(s: State, k: ConnId, id: ConnId)
    requires Inv(s) && id in s.conns && k in s.conns && s.conns[k].phase == New
    ensures var s' := RegisterNow(s, k);
            && id in s'.conns
            && (Registered(s', id) <==> k == id || (Registered(s, id) && s.conns[k].user != s.conns[id].user))
            && (s'.conns[id].closed <==>
                  s.conns[id].closed || (k != id && Registered(s, id) && s.conns[k].user == s.conns[id].user))
  {
    assert ConnInv(s, id) && ConnInv(s, k);
    RegisterShape(s, k, id);
    RegisterShape(s, k, k);
  }

  lemma OtherLifetimes(s: State, e: Event, id: ConnId)
    requires Inv(s) && id in s.conns && !(e.Register? && Enabled(s, e))
    ensures var s' := Step(s, e);
            && id in s'.conns
            && (Registered(s', id) <==> Registered(s, id) && e != Unregister(id) && e != Kick(id))
            && (s'.conns[id].closed <==> s.conns[id].closed || e == Kick(id) || e == ClosePumps(id))
  {
  }

  function InVoice(s: State): set<UserId> {
    set u | u in s.clients && UserVoice(s, u) != 0
  }

  /** Replacing a connection moves its voice channel over: the same users are in voice, in the same channels. */
  lemma ReplacementKeepsVoice(es: seq<Event>, id: ConnId, u: UserId)
    requires var s := Run(EMPTY, es);
             && id in s.conns && s.conns[id].phase == New
             && s.conns[id].user in s.clients && u in s.clients
    ensures var s := Run(EMPTY, es);
            var s' := RegisterNow(s, id);
            && s'.clients.Keys == s.clients.Keys
            && UserVoice(s', u) == UserVoice(s, u)
            && InVoice(s') == InVoice(s)
  {
    RunKeepsInv(EMPTY, es);
    var s := Run(EMPTY, es);
    assert ConnInv(s, id);
    RegisterShape(s, id, id);
    forall v | v in s.clients ensures UserVoice(RegisterNow(s, id), v) == UserVoice(s, v) {
      RegisterShape(s, id, s.clients[v]);
    }
  }

  // ---------- replay on reconnect ----------

  lemma {:induction false} LogOnlyGrows(s: State, es: seq<Event>)
    ensures s.log <= Run(s, es).log
    decreases |es|
  {
    if es != [] {
      LogOnlyGrows(Step(s, es[0]), es[1..]);
    }
  }

  lemma {:induction false} ConnsOnlyGrow(s: State, es: seq<Event>)
    ensures s.conns.Keys <= Run(s, es).conns.Keys
    decreases |es|
  {
    if es != [] {
      ConnsOnlyGrow(Step(s, es[0]), es[1..]);
    }
  }

  lemma StepKeepsSince(s: State, e: Event, id: ConnId)
    requires id in s.conns && s.conns[id].phase != New
    ensures var s' := Step(s, e);
            id in s'.conns && s'.conns[id].phase != New && s'.conns[id].since == s.conns[id].since
  {
  }

  /** A connection that is still live was registered where it was first, as long as it is not New. */
  lemma {:induction false} SinceIsKept(s: State, es: seq<Event>, id: ConnId)
    requires id in s.conns && s.conns[id].phase != New
    ensures id in Run(s, es).conns && Run(s, es).conns[id].since == s.conns[id].since
    decreases |es|
  {
    if es != [] {
      StepKeepsSince(s, es[0], id);
      SinceIsKept(Step(s, es[0]), es[1..], id);
    }
  }

  /**
   * A broadcast ends up queued to a connection, or counted as dropped by it, exactly when the connection
   * was registered, addressed and open at that moment; nothing that happens later changes that, whether
   * the connection goes on, is closed, replaced, kicked or unregistered.
   */
  lemma DeliveryIsExactAndFinal(es: seq<Event>, channel: ChannelId, body: string, rest: seq<Event>, id: ConnId)
    requires id in Run(EMPTY, es).conns
    ensures var s := Run(EMPTY, es);
            var later := Run(Step(s, Say(channel, body)), rest);
            && id in later.conns && |s.log| < |later.log|
            && (Holds(later.conns[id], later.log, |s.log|) <==> Addressed(s, id, channel) && !s.conns[id].closed)
  {
    var s := Run(EMPTY, es);
    var said := Step(s, Say(channel, body));
    RunKeepsInv(EMPTY, es);
    StepKeepsInv(s, Say(channel, body));
    RunKeepsInv(said, rest);
    LogOnlyGrows(said, rest);
    ConnsOnlyGrow(said, rest);
    assert ConnInv(Run(said, rest), id);
    assert Run(said, rest).log[|s.log|] == RecordOf(s, channel, body);
  }

  /** The i-th broadcast is covered neither by a replay of the first `replayed` nor by the connection. */
  ghost predicate SilentlyMissed(s: State, id: ConnId, replayed: nat, i: nat)
    requires id in s.conns && i < |s.log|
  {
    replayed <= i && !Holds(s.conns[id], s.log, i)
  }

  /** The states a reconnecting client passes: snapshot, just before registration, some time later. */
  datatype Reconnect = Reconnect(snapshot: State, before: State, later: State)

  function Reconnecting(es: seq<Event>, gap: seq<Event>, rest: seq<Event>, id: ConnId): Reconnect {
    var s1 := Run(EMPTY, es);
    var s2 := Run(s1, gap);
    Reconnect(s1, s2, Run(Step(s2, Register(id)), rest))
  }

  lemma ReconnectStates(es: seq<Event>, gap: seq<Event>, rest: seq<Event>, id: ConnId)
    requires var r := Reconnecting(es, gap, rest, id); id in r.before.conns && r.before.conns[id].phase == New
    ensures var r := Reconnecting(es, gap, rest, id);
            && Inv(r.later) && id in r.later.conns && r.later.conns[id].since == |r.before.log|
            && r.snapshot.log <= r.before.log <= r.later.log
  {
    var r := Reconnecting(es, gap, rest, id);
    var entered := Step(r.before, Register(id));
    RunKeepsInv(EMPTY, es);
    RunKeepsInv(r.snapshot, gap);
    StepKeepsInv(r.before, Register(id));
    RunKeepsInv(entered, rest);
    LogOnlyGrows(r.snapshot, gap);
    LogOnlyGrows(entered, rest);
    SinceIsKept(entered, rest, id);
  }

  /**
   * A client reconnects with last_seq == after: the replay snapshot is taken after `es`, `gap` happens
   * before its new connection `id` is registered, `rest` after, and may close, replace, kick or
   * unregister it. A successful replay is every broadcast after `after` up to the snapshot. A later
   * broadcast is missed if and only if it fell into `gap`, or came after registration and was not
   * addressed to the connection or found it closed. To a connection still registered everything said to
   * everyone was addressed, and one still open was never found closed.
   */
  lemma ReconnectMissesExactlyTheGap(es: seq<Event>, gap: seq<Event>, rest: seq<Event>, id: ConnId, after: nat, i: nat)
    requires var r := Reconnecting(es, gap, rest, id);
             && id in r.before.conns && r.before.conns[id].phase == New
             && i < |r.later.log|
             && Since(Window(Pushed(r.snapshot.log), REPLAY_SIZE), after).Some?
    ensures var r := Reconnecting(es, gap, rest, id);
            && id in r.later.conns
            && after <= |r.snapshot.log| <= |r.before.log| <= |r.later.log|
            && Since(Window(Pushed(r.snapshot.log), REPLAY_SIZE), after).value == Data(Pushed(r.snapshot.log)[after..])
            && (SilentlyMissed(r.later, id, |r.snapshot.log|, i) <==>
                  || |r.snapshot.log| <= i < |r.before.log|
                  || (|r.before.log| <= i && (id !in r.later.log[i].audience || id in r.later.log[i].deaf)))
            && (|r.before.log| <= i && r.later.log[i].channel == 0 && r.later.conns[id].phase == Live ==>
                  id in r.later.log[i].audience)
            && (!r.later.conns[id].closed ==> id !in r.later.log[i].deaf)
  {
    var r := Reconnecting(es, gap, rest, id);
    ReconnectStates(es, gap, rest, id);
    ReplayIsExact(Pushed(r.snapshot.log), REPLAY_SIZE, after);
    assert ConnInv(r.later, id);
  }

  /**
   * A replay knows no channels: it brings every broadcast after `after`, also one that was held back from
   * the user's connection `prev` when it was made. That is so exactly for a broadcast to a channel that
   * `prev` neither looked at nor was in voice in.
   */
  lemma ReplayGoesBeyondDelivery(es: seq<Event>, channel: ChannelId, body: string, rest: seq<Event>, prev: ConnId, after: nat)
    requires var s := Run(EMPTY, es); Registered(s, prev) && !s.conns[prev].closed && after <= |s.log|
    requires var snapshot := Run(Step(Run(EMPTY, es), Say(channel, body)), rest);
             Since(Window(Pushed(snapshot.log), REPLAY_SIZE), after).Some?
    ensures var s := Run(EMPTY, es);
            var snapshot := Run(Step(s, Say(channel, body)), rest);
            var events := Since(Window(Pushed(snapshot.log), REPLAY_SIZE), after).value;
            var i := |s.log|;
            && prev in snapshot.conns && i < |snapshot.log|
            && i - after < |events| && events[i - after] == body
            && (!Holds(snapshot.conns[prev], snapshot.log, i) <==>
                  channel != 0 && channel != s.conns[prev].focus && channel != s.conns[prev].voice)
  {
    var s := Run(EMPTY, es);
    var said := Step(s, Say(channel, body));
    var log := Run(said, rest).log;
    DeliveryIsExactAndFinal(es, channel, body, rest, prev);
    LogOnlyGrows(said, rest);
    ReplayIsExact(Pushed(log), REPLAY_SIZE, after);
    assert log[|s.log|] == RecordOf(s, channel, body);
    assert Pushed(log)[after..][|s.log| - after] == Entry(|s.log| + 1, body);
  }

  // ---------- the source's object ----------

  class Hub {
    var conns: map<ConnId, Conn>
    var clients: map<UserId, ConnId>
    var lastSeq: nat
    const replayBuf: EventRingBuffer
    ghost var log: seq<Record>

    ghost function Abs(): State reads this {
      State(conns, clients, log)
    }

    /** The counter and the replay buffer agree with the log, and the map points at its own users. */
    ghost predicate Valid() reads this, replayBuf, replayBuf.entries {
      && replayBuf.Valid() && replayBuf.size == REPLAY_SIZE
      && replayBuf.history == Pushed(log) && lastSeq == |log|
      && MapOk(Abs())
    }

    constructor ()
      ensures Valid() && Abs() == EMPTY && fresh(replayBuf) && fresh(replayBuf.entries)
    {
      conns, clients, lastSeq, log := map[], map[], 0, [];
      replayBuf := new EventRingBuffer(REPLAY_SIZE);
    }

    method Register(id: ConnId)
      requires Valid() && id in conns
      modifies this
      ensures Valid() && Abs() == RegisterNow(old(Abs()), id)
    {
      var user := conns[id].user;
      if user in clients {
        var prev := clients[user];
        var prevVoice := conns[prev].voice;
        conns := conns[prev := conns[prev].(voice := 0)];
        if conns[id].voice == 0 {
          conns := conns[id := conns[id].(voice := prevVoice)];
        }
        conns := conns[prev := CloseSend(conns[prev]).(phase := Replaced)];
      }
      conns := conns[id := conns[id].(phase := Live, since := lastSeq)];
      clients := clients[user := id];
    }

    method Unregister(id: ConnId)
      requires Valid() && id in conns
      modifies this
      ensures Valid() && Abs() == UnregisterNow(old(Abs()), id)
    {
      var user := conns[id].user;
      if user in clients && clients[user] == id {
        clients := clients - {user};
        conns := conns[id := conns[id].(phase := Unregistered)];
      }
    }

    method Kick(id: ConnId)
      requires Valid() && id in conns
      modifies this
      ensures Valid() && Abs() == KickClient(old(Abs()), id)
    {
      var user := conns[id].user;
      if user in clients && clients[user] == id {
        clients := clients - {user};
        conns := conns[id := conns[id].(phase := Kicked)];
      }
      conns := conns[id := CloseSend(conns[id])];
    }

    /** The source's loop ranges over the client map in no particular order. */
    method Deliver(channel: ChannelId, body: string)
      requires Valid()
      modifies this, replayBuf, replayBuf.entries
      ensures Valid() && Abs() == DeliverBroadcast(old(Abs()), channel, body)
    {
      ghost var s := Abs();
      assert MapOk(s);
      lastSeq := lastSeq + 1;
      replayBuf.Push(lastSeq, body);
      var m := Broadcast(lastSeq, channel, body);
      var todo := clients.Keys;
      while todo != {}
        invariant todo <= clients.Keys && conns.Keys == s.conns.Keys
        invariant forall u | u in clients :: clients[u] in conns && conns[clients[u]].user == u
        invariant forall id | id in conns ::
                    conns[id] == if Addressed(s, id, channel) && s.conns[id].user !in todo
                                 then SendMsg(s.conns[id], m) else s.conns[id]
        modifies this`conns
        decreases todo
      {
        var u := Pick(todo);
        var id := clients[u];
        if channel == 0 || conns[id].focus == channel || conns[id].voice == channel {
          conns := conns[id := SendMsg(conns[id], m)];
        }
        todo := todo - {u};
      }
      log := log + [RecordOf(s, channel, body)];
      assert Pushed(log) == Pushed(s.log) + [Entry(lastSeq, body)];
    }

    /** The replay a reconnecting client is offered; None sends it the full ready payload instead. */
    method ReplayFor(after: nat) returns (events: Option<seq<string>>)
      requires Valid()
      ensures var oldest := |log| - Min(|log|, REPLAY_SIZE) + 1;
              && (events.Some? <==> 0 < after && oldest <= after < |log|)
              && (events.Some? ==> events.value == Data(Pushed(log)[after..]))
    {
      if after == 0 {
        return None;
      }
      events := replayBuf.EventsSince(after);
      ReplayIsExact(Pushed(log), REPLAY_SIZE, after);
    }

    method VoiceSessionCount() returns (n: nat)
      requires Valid()
      ensures n == |InVoice(Abs())|
    {
      n := CountInVoice(State(conns, clients, []));
      assert InVoice(State(conns, clients, [])) == InVoice(Abs());
    }
  }

  lemma OneLess(s: State, todo: set<UserId>, u: UserId)
    requires MapOk(s) && u in todo && u in s.clients
    ensures |InVoice(s) - (todo - {u})| == |InVoice(s) - todo| + if s.conns[s.clients[u]].voice != 0 then 1 else 0
  {
    if s.conns[s.clients[u]].voice != 0 {
      assert InVoice(s) - (todo - {u}) == (InVoice(s) - todo) + {u};
    } else {
      assert InVoice(s) - (todo - {u}) == InVoice(s) - todo;
    }
  }

  method CountInVoice(s: State) returns (n: nat)
    requires MapOk(s)
    ensures n == |InVoice(s)|
  {
    n := 0;
    var todo := s.clients.Keys;
    assert InVoice(s) - todo == {};
    while todo != {}
      invariant todo <= s.clients.Keys && n == |InVoice(s) - todo|
      decreases todo
    {
      var u := Pick(todo);
      OneLess(s, todo, u);
      if s.conns[s.clients[u]].voice != 0 {
        n := n + 1;
      }
      todo := todo - {u};
    }
    assert InVoice(s) - todo == InVoice(s);
  }
}
