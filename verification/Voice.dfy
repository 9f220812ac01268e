/**
 * Voice membership: the voiceChID of a connection and the user's voice_states row are two copies of
 * one fact. Every handler is one atomic step and database calls succeed.
 */
module Voice {
  import opened Common
  import opened WsHub

  datatype Limits = Limits(maxUsers: int, maxVideo: int)

  datatype Row = Row(channel: ChannelId, camera: bool)

  datatype Server = Server(hub: State, rows: map<UserId, Row>, channels: map<ChannelId, Limits>)

  function Members(rows: map<UserId, Row>, ch: ChannelId): set<UserId> {
    set u | u in rows && rows[u].channel == ch
  }

  function Cameras(rows: map<UserId, Row>, ch: ChannelId): set<UserId> {
    set u | u in rows && rows[u].channel == ch && rows[u].camera
  }

  // ---------- handlers ----------

  function WithVoice(v: Server, id: ConnId, ch: ChannelId): Server
    requires id in v.hub.conns
  {
    v.(hub := SetVoice(v.hub, id, ch))
  }

  function HandleLeave(v: Server, id: ConnId): Server
    requires id in v.hub.conns
  {
    if v.hub.conns[id].voice == 0 then v
    else WithVoice(v, id, 0).(rows := v.rows - {v.hub.conns[id].user})
  }

  /** `allowed` stands for the permission and LiveKit checks, `tokenOk` for the steps that roll back. */
  function HandleJoin(v: Server, id: ConnId, ch: ChannelId, allowed: bool, tokenOk: bool): Server
    requires id in v.hub.conns
  {
    var user, current := v.hub.conns[id].user, v.hub.conns[id].voice;
    if ch <= 0 || !allowed || ch !in v.channels || current == ch then v
    else
      var v' := if current > 0 then HandleLeave(v, id) else v;
      var max := v.channels[ch].maxUsers;
      if max > 0 && |Members(v'.rows, ch)| >= max then v'
      else if tokenOk then WithVoice(v', id, ch).(rows := v'.rows[user := Row(ch, false)])
      else WithVoice(v', id, 0).(rows := v'.rows - {user})
  }

  function HandleCamera(v: Server, id: ConnId, allowed: bool, enabled: bool): Server
    requires id in v.hub.conns
  {
    var user, ch := v.hub.conns[id].user, v.hub.conns[id].voice;
    if ch == 0 || !allowed || user !in v.rows then v
    else if enabled && ch in v.channels && v.channels[ch].maxVideo > 0
            && |Cameras(v.rows, ch)| >= v.channels[ch].maxVideo then v
    else v.(rows := v.rows[user := v.rows[user].(camera := enabled)])
  }

  function HandleParticipantLeft(v: Server, user: UserId, ch: ChannelId): Server {
    if user !in v.hub.clients then v.(rows := v.rows - {user})
    else if v.hub.clients[user] !in v.hub.conns || v.hub.conns[v.hub.clients[user]].voice != ch then v
    else WithVoice(v, v.hub.clients[user], 0).(rows := v.rows - {user})
  }

  function CleanupChannel(v: Server, ch: ChannelId): Server {
    var users := Members(v.rows, ch);
    v.(rows := v.rows - users,
       hub := v.hub.(conns := map id | id in v.hub.conns ::
         if Registered(v.hub, id) && v.hub.conns[id].user in users
         then v.hub.conns[id].(voice := 0) else v.hub.conns[id]))
  }

  /** The deferred cleanup of the read pump, then the closing of the send channel. */
  function HandleDisconnect(v: Server, id: ConnId): Server
    requires id in v.hub.conns
  {
    var v1 := v.(hub := UnregisterNow(v.hub, id));
    var v2 := if v.hub.conns[id].user in v1.hub.clients then v1 else HandleLeave(v1, id);
    v2.(hub := Update(v2.hub, id, CloseSend(v2.hub.conns[id])))
  }

  // ---------- runs ----------

  datatype Event =
    | Join(id: ConnId, ch: ChannelId, allowed: bool, tokenOk: bool)
    | Leave(id: ConnId)
    | Camera(id: ConnId, allowed: bool, enabled: bool)
    | ParticipantLeft(user: UserId, ch: ChannelId)
    | Cleanup(ch: ChannelId)
    | Disconnect(id: ConnId)
    | HubStep(e: WsHub.Event)

  /** Only the registered connection of a user handles messages; its pumps run once it was registered. */
  predicate Enabled(v: Server, e: Event) {
    match e
    case Join(id, _, _, _) => Registered(v.hub, id)
    case Leave(id) => Registered(v.hub, id)
    case Camera(id, _, _) => Registered(v.hub, id)
    case Disconnect(id) => id in v.hub.conns && v.hub.conns[id].phase != New
    case HubStep(h) => !h.ChangeVoice? && !h.Unregister?
    case _ => true
  }

  function Step(v: Server, e: Event): Server {
    if !Enabled(v, e) then v
    else match e
      case Join(id, ch, allowed, tokenOk) => HandleJoin(v, id, ch, allowed, tokenOk)
      case Leave(id) => HandleLeave(v, id)
      case Camera(id, allowed, enabled) => HandleCamera(v, id, allowed, enabled)
      case ParticipantLeft(user, ch) => HandleParticipantLeft(v, user, ch)
      case Cleanup(ch) => CleanupChannel(v, ch)
      case Disconnect(id) => HandleDisconnect(v, id)
      case HubStep(h) => v.(hub := WsHub.Step(v.hub, h))
  }

  function Run(v: Server, es: seq<Event>): Server
    decreases |es|
  {
    if es == [] then v else Run(Step(v, es[0]), es[1..])
  }

  function Start(channels: map<ChannelId, Limits>): Server {
    Server(EMPTY, map[], channels)
  }

  // ---------- the invariant ----------

  /** The client map is well formed and connections not yet registered are in no voice channel. */
  ghost predicate HubOk(s: State) {
    && MapOk(s)
    && (forall id | id in s.conns && s.conns[id].phase == New :: s.conns[id].voice == 0 && !Registered(s, id))
    && (forall id | id in s.conns :: s.conns[id].voice >= 0)
  }

  function VoiceOf(v: Server, u: UserId): ChannelId {
    UserVoice(v.hub, u)
  }

  /** A registered client in a voice channel has a row for exactly that channel. */
  ghost predicate Agree(v: Server) {
    forall u | u in v.hub.clients && VoiceOf(v, u) != 0 :: u in v.rows && v.rows[u].channel == VoiceOf(v, u)
  }

  ghost predicate WithinLimits(rows: map<UserId, Row>, channels: map<ChannelId, Limits>) {
    forall ch | ch in channels ::
      && (channels[ch].maxUsers > 0 ==> |Members(rows, ch)| <= channels[ch].maxUsers)
      && (channels[ch].maxVideo > 0 ==> |Cameras(rows, ch)| <= channels[ch].maxVideo)
  }

  ghost predicate Inv(v: Server) {
    HubOk(v.hub) && Agree(v) && WithinLimits(v.rows, v.channels)
  }

  // ---------- rows ----------

  lemma RemovingKeepsLimits(rows: map<UserId, Row>, channels: map<ChannelId, Limits>, gone: set<UserId>)
    requires WithinLimits(rows, channels)
    ensures WithinLimits(rows - gone, channels)
  {
    forall ch | ch in channels
      ensures |Members(rows - gone, ch)| <= |Members(rows, ch)| && |Cameras(rows - gone, ch)| <= |Cameras(rows, ch)|
    {
      SubsetIsNotLarger(Members(rows - gone, ch), Members(rows, ch));
      SubsetIsNotLarger(Cameras(rows - gone, ch), Cameras(rows, ch));
    }
  }

  lemma UpsertKeepsLimits(rows: map<UserId, Row>, channels: map<ChannelId, Limits>, u: UserId, ch: ChannelId)
    requires WithinLimits(rows, channels)
    requires ch in channels && channels[ch].maxUsers > 0 ==> |Members(rows, ch)| < channels[ch].maxUsers
    ensures WithinLimits(rows[u := Row(ch, false)], channels)
  {
    var rows' := rows[u := Row(ch, false)];
    forall k | k in channels
      ensures |Members(rows', k)| <= |Members(rows, k)| + (if k == ch then 1 else 0)
      ensures |Cameras(rows', k)| <= |Cameras(rows, k)|
    {
      SubsetIsNotLarger(Members(rows', k), if k == ch then Members(rows, k) + {u} else Members(rows, k));
      SubsetIsNotLarger(Cameras(rows', k), Cameras(rows, k));
    }
  }

  lemma CameraKeepsLimits(rows: map<UserId, Row>, channels: map<ChannelId, Limits>, u: UserId, enabled: bool)
    requires WithinLimits(rows, channels) && u in rows
    requires var ch := rows[u].channel;
             enabled && ch in channels && channels[ch].maxVideo > 0 ==> |Cameras(rows, ch)| < channels[ch].maxVideo
    ensures WithinLimits(rows[u := rows[u].(camera := enabled)], channels)
  {
    var rows' := rows[u := rows[u].(camera := enabled)];
    var ch := rows[u].channel;
    forall k | k in channels
      ensures |Members(rows', k)| <= |Members(rows, k)|
      ensures |Cameras(rows', k)| <= |Cameras(rows, k)| + (if k == ch && enabled then 1 else 0)
    {
      SubsetIsNotLarger(Members(rows', k), Members(rows, k));
      SubsetIsNotLarger(Cameras(rows', k), if k == ch && enabled then Cameras(rows, k) + {u} else Cameras(rows, k));
    }
  }

  // ---------- every step keeps the invariant ----------

  /** Changing one registered connection's voice channel is seen by that user alone. */
  lemma SetVoiceSeen(v: Server, id: ConnId, ch: ChannelId)
    requires HubOk(v.hub) && id in v.hub.conns && v.hub.conns[id].phase != New && ch >= 0
    ensures HubOk(SetVoice(v.hub, id, ch))
    ensures forall u :: VoiceOf(WithVoice(v, id, ch), u) ==
                        if Registered(v.hub, id) && u == v.hub.conns[id].user then ch else VoiceOf(v, u)
  {
    var s := SetVoice(v.hub, id, ch);
    assert forall k | k in s.conns :: Registered(s, k) == Registered(v.hub, k);
  }

  lemma LeaveKeepsInv(v: Server, id: ConnId)
    requires Inv(v) && Registered(v.hub, id)
    ensures Inv(HandleLeave(v, id)) && VoiceOf(HandleLeave(v, id), v.hub.conns[id].user) == 0
    ensures HandleLeave(v, id).hub.clients == v.hub.clients && HandleLeave(v, id).channels == v.channels
  {
    SetVoiceSeen(v, id, 0);
    RemovingKeepsLimits(v.rows, v.channels, {v.hub.conns[id].user});
  }

  lemma JoinKeepsInv(v: Server, id: ConnId, ch: ChannelId, allowed: bool, tokenOk: bool)
    requires Inv(v) && Registered(v.hub, id)
    ensures Inv(HandleJoin(v, id, ch, allowed, tokenOk))
  {
    var user, current := v.hub.conns[id].user, v.hub.conns[id].voice;
    if ch > 0 && allowed && ch in v.channels && current != ch {
      if current > 0 {
        LeaveKeepsInv(v, id);
      }
      var v' := if current > 0 then HandleLeave(v, id) else v;
      assert Registered(v'.hub, id);
      SetVoiceSeen(v', id, if tokenOk then ch else 0);
      RemovingKeepsLimits(v'.rows, v'.channels, {user});
      if !(v.channels[ch].maxUsers > 0 && |Members(v'.rows, ch)| >= v.channels[ch].maxUsers) {
        UpsertKeepsLimits(v'.rows, v'.channels, user, ch);
      }
    }
  }

  lemma CameraKeepsInv(v: Server, id: ConnId, allowed: bool, enabled: bool)
    requires Inv(v) && Registered(v.hub, id)
    ensures Inv(HandleCamera(v, id, allowed, enabled))
  {
    var user, ch := v.hub.conns[id].user, v.hub.conns[id].voice;
    if ch != 0 && allowed && user in v.rows {
      assert VoiceOf(v, user) == ch && v.rows[user].channel == ch;
      if !(enabled && ch in v.channels && v.channels[ch].maxVideo > 0
           && |Cameras(v.rows, ch)| >= v.channels[ch].maxVideo) {
        CameraKeepsLimits(v.rows, v.channels, user, enabled);
      }
    }
  }

  lemma ParticipantLeftKeepsInv(v: Server, user: UserId, ch: ChannelId)
    requires Inv(v)
    ensures Inv(HandleParticipantLeft(v, user, ch))
  {
    RemovingKeepsLimits(v.rows, v.channels, {user});
    if user in v.hub.clients {
      SetVoiceSeen(v, v.hub.clients[user], 0);
    }
  }

  lemma CleanupKeepsInv(v: Server, ch: ChannelId)
    requires Inv(v)
    ensures Inv(CleanupChannel(v, ch))
    ensures forall u :: VoiceOf(CleanupChannel(v, ch), u) ==
                        if u in Members(v.rows, ch) then 0 else VoiceOf(v, u)
  {
    RemovingKeepsLimits(v.rows, v.channels, Members(v.rows, ch));
    var v' := CleanupChannel(v, ch);
    assert forall k | k in v'.hub.conns :: Registered(v'.hub, k) == Registered(v.hub, k);
  }

  /** The hubs differ at most in send channels and focus. */
  ghost predicate SameVoice(s: State, s': State) {
    && s'.clients == s.clients && s'.conns.Keys == s.conns.Keys
    && forall id | id in s.conns ::
         && s'.conns[id].user == s.conns[id].user && s'.conns[id].voice == s.conns[id].voice
         && s'.conns[id].phase == s.conns[id].phase
  }

  lemma SameVoiceKeepsInv(v: Server, s': State)
    requires Inv(v) && SameVoice(v.hub, s')
    ensures Inv(v.(hub := s'))
    ensures forall u :: VoiceOf(v.(hub := s'), u) == VoiceOf(v, u)
  {
    var v' := v.(hub := s');
    forall id | id in s'.conns
      ensures s'.conns[id].user == v.hub.conns[id].user && s'.conns[id].voice == v.hub.conns[id].voice
      ensures s'.conns[id].phase == v.hub.conns[id].phase && Registered(s', id) == Registered(v.hub, id)
    {
      assert id in v.hub.conns;
    }
    forall u ensures VoiceOf(v', u) == VoiceOf(v, u) {
      if u in v.hub.clients {
        var k := v.hub.clients[u];
        assert k in v.hub.conns && k in s'.conns.Keys && s'.clients[u] == k;
      }
    }
    forall u | u in s'.clients ensures s'.clients[u] in s'.conns && s'.conns[s'.clients[u]].user == u {
      var k := v.hub.clients[u];
      assert k in v.hub.conns && k in s'.conns.Keys && s'.conns[k].user == v.hub.conns[k].user;
    }
  }

  /** `s'` lost at most one client and `id` at most changed its phase and closed its send channel. */
  lemma RemovalKeepsInv(v: Server, id: ConnId, c: Conn, clients: map<UserId, ConnId>)
    requires Inv(v) && id in v.hub.conns
    requires c.user == v.hub.conns[id].user && c.voice == v.hub.conns[id].voice
    requires c.phase == v.hub.conns[id].phase || c.phase != New
    requires clients == v.hub.clients || clients == v.hub.clients - {c.user}
    ensures var v' := v.(hub := Update(v.hub, id, c).(clients := clients));
            Inv(v') && forall u | u in clients :: VoiceOf(v', u) == VoiceOf(v, u)
  {
    var s' := Update(v.hub, id, c).(clients := clients);
    assert forall k | k in s'.conns :: Registered(s', k) ==> Registered(v.hub, k);
  }

  lemma RegisterKeepsInv(v: Server, id: ConnId)
    requires Inv(v) && id in v.hub.conns && v.hub.conns[id].phase == New
    ensures var v' := v.(hub := RegisterNow(v.hub, id));
            && Inv(v') && v'.hub.clients.Keys == v.hub.clients.Keys + {v.hub.conns[id].user}
            && forall u :: VoiceOf(v', u) == VoiceOf(v, u)
  {
    var s, s' := v.hub, RegisterNow(v.hub, id);
    RegisterShape(s, id, id);
    forall k | k in s'.conns
      ensures s'.conns[k].user == s.conns[k].user && s'.conns[k].voice >= 0
      ensures s'.conns[k].phase == New ==> s'.conns[k].voice == 0 && !Registered(s', k)
    {
      RegisterShape(s, id, k);
    }
    forall u ensures VoiceOf(v.(hub := s'), u) == VoiceOf(v, u) {
      if u in s.clients {
        RegisterShape(s, id, s.clients[u]);
      }
    }
  }

  lemma ConnectKeepsInv(v: Server, id: ConnId, user: UserId)
    requires Inv(v) && id !in v.hub.conns
    ensures var v' := v.(hub := Update(v.hub, id, NewConn(user)));
            Inv(v') && forall u :: VoiceOf(v', u) == VoiceOf(v, u)
  {
    var s' := Update(v.hub, id, NewConn(user));
    assert forall k | k in s'.conns :: Registered(s', k) ==> k != id && Registered(v.hub, k);
  }

  lemma HubStepKeepsInv(v: Server, h: WsHub.Event)
    requires Inv(v) && !h.ChangeVoice? && !h.Unregister?
    ensures var v' := v.(hub := WsHub.Step(v.hub, h));
            && Inv(v')
            && (forall u | u in v'.hub.clients :: VoiceOf(v', u) == VoiceOf(v, u))
            && (forall u | u in v'.hub.clients :: u in v.hub.clients || (WsHub.Enabled(v.hub, h) && h.Register? && u == v.hub.conns[h.id].user))
            && (WsHub.Enabled(v.hub, h) && h.Register? ==> v.hub.conns[h.id].user in v'.hub.clients)
  {
    if WsHub.Enabled(v.hub, h) {
      match h
      case Connect(id, user) => ConnectKeepsInv(v, id, user);
      case Register(id) => RegisterKeepsInv(v, id);
      case Kick(id) =>
        var s' := KickClient(v.hub, id);
        RemovalKeepsInv(v, id, s'.conns[id], s'.clients);
      case _ => SameVoiceKeepsInv(v, WsHub.Step(v.hub, h));
    }
  }

  /** The user has no registered connection: leaving removes a row nobody relies on. */
  lemma DetachedLeaveKeepsInv(v: Server, id: ConnId)
    requires Inv(v) && id in v.hub.conns && v.hub.conns[id].phase != New
    requires v.hub.conns[id].user !in v.hub.clients
    ensures var v' := HandleLeave(v, id);
            && Inv(v') && v'.hub.clients == v.hub.clients && v'.hub.conns.Keys == v.hub.conns.Keys
            && (forall u :: VoiceOf(v', u) == VoiceOf(v, u))
            && (forall u | u in v.hub.clients :: u in v.rows <==> u in v'.rows)
  {
    SetVoiceSeen(v, id, 0);
    RemovingKeepsLimits(v.rows, v.channels, {v.hub.conns[id].user});
  }

  lemma UnregisterKeepsInv(v: Server, id: ConnId)
    requires Inv(v) && id in v.hub.conns
    ensures var v' := v.(hub := UnregisterNow(v.hub, id));
            && Inv(v') && v'.hub.conns.Keys == v.hub.conns.Keys && v'.hub.clients.Keys <= v.hub.clients.Keys
            && v'.hub.conns[id].user == v.hub.conns[id].user
            && (v.hub.conns[id].phase != New ==> v'.hub.conns[id].phase != New)
            && forall u | u in v'.hub.clients :: VoiceOf(v', u) == VoiceOf(v, u)
  {
    var s' := UnregisterNow(v.hub, id);
    RemovalKeepsInv(v, id, s'.conns[id], s'.clients);
    assert s' == Update(v.hub, id, s'.conns[id]).(clients := s'.clients);
  }

  lemma DisconnectKeepsInv(v: Server, id: ConnId)
    requires Inv(v) && id in v.hub.conns && v.hub.conns[id].phase != New
    ensures var v' := HandleDisconnect(v, id);
            && Inv(v')
            && (forall u | u in v'.hub.clients :: u in v.hub.clients && VoiceOf(v', u) == VoiceOf(v, u))
            && (forall u | u in v'.hub.clients :: u in v.rows <==> u in v'.rows)
  {
    UnregisterKeepsInv(v, id);
    var v1 := v.(hub := UnregisterNow(v.hub, id));
    if v.hub.conns[id].user !in v1.hub.clients {
      DetachedLeaveKeepsInv(v1, id);
    }
    var v2 := if v.hub.conns[id].user in v1.hub.clients then v1 else HandleLeave(v1, id);
    SameVoiceKeepsInv(v2, Update(v2.hub, id, CloseSend(v2.hub.conns[id])));
  }

  lemma StepKeepsInv(v: Server, e: Event)
    requires Inv(v)
    ensures Inv(Step(v, e)) && Step(v, e).channels == v.channels
  {
    if Enabled(v, e) {
      match e
      case Join(id, ch, allowed, tokenOk) => JoinKeepsInv(v, id, ch, allowed, tokenOk);
      case Leave(id) => LeaveKeepsInv(v, id);
      case Camera(id, allowed, enabled) => CameraKeepsInv(v, id, allowed, enabled);
      case ParticipantLeft(user, ch) => ParticipantLeftKeepsInv(v, user, ch);
      case Cleanup(ch) => CleanupKeepsInv(v, ch);
      case Disconnect(id) => DisconnectKeepsInv(v, id);
      case HubStep(h) => HubStepKeepsInv(v, h);
    }
  }

  lemma {:induction false} RunKeepsInv(v: Server, es: seq<Event>)
    requires Inv(v)
    ensures Inv(Run(v, es)) && Run(v, es).channels == v.channels
    decreases |es|
  {
    if es != [] {
      StepKeepsInv(v, es[0]);
      RunKeepsInv(Step(v, es[0]), es[1..]);
    }
  }

  lemma StartIsFine(channels: map<ChannelId, Limits>)
    ensures Inv(Start(channels))
  {
    forall ch | ch in channels ensures |Members(map[], ch)| == 0 && |Cameras(map[], ch)| == 0 {
      assert Members(map[], ch) == {} && Cameras(map[], ch) == {};
    }
  }

  // ---------- what every run guarantees ----------

  /** Through any run, a registered client in a voice channel has a row for exactly that channel. */
  lemma MembershipAgrees(channels: map<ChannelId, Limits>, es: seq<Event>, u: UserId)
    requires VoiceOf(Run(Start(channels), es), u) != 0
    ensures var v := Run(Start(channels), es);
            u in v.rows && v.rows[u].channel == VoiceOf(v, u)
  {
    StartIsFine(channels);
    RunKeepsInv(Start(channels), es);
  }

  /** No reachable state has more members or more cameras in a channel than its positive limits. */
  lemma LimitsHold(channels: map<ChannelId, Limits>, es: seq<Event>, ch: ChannelId)
    requires ch in channels
    ensures var v := Run(Start(channels), es);
            && (channels[ch].maxUsers > 0 ==> |Members(v.rows, ch)| <= channels[ch].maxUsers)
            && (channels[ch].maxVideo > 0 ==> |Cameras(v.rows, ch)| <= channels[ch].maxVideo)
  {
    StartIsFine(channels);
    RunKeepsInv(Start(channels), es);
  }

  /**
   * What a join comes to. Without permission, for a channel that does not exist, and for the channel the
   * user is in already, it changes nothing. Otherwise the user is in the new channel exactly when it had
   * room and the token was issued, and in no channel otherwise; the old channel is left in both cases.
   * The row follows, with one exception: a user in no channel whom a full channel refuses changes nothing,
   * and so keeps a ghost row if there was one, even when that row is what fills the channel.
   */
  lemma JoinOutcome(v: Server, id: ConnId, ch: ChannelId, allowed: bool, tokenOk: bool)
    requires Inv(v) && Registered(v.hub, id)
    ensures var u := v.hub.conns[id].user;
            var v' := Step(v, Join(id, ch, allowed, tokenOk));
            if !allowed || ch <= 0 || ch !in v.channels || v.hub.conns[id].voice == ch then v' == v
            else
              var room := v.channels[ch].maxUsers <= 0 || |Members(v.rows, ch)| < v.channels[ch].maxUsers;
              && VoiceOf(v', u) == (if room && tokenOk then ch else 0)
              && (if room && tokenOk then u in v'.rows && v'.rows[u] == Row(ch, false)
                  else if room || v.hub.conns[id].voice != 0 then u !in v'.rows
                  else v' == v)
  {
    if allowed && ch > 0 && ch in v.channels && v.hub.conns[id].voice != ch {
      var u := v.hub.conns[id].user;
      assert VoiceOf(v, u) == v.hub.conns[id].voice;
      var v1 := if v.hub.conns[id].voice > 0 then HandleLeave(v, id) else v;
      assert v.hub.conns[id].voice > 0 ==> u in v.rows && v.rows[u].channel != ch && u !in v1.rows;
      assert Members(v1.rows, ch) == Members(v.rows, ch);
    }
  }

  /** A ghost row that fills a channel keeps its own user out of it. */
  lemma GhostShutsItselfOut(v: Server, id: ConnId, ch: ChannelId, tokenOk: bool)
    requires Inv(v) && Registered(v.hub, id) && v.hub.conns[id].voice == 0
    requires ch > 0 && ch in v.channels && v.channels[ch].maxUsers == 1
    requires v.hub.conns[id].user in v.rows && v.rows[v.hub.conns[id].user].channel == ch
    ensures Step(v, Join(id, ch, true, tokenOk)) == v
  {
    SubsetIsNotLarger({v.hub.conns[id].user}, Members(v.rows, ch));
    JoinOutcome(v, id, ch, true, tokenOk);
  }

  /** Leaving clears channel and row; who is in no channel stays as they are, ghost row included. */
  lemma LeaveOutcome(v: Server, id: ConnId)
    requires Inv(v) && Registered(v.hub, id)
    ensures var u := v.hub.conns[id].user;
            var v' := Step(v, Leave(id));
            if v.hub.conns[id].voice == 0 then v' == v else VoiceOf(v', u) == 0 && u !in v'.rows
  {
  }

  /**
   * What LiveKit's report that a user left a channel comes to: nothing if the user's registered connection
   * is somewhere else by now; no channel and no row if it is still there; no row if it is gone.
   */
  lemma ParticipantLeftOutcome(v: Server, u: UserId, ch: ChannelId)
    requires Inv(v)
    ensures var v' := Step(v, ParticipantLeft(u, ch));
            && (u in v.hub.clients && VoiceOf(v, u) != ch ==> v' == v)
            && (u in v.hub.clients && VoiceOf(v, u) == ch ==> u in v'.hub.clients && VoiceOf(v', u) == 0 && u !in v'.rows)
            && (u !in v.hub.clients ==> v'.hub == v.hub && u !in v'.rows)
  {
  }

  /** Cleaning a channel up removes its rows and takes their users out of voice, and nobody else. */
  lemma CleanupOutcome(v: Server, ch: ChannelId, u: UserId)
    requires Inv(v)
    ensures var v' := Step(v, Cleanup(ch));
            && (u in v'.rows <==> u in v.rows && v.rows[u].channel != ch)
            && (u in v'.rows ==> v'.rows[u] == v.rows[u])
            && VoiceOf(v', u) == if u in v.rows && v.rows[u].channel == ch then 0 else VoiceOf(v, u)
  {
    CleanupKeepsInv(v, ch);
  }

  /**
   * What the end of a connection comes to. While another connection of the user is registered, nothing but
   * its own closing. Otherwise the user is gone, and the row with them exactly if this connection carried
   * a voice channel; so a ghost row stays, counting against its channel's capacity.
   */
  lemma DisconnectOutcome(v: Server, id: ConnId)
    requires Inv(v) && id in v.hub.conns && v.hub.conns[id].phase != New
    ensures var c := v.hub.conns[id];
            var v' := Step(v, Disconnect(id));
            && v'.hub.conns[id].closed
            && if c.user in v.hub.clients && !Registered(v.hub, id)
               then v'.rows == v.rows && v'.hub.clients == v.hub.clients
               else && c.user !in v'.hub.clients
                    && v'.rows == (if c.voice != 0 then v.rows - {c.user} else v.rows)
  {
  }

  /**
   * A camera switch takes effect unless it is not permitted, the user is in no channel, or the channel has
   * as many cameras on as it allows.
   */
  lemma CameraOutcome(v: Server, id: ConnId, allowed: bool, enabled: bool)
    requires Inv(v) && Registered(v.hub, id)
    ensures var u, ch := v.hub.conns[id].user, v.hub.conns[id].voice;
            var full := ch in v.channels && 0 < v.channels[ch].maxVideo <= |Cameras(v.rows, ch)|;
            Step(v, Camera(id, allowed, enabled)) ==
            if !allowed || ch == 0 || (enabled && full) then v else v.(rows := v.rows[u := Row(ch, enabled)])
  {
    assert VoiceOf(v, v.hub.conns[id].user) == v.hub.conns[id].voice;
  }

  /** Whose voice membership an event is about. */
  function Concerned(v: Server, e: Event): set<UserId> {
    match e
    case ParticipantLeft(user, _) => {user}
    case Cleanup(ch) => Members(v.rows, ch)
    case HubStep(_) => {}
    case _ => if e.id in v.hub.conns then {v.hub.conns[e.id].user} else {}
  }

  /** Nobody else's row or voice channel changes, and hub steps change none. */
  lemma OthersUntouched(v: Server, e: Event, w: UserId)
    requires Inv(v) && w !in Concerned(v, e)
    ensures var v' := Step(v, e);
            && (w in v'.rows <==> w in v.rows) && (w in v.rows ==> v'.rows[w] == v.rows[w])
            && (w in v'.hub.clients || !e.HubStep? ==> VoiceOf(v', w) == VoiceOf(v, w))
  {
    if Enabled(v, e) {
      match e
      case Join(id, ch, allowed, tokenOk) => JoinKeepsOthers(v, id, ch, allowed, tokenOk, w);
      case Cleanup(ch) => CleanupOutcome(v, ch, w);
      case Disconnect(id) => DisconnectKeepsOthers(v, id, w);
      case HubStep(h) => HubStepKeepsInv(v, h);
      case _ =>
    }
  }

  lemma JoinKeepsOthers(v: Server, id: ConnId, ch: ChannelId, allowed: bool, tokenOk: bool, w: UserId)
    requires Inv(v) && Registered(v.hub, id) && w != v.hub.conns[id].user
    ensures var v' := HandleJoin(v, id, ch, allowed, tokenOk);
            && (w in v'.rows <==> w in v.rows) && (w in v.rows ==> v'.rows[w] == v.rows[w])
            && VoiceOf(v', w) == VoiceOf(v, w)
  {
  }

  lemma DisconnectKeepsOthers(v: Server, id: ConnId, w: UserId)
    requires Inv(v) && id in v.hub.conns && v.hub.conns[id].phase != New && w != v.hub.conns[id].user
    ensures var v' := HandleDisconnect(v, id);
            && (w in v'.rows <==> w in v.rows) && (w in v.rows ==> v'.rows[w] == v.rows[w])
            && VoiceOf(v', w) == VoiceOf(v, w)
  {
    DisconnectKeepsInv(v, id);
  }

  /** The other direction as well: no registered user has a row while being in no voice channel. */
  ghost predicate NoGhosts(v: Server) {
    forall u | u in v.hub.clients && u in v.rows :: VoiceOf(v, u) != 0
  }

  /**
   * A ghost row appears in exactly one way: a user without a registered connection, whose row is still
   * there, registers again.
   */
  lemma GhostsAppearExactly(v: Server, e: Event)
    requires Inv(v) && NoGhosts(v)
    ensures NoGhosts(Step(v, e)) <==>
            !(&& e.HubStep? && e.e.Register? && WsHub.Enabled(v.hub, e.e)
              && v.hub.conns[e.e.id].user !in v.hub.clients && v.hub.conns[e.e.id].user in v.rows)
  {
    if Enabled(v, e) {
      match e
      case Join(id, ch, allowed, tokenOk) => JoinKeepsInv(v, id, ch, allowed, tokenOk);
      case Cleanup(ch) => CleanupKeepsInv(v, ch);
      case Disconnect(id) => DisconnectKeepsInv(v, id);
      case HubStep(h) => HubStepKeepsInv(v, h);
      case _ =>
    }
  }

  /**
   * Without the rule that only the registered connection handles messages, a leave message breaks the
   * agreement exactly when a stale connection that still carries a voice channel sends it while the
   * user's registered connection is in voice.
   */
  lemma StaleLeaveBreaksExactly(v: Server, id: ConnId)
    requires Inv(v) && id in v.hub.conns && v.hub.conns[id].phase != New
    ensures Agree(HandleLeave(v, id)) <==>
            Registered(v.hub, id) || v.hub.conns[id].voice == 0 || VoiceOf(v, v.hub.conns[id].user) == 0
  {
    SetVoiceSeen(v, id, 0);
  }

  /**
   * So ghosts do occur: whenever a client in voice is kicked and its user reconnects before the kicked
   * connection's cleanup has run, the row stays although the user's registered connection is in no channel.
   */
  lemma KickThenReconnectLeavesGhost(v: Server, id: ConnId, k: ConnId)
    requires Inv(v) && Registered(v.hub, id) && v.hub.conns[id].voice != 0 && k !in v.hub.conns
    ensures var u := v.hub.conns[id].user;
            var v' := Run(v, [HubStep(WsHub.Kick(id)), HubStep(Connect(k, u)), HubStep(WsHub.Register(k)), Disconnect(id)]);
            && Inv(v') && u in v'.hub.clients && v'.hub.clients[u] == k && VoiceOf(v', u) == 0
            && u in v'.rows && v'.rows[u].channel == v.hub.conns[id].voice
  {
    var u := v.hub.conns[id].user;
    var es := [HubStep(WsHub.Kick(id)), HubStep(Connect(k, u)), HubStep(WsHub.Register(k)), Disconnect(id)];
    Suffixes(es);
    assert VoiceOf(v, u) == v.hub.conns[id].voice;
    var v1 := Step(v, es[0]);
    assert Run(v, es[0..]) == Run(v1, es[1..]);
    AfterKick(v, id);
    var v2 := Step(v1, es[1]);
    assert Run(v1, es[1..]) == Run(v2, es[2..]);
    var v3 := Step(v2, es[2]);
    assert Run(v2, es[2..]) == Run(v3, es[3..]);
    AfterReconnect(v1, id, k);
    var v4 := Step(v3, es[3]);
    assert Run(v3, es[3..]) == Run(v4, es[4..]);
    DisconnectReplaced(v3, id);
  }

  /**
   * Such a row even outlives the last connection of its user: once that has gone too, nobody is connected
   * and the row still counts against the channel's capacity.
   */
  lemma GhostOutlivesItsUser(v: Server, id: ConnId, k: ConnId)
    requires Inv(v) && Registered(v.hub, id) && v.hub.conns[id].voice != 0 && k !in v.hub.conns
    ensures var u := v.hub.conns[id].user;
            var es := [HubStep(WsHub.Kick(id)), HubStep(Connect(k, u)), HubStep(WsHub.Register(k)), Disconnect(id)];
            var v' := Step(Run(v, es), Disconnect(k));
            u !in v'.hub.clients && u in Members(v'.rows, v.hub.conns[id].voice)
  {
    KickThenReconnectLeavesGhost(v, id, k);
    var u := v.hub.conns[id].user;
    var es := [HubStep(WsHub.Kick(id)), HubStep(Connect(k, u)), HubStep(WsHub.Register(k)), Disconnect(id)];
    DisconnectOutcome(Run(v, es), k);
  }

  lemma AfterReconnect(v: Server, id: ConnId, k: ConnId)
    requires Inv(v) && id in v.hub.conns && v.hub.conns[id].phase != New && k !in v.hub.conns
    requires v.hub.conns[id].user !in v.hub.clients
    ensures var u := v.hub.conns[id].user;
            var v' := Step(Step(v, HubStep(Connect(k, u))), HubStep(WsHub.Register(k)));
            && Inv(v') && v'.rows == v.rows && u in v'.hub.clients && VoiceOf(v', u) == 0
            && id in v'.hub.conns && v'.hub.conns[id].user == u && v'.hub.conns[id].phase != New
            && v'.hub.clients[u] == k && !Registered(v'.hub, id)
  {
    var u := v.hub.conns[id].user;
    var v1 := Step(v, HubStep(Connect(k, u)));
    ConnectKeepsInv(v, k, u);
    RegisterKeepsInv(v1, k);
    RegisterShape(v1.hub, k, id);
  }

  lemma AfterKick(v: Server, id: ConnId)
    requires Inv(v) && Registered(v.hub, id)
    ensures var v' := Step(v, HubStep(WsHub.Kick(id)));
            && Inv(v') && v'.rows == v.rows && v'.hub.conns.Keys == v.hub.conns.Keys
            && v'.hub.clients == v.hub.clients - {v.hub.conns[id].user}
            && v'.hub.conns[id].phase == Kicked && v'.hub.conns[id].user == v.hub.conns[id].user
  {
    HubStepKeepsInv(v, WsHub.Kick(id));
  }

  /** The cleanup of a connection that is no longer the registered one leaves membership alone. */
  lemma DisconnectReplaced(v: Server, id: ConnId)
    requires Inv(v) && id in v.hub.conns && v.hub.conns[id].phase != New
    requires v.hub.conns[id].user in v.hub.clients && !Registered(v.hub, id)
    ensures var v' := Step(v, Disconnect(id));
            && Inv(v') && v'.hub.clients == v.hub.clients && v'.rows == v.rows
            && forall u | u in v.hub.clients :: VoiceOf(v', u) == VoiceOf(v, u)
  {
    DisconnectKeepsInv(v, id);
  }

  // ---------- the source's handlers ----------

  class VoiceServer {
    var hub: State
    var rows: map<UserId, Row>
    const channels: map<ChannelId, Limits>

    ghost function Abs(): Server reads this {
      Server(hub, rows, channels)
    }

    constructor (channels: map<ChannelId, Limits>)
      ensures Abs() == Start(channels)
    {
      this.channels := channels;
      hub, rows := EMPTY, map[];
    }

    method ClearVoiceChID(id: ConnId) returns (ch: ChannelId)
      requires id in hub.conns
      modifies this`hub
      ensures ch == old(hub.conns[id].voice)
      ensures hub == SetVoice(old(hub), id, 0)
    {
      ch := hub.conns[id].voice;
      hub := SetVoice(hub, id, 0);
    }

    method Leave(id: ConnId)
      requires id in hub.conns
      modifies this
      ensures Abs() == HandleLeave(old(Abs()), id)
    {
      var ch := ClearVoiceChID(id);
      if ch == 0 {
        assert hub.conns == old(hub).conns;
        return;
      }
      rows := rows - {hub.conns[id].user};
    }

    method Join(id: ConnId, ch: ChannelId, allowed: bool, tokenOk: bool)
      requires id in hub.conns
      modifies this
      ensures Abs() == HandleJoin(old(Abs()), id, ch, allowed, tokenOk)
    {
      if ch <= 0 || !allowed || ch !in channels {
        return;
      }
      var current := hub.conns[id].voice;
      if current == ch {
        return;
      }
      if current > 0 {
        Leave(id);
      }
      var max := channels[ch].maxUsers;
      if max > 0 && |Members(rows, ch)| >= max {
        return;
      }
      ghost var before := Abs();
      var user := hub.conns[id].user;
      rows := rows[user := Row(ch, false)];
      hub := SetVoice(hub, id, ch);
      if !tokenOk {
        // rollbackVoiceJoin
        var _ := ClearVoiceChID(id);
        rows := rows - {user};
        assert hub.conns == SetVoice(before.hub, id, 0).conns;
        assert rows == before.rows - {user};
      }
    }

    method Camera(id: ConnId, allowed: bool, enabled: bool)
      requires id in hub.conns
      modifies this
      ensures Abs() == HandleCamera(old(Abs()), id, allowed, enabled)
    {
      var ch := hub.conns[id].voice;
      if ch == 0 || !allowed {
        return;
      }
      if enabled && ch in channels && channels[ch].maxVideo > 0 {
        if |Cameras(rows, ch)| >= channels[ch].maxVideo {
          return;
        }
      }
      var user := hub.conns[id].user;
      if user in rows {
        rows := rows[user := rows[user].(camera := enabled)];
      }
    }

    method ParticipantLeft(user: UserId, ch: ChannelId)
      requires HubOk(hub)
      modifies this
      ensures Abs() == HandleParticipantLeft(old(Abs()), user, ch)
    {
      if user in hub.clients {
        var id := hub.clients[user];
        if hub.conns[id].voice == ch {
          var _ := ClearVoiceChID(id);
          rows := rows - {user};
        }
      } else {
        rows := rows - {user};
      }
    }

    /** The deferred cleanup of the read pump and the closing of the send channel. */
    method Disconnect(id: ConnId)
      requires id in hub.conns
      modifies this
      ensures Abs() == HandleDisconnect(old(Abs()), id)
    {
      hub := UnregisterNow(hub, id);
      var replaced := hub.conns[id].user in hub.clients;
      if !replaced {
        Leave(id);
      }
      hub := Update(hub, id, CloseSend(hub.conns[id]));
    }

    /** Users of the channel are taken in no particular order. */
    method CleanupVoiceForChannel(ch: ChannelId)
      requires HubOk(hub)
      modifies this
      ensures Abs() == CleanupChannel(old(Abs()), ch)
    {
      ghost var v := Abs();
      var users := Members(rows, ch);
      var todo := users;
      while todo != {}
        invariant todo <= users && users == Members(v.rows, ch)
        invariant rows == v.rows - (users - todo)
        invariant hub == v.hub.(conns := hub.conns) && hub.conns.Keys == v.hub.conns.Keys
        invariant forall id | id in hub.conns ::
                    hub.conns[id] == if Registered(v.hub, id) && v.hub.conns[id].user in users - todo
                                     then v.hub.conns[id].(voice := 0) else v.hub.conns[id]
        decreases todo
      {
        var u := Pick(todo);
        rows := rows - {u};
        if u in hub.clients {
          assert v.hub.clients[u] in v.hub.conns;
          var _ := ClearVoiceChID(hub.clients[u]);
        }
        todo := todo - {u};
        assert rows == v.rows - (users - todo);
      }
      assert users - todo == users;
      forall id | id in hub.conns ensures hub.conns[id] == CleanupChannel(v, ch).hub.conns[id] {
      }
    }
  }
}
