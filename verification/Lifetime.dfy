/**
 * The lifetime of outbound sessions over whole runs: how often a session is used, for
 * which room, and that we can always look up the key of our own messages.
 */
module Lifetime {
  import opened Devices
  import opened Distribution
  import Coverage

  /** How many messages a session has encrypted. */
  function Uses(sent: seq<Sent>, id: SessionId): nat {
    if sent == [] then 0
    else Uses(sent[..|sent| - 1], id) + (if sent[|sent| - 1].session == id then 1 else 0)
  }

  lemma UsesAppend(sent: seq<Sent>, m: Sent, id: SessionId)
    ensures Uses(sent + [m], id) == Uses(sent, id) + (if m.session == id then 1 else 0)
  {
    assert (sent + [m])[..|sent|] == sent;
  }

  lemma {:induction false} UnusedSession(sent: seq<Sent>, id: SessionId)
    requires forall m :: m in sent ==> m.session != id
    ensures Uses(sent, id) == 0
  {
    if sent == [] {
    } else {
      UnusedSession(sent[..|sent| - 1], id);
    }
  }

  /** The current session of a room: its number is taken, its twin is stored, and its counter counts its messages. */
  ghost predicate SessionOk(s: ClientState, room: RoomId, g: GroupSession) {
    && g.id < s.created && (room, g.id) in s.inbound
    && g.messageCount == Uses(s.sent, g.id) <= 100
    && (forall m :: m in s.sent && m.session == g.id ==> m.room == room)
  }

  ghost predicate HistoryOk(s: ClientState) {
    && (forall m :: m in s.sent ==> m.session < s.created && (m.room, m.session) in s.inbound)
    && (forall id :: Uses(s.sent, id) <= 100)
    && (forall i :: 0 <= i < |s.sent| ==> s.sent[i].index == Uses(s.sent[..i], s.sent[i].session))
    && OneRoomEach(s.sent)
  }

  /** All messages of a session are of one room. */
  ghost predicate OneRoomEach(sent: seq<Sent>) {
    forall i, j :: 0 <= i < |sent| && 0 <= j < |sent| && sent[i].session == sent[j].session ==>
        sent[i].room == sent[j].room
  }

  lemma OneRoomAppend(sent: seq<Sent>, m: Sent)
    requires OneRoomEach(sent) && forall o :: o in sent && o.session == m.session ==> o.room == m.room
    ensures OneRoomEach(sent + [m])
  {
  }

  ghost predicate LifetimeOk(s: ClientState) {
    && HistoryOk(s)
    && (forall r :: r in s.outbound ==> SessionOk(s, r, s.outbound[r]))
    && (forall q, r :: q in s.outbound && r in s.outbound && q != r ==> s.outbound[q].id != s.outbound[r].id)
  }

  /** What a step without a new session or message may do: drop sessions, and change what does not count. */
  ghost predicate KeepsSessions(s: ClientState, s': ClientState) {
    && s'.inbound == s.inbound && s'.created == s.created && s'.sent == s.sent
    && (forall r :: r in s'.outbound ==>
          r in s.outbound && s'.outbound[r].id == s.outbound[r].id
          && s'.outbound[r].messageCount == s.outbound[r].messageCount)
  }

  lemma KeepingKeepsLifetime(s: ClientState, s': ClientState)
    requires LifetimeOk(s) && KeepsSessions(s, s')
    ensures LifetimeOk(s')
  {
    forall r | r in s'.outbound ensures SessionOk(s', r, s'.outbound[r]) {
      assert SessionOk(s, r, s.outbound[r]);
    }
  }

  lemma NewSessionKeepsLifetime(s: ClientState, room: RoomId, now: int)
    requires LifetimeOk(s)
    ensures LifetimeOk(NewSession(s, room, now))
  {
    var s' := NewSession(s, room, now);
    UnusedSession(s.sent, s.created);
    forall r | r in s'.outbound ensures SessionOk(s', r, s'.outbound[r]) {
      if r != room {
        assert SessionOk(s, r, s.outbound[r]);
      }
    }
    forall q, r | q in s'.outbound && r in s'.outbound && q != r ensures s'.outbound[q].id != s'.outbound[r].id {
      assert q != room ==> SessionOk(s, q, s.outbound[q]);
      assert r != room ==> SessionOk(s, r, s.outbound[r]);
    }
  }

  lemma EnsureSessionKeepsLifetime(s: ClientState, room: RoomId, now: int)
    requires LifetimeOk(s)
    ensures LifetimeOk(EnsureSession(s, room, now))
  {
    if room !in s.outbound {
      NewSessionKeepsLifetime(s, room, now);
    }
  }

  /** The state after one more message in a room. */
  function SendIn(s: ClientState, room: RoomId): ClientState
    requires room in s.outbound
  {
    var g := s.outbound[room];
    s.(outbound := s.outbound[room := g.(messageCount := g.messageCount + 1)],
       sent := s.sent + [Sent(room, g.id, g.messageCount)])
  }

  lemma UsesStayWithin(sent: seq<Sent>, m: Sent)
    requires Uses(sent, m.session) < 100 && forall id :: Uses(sent, id) <= 100
    ensures forall id :: Uses(sent + [m], id) <= 100
  {
    forall id ensures Uses(sent + [m], id) <= 100 {
      UsesAppend(sent, m, id);
      hide Uses;
    }
  }

  lemma IndicesAppend(sent: seq<Sent>, m: Sent)
    requires forall i :: 0 <= i < |sent| ==> sent[i].index == Uses(sent[..i], sent[i].session)
    requires m.index == Uses(sent, m.session)
    ensures
      var s' := sent + [m];
      forall i :: 0 <= i < |s'| ==> s'[i].index == Uses(s'[..i], s'[i].session)
  {
    hide Uses;
    var s' := sent + [m];
    forall i | 0 <= i < |s'| ensures s'[i].index == Uses(s'[..i], s'[i].session) {
      assert s'[..i] == if i < |sent| then sent[..i] else sent;
    }
  }

  lemma SendKeepsHistory(s: ClientState, room: RoomId)
    requires LifetimeOk(s) && room in s.outbound && s.outbound[room].messageCount < 100
    ensures HistoryOk(SendIn(s, room))
  {
    var g := s.outbound[room];
    assert SessionOk(s, room, g);
    hide OneRoomEach, Uses;
    OneRoomAppend(s.sent, Sent(room, g.id, g.messageCount));
    UsesStayWithin(s.sent, Sent(room, g.id, g.messageCount));
    IndicesAppend(s.sent, Sent(room, g.id, g.messageCount));
  }

  lemma SendKeepsSession(s: ClientState, room: RoomId, r: RoomId)
    requires room in s.outbound && s.outbound[room].messageCount < 100
    requires r in s.outbound && SessionOk(s, r, s.outbound[r])
    requires r != room ==> s.outbound[r].id != s.outbound[room].id
    ensures SessionOk(SendIn(s, room), r, SendIn(s, room).outbound[r])
  {
    var g := s.outbound[room];
    UsesAppend(s.sent, Sent(room, g.id, g.messageCount), s.outbound[r].id);
    hide Uses;
  }

  lemma SendKeepsLifetime(s: ClientState, room: RoomId)
    requires LifetimeOk(s) && room in s.outbound && s.outbound[room].messageCount < 100
    ensures LifetimeOk(SendIn(s, room))
  {
    var s' := SendIn(s, room);
    SendKeepsHistory(s, room);
    hide HistoryOk, SessionOk;
    forall r | r in s'.outbound ensures SessionOk(s', r, s'.outbound[r]) {
      SendKeepsSession(s, room, r);
    }
  }

  lemma EncryptKeepsLifetime(s: ClientState, room: RoomId, now: int, later: int)
    requires LifetimeOk(s)
    ensures LifetimeOk(Encrypt(s, room, now, later).0)
  {
    hide LifetimeOk;
    if room in s.rooms && s.rooms[room].encrypted {
      EnsureSessionKeepsLifetime(s, room, now);
      var s1 := EnsureSession(s, room, now);
      NewSessionKeepsLifetime(s1, room, now);
      var s2 := if s1.outbound[room].ShouldRotate(now) then NewSession(s1, room, now) else s1;
      if room in s2.outbound && !s2.outbound[room].ShouldRotate(later) {
        SendKeepsLifetime(s2, room);
      }
    }
  }

  lemma ShareKeepsLifetime(own: DeviceKey, s: ClientState, room: RoomId, ignoreMissing: bool, ignoreUnverified: bool,
                           now: int)
    requires LifetimeOk(s)
    ensures LifetimeOk(Share(own, s, room, ignoreMissing, ignoreUnverified, now).0)
  {
    hide LifetimeOk, ScanRoom;
    var s1, s' := EnsureSession(s, room, now), Share(own, s, room, ignoreMissing, ignoreUnverified, now).0;
    EnsureSessionKeepsLifetime(s, room, now);
    if s' != s {
      KeepingKeepsLifetime(s1, s');
    }
  }

  lemma ShareParallelKeepsLifetime(own: DeviceKey, s: ClientState, room: RoomId, ignoreUnverified: bool, now: int)
    requires LifetimeOk(s)
    ensures LifetimeOk(ShareParallel(own, s, room, ignoreUnverified, now).0)
  {
    hide LifetimeOk, ScanRoom;
    var s0, s' := EnsureSession(s, room, now), ShareParallel(own, s, room, ignoreUnverified, now).0;
    EnsureSessionKeepsLifetime(s, room, now);
    NewSessionKeepsLifetime(s0, room, now);
    var s1 := if s0.outbound[room].shared then NewSession(s0, room, now) else s0;
    if s' != s {
      KeepingKeepsLifetime(s1, s');
    }
  }

  lemma StepKeepsLifetime(own: DeviceKey, s: ClientState, e: Event, s': ClientState)
    requires LifetimeOk(s) && Step(own, s, e, s')
    ensures LifetimeOk(s')
  {
    hide LifetimeOk, Encrypt, Share, ShareParallel;
    match e
    case EvShare(room, ignoreMissing, ignoreUnverified, now) =>
      ShareKeepsLifetime(own, s, room, ignoreMissing, ignoreUnverified, now);
    case EvShareParallel(room, ignoreUnverified, now) =>
      ShareParallelKeepsLifetime(own, s, room, ignoreUnverified, now);
    case EvEncrypt(room, now, later) => EncryptKeepsLifetime(s, room, now, later);
    case _ => KeepingKeepsLifetime(s, s');
  }

  lemma {:induction false} RunKeepsLifetime(own: DeviceKey, states: seq<ClientState>, events: seq<Event>, n: nat)
    requires IsRun(own, states, events) && n <= |events|
    ensures LifetimeOk(states[n])
  {
    if n == 0 {
    } else {
      hide LifetimeOk, Step, Initial;
      RunKeepsLifetime(own, states, events, n - 1);
      StepKeepsLifetime(own, states[n - 1], events[n - 1], states[n]);
    }
  }

  /**
   * Lifetime: over any run no session encrypts more than 100 messages, all of one room and
   * with the indices 0, 1, 2 and so on, and the key of each message can be looked up.
   */
  lemma SessionsStayWithinTheirLimits(own: DeviceKey, states: seq<ClientState>, events: seq<Event>, n: nat)
    requires IsRun(own, states, events) && n <= |events|
    ensures
      var s := states[n];
      && (forall id :: Uses(s.sent, id) <= 100)
      && (forall i :: 0 <= i < |s.sent| ==> (s.sent[i].room, s.sent[i].session) in s.inbound)
      && (forall i :: 0 <= i < |s.sent| ==> s.sent[i].index == Uses(s.sent[..i], s.sent[i].session))
      && (forall i, j :: 0 <= i < |s.sent| && 0 <= j < |s.sent| && s.sent[i].session == s.sent[j].session ==>
            s.sent[i].room == s.sent[j].room)
  {
    RunKeepsLifetime(own, states, events, n);
  }

  /**
   * Encrypting succeeds exactly with a shared session that is not expired at either reading
   * of the clock; the session is the one the room had before, and its counter goes up by one.
   */
  lemma EncryptSucceedsIff(s: ClientState, room: RoomId, now: int, later: int)
    ensures
      var (s', r) := Encrypt(s, room, now, later);
      && (r.Ok? <==>
            && room in s.rooms && s.rooms[room].encrypted && s.rooms[room].membersSynced
            && room in s.outbound && s.outbound[room].shared
            && s.outbound[room].messageCount < 100
            && now - s.outbound[room].creationTime < 604800
            && later - s.outbound[room].creationTime < 604800)
      && (r.Ok? ==> r.value == Sent(room, s.outbound[room].id, s.outbound[room].messageCount)
                    && s'.sent == s.sent + [r.value] && s'.inbound == s.inbound && s'.devices == s.devices
                    && s'.outbound.Keys == s.outbound.Keys)
      && (r.Err? ==> s'.sent == s.sent)
  {
  }

  /**
   * The point of it all: whenever a message is encrypted in any run, its session has reached
   * or ignores every active device of every member at that moment, has encrypted fewer than
   * 100 messages, is younger than a week, and its key can be looked up.
   */
  lemma EveryMessageIsCovered(own: DeviceKey, states: seq<ClientState>, events: seq<Event>, n: nat, room: RoomId,
                              now: int, later: int)
    requires IsRun(own, states, events) && Coverage.AllCareful(states, events)
    requires n < |events| && events[n] == EvEncrypt(room, now, later)
    requires Encrypt(states[n], room, now, later).1.Ok?
    ensures
      var s, m := states[n], Encrypt(states[n], room, now, later).1.value;
      && room in s.outbound && m.session == s.outbound[room].id
      && (forall k: DeviceKey :: k.0 in s.rooms[room].members && k in s.devices.vals && !s.devices.vals[k].deleted ==>
            s.outbound[room].Covers(k))
      && Uses(s.sent, m.session) < 100 && later - s.outbound[room].creationTime < 604800
      && (room, m.session) in s.inbound && states[n + 1].sent == s.sent + [m]
  {
    EncryptSucceedsIff(states[n], room, now, later);
    Coverage.SharedSessionsCoverTheirRooms(own, states, events, n, room);
    RunKeepsLifetime(own, states, events, n);
    assert SessionOk(states[n], room, states[n].outbound[room]);
    assert Step(own, states[n], events[n], states[n + 1]);
  }
}
