/**
 * Safety of room key distribution over whole runs: a session marked as shared covers
 * every active device of every member, and no session outlives its limits.
 */
module Coverage {
  import opened Wrappers
  import opened Sequences
  import opened Dicts
  import opened Devices
  import opened Sharing
  import opened Distribution
  import JoinedMembers
  import KeyQuery
  import Rooms

  /** Every active device of every member received the session's key or is ignored. */
  ghost predicate Covered(t: DeviceTable, members: Rooms.Members, g: GroupSession) {
    forall k: DeviceKey :: k.0 in members && IsActive(t, k) ==> g.Covers(k)
  }

  ghost predicate RoomsOk(s: ClientState) {
    forall r :: r in s.rooms ==> Rooms.OrderAgrees(s.rooms[r].order, s.rooms[r].members)
  }

  /** The coverage invariant: sessions exist for encrypted rooms only, and a shared one covers its room. */
  ghost predicate CoverageOk(s: ClientState) {
    forall r :: r in s.outbound ==>
      && r in s.rooms && s.rooms[r].encrypted
      && (s.outbound[r].shared ==> Covered(s.devices, s.rooms[r].members, s.outbound[r]))
  }

  lemma AllCoveredMeans(t: DeviceTable, members: Rooms.Members, order: seq<UserId>, g: GroupSession)
    requires Rooms.OrderAgrees(order, members)
    ensures AllCovered(t, order, g) <==> Covered(t, members, g)
  {
    WalkVisits(t, order);
    assert forall u :: u in order <==> u in Elems(order);
  }

  /** Growing the covered sets, or losing active devices, keeps a session covering its room. */
  lemma CoveredMonotone(t: DeviceTable, t': DeviceTable, members: Rooms.Members, g: GroupSession, g': GroupSession)
    requires Covered(t, members, g)
    requires forall k: DeviceKey :: k.0 in members && IsActive(t', k) ==> IsActive(t, k)
    requires g.usersSharedWith <= g'.usersSharedWith && g.usersIgnored <= g'.usersIgnored
    ensures Covered(t', members, g')
  {
  }

  lemma MemberEventKeepsCoverage(s: ClientState, room: RoomId, e: Rooms.MemberEvent)
    requires RoomsOk(s) && CoverageOk(s)
    ensures RoomsOk(MemberEvent(s, room, e)) && CoverageOk(MemberEvent(s, room, e))
  {
    if room in s.rooms {
      var r := s.rooms[room];
      Rooms.OrderAfterMembership(r.order, r.members, e);
      Rooms.MembershipFlagIsKeySetChange(r.members, e);
    }
  }

  lemma KeyQueryKeepsCoverage(own: DeviceKey, s: ClientState, answers: map<UserId, KeyQuery.Answer>,
                              changed: map<DeviceKey, OlmDevice>, s': ClientState)
    requires RoomsOk(s) && CoverageOk(s) && Step(own, s, EvKeyQuery(answers, changed), s')
    ensures RoomsOk(s') && CoverageOk(s')
  {
    forall r | r in s'.outbound && s'.outbound[r].shared
      ensures Covered(s'.devices, s'.rooms[r].members, s'.outbound[r])
    {
      forall k: DeviceKey | k.0 in s'.rooms[r].members && IsActive(s'.devices, k) ensures IsActive(s.devices, k) {
        assert k !in changed;
        assert Get(s.devices.vals, k) == Get(s'.devices.vals, k);
      }
      CoveredMonotone(s.devices, s'.devices, s.rooms[r].members, s.outbound[r], s'.outbound[r]);
    }
  }

  lemma RespondKeepsCoverage(s: ClientState, room: RoomId, recipients: set<DeviceKey>)
    requires RoomsOk(s) && CoverageOk(s)
    ensures RoomsOk(Respond(s, room, recipients)) && CoverageOk(Respond(s, room, recipients))
  {
    if room in s.outbound {
      var g := s.outbound[room].(usersSharedWith := s.outbound[room].usersSharedWith + recipients);
      AllCoveredMeans(s.devices, s.rooms[room].members, s.rooms[room].order, g);
      if s.outbound[room].shared {
        CoveredMonotone(s.devices, s.devices, s.rooms[room].members, s.outbound[room], g);
      }
    }
  }

  lemma TrustKeepsCoverage(s: ClientState, k: DeviceKey, op: TrustOp)
    requires RoomsOk(s) && CoverageOk(s)
    ensures RoomsOk(ChangeTrust(s, k, op).0) && CoverageOk(ChangeTrust(s, k, op).0)
  {
    var s' := ChangeTrust(s, k, op).0;
    forall r | r in s'.outbound && s'.outbound[r].shared
      ensures Covered(s'.devices, s'.rooms[r].members, s'.outbound[r])
    {
      CoveredMonotone(s.devices, s'.devices, s.rooms[r].members, s.outbound[r], s'.outbound[r]);
    }
  }

  lemma SasKeepsCoverage(s: ClientState, k: DeviceKey)
    requires RoomsOk(s) && CoverageOk(s)
    ensures RoomsOk(VerifyAfterSas(s, k)) && CoverageOk(VerifyAfterSas(s, k))
  {
    var s' := VerifyAfterSas(s, k);
    forall r | r in s'.outbound && s'.outbound[r].shared
      ensures Covered(s'.devices, s'.rooms[r].members, s'.outbound[r])
    {
      CoveredMonotone(s.devices, s'.devices, s.rooms[r].members, s.outbound[r], s'.outbound[r]);
    }
  }

  lemma NewSessionKeepsCoverage(s: ClientState, room: RoomId, now: int)
    requires RoomsOk(s) && CoverageOk(s) && room in s.rooms && s.rooms[room].encrypted
    ensures RoomsOk(NewSession(s, room, now)) && CoverageOk(NewSession(s, room, now))
  {
  }

  lemma AfterScanKeepsCoverage(s: ClientState, room: RoomId, r: Scan)
    requires RoomsOk(s) && CoverageOk(s) && room in s.outbound && !s.outbound[room].shared
    ensures RoomsOk(AfterScan(s, room, r)) && CoverageOk(AfterScan(s, room, r))
  {
    var s' := AfterScan(s, room, r);
    assert forall k :: IsActive(s'.devices, k) <==> IsActive(s.devices, k);
    forall q | q in s'.outbound && s'.outbound[q].shared
      ensures Covered(s'.devices, s'.rooms[q].members, s'.outbound[q])
    {
      CoveredMonotone(s.devices, s'.devices, s.rooms[q].members, s.outbound[q], s'.outbound[q]);
    }
  }

  lemma ShareKeepsCoverage(own: DeviceKey, s: ClientState, room: RoomId, ignoreMissing: bool, ignoreUnverified: bool,
                           now: int)
    requires RoomsOk(s) && CoverageOk(s)
    ensures var s' := Share(own, s, room, ignoreMissing, ignoreUnverified, now).0; RoomsOk(s') && CoverageOk(s')
  {
    hide RoomsOk, AfterScan, ScanRoom, NewSession;
    if room in s.rooms && s.rooms[room].encrypted {
      if room !in s.outbound {
        NewSessionKeepsCoverage(s, room, now);
      }
      var s1 := EnsureSession(s, room, now);
      assert room in s1.rooms;
      if !s1.outbound[room].shared {
        var policy := if ignoreMissing then IgnoreMissing else RaiseMissing;
        var r := ScanRoom(own, s1, room, policy, ignoreUnverified, Some(MAX_TO_DEVICE_MESSAGES));
        AfterScanKeepsCoverage(s1, room, r);
      }
    }
  }

  lemma ShareParallelKeepsCoverage(own: DeviceKey, s: ClientState, room: RoomId, ignoreUnverified: bool, now: int)
    requires RoomsOk(s) && CoverageOk(s)
    ensures var s' := ShareParallel(own, s, room, ignoreUnverified, now).0; RoomsOk(s') && CoverageOk(s')
  {
    if room in s.rooms && s.rooms[room].encrypted {
      NewSessionKeepsCoverage(s, room, now);
      var s0 := EnsureSession(s, room, now);
      NewSessionKeepsCoverage(s0, room, now);
      var s1 := if s0.outbound[room].shared then NewSession(s0, room, now) else s0;
      assert room in s1.outbound && !s1.outbound[room].shared;
      var r := ScanRoom(own, s1, room, SkipMissing, ignoreUnverified, None);
      hide RoomsOk, AfterScan, ScanRoom, NewSession;
      AfterScanKeepsCoverage(s1, room, r);
    }
  }

  lemma EncryptKeepsCoverage(s: ClientState, room: RoomId, now: int, later: int)
    requires RoomsOk(s) && CoverageOk(s)
    ensures RoomsOk(Encrypt(s, room, now, later).0) && CoverageOk(Encrypt(s, room, now, later).0)
  {
    if room in s.rooms && s.rooms[room].encrypted {
      NewSessionKeepsCoverage(s, room, now);
      var s1 := EnsureSession(s, room, now);
      NewSessionKeepsCoverage(s1, room, now);
      var s2 := if s1.outbound[room].ShouldRotate(now) then NewSession(s1, room, now) else s1;
      var g := s2.outbound[room];
      if g.shared {
        CoveredMonotone(s2.devices, s2.devices, s2.rooms[room].members, g, g.(messageCount := g.messageCount + 1));
      }
    }
  }

  lemma RefreshKeepsRooms(s: ClientState, room: RoomId, ms: seq<Rooms.Member>)
    requires RoomsOk(s)
    ensures RoomsOk(RefreshMembers(s, room, ms))
  {
    if room in s.rooms {
      JoinedMembers.RefreshedMembers(JoinedMembers.Roster(s.rooms[room].members, s.rooms[room].order), ms);
      hide JoinedMembers.Refresh, Rooms.OrderAgrees;
    }
  }

  /** The room has no shared session, or that session covers the active devices of every newcomer on the list. */
  ghost predicate NewcomersCovered(s: ClientState, room: RoomId, ms: seq<Rooms.Member>) {
    room in s.rooms && room in s.outbound && s.outbound[room].shared ==>
      forall k: DeviceKey ::
        k.0 in JoinedMembers.Ids(ms) && k.0 !in s.rooms[room].members && IsActive(s.devices, k) ==>
            s.outbound[room].Covers(k)
  }

  /** A joined-members response keeps the coverage invariant exactly when the newcomers are covered. */
  lemma JoinedMembersKeepCoverageIff(s: ClientState, room: RoomId, ms: seq<Rooms.Member>)
    requires RoomsOk(s) && CoverageOk(s)
    ensures CoverageOk(RefreshMembers(s, room, ms)) <==> NewcomersCovered(s, room, ms)
  {
    var s' := RefreshMembers(s, room, ms);
    if room in s.rooms {
      JoinedMembers.RefreshedMembers(JoinedMembers.Roster(s.rooms[room].members, s.rooms[room].order), ms);
      hide JoinedMembers.Refresh, Rooms.OrderAgrees, JoinedMembers.Ids;
      if room in s.outbound && s.outbound[room].shared {
        assert Covered(s.devices, s.rooms[room].members, s.outbound[room]);
        assert CoverageOk(s') <==> Covered(s.devices, s'.rooms[room].members, s.outbound[room]);
      }
    }
  }

  /** A joined-members response of a run leaves no newcomer out. */
  ghost predicate Careful(s: ClientState, e: Event) {
    e.EvJoinedMembers? ==> NewcomersCovered(s, e.room, e.members)
  }

  /**
   * Every joined-members response of a run meets the condition under which it keeps coverage; all
   * other steps are free.
   */
  ghost predicate AllCareful(states: seq<ClientState>, events: seq<Event>)
    requires |states| == |events| + 1
  {
    forall i :: 0 <= i < |events| ==> Careful(states[i], events[i])
  }

  lemma StepKeepsCoverage(own: DeviceKey, s: ClientState, e: Event, s': ClientState)
    requires RoomsOk(s) && CoverageOk(s) && Step(own, s, e, s') && Careful(s, e)
    ensures RoomsOk(s') && CoverageOk(s')
  {
    match e
    case EvSyncRoom(room) =>
    case EvMember(room, event) => MemberEventKeepsCoverage(s, room, event);
    case EvEncryption(room) =>
    case EvJoinedMembers(room, members) =>
      RefreshKeepsRooms(s, room, members);
      JoinedMembersKeepCoverageIff(s, room, members);
    case EvKeyQuery(answers, changed) => KeyQueryKeepsCoverage(own, s, answers, changed, s');
    case EvOlmSessions(sessions) =>
    case EvShare(room, ignoreMissing, ignoreUnverified, now) =>
      ShareKeepsCoverage(own, s, room, ignoreMissing, ignoreUnverified, now);
    case EvShareParallel(room, ignoreUnverified, now) =>
      ShareParallelKeepsCoverage(own, s, room, ignoreUnverified, now);
    case EvShareResponse(room, recipients) => RespondKeepsCoverage(s, room, recipients);
    case EvTrust(k, op) => TrustKeepsCoverage(s, k, op);
    case EvSasVerified(k) => SasKeepsCoverage(s, k);
    case EvEncrypt(room, now, later) => EncryptKeepsCoverage(s, room, now, later);
  }

  lemma {:induction false} RunKeepsCoverage(own: DeviceKey, states: seq<ClientState>, events: seq<Event>, n: nat)
    requires IsRun(own, states, events) && AllCareful(states, events) && n <= |events|
    ensures RoomsOk(states[n]) && CoverageOk(states[n])
  {
    if n == 0 {
    } else {
      RunKeepsCoverage(own, states, events, n - 1);
      StepKeepsCoverage(own, states[n - 1], events[n - 1], states[n]);
    }
  }

  /**
   * Coverage: at any point of any run, if the outbound session of a room is marked as shared,
   * every device of a member that is not deleted received its key or is ignored. The room
   * is known and encrypted.
   */
  lemma SharedSessionsCoverTheirRooms(own: DeviceKey, states: seq<ClientState>, events: seq<Event>, n: nat,
                                      room: RoomId)
    requires IsRun(own, states, events) && AllCareful(states, events) && n <= |events|
    requires room in states[n].outbound && states[n].outbound[room].shared
    ensures var s := states[n];
      && room in s.rooms && s.rooms[room].encrypted
      && (forall k: DeviceKey :: k.0 in s.rooms[room].members && k in s.devices.vals && !s.devices.vals[k].deleted ==>
            k in s.outbound[room].usersSharedWith || k in s.outbound[room].usersIgnored)
  {
    RunKeepsCoverage(own, states, events, n);
    var s := states[n];
    assert Covered(s.devices, s.rooms[room].members, s.outbound[room]);
    forall k: DeviceKey | k.0 in s.rooms[room].members && k in s.devices.vals && !s.devices.vals[k].deleted
      ensures s.outbound[room].Covers(k)
    {
      assert IsActive(s.devices, k);
    }
  }

  const OWN: DeviceKey := ("@alice:x", "ALICE")
  const BOB: DeviceKey := ("@bob:x", "BOB")
  const ROOM: RoomId := "!r"

  function BobsDevices(): DeviceTable {
    Put(Empty(), BOB, OlmDevice("f", "c", "", false, Verified))
  }

  /** A client that knows a device of Bob's and one encrypted room. */
  function InRoom(members: Rooms.Members, order: seq<UserId>, outbound: map<RoomId, GroupSession>,
                  inbound: set<(RoomId, SessionId)>, created: SessionId): ClientState {
    ClientState(map[ROOM := Room(members, order, true, true)], {ROOM}, BobsDevices(), {"c"}, outbound, inbound,
                created, [])
  }

  /** The key of a new session is shared with an empty room: nobody is sent it. */
  lemma ShareWithNobody()
    ensures
      Share(OWN, InRoom(map[], [], map[], {}, 0), ROOM, false, false, 0)
      == (InRoom(map[], [], map[ROOM := GroupSession(0, false, {}, {}, 0, 0)], {(ROOM, 0)}, 1),
          Ok(Batch({}, map[])))
  {
    var s1 := InRoom(map[], [], map[ROOM := GroupSession(0, false, {}, {}, 0, 0)], {(ROOM, 0)}, 1);
    var r := Scan({}, [], [], None);
    assert EnsureSession(InRoom(map[], [], map[], {}, 0), ROOM, 0) == s1;
    assert ScanRoom(OWN, s1, ROOM, RaiseMissing, false, Some(MAX_TO_DEVICE_MESSAGES)) == r;
    assert AfterScan(s1, ROOM, r) == s1;
    assert ToBatch(RoomKey(ROOM, 0), []) == Batch({}, map[]);
    hide ScanRoom, AfterScan, EnsureSession, ToBatch;
  }

  /** The response marks the session. */
  lemma NobodyAnswers()
    ensures
      Respond(InRoom(map[], [], map[ROOM := GroupSession(0, false, {}, {}, 0, 0)], {(ROOM, 0)}, 1), ROOM, {})
      == InRoom(map[], [], map[ROOM := GroupSession(0, true, {}, {}, 0, 0)], {(ROOM, 0)}, 1)
  {
    var s := InRoom(map[], [], map[ROOM := GroupSession(0, false, {}, {}, 0, 0)], {(ROOM, 0)}, 1);
    assert s.outbound[ROOM].(usersSharedWith := s.outbound[ROOM].usersSharedWith + {}) == s.outbound[ROOM];
    assert AllCovered(s.devices, [], s.outbound[ROOM]);
  }

  lemma BobIsListed(outbound: map<RoomId, GroupSession>, inbound: set<(RoomId, SessionId)>, created: SessionId)
    ensures
      var m := Rooms.Member(BOB.0, "", "", false);
      RefreshMembers(InRoom(map[], [], outbound, inbound, created), ROOM, [m])
      == InRoom(map[BOB.0 := m], [BOB.0], outbound, inbound, created)
  {
    var m := Rooms.Member(BOB.0, "", "", false);
    var empty := JoinedMembers.Roster(map[], []);
    assert JoinedMembers.Keep(map[], JoinedMembers.Ids([m])) == map[];
    assert [m][1..] == [];
    assert JoinedMembers.AddAll(empty, [m]) == JoinedMembers.AddOne(empty, m);
    assert JoinedMembers.Refresh(empty, [m]) == JoinedMembers.Roster(map[BOB.0 := m], [BOB.0]);
  }

  /** The room is synced, becomes encrypted, and nobody is listed. */
  lemma EmptyRoom(s0: ClientState)
    requires s0 == ClientState(map[], {}, BobsDevices(), {"c"}, map[], {}, 0, [])
    ensures RefreshMembers(EncryptionEvent(SyncRoom(s0, ROOM), ROOM), ROOM, []) == InRoom(map[], [], map[], {}, 0)
  {
    assert JoinedMembers.Keep(map[], JoinedMembers.Ids([])) == map[];
  }

  /** Bob's device is not covered, and messages are encrypted. */
  lemma BobIsLeftOut()
    ensures
      var m := Rooms.Member(BOB.0, "", "", false);
      var marked := map[ROOM := GroupSession(0, true, {}, {}, 0, 0)];
      var before := InRoom(map[], [], marked, {(ROOM, 0)}, 1);
      var s := InRoom(map[BOB.0 := m], [BOB.0], marked, {(ROOM, 0)}, 1);
      && CoverageOk(before) && !CoverageOk(s) && !Careful(before, EvJoinedMembers(ROOM, [m]))
      && ROOM in s.rooms && BOB.0 in s.rooms[ROOM].members && IsActive(s.devices, BOB)
      && ROOM in s.outbound && !s.outbound[ROOM].Covers(BOB)
      && Encrypt(s, ROOM, 0, 0).1 == Ok(Sent(ROOM, 0, 0))
  {
    var m := Rooms.Member(BOB.0, "", "", false);
    var marked := map[ROOM := GroupSession(0, true, {}, {}, 0, 0)];
    var before := InRoom(map[], [], marked, {(ROOM, 0)}, 1);
    var s := InRoom(map[BOB.0 := m], [BOB.0], marked, {(ROOM, 0)}, 1);
    BobIsListed(marked, {(ROOM, 0)}, 1);
    JoinedMembersKeepCoverageIff(before, ROOM, [m]);
    hide RefreshMembers;
    assert BOB.0 in s.rooms[ROOM].members && IsActive(s.devices, BOB);
  }

  /**
   * A listed newcomer breaks coverage, in a run of a new client: the session of an empty room is
   * shared with nobody and marked, and then a joined-members response lists Bob. Messages are
   * encrypted all the same, and Bob's device neither received the key nor is ignored.
   */
  lemma NewcomerBreaksCoverage() returns (states: seq<ClientState>, events: seq<Event>)
    ensures
      events == [EvSyncRoom(ROOM), EvEncryption(ROOM), EvJoinedMembers(ROOM, []), EvShare(ROOM, false, false, 0),
                 EvShareResponse(ROOM, {}), EvJoinedMembers(ROOM, [Rooms.Member(BOB.0, "", "", false)])]
    ensures IsRun(OWN, states, events)
    ensures Share(OWN, states[3], ROOM, false, false, 0).1 == Ok(Batch({}, map[]))
    ensures CoverageOk(states[5]) && !CoverageOk(states[6]) && !Careful(states[5], events[5])
    ensures
      var s := states[6];
      && ROOM in s.rooms && BOB.0 in s.rooms[ROOM].members && IsActive(s.devices, BOB)
      && ROOM in s.outbound && !s.outbound[ROOM].Covers(BOB)
      && Encrypt(s, ROOM, 0, 0).1 == Ok(Sent(ROOM, 0, 0))
  {
    hide Share, Respond, RefreshMembers, InRoom, SyncRoom, EncryptionEvent, CoverageOk, Encrypt, Careful;
    var m := Rooms.Member(BOB.0, "", "", false);
    events := [EvSyncRoom(ROOM), EvEncryption(ROOM), EvJoinedMembers(ROOM, []), EvShare(ROOM, false, false, 0),
               EvShareResponse(ROOM, {}), EvJoinedMembers(ROOM, [m])];
    var unmarked := map[ROOM := GroupSession(0, false, {}, {}, 0, 0)];
    var marked := map[ROOM := GroupSession(0, true, {}, {}, 0, 0)];
    var s0 := ClientState(map[], {}, BobsDevices(), {"c"}, map[], {}, 0, []);
    var s1 := SyncRoom(s0, ROOM);
    var s2 := EncryptionEvent(s1, ROOM);
    var s3, s4 := InRoom(map[], [], map[], {}, 0), InRoom(map[], [], unmarked, {(ROOM, 0)}, 1);
    var s5, s6 := InRoom(map[], [], marked, {(ROOM, 0)}, 1), InRoom(map[BOB.0 := m], [BOB.0], marked, {(ROOM, 0)}, 1);
    states := [s0, s1, s2, s3, s4, s5, s6];
    EmptyRoom(s0);
    ShareWithNobody();
    NobodyAnswers();
    BobIsListed(marked, {(ROOM, 0)}, 1);
    BobIsLeftOut();
  }
}
