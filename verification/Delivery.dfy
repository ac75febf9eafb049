/**
 * What `users_shared_with` means: a response to a share request only names its recipients,
 * so it counts for whatever session the room has when it arrives.
 */
module Delivery {
  import opened Wrappers
  import opened Devices
  import opened Sharing
  import opened Distribution
  import opened Coverage
  import JoinedMembers
  import Lifetime
  import Rooms

  /** The requests that a step sends. */
  function Requests(own: DeviceKey, s: ClientState, e: Event): seq<Batch> {
    match e
    case EvShare(room, ignoreMissing, ignoreUnverified, now) =>
      var r := Share(own, s, room, ignoreMissing, ignoreUnverified, now).1;
      if r.Ok? then [r.value] else []
    case EvShareParallel(room, ignoreUnverified, now) =>
      var r := ShareParallel(own, s, room, ignoreUnverified, now).1;
      if r.Ok? then r.value else []
    case _ => []
  }

  /** A step sends the key of a session to a device. */
  ghost predicate SentKey(own: DeviceKey, s: ClientState, e: Event, id: SessionId, k: DeviceKey) {
    exists b :: b in Requests(own, s, e) && k in b.messages && b.messages[k].session == id
  }

  /** A request of a run: the step that sent it, and its place among the requests of that step. */
  datatype Ask = Ask(step: nat, place: nat)

  ghost predicate IsRequest(own: DeviceKey, states: seq<ClientState>, events: seq<Event>, a: Ask) {
    a.step < |events| && a.step < |states| && a.place < |Requests(own, states[a.step], events[a.step])|
  }

  ghost function RequestOf(own: DeviceKey, states: seq<ClientState>, events: seq<Event>, a: Ask): Batch {
    if IsRequest(own, states, events, a) then Requests(own, states[a.step], events[a.step])[a.place]
    else Batch({}, map[])
  }

  /** The response at step `i` is one to this earlier request: it names its room and its recipients. */
  ghost predicate Answers(own: DeviceKey, states: seq<ClientState>, events: seq<Event>, i: nat, a: Ask)
    requires i < |events| && events[i].EvShareResponse?
  {
    && a.step < i && IsRequest(own, states, events, a)
    && (events[a.step].EvShare? || events[a.step].EvShareParallel?) && events[a.step].room == events[i].room
    && events[i].recipients == RequestOf(own, states, events, a).sharingWith
  }

  /** Each response of a run is one to a request of the run; `asks[i]` tells to which. */
  ghost predicate AllAnswer(own: DeviceKey, states: seq<ClientState>, events: seq<Event>, asks: seq<Ask>) {
    |asks| == |events| &&
    forall i :: 0 <= i < |events| && events[i].EvShareResponse? ==> Answers(own, states, events, i, asks[i])
  }

  /** Which device received the key of which session. */
  type Deliveries = set<(SessionId, DeviceKey)>

  /** What reaches the recipients of a request. */
  function Carried(b: Batch): Deliveries {
    set k | k in b.messages :: (b.messages[k].session, k)
  }

  /** Every device a session claims to be shared with received its key. */
  ghost predicate Truthful(s: ClientState, d: Deliveries) {
    forall r, k :: r in s.outbound && k in s.outbound[r].usersSharedWith ==> (s.outbound[r].id, k) in d
  }

  /** The keys a request carried are those of the session the room has now. */
  ghost predicate Timely(s: ClientState, room: RoomId, b: Batch) {
    room in s.outbound && room in s.rooms ==>
      forall k :: k in b.messages ==> b.messages[k].session == s.outbound[room].id
  }

  /** The response is timely, or its recipients have the key of the room's session anyway. */
  ghost predicate Harmless(s: ClientState, d: Deliveries, room: RoomId, b: Batch) {
    Timely(s, room, b) || forall k :: k in b.sharingWith ==> (s.outbound[room].id, k) in d
  }

  /** A request has a message for each recipient, all with the same key. */
  ghost predicate OneKey(b: Batch) {
    && b.messages.Keys == b.sharingWith
    && (forall j, k :: j in b.messages && k in b.messages ==> b.messages[j] == b.messages[k])
  }

  lemma RequestsCarryOneKey(own: DeviceKey, s: ClientState, e: Event)
    ensures forall b :: b in Requests(own, s, e) ==> OneKey(b)
  {
    hide ScanRoom, AfterScan, Chunks;
  }

  /** A response keeps the sets truthful exactly when it is timely or tells nothing new about the room's session. */
  lemma ResponseTruthfulIff(s: ClientState, d: Deliveries, room: RoomId, b: Batch)
    requires Truthful(s, d) && OneKey(b)
    ensures Truthful(Respond(s, room, b.sharingWith), d + Carried(b)) <==> Harmless(s, d, room, b)
  {
    var s', d' := Respond(s, room, b.sharingWith), d + Carried(b);
    if room in s.outbound && room in s.rooms {
      assert s'.outbound[room].usersSharedWith == s.outbound[room].usersSharedWith + b.sharingWith;
      if Truthful(s', d') && !Timely(s, room, b) {
        forall k | k in b.sharingWith ensures (s.outbound[room].id, k) in d {
          assert (s'.outbound[room].id, k) in d';
        }
      }
    }
  }

  /** Every other step keeps the sets truthful: it notes nobody as a recipient. */
  lemma StepKeepsTruthful(own: DeviceKey, s: ClientState, e: Event, s': ClientState, d: Deliveries)
    requires Truthful(s, d) && Step(own, s, e, s') && !e.EvShareResponse?
    ensures Truthful(s', d)
  {
    hide ScanRoom;
  }

  /** What has reached the devices up to a point of a run: the messages of the requests answered by then. */
  ghost function DeliveredBy(own: DeviceKey, states: seq<ClientState>, events: seq<Event>, asks: seq<Ask>, n: nat)
    : Deliveries
    requires n <= |events| && |asks| == |events|
  {
    if n == 0 then {}
    else
      var before := DeliveredBy(own, states, events, asks, n - 1);
      if events[n - 1].EvShareResponse? then before + Carried(RequestOf(own, states, events, asks[n - 1])) else before
  }

  /** The responses up to a point of a run are harmless, in particular if they are timely. */
  ghost predicate HarmlessUntil(own: DeviceKey, states: seq<ClientState>, events: seq<Event>, asks: seq<Ask>, n: nat)
    requires n <= |events| && |asks| == |events| < |states|
  {
    forall i :: 0 <= i < n && events[i].EvShareResponse? ==>
      Harmless(states[i], DeliveredBy(own, states, events, asks, i), events[i].room,
               RequestOf(own, states, events, asks[i]))
  }

  ghost predicate TruthfulUntil(own: DeviceKey, states: seq<ClientState>, events: seq<Event>, asks: seq<Ask>, n: nat)
    requires n <= |events| && |asks| == |events| < |states|
  {
    forall i :: 0 <= i <= n ==> Truthful(states[i], DeliveredBy(own, states, events, asks, i))
  }

  /** One more step of a run. */
  lemma StepTruthfulIff(own: DeviceKey, states: seq<ClientState>, events: seq<Event>, asks: seq<Ask>, n: nat)
    requires IsRun(own, states, events) && n < |events| && AllAnswer(own, states, events, asks)
    requires Truthful(states[n], DeliveredBy(own, states, events, asks, n))
    ensures Truthful(states[n + 1], DeliveredBy(own, states, events, asks, n + 1)) <==>
            (events[n].EvShareResponse? ==>
               Harmless(states[n], DeliveredBy(own, states, events, asks, n), events[n].room,
                        RequestOf(own, states, events, asks[n])))
  {
    hide Truthful, Harmless, Requests, Respond, OneKey, Carried, Initial;
    var d := DeliveredBy(own, states, events, asks, n);
    assert Step(own, states[n], events[n], states[n + 1]);
    if events[n].EvShareResponse? {
      var a := asks[n];
      assert Answers(own, states, events, n, a);
      RequestsCarryOneKey(own, states[a.step], events[a.step]);
      ResponseTruthfulIff(states[n], d, events[n].room, RequestOf(own, states, events, a));
    } else {
      StepKeepsTruthful(own, states[n], events[n], states[n + 1], d);
    }
  }

  /**
   * Over any run whose responses answer its requests, `users_shared_with` names nobody who did not
   * receive the key, at any point, exactly when every response was timely or told nothing new.
   */
  lemma {:induction false} RunTruthfulIff(own: DeviceKey, states: seq<ClientState>, events: seq<Event>,
                                          asks: seq<Ask>, n: nat)
    requires IsRun(own, states, events) && n <= |events| && AllAnswer(own, states, events, asks)
    ensures TruthfulUntil(own, states, events, asks, n) <==> HarmlessUntil(own, states, events, asks, n)
  {
    hide Answers, Harmless, Step, RequestOf, Carried;
    if n == 0 {
      assert Truthful(states[0], {});
    } else {
      hide Truthful, DeliveredBy;
      RunTruthfulIff(own, states, events, asks, n - 1);
      if TruthfulUntil(own, states, events, asks, n - 1) {
        StepTruthfulIff(own, states, events, asks, n - 1);
      }
    }
  }

  /** A device was sent the key of a session, and the server took the request before this point of the run. */
  ghost predicate Received(own: DeviceKey, states: seq<ClientState>, events: seq<Event>, asks: seq<Ask>, n: nat,
                           id: SessionId, k: DeviceKey)
    requires n <= |events| < |states| && |asks| == |events|
  {
    exists i :: 0 <= i < n && events[i].EvShareResponse? && k in events[i].recipients && asks[i].step < i
                && SentKey(own, states[asks[i].step], events[asks[i].step], id, k)
  }

  /** What is delivered was sent by a share call of the run. */
  lemma {:induction false} DeliveredIsReceived(own: DeviceKey, states: seq<ClientState>, events: seq<Event>,
                                               asks: seq<Ask>, n: nat, id: SessionId, k: DeviceKey)
    requires IsRun(own, states, events) && n <= |events| && AllAnswer(own, states, events, asks)
    requires (id, k) in DeliveredBy(own, states, events, asks, n)
    ensures Received(own, states, events, asks, n, id, k)
  {
    hide Requests, Step, Initial;
    if n == 0 {
    } else if (id, k) in DeliveredBy(own, states, events, asks, n - 1) {
      DeliveredIsReceived(own, states, events, asks, n - 1, id, k);
    } else {
      var a := asks[n - 1];
      assert Answers(own, states, events, n - 1, a);
      RequestsCarryOneKey(own, states[a.step], events[a.step]);
      assert SentKey(own, states[a.step], events[a.step], id, k);
    }
  }

  /**
   * End to end: in a run whose responses answer its share requests and are timely or tell nothing
   * new, whenever a message is encrypted, every active device of every member was sent the key
   * of the very session that encrypts it by an earlier share call whose request was taken, or is
   * ignored by that session.
   */
  lemma EveryMessageCanBeRead(own: DeviceKey, states: seq<ClientState>, events: seq<Event>, asks: seq<Ask>,
                              n: nat, room: RoomId, now: int, later: int, k: DeviceKey)
    requires IsRun(own, states, events) && n < |events| && events[n] == EvEncrypt(room, now, later)
    requires AllAnswer(own, states, events, asks) && HarmlessUntil(own, states, events, asks, n)
    requires AllCareful(states, events)
    requires Encrypt(states[n], room, now, later).1.Ok? && room in states[n].rooms
    requires k.0 in states[n].rooms[room].members && k in states[n].devices.vals && !states[n].devices.vals[k].deleted
    ensures
      var s, m := states[n], Encrypt(states[n], room, now, later).1.value;
      || Received(own, states, events, asks, n, m.session, k)
      || (room in s.outbound && s.outbound[room].id == m.session && k in s.outbound[room].usersIgnored)
  {
    Lifetime.EveryMessageIsCovered(own, states, events, n, room, now, later);
    hide Received, AllAnswer, HarmlessUntil, Requests, DeliveredBy, Encrypt, AllCareful, IsRun;
    RunTruthfulIff(own, states, events, asks, n);
    var g := states[n].outbound[room];
    assert g.Covers(k);
    if k in g.usersSharedWith {
      assert (g.id, k) in DeliveredBy(own, states, events, asks, n);
      DeliveredIsReceived(own, states, events, asks, n, g.id, k);
    }
  }

  /** Bob is the only member of the room. */
  function WithBob(outbound: map<RoomId, GroupSession>, inbound: set<(RoomId, SessionId)>,
                   created: SessionId): ClientState {
    InRoom(map[BOB.0 := Rooms.Member(BOB.0, "", "", false)], [BOB.0], outbound, inbound, created)
  }

  lemma BobsWalk()
    ensures Walk(BobsDevices(), [BOB.0]) == [BOB]
  {
    assert BobsDevices().keys == [BOB];
    assert [BOB][1..] == [] && [BOB.0][1..] == [];
    assert ActiveDevices(BobsDevices(), BOB.0) == [BOB];
  }

  /** The room is filled: it is synced, becomes encrypted, and its members are listed. */
  lemma FillRoom(s0: ClientState)
    requires s0 == ClientState(map[], {}, BobsDevices(), {"c"}, map[], {}, 0, [])
    ensures
      var ms := [Rooms.Member(BOB.0, "", "", false)];
      RefreshMembers(EncryptionEvent(SyncRoom(s0, ROOM), ROOM), ROOM, ms) == WithBob(map[], {}, 0)
    ensures EncryptionEvent(SyncRoom(s0, ROOM), ROOM).outbound == map[]
  {
    var m := Rooms.Member(BOB.0, "", "", false);
    var empty := JoinedMembers.Roster(map[], []);
    assert JoinedMembers.Keep(map[], JoinedMembers.Ids([m])) == map[];
    assert [m][1..] == [];
    assert JoinedMembers.AddAll(empty, [m]) == JoinedMembers.AddOne(empty, m);
    assert JoinedMembers.Refresh(empty, [m]) == JoinedMembers.Roster(map[BOB.0 := m], [BOB.0]);
  }

  /** The first share call sends the key of session 0 to Bob. */
  lemma ShareWithBob()
    ensures
      Share(OWN, WithBob(map[], {}, 0), ROOM, false, false, 0)
      == (WithBob(map[ROOM := GroupSession(0, false, {}, {}, 0, 0)], {(ROOM, 0)}, 1),
          Ok(ToBatch(RoomKey(ROOM, 0), [BOB])))
  {
    var s1 := WithBob(map[ROOM := GroupSession(0, false, {}, {}, 0, 0)], {(ROOM, 0)}, 1);
    assert EnsureSession(WithBob(map[], {}, 0), ROOM, 0) == s1;
    BobsWalk();
    var c := ShareContext(OWN, s1, s1.outbound[ROOM], RaiseMissing, false);
    var start := Scan({}, [], [], None);
    assert ScanStep(c, start, BOB) == Scan({}, [BOB], [], None);
    assert [BOB][1..] == [];
    assert ScanRoom(OWN, s1, ROOM, RaiseMissing, false, Some(MAX_TO_DEVICE_MESSAGES)) == Scan({}, [BOB], [], None);
    hide Walk, ScanRoom;
    assert s1.outbound[ROOM := s1.outbound[ROOM].(usersIgnored := {})] == s1.outbound;
    assert AfterScan(s1, ROOM, Scan({}, [BOB], [], None)) == s1;
  }

  /** A week later the session is too old, and an attempt to encrypt replaces it. */
  lemma RotateByAge()
    ensures
      Encrypt(WithBob(map[ROOM := GroupSession(0, false, {}, {}, 0, 0)], {(ROOM, 0)}, 1), ROOM, MAX_AGE, MAX_AGE).0
      == WithBob(map[ROOM := GroupSession(1, false, {}, {}, 0, MAX_AGE)], {(ROOM, 0), (ROOM, 1)}, 2)
  {
  }

  /** The response to the first call marks the new session as shared. */
  lemma LateResponse()
    ensures
      Respond(WithBob(map[ROOM := GroupSession(1, false, {}, {}, 0, MAX_AGE)], {(ROOM, 0), (ROOM, 1)}, 2), ROOM, {BOB})
      == WithBob(map[ROOM := GroupSession(1, true, {BOB}, {}, 0, MAX_AGE)], {(ROOM, 0), (ROOM, 1)}, 2)
  {
    var s := WithBob(map[ROOM := GroupSession(1, false, {}, {}, 0, MAX_AGE)], {(ROOM, 0), (ROOM, 1)}, 2);
    var g := GroupSession(1, false, {BOB}, {}, 0, MAX_AGE);
    BobsWalk();
    hide Walk;
    assert s.outbound[ROOM].(usersSharedWith := s.outbound[ROOM].usersSharedWith + {BOB}) == g;
    assert AllCovered(s.devices, [BOB.0], g);
  }

  /**
   * A late response misleads, in a run of a new client: a share call sends session 0 to Bob, an
   * attempt to encrypt a week later replaces the session, and then the response of the call
   * arrives. Session 1 is marked as shared with Bob, who never received its key.
   */
  lemma LateResponseMisleads() returns (states: seq<ClientState>, events: seq<Event>, asks: seq<Ask>)
    ensures
      events == [EvSyncRoom(ROOM), EvEncryption(ROOM), EvJoinedMembers(ROOM, [Rooms.Member(BOB.0, "", "", false)]),
                 EvShare(ROOM, false, false, 0), EvEncrypt(ROOM, MAX_AGE, MAX_AGE), EvShareResponse(ROOM, {BOB})]
    ensures IsRun(OWN, states, events) && AllCareful(states, events)
    ensures AllAnswer(OWN, states, events, asks) && asks[5] == Ask(3, 0)
    ensures RequestOf(OWN, states, events, asks[5]) == ToBatch(RoomKey(ROOM, 0), [BOB])
    ensures
      var last := states[6];
      && ROOM in last.outbound && last.outbound[ROOM].id == 1 && last.outbound[ROOM].shared
      && BOB in last.outbound[ROOM].usersSharedWith
      && (forall j :: 0 <= j < |events| ==> !SentKey(OWN, states[j], events[j], 1, BOB))
      && !Truthful(last, DeliveredBy(OWN, states, events, asks, 6))
  {
    hide Share, Encrypt, Respond, RefreshMembers, DeliveredBy, WithBob, SyncRoom, EncryptionEvent, BobsDevices;
    var ms := [Rooms.Member(BOB.0, "", "", false)];
    events := [EvSyncRoom(ROOM), EvEncryption(ROOM), EvJoinedMembers(ROOM, ms),
               EvShare(ROOM, false, false, 0), EvEncrypt(ROOM, MAX_AGE, MAX_AGE), EvShareResponse(ROOM, {BOB})];
    asks := seq(6, _ => Ask(3, 0));
    var s0 := ClientState(map[], {}, BobsDevices(), {"c"}, map[], {}, 0, []);
    var s1 := SyncRoom(s0, ROOM);
    var s2 := EncryptionEvent(s1, ROOM);
    var s3 := WithBob(map[], {}, 0);
    var first := map[ROOM := GroupSession(0, false, {}, {}, 0, 0)];
    var second := map[ROOM := GroupSession(1, false, {}, {}, 0, MAX_AGE)];
    var marked := map[ROOM := GroupSession(1, true, {BOB}, {}, 0, MAX_AGE)];
    var s4 := WithBob(first, {(ROOM, 0)}, 1);
    var s5, s6 := WithBob(second, {(ROOM, 0), (ROOM, 1)}, 2), WithBob(marked, {(ROOM, 0), (ROOM, 1)}, 2);
    states := [s0, s1, s2, s3, s4, s5, s6];
    FillRoom(s0);
    ShareWithBob();
    RotateByAge();
    LateResponse();
    WithBobHas(second, {(ROOM, 0), (ROOM, 1)}, 2);
    WithBobHas(marked, {(ROOM, 0), (ROOM, 1)}, 2);
    var sent := ToBatch(RoomKey(ROOM, 0), [BOB]);
    assert Requests(OWN, s3, events[3]) == [sent];
    assert sent.sharingWith == {BOB} && Carried(sent) == {(0, BOB)};
    assert Answers(OWN, states, events, 5, Ask(3, 0));
    NothingDelivered(OWN, states, events, asks, 5);
    DeliveredNext(OWN, states, events, asks, 5);
    assert (1, BOB) !in DeliveredBy(OWN, states, events, asks, 6);
  }

  lemma WithBobHas(outbound: map<RoomId, GroupSession>, inbound: set<(RoomId, SessionId)>, created: SessionId)
    ensures ROOM in WithBob(outbound, inbound, created).rooms
        && WithBob(outbound, inbound, created).outbound == outbound
  {
  }

  /** A response adds what its request carried. */
  lemma DeliveredNext(own: DeviceKey, states: seq<ClientState>, events: seq<Event>, asks: seq<Ask>, n: nat)
    requires n < |events| == |asks| && events[n].EvShareResponse?
    ensures DeliveredBy(own, states, events, asks, n + 1)
        == DeliveredBy(own, states, events, asks, n) + Carried(RequestOf(own, states, events, asks[n]))
  {
    hide RequestOf, Carried;
  }

  lemma {:induction false} NothingDelivered(own: DeviceKey, states: seq<ClientState>, events: seq<Event>,
                                            asks: seq<Ask>, n: nat)
    requires n <= |events| == |asks| && forall i :: 0 <= i < n ==> !events[i].EvShareResponse?
    ensures DeliveredBy(own, states, events, asks, n) == {}
  {
    if n == 0 {
    } else {
      NothingDelivered(own, states, events, asks, n - 1);
    }
  }
}
