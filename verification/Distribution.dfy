/**
 * The client's state for handing out room keys, and what each call and each response
 * does to it.
 */
module Distribution {
  import opened Wrappers
  import opened Sequences
  import opened Dicts
  import opened Devices
  import opened Sharing
  import JoinedMembers
  import KeyQuery
  import Rooms

  type RoomId = string
  type SessionId = nat

  const MAX_MESSAGES: nat := 100
  const MAX_AGE: int := 7 * 24 * 60 * 60  // seconds

  /** An `OutboundGroupSession`. */
  datatype GroupSession = GroupSession(
    id: SessionId, shared: bool, usersSharedWith: set<DeviceKey>, usersIgnored: set<DeviceKey>,
    messageCount: nat, creationTime: int)
  {
    predicate ShouldRotate(now: int) {
      messageCount >= MAX_MESSAGES || now - creationTime >= MAX_AGE
    }

    predicate Covers(k: DeviceKey) {
      k in usersSharedWith || k in usersIgnored
    }
  }

  /** The part of a `MatrixRoom` that matters here. */
  datatype Room = Room(members: Rooms.Members, order: seq<UserId>, encrypted: bool, membersSynced: bool)

  /** One encrypted message: its room, the session that encrypted it, and the message index. */
  datatype Sent = Sent(room: RoomId, session: SessionId, index: nat)

  /**
   * `inbound` holds the inbound twins of our own sessions; session ids are numbered in the
   * order of creation, and `created` is the next one; `sent` is the history of messages.
   */
  datatype ClientState = ClientState(
    rooms: map<RoomId, Room>,
    encryptedRooms: set<RoomId>,
    devices: DeviceTable,
    olmSessions: set<string>,
    outbound: map<RoomId, GroupSession>,
    inbound: set<(RoomId, SessionId)>,
    created: SessionId,
    sent: seq<Sent>)

  datatype RoomKey = RoomKey(room: RoomId, session: SessionId)

  /** One to-device request: whom it shares with, and its messages. */
  datatype Batch = Batch(sharingWith: set<DeviceKey>, messages: map<DeviceKey, RoomKey>)

  datatype ClientError =
    | NoSuchRoom
    | NotEncrypted
    | MembersNotSynced
    | AlreadyShared
    | ShareFailed(error: ShareError)
    | NotShared
    | Expired

  /** The message for each recipient carries the key. */
  function ToBatch(key: RoomKey, ks: seq<DeviceKey>): Batch {
    Batch(Elems(ks), map k | k in ks :: key)
  }

  /** The devices of a list of users, in the order the nested loops visit them. */
  function Walk(t: DeviceTable, users: seq<UserId>): seq<DeviceKey> {
    if users == [] then [] else ActiveDevices(t, users[0]) + Walk(t, users[1..])
  }

  lemma {:induction false} WalkVisits(t: DeviceTable, users: seq<UserId>)
    ensures forall k :: k in Walk(t, users) <==> k.0 in users && IsActive(t, k)
    ensures Distinct(users) ==> Distinct(Walk(t, users))
  {
    if users == [] {
    } else {
      assert users == [users[0]] + users[1..];
      WalkVisits(t, users[1..]);
      ActiveDevicesAre(t, users[0]);
      DistinctConcat(ActiveDevices(t, users[0]), Walk(t, users[1..]));
    }
  }

  function NewSession(s: ClientState, room: RoomId, now: int): ClientState {
    s.(outbound := s.outbound[room := GroupSession(s.created, false, {}, {}, 0, now)],
       inbound := s.inbound + {(room, s.created)},
       created := s.created + 1)
  }

  function EnsureSession(s: ClientState, room: RoomId, now: int): (r: ClientState)
    ensures room in r.outbound
  {
    if room in s.outbound then s else NewSession(s, room, now)
  }

  /** `invalidate_outbound_session` for a set of rooms: sessions that were never shared stay. */
  function Invalidate(s: ClientState, rooms: set<RoomId>): ClientState {
    s.(outbound := map r | r in s.outbound && !(r in rooms && s.outbound[r].shared) :: s.outbound[r])
  }

  /** `ignore_devices`. */
  function MarkIgnored(t: DeviceTable, ks: seq<DeviceKey>): (r: DeviceTable)
    decreases |ks|
    ensures r.keys == t.keys && r.vals.Keys == t.vals.Keys
    ensures forall k :: k in t.vals ==> r.vals[k] == if k in ks then t.vals[k].(trust := Ignored) else t.vals[k]
  {
    if ks == [] then t
    else
      assert ks == [ks[0]] + ks[1..];
      MarkIgnored(if ks[0] in t.vals then Put(t, ks[0], t.vals[ks[0]].(trust := Ignored)) else t, ks[1..])
  }

  function ShareContext(own: DeviceKey, s: ClientState, g: GroupSession, policy: MissingPolicy,
                        ignoreUnverified: bool): Context {
    Context(own.1, s.devices.vals, s.olmSessions, g.usersSharedWith, policy, ignoreUnverified)
  }

  /** The walk of a share call over the members of a room. */
  function ScanRoom(own: DeviceKey, s: ClientState, room: RoomId, policy: MissingPolicy, ignoreUnverified: bool,
                    limit: Option<nat>): Scan
    requires room in s.rooms && room in s.outbound
  {
    var g := s.outbound[room];
    ScanAll(ShareContext(own, s, g, policy, ignoreUnverified), limit, Scan(g.usersIgnored, [], [], None),
            Walk(s.devices, s.rooms[room].order))
  }

  /** What a walk leaves behind: the session's ignored set, and without an error the devices' trust. */
  function AfterScan(s: ClientState, room: RoomId, r: Scan): ClientState
    requires room in s.outbound
  {
    s.(outbound := s.outbound[room := s.outbound[room].(usersIgnored := r.ignored)],
       devices := if r.error.Some? then s.devices else MarkIgnored(s.devices, r.marked))
  }

  /** `share_group_session`. */
  function Share(own: DeviceKey, s: ClientState, room: RoomId, ignoreMissing: bool, ignoreUnverified: bool, now: int)
    : (ClientState, Result<Batch, ClientError>)
  {
    if room !in s.rooms then (s, Err(NoSuchRoom))
    else if !s.rooms[room].encrypted then (s, Err(NotEncrypted))
    else
      var s1 := EnsureSession(s, room, now);
      if s1.outbound[room].shared then (s1, Err(AlreadyShared))
      else
        var policy := if ignoreMissing then IgnoreMissing else RaiseMissing;
        var r := ScanRoom(own, s1, room, policy, ignoreUnverified, Some(MAX_TO_DEVICE_MESSAGES));
        (AfterScan(s1, room, r),
         if r.error.Some? then Err(ShareFailed(r.error.value))
         else Ok(ToBatch(RoomKey(room, s1.outbound[room].id), r.batch)))
  }

  /** `chunks`. */
  function Chunks<T>(s: seq<T>, n: nat): seq<seq<T>>
    requires n > 0
  {
    if |s| <= n then (if s == [] then [] else [s]) else [s[..n]] + Chunks(s[n..], n)
  }

  function ToBatches(key: RoomKey, chunks: seq<seq<DeviceKey>>): (r: seq<Batch>)
    ensures |r| == |chunks|
    ensures forall i :: 0 <= i < |r| ==> r[i] == ToBatch(key, chunks[i])
  {
    seq(|chunks|, i requires 0 <= i < |chunks| => ToBatch(key, chunks[i]))
  }

  /** `share_group_session_parallel`: a session that was already shared is replaced. */
  function ShareParallel(own: DeviceKey, s: ClientState, room: RoomId, ignoreUnverified: bool, now: int)
    : (ClientState, Result<seq<Batch>, ClientError>)
  {
    if room !in s.rooms then (s, Err(NoSuchRoom))
    else if !s.rooms[room].encrypted then (s, Err(NotEncrypted))
    else
      var s0 := EnsureSession(s, room, now);
      var s1 := if s0.outbound[room].shared then NewSession(s0, room, now) else s0;
      var r := ScanRoom(own, s1, room, SkipMissing, ignoreUnverified, None);
      (AfterScan(s1, room, r),
       if r.error.Some? then Err(ShareFailed(r.error.value))
       else Ok(ToBatches(RoomKey(room, s1.outbound[room].id), Chunks(r.batch, MAX_TO_DEVICE_MESSAGES))))
  }

  predicate AllCovered(t: DeviceTable, users: seq<UserId>, g: GroupSession) {
    forall k | k in Walk(t, users) :: g.Covers(k)
  }

  /** The response to a share request: note the recipients, and mark the session once everyone is covered. */
  function Respond(s: ClientState, room: RoomId, recipients: set<DeviceKey>): ClientState {
    if room !in s.outbound || room !in s.rooms then s
    else
      var g := s.outbound[room].(usersSharedWith := s.outbound[room].usersSharedWith + recipients);
      var g' := if AllCovered(s.devices, s.rooms[room].order, g) then g.(shared := true) else g;
      s.(outbound := s.outbound[room := g'])
  }

  /** `encrypt`: `now` and `later` are the two readings of the clock. */
  function Encrypt(s: ClientState, room: RoomId, now: int, later: int): (ClientState, Result<Sent, ClientError>) {
    if room !in s.rooms then (s, Err(NoSuchRoom))
    else if !s.rooms[room].encrypted then (s, Err(NotEncrypted))
    else if !s.rooms[room].membersSynced then (s, Err(MembersNotSynced))
    else
      var s1 := EnsureSession(s, room, now);
      var s2 := if s1.outbound[room].ShouldRotate(now) then NewSession(s1, room, now) else s1;
      var g := s2.outbound[room];
      if !g.shared then (s2, Err(NotShared))
      else if g.ShouldRotate(later) then (s2, Err(Expired))
      else
        var m := Sent(room, g.id, g.messageCount);
        (s2.(outbound := s2.outbound[room := g.(messageCount := g.messageCount + 1)], sent := s2.sent + [m]), Ok(m))
  }

  datatype TrustOp = Verify | Unverify | Blacklist | Unblacklist | Ignore | Unignore

  /** The new trust state of a device, or None when the operation reports that nothing changed. */
  function NewTrust(trust: TrustState, op: TrustOp): Option<TrustState> {
    match op
    case Verify => if trust == Verified then None else Some(Verified)
    case Unverify => if trust == Verified then Some(Unset) else None
    case Blacklist => if trust == Blacklisted then None else Some(Blacklisted)
    case Unblacklist => if trust == Blacklisted then Some(Unset) else None
    case Ignore => if trust == Ignored then None else Some(Ignored)
    case Unignore => if trust == Ignored then Some(Unset) else None
  }

  function RoomsWithUser(s: ClientState, u: UserId): set<RoomId> {
    set r | r in s.rooms && u in s.rooms[r].members
  }

  /**
   * `verify_device`, `blacklist_device` and so on: whether the trust changed, or None for the
   * assertion that fails when a trust state is to be set for a device that is not stored.
   */
  function ChangeTrust(s: ClientState, k: DeviceKey, op: TrustOp): (ClientState, Option<bool>) {
    if k !in s.devices.vals then (s, if op.Verify? || op.Blacklist? || op.Ignore? then None else Some(false))
    else match NewTrust(s.devices.vals[k].trust, op)
      case None => (s, Some(false))
      case Some(trust) =>
        var s' := s.(devices := Put(s.devices, k, s.devices.vals[k].(trust := trust)));
        (Invalidate(s', RoomsWithUser(s, k.0)), Some(true))
  }

  /** A MAC that completes an interactive verification: the device is verified, and no session is dropped. */
  function VerifyAfterSas(s: ClientState, k: DeviceKey): ClientState {
    if k !in s.devices.vals then s else s.(devices := Put(s.devices, k, s.devices.vals[k].(trust := Verified)))
  }

  /** A joined room in a sync response: it is created when it is not known yet. */
  function SyncRoom(s: ClientState, room: RoomId): ClientState {
    if room in s.rooms then s
    else s.(rooms := s.rooms[room := Room(map[], [], room in s.encryptedRooms, false)])
  }

  function MemberEvent(s: ClientState, room: RoomId, e: Rooms.MemberEvent): ClientState {
    if room !in s.rooms then s
    else
      var r := s.rooms[room];
      var (members, changed) := Rooms.ApplyMembership(r.members, e);
      var s1 := s.(rooms := s.rooms[room := r.(members := members, order := Rooms.ApplyOrder(r.order, r.members, e))]);
      if changed then Invalidate(s1, {room}) else s1
  }

  function EncryptionEvent(s: ClientState, room: RoomId): ClientState {
    if room !in s.rooms then s
    else s.(rooms := s.rooms[room := s.rooms[room].(encrypted := true)], encryptedRooms := s.encryptedRooms + {room})
  }

  /** `_handle_joined_members`: new members, and no session is thrown away. */
  function RefreshMembers(s: ClientState, room: RoomId, ms: seq<Rooms.Member>): ClientState {
    if room !in s.rooms then s
    else
      var r := s.rooms[room];
      var roster := JoinedMembers.Refresh(JoinedMembers.Roster(r.members, r.order), ms);
      s.(rooms := s.rooms[room := r.(members := roster.members, order := roster.order, membersSynced := true)])
  }

  /** The encrypted rooms with a member whose devices changed. */
  function AffectedRooms(s: ClientState, changed: map<DeviceKey, OlmDevice>): set<RoomId> {
    set r | r in s.rooms && s.rooms[r].encrypted && exists k :: k in changed && k.0 in s.rooms[r].members
  }

  datatype Event =
    | EvSyncRoom(room: RoomId)
    | EvMember(room: RoomId, event: Rooms.MemberEvent)
    | EvEncryption(room: RoomId)
    | EvJoinedMembers(room: RoomId, members: seq<Rooms.Member>)
    | EvKeyQuery(answers: map<UserId, KeyQuery.Answer>, changed: map<DeviceKey, OlmDevice>)
    | EvOlmSessions(sessions: set<string>)
    | EvShare(room: RoomId, ignoreMissing: bool, ignoreUnverified: bool, now: int)
    | EvShareParallel(room: RoomId, ignoreUnverified: bool, now: int)
    | EvShareResponse(room: RoomId, recipients: set<DeviceKey>)
    | EvTrust(k: DeviceKey, op: TrustOp)
    | EvSasVerified(k: DeviceKey)
    | EvEncrypt(room: RoomId, now: int, later: int)

  /** One step of a client. Only the key query is not a function: it may add devices in any order. */
  ghost predicate Step(own: DeviceKey, s: ClientState, e: Event, s': ClientState) {
    match e
    case EvSyncRoom(room) => s' == SyncRoom(s, room)
    case EvMember(room, event) => s' == MemberEvent(s, room, event)
    case EvEncryption(room) => s' == EncryptionEvent(s, room)
    case EvJoinedMembers(room, members) => s' == RefreshMembers(s, room, members)
    case EvKeyQuery(answers, changed) =>
      && KeyQuery.QueryStep(own, answers, s.devices.vals, s'.devices.vals)
      && KeyQuery.IsDiff(changed, s.devices.vals, s'.devices.vals)
      && s' == Invalidate(s.(devices := s'.devices), AffectedRooms(s, changed))
    case EvOlmSessions(sessions) => s' == s.(olmSessions := sessions)
    case EvShare(room, ignoreMissing, ignoreUnverified, now) =>
      s' == Share(own, s, room, ignoreMissing, ignoreUnverified, now).0
    case EvShareParallel(room, ignoreUnverified, now) => s' == ShareParallel(own, s, room, ignoreUnverified, now).0
    case EvShareResponse(room, recipients) => s' == Respond(s, room, recipients)
    case EvTrust(k, op) => s' == ChangeTrust(s, k, op).0
    case EvSasVerified(k) => s' == VerifyAfterSas(s, k)
    case EvEncrypt(room, now, later) => s' == Encrypt(s, room, now, later).0
  }

  /** A client that has just loaded its stores: no rooms and no outbound sessions yet. */
  ghost predicate Initial(s: ClientState) {
    s.rooms == map[] && s.outbound == map[] && s.sent == []
  }

  ghost predicate IsRun(own: DeviceKey, states: seq<ClientState>, events: seq<Event>) {
    && |states| == |events| + 1
    && Initial(states[0])
    && (forall i :: 0 <= i < |events| ==> Step(own, states[i], events[i], states[i + 1]))
  }
}
