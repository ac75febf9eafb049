/**
 * The client as an object: its methods change the session table, the device store and the
 * rooms in place, and each leaves the state that the functions of Distribution describe.
 */
module Clients {
  import opened Wrappers
  import opened Sequences
  import opened Dicts
  import opened Devices
  import opened Sharing
  import opened Distribution
  import KeyQuery
  import Rooms

  /** The walk from the j-th device of the inner loop on. */
  ghost function ScanRest(c: Context, limit: Option<nat>, s: Scan, devices: seq<DeviceKey>, j: nat,
                          others: seq<DeviceKey>): Scan {
    ScanAll(c, limit, s, (if j <= |devices| then devices[j..] else []) + others)
  }

  lemma ScanNext(c: Context, limit: Option<nat>, s: Scan, devices: seq<DeviceKey>, j: nat, others: seq<DeviceKey>)
    requires j < |devices| && !Stopped(limit, s)
    ensures ScanRest(c, limit, s, devices, j, others)
        == ScanRest(c, limit, ScanStep(c, s, devices[j]), devices, j + 1, others)
  {
    var ks := devices[j..] + others;
    assert ks[0] == devices[j] && ks[1..] == devices[j + 1..] + others;
  }

  lemma ScanEnds(c: Context, limit: Option<nat>, s: Scan, devices: seq<DeviceKey>, j: nat, others: seq<DeviceKey>)
    ensures ScanRest(c, limit, s, devices, 0, others) == ScanAll(c, limit, s, devices + others)
    ensures j == |devices| ==> ScanRest(c, limit, s, devices, j, others) == ScanAll(c, limit, s, others)
    ensures Stopped(limit, s) ==> ScanRest(c, limit, s, devices, j, others) == ScanAll(c, limit, s, others) == s
  {
    assert devices[0..] == devices;
    assert j == |devices| ==> devices[j..] + others == others;
  }

  /** Once the walk has stopped, the devices that are left do not matter. */
  lemma ScanStopped(c: Context, limit: Option<nat>, s: Scan, ks: seq<DeviceKey>)
    requires Stopped(limit, s) || ks == []
    ensures ScanAll(c, limit, s, ks) == s
  {
  }

  /** Only the ignored set of the room's session differs. */
  ghost predicate OnlyIgnoredChanged(room: RoomId, before: map<RoomId, GroupSession>,
                                     after: map<RoomId, GroupSession>) {
    && room in before && room in after
    && after == before[room := before[room].(usersIgnored := after[room].usersIgnored)]
  }

  lemma IgnoredTwice(room: RoomId, first: map<RoomId, GroupSession>, second: map<RoomId, GroupSession>,
                     third: map<RoomId, GroupSession>)
    requires OnlyIgnoredChanged(room, first, second) && OnlyIgnoredChanged(room, second, third)
    ensures OnlyIgnoredChanged(room, first, third)
  {
  }

  class Client {
    const own: DeviceKey
    const keys: KeyQuery.KeyQueryHandler
    var rooms: map<RoomId, Room>
    var encryptedRooms: set<RoomId>
    var olmSessions: set<string>
    var outbound: map<RoomId, GroupSession>
    var inbound: set<(RoomId, SessionId)>
    var created: SessionId
    ghost var sent: seq<Sent>

    constructor (own: DeviceKey, devices: DeviceTable, olmSessions: set<string>)
      ensures fresh(keys) && keys.own == own
      ensures View() == ClientState(map[], {}, devices, olmSessions, map[], {}, 0, [])
    {
      this.own, this.olmSessions := own, olmSessions;
      keys := new KeyQuery.KeyQueryHandler(own, devices);
      rooms, encryptedRooms, outbound, inbound, created, sent := map[], {}, map[], {}, 0, [];
    }

    ghost function View(): ClientState
      reads this, keys
    {
      ClientState(rooms, encryptedRooms, keys.devices, olmSessions, outbound, inbound, created, sent)
    }

    method CreateOutboundGroupSession(room: RoomId, now: int)
      modifies this`outbound, this`inbound, this`created
      ensures View() == NewSession(old(View()), room, now)
    {
      outbound := outbound[room := GroupSession(created, false, {}, {}, 0, now)];
      inbound := inbound + {(room, created)};
      created := created + 1;
    }

    /** `invalidate_outbound_session`: drop the session, and put it back unless it was shared. */
    method InvalidateOutboundSession(room: RoomId)
      modifies this`outbound
      ensures View() == Invalidate(old(View()), {room})
    {
      var session := Get(outbound, room);
      outbound := outbound - {room};
      if session.Some? && !session.value.shared {
        outbound := outbound[room := session.value];
      }
    }

    /** The loop of `_invalidate_outbound_sessions`. */
    method InvalidateOutboundSessions(u: UserId)
      modifies this`outbound
      ensures View() == Invalidate(old(View()), RoomsWithUser(old(View()), u))
    {
      var todo := rooms.Keys;
      while todo != {}
        invariant todo <= rooms.Keys
        invariant outbound == Invalidate(old(View()), RoomsWithUser(old(View()), u) - todo).outbound
      {
        var room :| room in todo;
        if u in rooms[room].members {
          InvalidateOutboundSession(room);
        }
        todo := todo - {room};
      }
    }

    /** `verify_device`, `unverify_device`, `blacklist_device` and so on. */
    method SetTrust(k: DeviceKey, op: TrustOp) returns (changed: Option<bool>)
      modifies this`outbound, keys`devices
      ensures (View(), changed) == ChangeTrust(old(View()), k, op)
    {
      if k !in keys.devices.vals {
        return if op.Verify? || op.Blacklist? || op.Ignore? then None else Some(false);
      }
      var trust := NewTrust(keys.devices.vals[k].trust, op);
      if trust.None? {
        return Some(false);
      }
      keys.devices := Put(keys.devices, k, keys.devices.vals[k].(trust := trust.value));
      InvalidateOutboundSessions(k.0);
      return Some(true);
    }

    /** The end of `handle_key_verification` for a MAC event: `Olm.verify_device`, which knows no rooms. */
    method HandleSasVerified(k: DeviceKey)
      modifies keys`devices
      ensures View() == VerifyAfterSas(old(View()), k)
    {
      if k in keys.devices.vals {
        keys.devices := Put(keys.devices, k, keys.devices.vals[k].(trust := Verified));
      }
    }

    method HandleMemberEvent(room: RoomId, e: Rooms.MemberEvent)
      modifies this`rooms, this`outbound
      ensures View() == MemberEvent(old(View()), room, e)
    {
      if room in rooms {
        var r := rooms[room];
        var (members, changed) := Rooms.ApplyMembership(r.members, e);
        rooms := rooms[room := r.(members := members, order := Rooms.ApplyOrder(r.order, r.members, e))];
        if changed {
          InvalidateOutboundSession(room);
        }
      }
    }

    /** The key query response: reconcile the devices, then drop the sessions of the affected rooms. */
    method HandleKeyQueryResponse(response: Dict<UserId, KeyQuery.Answer>) returns (changed: map<DeviceKey, OlmDevice>)
      requires keys.own == own
      modifies this`outbound, keys
      ensures Step(own, old(View()), EvKeyQuery(response.vals, changed), View())
    {
      hide Invalidate, KeyQuery.RecordAfter, KeyQuery.IsDiff;
      changed := keys.HandleKeyQuery(response);
      InvalidateChanged(set k | k in changed :: k.0);
      assert AffectedRooms(old(View()), changed) == RoomsWithAny(old(View()), set k | k in changed :: k.0);
    }

    method InvalidateChanged(users: set<UserId>)
      modifies this`outbound
      ensures View() == Invalidate(old(View()), RoomsWithAny(old(View()), users))
    {
      var todo := users;
      while todo != {}
        invariant todo <= users
        invariant outbound == Invalidate(old(View()), RoomsWithAny(old(View()), users - todo)).outbound
      {
        var u :| u in todo;
        ghost var before := View();
        InvalidateEncrypted(u);
        InvalidateTwice(old(View()), RoomsWithAny(old(View()), users - todo), RoomsWithAny(old(View()), {u}));
        todo := todo - {u};
        assert RoomsWithAny(old(View()), users - todo)
            == RoomsWithAny(old(View()), users - todo - {u}) + RoomsWithAny(old(View()), {u});
      }
      assert users - todo == users;
    }

    method InvalidateEncrypted(u: UserId)
      modifies this`outbound
      ensures View() == Invalidate(old(View()), RoomsWithAny(old(View()), {u}))
    {
      var todo := rooms.Keys;
      while todo != {}
        invariant todo <= rooms.Keys
        invariant outbound == Invalidate(old(View()), RoomsWithAny(old(View()), {u}) - todo).outbound
      {
        var room :| room in todo;
        if rooms[room].encrypted && u in rooms[room].members {
          InvalidateOutboundSession(room);
        }
        todo := todo - {room};
      }
    }

    /** What the walk of a share call knows at some point. */
    ghost function Progress(room: RoomId, userMap: seq<DeviceKey>, marked: seq<DeviceKey>,
                            error: Option<ShareError>): Scan
      reads this
    {
      Scan(if room in outbound then outbound[room].usersIgnored else {}, userMap, marked, error)
    }

    /** `ignored_set.add(...)`: the set belongs to the room's session. */
    method AddIgnored(room: RoomId, k: DeviceKey)
      requires room in outbound
      modifies this`outbound
      ensures var g := old(outbound)[room];
        outbound == old(outbound)[room := g.(usersIgnored := g.usersIgnored + {k})]
    {
      var session := outbound[room];
      outbound := outbound[room := session.(usersIgnored := session.usersIgnored + {k})];
    }

    /** The body of the inner loop of both share calls. */
    method Consider(room: RoomId, k: DeviceKey, policy: MissingPolicy, ignoreUnverified: bool,
                    userMap: seq<DeviceKey>, marked: seq<DeviceKey>)
      returns (userMap': seq<DeviceKey>, marked': seq<DeviceKey>, error: Option<ShareError>)
      requires room in outbound && k in keys.devices.vals
      modifies this`outbound
      ensures OnlyIgnoredChanged(room, old(outbound), outbound)
      ensures Progress(room, userMap', marked', error)
           == ScanStep(ShareContext(own, old(View()), old(outbound)[room], policy, ignoreUnverified),
                       old(Progress(room, userMap, marked, None)), k)
    {
      userMap', marked', error := userMap, marked, None;
      var device := keys.devices.vals[k];
      if k.1 == own.1 {
        AddIgnored(room, k);
        return;
      }
      if device.trust == Blacklisted {
        AddIgnored(room, k);
        return;
      }
      if k in outbound[room].usersSharedWith || k in outbound[room].usersIgnored {
        return;
      }
      if device.curve25519 !in olmSessions {
        match policy {
          case RaiseMissing =>
            error := Some(MissingSession(k));
          case IgnoreMissing =>
            AddIgnored(room, k);
          case SkipMissing =>
        }
        return;
      }
      if device.trust != Verified {
        if device.trust == Ignored {
        } else if ignoreUnverified {
          marked' := marked' + [k];
        } else {
          error := Some(UnverifiedDevice(k));
          return;
        }
      }
      userMap' := userMap' + [k];
    }

    /** The nested loops of both share calls, with their breaks. */
    method WalkRoom(room: RoomId, policy: MissingPolicy, ignoreUnverified: bool, limit: Option<nat>)
      returns (userMap: seq<DeviceKey>, marked: seq<DeviceKey>, error: Option<ShareError>)
      requires room in rooms && room in outbound && (limit.Some? ==> limit.value > 0)
      modifies this`outbound
      ensures OnlyIgnoredChanged(room, old(outbound), outbound)
      ensures Progress(room, userMap, marked, error)
          == ScanRoom(own, old(View()), room, policy, ignoreUnverified, limit)
    {
      userMap, marked, error := [], [], None;
      var users := rooms[room].order;
      ghost var c := ShareContext(own, View(), outbound[room], policy, ignoreUnverified);
      ghost var whole := ScanAll(c, limit, Progress(room, [], [], None), Walk(keys.devices, users));
      var i := 0;
      hide ScanAll, ScanStep, ActiveDevices;
      while i < |users|
        invariant 0 <= i <= |users|
        invariant OnlyIgnoredChanged(room, old(outbound), outbound) && error.None?
        invariant !Stopped(limit, Progress(room, userMap, marked, error))
        invariant ScanAll(c, limit, Progress(room, userMap, marked, error), Walk(keys.devices, users[i..])) == whole
      {
        userMap, marked, error := WalkUser(room, users[i], Walk(keys.devices, users[i + 1..]), c, policy,
                                           ignoreUnverified, limit, userMap, marked);
        if error.Some? {
          ScanStopped(c, limit, Progress(room, userMap, marked, error), Walk(keys.devices, users[i + 1..]));
          return;
        }
        if limit.Some? && |userMap| >= limit.value {
          ScanStopped(c, limit, Progress(room, userMap, marked, error), Walk(keys.devices, users[i + 1..]));
          break;
        }
        i := i + 1;
      }
      if i == |users| {
        ScanStopped(c, limit, Progress(room, userMap, marked, error), []);
      }
    }

    /**
     * The inner loop: one user's devices, until the batch is full. `others` are the devices the
     * outer loop has left.
     */
    method WalkUser(room: RoomId, u: UserId, ghost others: seq<DeviceKey>, ghost c: Context, policy: MissingPolicy,
                    ignoreUnverified: bool, limit: Option<nat>, userMap: seq<DeviceKey>, marked: seq<DeviceKey>)
      returns (userMap': seq<DeviceKey>, marked': seq<DeviceKey>, error: Option<ShareError>)
      requires room in outbound && c == ShareContext(own, View(), outbound[room], policy, ignoreUnverified)
      requires !Stopped(limit, Progress(room, userMap, marked, None))
      modifies this`outbound
      ensures OnlyIgnoredChanged(room, old(outbound), outbound)
      ensures ScanAll(c, limit, Progress(room, userMap', marked', error), others)
           == ScanAll(c, limit, old(Progress(room, userMap, marked, None)), ActiveDevices(keys.devices, u) + others)
    {
      userMap', marked', error := userMap, marked, None;
      var devices := ActiveDevices(keys.devices, u);
      ActiveDevicesAre(keys.devices, u);
      ghost var whole := ScanRest(c, limit, Progress(room, userMap, marked, None), devices, 0, others);
      ScanEnds(c, limit, Progress(room, userMap, marked, None), devices, 0, others);
      var j := 0;
      hide ScanAll, ScanRest, ScanStep, ActiveDevices, OnlyIgnoredChanged;
      while j < |devices|
        invariant 0 <= j <= |devices|
        invariant OnlyIgnoredChanged(room, old(outbound), outbound) && error.None?
        invariant !Stopped(limit, Progress(room, userMap', marked', error))
        invariant ScanRest(c, limit, Progress(room, userMap', marked', error), devices, j, others) == whole
      {
        assert devices[j] in devices;
        ghost var cur, before := Progress(room, userMap', marked', error), outbound;
        userMap', marked', error := Consider(room, devices[j], policy, ignoreUnverified, userMap', marked');
        IgnoredTwice(room, old(outbound), before, outbound);
        ScanNext(c, limit, cur, devices, j, others);
        if error.Some? || (limit.Some? && |userMap'| >= limit.value) {
          ScanEnds(c, limit, Progress(room, userMap', marked', error), devices, j + 1, others);
          return;
        }
        j := j + 1;
      }
      ScanEnds(c, limit, Progress(room, userMap', marked', error), devices, j, others);
    }

    /** The room a call is about, if it is known and encrypted. */
    method Lookup(room: RoomId) returns (error: Option<ClientError>)
      ensures error == if room !in rooms then Some(NoSuchRoom)
                       else if !rooms[room].encrypted then Some(NotEncrypted)
                       else None
    {
      if room !in rooms {
        return Some(NoSuchRoom);
      }
      if !rooms[room].encrypted {
        return Some(NotEncrypted);
      }
      return None;
    }

    /** The loop that encrypts the key for each recipient. */
    method Envelopes(key: RoomKey, userMap: seq<DeviceKey>) returns (batch: Batch)
      ensures batch == ToBatch(key, userMap)
    {
      var sharingWith: set<DeviceKey>, messages: map<DeviceKey, RoomKey> := {}, map[];
      for i := 0 to |userMap|
        invariant sharingWith == Elems(userMap[..i])
        invariant messages == map k | k in userMap[..i] :: key
      {
        sharingWith := sharingWith + {userMap[i]};
        messages := messages[userMap[i] := key];
        assert userMap[..i + 1] == userMap[..i] + [userMap[i]];
      }
      assert userMap[..|userMap|] == userMap;
      return Batch(sharingWith, messages);
    }

    method ShareGroupSession(room: RoomId, ignoreMissing: bool, ignoreUnverified: bool, now: int)
      returns (r: Result<Batch, ClientError>)
      modifies this`outbound, this`inbound, this`created, keys`devices
      ensures (View(), r) == Share(own, old(View()), room, ignoreMissing, ignoreUnverified, now)
    {
      hide ScanRoom, MarkIgnored;
      var bad := Lookup(room);
      if bad.Some? {
        return Err(bad.value);
      }
      if room !in outbound {
        CreateOutboundGroupSession(room, now);
      }
      if outbound[room].shared {
        return Err(AlreadyShared);
      }
      ghost var s1 := View();
      var policy := if ignoreMissing then IgnoreMissing else RaiseMissing;
      var userMap, marked, error := WalkRoom(room, policy, ignoreUnverified, Some(MAX_TO_DEVICE_MESSAGES));
      if error.Some? {
        return Err(ShareFailed(error.value));
      }
      keys.devices := MarkIgnored(keys.devices, marked);
      assert View() == AfterScan(s1, room, Scan(outbound[room].usersIgnored, userMap, marked, None));
      var batch := Envelopes(RoomKey(room, outbound[room].id), userMap);
      return Ok(batch);
    }

    /** The generator of requests, run to its end. */
    method ChunkBatches(key: RoomKey, userMap: seq<DeviceKey>, n: nat) returns (batches: seq<Batch>)
      requires n > 0
      ensures batches == ToBatches(key, Chunks(userMap, n))
    {
      batches := [];
      var rest := userMap;
      while rest != []
        invariant batches + ToBatches(key, Chunks(rest, n)) == ToBatches(key, Chunks(userMap, n))
        decreases |rest|
      {
        var size := if |rest| < n then |rest| else n;
        var batch := Envelopes(key, rest[..size]);
        ChunkOff(key, rest, n);
        batches := batches + [batch];
        rest := rest[size..];
      }
    }

    method ShareGroupSessionParallel(room: RoomId, ignoreUnverified: bool, now: int)
      returns (r: Result<seq<Batch>, ClientError>)
      modifies this`outbound, this`inbound, this`created, keys`devices
      ensures (View(), r) == ShareParallel(own, old(View()), room, ignoreUnverified, now)
    {
      hide ScanRoom, MarkIgnored, Chunks;
      var bad := Lookup(room);
      if bad.Some? {
        return Err(bad.value);
      }
      if room !in outbound {
        CreateOutboundGroupSession(room, now);
      }
      if outbound[room].shared {
        CreateOutboundGroupSession(room, now);
      }
      ghost var s1 := View();
      var userMap, marked, error := WalkRoom(room, SkipMissing, ignoreUnverified, None);
      if error.Some? {
        return Err(ShareFailed(error.value));
      }
      keys.devices := MarkIgnored(keys.devices, marked);
      assert View() == AfterScan(s1, room, Scan(outbound[room].usersIgnored, userMap, marked, None));
      var batches := ChunkBatches(RoomKey(room, outbound[room].id), userMap, MAX_TO_DEVICE_MESSAGES);
      return Ok(batches);
    }

    /** The response to a share request: the nested loops return as soon as a device is not covered. */
    method HandleShareResponse(room: RoomId, recipients: set<DeviceKey>)
      modifies this`outbound
      ensures View() == Respond(old(View()), room, recipients)
    {
      if room !in outbound || room !in rooms {
        return;
      }
      var session := outbound[room].(usersSharedWith := outbound[room].usersSharedWith + recipients);
      outbound := outbound[room := session];
      var users := rooms[room].order;
      AllCoveredMeans(keys.devices, users, session);
      hide AllCovered;
      for i := 0 to |users|
        invariant outbound == old(outbound)[room := session]
        invariant forall k: DeviceKey :: k.0 in users[..i] && IsActive(keys.devices, k) ==> session.Covers(k)
      {
        var uncovered := FindUncovered(users[i], session);
        if uncovered.Some? {
          assert users[i] in users;
          return;
        }
      }
      assert users[..|users|] == users;
      outbound := outbound[room := session.(shared := true)];
      assert outbound == old(outbound)[room := session.(shared := true)];
    }

    /** The inner loop: the first of a user's active devices that is not covered. */
    method FindUncovered(u: UserId, session: GroupSession) returns (r: Option<DeviceKey>)
      ensures r.Some? ==> r.value.0 == u && IsActive(keys.devices, r.value) && !session.Covers(r.value)
      ensures r.None? ==> forall k: DeviceKey :: k.0 == u && IsActive(keys.devices, k) ==> session.Covers(k)
    {
      var devices := ActiveDevices(keys.devices, u);
      ActiveDevicesAre(keys.devices, u);
      hide ActiveDevices, IsActive;
      for j := 0 to |devices|
        invariant forall k :: k in devices[..j] ==> session.Covers(k)
      {
        var user := devices[j];
        if user !in session.usersSharedWith && user !in session.usersIgnored {
          assert user in devices;
          return Some(user);
        }
      }
      return None;
    }

    method Encrypt(room: RoomId, now: int, later: int) returns (r: Result<Sent, ClientError>)
      modifies this`outbound, this`inbound, this`created, this`sent
      ensures (View(), r) == Distribution.Encrypt(old(View()), room, now, later)
    {
      var bad := Lookup(room);
      if bad.Some? {
        return Err(bad.value);
      }
      if !rooms[room].membersSynced {
        return Err(MembersNotSynced);
      }
      if room !in outbound {
        CreateOutboundGroupSession(room, now);
      }
      if outbound[room].ShouldRotate(now) {
        CreateOutboundGroupSession(room, now);
      }
      var session := outbound[room];
      if !session.shared {
        return Err(NotShared);
      }
      if session.ShouldRotate(later) {
        return Err(Expired);
      }
      var message := Sent(room, session.id, session.messageCount);
      outbound := outbound[room := session.(messageCount := session.messageCount + 1)];
      sent := sent + [message];
      return Ok(message);
    }
  }

  /** The encrypted rooms with one of the users as a member. */
  function RoomsWithAny(s: ClientState, users: set<UserId>): set<RoomId> {
    set r | r in s.rooms && s.rooms[r].encrypted && exists u :: u in users && u in s.rooms[r].members
  }

  lemma InvalidateTwice(s: ClientState, a: set<RoomId>, b: set<RoomId>)
    ensures Invalidate(Invalidate(s, a), b) == Invalidate(s, a + b)
  {
  }

  lemma AllCoveredMeans(t: DeviceTable, users: seq<UserId>, g: GroupSession)
    ensures AllCovered(t, users, g) <==> forall k: DeviceKey :: k.0 in users && IsActive(t, k) ==> g.Covers(k)
  {
    WalkVisits(t, users);
  }

  /** The first chunk and the chunks of the rest. */
  lemma ChunkOff(key: RoomKey, ks: seq<DeviceKey>, n: nat)
    requires n > 0 && ks != []
    ensures var size := if |ks| < n then |ks| else n;
      ToBatches(key, Chunks(ks, n)) == [ToBatch(key, ks[..size])] + ToBatches(key, Chunks(ks[size..], n))
  {
    if |ks| <= n {
      assert ks[..|ks|] == ks;
    }
  }
}
