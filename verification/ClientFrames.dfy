/** What the single steps of a client change and leave alone, and what that makes of its rooms over whole runs. */
module ClientFrames {
  import opened Wrappers
  import opened Dicts
  import opened Devices
  import opened Distribution
  import opened Sharing
  import JoinedMembers
  import KeyQuery
  import Outcomes
  import Rooms

  /** A verified device: its record is as before otherwise, and all sessions stay. */
  lemma SasVerifies(s: ClientState, k: DeviceKey)
    ensures
      var s' := VerifyAfterSas(s, k);
      && s' == s.(devices := s'.devices) && s'.devices.keys == s.devices.keys
      && s'.devices.vals - {k} == s.devices.vals - {k} && (k in s'.devices.vals <==> k in s.devices.vals)
      && (k in s.devices.vals ==> s'.devices.vals[k] == s.devices.vals[k].(trust := Verified))
  {
    if k in s.devices.vals {
      KeysAre(s.devices);
    }
  }

  /** A membership event changes the members of its room as the event means, and drops that room's session at most. */
  lemma MemberEventMeans(s: ClientState, room: RoomId, e: Rooms.MemberEvent)
    ensures
      var s' := MemberEvent(s, room, e);
      && s'.rooms.Keys == s.rooms.Keys && s'.rooms - {room} == s.rooms - {room}
      && s' == s.(rooms := s'.rooms, outbound := s'.outbound) && s'.outbound - {room} == s.outbound - {room}
      && (room in s.rooms ==>
            && Rooms.FollowsEvent(s.rooms[room].members, e, s'.rooms[room].members)
            && s'.rooms[room].encrypted == s.rooms[room].encrypted
            && s'.rooms[room].membersSynced == s.rooms[room].membersSynced)
  {
    if room in s.rooms {
      Rooms.MembershipMeans(s.rooms[room].members, e);
    }
    hide Rooms.FollowsEvent, Rooms.ApplyMembership, Rooms.ApplyOrder;
  }

  /** A key query drops exactly the shared sessions of encrypted rooms with a member whose devices differ afterwards. */
  lemma KeyQueryDrops(own: DeviceKey, s: ClientState, answers: map<UserId, KeyQuery.Answer>,
                      changed: map<DeviceKey, OlmDevice>, s': ClientState, room: RoomId)
    requires Step(own, s, EvKeyQuery(answers, changed), s') && room in s.outbound && room in s.rooms
    ensures
      && (room !in s'.outbound <==>
            && s.outbound[room].shared && s.rooms[room].encrypted
            && exists k: DeviceKey ::
                 k.0 in s.rooms[room].members && Get(s.devices.vals, k) != Get(s'.devices.vals, k))
      && (room in s'.outbound ==> s'.outbound[room] == s.outbound[room])
  {
    if k: DeviceKey :| k.0 in s.rooms[room].members && Get(s.devices.vals, k) != Get(s'.devices.vals, k) {
      assert k in changed;
    }
  }

  /** The errors of encrypting, in the order of the checks, and what is left of the session. */
  lemma EncryptFailsAs(s: ClientState, room: RoomId, now: int, later: int)
    ensures
      var (s', r) := Encrypt(s, room, now, later);
      && (r == Err(NoSuchRoom) <==> room !in s.rooms)
      && (r == Err(NotEncrypted) <==> room in s.rooms && !s.rooms[room].encrypted)
      && (r == Err(MembersNotSynced) <==> room in s.rooms && s.rooms[room].encrypted && !s.rooms[room].membersSynced)
      && (r == Err(Expired) ==> room in s.outbound && later - s.outbound[room].creationTime >= 604800)
      && (r.Err? && r.error != NotShared ==> s' == s)
      && (r == Err(NotShared) ==>
            && room in s'.outbound && !s'.outbound[room].shared
            && if room in s.outbound && s.outbound[room].messageCount < 100
                  && now - s.outbound[room].creationTime < 604800
               then s' == s else s'.outbound[room].creationTime == now && s'.outbound[room].messageCount == 0)
  {
  }

  /** A response adds its recipients to the room's session, and may mark it; nothing else changes. */
  lemma RespondTouches(s: ClientState, room: RoomId, recipients: set<DeviceKey>)
    ensures
      var s' := Respond(s, room, recipients);
      && s' == s.(outbound := s'.outbound) && s'.outbound.Keys == s.outbound.Keys
      && s'.outbound - {room} == s.outbound - {room}
      && (room in s.outbound && room in s.rooms ==>
            var g, g' := s.outbound[room], s'.outbound[room];
            && g' == g.(usersSharedWith := g.usersSharedWith + recipients, shared := g'.shared)
            && (g'.shared <==> g.shared || AllCovered(s.devices, s.rooms[room].order, g')))
      && (room !in s.rooms ==> s' == s)
  {
    if room in s.outbound && room in s.rooms {
      var g := s.outbound[room].(usersSharedWith := s.outbound[room].usersSharedWith + recipients);
      CoverageOfMark(s.devices, s.rooms[room].order, g);
    }
    hide AllCovered;
  }

  lemma CoverageOfMark(t: DeviceTable, users: seq<UserId>, g: GroupSession)
    ensures AllCovered(t, users, g.(shared := true)) <==> AllCovered(t, users, g)
  {
    hide Walk;
    assert forall k :: g.(shared := true).Covers(k) <==> g.Covers(k);
  }

  /** What a share call may do to a device: an unset trust becomes ignored. */
  ghost predicate OnlyIgnores(before: map<DeviceKey, OlmDevice>, after: map<DeviceKey, OlmDevice>) {
    && after.Keys == before.Keys
    && (forall k :: k in before ==>
          after[k] == before[k] || (before[k].trust == Unset && after[k] == before[k].(trust := Ignored)))
  }

  /** The parts of the state that each kind of step may change. */
  ghost predicate FrameOk(s: ClientState, e: Event, s': ClientState) {
    && (!e.EvSyncRoom? && !e.EvMember? && !e.EvEncryption? && !e.EvJoinedMembers? ==> s'.rooms == s.rooms)
    && (!e.EvEncryption? ==> s'.encryptedRooms == s.encryptedRooms)
    && (!e.EvOlmSessions? ==> s'.olmSessions == s.olmSessions)
    && (!e.EvEncrypt? ==> s'.sent == s.sent)
    && (!e.EvShare? && !e.EvShareParallel? && !e.EvEncrypt? ==> s'.inbound == s.inbound && s'.created == s.created)
    && (!e.EvKeyQuery? && !e.EvTrust? && !e.EvSasVerified? ==> OnlyIgnores(s.devices.vals, s'.devices.vals))
    && (!e.EvKeyQuery? && !e.EvTrust? && !e.EvSasVerified? && !e.EvShare? && !e.EvShareParallel? ==>
          s'.devices == s.devices)
  }

  /** A walk only marks devices without a trust state. */
  lemma ScanOnlyIgnores(own: DeviceKey, s: ClientState, room: RoomId, policy: MissingPolicy, ignoreUnverified: bool,
                        limit: Option<nat>)
    requires room in s.rooms && room in s.outbound
    ensures
      var s' := AfterScan(s, room, ScanRoom(own, s, room, policy, ignoreUnverified, limit));
      OnlyIgnores(s.devices.vals, s'.devices.vals)
  {
    var g := s.outbound[room];
    var c := ShareContext(own, s, g, policy, ignoreUnverified);
    var ks := Walk(s.devices, s.rooms[room].order);
    var r := ScanAll(c, limit, Scan(g.usersIgnored, [], [], None), ks);
    assert r == ScanRoom(own, s, room, policy, ignoreUnverified, limit);
    Outcomes.ScanMarksUnset(c, limit, Scan(g.usersIgnored, [], [], None), ks);
    assert forall k :: k in r.marked ==> k in s.devices.vals && s.devices.vals[k].trust == Unset;
    hide ScanAll, ScanRoom, Walk, MarkIgnored;
  }

  lemma ShareFrame(own: DeviceKey, s: ClientState, room: RoomId, ignoreMissing: bool, ignoreUnverified: bool, now: int)
    ensures
      var s' := Share(own, s, room, ignoreMissing, ignoreUnverified, now).0;
      && s' == s.(devices := s'.devices, outbound := s'.outbound, inbound := s'.inbound, created := s'.created)
      && OnlyIgnores(s.devices.vals, s'.devices.vals)
  {
    if room in s.rooms && s.rooms[room].encrypted {
      var policy := if ignoreMissing then IgnoreMissing else RaiseMissing;
      ScanOnlyIgnores(own, EnsureSession(s, room, now), room, policy, ignoreUnverified, Some(MAX_TO_DEVICE_MESSAGES));
    }
    hide ScanRoom, MarkIgnored;
  }

  lemma ShareParallelFrame(own: DeviceKey, s: ClientState, room: RoomId, ignoreUnverified: bool, now: int)
    ensures
      var s' := ShareParallel(own, s, room, ignoreUnverified, now).0;
      && s' == s.(devices := s'.devices, outbound := s'.outbound, inbound := s'.inbound, created := s'.created)
      && OnlyIgnores(s.devices.vals, s'.devices.vals)
  {
    if room in s.rooms && s.rooms[room].encrypted {
      var s0 := EnsureSession(s, room, now);
      var s1 := if s0.outbound[room].shared then NewSession(s0, room, now) else s0;
      ScanOnlyIgnores(own, s1, room, SkipMissing, ignoreUnverified, None);
    }
    hide ScanRoom, MarkIgnored;
  }

  /** Each step keeps to its part of the state. */
  lemma StepFrame(own: DeviceKey, s: ClientState, e: Event, s': ClientState)
    requires Step(own, s, e, s')
    ensures FrameOk(s, e, s')
  {
    hide Share, ShareParallel, OnlyIgnores, Rooms.ApplyMembership, Rooms.ApplyOrder, NewTrust, AllCovered,
        KeyQuery.QueryStep, KeyQuery.IsDiff, AffectedRooms;
    assert OnlyIgnores(s.devices.vals, s.devices.vals) by {
      NothingIgnored(s.devices.vals);
    }
    match e
    case EvShare(room, ignoreMissing, ignoreUnverified, now) =>
      ShareFrame(own, s, room, ignoreMissing, ignoreUnverified, now);
    case EvShareParallel(room, ignoreUnverified, now) => ShareParallelFrame(own, s, room, ignoreUnverified, now);
    case _ =>
  }

  lemma NothingIgnored(devices: map<DeviceKey, OlmDevice>)
    ensures OnlyIgnores(devices, devices)
  {
  }

  /** A known room counts as encrypted exactly if it is stored as such. */
  ghost predicate FlagsAgree(s: ClientState) {
    forall r :: r in s.rooms ==> (s.rooms[r].encrypted <==> r in s.encryptedRooms)
  }

  /** What a step does to the set of rooms and to their flags. */
  lemma StepFlags(own: DeviceKey, s: ClientState, e: Event, s': ClientState, r: RoomId)
    requires Step(own, s, e, s') && FlagsAgree(s)
    ensures FlagsAgree(s')
    ensures r in s'.rooms <==> r in s.rooms || e == EvSyncRoom(r)
    ensures r in s'.encryptedRooms <==> r in s.encryptedRooms || (e == EvEncryption(r) && r in s.rooms)
    ensures r in s'.rooms ==>
              (s'.rooms[r].membersSynced <==>
                 r in s.rooms && (s.rooms[r].membersSynced || (e.EvJoinedMembers? && e.room == r)))
  {
    StepFrame(own, s, e, s');
    if e.EvSyncRoom? || e.EvMember? || e.EvEncryption? || e.EvJoinedMembers? {
      hide FrameOk, Rooms.ApplyMembership, Rooms.ApplyOrder;
    } else {
      hide Step;
    }
  }

  /**
   * Over any run: a room is known exactly if it was synced; it is encrypted exactly if it was
   * stored as encrypted at the start, or an encryption event arrived while it was known; and
   * its members are synced exactly if a joined-members response did.
   */
  lemma {:induction false} RoomsOverRuns(own: DeviceKey, states: seq<ClientState>, events: seq<Event>, n: nat,
                                         r: RoomId)
    requires IsRun(own, states, events) && n <= |events|
    ensures FlagsAgree(states[n])
    ensures r in states[n].rooms <==> exists i :: 0 <= i < n && events[i] == EvSyncRoom(r)
    ensures r in states[n].encryptedRooms <==>
              || r in states[0].encryptedRooms
              || exists i :: 0 <= i < n && events[i] == EvEncryption(r) && r in states[i].rooms
    ensures r in states[n].rooms ==>
              (states[n].rooms[r].membersSynced <==>
                 exists i :: 0 <= i < n && events[i].EvJoinedMembers? && events[i].room == r && r in states[i].rooms)
  {
    if n == 0 {
    } else {
      RoomsOverRuns(own, states, events, n - 1, r);
      StepFlags(own, states[n - 1], events[n - 1], states[n], r);
      hide Step, FlagsAgree;
      if r in states[n].rooms && r !in states[n - 1].rooms {
        NeverSyncedBefore(own, states, events, n - 1, r);
      }
    }
  }

  /** A known room stays known. */
  lemma {:induction false} NeverSyncedBefore(own: DeviceKey, states: seq<ClientState>, events: seq<Event>, n: nat,
                                             r: RoomId)
    requires IsRun(own, states, events) && n <= |events| && r !in states[n].rooms
    ensures forall i :: 0 <= i <= n ==> r !in states[i].rooms
  {
    if n == 0 {
    } else {
      assert Step(own, states[n - 1], events[n - 1], states[n]);
      RoomsStay(own, states[n - 1], events[n - 1], states[n], r);
      hide Step;
      NeverSyncedBefore(own, states, events, n - 1, r);
    }
  }

  lemma RoomsStay(own: DeviceKey, s: ClientState, e: Event, s': ClientState, r: RoomId)
    requires Step(own, s, e, s')
    ensures r in s.rooms ==> r in s'.rooms
  {
    StepFrame(own, s, e, s');
    if e.EvSyncRoom? || e.EvMember? || e.EvEncryption? || e.EvJoinedMembers? {
      hide FrameOk, Rooms.ApplyMembership, Rooms.ApplyOrder;
    } else {
      hide Step;
    }
  }

  /** A synced room that is new has no members; one that is known stays as it is, as do all others. */
  lemma SyncRoomMeans(s: ClientState, room: RoomId)
    ensures
      var s' := SyncRoom(s, room);
      && s' == s.(rooms := s'.rooms) && s'.rooms - {room} == s.rooms - {room} && room in s'.rooms
      && (if room in s.rooms then s' == s
          else s'.rooms[room].members == map[] && s'.rooms[room].order == [] && !s'.rooms[room].membersSynced)
  {
  }

  /** An encryption event touches nobody's membership, and a joined-members response only that of its room. */
  lemma OtherRoomEvents(s: ClientState, room: RoomId, ms: seq<Rooms.Member>)
    ensures
      var s' := EncryptionEvent(s, room);
      && s' == s.(rooms := s'.rooms, encryptedRooms := s'.encryptedRooms) && s'.rooms - {room} == s.rooms - {room}
      && s'.rooms.Keys == s.rooms.Keys && (room in s.rooms ==> s'.rooms[room] == s.rooms[room].(encrypted := true))
    ensures
      var s' := RefreshMembers(s, room, ms);
      && s' == s.(rooms := s'.rooms) && s'.rooms - {room} == s.rooms - {room} && s'.rooms.Keys == s.rooms.Keys
      && (room in s.rooms ==>
            && JoinedMembers.Roster(s'.rooms[room].members, s'.rooms[room].order)
               == JoinedMembers.Refresh(JoinedMembers.Roster(s.rooms[room].members, s.rooms[room].order), ms)
            && s'.rooms[room].encrypted == s.rooms[room].encrypted)
  {
    hide JoinedMembers.Refresh;
  }
}
