/** What the single calls of the client come to, in terms a caller sees. */
module Outcomes {
  import opened Wrappers
  import opened Sequences
  import opened Devices
  import opened Sharing
  import opened Distribution
  import opened Rounds
  import Rooms

  /** A recipient is marked as ignored exactly when it was neither verified nor ignored. */
  ghost predicate MarksUnset(c: Context, s: Scan) {
    && (forall k :: k in s.batch ==> k in c.devices && c.devices[k].trust != Blacklisted)
    && (forall k :: k in s.marked <==> k in s.batch && c.devices[k].trust == Unset)
  }

  lemma StepMarksUnset(c: Context, s: Scan, k: DeviceKey)
    requires MarksUnset(c, s)
    ensures MarksUnset(c, ScanStep(c, s, k))
  {
  }

  lemma {:induction false} ScanMarksUnset(c: Context, limit: Option<nat>, s: Scan, ks: seq<DeviceKey>)
    requires MarksUnset(c, s)
    decreases |ks|
    ensures MarksUnset(c, ScanAll(c, limit, s, ks))
  {
    if ks == [] || Stopped(limit, s) {
    } else {
      StepMarksUnset(c, s, ks[0]);
      hide MarksUnset, ScanStep;
      ScanMarksUnset(c, limit, ScanStep(c, s, ks[0]), ks[1..]);
    }
  }

  /** Trust after a request to some recipients: those that were unset are ignored from now on. */
  ghost predicate TrustUpdated(before: DeviceTable, after: DeviceTable, recipients: seq<DeviceKey>) {
    && after.vals.Keys == before.vals.Keys
    && (forall k :: k in before.vals ==>
          after.vals[k] == if k in recipients && before.vals[k].trust == Unset then before.vals[k].(trust := Ignored)
                           else before.vals[k])
  }

  /** The first so many elements. */
  function Take<T>(s: seq<T>, n: nat): seq<T> {
    if |s| <= n then s else s[..n]
  }

  /**
   * A share call that nothing blocks sends the key of the room's session to the first 20
   * pending devices, each once, and settles the trust of these and no other devices.
   */
  lemma ShareSendsToFirstPending(a: Call, s: ClientState, now: int)
    requires Ready(a, s)
    ensures
      var (s', r) := Share(a.own, s, a.room, a.ignoreMissing, a.ignoreUnverified, now);
      var recipients := Take(StillPending(a, s), 20);
      && r == Ok(Batch(Elems(recipients), map k | k in recipients :: RoomKey(a.room, s.outbound[a.room].id)))
      && TrustUpdated(s.devices, s'.devices, recipients)
  {
    var c, i, r, left := ContextOf(a, s), IgnoredOf(a, s), ScanOf(a, s), LeftOf(a, s);
    ScanOfFacts(a, s);
    ScanMarksUnset(c, LIMIT, Scan(i, [], [], None), WalkOf(a, s));
    assert Take(StillPending(a, s), 20) == r.batch by {
      assert (r.batch + AllPending(c, i, left))[..|r.batch|] == r.batch;
      assert left == [] ==> AllPending(c, i, left) == [];
      hide ScanAll, Unvisited, ScanOf, LeftOf, Ready, Visited, Pending;
    }
    ShareIsScan(a, s, now);
    hide ScanAll, Walk, AllPending, Unvisited, ScanOf, LeftOf, StillPending, Visited, Ready, Take, Pending, Distinct;
  }

  lemma ShareIsScan(a: Call, s: ClientState, now: int)
    requires Ready(a, s)
    ensures
      Share(a.own, s, a.room, a.ignoreMissing, a.ignoreUnverified, now)
      == (AfterScan(s, a.room, ScanOf(a, s)), Ok(ToBatch(RoomKey(a.room, s.outbound[a.room].id), ScanOf(a, s).batch)))
  {
    ScanOfFacts(a, s);
    var policy := if a.ignoreMissing then IgnoreMissing else RaiseMissing;
    assert ScanRoom(a.own, s, a.room, policy, a.ignoreUnverified, LIMIT) == ScanOf(a, s);
    hide ScanAll, ScanRoom, AfterScan, ScanOf, Visited;
  }

  /** A share call of an unshared session fails exactly when the walk gets to a blocked device before 20 recipients. */
  lemma ShareFailsIff(a: Call, s: ClientState, now: int)
    requires a.room in s.rooms && s.rooms[a.room].encrypted && Distinct(s.rooms[a.room].order)
    requires a.room in s.outbound && !s.outbound[a.room].shared
    ensures
      var (s', r) := Share(a.own, s, a.room, a.ignoreMissing, a.ignoreUnverified, now);
      && (r.Err? <==> exists i :: Reached(ContextOf(a, s), LIMIT, Scan(IgnoredOf(a, s), [], [], None), WalkOf(a, s), i))
      && (r.Err? ==> r.error.ShareFailed? && s'.devices == s.devices)
  {
    WalkVisits(s.devices, s.rooms[a.room].order);
    ScanFailsIffBlockedReached(ContextOf(a, s), LIMIT, Scan(IgnoredOf(a, s), [], [], None), WalkOf(a, s));
    hide ScanAll, Walk, Reached;
  }

  /** A session replaced by a new one: nobody has it yet, and it is not marked as shared. */
  ghost predicate IsNew(g: GroupSession, now: int) {
    !g.shared && g.usersSharedWith == {} && g.usersIgnored == {} && g.messageCount == 0 && g.creationTime == now
  }

  /** Encrypting with a missing or expired session fails and leaves a new session to be shared. */
  lemma EncryptRotates(s: ClientState, room: RoomId, now: int, later: int)
    requires room in s.rooms && s.rooms[room].encrypted && s.rooms[room].membersSynced
    requires room !in s.outbound || s.outbound[room].messageCount >= 100
        || now - s.outbound[room].creationTime >= 604800
    ensures
      var (s', r) := Encrypt(s, room, now, later);
      && r == Err(NotShared) && room in s'.outbound && IsNew(s'.outbound[room], now)
      && (room in s.outbound ==> s'.outbound[room].id != s.outbound[room].id || s.outbound[room].id >= s.created)
      && s'.outbound - {room} == s.outbound - {room}
  {
  }

  /**
   * A trust operation brings the device into the state it names, reports whether that changed
   * anything, and touches no other device.
   */
  lemma TrustOperationMeans(s: ClientState, k: DeviceKey, op: TrustOp)
    requires k in s.devices.vals
    ensures
      var (s', changed) := ChangeTrust(s, k, op);
      var before, after := s.devices.vals[k].trust, if k in s'.devices.vals then s'.devices.vals[k].trust else Unset;
      && s'.devices.vals - {k} == s.devices.vals - {k} && k in s'.devices.vals
      && changed.Some? && (changed.value <==> after != before)
      && (op.Verify? ==> after == Verified)
      && (op.Blacklist? ==> after == Blacklisted)
      && (op.Ignore? ==> after == Ignored)
      && (op.Unverify? ==> after == if before == Verified then Unset else before)
      && (op.Unblacklist? ==> after == if before == Blacklisted then Unset else before)
      && (op.Unignore? ==> after == if before == Ignored then Unset else before)
      && (k in s'.devices.vals ==> s'.devices.vals[k] == s.devices.vals[k].(trust := after))
  {
  }

  /**
   * For a device that is not stored, setting a trust state fails, taking one away reports no
   * change, and nothing happens.
   */
  lemma TrustOperationNeedsDevice(s: ClientState, k: DeviceKey, op: TrustOp)
    ensures
      var (s', changed) := ChangeTrust(s, k, op);
      && (changed == None <==> k !in s.devices.vals && op in {Verify, Blacklist, Ignore})
      && (changed != Some(true) ==> s' == s)
  {
  }

  /** A changed trust state throws away exactly the shared sessions of the rooms with the device's user. */
  lemma TrustChangeDropsSessions(s: ClientState, k: DeviceKey, op: TrustOp, room: RoomId)
    requires room in s.outbound && room in s.rooms
    ensures
      var (s', changed) := ChangeTrust(s, k, op);
      && (room !in s'.outbound <==> changed == Some(true) && s.outbound[room].shared && k.0 in s.rooms[room].members)
      && (room in s'.outbound ==> s'.outbound[room] == s.outbound[room])
  {
  }

  /** A member event throws away the room's session exactly when it was shared and a member came or went. */
  lemma MemberChangeDropsSession(s: ClientState, room: RoomId, e: Rooms.MemberEvent)
    requires room in s.outbound && room in s.rooms
    ensures
      var s' := MemberEvent(s, room, e);
      && (room !in s'.outbound <==>
           s.outbound[room].shared && s'.rooms[room].members.Keys != s.rooms[room].members.Keys)
      && s'.outbound - {room} == s.outbound - {room}
  {
    Rooms.MembershipFlagIsKeySetChange(s.rooms[room].members, e);
  }

  /** What the walk's notions mean for a stored device, for a share call with these arguments. */
  lemma PendingMeans(a: Call, s: ClientState, k: DeviceKey)
    requires k in s.devices.vals
    ensures
      var d, g := s.devices.vals[k], SessionOf(a, s);
      var mayGet := k.1 != a.own.1 && d.trust != Blacklisted && k !in g.usersSharedWith && k !in g.usersIgnored;
      var hasSession := d.curve25519 in s.olmSessions;
      && (Pending(ContextOf(a, s), IgnoredOf(a, s), k) <==>
            mayGet && hasSession && (d.trust == Verified || d.trust == Ignored || a.ignoreUnverified))
      && (Blocked(ContextOf(a, s), IgnoredOf(a, s), k) <==>
            mayGet && if hasSession then d.trust == Unset && !a.ignoreUnverified else !a.ignoreMissing)
      && (Dropped(ContextOf(a, s), IgnoredOf(a, s), k) <==>
            k.1 == a.own.1 || d.trust == Blacklisted || (mayGet && !hasSession && a.ignoreMissing))
  {
  }

  /**
   * Whatever a share call of an unshared session comes to, the session stays the room's and keeps
   * everything but its ignored set, which gains exactly the dropped ones among the visited
   * devices; other sessions, rooms and messages stay as they are.
   */
  lemma ShareLeaves(a: Call, s: ClientState, now: int)
    requires a.room in s.rooms && s.rooms[a.room].encrypted && Distinct(s.rooms[a.room].order)
    requires a.room in s.outbound && !s.outbound[a.room].shared
    ensures
      var s' := Share(a.own, s, a.room, a.ignoreMissing, a.ignoreUnverified, now).0;
      && s' == s.(devices := s'.devices, outbound := s'.outbound)
      && a.room in s'.outbound && s'.outbound - {a.room} == s.outbound - {a.room}
      && s'.outbound[a.room] == s.outbound[a.room].(usersIgnored := s'.outbound[a.room].usersIgnored)
      && (forall k :: k in s'.outbound[a.room].usersIgnored <==>
            || k in IgnoredOf(a, s)
            || (k in WalkOf(a, s) && k !in LeftOf(a, s) && Dropped(ContextOf(a, s), IgnoredOf(a, s), k)))
  {
    var policy := if a.ignoreMissing then IgnoreMissing else RaiseMissing;
    var r := ScanOf(a, s);
    WalkVisits(s.devices, s.rooms[a.room].order);
    ScanDrops(ContextOf(a, s), LIMIT, Scan(IgnoredOf(a, s), [], [], None), WalkOf(a, s));
    assert ScanRoom(a.own, s, a.room, policy, a.ignoreUnverified, LIMIT) == r;
    hide ScanAll, ScanRoom, Walk, Unvisited, Dropped, ScanOf;
    assert Share(a.own, s, a.room, a.ignoreMissing, a.ignoreUnverified, now).0 == AfterScan(s, a.room, r);
  }

  /** The other errors of the share calls, after which the state is as before. */
  lemma ShareRefuses(a: Call, s: ClientState, now: int)
    ensures
      var (s', r) := Share(a.own, s, a.room, a.ignoreMissing, a.ignoreUnverified, now);
      && (r == Err(NoSuchRoom) <==> a.room !in s.rooms)
      && (r == Err(NotEncrypted) <==> a.room in s.rooms && !s.rooms[a.room].encrypted)
      && (r == Err(AlreadyShared) <==>
            a.room in s.rooms && s.rooms[a.room].encrypted && a.room in s.outbound && s.outbound[a.room].shared)
      && (r.Err? && !r.error.ShareFailed? ==> s' == s)
    ensures
      var (s', r) := ShareParallel(a.own, s, a.room, a.ignoreUnverified, now);
      && (r == Err(NoSuchRoom) <==> a.room !in s.rooms)
      && (r == Err(NotEncrypted) <==> a.room in s.rooms && !s.rooms[a.room].encrypted)
      && (r.Err? && !r.error.ShareFailed? ==> s' == s)
  {
    hide ScanRoom, AfterScan;
  }

  /** The error of a share call names the first blocked device of the walk, and what is wrong with it. */
  lemma ShareErrorNames(a: Call, s: ClientState, now: int)
    requires a.room in s.rooms && s.rooms[a.room].encrypted && Distinct(s.rooms[a.room].order)
    requires a.room in s.outbound && !s.outbound[a.room].shared
    ensures
      var r := Share(a.own, s, a.room, a.ignoreMissing, a.ignoreUnverified, now).1;
      r.Err? ==> exists i ::
        IsFirstBlocked(ContextOf(a, s), IgnoredOf(a, s), WalkOf(a, s), i)
        && r == Err(ShareFailed(if s.devices.vals[WalkOf(a, s)[i]].curve25519 in s.olmSessions
                                then UnverifiedDevice(WalkOf(a, s)[i]) else MissingSession(WalkOf(a, s)[i])))
  {
    var policy := if a.ignoreMissing then IgnoreMissing else RaiseMissing;
    WalkVisits(s.devices, s.rooms[a.room].order);
    ScanErrorNames(ContextOf(a, s), LIMIT, Scan(IgnoredOf(a, s), [], [], None), WalkOf(a, s));
    assert ScanRoom(a.own, s, a.room, policy, a.ignoreUnverified, LIMIT) == ScanOf(a, s);
    hide ScanAll, ScanRoom, Walk, Blocked;
  }
}
