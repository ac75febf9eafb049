/** Parallel sharing splits the devices that need the key into requests of at most 20. */
module Parallel {
  import opened Wrappers
  import opened Sequences
  import opened Devices
  import opened Sharing
  import opened Distribution
  import Outcomes
  import Rooms

  /** Pieces that cover `s`, are not empty, have at most `n` elements, and share none. */
  ghost predicate Splits<T(!new)>(cs: seq<seq<T>>, s: seq<T>, n: nat) {
    && (forall i :: 0 <= i < |cs| ==> 0 < |cs[i]| <= n)
    && (forall x :: x in s <==> exists i :: 0 <= i < |cs| && x in cs[i])
    && (forall i, j, x :: 0 <= i < j < |cs| && x in cs[i] ==> x !in cs[j])
  }

  lemma SplitsCons<T(!new)>(head: seq<T>, tail: seq<T>, rest: seq<seq<T>>, n: nat)
    requires Splits(rest, tail, n) && 0 < |head| <= n
    requires forall x :: x in head ==> x !in tail
    ensures Splits([head] + rest, head + tail, n)
  {
    var cs := [head] + rest;
    assert forall i :: 0 < i < |cs| ==> cs[i] == rest[i - 1];
    forall x ensures x in head + tail <==> exists i :: 0 <= i < |cs| && x in cs[i] {
      if x in head {
        assert x in cs[0];
      } else if i :| 0 <= i < |rest| && x in rest[i] {
        assert x in cs[i + 1];
      }
    }
  }

  /** The chunks of a sequence without duplicates split it. */
  lemma {:induction false} ChunksSplit<T(!new)>(s: seq<T>, n: nat)
    requires n > 0 && Distinct(s)
    ensures Splits(Chunks(s, n), s, n)
  {
    if s == [] {
    } else if |s| <= n {
      assert Chunks(s, n)[0] == s;
    } else {
      assert s == s[..n] + s[n..];
      DistinctConcat(s[..n], s[n..]);
      DistinctSplit(s, n);
      ChunksSplit(s[n..], n);
      hide Splits, Distinct;
      SplitsCons(s[..n], s[n..], Chunks(s[n..], n), n);
    }
  }

  /** The state whose session the parallel call shares: new if there was none or it was shared already. */
  function SharedAnew(s: ClientState, room: RoomId, now: int): (r: ClientState)
    ensures room in r.outbound && !r.outbound[room].shared
  {
    var s0 := EnsureSession(s, room, now);
    if s0.outbound[room].shared then NewSession(s0, room, now) else s0
  }

  /** Whether a device is to get the key of the room's session. */
  predicate Wanted(own: DeviceKey, s: ClientState, room: RoomId, k: DeviceKey)
    requires room in s.outbound && room in s.rooms
  {
    && k.0 in s.rooms[room].members && IsActive(s.devices, k)
    && k.1 != own.1 && s.devices.vals[k].trust != Blacklisted
    && !s.outbound[room].Covers(k)
    && s.devices.vals[k].curve25519 in s.olmSessions
  }

  predicate TrustSettled(s: ClientState, ignoreUnverified: bool, k: DeviceKey)
    requires k in s.devices.vals
  {
    ignoreUnverified || s.devices.vals[k].trust != Unset
  }

  ghost predicate IsPartition(key: RoomKey, bs: seq<Batch>, wanted: iset<DeviceKey>) {
    && (forall i :: 0 <= i < |bs| ==> 0 < |bs[i].sharingWith| <= 20)
    && (forall i, j :: 0 <= i < j < |bs| ==> bs[i].sharingWith !! bs[j].sharingWith)
    && (forall k :: k in wanted <==> exists i :: 0 <= i < |bs| && k in bs[i].sharingWith)
    && (forall i :: 0 <= i < |bs| ==> bs[i].messages == map k | k in bs[i].sharingWith :: key)
  }

  lemma BatchesPartition(key: RoomKey, ks: seq<DeviceKey>)
    requires Distinct(ks)
    ensures IsPartition(key, ToBatches(key, Chunks(ks, MAX_TO_DEVICE_MESSAGES)), iset k | k in ks)
  {
    ChunksSplit(ks, MAX_TO_DEVICE_MESSAGES);
    SplitBatches(key, Chunks(ks, MAX_TO_DEVICE_MESSAGES), ks);
  }

  lemma SplitBatches(key: RoomKey, cs: seq<seq<DeviceKey>>, ks: seq<DeviceKey>)
    requires Splits(cs, ks, MAX_TO_DEVICE_MESSAGES)
    ensures IsPartition(key, ToBatches(key, cs), iset k | k in ks)
  {
    var bs := ToBatches(key, cs);
    forall i | 0 <= i < |bs|
      ensures 0 < |bs[i].sharingWith| <= 20 && forall k :: k in bs[i].sharingWith <==> k in cs[i]
    {
      assert bs[i] == ToBatch(key, cs[i]);
      ElemsCard(cs[i]);
    }
  }

  lemma {:induction false} ElemsCard<T>(s: seq<T>)
    ensures |Elems(s)| <= |s| && (s != [] ==> |Elems(s)| > 0)
  {
    if s == [] {
    } else {
      ElemsCard(s[1..]);
      assert Elems(s) == {s[0]} + Elems(s[1..]);
    }
  }

  /** The walk of the parallel call, which has no limit. */
  lemma ParallelScan(c: Context, i: set<DeviceKey>, ks: seq<DeviceKey>)
    requires Distinct(ks)
    ensures var r := ScanAll(c, None, Scan(i, [], [], None), ks);
      && (r.error.Some? <==> exists k :: k in ks && Blocked(c, i, k))
      && (r.error.None? ==> r.batch == AllPending(c, i, ks))
  {
    var s := Scan(i, [], [], None);
    ScanFailsIffBlockedReached(c, None, s, ks);
    if k :| k in ks && Blocked(c, i, k) {
      var n :| 0 <= n < |ks| && ks[n] == k;
      assert Reached(c, None, s, ks, n);
    }
    if exists k :: k in ks && Blocked(c, i, k) {
    } else {
      assert forall n :: !Reached(c, None, s, ks, n);
      ScanTakesPending(c, None, s, ks);
      assert AllPending(c, i, []) == [];
      assert [] + AllPending(c, i, ks) == AllPending(c, i, ks);
    }
  }

  lemma {:induction false} AllPendingDistinct(c: Context, i: set<DeviceKey>, ks: seq<DeviceKey>)
    requires Distinct(ks)
    ensures Distinct(AllPending(c, i, ks))
  {
    if ks == [] {
    } else {
      AllPendingDistinct(c, i, ks[1..]);
      DistinctConcat(if Pending(c, i, ks[0]) then [ks[0]] else [], AllPending(c, i, ks[1..]));
      assert AllPending(c, i, ks) == (if Pending(c, i, ks[0]) then [ks[0]] else []) + AllPending(c, i, ks[1..]);
    }
  }

  /**
   * Parallel sharing of a known encrypted room fails exactly when a wanted device is neither
   * verified nor ignored and unverified devices are not to be ignored; otherwise the requests
   * partition the wanted devices, and each message carries the key of the room's session.
   */
  lemma ParallelSharingPartitions(own: DeviceKey, s: ClientState, room: RoomId, ignoreUnverified: bool, now: int)
    requires room in s.rooms && s.rooms[room].encrypted
    requires Rooms.OrderAgrees(s.rooms[room].order, s.rooms[room].members)
    ensures
      var s1 := SharedAnew(s, room, now);
      var r := ShareParallel(own, s, room, ignoreUnverified, now).1;
      && (r.Err? <==> exists k: DeviceKey :: Wanted(own, s1, room, k) && !TrustSettled(s1, ignoreUnverified, k))
      && (r.Ok? ==> IsPartition(RoomKey(room, s1.outbound[room].id), r.value, iset k | Wanted(own, s1, room, k)))
  {
    hide ScanAll, AllPending, ShareParallel, IsPartition, Walk, Pending, Blocked, ToBatches, Chunks, MarkIgnored;
    var s1 := SharedAnew(s, room, now);
    var ks := Walk(s1.devices, s1.rooms[room].order);
    var c := ShareContext(own, s1, s1.outbound[room], SkipMissing, ignoreUnverified);
    var i, key := s1.outbound[room].usersIgnored, RoomKey(room, s1.outbound[room].id);
    var r := ShareParallel(own, s, room, ignoreUnverified, now).1;
    ParallelIsScan(own, s, room, ignoreUnverified, now);
    WalkVisits(s1.devices, s1.rooms[room].order);
    hide *;
    ParallelScan(c, i, ks);
    WantedIsPending(own, s1, room, ignoreUnverified);
    AllPendingDistinct(c, i, ks);
    BatchesPartition(key, AllPending(c, i, ks));
    if r.Ok? {
      assert (iset k | k in AllPending(c, i, ks)) == (iset k | Wanted(own, s1, room, k));
    }
  }

  /** The parallel call is a walk without a limit, cut into chunks. */
  lemma ParallelIsScan(own: DeviceKey, s: ClientState, room: RoomId, ignoreUnverified: bool, now: int)
    requires room in s.rooms && s.rooms[room].encrypted
    ensures
      var s1 := SharedAnew(s, room, now);
      var g := s1.outbound[room];
      var r := ScanAll(ShareContext(own, s1, g, SkipMissing, ignoreUnverified), None,
                       Scan(g.usersIgnored, [], [], None),
                       Walk(s1.devices, s1.rooms[room].order));
      && s1.rooms == s.rooms
      && ShareParallel(own, s, room, ignoreUnverified, now).1 ==
         if r.error.Some? then Err(ShareFailed(r.error.value))
         else Ok(ToBatches(RoomKey(room, g.id), Chunks(r.batch, MAX_TO_DEVICE_MESSAGES)))
  {
  }

  lemma WantedIsPending(own: DeviceKey, s: ClientState, room: RoomId, ignoreUnverified: bool)
    requires room in s.rooms && room in s.outbound
    requires Rooms.OrderAgrees(s.rooms[room].order, s.rooms[room].members)
    ensures
      var ks := Walk(s.devices, s.rooms[room].order);
      var c := ShareContext(own, s, s.outbound[room], SkipMissing, ignoreUnverified);
      var i := s.outbound[room].usersIgnored;
      forall k :: && (k in ks && Pending(c, i, k) <==> Wanted(own, s, room, k) && TrustSettled(s, ignoreUnverified, k))
                  && (k in ks && Blocked(c, i, k) <==> Wanted(own, s, room, k) && !TrustSettled(s, ignoreUnverified, k))
  {
    WalkVisits(s.devices, s.rooms[room].order);
    assert forall u :: u in s.rooms[room].order <==> u in Elems(s.rooms[room].order);
  }

  /** The devices whose trust the call settles: the wanted ones for which it was unset. */
  ghost predicate TrustSettledFor(before: DeviceTable, after: DeviceTable, recipients: iset<DeviceKey>) {
    && after.keys == before.keys && after.vals.Keys == before.vals.Keys
    && (forall k :: k in before.vals ==>
          after.vals[k] == if k in recipients && before.vals[k].trust == Unset then before.vals[k].(trust := Ignored)
                           else before.vals[k])
  }

  /** Devices that never receive the key of a room's sessions: our own device, and blacklisted ones. */
  predicate NeverWanted(own: DeviceKey, s: ClientState, room: RoomId, k: DeviceKey)
    requires room in s.rooms
  {
    k.0 in s.rooms[room].members && IsActive(s.devices, k) && (k.1 == own.1 || s.devices.vals[k].trust == Blacklisted)
  }

  /** A recipient is marked as ignored exactly when its trust was unset. */
  lemma ParallelMarks(own: DeviceKey, s: ClientState, room: RoomId, ignoreUnverified: bool)
    requires room in s.rooms && room in s.outbound
    requires Rooms.OrderAgrees(s.rooms[room].order, s.rooms[room].members)
    ensures
      var r := ScanRoom(own, s, room, SkipMissing, ignoreUnverified, None);
      r.error.None? ==>
        && (forall k :: k in r.batch <==> Wanted(own, s, room, k))
        && (forall k :: k in r.marked <==> Wanted(own, s, room, k) && s.devices.vals[k].trust == Unset)
  {
    var ks := Walk(s.devices, s.rooms[room].order);
    var c := ShareContext(own, s, s.outbound[room], SkipMissing, ignoreUnverified);
    var i := s.outbound[room].usersIgnored;
    var start := Scan(i, [], [], None);
    WalkVisits(s.devices, s.rooms[room].order);
    WantedIsPending(own, s, room, ignoreUnverified);
    Outcomes.ScanMarksUnset(c, None, start, ks);
    ParallelScan(c, i, ks);
    assert ScanRoom(own, s, room, SkipMissing, ignoreUnverified, None) == ScanAll(c, None, start, ks);
    hide ScanAll, ScanRoom, Walk, Pending, Blocked, Wanted, TrustSettled;
  }

  lemma MarkedTrust(before: DeviceTable, marked: seq<DeviceKey>, recipients: iset<DeviceKey>)
    requires forall k :: k in marked <==> k in recipients && k in before.vals && before.vals[k].trust == Unset
    ensures TrustSettledFor(before, MarkIgnored(before, marked), recipients)
  {
    hide MarkIgnored;
  }

  /**
   * What the parallel call leaves behind. When it succeeds, exactly the wanted devices without a
   * trust state become ignored ones; when it fails, no device changes. The room's session is
   * the one of before or a new one, not marked and shared with nobody else; its ignored set
   * gains those of the walk that never receive keys, all of them when the call succeeds and
   * those in front of the first blocked device when it fails.
   */
  lemma ParallelSettles(own: DeviceKey, s: ClientState, room: RoomId, ignoreUnverified: bool, now: int)
    requires room in s.rooms && s.rooms[room].encrypted
    requires Rooms.OrderAgrees(s.rooms[room].order, s.rooms[room].members)
    ensures
      var s1 := SharedAnew(s, room, now);
      var (s', r) := ShareParallel(own, s, room, ignoreUnverified, now);
      && s' == s1.(devices := s'.devices, outbound := s'.outbound)
      && (r.Ok? ==> TrustSettledFor(s.devices, s'.devices, iset k | Wanted(own, s1, room, k)))
      && (r.Err? ==> s'.devices == s.devices)
      && room in s'.outbound && s'.outbound - {room} == s1.outbound - {room}
      && s'.outbound[room] == s1.outbound[room].(usersIgnored := s'.outbound[room].usersIgnored)
      && (forall k :: k in s'.outbound[room].usersIgnored ==>
            k in s1.outbound[room].usersIgnored || NeverWanted(own, s1, room, k))
      && s1.outbound[room].usersIgnored <= s'.outbound[room].usersIgnored
      && (r.Ok? ==> forall k :: NeverWanted(own, s1, room, k) ==> k in s'.outbound[room].usersIgnored)
      && (r.Err? ==> exists i :: FirstUnsettled(own, s1, room, ignoreUnverified, i)
                                 && IgnoredUpTo(own, s1, room, s'.outbound[room].usersIgnored, i))
  {
    hide ShareParallel, ScanRoom, SharedAnew, Wanted, NeverWanted, TrustSettledFor, FirstUnsettled, IgnoredUpTo,
        MarkIgnored;
    var s1 := SharedAnew(s, room, now);
    ParallelState(own, s, room, ignoreUnverified, now);
    var g := s1.outbound[room];
    var r := ScanRoom(own, s1, room, SkipMissing, ignoreUnverified, None);
    var s' := ShareParallel(own, s, room, ignoreUnverified, now).0;
    ParallelMarks(own, s1, room, ignoreUnverified);
    ParallelDrops(own, s1, room, ignoreUnverified);
    if r.error.None? {
      WantedIsStored(own, s1, room);
      MarkedTrust(s1.devices, r.marked, iset k | Wanted(own, s1, room, k));
    } else {
      var i := FailureDrops(own, s1, room, ignoreUnverified);
    }
    assert s'.outbound == s1.outbound[room := g.(usersIgnored := r.ignored)];
  }

  lemma WantedIsStored(own: DeviceKey, s: ClientState, room: RoomId)
    requires room in s.rooms && room in s.outbound
    ensures forall k :: Wanted(own, s, room, k) ==> k in s.devices.vals
  {
  }

  /** The parallel call as a walk over the state with the session to share. */
  lemma ParallelState(own: DeviceKey, s: ClientState, room: RoomId, ignoreUnverified: bool, now: int)
    requires room in s.rooms && s.rooms[room].encrypted
    ensures
      var s1 := SharedAnew(s, room, now);
      var (s', r) := ShareParallel(own, s, room, ignoreUnverified, now);
      && s1.devices == s.devices && s1.rooms == s.rooms
      && s' == AfterScan(s1, room, ScanRoom(own, s1, room, SkipMissing, ignoreUnverified, None))
      && (r.Err? <==> ScanRoom(own, s1, room, SkipMissing, ignoreUnverified, None).error.Some?)
  {
    hide ScanRoom, AfterScan, Chunks;
  }

  /** The first wanted device of the walk without a settled trust. */
  ghost predicate FirstUnsettled(own: DeviceKey, s: ClientState, room: RoomId, ignoreUnverified: bool, i: nat)
    requires room in s.rooms && room in s.outbound
  {
    var ks := Walk(s.devices, s.rooms[room].order);
    var unsettled := (k: DeviceKey) =>
        k in s.devices.vals && Wanted(own, s, room, k) && !TrustSettled(s, ignoreUnverified, k);
    i < |ks| && unsettled(ks[i]) && forall j :: 0 <= j < i ==> !unsettled(ks[j])
  }

  /** The ignored set gained exactly those that never receive keys among the first `i` devices of the walk. */
  ghost predicate IgnoredUpTo(own: DeviceKey, s: ClientState, room: RoomId, ignored: set<DeviceKey>, i: nat)
    requires room in s.rooms && room in s.outbound
  {
    var ks := Walk(s.devices, s.rooms[room].order);
    i <= |ks| && forall k ::
      k in ignored <==> k in s.outbound[room].usersIgnored || (k in ks[..i] && NeverWanted(own, s, room, k))
  }

  lemma {:induction false} FirstOf(p: DeviceKey -> bool, ks: seq<DeviceKey>) returns (i: nat)
    requires exists k :: k in ks && p(k)
    ensures i < |ks| && p(ks[i]) && forall j :: 0 <= j < i ==> !p(ks[j])
  {
    if p(ks[0]) {
      i := 0;
    } else {
      assert ks == [ks[0]] + ks[1..];
      i := FirstOf(p, ks[1..]);
      i := i + 1;
    }
  }

  lemma FailureDrops(own: DeviceKey, s: ClientState, room: RoomId, ignoreUnverified: bool) returns (i: nat)
    requires room in s.rooms && room in s.outbound
    requires Rooms.OrderAgrees(s.rooms[room].order, s.rooms[room].members)
    requires ScanRoom(own, s, room, SkipMissing, ignoreUnverified, None).error.Some?
    ensures FirstUnsettled(own, s, room, ignoreUnverified, i)
    ensures IgnoredUpTo(own, s, room, ScanRoom(own, s, room, SkipMissing, ignoreUnverified, None).ignored, i)
  {
    var ks := Walk(s.devices, s.rooms[room].order);
    var c := ShareContext(own, s, s.outbound[room], SkipMissing, ignoreUnverified);
    var ignored := s.outbound[room].usersIgnored;
    var start := Scan(ignored, [], [], None);
    hide ScanAll, Unvisited, Dropped, NeverWanted, Walk, Blocked, Pending, Wanted, TrustSettled;
    WalkVisits(s.devices, s.rooms[room].order);
    WantedIsPending(own, s, room, ignoreUnverified);
    ParallelScan(c, ignored, ks);
    DroppedIsNeverWanted(own, s, room, ignoreUnverified);
    i := FirstOf(k => Blocked(c, ignored, k), ks);
    ScanStopsAtFirstBlocked(c, start, ks, i);
    ScanDrops(c, None, start, ks);
    assert forall j :: 0 <= j < i ==> ks[j] in ks;
    SplitAround(ks, i);
  }

  lemma DroppedIsNeverWanted(own: DeviceKey, s: ClientState, room: RoomId, ignoreUnverified: bool)
    requires room in s.rooms && room in s.outbound
    requires Rooms.OrderAgrees(s.rooms[room].order, s.rooms[room].members)
    ensures
      var ks := Walk(s.devices, s.rooms[room].order);
      var c := ShareContext(own, s, s.outbound[room], SkipMissing, ignoreUnverified);
      var ignored := s.outbound[room].usersIgnored;
      && (forall k :: k in ks && Dropped(c, ignored, k) <==> NeverWanted(own, s, room, k))
      && (forall k :: k in ks && Blocked(c, ignored, k) ==> !NeverWanted(own, s, room, k))
  {
    WalkVisits(s.devices, s.rooms[room].order);
    assert forall u :: u in s.rooms[room].order <==> u in Elems(s.rooms[room].order);
    hide Walk;
  }

  lemma SplitAround(ks: seq<DeviceKey>, i: nat)
    requires Distinct(ks) && i < |ks|
    ensures forall k :: k in ks && k !in ks[i + 1..] <==> k in ks[..i] || k == ks[i]
  {
    DistinctIndices(ks);
    assert ks == ks[..i] + [ks[i]] + ks[i + 1..];
  }

  lemma ParallelDrops(own: DeviceKey, s: ClientState, room: RoomId, ignoreUnverified: bool)
    requires room in s.rooms && room in s.outbound
    requires Rooms.OrderAgrees(s.rooms[room].order, s.rooms[room].members)
    ensures
      var r := ScanRoom(own, s, room, SkipMissing, ignoreUnverified, None);
      && s.outbound[room].usersIgnored <= r.ignored
      && (forall k :: k in r.ignored ==> k in s.outbound[room].usersIgnored || NeverWanted(own, s, room, k))
      && (r.error.None? ==> forall k :: NeverWanted(own, s, room, k) ==> k in r.ignored)
  {
    var ks := Walk(s.devices, s.rooms[room].order);
    var c := ShareContext(own, s, s.outbound[room], SkipMissing, ignoreUnverified);
    var i := s.outbound[room].usersIgnored;
    var start := Scan(i, [], [], None);
    hide ScanAll, Unvisited, Dropped, NeverWanted, Walk, Blocked;
    WalkVisits(s.devices, s.rooms[room].order);
    DroppedIsNeverWanted(own, s, room, ignoreUnverified);
    ScanDrops(c, None, start, ks);
    ParallelScan(c, i, ks);
    assert ScanRoom(own, s, room, SkipMissing, ignoreUnverified, None) == ScanAll(c, None, start, ks);
    if ScanAll(c, None, start, ks).error.None? {
      ScanTakesPending(c, None, start, ks);
    }
  }
}
