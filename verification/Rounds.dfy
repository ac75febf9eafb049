/**
 * Progress of room key distribution: how many share requests it takes until the session
 * of a room is marked as shared.
 */
module Rounds {
  import opened Wrappers
  import opened Sequences
  import opened Devices
  import opened Sharing
  import opened Distribution

  /** The arguments of the share calls, which stay the same. */
  datatype Call = Call(own: DeviceKey, room: RoomId, ignoreMissing: bool, ignoreUnverified: bool)

  /** The session being shared, and the walk over the room's devices; nothing for an unknown room. */
  function SessionOf(a: Call, s: ClientState): GroupSession {
    if a.room in s.outbound then s.outbound[a.room] else GroupSession(0, false, {}, {}, 0, 0)
  }

  function WalkOf(a: Call, s: ClientState): seq<DeviceKey> {
    if a.room in s.rooms then Walk(s.devices, s.rooms[a.room].order) else []
  }

  function ContextOf(a: Call, s: ClientState): Context {
    ShareContext(a.own, s, SessionOf(a, s), if a.ignoreMissing then IgnoreMissing else RaiseMissing, a.ignoreUnverified)
  }

  function IgnoredOf(a: Call, s: ClientState): set<DeviceKey> {
    SessionOf(a, s).usersIgnored
  }

  /** An encrypted room with a session still to be shared, and no device that makes the call fail. */
  ghost predicate Ready(a: Call, s: ClientState) {
    && a.room in s.rooms && s.rooms[a.room].encrypted
    && Distinct(s.rooms[a.room].order)
    && a.room in s.outbound && !s.outbound[a.room].shared
    && (forall k :: k in WalkOf(a, s) ==> !Blocked(ContextOf(a, s), IgnoredOf(a, s), k))
  }

  /** The devices still to receive the key, in the order of the walk. */
  function StillPending(a: Call, s: ClientState): seq<DeviceKey> {
    AllPending(ContextOf(a, s), IgnoredOf(a, s), WalkOf(a, s))
  }

  /** Some device after the last pending one is neither shared with nor ignored yet. */
  ghost predicate Straggler(c: Context, ignored: set<DeviceKey>, ks: seq<DeviceKey>) {
    exists i :: 0 <= i < |ks| && Uncovered(c, ignored, ks[i]) && NonePendingFrom(c, ignored, ks, i)
  }

  ghost predicate NonePendingFrom(c: Context, ignored: set<DeviceKey>, ks: seq<DeviceKey>, i: nat) {
    forall j :: i <= j < |ks| ==> !Pending(c, ignored, ks[j])
  }

  ghost predicate HasStraggler(a: Call, s: ClientState) {
    Straggler(ContextOf(a, s), IgnoredOf(a, s), WalkOf(a, s))
  }

  /** One share call followed by its response. */
  function Round(a: Call, s: ClientState, now: int): ClientState {
    var (s1, r) := Share(a.own, s, a.room, a.ignoreMissing, a.ignoreUnverified, now);
    if r.Ok? then Respond(s1, a.room, r.value.sharingWith) else s1
  }

  function Iterate(a: Call, s: ClientState, times: seq<int>): ClientState
    decreases |times|
  {
    if times == [] then s else Iterate(a, Round(a, s, times[0]), times[1..])
  }

  predicate IsShared(a: Call, s: ClientState) {
    a.room in s.outbound && s.outbound[a.room].shared
  }

  /** The exact number of rounds: one more than the full batches, unless they cover everything. */
  ghost function RoundsNeeded(a: Call, s: ClientState): nat {
    var n := |StillPending(a, s)|;
    if n > 0 && n % 20 == 0 && !HasStraggler(a, s) then n / 20
    else n / 20 + 1
  }

  /** If the walk fills its batch, the last device it visits is a pending one. */
  lemma {:induction false} FullBatchEndsPending(c: Context, limit: nat, s: Scan, ks: seq<DeviceKey>)
    requires Distinct(ks) && s.error.None? && |s.batch| < limit
    requires forall k :: k in ks ==> !Blocked(c, s.ignored, k)
    requires |ScanAll(c, Some(limit), s, ks).batch| >= limit
    decreases |ks|
    ensures EndsPending(c, s.ignored, ks, |Unvisited(c, Some(limit), s, ks)|)
  {
    var k, rest := ks[0], ks[1..];
    var s' := ScanStep(c, s, k);
    assert ks == [k] + rest;
    StepTakesPending(c, s, ks);
    StepKeepsOthers(c, s, k, rest);
    assert Unvisited(c, Some(limit), s, ks) == Unvisited(c, Some(limit), s', rest);
    hide ScanStep, Blocked, AllPending, Pending;
    if |s'.batch| >= limit {
    } else {
      FullBatchEndsPending(c, limit, s', rest);
      EndsPendingLater(c, s.ignored, s'.ignored, ks, |Unvisited(c, Some(limit), s', rest)|);
    }
  }

  /** The last device in front of the `left` last ones is pending. */
  ghost predicate EndsPending(c: Context, ignored: set<DeviceKey>, ks: seq<DeviceKey>, left: nat) {
    left < |ks| && Pending(c, ignored, ks[|ks| - left - 1])
  }

  lemma EndsPendingLater(c: Context, i: set<DeviceKey>, i': set<DeviceKey>, ks: seq<DeviceKey>, left: nat)
    requires ks != [] && AllPending(c, i', ks[1..]) == AllPending(c, i, ks[1..]) && EndsPending(c, i', ks[1..], left)
    ensures EndsPending(c, i, ks, left)
  {
    var k := ks[1..][|ks[1..]| - left - 1];
    assert k in ks[1..] && k == ks[|ks| - left - 1];
    PendingSame(c, i, i', ks[1..], k);
  }

  lemma PendingSame(c: Context, i: set<DeviceKey>, i': set<DeviceKey>, ks: seq<DeviceKey>, k: DeviceKey)
    requires AllPending(c, i, ks) == AllPending(c, i', ks) && k in ks
    ensures Pending(c, i, k) <==> Pending(c, i', k)
  {
    assert k in AllPending(c, i, ks) <==> k in AllPending(c, i', ks);
  }

  /** Only devices in the batch are marked as ignored. */
  lemma {:induction false} MarkedInBatch(c: Context, limit: Option<nat>, s: Scan, ks: seq<DeviceKey>)
    requires forall k :: k in s.marked ==> k in s.batch
    decreases |ks|
    ensures var r := ScanAll(c, limit, s, ks); forall k :: k in r.marked ==> k in r.batch
  {
    if ks == [] || Stopped(limit, s) {
      assert ScanAll(c, limit, s, ks) == s;
    } else {
      var s' := ScanStep(c, s, ks[0]);
      StepGrows(c, s, ks[0]);
      assert forall k :: k in s'.marked ==> k in s'.batch;
      hide ScanStep;
      MarkedInBatch(c, limit, s', ks[1..]);
      assert ScanAll(c, limit, s, ks) == ScanAll(c, limit, s', ks[1..]);
    }
  }

  /** What one scan and its acknowledgement leave of the walk: the visited part is covered, the rest is as before. */
  ghost predicate Advanced(c: Context, i: set<DeviceKey>, c': Context, i': set<DeviceKey>, ks: seq<DeviceKey>, v: int) {
    && 0 <= v <= |ks|
    && (forall k :: k in ks[..v] ==> !Uncovered(c', i', k))
    && (forall k :: k in ks[v..] ==>
          && (Uncovered(c', i', k) <==> Uncovered(c, i, k))
          && (Pending(c', i', k) <==> Pending(c, i, k))
          && (Blocked(c', i', k) <==> Blocked(c, i, k)))
  }

  /** The context after the batch of a scan is acknowledged and its marked devices are ignored. */
  ghost predicate Acknowledged(c: Context, c': Context, r: Scan) {
    && c'.(devices := c.devices, shared := c.shared) == c
    && c'.shared == c.shared + Elems(r.batch) && c'.devices.Keys == c.devices.Keys
    && (forall k :: k in c.devices && k !in r.marked ==> c'.devices[k] == c.devices[k])
  }

  /** A scan that visited the first `v` devices: those are covered, and the others are left alone. */
  ghost predicate Visited(c: Context, i: set<DeviceKey>, r: Scan, ks: seq<DeviceKey>, v: int) {
    && 0 <= v <= |ks| && i <= r.ignored
    && (forall k :: k in r.marked ==> k in r.batch)
    && (forall k :: k in ks[..v] ==> k in c.shared || k in r.ignored || k in r.batch)
    && (forall k :: k in ks[v..] ==> k !in r.batch && (k in r.ignored ==> k in i))
  }

  lemma AdvancedAfter(c: Context, i: set<DeviceKey>, c': Context, r: Scan, ks: seq<DeviceKey>, v: int)
    requires Visited(c, i, r, ks, v) && Acknowledged(c, c', r)
    ensures Advanced(c, i, c', r.ignored, ks, v)
  {
    forall k | k in ks[v..]
      ensures Uncovered(c', r.ignored, k) <==> Uncovered(c, i, k)
      ensures Pending(c', r.ignored, k) <==> Pending(c, i, k)
      ensures Blocked(c', r.ignored, k) <==> Blocked(c, i, k)
    {
      assert k !in r.marked;
    }
  }

  const LIMIT: Option<nat> := Some(MAX_TO_DEVICE_MESSAGES)

  lemma VisitedFromParts(c: Context, i: set<DeviceKey>, r: Scan, ks: seq<DeviceKey>, left: seq<DeviceKey>)
    requires Distinct(ks) && |left| <= |ks| && left == ks[|ks| - |left|..]
    requires i <= r.ignored && forall k :: k in r.marked ==> k in r.batch
    requires forall k :: k in ks && k !in left ==> k in c.shared || k in r.ignored || k in r.batch
    requires forall k :: k in r.ignored ==> k in i || (k in ks && k !in left)
    requires forall k :: k in r.batch ==> k in ks && k !in left
    ensures Visited(c, i, r, ks, |ks| - |left|)
  {
    DistinctSplit(ks, |ks| - |left|);
    hide Distinct;
    var v := |ks| - |left|;
    forall k | k in ks[..v] ensures k in c.shared || k in r.ignored || k in r.batch {
      assert k in ks && k !in left;
    }
  }

  lemma ScanVisits(c: Context, i: set<DeviceKey>, ks: seq<DeviceKey>)
    requires Distinct(ks) && c.policy != SkipMissing
    requires forall k :: k in ks ==> k in c.devices && !Blocked(c, i, k)
    ensures
      var s0 := Scan(i, [], [], None);
      var v := |ks| - |Unvisited(c, LIMIT, s0, ks)|;
      && Visited(c, i, ScanAll(c, LIMIT, s0, ks), ks, v)
      && ks[v..] == Unvisited(c, LIMIT, s0, ks)
  {
    var s0 := Scan(i, [], [], None);
    UnvisitedIsSuffix(c, LIMIT, s0, ks);
    ScanGrows(c, LIMIT, s0, ks);
    ScanCoversVisited(c, LIMIT, s0, ks);
    MarkedInBatch(c, LIMIT, s0, ks);
    hide *;
    VisitedFromParts(c, i, ScanAll(c, LIMIT, s0, ks), ks, Unvisited(c, LIMIT, s0, ks));
  }

  lemma ScanCounts(c: Context, i: set<DeviceKey>, ks: seq<DeviceKey>)
    requires Distinct(ks)
    requires forall k :: k in ks ==> !Blocked(c, i, k)
    ensures
      var s0 := Scan(i, [], [], None);
      var r, left := ScanAll(c, LIMIT, s0, ks), Unvisited(c, LIMIT, s0, ks);
      && r.error.None? && |r.batch| <= MAX_TO_DEVICE_MESSAGES
      && (left != [] ==> |r.batch| == MAX_TO_DEVICE_MESSAGES)
      && AllPending(c, i, ks) == r.batch + AllPending(c, i, left)
      && (|r.batch| == MAX_TO_DEVICE_MESSAGES ==> EndsPending(c, i, ks, |left|))
  {
    var s0 := Scan(i, [], [], None);
    ScanTakesPending(c, LIMIT, s0, ks);
    if |ScanAll(c, LIMIT, s0, ks).batch| == MAX_TO_DEVICE_MESSAGES {
      FullBatchEndsPending(c, MAX_TO_DEVICE_MESSAGES, s0, ks);
    }
  }

  /** Marking devices as ignored leaves every user's active devices, and so the walk, as they were. */
  lemma {:induction false} WalkUnmarked(t: DeviceTable, t': DeviceTable, users: seq<UserId>)
    requires t'.keys == t.keys && t'.vals.Keys == t.vals.Keys
    requires forall k :: k in t.vals ==> t'.vals[k].deleted == t.vals[k].deleted
    ensures Walk(t', users) == Walk(t, users)
  {
    if users == [] {
    } else {
      WalkUnmarked(t, t', users[1..]);
      FilterSame((k: DeviceKey) => k.0 == users[0] && IsActive(t', k),
                 (k: DeviceKey) => k.0 == users[0] && IsActive(t, k), t.keys);
    }
  }

  lemma WalkKnown(a: Call, s: ClientState)
    requires Ready(a, s)
    ensures Distinct(WalkOf(a, s)) && forall k :: k in WalkOf(a, s) ==> k in s.devices.vals
  {
    WalkVisits(s.devices, s.rooms[a.room].order);
  }

  /** The scan of a share call in a ready state. */
  ghost function ScanOf(a: Call, s: ClientState): Scan
  {
    ScanAll(ContextOf(a, s), LIMIT, Scan(IgnoredOf(a, s), [], [], None), WalkOf(a, s))
  }

  ghost function LeftOf(a: Call, s: ClientState): seq<DeviceKey>
  {
    Unvisited(ContextOf(a, s), LIMIT, Scan(IgnoredOf(a, s), [], [], None), WalkOf(a, s))
  }

  lemma ScanOfFacts(a: Call, s: ClientState)
    requires Ready(a, s)
    ensures
      var r, left, c, i, ks := ScanOf(a, s), LeftOf(a, s), ContextOf(a, s), IgnoredOf(a, s), WalkOf(a, s);
      var v := |ks| - |left|;
      && r.error.None? && |r.batch| <= MAX_TO_DEVICE_MESSAGES
      && (left != [] ==> |r.batch| == MAX_TO_DEVICE_MESSAGES)
      && StillPending(a, s) == r.batch + AllPending(c, i, left)
      && 0 <= v <= |ks| && ks[v..] == left && Visited(c, i, r, ks, v)
      && (|r.batch| == MAX_TO_DEVICE_MESSAGES ==> v > 0 && Pending(c, i, ks[v - 1]))
  {
    hide Blocked, Pending, Uncovered, ScanAll, Unvisited, AllPending, Walk;
    WalkKnown(a, s);
    ScanVisits(ContextOf(a, s), IgnoredOf(a, s), WalkOf(a, s));
    ScanCounts(ContextOf(a, s), IgnoredOf(a, s), WalkOf(a, s));
  }

  /** A round in a ready state is a scan and the acknowledgement of its batch. */
  lemma RoundIsScan(a: Call, s: ClientState, now: int)
    requires Ready(a, s)
    ensures Round(a, s, now) == Respond(AfterScan(s, a.room, ScanOf(a, s)), a.room, Elems(ScanOf(a, s).batch))
  {
    var r := ScanOf(a, s);
    var policy := if a.ignoreMissing then IgnoreMissing else RaiseMissing;
    ScanOfFacts(a, s);
    assert ScanRoom(a.own, s, a.room, policy, a.ignoreUnverified, LIMIT) == r;
    hide ScanAll, ScanRoom, AfterScan, Respond, Ready, ScanOf;
    assert Share(a.own, s, a.room, a.ignoreMissing, a.ignoreUnverified, now)
        == (AfterScan(s, a.room, r), Ok(ToBatch(RoomKey(a.room, s.outbound[a.room].id), r.batch)));
  }

  /** The fields a round changes. */
  lemma RoundFrame(a: Call, s: ClientState, now: int)
    requires Ready(a, s)
    ensures
      var s', r, g := Round(a, s, now), ScanOf(a, s), SessionOf(a, s);
      && s'.rooms == s.rooms && s'.olmSessions == s.olmSessions && a.room in s'.outbound
      && s'.devices.keys == s.devices.keys && s'.devices.vals.Keys == s.devices.vals.Keys
      && (forall k :: k in s.devices.vals ==> s'.devices.vals[k].deleted == s.devices.vals[k].deleted)
      && Acknowledged(ContextOf(a, s), ContextOf(a, s'), r)
      && IgnoredOf(a, s') == r.ignored
      && WalkOf(a, s') == WalkOf(a, s)
      && s'.outbound[a.room].shared
           == AllCovered(s'.devices, s.rooms[a.room].order, s'.outbound[a.room].(shared := false))
  {
    var r := ScanOf(a, s);
    ScanOfFacts(a, s);
    RoundIsScan(a, s, now);
    hide Round, ScanOf, Ready, AllCovered, Walk;
    var s1 := AfterScan(s, a.room, r);
    var s' := Round(a, s, now);
    WalkUnmarked(s.devices, s'.devices, s.rooms[a.room].order) by {
      assert s'.devices == s1.devices;
    }
  }

  /** The state after a round: the batch is acknowledged and the rest of the walk is untouched. */
  lemma RoundAdvances(a: Call, s: ClientState, now: int)
    requires Ready(a, s)
    ensures
      Advanced(ContextOf(a, s), IgnoredOf(a, s), ContextOf(a, Round(a, s, now)), ScanOf(a, s).ignored, WalkOf(a, s),
               |WalkOf(a, s)| - |LeftOf(a, s)|)
  {
    var i, c, ks, r := IgnoredOf(a, s), ContextOf(a, s), WalkOf(a, s), ScanOf(a, s);
    hide *;
    ScanOfFacts(a, s);
    RoundFrame(a, s, now);
    AdvancedAfter(c, i, ContextOf(a, Round(a, s, now)), r, ks, |ks| - |LeftOf(a, s)|);
  }

  /** The session is marked as shared exactly when no device of the walk is left uncovered. */
  lemma RoundShares(a: Call, s: ClientState, now: int)
    requires Ready(a, s)
    ensures IsShared(a, Round(a, s, now))
      <==> forall k :: k in WalkOf(a, s) ==> !Uncovered(ContextOf(a, Round(a, s, now)), ScanOf(a, s).ignored, k)
  {
    RoundFrame(a, s, now);
    hide Round, Ready, Walk, ScanOf, Distinct;
  }

  lemma {:induction false} NonePending(c: Context, i: set<DeviceKey>, ks: seq<DeviceKey>)
    requires forall k :: k in ks ==> !Pending(c, i, k)
    ensures AllPending(c, i, ks) == []
  {
    if ks == [] {
    } else {
      NonePending(c, i, ks[1..]);
    }
  }

  lemma PendingAfterAdvance(c: Context, i: set<DeviceKey>, c': Context, i': set<DeviceKey>, ks: seq<DeviceKey>, v: int)
    requires Advanced(c, i, c', i', ks, v)
    ensures AllPending(c', i', ks) == AllPending(c, i, ks[v..])
  {
    assert ks == ks[..v] + ks[v..];
    AllPendingConcat(c', i', ks[..v], ks[v..]);
    AllPendingSame(c, c', i, i', ks[v..]);
    NonePending(c', i', ks[..v]);
  }

  /** A device that is left over is a straggler unless a pending one follows it; so is the other way round. */
  lemma StragglerIsLeft(c: Context, i: set<DeviceKey>, ks: seq<DeviceKey>, v: int)
    requires 0 < v <= |ks| && Pending(c, i, ks[v - 1])
    ensures AllPending(c, i, ks[v..]) == [] ==>
              (Straggler(c, i, ks) <==> exists k :: k in ks[v..] && Uncovered(c, i, k))
  {
    if AllPending(c, i, ks[v..]) == [] {
      if k :| k in ks[v..] && Uncovered(c, i, k) {
        var j :| v <= j < |ks| && ks[j] == k;
        forall m | j <= m < |ks| ensures !Pending(c, i, ks[m]) {
          assert ks[m] in ks[v..];
          assert ks[m] !in AllPending(c, i, ks[v..]);
        }
        assert NonePendingFrom(c, i, ks, j);
      }
      if Straggler(c, i, ks) {
        var j :| 0 <= j < |ks| && Uncovered(c, i, ks[j]) && NonePendingFrom(c, i, ks, j);
        assert j >= v;
        assert ks[j] in ks[v..];
      }
    }
  }

  /** A straggler behind a pending device that is not visited stays one, before as well as after. */
  lemma StragglerTransfers(c: Context, i: set<DeviceKey>, c': Context, i': set<DeviceKey>, ks: seq<DeviceKey>, v: int,
                           m: int)
    requires v <= m < |ks| && 0 <= v && Pending(c, i, ks[m])
    requires forall k :: k in ks[v..] ==>
        (Uncovered(c', i', k) <==> Uncovered(c, i, k)) && (Pending(c', i', k) <==> Pending(c, i, k))
    ensures Straggler(c, i, ks) ==> Straggler(c', i', ks)
  {
    if Straggler(c, i, ks) {
      var j :| 0 <= j < |ks| && Uncovered(c, i, ks[j]) && NonePendingFrom(c, i, ks, j);
      assert j > m && ks[j] in ks[v..];
      hide Pending, Uncovered;
      forall n | j <= n < |ks| ensures !Pending(c', i', ks[n]) {
        assert ks[n] in ks[v..];
      }
      assert NonePendingFrom(c', i', ks, j);
    }
  }

  /** While something is pending behind the visited part, visiting it does not change who the stragglers are. */
  lemma StragglerKept(c: Context, i: set<DeviceKey>, c': Context, i': set<DeviceKey>, ks: seq<DeviceKey>, v: int)
    requires Advanced(c, i, c', i', ks, v) && AllPending(c, i, ks[v..]) != []
    ensures Straggler(c', i', ks) <==> Straggler(c, i, ks)
  {
    var p := AllPending(c, i, ks[v..])[0];
    assert p in AllPending(c, i, ks[v..]);
    hide Straggler, Pending, Uncovered, Blocked, AllPending;
    var m :| v <= m < |ks| && ks[m] == p;
    assert Pending(c', i', p);
    StragglerTransfers(c, i, c', i', ks, v, m);
    StragglerTransfers(c', i', c, i, ks, v, m);
  }

  /** The outcome of a round on the walk, given how far it advanced. */
  lemma AdvanceOutcome(c: Context, i: set<DeviceKey>, c': Context, i': set<DeviceKey>, ks: seq<DeviceKey>, v: int,
                       batch: seq<DeviceKey>)
    requires Advanced(c, i, c', i', ks, v) && |batch| <= MAX_TO_DEVICE_MESSAGES
    requires AllPending(c, i, ks) == batch + AllPending(c, i, ks[v..])
    requires v < |ks| ==> |batch| == MAX_TO_DEVICE_MESSAGES
    requires |batch| == MAX_TO_DEVICE_MESSAGES ==> v > 0 && Pending(c, i, ks[v - 1])
    ensures
      var n, done := |AllPending(c, i, ks)|, forall k :: k in ks ==> !Uncovered(c', i', k);
      && (done <==> n < 20 || (n == 20 && !Straggler(c, i, ks)))
      && (!done ==> |AllPending(c', i', ks)| == n - 20)
      && (n > 20 ==> (Straggler(c', i', ks) <==> Straggler(c, i, ks)))
  {
    var rest := AllPending(c, i, ks[v..]);
    PendingAfterAdvance(c, i, c', i', ks, v);
    if rest != [] {
      StragglerKept(c, i, c', i', ks, v);
      assert rest[0] in rest;
      assert rest[0] in ks && Uncovered(c', i', rest[0]);
    } else if |batch| == MAX_TO_DEVICE_MESSAGES {
      StragglerIsLeft(c, i, ks, v);
      hide Straggler, Pending;
      LeftoversDecide(c, i, c', i', ks, v);
    } else {
      assert ks[..v] == ks;
    }
  }

  lemma LeftoversDecide(c: Context, i: set<DeviceKey>, c': Context, i': set<DeviceKey>, ks: seq<DeviceKey>, v: int)
    requires Advanced(c, i, c', i', ks, v)
    ensures (forall k :: k in ks ==> !Uncovered(c', i', k)) <==> !exists k :: k in ks[v..] && Uncovered(c, i, k)
  {
    assert ks == ks[..v] + ks[v..];
  }

  lemma BlockedAfterAdvance(c: Context, i: set<DeviceKey>, c': Context, i': set<DeviceKey>, ks: seq<DeviceKey>, v: int)
    requires Advanced(c, i, c', i', ks, v)
    requires forall k :: k in ks ==> !Blocked(c, i, k)
    ensures forall k :: k in ks ==> !Blocked(c', i', k)
  {
    assert ks == ks[..v] + ks[v..];
  }

  /**
   * One round: fewer than 20 pending devices finish the job, exactly 20 do when there is no
   * straggler, and otherwise the round takes 20 of them and the next one starts in the same way.
   */
  lemma OneRound(a: Call, s: ClientState, now: int)
    requires Ready(a, s)
    ensures
      var s', n := Round(a, s, now), |StillPending(a, s)|;
      && s'.rooms == s.rooms && a.room in s'.outbound
      && (IsShared(a, s') <==> n < 20 || (n == 20 && !HasStraggler(a, s)))
      && (!IsShared(a, s') ==> Ready(a, s') && |StillPending(a, s')| == n - 20)
      && (n > 20 ==> (HasStraggler(a, s') <==> HasStraggler(a, s)))
  {
    var s', r, i := Round(a, s, now), ScanOf(a, s), IgnoredOf(a, s);
    var c, c', ks := ContextOf(a, s), ContextOf(a, s'), WalkOf(a, s);
    var v := |ks| - |LeftOf(a, s)|;
    hide Round, ScanOf, LeftOf, Pending, Uncovered, Walk, AllPending, Blocked, Straggler, Advanced, AllCovered,
        Distinct;
    ScanOfFacts(a, s);
    RoundFrame(a, s, now);
    RoundAdvances(a, s, now);
    RoundShares(a, s, now);
    AdvanceOutcome(c, i, c', r.ignored, ks, v, r.batch);
    BlockedAfterAdvance(c, i, c', r.ignored, ks, v);
  }

  lemma RoundsNeededAfterRound(a: Call, s: ClientState, now: int)
    requires Ready(a, s)
    ensures IsShared(a, Round(a, s, now)) <==> RoundsNeeded(a, s) == 1
    ensures !IsShared(a, Round(a, s, now)) ==>
              Ready(a, Round(a, s, now)) && RoundsNeeded(a, Round(a, s, now)) == RoundsNeeded(a, s) - 1
  {
    OneRound(a, s, now);
    hide Round, Ready, StillPending, HasStraggler, IsShared;
  }

  /** A call for a session that is shared fails and changes nothing. */
  lemma {:induction false} SharedStays(a: Call, s: ClientState, times: seq<int>)
    requires a.room in s.rooms && s.rooms[a.room].encrypted && IsShared(a, s)
    decreases |times|
    ensures Iterate(a, s, times) == s
  {
    if times == [] {
    } else {
      assert Round(a, s, times[0]) == s;
      SharedStays(a, s, times[1..]);
    }
  }

  /**
   * The round bound is exact: with members, devices and trust fixed and no blocked device,
   * the session is shared after some rounds exactly when those are at least RoundsNeeded
   * many, and that is at most one more than a twentieth of the pending devices.
   */
  lemma {:induction false} SharedAfterRounds(a: Call, s: ClientState, times: seq<int>)
    requires Ready(a, s)
    decreases |times|
    ensures IsShared(a, Iterate(a, s, times)) <==> |times| >= RoundsNeeded(a, s)
    ensures 1 <= RoundsNeeded(a, s) <= |StillPending(a, s)| / 20 + 1
  {
    if times == [] {
    } else {
      var s' := Round(a, s, times[0]);
      RoundsNeededAfterRound(a, s, times[0]);
      OneRound(a, s, times[0]);
      hide Ready, Round, RoundsNeeded;
      if IsShared(a, s') {
        SharedStays(a, s', times[1..]);
      } else {
        SharedAfterRounds(a, s', times[1..]);
      }
    }
  }

  /** A call without a session creates one first. */
  lemma FirstRoundCreates(a: Call, s: ClientState, now: int)
    ensures a.room in s.rooms && s.rooms[a.room].encrypted ==>
              Round(a, s, now) == Round(a, EnsureSession(s, a.room, now), now)
  {
  }

  /** A blocked device is never put into the batch or the ignored set. */
  lemma {:induction false} BlockedStays(c: Context, limit: Option<nat>, s: Scan, ks: seq<DeviceKey>, k: DeviceKey)
    requires Blocked(c, s.ignored, k) && k !in s.batch
    decreases |ks|
    ensures Blocked(c, ScanAll(c, limit, s, ks).ignored, k) && k !in ScanAll(c, limit, s, ks).batch
  {
    if ks == [] || Stopped(limit, s) {
    } else {
      BlockedStays(c, limit, ScanStep(c, s, ks[0]), ks[1..], k);
    }
  }

  /** A room of a session that is not shared yet, with a device that makes the call fail once the walk gets to it. */
  ghost predicate Stuck(a: Call, s: ClientState, k: DeviceKey) {
    && a.room in s.rooms && s.rooms[a.room].encrypted
    && a.room in s.outbound && !s.outbound[a.room].shared
    && k in WalkOf(a, s) && Blocked(ContextOf(a, s), IgnoredOf(a, s), k)
  }

  lemma StuckAfterRespond(a: Call, s: ClientState, recipients: set<DeviceKey>, k: DeviceKey)
    requires Stuck(a, s, k) && k !in recipients
    ensures Stuck(a, Respond(s, a.room, recipients), k)
  {
    hide Walk;
  }

  lemma StuckAfterScan(a: Call, s: ClientState, k: DeviceKey)
    requires Stuck(a, s, k)
    ensures Stuck(a, AfterScan(s, a.room, ScanOf(a, s)), k) && k !in ScanOf(a, s).batch
  {
    var s0, s1 := Scan(IgnoredOf(a, s), [], [], None), AfterScan(s, a.room, ScanOf(a, s));
    BlockedStays(ContextOf(a, s), LIMIT, s0, WalkOf(a, s), k);
    MarkedInBatch(ContextOf(a, s), LIMIT, s0, WalkOf(a, s));
    WalkUnmarked(s.devices, s1.devices, s.rooms[a.room].order);
    hide ScanAll, Walk;
  }

  lemma StuckAfterRound(a: Call, s: ClientState, now: int, k: DeviceKey)
    requires Stuck(a, s, k)
    ensures Stuck(a, Round(a, s, now), k)
  {
    var s1 := AfterScan(s, a.room, ScanOf(a, s));
    StuckAfterScan(a, s, k);
    StuckAfterRespond(a, s1, Elems(ScanOf(a, s).batch), k) by {
      assert k !in Elems(ScanOf(a, s).batch);
    }
    hide ScanAll, Walk, AfterScan, Respond, Blocked;
  }

  /** While a device is blocked no number of rounds gets the session shared. */
  lemma {:induction false} NeverSharedWhileBlocked(a: Call, s: ClientState, times: seq<int>, k: DeviceKey)
    requires Stuck(a, s, k)
    decreases |times|
    ensures !IsShared(a, Iterate(a, s, times))
  {
    if times == [] {
    } else {
      StuckAfterRound(a, s, times[0], k);
      NeverSharedWhileBlocked(a, Round(a, s, times[0]), times[1..], k);
    }
  }
}
