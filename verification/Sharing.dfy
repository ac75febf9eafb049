/**
 * The walk over the devices of a room that decides who receives a room key: the body
 * shared by `share_group_session` and `share_group_session_parallel`.
 */
module Sharing {
  import opened Wrappers
  import opened Sequences
  import opened Devices

  const MAX_TO_DEVICE_MESSAGES: nat := 20

  /** What a device without an Olm session means: an error, a device to ignore, or one to skip. */
  datatype MissingPolicy = RaiseMissing | IgnoreMissing | SkipMissing

  datatype ShareError = MissingSession(k: DeviceKey) | UnverifiedDevice(k: DeviceKey)

  /** What the walk reads and never writes. */
  datatype Context = Context(
    ownDevice: DeviceId, devices: map<DeviceKey, OlmDevice>, olmSessions: set<string>,
    shared: set<DeviceKey>, policy: MissingPolicy, ignoreUnverified: bool)
  {
    predicate Excluded(k: DeviceKey) {
      k in devices && (k.1 == ownDevice || devices[k].trust == Blacklisted)
    }

    predicate HasSession(k: DeviceKey) {
      k in devices && devices[k].curve25519 in olmSessions
    }

    predicate Trusted(k: DeviceKey) {
      k in devices && (devices[k].trust == Verified || devices[k].trust == Ignored || ignoreUnverified)
    }
  }

  /** What the walk builds up: the session's ignored set, the recipients, and the devices to mark as ignored. */
  datatype Scan = Scan(
    ignored: set<DeviceKey>, batch: seq<DeviceKey>, marked: seq<DeviceKey>, error: Option<ShareError>)

  /** The body of the inner loop for one device; the walk only visits devices of the store. */
  function ScanStep(c: Context, s: Scan, k: DeviceKey): Scan {
    if k !in c.devices then s
    else if c.Excluded(k) then s.(ignored := s.ignored + {k})
    else if k in c.shared || k in s.ignored then s
    else if !c.HasSession(k) then
      match c.policy
      case RaiseMissing => s.(error := Some(MissingSession(k)))
      case IgnoreMissing => s.(ignored := s.ignored + {k})
      case SkipMissing => s
    else if c.devices[k].trust == Verified || c.devices[k].trust == Ignored then s.(batch := s.batch + [k])
    else if c.ignoreUnverified then s.(marked := s.marked + [k], batch := s.batch + [k])
    else s.(error := Some(UnverifiedDevice(k)))
  }

  predicate Stopped(limit: Option<nat>, s: Scan) {
    s.error.Some? || (limit.Some? && |s.batch| >= limit.value)
  }

  /** The whole walk over a flat list of devices, up to an error or a full batch. */
  function ScanAll(c: Context, limit: Option<nat>, s: Scan, ks: seq<DeviceKey>): Scan
    decreases |ks|
  {
    if ks == [] || Stopped(limit, s) then s
    else ScanAll(c, limit, ScanStep(c, s, ks[0]), ks[1..])
  }

  /** The devices the walk does not get to. */
  function Unvisited(c: Context, limit: Option<nat>, s: Scan, ks: seq<DeviceKey>): seq<DeviceKey>
    decreases |ks|
  {
    if ks == [] || Stopped(limit, s) then ks
    else Unvisited(c, limit, ScanStep(c, s, ks[0]), ks[1..])
  }

  /** A device that neither received the key nor is ignored. */
  predicate Uncovered(c: Context, ignored: set<DeviceKey>, k: DeviceKey) {
    k !in c.shared && k !in ignored
  }

  /** A device that still has to receive the key and can. */
  predicate Pending(c: Context, ignored: set<DeviceKey>, k: DeviceKey) {
    k in c.devices && Uncovered(c, ignored, k) && !c.Excluded(k) && c.HasSession(k) && c.Trusted(k)
  }

  /** A device that makes the walk fail. */
  predicate Blocked(c: Context, ignored: set<DeviceKey>, k: DeviceKey) {
    && k in c.devices && Uncovered(c, ignored, k) && !c.Excluded(k)
    && (if c.HasSession(k) then !c.Trusted(k) else c.policy == RaiseMissing)
  }

  function AllPending(c: Context, ignored: set<DeviceKey>, ks: seq<DeviceKey>): (r: seq<DeviceKey>)
    ensures forall k :: k in r <==> k in ks && Pending(c, ignored, k)
  {
    if ks == [] then []
    else
      assert ks == [ks[0]] + ks[1..];
      (if Pending(c, ignored, ks[0]) then [ks[0]] else []) + AllPending(c, ignored, ks[1..])
  }

  lemma {:induction false} AllPendingConcat(c: Context, ignored: set<DeviceKey>, a: seq<DeviceKey>, b: seq<DeviceKey>)
    ensures AllPending(c, ignored, a + b) == AllPending(c, ignored, a) + AllPending(c, ignored, b)
  {
    if a == [] {
      assert a + b == b;
    } else {
      assert (a + b)[0] == a[0] && (a + b)[1..] == a[1..] + b;
      AllPendingConcat(c, ignored, a[1..], b);
    }
  }

  lemma {:induction false} AllPendingSame(c: Context, c': Context, ignored: set<DeviceKey>, ignored': set<DeviceKey>,
                                          ks: seq<DeviceKey>)
    requires forall k :: k in ks ==> (Pending(c, ignored, k) <==> Pending(c', ignored', k))
    ensures AllPending(c, ignored, ks) == AllPending(c', ignored', ks)
  {
    if ks == [] {
    } else {
      assert ks == [ks[0]] + ks[1..];
      AllPendingSame(c, c', ignored, ignored', ks[1..]);
    }
  }

  /** Visiting one device does not change the standing of the others. */
  lemma StepKeepsOthers(c: Context, s: Scan, k: DeviceKey, ks: seq<DeviceKey>)
    requires k !in ks
    ensures var i, i' := s.ignored, ScanStep(c, s, k).ignored;
      && AllPending(c, i', ks) == AllPending(c, i, ks)
      && (forall j :: j in ks ==> (Blocked(c, i', j) <==> Blocked(c, i, j)))
      && (forall j :: j in ks ==> (Uncovered(c, i', j) <==> Uncovered(c, i, j)))
  {
    AllPendingSame(c, c, s.ignored, ScanStep(c, s, k).ignored, ks);
  }

  /** One device that is not blocked joins the batch exactly when it is pending. */
  lemma StepTakesPending(c: Context, s: Scan, ks: seq<DeviceKey>)
    requires ks != [] && !Blocked(c, s.ignored, ks[0])
    ensures var s' := ScanStep(c, s, ks[0]);
      && s'.error == s.error
      && s'.batch == s.batch + (if Pending(c, s.ignored, ks[0]) then [ks[0]] else [])
      && s'.batch + AllPending(c, s.ignored, ks[1..]) == s.batch + AllPending(c, s.ignored, ks)
  {
    var taken := if Pending(c, s.ignored, ks[0]) then [ks[0]] else [];
    assert AllPending(c, s.ignored, ks) == taken + AllPending(c, s.ignored, ks[1..]);
    hide *;
    StepOfOne(c, s, ks[0]);
    Reassociate(s.batch, taken, AllPending(c, s.ignored, ks[1..]));
  }

  lemma StepOfOne(c: Context, s: Scan, k: DeviceKey)
    requires !Blocked(c, s.ignored, k)
    ensures ScanStep(c, s, k).error == s.error
    ensures ScanStep(c, s, k).batch == s.batch + (if Pending(c, s.ignored, k) then [k] else [])
  {
  }

  /**
   * Without a blocked device the walk does not fail; the batch followed by the pending
   * devices it does not get to are the pending devices in order; and it only stops early
   * with a full batch.
   */
  lemma {:induction false} ScanTakesPending(c: Context, limit: Option<nat>, s: Scan, ks: seq<DeviceKey>)
    requires Distinct(ks) && s.error.None?
    requires limit.Some? ==> |s.batch| <= limit.value
    requires forall k :: k in ks ==> !Blocked(c, s.ignored, k)
    decreases |ks|
    ensures var r, left := ScanAll(c, limit, s, ks), Unvisited(c, limit, s, ks);
      && r.error.None?
      && r.batch + AllPending(c, s.ignored, left) == s.batch + AllPending(c, s.ignored, ks)
      && (limit.Some? ==> |r.batch| <= limit.value)
      && (left != [] ==> limit.Some? && |r.batch| == limit.value)
  {
    if ks == [] || Stopped(limit, s) {
    } else {
      var k, rest := ks[0], ks[1..];
      var s' := ScanStep(c, s, k);
      assert ks == [k] + rest;
      StepTakesPending(c, s, ks);
      StepKeepsOthers(c, s, k, rest);
      UnvisitedIsSuffix(c, limit, s', rest);
      StepKeepsOthers(c, s, k, Unvisited(c, limit, s', rest));
      hide ScanStep, Blocked, AllPending;
      ScanTakesPending(c, limit, s', rest);
    }
  }

  lemma {:induction false} UnvisitedIsSuffix(c: Context, limit: Option<nat>, s: Scan, ks: seq<DeviceKey>)
    decreases |ks|
    ensures |Unvisited(c, limit, s, ks)| <= |ks|
    ensures Unvisited(c, limit, s, ks) == ks[|ks| - |Unvisited(c, limit, s, ks)|..]
    ensures forall k :: k in Unvisited(c, limit, s, ks) ==> k in ks
  {
    if ks == [] || Stopped(limit, s) {
    } else {
      UnvisitedIsSuffix(c, limit, ScanStep(c, s, ks[0]), ks[1..]);
    }
  }

  /** A blocked device the walk gets to before its batch is full. */
  ghost predicate Reached(c: Context, limit: Option<nat>, s: Scan, ks: seq<DeviceKey>, i: int) {
    && 0 <= i < |ks| && Blocked(c, s.ignored, ks[i])
    && (limit.None? || |s.batch| + |AllPending(c, s.ignored, ks[..i])| < limit.value)
  }

  /** The walk fails exactly when it gets to a blocked device. */
  lemma {:induction false} ScanFailsIffBlockedReached(c: Context, limit: Option<nat>, s: Scan, ks: seq<DeviceKey>)
    requires Distinct(ks) && s.error.None?
    decreases |ks|
    ensures ScanAll(c, limit, s, ks).error.Some? <==> exists i :: Reached(c, limit, s, ks, i)
  {
    if ks == [] || Stopped(limit, s) {
    } else if Blocked(c, s.ignored, ks[0]) {
      assert ScanStep(c, s, ks[0]).error.Some?;
      assert AllPending(c, s.ignored, ks[..0]) == [];
      assert Reached(c, limit, s, ks, 0);
    } else {
      var k, rest := ks[0], ks[1..];
      var s' := ScanStep(c, s, k);
      assert ks == [k] + rest;
      StepTakesPending(c, s, ks);
      ScanFailsIffBlockedReached(c, limit, s', rest);
      forall i | 0 <= i < |rest| ensures Reached(c, limit, s', rest, i) <==> Reached(c, limit, s, ks, i + 1) {
        assert k !in rest[..i];
        StepKeepsOthers(c, s, k, rest);
        StepKeepsOthers(c, s, k, rest[..i]);
        assert ks[..i + 1] == [k] + rest[..i];
        assert rest[i] in rest;
      }
      if i :| Reached(c, limit, s, ks, i) {
        assert i > 0 && Reached(c, limit, s', rest, i - 1);
      }
    }
  }

  lemma StepGrows(c: Context, s: Scan, k: DeviceKey)
    ensures var s' := ScanStep(c, s, k);
      && s.ignored <= s'.ignored <= s.ignored + {k}
      && (forall j :: j in s.batch ==> j in s'.batch)
      && (forall j :: j in s'.batch ==> j in s.batch || j == k)
  {
  }

  /** The walk only adds to the ignored set and the batch, and only devices it visits. */
  lemma {:induction false} ScanGrows(c: Context, limit: Option<nat>, s: Scan, ks: seq<DeviceKey>)
    requires Distinct(ks)
    decreases |ks|
    ensures var r, left := ScanAll(c, limit, s, ks), Unvisited(c, limit, s, ks);
      && s.ignored <= r.ignored && (forall k :: k in s.batch ==> k in r.batch)
      && (forall k :: k in r.ignored ==> k in s.ignored || (k in ks && k !in left))
      && (forall k :: k in r.batch ==> k in s.batch || (k in ks && k !in left))
  {
    if ks == [] || Stopped(limit, s) {
    } else {
      var k, rest := ks[0], ks[1..];
      var s' := ScanStep(c, s, k);
      assert ks == [k] + rest;
      UnvisitedIsSuffix(c, limit, s', rest);
      StepGrows(c, s, k);
      hide ScanStep;
      ScanGrows(c, limit, s', rest);
    }
  }

  /**
   * Afterwards every device the walk visited is shared with, ignored or in the batch, unless
   * devices without a session are skipped.
   */
  lemma {:induction false} ScanCoversVisited(c: Context, limit: Option<nat>, s: Scan, ks: seq<DeviceKey>)
    requires Distinct(ks) && s.error.None? && c.policy != SkipMissing
    requires forall k :: k in ks ==> k in c.devices && !Blocked(c, s.ignored, k)
    decreases |ks|
    ensures var r, left := ScanAll(c, limit, s, ks), Unvisited(c, limit, s, ks);
      forall k :: k in ks && k !in left ==> k in c.shared || k in r.ignored || k in r.batch
  {
    if ks == [] || Stopped(limit, s) {
    } else {
      var k, rest := ks[0], ks[1..];
      var s' := ScanStep(c, s, k);
      assert ks == [k] + rest;
      StepTakesPending(c, s, ks);
      StepKeepsOthers(c, s, k, rest);
      assert k in c.shared || k in s'.ignored || k in s'.batch;
      hide ScanStep, Blocked, Pending;
      ScanGrows(c, limit, s', rest);
      ScanCoversVisited(c, limit, s', rest);
    }
  }

  /** A device that a visit adds to the ignored set. */
  predicate Dropped(c: Context, ignored: set<DeviceKey>, k: DeviceKey) {
    k in c.devices && (c.Excluded(k) || (c.policy == IgnoreMissing && Uncovered(c, ignored, k) && !c.HasSession(k)))
  }

  lemma StepDrops(c: Context, s: Scan, k: DeviceKey)
    ensures ScanStep(c, s, k).ignored == s.ignored + (if Dropped(c, s.ignored, k) then {k} else {})
  {
  }

  /** The ignored set gains exactly the dropped ones among the visited devices. */
  lemma {:induction false} ScanDrops(c: Context, limit: Option<nat>, s: Scan, ks: seq<DeviceKey>)
    requires Distinct(ks)
    decreases |ks|
    ensures
      var r, left := ScanAll(c, limit, s, ks), Unvisited(c, limit, s, ks);
      forall k :: k in r.ignored <==> k in s.ignored || (k in ks && k !in left && Dropped(c, s.ignored, k))
  {
    if ks == [] || Stopped(limit, s) {
    } else {
      var k, rest := ks[0], ks[1..];
      var s' := ScanStep(c, s, k);
      assert ks == [k] + rest;
      StepDrops(c, s, k);
      UnvisitedIsSuffix(c, limit, s', rest);
      forall j | j in rest ensures Dropped(c, s'.ignored, j) <==> Dropped(c, s.ignored, j) {
      }
      hide ScanStep, Dropped;
      ScanDrops(c, limit, s', rest);
    }
  }

  /** A walk without a limit stops right behind the first blocked device. */
  lemma {:induction false} ScanStopsAtFirstBlocked(c: Context, s: Scan, ks: seq<DeviceKey>, i: nat)
    requires Distinct(ks) && s.error.None? && i < |ks| && Blocked(c, s.ignored, ks[i])
    requires forall j :: 0 <= j < i ==> !Blocked(c, s.ignored, ks[j])
    decreases |ks|
    ensures Unvisited(c, None, s, ks) == ks[i + 1..]
  {
    var k, rest := ks[0], ks[1..];
    var s' := ScanStep(c, s, k);
    assert ks == [k] + rest;
    if i == 0 {
      assert s'.error.Some?;
    } else {
      StepOfOne(c, s, k);
      StepKeepsOthers(c, s, k, rest);
      assert rest[i - 1] == ks[i] && rest[i..] == ks[i + 1..];
      assert forall j :: 0 <= j < i - 1 ==> rest[j] == ks[j + 1];
      assert forall j :: 0 <= j < i ==> rest[j] in rest;
      hide ScanStep, Blocked;
      ScanStopsAtFirstBlocked(c, s', rest, i - 1);
    }
  }

  /** The error names the first blocked device, and what is wrong with it. */
  lemma {:induction false} ScanErrorNames(c: Context, limit: Option<nat>, s: Scan, ks: seq<DeviceKey>)
    requires Distinct(ks) && s.error.None?
    decreases |ks|
    ensures
      var error := ScanAll(c, limit, s, ks).error;
      error.Some? ==> exists i :: IsFirstBlocked(c, s.ignored, ks, i) && error == Some(Failure(c, ks[i]))
  {
    if ks == [] || Stopped(limit, s) {
    } else {
      hide ScanStep, Blocked, Failure, IsFirstBlocked;
      var k, rest := ks[0], ks[1..];
      var s' := ScanStep(c, s, k);
      assert k !in rest;
      if Blocked(c, s.ignored, k) {
        StepFails(c, s, k);
        FirstIsBlocked(c, s.ignored, ks);
      } else {
        StepOfOne(c, s, k);
        ScanErrorNames(c, limit, s', rest);
        var error := ScanAll(c, limit, s', rest).error;
        if error.Some? {
          var i :| IsFirstBlocked(c, s'.ignored, rest, i) && error == Some(Failure(c, rest[i]));
          FirstBlockedLater(c, s, ks, i);
        }
      }
    }
  }

  lemma StepFails(c: Context, s: Scan, k: DeviceKey)
    requires Blocked(c, s.ignored, k)
    ensures ScanStep(c, s, k).error == Some(Failure(c, k))
  {
  }

  lemma FirstIsBlocked(c: Context, ignored: set<DeviceKey>, ks: seq<DeviceKey>)
    requires ks != [] && Blocked(c, ignored, ks[0])
    ensures IsFirstBlocked(c, ignored, ks, 0)
  {
  }

  lemma FirstBlockedLater(c: Context, s: Scan, ks: seq<DeviceKey>, i: int)
    requires ks != [] && ks[0] !in ks[1..] && !Blocked(c, s.ignored, ks[0])
    requires IsFirstBlocked(c, ScanStep(c, s, ks[0]).ignored, ks[1..], i)
    ensures IsFirstBlocked(c, s.ignored, ks, i + 1) && ks[i + 1] == ks[1..][i]
  {
    var rest := ks[1..];
    StepKeepsOthers(c, s, ks[0], rest);
    hide Blocked, ScanStep;
    assert forall j :: 0 <= j < |rest| ==> rest[j] in rest && rest[j] == ks[j + 1];
    forall j | 0 <= j < i + 1 ensures !Blocked(c, s.ignored, ks[j]) {
      assert j > 0 ==> ks[j] == rest[j - 1];
    }
  }

  ghost predicate IsFirstBlocked(c: Context, ignored: set<DeviceKey>, ks: seq<DeviceKey>, i: int) {
    0 <= i < |ks| && Blocked(c, ignored, ks[i]) && forall j :: 0 <= j < i ==> !Blocked(c, ignored, ks[j])
  }

  function Failure(c: Context, k: DeviceKey): ShareError {
    if c.HasSession(k) then UnverifiedDevice(k) else MissingSession(k)
  }
}
