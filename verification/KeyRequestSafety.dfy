/** What every step of the request queues keeps. */
module KeyRequestSafety {
  import opened Wrappers
  import opened Sequences
  import opened Dicts
  import opened Devices
  import opened KeyRequests
  import Sorting

  predicate Answered(forwarded: seq<KeyRequest>, id: RequestId) {
    exists r :: r in forwarded && r.id == id
  }

  predicate WasShown(shown: seq<Queued>, id: RequestId) {
    exists q :: q in shown && q.Asked? && q.Id() == id
  }

  /** What the state says about one request id. */
  datatype Place = Place(
    received: Option<Queued>, waiting: map<DeviceKey, KeyRequest>, untrusted: Option<KeyRequest>,
    request: Option<KeyRequest>, answered: bool, closed: bool, shown: bool)
  {
    /** The request is still to be decided about. */
    predicate Open() {
      (received.Some? && received.value.Asked?) || waiting != map[] || untrusted.Some?
    }
  }

  function WaitingFor(waiting: map<DeviceKey, Bucket>, id: RequestId): map<DeviceKey, KeyRequest> {
    map k | k in waiting && id in waiting[k].vals :: waiting[k].vals[id]
  }

  function PlaceOf(s: State, id: RequestId): Place {
    Place(Get(s.received.vals, id), WaitingFor(s.waiting, id), Get(s.untrusted.vals, id), Get(s.requests, id),
          Answered(s.forwarded, id), id in s.closed, WasShown(s.shown, id))
  }

  ghost predicate QueuedOk(id: RequestId, p: Place, q: Queued) {
    match q
    case Asked(r) => p.request == Some(r)
    case Withdrawn(c) => c.id == id && p.shown
  }

  ghost predicate PlaceOk(devices: set<DeviceKey>, id: RequestId, p: Place) {
    && (p.request.Some? ==> p.request.value.id == id)
    && (p.received.Some? ==>
          p.request.Some? && p.waiting == map[] && p.untrusted.None? && QueuedOk(id, p, p.received.value))
    && (forall k :: k in p.waiting ==>
          k in devices && p.untrusted.None? && p.request == Some(p.waiting[k]) && p.waiting[k].Key() == k)
    && (p.untrusted.Some? ==> p.request == p.untrusted && p.shown)
    && (p.answered || p.closed ==> p.request.Some? && !p.Open())
  }

  ghost predicate PlacesOk(s: State) {
    forall id :: PlaceOk(s.devices.Keys, id, PlaceOf(s, id))
  }

  /** A device asks for an Olm session, once, exactly when one of its requests waits for it. */
  ghost predicate DevicesOk(s: State) {
    Distinct(s.noSession) && forall k :: k in s.noSession <==> s.Waiting(k).keys != []
  }

  ghost predicate AnswersOk(forwarded: seq<KeyRequest>) {
    forall i, j :: 0 <= i < j < |forwarded| ==> forwarded[i].id != forwarded[j].id
  }

  /** A cancellation is only shown after the request. */
  ghost predicate ShownOk(shown: seq<Queued>) {
    forall j :: 0 <= j < |shown| && shown[j].Withdrawn? ==> WasShown(shown[..j], shown[j].Id())
  }

  ghost predicate Inv(s: State) {
    PlacesOk(s) && DevicesOk(s) && AnswersOk(s.forwarded) && ShownOk(s.shown)
  }

  lemma RequestKeepsInv(s: State, r: KeyRequest)
    requires Inv(s) && Enabled(s, EvRequest(r))
    ensures Inv(HandleRequest(s, r))
  {
    var s' := HandleRequest(s, r);
    if r.megolm {
      forall id ensures PlaceOk(s'.devices.Keys, id, PlaceOf(s', id)) {
        assert PlaceOk(s.devices.Keys, id, PlaceOf(s, id));
        if id == r.id {
          assert PlaceOf(s', id) == PlaceOf(s, id).(received := Some(Asked(r)), request := Some(r));
        } else {
          assert PlaceOf(s', id) == PlaceOf(s, id);
        }
      }
    }
  }

  /** The place of the cancelled request. */
  function Withdraw(p: Place, c: Cancellation): Place {
    p.(received := if p.untrusted.Some? then Some(Withdrawn(c)) else None,
       waiting := p.waiting - {(c.sender, c.device)},
       untrusted := None,
       closed := p.closed || (p.request.Some? && p.request.value.Key() == (c.sender, c.device)))
  }

  lemma WithdrawKeepsOk(devices: set<DeviceKey>, p: Place, c: Cancellation)
    requires PlaceOk(devices, c.id, p)
    ensures PlaceOk(devices, c.id, Withdraw(p, c))
  {
    assert forall k :: k in p.waiting ==> k == p.request.value.Key();
  }

  lemma WaitingAfterPut(waiting: map<DeviceKey, Bucket>, key: DeviceKey, bucket: Bucket, id: RequestId)
    ensures WaitingFor(waiting[key := bucket], id) ==
            if id in bucket.vals then WaitingFor(waiting, id)[key := bucket.vals[id]]
            else WaitingFor(waiting, id) - {key}
  {
  }

  lemma WaitingAfterPop(s: State, key: DeviceKey, gone: RequestId, id: RequestId)
    ensures WaitingFor(s.waiting[key := Pop(s.Waiting(key), gone)], id) ==
            if id == gone then WaitingFor(s.waiting, id) - {key} else WaitingFor(s.waiting, id)
  {
    WaitingAfterPut(s.waiting, key, Pop(s.Waiting(key), gone), id);
  }

  lemma CancellationPlaces(s: State, c: Cancellation, id: RequestId)
    ensures PlaceOf(HandleCancellation(s, c), id) == if id == c.id then Withdraw(PlaceOf(s, id), c) else PlaceOf(s, id)
  {
    WaitingAfterPop(s, (c.sender, c.device), c.id, id);
    hide WaitingFor, Answered, WasShown;
  }

  lemma StopWaitingKeepsDevices(s: State, key: DeviceKey, id: RequestId)
    requires DevicesOk(s) && (s.Waiting(key).keys != [] ==> key in s.devices)
    ensures DevicesOk(StopWaiting(s, key, id))
  {
    var s' := StopWaiting(s, key, id);
    RemoveDistinct(s.noSession, key);
    BucketAfterPop(s.Waiting(key), id);
    hide Pop, Remove, Distinct;
    forall k | k != key ensures k in s'.noSession <==> s'.Waiting(k).keys != [] {
      assert s'.Waiting(k) == s.Waiting(k);
    }
  }

  lemma WaitingDeviceIsKnown(s: State, key: DeviceKey)
    requires PlacesOk(s) && s.Waiting(key).keys != []
    ensures key in s.devices
  {
    var id := s.Waiting(key).keys[0];
    KeysAre(s.Waiting(key));
    assert PlaceOk(s.devices.Keys, id, PlaceOf(s, id));
    assert key in PlaceOf(s, id).waiting;
  }

  lemma CancellationKeepsDevices(s: State, c: Cancellation)
    requires PlacesOk(s) && DevicesOk(s)
    ensures DevicesOk(HandleCancellation(s, c))
  {
    var key := (c.sender, c.device);
    if s.Waiting(key).keys != [] {
      WaitingDeviceIsKnown(s, key);
    }
    hide StopWaiting, PlacesOk;
    StopWaitingKeepsDevices(s.(received := Pop(s.received, c.id)), key, c.id);
    assert DevicesOk(StopWaiting(s.(received := Pop(s.received, c.id)), key, c.id));
  }

  lemma BucketAfterPop(b: Bucket, id: RequestId)
    ensures b.keys == [] ==> Pop(b, id).keys == []
  {
  }

  lemma CancellationKeepsInv(s: State, c: Cancellation)
    requires Inv(s)
    ensures Inv(HandleCancellation(s, c))
  {
    var s' := HandleCancellation(s, c);
    forall id ensures PlaceOk(s'.devices.Keys, id, PlaceOf(s', id)) {
      assert PlaceOk(s.devices.Keys, id, PlaceOf(s, id));
      hide PlaceOk, PlaceOf, PlacesOk, DevicesOk, Withdraw;
      CancellationPlaces(s, c, id);
      if id == c.id {
        WithdrawKeepsOk(s.devices.Keys, PlaceOf(s, id), c);
      }
    }
    CancellationKeepsDevices(s, c);
  }

  lemma AnsweredAppend(forwarded: seq<KeyRequest>, r: KeyRequest, id: RequestId)
    ensures Answered(forwarded + [r], id) <==> Answered(forwarded, id) || r.id == id
  {
    assert r in forwarded + [r];
    if q :| q in forwarded && q.id == id {
      assert q in forwarded + [r];
    }
  }

  lemma ShownAppend(shown: seq<Queued>, q: Queued, id: RequestId)
    ensures WasShown(shown + [q], id) <==> WasShown(shown, id) || (q.Asked? && q.Id() == id)
  {
    assert q in shown + [q];
    if o :| o in shown && o.Asked? && o.Id() == id {
      assert o in shown + [q];
    }
  }

  lemma ShownOkAppend(shown: seq<Queued>, q: Queued)
    requires ShownOk(shown) && (q.Withdrawn? ==> WasShown(shown, q.Id()))
    ensures ShownOk(shown + [q])
  {
    forall j | 0 <= j < |shown + [q]| && (shown + [q])[j].Withdrawn?
        ensures WasShown((shown + [q])[..j], (shown + [q])[j].Id()) {
      assert (shown + [q])[..j] == shown[..j];
      assert shown[..|shown|] == shown;
    }
  }

  /** A request that is in no queue and not decided yet. */
  ghost predicate Free(s: State, r: KeyRequest) {
    PlaceOf(s, r.id) == Place(None, map[], None, Some(r), false, false, WasShown(s.shown, r.id))
  }

  /** The place of a request after an attempt to answer it. */
  function Attempt(s: State, r: KeyRequest, p: Place): Place {
    if r.sender != s.own then p
    else match Assess(s, r)
      case NoOlmSession => p.(waiting := p.waiting[r.Key() := r])
      case Forward => p.(answered := true)
      case _ => p
  }

  lemma WaitingAfterAdd(s: State, r: KeyRequest, id: RequestId)
    ensures WaitingFor(s.waiting[r.Key() := Put(s.Waiting(r.Key()), r.id, r)], id) ==
            if id == r.id then WaitingFor(s.waiting, id)[r.Key() := r] else WaitingFor(s.waiting, id)
  {
    WaitingAfterPut(s.waiting, r.Key(), Put(s.Waiting(r.Key()), r.id, r), id);
    if id in s.Waiting(r.Key()).vals {
      assert WaitingFor(s.waiting, id)[r.Key() := s.Waiting(r.Key()).vals[id]] == WaitingFor(s.waiting, id);
    } else {
      assert WaitingFor(s.waiting, id) - {r.Key()} == WaitingFor(s.waiting, id);
    }
  }

  lemma ParkPlaces(s: State, r: KeyRequest, id: RequestId)
    ensures PlaceOf(Park(s, r), id) ==
            if id == r.id then PlaceOf(s, id).(waiting := PlaceOf(s, id).waiting[r.Key() := r]) else PlaceOf(s, id)
  {
    WaitingAfterAdd(s, r, id);
    hide WaitingFor, Answered, WasShown;
  }

  lemma SinglePlaces(s: State, r: KeyRequest, id: RequestId)
    ensures PlaceOf(CollectSingle(s, r).0, id) == if id == r.id then Attempt(s, r, PlaceOf(s, id)) else PlaceOf(s, id)
  {
    AnsweredAppend(s.forwarded, r, id);
    ParkPlaces(s, r, id);
    hide WaitingFor, Answered, WasShown, Assess, Park;
  }

  lemma SingleKeepsDevices(s: State, r: KeyRequest)
    requires DevicesOk(s)
    ensures DevicesOk(CollectSingle(s, r).0)
  {
    ParkKeepsDevices(s, r);
    hide Park, Assess, Distinct;
  }

  lemma ParkKeepsDevices(s: State, r: KeyRequest)
    requires DevicesOk(s)
    ensures DevicesOk(Park(s, r))
  {
    var s', key := Park(s, r), r.Key();
    DistinctAppend(s.noSession, key);
    KeysAre(Put(s.Waiting(key), r.id, r));
    hide Put, Distinct;
    forall k | k != key ensures k in s'.noSession <==> s'.Waiting(k).keys != [] {
      assert s'.Waiting(k) == s.Waiting(k);
    }
  }

  lemma AttemptKeepsOk(s: State, r: KeyRequest, p: Place)
    requires p == Place(None, map[], None, Some(r), false, false, p.shown)
    ensures PlaceOk(s.devices.Keys, r.id, Attempt(s, r, p))
  {
  }

  lemma AnswersOkAppend(forwarded: seq<KeyRequest>, r: KeyRequest)
    requires AnswersOk(forwarded) && !Answered(forwarded, r.id)
    ensures AnswersOk(forwarded + [r])
  {
    assert forall q :: q in forwarded ==> q.id != r.id;
  }

  lemma SingleKeepsInv(s: State, r: KeyRequest)
    requires Inv(s) && Free(s, r)
    ensures Inv(CollectSingle(s, r).0)
  {
    var s' := CollectSingle(s, r).0;
    assert s'.devices == s.devices && s'.shown == s.shown;
    AnswersOkAppend(s.forwarded, r);
    assert AnswersOk(s'.forwarded);
    SingleKeepsDevices(s, r);
    hide CollectSingle, DevicesOk, AnswersOk, ShownOk, PlaceOf;
    forall id ensures PlaceOk(s'.devices.Keys, id, PlaceOf(s', id)) {
      assert PlaceOk(s.devices.Keys, id, PlaceOf(s, id));
      hide PlaceOk, Attempt;
      SinglePlaces(s, r, id);
      if id == r.id {
        AttemptKeepsOk(s, r, PlaceOf(s, id));
      }
    }
  }

  /** An event whose turn it is in `collect_key_requests`. */
  ghost predicate Due(s: State, q: Queued) {
    match q
    case Asked(r) => Free(s, r)
    case Withdrawn(c) => PlaceOf(s, c.id).shown
  }

  /** The place of an event's request after its turn. */
  function Turn(s: State, q: Queued, p: Place): Place {
    match q
    case Withdrawn(c) => p
    case Asked(r) =>
      if r.sender == s.own && Assess(s, r) == Untrusted then p.(untrusted := Some(r), shown := true)
      else Attempt(s, r, p)
  }

  lemma CollectOnePlaces(s: State, q: Queued, id: RequestId)
    ensures PlaceOf(CollectOne(s, q), id) == if id == q.Id() then Turn(s, q, PlaceOf(s, id)) else PlaceOf(s, id)
  {
    ShownAppend(s.shown, q, id);
    hide WaitingFor, Answered, WasShown, Assess, Put, Attempt;
    if q.Asked? {
      SinglePlaces(s, q.request, id);
      SingleRefused(s, q.request);
      hide CollectSingle;
    }
  }

  /** A refused request leaves everything as it was. */
  lemma SingleRefused(s: State, r: KeyRequest)
    ensures !CollectSingle(s, r).1 ==> CollectSingle(s, r).0 == s
    ensures CollectSingle(s, r).1 <==> !(r.sender == s.own && Assess(s, r) == Untrusted)
  {
    hide Park, Assess;
  }

  lemma CollectOneKeepsInv(s: State, q: Queued)
    requires Inv(s) && Due(s, q)
    ensures Inv(CollectOne(s, q))
  {
    var s' := CollectOne(s, q);
    if q.Asked? && CollectSingle(s, q.request).1 {
      SingleKeepsInv(s, q.request);
    } else {
      ShownOkAppend(s.shown, q);
      forall id ensures PlaceOk(s'.devices.Keys, id, PlaceOf(s', id)) {
        assert PlaceOk(s.devices.Keys, id, PlaceOf(s, id));
        CollectOnePlaces(s, q, id);
        hide PlaceOf, Answered, WasShown, CollectOne;
      }
    }
  }

  ghost predicate AllDue(s: State, qs: seq<Queued>) {
    && (forall i :: 0 <= i < |qs| ==> Due(s, qs[i]))
    && (forall i, j :: 0 <= i < j < |qs| ==> qs[i].Id() != qs[j].Id())
  }

  lemma StillDue(s: State, qs: seq<Queued>)
    requires AllDue(s, qs) && qs != []
    ensures AllDue(CollectOne(s, qs[0]), qs[1..])
  {
    forall i | 0 <= i < |qs[1..]| ensures Due(CollectOne(s, qs[0]), qs[1..][i]) {
      assert qs[1..][i] == qs[i + 1];
      CollectOnePlaces(s, qs[0], qs[i + 1].Id());
      hide CollectOne, PlaceOf;
    }
  }

  lemma {:induction false} CollectAllKeepsInv(s: State, qs: seq<Queued>)
    requires Inv(s) && AllDue(s, qs)
    decreases |qs|
    ensures Inv(CollectAll(s, qs))
  {
    if qs == [] {
    } else {
      CollectOneKeepsInv(s, qs[0]);
      StillDue(s, qs);
      hide Inv, CollectOne;
      CollectAllKeepsInv(CollectOne(s, qs[0]), qs[1..]);
    }
  }

  lemma EmptiedPlaces(s: State, id: RequestId)
    ensures PlaceOf(s.(received := Empty()), id) == PlaceOf(s, id).(received := None)
  {
  }

  lemma ReceivedAreDue(s: State)
    requires Inv(s)
    ensures Inv(s.(received := Empty())) && AllDue(s.(received := Empty()), Values(s.received))
  {
    var s0, qs := s.(received := Empty()), Values(s.received);
    DistinctIndices(s.received.keys);
    forall id ensures PlaceOk(s0.devices.Keys, id, PlaceOf(s0, id)) {
      assert PlaceOk(s.devices.Keys, id, PlaceOf(s, id));
      EmptiedPlaces(s, id);
    }
    forall i | 0 <= i < |qs| ensures Due(s0, qs[i]) && qs[i].Id() == s.received.keys[i] {
      var id := s.received.keys[i];
      assert PlaceOk(s.devices.Keys, id, PlaceOf(s, id));
      EmptiedPlaces(s, id);
      assert PlaceOf(s, id).received == Some(qs[i]);
      hide PlaceOf;
    }
  }

  lemma CollectKeepsInv(s: State)
    requires Inv(s)
    ensures Inv(Collect(s))
  {
    hide Inv, AllDue, CollectAll;
    ReceivedAreDue(s);
    CollectAllKeepsInv(s.(received := Empty()), Values(s.received));
  }

  lemma DropUntrusted(s: State, id: RequestId)
    requires Inv(s)
    ensures Inv(s.(untrusted := Pop(s.untrusted, id)))
    ensures id in s.untrusted.vals ==> Free(s.(untrusted := Pop(s.untrusted, id)), s.untrusted.vals[id])
  {
    var s' := s.(untrusted := Pop(s.untrusted, id));
    forall j ensures PlaceOk(s'.devices.Keys, j, PlaceOf(s', j)) {
      assert PlaceOk(s.devices.Keys, j, PlaceOf(s, j));
      assert PlaceOf(s', j) == if j == id then PlaceOf(s, j).(untrusted := None) else PlaceOf(s, j);
      hide PlaceOf;
    }
    assert PlaceOk(s.devices.Keys, id, PlaceOf(s, id));
  }

  lemma ContinueIsSingle(s: State, r: KeyRequest)
    ensures var s' := Continue(s, r).0;
      || s' == s
      || (r.id in s.untrusted.vals && s.untrusted.vals[r.id] == r
          && s' == CollectSingle(s.(untrusted := Pop(s.untrusted, r.id)), r).0)
  {
    SingleIgnoresUntrusted(s, Pop(s.untrusted, r.id), r);
    SingleKeepsUntrusted(s, r);
    hide CollectSingle, Pop;
  }

  lemma SingleIgnoresUntrusted(s: State, untrusted: Bucket, r: KeyRequest)
    ensures CollectSingle(s.(untrusted := untrusted), r) ==
            (CollectSingle(s, r).0.(untrusted := untrusted), CollectSingle(s, r).1)
  {
    hide Park, Assess;
    ParkIgnoresUntrusted(s, untrusted, r);
    AssessIgnoresUntrusted(s, untrusted, r);
  }

  lemma AssessIgnoresUntrusted(s: State, untrusted: Bucket, r: KeyRequest)
    ensures Assess(s.(untrusted := untrusted), r) == Assess(s, r)
  {
  }

  lemma ParkIgnoresUntrusted(s: State, untrusted: Bucket, r: KeyRequest)
    ensures Park(s.(untrusted := untrusted), r) == Park(s, r).(untrusted := untrusted)
  {
    hide Put;
  }

  lemma SingleKeepsUntrusted(s: State, r: KeyRequest)
    ensures CollectSingle(s, r).0.untrusted == s.untrusted && (!CollectSingle(s, r).1 ==> CollectSingle(s, r).0 == s)
  {
    hide Put;
  }

  lemma ContinueKeepsInv(s: State, r: KeyRequest)
    requires Inv(s)
    ensures Inv(Continue(s, r).0)
  {
    ContinueIsSingle(s, r);
    DropUntrusted(s, r.id);
    hide Inv, Continue, CollectSingle;
    if Continue(s, r).0 != s {
      SingleKeepsInv(s.(untrusted := Pop(s.untrusted, r.id)), r);
    }
  }

  /** The place of a request after a key for device `k` was claimed. */
  function Claimed(s: State, k: DeviceKey, p: Place): Place {
    if k in s.devices && k in s.noSession && k in p.waiting then
      p.(received := Some(Asked(p.waiting[k])), waiting := p.waiting - {k})
    else p
  }

  lemma ReleasePlaces(s: State, k: DeviceKey, id: RequestId)
    ensures var p := PlaceOf(s, id);
      PlaceOf(Release(s, k), id) ==
      if k in p.waiting then p.(received := Some(Asked(p.waiting[k])), waiting := p.waiting - {k}) else p
  {
    assert WaitingFor(s.waiting - {k}, id) == WaitingFor(s.waiting, id) - {k};
    assert k !in WaitingFor(s.waiting, id) ==> WaitingFor(s.waiting, id) - {k} == WaitingFor(s.waiting, id);
    hide Answered, WasShown;
  }

  lemma ClaimPlaces(s: State, k: DeviceKey, id: RequestId)
    ensures PlaceOf(ClaimOne(s, k), id) == Claimed(s, k, PlaceOf(s, id))
  {
    if k in s.devices {
      var olmSessions, wedging := s.olmSessions + {s.devices[k].curve25519}, Unwedge(s.wedging, k);
      ReleasePlaces(s.(olmSessions := olmSessions, wedging := wedging), k, id);
    }
    hide Release, WaitingFor, Answered, WasShown;
  }

  lemma ClaimedOk(s: State, k: DeviceKey, id: RequestId, p: Place)
    requires PlaceOk(s.devices.Keys, id, p)
    ensures PlaceOk(s.devices.Keys, id, Claimed(s, k, p))
  {
    assert k in p.waiting ==> p.waiting - {k} == map[];
  }

  lemma ClaimKeepsDevices(s: State, k: DeviceKey)
    requires DevicesOk(s)
    ensures DevicesOk(ClaimOne(s, k))
  {
    hide Distinct, Remove, Unwedge, Update, Widen;
    var s' := ClaimOne(s, k);
    RemoveDistinct(s.noSession, k);
    forall j ensures j in s'.noSession <==> s'.Waiting(j).keys != [] {
      assert s'.Waiting(j) == s.Waiting(j) || (j == k && s'.Waiting(j) == Empty());
    }
  }

  lemma ClaimKeepsInv(s: State, k: DeviceKey)
    requires Inv(s)
    ensures Inv(ClaimOne(s, k))
  {
    var s' := ClaimOne(s, k);
    ClaimKeepsDevices(s, k);
    hide DevicesOk, AnswersOk, ShownOk;
    assert AnswersOk(s'.forwarded) && ShownOk(s'.shown) && s'.devices == s.devices;
    hide ClaimOne, PlaceOf;
    forall id ensures PlaceOk(s'.devices.Keys, id, PlaceOf(s', id)) {
      assert PlaceOk(s.devices.Keys, id, PlaceOf(s, id));
      hide PlaceOk, Claimed;
      ClaimPlaces(s, k, id);
      ClaimedOk(s, k, id, PlaceOf(s, id));
    }
  }

  lemma {:induction false} ClaimAllKeepsInv(s: State, ks: seq<DeviceKey>)
    requires Inv(s)
    decreases |ks|
    ensures Inv(ClaimAll(s, ks))
  {
    if ks == [] {
    } else {
      hide Inv, ClaimOne;
      ClaimKeepsInv(s, ks[0]);
      ClaimAllKeepsInv(ClaimOne(s, ks[0]), ks[1..]);
    }
  }

  /** Claiming keys answers and withdraws nothing. */
  lemma {:induction false} ClaimAllHistory(s: State, ks: seq<DeviceKey>)
    decreases |ks|
    ensures ClaimAll(s, ks).forwarded == s.forwarded && ClaimAll(s, ks).closed == s.closed
  {
    if ks == [] {
    } else {
      ClaimAllHistory(ClaimOne(s, ks[0]), ks[1..]);
    }
  }

  lemma OtherKeepsInv(s: State, devices: map<DeviceKey, OlmDevice>, olmSessions: set<string>,
                      groupSessions: set<SessionKey>)
    requires Inv(s) && s.devices.Keys <= devices.Keys
    ensures Inv(s.(devices := devices, olmSessions := olmSessions, groupSessions := groupSessions))
  {
    var s' := s.(devices := devices, olmSessions := olmSessions, groupSessions := groupSessions);
    forall id ensures PlaceOk(devices.Keys, id, PlaceOf(s', id)) {
      assert PlaceOk(s.devices.Keys, id, PlaceOf(s, id)) && PlaceOf(s', id) == PlaceOf(s, id);
      hide PlaceOf;
    }
    assert forall k :: s'.Waiting(k) == s.Waiting(k);
  }

  lemma WedgedKeepsInv(s: State, k: DeviceKey, recent: bool)
    requires Inv(s)
    ensures Inv(MarkWedged(s, k, recent))
  {
    var s' := MarkWedged(s, k, recent);
    forall id ensures PlaceOk(s'.devices.Keys, id, PlaceOf(s', id)) {
      assert PlaceOk(s.devices.Keys, id, PlaceOf(s, id)) && PlaceOf(s', id) == PlaceOf(s, id);
      hide PlaceOf;
    }
    assert forall j :: s'.Waiting(j) == s.Waiting(j);
  }

  lemma NextKeepsInv(s: State, e: Event)
    requires Inv(s) && Enabled(s, e)
    ensures Inv(Next(s, e))
  {
    hide Inv, HandleRequest, HandleCancellation, Collect, Continue, ClaimAll;
    match e
    case EvRequest(r) => RequestKeepsInv(s, r);
    case EvCancellation(c) => CancellationKeepsInv(s, c);
    case EvCollect => CollectKeepsInv(s);
    case EvContinue(r) => ContinueKeepsInv(s, r);
    case EvCancel(id) => DropUntrusted(s, id);
    case EvClaim(ks) => ClaimAllKeepsInv(s, ks);
    case EvWedged(k, recent) => WedgedKeepsInv(s, k, recent);
    case EvOther(devices, olmSessions, groupSessions) => OtherKeepsInv(s, devices, olmSessions, groupSessions);
  }

  lemma {:induction false} RunKeepsInv(states: seq<State>, events: seq<Event>, n: nat)
    requires IsRun(states, events) && n <= |events|
    ensures Inv(states[n])
  {
    if n == 0 {
      assert forall id :: PlaceOf(states[0], id) == Place(None, map[], None, None, false, false, false);
    } else {
      RunKeepsInv(states, events, n - 1);
      hide Inv;
      NextKeepsInv(states[n - 1], events[n - 1]);
    }
  }

  /** Conservation: in every reachable state a request id is in at most one of the three places. */
  lemma EachRequestIsInOnePlace(states: seq<State>, events: seq<Event>, n: nat, id: RequestId)
    requires IsRun(states, events) && n <= |events|
    ensures
      var s := states[n];
      && !(id in s.received.vals && id in s.untrusted.vals)
      && (forall k :: k in s.waiting && id in s.waiting[k].vals ==> id !in s.received.vals && id !in s.untrusted.vals)
      && (forall j, k :: j in s.waiting && id in s.waiting[j].vals && k in s.waiting && id in s.waiting[k].vals ==>
           j == k)
  {
    RunKeepsInv(states, events, n);
    var s := states[n];
    var p := PlaceOf(s, id);
    assert PlaceOk(s.devices.Keys, id, p);
    forall k | k in s.waiting && id in s.waiting[k].vals ensures k in p.waiting {
    }
    assert p.received.Some? <==> id in s.received.vals;
  }

  /** In every reachable state a device is listed for a key claim, once, exactly when a request of it waits. */
  lemma ListedIffSomethingWaits(states: seq<State>, events: seq<Event>, n: nat, k: DeviceKey)
    requires IsRun(states, events) && n <= |events|
    ensures Distinct(states[n].noSession)
    ensures k in states[n].noSession <==> k in states[n].waiting && states[n].waiting[k].vals != map[]
  {
    RunKeepsInv(states, events, n);
    var b := states[n].Waiting(k);
    KeysAre(b);
    if b.keys != [] {
      assert b.keys[0] in b.vals;
    }
  }

  /** What the outcome of a request depends on. */
  lemma AssessMeans(s: State, r: KeyRequest)
    ensures
      var known := r.session in s.groupSessions && (r.sender, r.device) in s.devices;
      var connected := known && s.devices[(r.sender, r.device)].curve25519 in s.olmSessions;
      && (Assess(s, r) == Invalid <==> !known)
      && (Assess(s, r) == NoOlmSession <==> known && !connected)
      && (Assess(s, r) == Untrusted <==> connected && s.devices[(r.sender, r.device)].trust != Verified)
      && (Assess(s, r) == Forward <==> connected && s.devices[(r.sender, r.device)].trust == Verified)
  {
  }

  /** A key is only sent to a verified device of our own user that asked for it and did not withdraw. */
  ghost predicate Justified(s: State, r: KeyRequest) {
    && r.sender == s.own && r.Key() in s.devices && s.devices[r.Key()].trust == Verified
    && s.devices[r.Key()].curve25519 in s.olmSessions && r.session in s.groupSessions
    && r.id in s.requests && s.requests[r.id] == r && r.id !in s.closed
  }

  lemma SingleForwards(s: State, r: KeyRequest)
    requires Free(s, r)
    ensures
      var s' := CollectSingle(s, r).0;
      s'.forwarded == s.forwarded || (s'.forwarded == s.forwarded + [r] && Justified(s, r))
  {
    assert PlaceOf(s, r.id).request == Some(r) && !PlaceOf(s, r.id).closed;
    hide PlaceOf, Park;
  }

  /** The fields a collection does not change. */
  ghost predicate SameSetting(s: State, s': State) {
    && s'.own == s.own && s'.devices == s.devices
    && s'.olmSessions == s.olmSessions && s'.groupSessions == s.groupSessions
    && s'.requests == s.requests && s'.closed == s.closed
  }

  lemma {:induction false} CollectAllForwards(s: State, qs: seq<Queued>) returns (fs: seq<KeyRequest>)
    requires AllDue(s, qs)
    decreases |qs|
    ensures CollectAll(s, qs).forwarded == s.forwarded + fs && SameSetting(s, CollectAll(s, qs))
    ensures forall r :: r in fs ==> Justified(s, r)
  {
    fs := [];
    if qs == [] {
    } else {
      StillDue(s, qs);
      var s' := CollectOne(s, qs[0]);
      assert SameSetting(s, s');
      var rest := CollectAllForwards(s', qs[1..]);
      if qs[0].Asked? {
        assert Due(s, qs[0]);
        SingleForwards(s, qs[0].request);
      }
      assert forall r :: Justified(s', r) <==> Justified(s, r);
      hide CollectOne, Justified, AllDue;
      if s'.forwarded == s.forwarded {
        fs := rest;
      } else {
        fs := [qs[0].request] + rest;
        Reassociate(s.forwarded, [qs[0].request], rest);
      }
    }
  }

  lemma CollectForwards(s: State) returns (fs: seq<KeyRequest>)
    requires Inv(s)
    ensures Collect(s).forwarded == s.forwarded + fs && Collect(s).closed == s.closed
    ensures forall r :: r in fs ==> Justified(s, r)
  {
    var s0 := s.(received := Empty());
    assert forall r :: Justified(s0, r) <==> Justified(s, r);
    hide Justified, AllDue, CollectAll, Inv;
    ReceivedAreDue(s);
    fs := CollectAllForwards(s0, Values(s.received));
  }

  lemma ContinueForwards(s: State, r: KeyRequest) returns (fs: seq<KeyRequest>)
    requires Inv(s)
    ensures Continue(s, r).0.forwarded == s.forwarded + fs && Continue(s, r).0.closed == s.closed
    ensures forall q :: q in fs ==> Justified(s, q)
  {
    var s0 := s.(untrusted := Pop(s.untrusted, r.id));
    assert forall q :: Justified(s0, q) <==> Justified(s, q);
    ContinueIsSingle(s, r);
    DropUntrusted(s, r.id);
    hide Inv, Free, Justified, Continue;
    fs := [];
    if Continue(s, r).0 != s {
      SingleForwards(s0, r);
      assert CollectSingle(s0, r).0.closed == s.closed;
      fs := if CollectSingle(s0, r).0.forwarded == s0.forwarded then [] else [r];
    }
  }

  /** Each step only adds justified answers. */
  lemma NextForwards(s: State, e: Event) returns (fs: seq<KeyRequest>)
    requires Inv(s) && Enabled(s, e)
    ensures Next(s, e).forwarded == s.forwarded + fs && s.closed <= Next(s, e).closed
    ensures forall r :: r in fs ==> Justified(s, r)
  {
    hide Inv, Justified, Collect, Continue;
    fs := [];
    match e
    case EvCollect => fs := CollectForwards(s);
    case EvContinue(r) => fs := ContinueForwards(s, r);
    case EvClaim(ks) => ClaimAllHistory(s, ks);
    case _ =>
  }

  /** Over a whole run, each request yields at most one forwarded key. */
  lemma AnsweredAtMostOnce(states: seq<State>, events: seq<Event>, n: nat, i: nat, j: nat)
    requires IsRun(states, events) && n <= |events|
    requires i < j < |states[n].forwarded|
    ensures states[n].forwarded[i].id != states[n].forwarded[j].id
  {
    RunKeepsInv(states, events, n);
  }

  /**
   * Whatever is forwarded in a step was asked for by this device of our own user, which is
   * verified at that step, and was not withdrawn before.
   */
  lemma ForwardsAreJustified(states: seq<State>, events: seq<Event>, n: nat) returns (fs: seq<KeyRequest>)
    requires IsRun(states, events) && n < |events|
    ensures states[n + 1].forwarded == states[n].forwarded + fs
    ensures forall r :: r in fs ==> Justified(states[n], r)
  {
    RunKeepsInv(states, events, n);
    fs := NextForwards(states[n], events[n]);
  }

  /** Answers to other requests do not answer this one. */
  lemma AnsweredByOthers(forwarded: seq<KeyRequest>, fs: seq<KeyRequest>, id: RequestId)
    requires forall r :: r in fs ==> r.id != id
    ensures Answered(forwarded + fs, id) <==> Answered(forwarded, id)
  {
    if r :| r in forwarded && r.id == id {
      assert r in forwarded + fs;
    }
  }

  /** A step does not answer a request that was withdrawn before. */
  lemma NextAnswersNothingClosed(s: State, e: Event, id: RequestId)
    requires Inv(s) && Enabled(s, e) && id in s.closed
    ensures id in Next(s, e).closed && (Answered(Next(s, e).forwarded, id) <==> Answered(s.forwarded, id))
  {
    var fs := NextForwards(s, e);
    forall r | r in fs ensures r.id != id {
      assert Justified(s, r);
    }
    hide Inv, Next, Answered;
    AnsweredByOthers(s.forwarded, fs, id);
  }

  lemma {:induction false} ClosedStaysClosed(states: seq<State>, events: seq<Event>, m: nat, n: nat, id: RequestId)
    requires IsRun(states, events) && m <= n <= |events|
    requires id in states[m].closed
    ensures id in states[n].closed
    ensures Answered(states[n].forwarded, id) <==> Answered(states[m].forwarded, id)
    decreases n
  {
    if m == n {
    } else {
      hide Inv, Next, Answered;
      ClosedStaysClosed(states, events, m, n - 1, id);
      RunKeepsInv(states, events, n - 1);
      NextAnswersNothingClosed(states[n - 1], events[n - 1], id);
    }
  }

  /**
   * After a cancellation that names the sender, device and id of a request received before,
   * the request is never answered any more.
   */
  lemma NoAnswerAfterCancellation(states: seq<State>, events: seq<Event>, m: nat, n: nat, c: Cancellation)
    requires IsRun(states, events) && m < n <= |events| && events[m] == EvCancellation(c)
    requires c.id in states[m].requests && states[m].requests[c.id].Key() == (c.sender, c.device)
    ensures Answered(states[n].forwarded, c.id) <==> Answered(states[m].forwarded, c.id)
  {
    assert states[m + 1] == Next(states[m], events[m]);
    ClosedStaysClosed(states, events, m + 1, n, c.id);
  }

  /** The user only sees cancellations of requests shown before. */
  lemma CancellationsFollowTheirRequests(states: seq<State>, events: seq<Event>, n: nat, j: nat)
    requires IsRun(states, events) && n <= |events|
    requires j < |states[n].shown| && states[n].shown[j].Withdrawn?
    ensures exists i :: 0 <= i < j && states[n].shown[i].Asked? && states[n].shown[i].Id() == states[n].shown[j].Id()
  {
    RunKeepsInv(states, events, n);
    var shown := states[n].shown;
    assert WasShown(shown[..j], shown[j].Id());
    var q :| q in shown[..j] && q.Asked? && q.Id() == shown[j].Id();
    var i :| 0 <= i < j && shown[..j][i] == q;
    assert shown[i] == q;
  }

  lemma {:induction false} CollectAllPlaces(s: State, qs: seq<Queued>, id: RequestId)
    requires forall i, j :: 0 <= i < j < |qs| ==> qs[i].Id() != qs[j].Id()
    decreases |qs|
    ensures (forall q :: q in qs ==> q.Id() != id) ==> PlaceOf(CollectAll(s, qs), id) == PlaceOf(s, id)
    ensures forall q :: q in qs && q.Id() == id ==> PlaceOf(CollectAll(s, qs), id) == Turn(s, q, PlaceOf(s, id))
    ensures forall q :: q in qs ==> q in CollectAll(s, qs).shown || q.Asked?
    ensures forall q :: q in s.shown ==> q in CollectAll(s, qs).shown
  {
    if qs == [] {
    } else {
      var s', rest := CollectOne(s, qs[0]), qs[1..];
      assert qs == [qs[0]] + rest;
      forall i | 0 <= i < |rest| ensures qs[0].Id() != rest[i].Id() {
        assert rest[i] == qs[i + 1];
      }
      ShownKept(s, qs[0]);
      CollectOnePlaces(s, qs[0], id);
      forall q ensures Turn(s', q, PlaceOf(s', id)) == Turn(s, q, PlaceOf(s', id)) {
        SameTurn(s, s', q, PlaceOf(s', id));
      }
      hide CollectOne, Turn, PlaceOf;
      CollectAllPlaces(s', rest, id);
    }
  }

  lemma SingleSetting(s: State, r: KeyRequest)
    ensures SameSetting(s, CollectSingle(s, r).0) && CollectSingle(s, r).0.shown == s.shown
  {
    assert Park(s, r).shown == s.shown && SameSetting(s, Park(s, r));
    hide Park, Assess;
  }

  lemma ShownGrows(s: State, q: Queued)
    ensures SameSetting(s, CollectOne(s, q))
    ensures CollectOne(s, q).shown == s.shown || CollectOne(s, q).shown == s.shown + [q]
    ensures q.Withdrawn? ==> CollectOne(s, q).shown == s.shown + [q]
  {
    if q.Asked? {
      SingleSetting(s, q.request);
    }
    hide CollectSingle, Put;
  }

  lemma ShownKept(s: State, q: Queued)
    ensures SameSetting(s, CollectOne(s, q))
    ensures forall o :: o in s.shown ==> o in CollectOne(s, q).shown
    ensures q.Withdrawn? ==> q in CollectOne(s, q).shown
  {
    ShownGrows(s, q);
    hide CollectOne;
  }

  lemma SameTurn(s: State, s': State, q: Queued, p: Place)
    requires SameSetting(s, s')
    ensures Turn(s', q, p) == Turn(s, q, p)
  {
    if q.Asked? {
      assert Assess(s', q.request) == Assess(s, q.request);
    }
    hide Assess;
  }

  /**
   * Collecting decides about every received event: a request of our own user is answered if
   * the key is there and the device verified, waits if there is no Olm session, and is shown
   * and kept if the device is not verified; all others are dropped. A cancellation is shown.
   */
  lemma CollectDecides(s: State, id: RequestId)
    requires Inv(s) && id in s.received.vals
    ensures
      var p, q := PlaceOf(Collect(s), id), s.received.vals[id];
      && p.received == None
      && match q
         case Withdrawn(c) => q in Collect(s).shown
         case Asked(r) =>
           if r.sender != s.own || Assess(s, r) == Invalid then !p.Open() && !p.answered
           else match Assess(s, r)
             case NoOlmSession => p.waiting == map[r.Key() := r] && !p.answered
             case Untrusted => p.untrusted == Some(r) && p.shown && !p.answered
             case _ => p.answered && !p.Open()
  {
    var s0, qs := s.(received := Empty()), Values(s.received);
    ReceivedAreDue(s);
    KeysAre(s.received);
    var i :| 0 <= i < |s.received.keys| && s.received.keys[i] == id;
    var q := qs[i];
    assert q == s.received.vals[id] && q in qs && Due(s0, q);
    assert PlaceOk(s.devices.Keys, id, PlaceOf(s, id)) && PlaceOf(s, id).received == Some(q);
    assert q.Id() == id;
    EmptiedPlaces(s, id);
    CollectAllPlaces(s0, qs, id);
    assert PlaceOf(Collect(s), id) == Turn(s0, q, PlaceOf(s0, id));
    if q.Asked? {
      assert PlaceOf(s0, id) == Place(None, map[], None, Some(q.request), false, false, PlaceOf(s0, id).shown);
      assert Assess(s0, q.request) == Assess(s, q.request);
      hide PlaceOf, CollectAll, Inv;
    }
  }

  lemma CollectSetting(s: State)
    requires Inv(s)
    ensures SameSetting(s, Collect(s))
  {
    ReceivedAreDue(s);
    var fs := CollectAllForwards(s.(received := Empty()), Values(s.received));
    assert SameSetting(s, s.(received := Empty()));
    hide CollectAll, Inv, AllDue;
  }

  /** A request that nothing stands in the way of is answered by the next collection. */
  lemma AnsweredAtOnce(s: State, r: KeyRequest)
    requires Inv(s) && Enabled(s, EvRequest(r)) && r.megolm && r.sender == s.own && Assess(s, r) == Forward
    ensures Answered(Collect(HandleRequest(s, r)).forwarded, r.id)
  {
    var s1 := HandleRequest(s, r);
    RequestKeepsInv(s, r);
    CollectDecides(s1, r.id);
    assert Assess(s1, r) == Assess(s, r);
    assert PlaceOf(Collect(s1), r.id).answered;
    hide Inv, Collect;
  }

  /**
   * A request that only lacks an Olm session is answered by the second collection, after a key
   * was claimed for its device.
   */
  lemma AnsweredAfterClaim(s: State, r: KeyRequest)
    requires Inv(s) && r.id in s.received.vals && s.received.vals[r.id] == Asked(r) && r.sender == s.own
    requires Assess(s, r) == NoOlmSession && s.devices[r.Key()].trust == Verified
    ensures r.Key() in Collect(s).noSession
    ensures Answered(Collect(ClaimOne(Collect(s), r.Key())).forwarded, r.id)
  {
    var k, s1, s2 := r.Key(), Collect(s), ClaimOne(Collect(s), r.Key());
    CollectDecides(s, r.id);
    CollectKeepsInv(s);
    CollectSetting(s);
    hide Collect, Release;
    assert k in s1.devices && PlaceOf(s1, r.id).waiting == map[k := r];
    WaitingIsListed(s1, k, r.id);
    ClaimKeepsInv(s1, k);
    ClaimPlaces(s1, k, r.id);
    assert PlaceOf(s2, r.id).received == Some(Asked(r));
    assert s2.own == s1.own && s2.devices == s1.devices && s2.groupSessions == s1.groupSessions by {
      ClaimSetting(s1, k);
    }
    assert s2.devices[k].curve25519 in s2.olmSessions by {
      ClaimSetting(s1, k);
    }
    hide Inv, ClaimOne;
    assert Assess(s2, r) == Forward;
    CollectDecides(s2, r.id);
  }

  lemma WaitingIsListed(s: State, k: DeviceKey, id: RequestId)
    requires DevicesOk(s) && k in PlaceOf(s, id).waiting
    ensures k in s.noSession
  {
    KeysAre(s.Waiting(k));
    assert id in s.Waiting(k).keys;
  }

  lemma ClaimSetting(s: State, k: DeviceKey)
    requires k in s.devices
    ensures
      var s' := ClaimOne(s, k);
      && s'.own == s.own && s'.devices == s.devices && s'.groupSessions == s.groupSessions
      && s.devices[k].curve25519 in s'.olmSessions
  {
  }

  /** A request of an unverified device is answered when the user continues it after verifying the device. */
  lemma AnsweredAfterVerification(s: State, r: KeyRequest)
    requires Inv(s) && r.id in s.untrusted.vals && s.untrusted.vals[r.id] == r
    ensures Assess(s, r) == Forward && r.sender == s.own ==>
              Continue(s, r).1 == Some(true) && Answered(Continue(s, r).0.forwarded, r.id)
                  && r.id !in Continue(s, r).0.untrusted.vals
    ensures Assess(s, r) == Untrusted && r.sender == s.own ==> Continue(s, r) == (s, Some(false))
  {
    AnsweredAppend(s.forwarded, r, r.id);
    hide Assess, Answered, Inv, Park;
  }

  /** Each marking of a device as wedged is one dummy message sent, or the device is still wedged. */
  ghost predicate WedgingOk(w: Wedging) {
    Distinct(w.wedged) && multiset(w.marked) == multiset(w.dummies) + multiset(w.wedged)
  }

  lemma UnwedgeKeepsOk(w: Wedging, k: DeviceKey)
    requires WedgingOk(w)
    ensures WedgingOk(Unwedge(w, k)) && k !in Unwedge(w, k).wedged && Unwedge(w, k).marked == w.marked
    ensures Unwedge(w, k).dummies == w.dummies + (if k in w.wedged then [k] else [])
  {
    if k in w.wedged {
      RemoveDistinct(w.wedged, k);
      RemoveCounts(w.wedged, k);
    }
  }

  lemma MarkKeepsOk(w: Wedging, k: DeviceKey)
    requires WedgingOk(w) && k !in w.wedged
    ensures WedgingOk(w.(wedged := w.wedged + [k], marked := w.marked + [k]))
  {
    DistinctAppend(w.wedged, k);
  }

  lemma {:induction false} ClaimAllKeepsWedging(s: State, ks: seq<DeviceKey>)
    requires WedgingOk(s.wedging)
    decreases |ks|
    ensures WedgingOk(ClaimAll(s, ks).wedging)
  {
    if ks == [] {
    } else {
      UnwedgeKeepsOk(s.wedging, ks[0]);
      hide WedgingOk, Unwedge;
      ClaimAllKeepsWedging(ClaimOne(s, ks[0]), ks[1..]);
    }
  }

  lemma {:induction false} CollectAllLeavesWedging(s: State, qs: seq<Queued>)
    decreases |qs|
    ensures CollectAll(s, qs).wedging == s.wedging
  {
    if qs == [] {
    } else {
      CollectAllLeavesWedging(CollectOne(s, qs[0]), qs[1..]);
    }
  }

  lemma NextKeepsWedging(s: State, e: Event)
    requires WedgingOk(s.wedging)
    ensures WedgingOk(Next(s, e).wedging)
  {
    hide WedgingOk;
    match e
    case EvCollect => CollectAllLeavesWedging(s.(received := Empty()), Values(s.received));
    case EvClaim(ks) => ClaimAllKeepsWedging(s, ks);
    case EvWedged(k, recent) =>
      if k !in s.wedging.wedged {
        MarkKeepsOk(s.wedging, k);
      }
    case _ =>
  }

  /**
   * Over any run a device is listed as wedged at most once, and it was sent one dummy message for
   * each time it was marked, except for the time it is listed now.
   */
  lemma OneDummyForEachMarking(states: seq<State>, events: seq<Event>, n: nat, k: DeviceKey)
    requires IsRun(states, events) && n <= |events|
    ensures
      var w := states[n].wedging;
      && Distinct(w.wedged)
      && multiset(w.marked)[k] == multiset(w.dummies)[k] + (if k in w.wedged then 1 else 0)
  {
    RunKeepsWedging(states, events, n);
    Sorting.DistinctMultiset(states[n].wedging.wedged);
  }

  lemma {:induction false} RunKeepsWedging(states: seq<State>, events: seq<Event>, n: nat)
    requires IsRun(states, events) && n <= |events|
    ensures WedgingOk(states[n].wedging)
  {
    if n == 0 {
    } else {
      hide WedgingOk, Next, Enabled;
      RunKeepsWedging(states, events, n - 1);
      NextKeepsWedging(states[n - 1], events[n - 1]);
    }
  }

  /** A properly signed key sends a dummy message exactly to a wedged device, which then is wedged no more. */
  lemma ClaimUnwedges(s: State, k: DeviceKey)
    requires WedgingOk(s.wedging) && k in s.devices
    ensures
      var w, w' := s.wedging, ClaimOne(s, k).wedging;
      && w'.dummies == w.dummies + (if k in w.wedged then [k] else [])
      && (forall j :: j in w'.wedged <==> j in w.wedged && j != k)
  {
    hide WedgingOk, ClaimOne, Remove, Distinct;
    ClaimWedging(s, k);
    WedgedOnce(s.wedging);
    UnwedgeRemoves(s.wedging, k);
  }

  lemma StillListedIff<T>(s: seq<T>, x: T, y: T)
    requires Distinct(s)
    ensures y in Remove(s, x) <==> y in s && y != x
  {
    RemoveDistinct(s, x);
  }

  lemma UnwedgeRemoves(w: Wedging, k: DeviceKey)
    requires Distinct(w.wedged)
    ensures Unwedge(w, k).dummies == w.dummies + (if k in w.wedged then [k] else [])
    ensures forall j :: j in Unwedge(w, k).wedged <==> j in w.wedged && j != k
  {
    forall j: DeviceKey ensures j in Unwedge(w, k).wedged <==> j in w.wedged && j != k {
      StillListedIff(w.wedged, k, j);
    }
  }

  lemma WedgedOnce(w: Wedging)
    requires WedgingOk(w)
    ensures Distinct(w.wedged)
  {
  }

  lemma ClaimWedging(s: State, k: DeviceKey)
    ensures ClaimOne(s, k).wedging == if k in s.devices then Unwedge(s.wedging, k) else s.wedging
  {
    hide Unwedge, Update, Widen, Remove;
  }

  /** A megolm request is queued under its id, any other is ignored, and no other request moves. */
  lemma RequestIsQueued(s: State, r: KeyRequest, id: RequestId)
    ensures
      var p, p' := PlaceOf(s, id), PlaceOf(HandleRequest(s, r), id);
      p' == if r.megolm && id == r.id then p.(received := Some(Asked(r)), request := Some(r)) else p
  {
    hide Answered, WasShown;
  }

  /** A withdrawn request waits nowhere; one that was shown leaves its cancellation to be shown; no other moves. */
  lemma CancellationMoves(s: State, c: Cancellation, id: RequestId)
    requires Inv(s)
    ensures
      var p, p' := PlaceOf(s, id), PlaceOf(HandleCancellation(s, c), id);
      && (id != c.id ==> p' == p)
      && (id == c.id ==>
            && p'.untrusted.None? && (c.sender, c.device) !in p'.waiting
            && p'.received == (if p.untrusted.Some? then Some(Withdrawn(c)) else None))
  {
    CancellationPlaces(s, c, id);
    hide HandleCancellation, PlaceOf;
  }

  /**
   * A refusal takes the request out of the queue of untrusted ones, tells whether it was there, and
   * moves nothing else.
   */
  lemma CancelMoves(s: State, id: RequestId, other: RequestId)
    ensures
      var (s', found) := Cancel(s, id);
      && (found <==> id in s.untrusted.vals)
      && s' == s.(untrusted := s'.untrusted)
      && PlaceOf(s', other) == if other == id then PlaceOf(s, id).(untrusted := None) else PlaceOf(s, other)
  {
    hide WaitingFor, Answered, WasShown;
  }

  /** Continuing another request moves nothing. */
  lemma ContinueMoves(s: State, r: KeyRequest, id: RequestId)
    ensures id != r.id ==> PlaceOf(Continue(s, r).0, id) == PlaceOf(s, id)
    ensures Get(s.untrusted.vals, r.id) != Some(r) ==> Continue(s, r) == (s, None)
  {
    if id != r.id {
      SinglePlaces(s, r, id);
      SingleKeepsUntrusted(s, r);
    }
    hide CollectSingle, WaitingFor, Answered, WasShown;
  }

  /** A request that was received and is in no queue any more. */
  ghost predicate Gone(s: State, id: RequestId) {
    var p := PlaceOf(s, id);
    p.request.Some? && p.received.None? && p.waiting == map[] && p.untrusted.None?
  }

  lemma CollectLeavesGone(s: State, id: RequestId)
    requires Inv(s) && Gone(s, id)
    ensures PlaceOf(Collect(s), id) == PlaceOf(s, id)
  {
    var s0, qs := s.(received := Empty()), Values(s.received);
    ReceivedAreDue(s);
    KeysAre(s.received);
    forall q | q in qs ensures q.Id() != id {
      var i :| 0 <= i < |qs| && qs[i] == q;
      var j := s.received.keys[i];
      assert j in s.received.vals && s.received.vals[j] == q;
      assert PlaceOk(s.devices.Keys, j, PlaceOf(s, j)) && PlaceOf(s, j).received == Some(q);
      assert q.Id() == j && id !in s.received.vals;
    }
    EmptiedPlaces(s, id);
    CollectAllPlaces(s0, qs, id);
  }

  lemma {:induction false} ClaimAllLeavesGone(s: State, ks: seq<DeviceKey>, id: RequestId)
    requires Gone(s, id)
    decreases |ks|
    ensures PlaceOf(ClaimAll(s, ks), id) == PlaceOf(s, id)
  {
    if ks == [] {
    } else {
      ClaimPlaces(s, ks[0], id);
      hide ClaimOne, PlaceOf;
      ClaimAllLeavesGone(ClaimOne(s, ks[0]), ks[1..], id);
    }
  }

  /** A request in no queue stays in none, and stays answered or not. */
  lemma NextLeavesGone(s: State, e: Event, id: RequestId)
    requires Inv(s) && Enabled(s, e) && Gone(s, id)
    ensures Gone(Next(s, e), id) && PlaceOf(Next(s, e), id).answered == PlaceOf(s, id).answered
  {
    hide Inv, HandleRequest, HandleCancellation, Collect, Continue, Cancel, ClaimAll, PlaceOf;
    match e
    case EvRequest(r) =>
      RequestIsQueued(s, r, id);
      RequestOfPlace(s, id);
    case EvCancellation(c) => CancellationPlaces(s, c, id);
    case EvCollect => CollectLeavesGone(s, id);
    case EvContinue(r) =>
      ContinueMoves(s, r, id);
      RequestOfPlace(s, id);
    case EvCancel(other) => CancelMoves(s, other, id);
    case EvClaim(ks) => ClaimAllLeavesGone(s, ks, id);
    case EvWedged(k, recent) => assert PlaceOf(Next(s, e), id) == PlaceOf(s, id) by { SamePlace(s, Next(s, e), id); }
    case EvOther(devices, olmSessions, groupSessions) =>
      assert PlaceOf(Next(s, e), id) == PlaceOf(s, id) by { SamePlace(s, Next(s, e), id); }
  }

  lemma RequestOfPlace(s: State, id: RequestId)
    ensures PlaceOf(s, id).request == Get(s.requests, id) && PlaceOf(s, id).untrusted == Get(s.untrusted.vals, id)
  {
  }

  lemma SamePlace(s: State, s': State, id: RequestId)
    requires s'.received == s.received && s'.waiting == s.waiting && s'.untrusted == s.untrusted
    requires s'.requests == s.requests && s'.closed == s.closed && s'.forwarded == s.forwarded && s'.shown == s.shown
    ensures PlaceOf(s', id) == PlaceOf(s, id)
  {
  }

  /**
   * A refused request is never answered afterwards, and is in no queue any more: over any run, from
   * the step on with which the user refused a request that was shown.
   */
  lemma {:induction false} NoAnswerAfterRefusal(states: seq<State>, events: seq<Event>, m: nat, n: nat, id: RequestId)
    requires IsRun(states, events) && m < n <= |events|
    requires events[m] == EvCancel(id) && id in states[m].untrusted.vals
    ensures Answered(states[n].forwarded, id) <==> Answered(states[m].forwarded, id)
    ensures id !in states[n].received.vals && id !in states[n].untrusted.vals
    ensures forall k :: k in states[n].waiting ==> id !in states[n].waiting[k].vals
    ensures Gone(states[n], id)
    decreases n
  {
    if n == m + 1 {
      RunKeepsInv(states, events, m);
      assert states[n] == Next(states[m], events[m]);
      var p := PlaceOf(states[m], id);
      assert PlaceOk(states[m].devices.Keys, id, p) && p.untrusted.Some?;
      CancelMoves(states[m], id, id);
      hide Inv, Next;
    } else {
      NoAnswerAfterRefusal(states, events, m, n - 1, id);
      RunKeepsInv(states, events, n - 1);
      hide Inv, Next;
      NextLeavesGone(states[n - 1], events[n - 1], id);
    }
    NowhereListed(states[n], id);
  }

  lemma NowhereListed(s: State, id: RequestId)
    requires Gone(s, id)
    ensures id !in s.received.vals && id !in s.untrusted.vals
    ensures forall k :: k in s.waiting ==> id !in s.waiting[k].vals
  {
    forall k | k in s.waiting && id in s.waiting[k].vals ensures k in WaitingFor(s.waiting, id) {
    }
  }

  /** A known device is marked as wedged exactly if its newest session is not recent; then it is listed once. */
  lemma MarkMeans(s: State, k: DeviceKey, recent: bool)
    ensures
      var s' := MarkWedged(s, k, recent);
      && s' == s.(wedging := s'.wedging) && s'.wedging.dummies == s.wedging.dummies
      && (k in s'.wedging.wedged <==> k in s.wedging.wedged || (k in s.devices && !recent))
      && (forall j :: j != k ==> (j in s'.wedging.wedged <==> j in s.wedging.wedged))
  {
  }
}
