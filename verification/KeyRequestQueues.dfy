/** The object that holds the key request queues; its methods do what the functions of KeyRequests say. */
module KeyRequestQueues {
  import opened Wrappers
  import opened Sequences
  import opened Dicts
  import opened Devices
  import opened KeyRequests

  /** The exceptions of `share_with_ourselves`. */
  datatype ShareError = KeyShareError | EncryptionError | OlmTrustError

  class Queues {
    const own: UserId
    var devices: map<DeviceKey, OlmDevice>
    var olmSessions: set<string>
    var groupSessions: set<SessionKey>
    var received: Dict<RequestId, Queued>
    var waiting: map<DeviceKey, Bucket>
    var noSession: seq<DeviceKey>
    var untrusted: Bucket
    var outgoing: seq<KeyRequest>              // the forwarded keys among the outgoing to-device messages
    ghost var requests: map<RequestId, KeyRequest>
    ghost var closed: set<RequestId>
    ghost var shown: seq<Queued>
    var wedged: seq<DeviceKey>
    var dummies: seq<DeviceKey>                // the recipients of dummy messages among the outgoing ones
    ghost var marked: seq<DeviceKey>

    constructor (own: UserId)
      ensures Initial(View()) && this.own == own
    {
      this.own := own;
      devices, olmSessions, groupSessions := map[], {}, {};
      received, waiting, noSession, untrusted, outgoing := Empty(), map[], [], Empty(), [];
      requests, closed, shown := map[], {}, [];
      wedged, dummies, marked := [], [], [];
    }

    ghost function View(): State
      reads this
    {
      State(own, devices, olmSessions, groupSessions, received, waiting, noSession, untrusted, requests, closed,
          outgoing, shown, Wedging(wedged, marked, dummies))
    }

    method HandleKeyRequest(r: KeyRequest)
      modifies this`received, this`requests
      ensures View() == HandleRequest(old(View()), r)
    {
      if r.megolm {
        received := Put(received, r.id, Asked(r));
        requests := requests[r.id := r];
      }
    }

    method HandleKeyRequestCancellation(c: Cancellation)
      modifies this`received, this`waiting, this`noSession, this`untrusted, this`closed
      ensures View() == HandleCancellation(old(View()), c)
    {
      hide StopWaiting, StopVerifying;
      received := Pop(received, c.id);
      StopWaitingFor((c.sender, c.device), c.id);
      StopVerifyingFor(c);
      if c.id in requests && requests[c.id].Key() == (c.sender, c.device) {
        closed := closed + {c.id};
      }
    }

    method StopWaitingFor(key: DeviceKey, id: RequestId)
      modifies this`waiting, this`noSession
      ensures View() == StopWaiting(old(View()), key, id)
    {
      waiting := waiting[key := Pop(if key in waiting then waiting[key] else Empty(), id)];
      if waiting[key].keys == [] {
        if key in devices {
          noSession := Remove(noSession, key);
        }
      }
    }

    method StopVerifyingFor(c: Cancellation)
      modifies this`received, this`untrusted
      ensures View() == StopVerifying(old(View()), c)
    {
      if c.id in untrusted.vals {
        untrusted := Pop(untrusted, c.id);
        received := Put(received, c.id, Withdrawn(c));
      }
    }

    method ShareWithOurselves(r: KeyRequest) returns (error: Option<ShareError>)
      modifies this`noSession, this`waiting, this`outgoing
      ensures
        match Assess(old(View()), r)
        case Invalid => error == Some(KeyShareError) && View() == old(View())
        case NoOlmSession => error == Some(EncryptionError) && View() == Park(old(View()), r)
        case Untrusted => error == Some(OlmTrustError) && View() == old(View())
        case Forward => error == None && View() == old(View()).(forwarded := old(outgoing) + [r])
    {
      if r.session !in groupSessions {
        return Some(KeyShareError);
      }
      if r.Key() !in devices {
        return Some(KeyShareError);
      }
      var device := devices[r.Key()];
      if device.curve25519 !in olmSessions {
        if r.Key() !in noSession {
          noSession := noSession + [r.Key()];
        }
        waiting := waiting[r.Key() := Put(if r.Key() in waiting then waiting[r.Key()] else Empty(), r.id, r)];
        return Some(EncryptionError);
      }
      if device.trust != Verified {
        return Some(OlmTrustError);
      }
      outgoing := outgoing + [r];
      return None;
    }

    method CollectSingleKeyShare(r: KeyRequest) returns (done: bool)
      modifies this`noSession, this`waiting, this`outgoing
      ensures (View(), done) == CollectSingle(old(View()), r)
    {
      if r.sender == own {
        var error := ShareWithOurselves(r);
        if error == Some(OlmTrustError) {
          return false;
        }
      }
      return true;
    }

    /** One round of the loop: what it adds to the events for the user. */
    method CollectEvent(event: Queued) returns (events: seq<Queued>)
      modifies this`noSession, this`waiting, this`outgoing, this`untrusted, this`shown
      ensures View() == CollectOne(old(View()), event)
      ensures shown == old(shown) + events
    {
      hide CollectSingle, Put;
      events := [];
      if event.Withdrawn? {
        events, shown := [event], shown + [event];
      } else {
        var done := CollectSingleKeyShare(event.request);
        if !done {
          untrusted := Put(untrusted, event.request.id, event.request);
          events, shown := [event], shown + [event];
        }
      }
    }

    /** `collect_key_requests`: also returns the events for the user. */
    method CollectKeyRequests() returns (events: seq<Queued>)
      modifies this
      ensures View() == Collect(old(View()))
      ensures shown == old(shown) + events
    {
      hide CollectOne, CollectAll, CollectRest;
      events := [];
      var queue := Values(received);
      CollectStarts(View(), queue);
      var i := 0;
      while i < |queue|
        invariant 0 <= i <= |queue|
        invariant CollectRest(View(), queue, i) == Collect(old(View()))
        invariant shown == old(shown) + events
      {
        var event := queue[i];
        CollectNext(View(), queue, i);
        var shows := CollectEvent(event);
        events := events + shows;
        i := i + 1;
      }
      CollectEnds(View(), queue);
      received := Empty();
    }

    method ContinueKeyShare(r: KeyRequest) returns (done: Option<bool>)
      modifies this`noSession, this`waiting, this`outgoing, this`untrusted
      ensures (View(), done) == Continue(old(View()), r)
    {
      if r.id !in untrusted.vals || untrusted.vals[r.id] != r {
        return None;
      }
      var event := untrusted.vals[r.id];
      var ok := CollectSingleKeyShare(event);
      if !ok {
        return Some(false);
      }
      untrusted := Pop(untrusted, event.id);
      return Some(true);
    }

    method CancelKeyShare(r: KeyRequest) returns (found: bool)
      modifies this`untrusted
      ensures (View(), found) == Cancel(old(View()), r.id)
    {
      found := r.id in untrusted.vals;
      untrusted := Pop(untrusted, r.id);
    }

    /** `_mark_device_for_unwedging` for the device a sender key belongs to, if there is one. */
    method MarkDeviceForUnwedging(k: DeviceKey, recent: bool)
      modifies this`wedged, this`marked
      ensures View() == MarkWedged(old(View()), k, recent)
    {
      if k !in devices || recent {
        return;
      }
      if k !in wedged {
        wedged, marked := wedged + [k], marked + [k];
      }
    }

    /** One device of a key claim response; `signed` says whether its one-time key carries a valid signature. */
    method HandleClaimedKey(k: DeviceKey, signed: bool)
      modifies this`olmSessions, this`noSession, this`waiting, this`received, this`wedged, this`dummies
      ensures View() == if signed then ClaimOne(old(View()), k) else old(View())
    {
      if k !in devices {
        return;
      }
      hide Release;
      if signed {
        olmSessions := olmSessions + {devices[k].curve25519};
        if k in wedged {
          wedged := Remove(wedged, k);
          dummies := dummies + [k];
        }
        if k in noSession {
          ReleaseWaiting(k);
        }
      }
    }

    /**
     * The nested loops over the users and devices of a key claim response; the flag says whether
     * a key is signed properly.
     */
    method HandleKeyClaiming(response: seq<(DeviceKey, bool)>)
      modifies this`olmSessions, this`noSession, this`waiting, this`received, this`wedged, this`dummies
      ensures View() == ClaimAll(old(View()), SignedOf(response))
    {
      hide ClaimOne, ClaimAll, SignedOf;
      ClaimStarts(View(), response);
      for i := 0 to |response|
        invariant ClaimRest(View(), response, i) == old(ClaimRest(View(), response, 0))
      {
        ClaimNext(View(), response, i);
        HandleClaimedKey(response[i].0, response[i].1);
      }
      ClaimEnds(View(), response);
    }

    method ReleaseWaiting(k: DeviceKey)
      modifies this`noSession, this`waiting, this`received
      ensures View() == Release(old(View()), k)
    {
      noSession := Remove(noSession, k);
      var events := if k in waiting then waiting[k] else Empty();
      waiting := waiting - {k};
      received := Update(received, Widen(events));
    }
  }

  lemma ParkIgnoresReceived(s: State, r: KeyRequest)
    ensures Park(s.(received := Empty()), r) == Park(s, r).(received := Empty())
  {
    hide Put;
  }

  lemma SingleIgnoresReceived(s: State, r: KeyRequest)
    ensures CollectSingle(s.(received := Empty()), r) ==
            (CollectSingle(s, r).0.(received := Empty()), CollectSingle(s, r).1)
  {
    hide Park, Assess;
    ParkIgnoresReceived(s, r);
    AssessIgnoresReceived(s, r);
  }

  lemma AssessIgnoresReceived(s: State, r: KeyRequest)
    ensures Assess(s.(received := Empty()), r) == Assess(s, r)
  {
  }

  /** What is still to be done from the i-th received event on; the queue itself is emptied at the end. */
  ghost function CollectRest(s: State, queue: seq<Queued>, i: nat): State {
    CollectAll(s.(received := Empty()), if i <= |queue| then queue[i..] else [])
  }

  lemma CollectStarts(s: State, queue: seq<Queued>)
    requires queue == Values(s.received)
    ensures CollectRest(s, queue, 0) == Collect(s)
  {
    assert queue[0..] == queue;
  }

  lemma CollectNext(s: State, queue: seq<Queued>, i: nat)
    requires i < |queue|
    ensures CollectRest(s, queue, i) == CollectRest(CollectOne(s, queue[i]), queue, i + 1)
  {
    hide CollectSingle, Put;
    assert queue[i..][0] == queue[i] && queue[i..][1..] == queue[i + 1..];
    if queue[i].Asked? {
      SingleIgnoresReceived(s, queue[i].request);
    }
    assert CollectOne(s.(received := Empty()), queue[i]) == CollectOne(s, queue[i]).(received := Empty());
  }

  lemma CollectEnds(s: State, queue: seq<Queued>)
    ensures CollectRest(s, queue, |queue|) == s.(received := Empty())
  {
  }

  /** The devices of a response whose keys are signed properly. */
  function SignedOf(response: seq<(DeviceKey, bool)>): seq<DeviceKey> {
    if response == [] then []
    else (if response[0].1 then [response[0].0] else []) + SignedOf(response[1..])
  }

  /** What is still to be done from the i-th device of a response on. */
  ghost function ClaimRest(s: State, response: seq<(DeviceKey, bool)>, i: nat): State {
    ClaimAll(s, SignedOf(if i <= |response| then response[i..] else []))
  }

  lemma ClaimStarts(s: State, response: seq<(DeviceKey, bool)>)
    ensures ClaimRest(s, response, 0) == ClaimAll(s, SignedOf(response))
  {
    assert response[0..] == response;
  }

  lemma ClaimNext(s: State, response: seq<(DeviceKey, bool)>, i: nat)
    requires i < |response|
    ensures ClaimRest(s, response, i)
        == ClaimRest(if response[i].1 then ClaimOne(s, response[i].0) else s, response, i + 1)
  {
    var ks := SignedOf(response[i..]);
    assert response[i..][0] == response[i] && response[i..][1..] == response[i + 1..];
    if response[i].1 {
      assert ks[0] == response[i].0 && ks[1..] == SignedOf(response[i + 1..]);
    } else {
      assert ks == SignedOf(response[i + 1..]);
    }
    hide ClaimOne;
  }

  lemma ClaimEnds(s: State, response: seq<(DeviceKey, bool)>)
    ensures ClaimRest(s, response, |response|) == s
  {
  }
}
