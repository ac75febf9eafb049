/**
 * The device store: Olm devices keyed by user and device id, in the order in which they
 * were added.
 */
module Devices {
  import opened Wrappers
  import opened Sequences
  import opened Dicts

  type UserId = string
  type DeviceId = string
  type DeviceKey = (UserId, DeviceId)

  datatype TrustState = Unset | Verified | Blacklisted | Ignored

  /** An `OlmDevice`; the pair of user and device id it belongs to is its key in the store. */
  datatype OlmDevice = OlmDevice(
    ed25519: string, curve25519: string, displayName: string, deleted: bool, trust: TrustState)

  type DeviceTable = Dict<DeviceKey, OlmDevice>

  function Get<K, V>(m: map<K, V>, k: K): Option<V> {
    if k in m then Some(m[k]) else None
  }

  predicate IsActive(t: DeviceTable, k: DeviceKey) {
    k in t.vals && !t.vals[k].deleted
  }

  /** `active_user_devices`: a user's devices that are not deleted. */
  function ActiveDevices(t: DeviceTable, u: UserId): seq<DeviceKey> {
    Filter((k: DeviceKey) => k.0 == u && IsActive(t, k), t.keys)
  }

  lemma ActiveDevicesAre(t: DeviceTable, u: UserId)
    ensures forall k :: k in ActiveDevices(t, u) <==> k.0 == u && IsActive(t, k)
    ensures Distinct(ActiveDevices(t, u))
  {
    FilterDistinct((k: DeviceKey) => k.0 == u && IsActive(t, k), t.keys);
    KeysAre(t);
  }
}

/** What a `/keys/query` response does to the device store. */
module KeyQuery {
  import opened Wrappers
  import opened Sequences
  import opened Dicts
  import opened Devices

  /**
   * The keys one device claims to have. A key is None when the payload lacks it; `signed`
   * says whether the payload carries a valid signature of its own signing key.
   */
  datatype KeyPayload = KeyPayload(
    userId: UserId, deviceId: DeviceId, ed25519: Option<string>, curve25519: Option<string>,
    displayName: string, signed: bool)

  type Answer = Dict<DeviceId, KeyPayload>

  /** A payload that survives the checks ahead of the store lookup. */
  predicate Acceptable(own: DeviceKey, k: DeviceKey, p: KeyPayload) {
    && k != own
    && p.userId == k.0 && p.deviceId == k.1
    && p.ed25519.Some? && p.curve25519.Some?
    && p.signed
  }

  /** The record of one device that the response mentions. */
  function Absorbed(own: DeviceKey, k: DeviceKey, before: Option<OlmDevice>, p: KeyPayload): Option<OlmDevice> {
    if !Acceptable(own, k, p) then before
    else match before
      case None => Some(OlmDevice(p.ed25519.value, p.curve25519.value, p.displayName, false, Unset))
      case Some(d) =>
        if d.ed25519 != p.ed25519.value then before
        else if d.curve25519 != p.curve25519.value then Some(d.(curve25519 := p.curve25519.value))
        else Some(d.(displayName := p.displayName))
  }

  /** The record of any device after the whole response: the reference for the nested loops. */
  function RecordAfter(own: DeviceKey, response: map<UserId, Answer>, k: DeviceKey,
                       before: Option<OlmDevice>): Option<OlmDevice> {
    if k.0 !in response then before
    else if k.1 in response[k.0].vals then Absorbed(own, k, before, response[k.0].vals[k.1])
    else match before
      case None => None
      case Some(d) => Some(d.(deleted := true))
  }

  /** `changed` holds exactly the records that differ between two device maps, with their new value. */
  ghost predicate IsDiff(changed: map<DeviceKey, OlmDevice>, before: map<DeviceKey, OlmDevice>,
                         after: map<DeviceKey, OlmDevice>) {
    && (forall k :: k in changed <==> Get(before, k) != Get(after, k))
    && (forall k :: k in changed ==> Get(after, k) == Some(changed[k]))
  }

  ghost predicate QueryStep(own: DeviceKey, response: map<UserId, Answer>, before: map<DeviceKey, OlmDevice>,
                            after: map<DeviceKey, OlmDevice>) {
    forall k :: Get(after, k) == RecordAfter(own, response, k, Get(before, k))
  }

  /** After a response only devices it mentions are active for the users it answers. */
  lemma AnsweredUsersActive(own: DeviceKey, response: map<UserId, Answer>, before: map<DeviceKey, OlmDevice>,
                            after: map<DeviceKey, OlmDevice>, k: DeviceKey)
    requires QueryStep(own, response, before, after)
    requires k.0 in response && k in after && !after[k].deleted
    ensures k.1 in response[k.0].vals
    ensures k !in before ==> Acceptable(own, k, response[k.0].vals[k.1])
  {
    assert Get(after, k) == RecordAfter(own, response, k, Get(before, k));
  }

  /**
   * Over any run of responses a stored device stays stored, keeps its fingerprint key and
   * its trust state, and stays deleted once it is deleted.
   */
  lemma {:induction false} FingerprintsNeverChange(own: DeviceKey, responses: seq<map<UserId, Answer>>,
                                                   stores: seq<map<DeviceKey, OlmDevice>>, k: DeviceKey)
    requires |stores| == |responses| + 1
    requires forall i :: 0 <= i < |responses| ==> QueryStep(own, responses[i], stores[i], stores[i + 1])
    requires k in stores[0]
    ensures var last := stores[|responses|];
      && k in last
      && last[k].ed25519 == stores[0][k].ed25519 && last[k].trust == stores[0][k].trust
      && (stores[0][k].deleted ==> last[k].deleted)
  {
    var n := |responses|;
    if n == 0 {
    } else {
      FingerprintsNeverChange(own, responses[..n - 1], stores[..n], k);
      assert QueryStep(own, responses[n - 1], stores[n - 1], stores[n]);
      assert Get(stores[n], k) == RecordAfter(own, responses[n - 1], k, Get(stores[n - 1], k));
    }
  }

  /**
   * An acceptable payload decides the keys of its device, unless the device is known under
   * another fingerprint key, which leaves it alone; a rejected payload changes nothing.
   */
  lemma PayloadDecidesKeys(own: DeviceKey, response: map<UserId, Answer>, before: map<DeviceKey, OlmDevice>,
                           after: map<DeviceKey, OlmDevice>, k: DeviceKey)
    requires QueryStep(own, response, before, after)
    requires k.0 in response && k.1 in response[k.0].vals
    ensures
      var p := response[k.0].vals[k.1];
      && (!Acceptable(own, k, p) ==> Get(after, k) == Get(before, k))
      && (Acceptable(own, k, p) ==>
            k in after && if k in before && before[k].ed25519 != p.ed25519.value then after[k] == before[k]
                          else after[k].ed25519 == p.ed25519.value && after[k].curve25519 == p.curve25519.value)
      && (Acceptable(own, k, p) && k !in before ==> after[k].trust == Unset && !after[k].deleted)
  {
    assert Get(after, k) == RecordAfter(own, response, k, Get(before, k));
  }

  /**
   * What a response does to one record. A device of a user who is not answered, and one whose
   * payload is rejected or gives another fingerprint key, keeps it. Of a stored device an accepted
   * payload replaces the curve key if it gives another one, and else the display name, and
   * nothing more. A stored device that an answer lacks is deleted, and nothing more. A new
   * device comes with the keys and the name of its payload, active and without trust.
   */
  lemma QueryDecides(own: DeviceKey, response: map<UserId, Answer>, before: map<DeviceKey, OlmDevice>,
                     after: map<DeviceKey, OlmDevice>, k: DeviceKey)
    requires QueryStep(own, response, before, after)
    ensures k.0 !in response ==> Get(after, k) == Get(before, k)
    ensures k in before ==>
              k in after && after[k].ed25519 == before[k].ed25519 && after[k].trust == before[k].trust
              && (after[k].deleted <==> before[k].deleted || (k.0 in response && k.1 !in response[k.0].vals))
    ensures k in before && k.0 in response && k.1 !in response[k.0].vals ==>
              after[k].curve25519 == before[k].curve25519 && after[k].displayName == before[k].displayName
    ensures k.0 in response && k.1 in response[k.0].vals ==>
              var p := response[k.0].vals[k.1];
              if k == own || (p.userId, p.deviceId) != k || p.ed25519.None? || p.curve25519.None? || !p.signed
                 || (k in before && before[k].ed25519 != p.ed25519.value)
              then Get(after, k) == Get(before, k)
              else
                && k in after && after[k].curve25519 == p.curve25519.value
                && (if k in before && before[k].curve25519 != p.curve25519.value
                    then after[k].displayName == before[k].displayName
                    else after[k].displayName == p.displayName)
    ensures k !in before && k in after ==>
              && k.0 in response && k.1 in response[k.0].vals && response[k.0].vals[k.1].signed
              && Some(after[k].ed25519) == response[k.0].vals[k.1].ed25519
              && !after[k].deleted && after[k].trust == Unset
  {
    assert Get(after, k) == RecordAfter(own, response, k, Get(before, k));
  }

  /**
   * Over any run of responses a stored device ends up deleted exactly if it was at the start, or
   * some answer for its user lacks it.
   */
  lemma {:induction false} DeletedIffLacking(own: DeviceKey, responses: seq<map<UserId, Answer>>,
                                             stores: seq<map<DeviceKey, OlmDevice>>, k: DeviceKey)
    requires |stores| == |responses| + 1
    requires forall i :: 0 <= i < |responses| ==> QueryStep(own, responses[i], stores[i], stores[i + 1])
    requires k in stores[0]
    ensures var last := stores[|responses|];
      && k in last
      && (last[k].deleted <==>
            || stores[0][k].deleted
            || exists i :: 0 <= i < |responses| && k.0 in responses[i] && k.1 !in responses[i][k.0].vals)
  {
    var n := |responses|;
    if n == 0 {
    } else {
      DeletedIffLacking(own, responses[..n - 1], stores[..n], k);
      assert QueryStep(own, responses[n - 1], stores[n - 1], stores[n]);
      QueryDecides(own, responses[n - 1], stores[n - 1], stores[n], k);
      hide QueryStep;
      var rs := responses[..n - 1];
      if i :| 0 <= i < n && k.0 in responses[i] && k.1 !in responses[i][k.0].vals {
        assert i < n - 1 ==> rs[i] == responses[i];
      }
      if i :| 0 <= i < n - 1 && k.0 in rs[i] && k.1 !in rs[i][k.0].vals {
        assert rs[i] == responses[i];
      }
    }
  }

  lemma SameElsewhere<K, V>(m: map<K, V>, m': map<K, V>, k: K)
    requires m - {k} == m' - {k}
    ensures forall j :: j != k ==> Get(m, j) == Get(m', j)
  {
    forall j | j != k ensures Get(m, j) == Get(m', j) {
      assert j in m <==> j in m - {k};
      assert j in m' <==> j in m' - {k};
      assert j in m ==> m[j] == (m - {k})[j] == m'[j];
    }
  }

  lemma DiffAfterUpdate(changed: map<DeviceKey, OlmDevice>, before: map<DeviceKey, OlmDevice>,
                        earlier: map<DeviceKey, OlmDevice>, later: map<DeviceKey, OlmDevice>, k: DeviceKey)
    requires IsDiff(changed, before, earlier) && Get(before, k) == Get(earlier, k)
    requires earlier - {k} == later - {k} && k in later
    requires Get(later, k) != Get(earlier, k)
    ensures IsDiff(changed[k := later[k]], before, later)
  {
    SameElsewhere(earlier, later, k);
  }

  /** Half way through one user's answer: the ids in `seen` are absorbed, everything else is as at the start. */
  ghost predicate PartlyAbsorbed(own: DeviceKey, u: UserId, answer: map<DeviceId, KeyPayload>, seen: set<DeviceId>,
                                 start: map<DeviceKey, OlmDevice>, now: map<DeviceKey, OlmDevice>) {
    && seen <= answer.Keys
    && (forall k: DeviceKey ::
          Get(now, k) == if k.0 == u && k.1 in seen then Absorbed(own, k, Get(start, k), answer[k.1])
                         else Get(start, k))
  }

  lemma AbsorbNext(own: DeviceKey, u: UserId, answer: map<DeviceId, KeyPayload>, seen: set<DeviceId>, id: DeviceId,
                   start: map<DeviceKey, OlmDevice>, now: map<DeviceKey, OlmDevice>, next: map<DeviceKey, OlmDevice>)
    requires PartlyAbsorbed(own, u, answer, seen, start, now) && id in answer && id !in seen
    requires now - {(u, id)} == next - {(u, id)}
    requires Get(next, (u, id)) == Absorbed(own, (u, id), Get(now, (u, id)), answer[id])
    ensures PartlyAbsorbed(own, u, answer, seen + {id}, start, next)
    ensures Get(now, (u, id)) == Get(start, (u, id))
  {
    SameElsewhere(now, next, (u, id));
  }

  /** For a user's own devices only that user's answer matters. */
  lemma RecordOfOneUser(own: DeviceKey, response: map<UserId, Answer>, u: UserId)
    requires u in response
    ensures forall k: DeviceKey, before ::
              k.0 == u ==> RecordAfter(own, map[u := response[u]], k, before) == RecordAfter(own, response, k, before)
  {
  }

  class KeyQueryHandler {
    const own: DeviceKey
    var devices: DeviceTable
    var usersForKeyQuery: set<UserId>
    var trackedUsers: set<UserId>

    constructor (own: DeviceKey, devices: DeviceTable)
      ensures this.own == own && this.devices == devices && usersForKeyQuery == {} && trackedUsers == {}
    {
      this.own, this.devices := own, devices;
      usersForKeyQuery, trackedUsers := {}, {};
    }

    /** One round of the inner loop: absorb one payload, and note the record when it changed. */
    method AbsorbPayload(k: DeviceKey, p: KeyPayload, changed: map<DeviceKey, OlmDevice>)
      returns (changed': map<DeviceKey, OlmDevice>)
      modifies this`devices
      ensures Get(devices.vals, k) == Absorbed(own, k, Get(old(devices.vals), k), p)
      ensures devices.vals - {k} == old(devices.vals) - {k}
      ensures devices.vals == old(devices.vals) ==> changed' == changed
      ensures devices.vals != old(devices.vals) ==>
                Get(devices.vals, k) != Get(old(devices.vals), k) && changed' == changed[k := devices.vals[k]]
    {
      changed' := changed;
      if k == own {
        return;
      }
      if p.userId != k.0 || p.deviceId != k.1 {
        return;
      }
      if p.ed25519.None? || p.curve25519.None? {
        return;
      }
      if !p.signed {
        return;
      }
      var signingKey, curveKey := p.ed25519.value, p.curve25519.value;
      if k !in devices.vals {
        devices := Put(devices, k, OlmDevice(signingKey, curveKey, p.displayName, false, Unset));
      } else {
        var device := devices.vals[k];
        if device.ed25519 != signingKey {
          return;
        }
        if device.curve25519 == curveKey && device.displayName == p.displayName {
          return;
        }
        if device.curve25519 != curveKey {
          devices := Put(devices, k, device.(curve25519 := curveKey));
        } else if device.displayName != p.displayName {
          devices := Put(devices, k, device.(displayName := p.displayName));
        }
      }
      changed' := changed'[k := devices.vals[k]];
    }

    /** The inner loop: absorb the devices one user's answer mentions. */
    method AbsorbAnswer(u: UserId, answer: Answer, ghost before: map<DeviceKey, OlmDevice>,
                        changed: map<DeviceKey, OlmDevice>)
      returns (changed': map<DeviceKey, OlmDevice>)
      requires IsDiff(changed, before, devices.vals)
      requires forall k: DeviceKey :: k.0 == u ==> Get(devices.vals, k) == Get(before, k)
      modifies this`devices
      ensures IsDiff(changed', before, devices.vals)
      ensures forall k: DeviceKey ::
                Get(devices.vals, k) ==
                if k.0 == u && k.1 in answer.vals then Absorbed(own, k, Get(before, k), answer.vals[k.1])
                else Get(old(devices.vals), k)
    {
      changed' := changed;
      var i := 0;
      while i < |answer.keys|
        invariant 0 <= i <= |answer.keys|
        invariant IsDiff(changed', before, devices.vals)
        invariant PartlyAbsorbed(own, u, answer.vals, Elems(answer.keys[..i]), old(devices.vals), devices.vals)
      {
        var id := answer.keys[i];
        DistinctNext(answer.keys, i);
        KeysAre(answer);
        ghost var seen := Elems(answer.keys[..i]);
        assert id !in seen && seen + {id} == Elems(answer.keys[..i + 1]);
        hide IsDiff, Absorbed, Elems, PartlyAbsorbed;
        ghost var earlier := devices.vals;
        ghost var noted := changed';
        changed' := AbsorbPayload((u, id), answer.vals[id], changed');
        AbsorbNext(own, u, answer.vals, seen, id, old(devices.vals), earlier, devices.vals);
        if devices.vals != earlier {
          DiffAfterUpdate(noted, before, earlier, devices.vals, (u, id));
        }
        i := i + 1;
      }
      assert answer.keys[..i] == answer.keys;
    }

    /** The devices of an answered user that the answer does not mention are marked as deleted. */
    method MarkDeleted(u: UserId, current: set<DeviceId>, ghost before: map<DeviceKey, OlmDevice>,
                       changed: map<DeviceKey, OlmDevice>)
      returns (changed': map<DeviceKey, OlmDevice>)
      requires IsDiff(changed, before, devices.vals)
      requires forall k: DeviceKey :: k.0 == u && k.1 !in current ==> Get(devices.vals, k) == Get(before, k)
      modifies this`devices
      ensures IsDiff(changed', before, devices.vals)
      ensures forall k: DeviceKey ::
                Get(devices.vals, k) ==
                if k.0 == u && k.1 !in current && k in old(devices.vals)
                then Some(old(devices.vals)[k].(deleted := true))
                else Get(old(devices.vals), k)
    {
      hide IsDiff;
      changed' := changed;
      ghost var start := devices.vals;
      var stale := set k | k in devices.vals && k.0 == u && IsActive(devices, k) && k.1 !in current;
      var todo := stale;
      while todo != {}
        invariant todo <= stale
        invariant IsDiff(changed', before, devices.vals)
        invariant forall k: DeviceKey ::
                    Get(devices.vals, k) ==
                    if k in stale && k !in todo then Some(start[k].(deleted := true)) else Get(start, k)
      {
        var k :| k in todo;
        assert Get(devices.vals, k) == Get(start, k) == Get(before, k);
        ghost var earlier := devices.vals;
        ghost var noted := changed';
        var device := devices.vals[k].(deleted := true);
        devices := Put(devices, k, device);
        changed' := changed'[k := device];
        DiffAfterUpdate(noted, before, earlier, devices.vals, k);
        todo := todo - {k};
      }
    }

    /** The devices of one answered user: absorb what is there, mark as deleted what is missing. */
    method ReconcileUser(u: UserId, answer: Answer, ghost before: map<DeviceKey, OlmDevice>,
                         changed: map<DeviceKey, OlmDevice>)
      returns (changed': map<DeviceKey, OlmDevice>)
      requires IsDiff(changed, before, devices.vals)
      requires forall k: DeviceKey :: k.0 == u ==> Get(devices.vals, k) == Get(before, k)
      modifies this`devices
      ensures IsDiff(changed', before, devices.vals)
      ensures forall k: DeviceKey ::
                Get(devices.vals, k) ==
                if k.0 == u then RecordAfter(own, map[u := answer], k, Get(before, k)) else Get(old(devices.vals), k)
    {
      hide IsDiff, Absorbed;
      changed' := AbsorbAnswer(u, answer, before, changed);
      changed' := MarkDeleted(u, answer.vals.Keys, before, changed');
    }

    /** `_handle_key_query`: the loop over the answered users; `changed` ends up in the response. */
    method HandleKeyQuery(response: Dict<UserId, Answer>) returns (changed: map<DeviceKey, OlmDevice>)
      modifies this
      ensures forall k :: Get(devices.vals, k) == RecordAfter(own, response.vals, k, Get(old(devices.vals), k))
      ensures IsDiff(changed, old(devices.vals), devices.vals)
      ensures usersForKeyQuery == old(usersForKeyQuery) - response.vals.Keys
      ensures trackedUsers == old(trackedUsers) + response.vals.Keys
    {
      changed := map[];
      ghost var before := devices.vals;
      var i := 0;
      while i < |response.keys|
        invariant 0 <= i <= |response.keys|
        invariant IsDiff(changed, before, devices.vals)
        invariant forall k: DeviceKey ::
                    Get(devices.vals, k) ==
                    if k.0 in response.keys[..i] then RecordAfter(own, response.vals, k, Get(before, k))
                    else Get(before, k)
        invariant usersForKeyQuery == old(usersForKeyQuery) - Elems(response.keys[..i])
        invariant trackedUsers == old(trackedUsers) + Elems(response.keys[..i])
      {
        var u := response.keys[i];
        DistinctNext(response.keys, i);
        KeysAre(response);
        hide IsDiff, RecordAfter;
        usersForKeyQuery := usersForKeyQuery - {u};
        trackedUsers := trackedUsers + {u};
        changed := ReconcileUser(u, response.vals[u], before, changed);
        RecordOfOneUser(own, response.vals, u);
        i := i + 1;
      }
      assert response.keys[..i] == response.keys;
      KeysAre(response);
    }
  }
}
