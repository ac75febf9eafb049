/** What every call on a `Sas` object keeps. */
module SasSafety {
  import opened Wrappers
  import opened Sequences
  import opened SasMachine
  import Sorting

  ghost predicate Inv(c: Crypto, m: Machine) {
    && (m.state == Canceled ==> m.cancelCode != "" && m.cancelReason != "")
    && (m.sasAccepted ==> m.secret.Some?)
    && (m.state == KeyReceived || m.state == MacReceived ==> m.secret.Some?)
    && (m.secret.Some? ==> SecretOk(c, m))
    && (forall d :: d in m.verifiedDevices ==> d == m.other.deviceId)
  }

  /** The secret was agreed on with the peer's key, and an initiator checked that key against the commitment. */
  ghost predicate SecretOk(c: Crypto, m: Machine) {
    && m.state in {KeyReceived, MacReceived, Canceled}
    && m.secret == c.agree(m.privateKey, m.theirKey)
    && (m.startedByUs ==> m.commitment == Some(c.hash(m.theirKey + c.canonical(m.StartContent()))))
  }

  /** What never changes, and what never changes back. */
  ghost predicate Keeps(m: Machine, m': Machine) {
    && m'.StartContent() == m.StartContent() && m'.ownUser == m.ownUser && m'.ownFingerprint == m.ownFingerprint
    && m'.creationTime == m.creationTime
    && m'.privateKey == m.privateKey && m'.other == m.other && m'.startedByUs == m.startedByUs
    && (m.state == Canceled ==> m'.state == Canceled)
    && (m.secret.Some? ==> m'.secret == m.secret && m'.theirKey == m.theirKey && m'.commitment == m.commitment)
    && (m.sasAccepted ==> m'.sasAccepted)
  }

  lemma {:induction false} CheckMacsKeeps(c: Crypto, m: Machine, secret: string, info: string,
                                          macs: seq<(string, string)>)
    requires Inv(c, m) && m.state == KeyReceived
    decreases |macs|
    ensures
      var (m', left) := CheckMacs(c, m, secret, info, macs);
      && Inv(c, m') && Keeps(m, m') && (left <==> m'.state == Canceled) && (!left ==> m'.state == KeyReceived)
  {
    if macs == [] {
    } else {
      match SplitKeyId(macs[0].0)
      case None =>
      case Some((keyType, deviceId)) =>
        if keyType == "ed25519" {
          if deviceId != m.other.deviceId {
            CheckMacsKeeps(c, m, secret, info, macs[1..]);
          } else {
            var m1 := m.(verifiedDevices := m.verifiedDevices + [deviceId]);
            assert Inv(c, m1);
            CheckMacsKeeps(c, m1, secret, info, macs[1..]);
          }
        }
    }
  }

  lemma CancelKeeps(c: Crypto, m: Machine, code: string, reason: string)
    requires Inv(c, m) && code != "" && reason != ""
    ensures Inv(c, m.Cancel(code, reason)) && Keeps(m, m.Cancel(code, reason))
  {
  }

  lemma EventKeeps(c: Crypto, m: Machine, transactionId: string, sender: string)
    requires Inv(c, m)
    ensures var (m', ok) := EventOk(m, transactionId, sender); Inv(c, m') && Keeps(m, m') && (ok ==> m' == m)
  {
  }

  lemma ReceiveAcceptKeeps(c: Crypto, m: Machine, e: Message)
    requires Inv(c, m) && e.AcceptMessage?
    ensures Inv(c, ReceiveAccept(m, e)) && Keeps(m, ReceiveAccept(m, e))
  {
    EventKeeps(c, m, e.transactionId, e.sender);
    CancelKeeps(c, m, "m.unexpected_message", "Unexpected message");
    CancelKeeps(c, m, "m.unknown_method", "Unknown method");
    hide EventOk;
    if m.state != Created {
      hide Inv, Keeps;
    }
  }

  lemma ReceiveKeyKeeps(c: Crypto, m: Machine, e: Message)
    requires Inv(c, m) && e.KeyMessage?
    ensures Inv(c, ReceiveKey(c, m, e).0) && Keeps(m, ReceiveKey(c, m, e).0)
  {
    EventKeeps(c, m, e.transactionId, e.sender);
    CancelKeeps(c, m, "m.unexpected_message", "Unexpected message");
    CancelKeeps(c, m, "m.mismatched_commitment", "Mismatched commitment");
    if m.secret.None? && m.state in {Started, Accepted}
        && (m.startedByUs ==> CheckCommitment(c, m, e.key) == Ok(true)) {
      EstablishKeeps(c, m, e.key);
    }
    hide Inv, Keeps, Establish, EventOk;
  }

  lemma EstablishKeeps(c: Crypto, m: Machine, key: string)
    requires Inv(c, m) && m.secret.None? && m.state in {Started, Accepted}
    requires m.startedByUs ==> CheckCommitment(c, m, key) == Ok(true)
    ensures Inv(c, Establish(c, m, key).0) && Keeps(m, Establish(c, m, key).0)
  {
  }

  lemma MacEndKeeps(c: Crypto, m: Machine)
    requires Inv(c, m) && m.state == KeyReceived
    ensures
      var m1 := if m.verifiedDevices == [] then m.Cancel("m.key_mismatch", "Key mismatch") else m;
      var m' := m1.(state := MacReceived);
      Inv(c, m') && Keeps(m, m')
  {
  }

  lemma ReceiveMacKeeps(c: Crypto, m: Machine, e: Message)
    requires Inv(c, m) && e.MacMessage?
    ensures Inv(c, ReceiveMac(c, m, e).0) && Keeps(m, ReceiveMac(c, m, e).0)
  {
    EventKeeps(c, m, e.transactionId, e.sender);
    CancelKeeps(c, m, "m.unexpected_message", "Unexpected message");
    CancelKeeps(c, m, "m.key_mismatch", "Key mismatch");
    assert Keeps(m, m);
    if m.state == KeyReceived {
      var info := MacInfo(m.other.userId, m.other.deviceId, m.ownUser, m.ownDevice, m.transactionId);
      CheckMacsKeeps(c, m, m.secret.value, info, e.macs);
      var (m', left) := CheckMacs(c, m, m.secret.value, info, e.macs);
      if !left {
        MacEndKeeps(c, m');
      }
    }
    hide CheckMacs, Join, Sorting.SortBy, MacInfo, Inv, EventOk;
  }

  /** Every call keeps the invariant; cancellation is final, and the secret is established at most once. */
  lemma NextKeeps(c: Crypto, m: Machine, call: Call)
    requires Inv(c, m)
    ensures Inv(c, Next(c, m, call)) && Keeps(m, Next(c, m, call))
  {
    match call
    case CallReceive(e) =>
      hide ReceiveAccept, ReceiveKey, ReceiveMac, Inv;
      match e {
        case AcceptMessage(_, _, _, _, _, _, _) => ReceiveAcceptKeeps(c, m, e);
        case KeyMessage(_, _, _) => ReceiveKeyKeeps(c, m, e);
        case MacMessage(_, _, _, _) => ReceiveMacKeeps(c, m, e);
        case CancelMessage(_, _, _, _) => CancelKeeps(c, m, "m.user", "Canceled by user");
        case StartMessage(_, _) =>
      }
    case _ =>
  }

  lemma {:induction false} RunKeeps(c: Crypto, m: Machine, calls: seq<Call>)
    requires Inv(c, m)
    decreases |calls|
    ensures Inv(c, After(c, m, calls)) && Keeps(m, After(c, m, calls))
  {
    if calls == [] {
    } else {
      NextKeeps(c, m, calls[0]);
      hide Next, Inv;
      RunKeeps(c, Next(c, m, calls[0]), calls[1..]);
    }
  }

  lemma FreshIsOk(c: Crypto, m: Machine)
    requires Fresh(c, m)
    ensures Inv(c, m)
  {
  }

  /**
   * For every sequence of calls on a new object: canceled is final and has a code and a
   * reason; the secret is established at most once; an accepted string implies a secret; and
   * an initiator past the key exchange holds a key that fits the commitment it was given.
   */
  lemma EveryCallSequence(c: Crypto, m: Machine, first: seq<Call>, rest: seq<Call>)
    requires Fresh(c, m)
    ensures
      var m1, m2 := After(c, m, first), After(c, After(c, m, first), rest);
      && (m1.state == Canceled ==> m2.state == Canceled)
      && (m2.state == Canceled ==> m2.cancelCode != "" && m2.cancelReason != "")
      && (m1.secret.Some? ==> m2.secret == m1.secret && m2.theirKey == m1.theirKey)
      && (m2.sasAccepted ==> m2.secret.Some?)
      && (m2.startedByUs && (m2.state == KeyReceived || m2.state == MacReceived) ==>
            m2.commitment == Some(c.hash(m2.theirKey + c.canonical(m2.StartContent()))))
      && (forall d :: d in m2.verifiedDevices ==> d == m2.other.deviceId)
  {
    FreshIsOk(c, m);
    RunKeeps(c, m, first);
    RunKeeps(c, After(c, m, first), rest);
    hide After, Fresh;
  }

  /**
   * A verification times out a minute after it was created, after whatever calls, unless it
   * is verified or canceled by then.
   */
  lemma TimesOutAfterAMinute(c: Crypto, m: Machine, calls: seq<Call>, now: int)
    requires Fresh(c, m)
    ensures
      var (m1, (m2, late)) := (After(c, m, calls), TimedOut(After(c, m, calls), now));
      && (late <==> now >= m.creationTime + 60 && m1.state != Canceled && !m1.Verified())
      && (late ==> m2.state == Canceled && m2.cancelCode == "m.timeout")
      && (!late ==> m2 == m1)
  {
    FreshIsOk(c, m);
    RunKeeps(c, m, calls);
    hide After, Fresh, Inv;
  }

  lemma {:induction false} FindFirst(s: string, c: char, i: nat)
    requires i <= |s| && c !in s[..i] && (i < |s| ==> s[i] == c)
    ensures Find(s, c) == i
  {
    if i == 0 {
    } else {
      assert s[..i] == [s[0]] + s[1..][..i - 1];
      FindFirst(s[1..], c, i - 1);
    }
  }

  /** A key id parses as an ed25519 key exactly when it is the prefix and a device id without a colon. */
  lemma SplitKeyIdIff(s: string, d: string)
    ensures SplitKeyId(s) == Some(("ed25519", d)) <==> s == "ed25519:" + d && ':' !in d
  {
    if s == "ed25519:" + d && ':' !in d {
      FindFirst(s, ':', 7);
      assert s[..7] == "ed25519" && s[8..] == d && d[..|d|] == d;
      FindFirst(d, ':', |d|);
    }
    if SplitKeyId(s) == Some(("ed25519", d)) {
      var i := Find(s, ':');
      assert s == s[..i] + ":" + s[i + 1..] && d[..|d|] == d;
      assert "ed25519" + ":" == "ed25519:";
    }
  }

  /** An entry that does not end the loop. */
  ghost predicate EntryOk(c: Crypto, peer: Peer, secret: string, info: string, entry: (string, string)) {
    exists d :: entry.0 == "ed25519:" + d && ':' !in d
        && (d == peer.deviceId ==> entry.1 == c.mac(secret, peer.ed25519, info + entry.0))
  }

  lemma EntryDecides(c: Crypto, m: Machine, secret: string, info: string, macs: seq<(string, string)>)
    requires macs != []
    ensures
      var entry := macs[0];
      var verified := if entry.0 == "ed25519:" + m.other.deviceId then [m.other.deviceId] else [];
      if EntryOk(c, m.other, secret, info, entry) then
        CheckMacs(c, m, secret, info, macs) ==
        CheckMacs(c, m.(verifiedDevices := m.verifiedDevices + verified), secret, info, macs[1..])
      else CheckMacs(c, m, secret, info, macs).1
  {
    var (keyId, mac) := macs[0];
    if EntryOk(c, m.other, secret, info, macs[0]) {
      var d :| keyId == "ed25519:" + d && ':' !in d
          && (d == m.other.deviceId ==> mac == c.mac(secret, m.other.ed25519, info + keyId));
      SplitKeyIdIff(keyId, d);
      if d != m.other.deviceId {
        assert keyId[8..] == d && ("ed25519:" + m.other.deviceId)[8..] == m.other.deviceId;
        assert m.verifiedDevices + [] == m.verifiedDevices;
      }
    } else {
      match SplitKeyId(keyId)
      case None =>
      case Some((keyType, deviceId)) =>
        if keyType == "ed25519" {
          SplitKeyIdIff(keyId, deviceId);
        }
    }
  }

  function Naming(peer: Peer, macs: seq<(string, string)>): seq<string> {
    if macs == [] then []
    else (if macs[0].0 == "ed25519:" + peer.deviceId then [peer.deviceId] else []) + Naming(peer, macs[1..])
  }

  lemma {:induction false} CheckMacsIff(c: Crypto, m: Machine, secret: string, info: string,
                                        macs: seq<(string, string)>)
    decreases |macs|
    ensures
      var (m', left) := CheckMacs(c, m, secret, info, macs);
      && (left <==> exists i :: 0 <= i < |macs| && !EntryOk(c, m.other, secret, info, macs[i]))
      && (!left ==> m' == m.(verifiedDevices := m.verifiedDevices + Naming(m.other, macs)))
  {
    if macs == [] {
      assert m.verifiedDevices + [] == m.verifiedDevices;
    } else {
      EntryDecides(c, m, secret, info, macs);
      var verified := if macs[0].0 == "ed25519:" + m.other.deviceId then [m.other.deviceId] else [];
      CheckMacsIff(c, m.(verifiedDevices := m.verifiedDevices + verified), secret, info, macs[1..]);
      hide EntryOk, CheckMacs;
      Reassociate(m.verifiedDevices, verified, Naming(m.other, macs[1..]));
      if i :| 0 <= i < |macs| && !EntryOk(c, m.other, secret, info, macs[i]) {
        if i > 0 {
          assert macs[1..][i - 1] == macs[i];
        }
      }
      if i :| 0 <= i < |macs[1..]| && !EntryOk(c, m.other, secret, info, macs[1..][i]) {
        assert macs[1..][i] == macs[i + 1];
      }
    }
  }

  /**
   * A MAC message moves the verification on exactly when it belongs to it, the MAC over the
   * sorted key ids fits, and every entry is an ed25519 key id whose MAC fits if it names the
   * peer; then the peer is verified once for each entry that names it.
   */
  lemma MacAcceptedIff(c: Crypto, m: Machine, e: Message)
    requires Inv(c, m) && m.state == KeyReceived && m.chosenMac != "" && e.MacMessage?
    ensures
      var (m', error) := ReceiveMac(c, m, e);
      var info := MacInfo(m.other.userId, m.other.deviceId, m.ownUser, m.ownDevice, m.transactionId);
      var keyIds := Join(",", Sorting.SortBy((s: string) => s, KeyIds(e.macs)));
      && error.None?
      && (m'.state == MacReceived <==>
          && e.transactionId == m.transactionId && e.sender == m.other.userId
          && e.keys == c.mac(m.secret.value, keyIds, info + "KEY_IDS")
          && (forall i :: 0 <= i < |e.macs| ==> EntryOk(c, m.other, m.secret.value, info, e.macs[i])))
      && (m'.state == MacReceived ==> m'.verifiedDevices == m.verifiedDevices + Naming(m.other, e.macs))
  {
    var info := MacInfo(m.other.userId, m.other.deviceId, m.ownUser, m.ownDevice, m.transactionId);
    CheckMacsIff(c, m, m.secret.value, info, e.macs);
    CheckMacsKeeps(c, m, m.secret.value, info, e.macs);
    hide CheckMacs, EntryOk, Join, Sorting.SortBy, MacInfo, Inv;
  }

  /** No entry names the peer exactly when nobody gets verified. */
  lemma {:induction false} NamingIff(peer: Peer, macs: seq<(string, string)>)
    ensures Naming(peer, macs) != [] <==> exists i :: 0 <= i < |macs| && macs[i].0 == "ed25519:" + peer.deviceId
  {
    if macs == [] {
    } else {
      var rest := macs[1..];
      NamingIff(peer, rest);
      if i :| 0 <= i < |macs| && macs[i].0 == "ed25519:" + peer.deviceId {
        assert i > 0 ==> rest[i - 1] == macs[i];
      }
      if i :| 0 <= i < |rest| && rest[i].0 == "ed25519:" + peer.deviceId {
        assert macs[i + 1] == rest[i];
      }
    }
  }

  /** An accepted MAC message verifies the peer exactly when one of its entries names the peer. */
  lemma MacVerifiesIffNamed(c: Crypto, m: Machine, e: Message)
    requires Inv(c, m) && m.state == KeyReceived && m.chosenMac != "" && m.verifiedDevices == [] && e.MacMessage?
    requires ReceiveMac(c, m, e).0.state == MacReceived
    ensures ReceiveMac(c, m, e).0.verifiedDevices != [] <==>
      exists i :: 0 <= i < |e.macs| && e.macs[i].0 == "ed25519:" + m.other.deviceId
  {
    MacAcceptedIff(c, m, e);
    NamingIff(m.other, e.macs);
    hide ReceiveMac, Naming, Inv;
  }

  /** A MAC message without any MACs, which the peer can make. */
  function EmptyMac(c: Crypto, m: Machine): Message {
    var info := MacInfo(m.other.userId, m.other.deviceId, m.ownUser, m.ownDevice, m.transactionId);
    var secret := if m.secret.Some? then m.secret.value else "";
    MacMessage(m.other.userId, m.transactionId, [], c.mac(secret, "", info + "KEY_IDS"))
  }

  /**
   * Verified does not imply a verified device: a message without MACs is accepted, its
   * cancellation is overwritten, and accepting the string then makes the verification verified.
   */
  lemma VerifiedWithoutDevice(c: Crypto, m: Machine)
    requires Inv(c, m) && m.state == KeyReceived && m.chosenMac != "" && m.verifiedDevices == []
    ensures
      var m1 := ReceiveMac(c, m, EmptyMac(c, m)).0;
      && m1.state == MacReceived && m1.verifiedDevices == [] && m1.cancelCode == "m.key_mismatch"
      && AcceptSas(m1).1 == None && AcceptSas(m1).0.Verified() && AcceptSas(m1).0.verifiedDevices == []
  {
    assert KeyIds([]) == [];
    assert Sorting.SortBy((s: string) => s, []) == [];
    hide MacInfo, Sorting.SortBy, KeyIds;
  }

  /** Nobody is verified before the MACs, and after them the cancel code tells whether anybody was. */
  ghost predicate OutcomeOk(m: Machine) {
    && (m.state !in {MacReceived, Canceled} ==> m.verifiedDevices == [] && m.cancelCode == "")
    && (m.state == MacReceived ==> (m.verifiedDevices == [] <==> m.cancelCode != ""))
  }

  lemma CanceledOutcome(m: Machine, code: string, reason: string)
    ensures OutcomeOk(m.Cancel(code, reason))
  {
  }

  lemma EventOutcome(m: Machine, transactionId: string, sender: string)
    requires OutcomeOk(m)
    ensures OutcomeOk(EventOk(m, transactionId, sender).0)
  {
  }

  lemma MacEndOutcome(m: Machine)
    requires m.cancelCode == ""
    ensures var m' := if m.verifiedDevices == [] then m.Cancel("m.key_mismatch", "Key mismatch") else m;
      OutcomeOk(m'.(state := MacReceived))
  {
  }

  lemma LeftOutcome(m: Machine)
    requires m.state == Canceled
    ensures OutcomeOk(m)
  {
  }

  lemma ReceiveMacOutcome(c: Crypto, m: Machine, e: Message)
    requires Inv(c, m) && OutcomeOk(m) && e.MacMessage?
    ensures OutcomeOk(ReceiveMac(c, m, e).0)
  {
    EventOutcome(m, e.transactionId, e.sender);
    CanceledOutcome(m, "m.unexpected_message", "Unexpected message");
    CanceledOutcome(m, "m.key_mismatch", "Key mismatch");
    if m.state == KeyReceived {
      var info := MacInfo(m.other.userId, m.other.deviceId, m.ownUser, m.ownDevice, m.transactionId);
      CheckMacsIff(c, m, m.secret.value, info, e.macs);
      CheckMacsKeeps(c, m, m.secret.value, info, e.macs);
      hide EntryOk, Inv, Naming, Keeps;
      var (m', left) := CheckMacs(c, m, m.secret.value, info, e.macs);
      if left {
        LeftOutcome(m');
      } else {
        MacEndOutcome(m');
      }
    }
    hide CheckMacs, Join, Sorting.SortBy, MacInfo, OutcomeOk, EventOk, Inv;
  }

  lemma ReceiveAcceptOutcome(m: Machine, e: Message)
    requires OutcomeOk(m) && e.AcceptMessage?
    ensures OutcomeOk(ReceiveAccept(m, e))
  {
    EventOutcome(m, e.transactionId, e.sender);
    hide EventOk;
  }

  lemma ReceiveKeyOutcome(c: Crypto, m: Machine, e: Message)
    requires OutcomeOk(m) && e.KeyMessage?
    ensures OutcomeOk(ReceiveKey(c, m, e).0)
  {
    EventOutcome(m, e.transactionId, e.sender);
    hide EventOk, CheckCommitment;
  }

  lemma NextOutcome(c: Crypto, m: Machine, call: Call)
    requires Inv(c, m) && OutcomeOk(m)
    ensures OutcomeOk(Next(c, m, call))
  {
    match call
    case CallReceive(e) =>
      hide ReceiveAccept, ReceiveKey, ReceiveMac, Inv;
      match e {
        case AcceptMessage(_, _, _, _, _, _, _) => ReceiveAcceptOutcome(m, e);
        case KeyMessage(_, _, _) => ReceiveKeyOutcome(c, m, e);
        case MacMessage(_, _, _, _) => ReceiveMacOutcome(c, m, e);
        case CancelMessage(_, _, _, _) =>
        case StartMessage(_, _) =>
      }
    case _ => hide Inv;
  }

  lemma {:induction false} RunOutcome(c: Crypto, m: Machine, calls: seq<Call>)
    requires Inv(c, m) && OutcomeOk(m)
    decreases |calls|
    ensures OutcomeOk(After(c, m, calls))
  {
    if calls == [] {
    } else {
      hide Inv, Next, OutcomeOk;
      NextKeeps(c, m, calls[0]);
      NextOutcome(c, m, calls[0]);
      RunOutcome(c, Next(c, m, calls[0]), calls[1..]);
    }
  }

  /**
   * For every sequence of calls on a new object: nobody is verified before the MACs arrived, and
   * a verified object has verified its peer exactly when no cancel code was set.
   */
  lemma VerifiedDeviceIffNoCancelCode(c: Crypto, m: Machine, calls: seq<Call>)
    requires Fresh(c, m)
    ensures
      var m1 := After(c, m, calls);
      && (m1.state in {Created, Started, Accepted, KeyReceived} ==> m1.verifiedDevices == [])
      && (m1.Verified() ==> (m1.other.deviceId in m1.verifiedDevices <==> m1.cancelCode == ""))
  {
    FreshIsOk(c, m);
    RunKeeps(c, m, calls);
    RunOutcome(c, m, calls);
    hide After, Fresh, Keeps;
    var m1 := After(c, m, calls);
    assert m1.verifiedDevices != [] ==> m1.verifiedDevices[0] in m1.verifiedDevices;
  }
}
