/** What the single calls of a verification accept and refuse, and what ends it, over whole runs of calls. */
module SasCalls {
  import opened Wrappers
  import opened SasMachine
  import opened SasSafety

  lemma {:induction false} AfterConcat(c: Crypto, m: Machine, a: seq<Call>, b: seq<Call>)
    decreases |a|
    ensures After(c, m, a + b) == After(c, After(c, m, a), b)
  {
    if a == [] {
      assert a + b == b;
    } else {
      assert (a + b)[0] == a[0] && (a + b)[1..] == a[1..] + b;
      hide Next;
      AfterConcat(c, Next(c, m, a[0]), a[1..], b);
    }
  }

  lemma AfterOne(c: Crypto, m: Machine, call: Call)
    ensures After(c, m, [call]) == Next(c, m, call)
  {
    assert [call][1..] == [];
    hide Next;
  }

  /** Rejecting the string cancels once there is a secret, and is an error before. */
  lemma RejectDecides(m: Machine)
    ensures
      var (m', error) := RejectSas(m);
      && (m.secret.None? ==> error == Some(LocalProtocolError) && m' == m)
      && (m.secret.Some? ==>
            && error == None && m'.state == Canceled && m'.cancelCode == "m.mismatched_sas"
            && m'.cancelReason == "Mismatched short authentication string"
            && m' == m.(state := m'.state, cancelCode := m'.cancelCode, cancelReason := m'.cancelReason))
  {
  }

  /** Accepting the string is an error without a secret or once canceled; otherwise it is noted, and nothing else. */
  lemma AcceptDecides(m: Machine)
    ensures
      var (m', error) := AcceptSas(m);
      && (error == Some(LocalProtocolError) <==> m.state == Canceled || m.secret.None?)
      && (error.Some? ==> error == Some(LocalProtocolError) && m' == m)
      && (error.None? ==> m'.sasAccepted && m' == m.(sasAccepted := true))
  {
  }

  /** A call with which a user ends the verification, on this side or on the other. */
  predicate Ends(m: Machine, call: Call) {
    || call == CallCancel
    || (call.CallReceive? && call.message.CancelMessage?)
    || (call == CallRejectSas && m.secret.Some?)
  }

  lemma EndsAtOnce(c: Crypto, m: Machine, call: Call)
    requires Ends(m, call)
    ensures
      var m' := Next(c, m, call);
      && m'.state == Canceled && m'.secret == m.secret && m'.verifiedDevices == m.verifiedDevices
      && m'.cancelCode == (if call == CallRejectSas then "m.mismatched_sas" else "m.user")
      && m'.cancelReason == (if call == CallRejectSas then "Mismatched short authentication string"
                             else "Canceled by user")
      && GetCancellation(m') == Ok(CancelMessage(m.ownUser, m.transactionId, m'.cancelCode, m'.cancelReason))
  {
  }

  /**
   * Once the user rejects the string, or either user cancels, the verification is canceled for
   * good: after whatever other calls it is never verified, and there is a message to say so.
   */
  lemma EndedForGood(c: Crypto, m: Machine, first: seq<Call>, call: Call, rest: seq<Call>)
    requires Fresh(c, m) && Ends(After(c, m, first), call)
    ensures
      var m1, m2 := After(c, m, first + [call]), After(c, m, first + [call] + rest);
      && m1.state == Canceled && m1.cancelCode == (if call == CallRejectSas then "m.mismatched_sas" else "m.user")
      && m2.state == Canceled && !m2.Verified() && GetCancellation(m2).Ok?
      && m2.verifiedDevices == m1.verifiedDevices
  {
    var m0 := After(c, m, first);
    AfterConcat(c, m, first, [call]);
    AfterOne(c, m0, call);
    AfterConcat(c, m, first + [call], rest);
    EndsAtOnce(c, m0, call);
    FreshIsOk(c, m);
    RunKeeps(c, m, first + [call]);
    RunKeeps(c, After(c, m, first + [call]), rest);
    CanceledVerifiesNobody(c, After(c, m, first + [call]), rest);
    hide After, Next, Fresh, Ends, SecretOk;
  }

  lemma CanceledKeepsDevices(c: Crypto, m: Machine, call: Call)
    requires Inv(c, m) && m.state == Canceled
    ensures Next(c, m, call).verifiedDevices == m.verifiedDevices && Next(c, m, call).sasAccepted == m.sasAccepted
  {
    hide CheckMacs, Establish, CheckCommitment, Inv, Join, MacInfo, Acceptable, ReceiveMac;
    if call.CallReceive? && call.message.MacMessage? {
      CanceledIgnoresMacs(c, m, call.message);
    }
  }

  lemma CanceledIgnoresMacs(c: Crypto, m: Machine, e: Message)
    requires m.state == Canceled && e.MacMessage?
    ensures ReceiveMac(c, m, e).0 == m
  {
    hide CheckMacs, Join, MacInfo;
  }

  /** A canceled verification verifies no device any more, and the string is not accepted either. */
  lemma {:induction false} CanceledVerifiesNobody(c: Crypto, m: Machine, calls: seq<Call>)
    requires Inv(c, m) && m.state == Canceled
    decreases |calls|
    ensures After(c, m, calls).verifiedDevices == m.verifiedDevices && After(c, m, calls).sasAccepted == m.sasAccepted
  {
    if calls == [] {
    } else {
      CanceledKeepsDevices(c, m, calls[0]);
      NextKeeps(c, m, calls[0]);
      hide Next, Inv;
      CanceledVerifiesNobody(c, Next(c, m, calls[0]), calls[1..]);
    }
  }

  /** What a start message has to offer. */
  predicate Offers(s: Start) {
    && s.method_ == "m.sas.v1" && "sha256" in s.hashes && "hkdf-hmac-sha256" in s.macs
    && ("curve25519" in s.agreements || "curve25519-hkdf-sha256" in s.agreements)
    && ("emoji" in s.strings || "decimal" in s.strings)
  }

  /** A start message is refused exactly when something is missing from it; the commitment is to our key and to it. */
  lemma StartDecides(c: Crypto, ownUser: string, ownDevice: string, ownFingerprint: string, privateKey: string,
                     other: Peer, s: Start, now: int)
    ensures
      var m := FromStart(c, ownUser, ownDevice, ownFingerprint, privateKey, other, s, now);
      && !m.startedByUs && m.secret.None? && m.verifiedDevices == [] && m.transactionId == s.transactionId
      && m.creationTime == now && m.other == other && m.privateKey == privateKey
      && (m.ownUser, m.ownDevice, m.ownFingerprint) == (ownUser, ownDevice, ownFingerprint)
      && m.agreements == s.agreements && (s.strings != [] ==> m.strings == s.strings)
      && m.commitment == Some(c.hash(c.public(privateKey) + c.canonical(s)))
      && (if Offers(s) then m.state == Started else m.state == Canceled && m.cancelCode == "m.unknown_method")
  {
  }

  /** Accepting an offer: the newer key agreement if it is offered, and the commitment made when the start arrived. */
  lemma OfferDecides(m: Machine)
    ensures
      var (m', r) := AcceptVerification(m);
      && (r == Err(LocalProtocolError) <==> m.startedByUs || m.state == Canceled)
      && (r.Err? ==> r == Err(LocalProtocolError) && m' == m)
      && (r.Ok? ==>
            var e := r.value;
            && e.AcceptMessage? && e.sender == m.ownUser && e.transactionId == m.transactionId
            && e.hash == "sha256" && e.macMethod == "hkdf-hmac-sha256"
            && e.agreement == (if "curve25519-hkdf-sha256" in m.agreements then "curve25519-hkdf-sha256"
                               else "curve25519")
            && (forall s :: s in e.strings <==> s in m.strings && s in {"emoji", "decimal"})
            && (m.commitment.Some? ==> e.commitment == m.commitment.value)
            && m' == m.(chosenMac := e.macMethod, chosenAgreement := Some(e.agreement)))
  {
  }

  /** What an accept message has to hold for an initiator. */
  predicate Acceptable(e: Message)
    requires e.AcceptMessage?
  {
    && e.agreement in {"curve25519", "curve25519-hkdf-sha256"} && e.hash == "sha256"
    && e.macMethod == "hkdf-hmac-sha256" && ("emoji" in e.strings || "decimal" in e.strings)
  }

  /** The code with which a message that does not belong to the verification, or comes at the wrong time, cancels it. */
  function RefusalCode(m: Machine, transactionId: string, sender: string): string {
    if transactionId != m.transactionId then "m.unknown_transaction"
    else if sender != m.other.userId then "m.user_error"
    else "m.unexpected_message"
  }

  predicate Belongs(m: Machine, transactionId: string, sender: string) {
    transactionId == m.transactionId && sender == m.other.userId
  }

  /** An accept message is taken exactly in the first state and with a choice of ours; any other cancels. */
  lemma AcceptMessageDecides(m: Machine, e: Message)
    requires e.AcceptMessage?
    ensures
      var m' := ReceiveAccept(m, e);
      if m.state == Canceled then m' == m
      else if Belongs(m, e.transactionId, e.sender) && m.state == Created && Acceptable(e) then
        m'.state == Accepted && m'.commitment == Some(e.commitment) && m'.chosenMac == e.macMethod
        && m'.chosenAgreement == Some(e.agreement) && m'.strings == e.strings && m'.secret == m.secret
      else
        m'.state == Canceled && m'.commitment == m.commitment
        && m'.cancelCode == if Belongs(m, e.transactionId, e.sender) && m.state == Created then "m.unknown_method"
                            else RefusalCode(m, e.transactionId, e.sender)
  {
  }

  /** The peer's key is one that fits: no commitment was given to us, or it is to this key and our start message. */
  predicate Fits(c: Crypto, m: Machine, key: string) {
    m.startedByUs ==> m.commitment == Some(c.hash(key + c.canonical(m.StartContent())))
  }

  /**
   * A key message establishes the secret exactly when it is awaited, belongs to the verification,
   * fits the commitment, and can be agreed with; the errors that raise leave everything alone;
   * any other key cancels.
   */
  lemma KeyMessageDecides(c: Crypto, m: Machine, e: Message)
    requires Inv(c, m) && e.KeyMessage?
    ensures
      var (m', error) := ReceiveKey(c, m, e);
      var awaited := m.secret.None? && m.state in {Started, Accepted};
      var unchecked := m.startedByUs && (m.commitment == None || m.commitment == Some(""));
      var secret := c.agree(m.privateKey, e.key);
      if !awaited then error == None && m'.state == Canceled && m'.cancelCode == "m.unexpected_message"
      else if !Belongs(m, e.transactionId, e.sender) then
        error == None && m'.state == Canceled && m'.cancelCode == RefusalCode(m, e.transactionId, e.sender)
        && m'.secret == None
      else if unchecked then error == Some(AssertionError) && m' == m
      else if !Fits(c, m, e.key) then
        error == None && m'.state == Canceled && m'.cancelCode == "m.mismatched_commitment" && m'.secret == None
      else if secret == None then error == Some(InvalidKey) && m' == m
      else error == None && m' == m.(secret := secret, theirKey := e.key, state := KeyReceived)
  {
    hide SecretOk;
  }

  /** A MAC message that is not looked at: afterwards, too early, or not part of the verification. */
  lemma MacMessageRefused(c: Crypto, m: Machine, e: Message)
    requires Inv(c, m) && e.MacMessage? && (m.state != KeyReceived || !Belongs(m, e.transactionId, e.sender))
    ensures
      var (m', error) := ReceiveMac(c, m, e);
      && error == None && m'.verifiedDevices == m.verifiedDevices
      && if m.Verified() || m.state == Canceled then m' == m
         else m'.state == Canceled && m'.cancelCode == RefusalCode(m, e.transactionId, e.sender)
  {
    hide CheckMacs, SecretOk, Join, MacInfo;
  }

  /** Only a verification that is not canceled sends its messages, and only a canceled one a cancellation. */
  lemma MessagesWhen(c: Crypto, m: Machine)
    ensures StartVerification(m).Ok? <==> m.startedByUs && m.state != Canceled
    ensures AcceptVerification(m).1.Ok? <==> !m.startedByUs && m.state != Canceled
    ensures ShareKey(c, m) == if m.state == Canceled then Err(LocalProtocolError)
                              else Ok(KeyMessage(m.ownUser, m.transactionId, c.public(m.privateKey)))
    ensures GetMac(c, m).Ok? <==> m.sasAccepted && m.state != Canceled && m.secret.Some? && m.chosenMac != ""
    ensures GetCancellation(m).Ok? <==> m.state == Canceled && m.cancelCode != "" && m.cancelReason != ""
  {
  }

  /** The texts both sides derive the string and the MACs from begin as the protocol says. */
  lemma InfoPrefixes(c: Crypto, m: Machine)
    ensures "MATRIX_KEY_VERIFICATION_SAS" <= ExtraInfoV1(m) && "MATRIX_KEY_VERIFICATION_SAS|" <= ExtraInfoV2(c, m)
    ensures "MATRIX_KEY_VERIFICATION_MAC"
        <= MacInfo(m.ownUser, m.ownDevice, m.other.userId, m.other.deviceId, m.transactionId)
  {
    assert INFO + "|" == "MATRIX_KEY_VERIFICATION_SAS|";
  }

  lemma {:induction false} CheckMacsLeavesAccepted(c: Crypto, m: Machine, secret: string, info: string,
                                                   macs: seq<(string, string)>)
    decreases |macs|
    ensures CheckMacs(c, m, secret, info, macs).0.sasAccepted == m.sasAccepted
  {
    if macs == [] {
    } else {
      var m1 := m.(verifiedDevices := m.verifiedDevices + [m.other.deviceId]);
      CheckMacsLeavesAccepted(c, m, secret, info, macs[1..]);
      CheckMacsLeavesAccepted(c, m1, secret, info, macs[1..]);
    }
  }

  lemma ReceiveMacLeavesAccepted(c: Crypto, m: Machine, e: Message)
    requires e.MacMessage?
    ensures ReceiveMac(c, m, e).0.sasAccepted == m.sasAccepted
  {
    if m.secret.Some? {
      var info := MacInfo(m.other.userId, m.other.deviceId, m.ownUser, m.ownDevice, m.transactionId);
      CheckMacsLeavesAccepted(c, m, m.secret.value, info, e.macs);
    }
    hide CheckMacs, Join, MacInfo;
  }

  /** The call is one to accept the string, and it is heard. */
  predicate AcceptsNow(m: Machine, call: Call) {
    call == CallAcceptSas && m.secret.Some? && m.state != Canceled
  }

  lemma NextAccepts(c: Crypto, m: Machine, call: Call)
    ensures Next(c, m, call).sasAccepted <==> m.sasAccepted || AcceptsNow(m, call)
  {
    if call.CallReceive? && call.message.MacMessage? {
      ReceiveMacLeavesAccepted(c, m, call.message);
    }
    hide ReceiveMac, CheckCommitment;
  }

  /**
   * Nothing but the user accepts the string: it counts as accepted exactly if one of the calls was to
   * accept it, at a time when there was a secret and the verification was not canceled.
   */
  lemma {:induction false} AcceptedIff(c: Crypto, m: Machine, calls: seq<Call>)
    decreases |calls|
    ensures After(c, m, calls).sasAccepted <==>
              m.sasAccepted || exists i :: 0 <= i < |calls| && AcceptsNow(After(c, m, calls[..i]), calls[i])
  {
    if calls == [] {
    } else {
      var m1, rest := Next(c, m, calls[0]), calls[1..];
      NextAccepts(c, m, calls[0]);
      hide Next, AcceptsNow;
      AcceptedIff(c, m1, rest);
      assert After(c, m, calls[..0]) == m;
      forall i | 0 <= i < |rest| ensures After(c, m, calls[..i + 1]) == After(c, m1, rest[..i]) {
        assert calls[..i + 1][0] == calls[0] && calls[..i + 1][1..] == rest[..i];
      }
      if i :| 0 <= i < |calls| && AcceptsNow(After(c, m, calls[..i]), calls[i]) {
        assert i > 0 ==> rest[i - 1] == calls[i];
      }
      if i :| 0 <= i < |rest| && AcceptsNow(After(c, m1, rest[..i]), rest[i]) {
        assert calls[i + 1] == rest[i];
      }
    }
  }

  /**
   * Safety of the whole protocol on one side: a verified object has had its user accept the string
   * while there was a secret, and nobody has ended the verification at any point.
   */
  lemma VerifiedMeansAccepted(c: Crypto, m: Machine, calls: seq<Call>)
    requires Fresh(c, m) && After(c, m, calls).Verified()
    ensures exists i :: 0 <= i < |calls| && AcceptsNow(After(c, m, calls[..i]), calls[i])
    ensures forall i :: 0 <= i < |calls| ==> !Ends(After(c, m, calls[..i]), calls[i])
  {
    hide Next, After, Ends, AcceptsNow, Fresh;
    FreshNotAccepted(c, m);
    AcceptedIff(c, m, calls);
    forall i | 0 <= i < |calls| ensures !Ends(After(c, m, calls[..i]), calls[i]) {
      assert calls[..i] + [calls[i]] + calls[i + 1..] == calls;
      if Ends(After(c, m, calls[..i]), calls[i]) {
        EndedForGood(c, m, calls[..i], calls[i], calls[i + 1..]);
      }
    }
  }

  lemma FreshNotAccepted(c: Crypto, m: Machine)
    requires Fresh(c, m)
    ensures !m.sasAccepted
  {
  }

  /** A verification that we start: offers both agreements and both strings, and is not a minute old at `now`. */
  lemma NewIs(c: Crypto, ownUser: string, ownDevice: string, ownFingerprint: string, privateKey: string, other: Peer,
              transactionId: string, now: int)
    ensures
      var m := New(ownUser, ownDevice, ownFingerprint, privateKey, other, transactionId, [], [], now);
      && m.startedByUs && m.state == Created && m.secret.None? && m.verifiedDevices == [] && !m.sasAccepted
      && m.creationTime == now && m.other == other && m.privateKey == privateKey && m.ownFingerprint == ownFingerprint
      && StartVerification(m) == Ok(StartMessage(ownUser, Start(ownDevice, "m.sas.v1", transactionId,
                                                                ["curve25519", "curve25519-hkdf-sha256"], ["sha256"],
                                                                ["hkdf-hmac-sha256"], ["emoji", "decimal"])))
  {
  }
}
