/** The `Sas` object: its methods change its fields one by one, as the functions of SasMachine describe. */
module SasObject {
  import opened Wrappers
  import opened SasMachine
  import Sorting

  class Sas {
    const crypto: Crypto
    const ownUser: string
    const ownDevice: string
    const ownFingerprint: string
    const privateKey: string
    const other: Peer
    const transactionId: string
    const creationTime: int
    var startedByUs: bool
    var agreements: seq<string>
    var strings: seq<string>
    var macMethods: seq<string>
    var state: State
    var sasAccepted: bool
    var chosenMac: string
    var chosenAgreement: Option<string>
    var commitment: Option<string>
    var cancelCode: string
    var cancelReason: string
    var secret: Option<string>
    var theirKey: string
    var verifiedDevices: seq<string>

    ghost function View(): Machine
      reads this
    {
      Machine(ownUser, ownDevice, ownFingerprint, privateKey, other, transactionId, startedByUs, creationTime,
              agreements, strings, macMethods, state, sasAccepted, chosenMac, chosenAgreement, commitment,
              cancelCode, cancelReason, secret, theirKey, verifiedDevices)
    }

    constructor (crypto: Crypto, ownUser: string, ownDevice: string, ownFingerprint: string, privateKey: string,
                 other: Peer,
                 transactionId: string, strings: seq<string>, macMethods: seq<string>, now: int)
      ensures View() == New(ownUser, ownDevice, ownFingerprint, privateKey, other, transactionId, strings, macMethods,
          now)
      ensures this.crypto == crypto
    {
      this.crypto := crypto;
      this.ownUser, this.ownDevice, this.ownFingerprint, this.privateKey := ownUser, ownDevice, ownFingerprint,
          privateKey;
      this.other, this.transactionId, creationTime := other, transactionId, now;
      this.strings := if strings == [] then STRINGS else strings;
      this.macMethods := if macMethods == [] then [MAC] else macMethods;
      chosenMac, chosenAgreement, agreements := "", None, AGREEMENTS;
      state, startedByUs, sasAccepted, commitment := Created, true, false, None;
      cancelReason, cancelCode, secret, theirKey, verifiedDevices := "", "", None, "", [];
    }

    constructor FromKeyVerificationStart(crypto: Crypto, ownUser: string, ownDevice: string, ownFingerprint: string,
                                         privateKey: string, other: Peer, start: Start, now: int)
      ensures View() == FromStart(crypto, ownUser, ownDevice, ownFingerprint, privateKey, other, start, now)
      ensures this.crypto == crypto
    {
      this.crypto := crypto;
      this.ownUser, this.ownDevice, this.ownFingerprint, this.privateKey := ownUser, ownDevice, ownFingerprint,
          privateKey;
      this.other, this.transactionId, creationTime := other, start.transactionId, now;
      strings := if start.strings == [] then STRINGS else start.strings;
      macMethods := if start.macs == [] then [MAC] else start.macs;
      chosenMac, chosenAgreement, sasAccepted := "", None, false;
      cancelReason, cancelCode, secret, theirKey, verifiedDevices := "", "", None, "", [];
      startedByUs, state := false, Started;
      commitment := Some(crypto.hash(crypto.public(privateKey) + crypto.canonical(start)));
      agreements := start.agreements;
      new;
      if !Supported(start) {
        Abort("m.unknown_method", "Unknown method");
      }
    }

    /** Every error path ends like this. */
    method Abort(code: string, reason: string)
      modifies this`state, this`cancelCode, this`cancelReason
      ensures View() == old(View()).Cancel(code, reason)
    {
      state := Canceled;
      cancelCode, cancelReason := code, reason;
    }

    method Cancel()
      modifies this`state, this`cancelCode, this`cancelReason
      ensures View() == CancelByUser(old(View()))
    {
      Abort("m.user", "Canceled by user");
    }

    method CheckTimeout(now: int) returns (late: bool)
      modifies this`state, this`cancelCode, this`cancelReason
      ensures (View(), late) == TimedOut(old(View()), now)
    {
      if (state == MacReceived && sasAccepted) || state == Canceled {
        return false;
      }
      if now - creationTime >= MAX_AGE || now - creationTime >= EVENT_TIMEOUT {
        Abort("m.timeout", "Timed out");
        return true;
      }
      return false;
    }

    method AcceptString() returns (error: Option<Error>)
      modifies this`sasAccepted
      ensures (View(), error) == AcceptSas(old(View()))
    {
      if state == Canceled {
        return Some(LocalProtocolError);
      }
      if secret.None? {
        return Some(LocalProtocolError);
      }
      sasAccepted := true;
      return None;
    }

    method RejectString() returns (error: Option<Error>)
      modifies this`state, this`cancelCode, this`cancelReason
      ensures (View(), error) == RejectSas(old(View()))
    {
      if secret.None? {
        return Some(LocalProtocolError);
      }
      Abort("m.mismatched_sas", "Mismatched short authentication string");
      return None;
    }

    method AcceptOffer() returns (r: Result<Message, Error>)
      modifies this`chosenMac, this`chosenAgreement
      ensures (View(), r) == AcceptVerification(old(View()))
    {
      if startedByUs {
        return Err(LocalProtocolError);
      }
      if state == Canceled {
        return Err(LocalProtocolError);
      }
      var methods: seq<string> := [];
      if "emoji" in strings {
        methods := methods + ["emoji"];
      }
      if "decimal" in strings {
        methods := methods + ["decimal"];
      }
      assert methods == (if "emoji" in strings then ["emoji"] else [])
          + (if "decimal" in strings then ["decimal"] else []);
      chosenMac := MAC;
      var agreement := if AGREEMENT_V2 in agreements then AGREEMENT_V2 else AGREEMENT_V1;
      chosenAgreement := Some(agreement);
      return Ok(AcceptMessage(ownUser, transactionId, agreement, HASH, MAC, methods,
                              if commitment.Some? then commitment.value else ""));
    }

    method EventIsOk(eventTransaction: string, sender: string) returns (ok: bool)
      modifies this`state, this`cancelCode, this`cancelReason
      ensures (View(), ok) == EventOk(old(View()), eventTransaction, sender)
    {
      if state == Canceled {
        return false;
      }
      if eventTransaction != transactionId {
        Abort("m.unknown_transaction", "Unknown transaction");
        return false;
      }
      if other.userId != sender {
        Abort("m.user_error", "User mismatch");
        return false;
      }
      return true;
    }

    method ReceiveAcceptEvent(e: Message)
      requires e.AcceptMessage?
      modifies this`state, this`cancelCode, this`cancelReason, this`commitment, this`chosenMac, this`chosenAgreement,
          this`strings
      ensures View() == ReceiveAccept(old(View()), e)
    {
      var ok := EventIsOk(e.transactionId, e.sender);
      if !ok {
        return;
      }
      if state != Created {
        Abort("m.unexpected_message", "Unexpected message");
        return;
      }
      if e.agreement !in AGREEMENTS || e.hash != HASH || e.macMethod != MAC
          || ("emoji" !in e.strings && "decimal" !in e.strings) {
        Abort("m.unknown_method", "Unknown method");
        return;
      }
      commitment := Some(e.commitment);
      chosenMac := e.macMethod;
      chosenAgreement := Some(e.agreement);
      strings := e.strings;
      state := Accepted;
    }

    method EstablishSas(key: string) returns (error: Option<Error>)
      modifies this`secret, this`theirKey, this`state
      ensures (View(), error) == Establish(crypto, old(View()), key)
    {
      var agreed := crypto.agree(privateKey, key);
      if agreed.None? {
        return Some(InvalidKey);
      }
      secret, theirKey := agreed, key;
      state := KeyReceived;
      return None;
    }

    method ReceiveKeyEvent(e: Message) returns (error: Option<Error>)
      requires e.KeyMessage?
      modifies this`state, this`cancelCode, this`cancelReason, this`secret, this`theirKey
      ensures (View(), error) == ReceiveKey(crypto, old(View()), e)
    {
      if secret.Some? || (state != Started && state != Accepted) {
        Abort("m.unexpected_message", "Unexpected message");
        return None;
      }
      var ok := EventIsOk(e.transactionId, e.sender);
      if !ok {
        return None;
      }
      if startedByUs {
        if commitment.None? || commitment.value == "" {
          return Some(AssertionError);
        }
        var content := Start(ownDevice, METHOD, transactionId, AGREEMENTS, [HASH], [MAC], STRINGS);
        if commitment.value != crypto.hash(e.key + crypto.canonical(content)) {
          Abort("m.mismatched_commitment", "Mismatched commitment");
          return None;
        }
      }
      error := EstablishSas(e.key);
    }

    /** The loop over the MACs; the result says whether it was left early. */
    method CheckEntries(key: string, info: string, macs: seq<(string, string)>) returns (left: bool)
      requires secret == Some(key)
      modifies this`state, this`cancelCode, this`cancelReason, this`verifiedDevices
      ensures (View(), left) == CheckMacs(crypto, old(View()), key, info, macs)
    {
      var i := 0;
      assert macs[0..] == macs;
      while i < |macs|
        invariant 0 <= i <= |macs| && secret == Some(key)
        invariant CheckMacs(crypto, View(), key, info, macs[i..]) == CheckMacs(crypto, old(View()), key, info, macs)
      {
        var (keyId, mac) := macs[i];
        assert macs[i..][0] == macs[i] && macs[i..][1..] == macs[i + 1..];
        var parts := SplitKeyId(keyId);
        if parts.None? {
          Abort("m.invalid_message", "Invalid message");
          return true;
        }
        var (keyType, deviceId) := parts.value;
        if keyType != "ed25519" {
          Abort("m.key_mismatch", "Key mismatch");
          return true;
        }
        i := i + 1;
        if deviceId != other.deviceId {
          continue;
        }
        if mac != crypto.mac(key, other.ed25519, info + keyId) {
          Abort("m.key_mismatch", "Key mismatch");
          return true;
        }
        verifiedDevices := verifiedDevices + [deviceId];
      }
      return false;
    }

    method ReceiveMacEvent(e: Message) returns (error: Option<Error>)
      requires e.MacMessage?
      modifies this`state, this`cancelCode, this`cancelReason, this`verifiedDevices
      ensures (View(), error) == ReceiveMac(crypto, old(View()), e)
    {
      hide CheckMacs, Sorting.SortBy, Join, MacInfo;
      if state == MacReceived && sasAccepted {
        return None;
      }
      var ok := EventIsOk(e.transactionId, e.sender);
      if !ok {
        return None;
      }
      if state != KeyReceived {
        Abort("m.unexpected_message", "Unexpected message");
        return None;
      }
      if secret.None? || chosenMac == "" {
        return Some(AssertionError);
      }
      var info := MacInfo(other.userId, other.deviceId, ownUser, ownDevice, transactionId);
      var keyIds := Join(",", Sorting.SortBy((s: string) => s, KeyIds(e.macs)));
      if e.keys != crypto.mac(secret.value, keyIds, info + "KEY_IDS") {
        Abort("m.key_mismatch", "Key mismatch");
        return None;
      }
      var left := CheckEntries(secret.value, info, e.macs);
      if left {
        return None;
      }
      if verifiedDevices == [] {
        Abort("m.key_mismatch", "Key mismatch");
      }
      state := MacReceived;
      return None;
    }
  }
}
