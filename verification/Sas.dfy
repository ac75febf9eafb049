/**
 * One side of a device verification with short authentication strings: what every method
 * of the `Sas` object does to its fields. The cryptography is a parameter.
 */
module SasMachine {
  import opened Wrappers
  import Sorting

  datatype State = Created | Started | Accepted | KeyReceived | MacReceived | Canceled

  const METHOD := "m.sas.v1"
  const AGREEMENT_V1 := "curve25519"
  const AGREEMENT_V2 := "curve25519-hkdf-sha256"
  const AGREEMENTS := [AGREEMENT_V1, AGREEMENT_V2]
  const HASH := "sha256"
  const MAC := "hkdf-hmac-sha256"
  const STRINGS := ["emoji", "decimal"]

  const EVENT_TIMEOUT: int := 60     // seconds
  const MAX_AGE: int := 5 * 60

  /** The content of a start message. */
  datatype Start = Start(
    fromDevice: string, method_: string, transactionId: string, agreements: seq<string>, hashes: seq<string>,
    macs: seq<string>, strings: seq<string>)

  /** The messages of the protocol; `sender` is the user the server names. */
  datatype Message =
    | StartMessage(sender: string, start: Start)
    | AcceptMessage(sender: string, transactionId: string, agreement: string, hash: string, macMethod: string,
                    strings: seq<string>, commitment: string)
    | KeyMessage(sender: string, transactionId: string, key: string)
    | MacMessage(sender: string, transactionId: string, macs: seq<(string, string)>, keys: string)
    | CancelMessage(sender: string, transactionId: string, code: string, reason: string)

  /**
   * The black boxes: the public part of a key, the secret agreed on with somebody's public
   * key (None when that key is malformed), the hash, the MAC under a secret with an info
   * string, and the canonical form of a start content.
   */
  datatype Crypto = Crypto(
    public: string -> string, agree: (string, string) -> Option<string>, hash: string -> string,
    mac: (string, string, string) -> string, canonical: Start -> string)

  datatype Peer = Peer(userId: string, deviceId: string, ed25519: string)

  /** The fields of a `Sas` object. */
  datatype Machine = Machine(
    ownUser: string, ownDevice: string, ownFingerprint: string, privateKey: string, other: Peer, transactionId: string,
    startedByUs: bool, creationTime: int,
    agreements: seq<string>, strings: seq<string>, macMethods: seq<string>,
    state: State, sasAccepted: bool, chosenMac: string, chosenAgreement: Option<string>, commitment: Option<string>,
    cancelCode: string, cancelReason: string, secret: Option<string>, theirKey: string, verifiedDevices: seq<string>)
  {
    predicate Verified() {
      state == MacReceived && sasAccepted
    }

    function Cancel(code: string, reason: string): Machine {
      this.(state := Canceled, cancelCode := code, cancelReason := reason)
    }

    function StartContent(): Start {
      Start(ownDevice, METHOD, transactionId, AGREEMENTS, [HASH], [MAC], STRINGS)
    }
  }

  /** A method that raises leaves the object as it was. */
  datatype Error = LocalProtocolError | AssertionError | ValueError | InvalidKey

  function New(ownUser: string, ownDevice: string, ownFingerprint: string, privateKey: string, other: Peer,
               transactionId: string, strings: seq<string>, macMethods: seq<string>, now: int): Machine {
    Machine(ownUser, ownDevice, ownFingerprint, privateKey, other, transactionId, true, now,
            AGREEMENTS, if strings == [] then STRINGS else strings, if macMethods == [] then [MAC] else macMethods,
            Created, false, "", None, None, "", "", None, "", [])
  }

  predicate Supported(s: Start) {
    && s.method_ == METHOD
    && (AGREEMENT_V1 in s.agreements || AGREEMENT_V2 in s.agreements)
    && HASH in s.hashes
    && MAC in s.macs
    && ("emoji" in s.strings || "decimal" in s.strings)
  }

  /** `from_key_verification_start`. */
  function FromStart(c: Crypto, ownUser: string, ownDevice: string, ownFingerprint: string, privateKey: string,
                     other: Peer,
                     s: Start, now: int): Machine {
    var m := New(ownUser, ownDevice, ownFingerprint, privateKey, other, s.transactionId, s.strings, s.macs, now).(
               startedByUs := false, state := Started,
               commitment := Some(c.hash(c.public(privateKey) + c.canonical(s))), agreements := s.agreements);
    if Supported(s) then m else m.Cancel("m.unknown_method", "Unknown method")
  }

  function StartVerification(m: Machine): Result<Message, Error> {
    if !m.startedByUs || m.state == Canceled then Err(LocalProtocolError)
    else Ok(StartMessage(m.ownUser, m.StartContent()))
  }

  function AcceptVerification(m: Machine): (Machine, Result<Message, Error>) {
    if m.startedByUs || m.state == Canceled then (m, Err(LocalProtocolError))
    else
      var agreement := if AGREEMENT_V2 in m.agreements then AGREEMENT_V2 else AGREEMENT_V1;
      var strings := (if "emoji" in m.strings then ["emoji"] else [])
          + (if "decimal" in m.strings then ["decimal"] else []);
      (m.(chosenMac := MAC, chosenAgreement := Some(agreement)),
       Ok(AcceptMessage(m.ownUser, m.transactionId, agreement, HASH, MAC, strings,
                        if m.commitment.Some? then m.commitment.value else "")))
  }

  function ShareKey(c: Crypto, m: Machine): Result<Message, Error> {
    if m.state == Canceled then Err(LocalProtocolError)
    else Ok(KeyMessage(m.ownUser, m.transactionId, c.public(m.privateKey)))
  }

  function AcceptSas(m: Machine): (Machine, Option<Error>) {
    if m.state == Canceled || m.secret.None? then (m, Some(LocalProtocolError)) else (m.(sasAccepted := true), None)
  }

  function RejectSas(m: Machine): (Machine, Option<Error>) {
    if m.secret.None? then (m, Some(LocalProtocolError))
    else (m.Cancel("m.mismatched_sas", "Mismatched short authentication string"), None)
  }

  function CancelByUser(m: Machine): Machine {
    m.Cancel("m.user", "Canceled by user")
  }

  /** `timed_out`: the time of the last event is the creation time, as nothing ever updates it. */
  function TimedOut(m: Machine, now: int): (Machine, bool) {
    if m.Verified() || m.state == Canceled then (m, false)
    else if now - m.creationTime >= MAX_AGE || now - m.creationTime >= EVENT_TIMEOUT
    then (m.Cancel("m.timeout", "Timed out"), true)
    else (m, false)
  }

  const INFO := "MATRIX_KEY_VERIFICATION_SAS"
  const MAC_INFO := "MATRIX_KEY_VERIFICATION_MAC"

  function ExtraInfoV1(m: Machine): string {
    var ours, theirs := m.ownUser + m.ownDevice, m.other.userId + m.other.deviceId;
    INFO + (if m.startedByUs then ours + theirs else theirs + ours) + m.transactionId
  }

  function ExtraInfoV2(c: Crypto, m: Machine): string {
    var ours := m.ownUser + "|" + m.ownDevice + "|" + c.public(m.privateKey);
    var theirs := m.other.userId + "|" + m.other.deviceId + "|" + m.theirKey;
    INFO + "|" + (if m.startedByUs then ours + "|" + theirs else theirs + "|" + ours) + "|" + m.transactionId
  }

  function ExtraInfo(c: Crypto, m: Machine): Result<string, Error> {
    if m.chosenAgreement == Some(AGREEMENT_V1) then Ok(ExtraInfoV1(m))
    else if m.chosenAgreement == Some(AGREEMENT_V2) then
      if m.secret.None? then Err(AssertionError) else Ok(ExtraInfoV2(c, m))
    else Err(ValueError)
  }

  /** The info of the MACs one device makes for another. */
  function MacInfo(fromUser: string, fromDevice: string, toUser: string, toDevice: string,
                   transactionId: string): string {
    MAC_INFO + fromUser + fromDevice + toUser + toDevice + transactionId
  }

  function GetMac(c: Crypto, m: Machine): Result<Message, Error> {
    if !m.sasAccepted || m.state == Canceled then Err(LocalProtocolError)
    else if m.secret.None? || m.chosenMac == "" then Err(AssertionError)
    else
      var keyId := "ed25519:" + m.ownDevice;
      var info := MacInfo(m.ownUser, m.ownDevice, m.other.userId, m.other.deviceId, m.transactionId);
      Ok(MacMessage(m.ownUser, m.transactionId, [(keyId, c.mac(m.secret.value, m.ownFingerprint, info + keyId))],
                    c.mac(m.secret.value, keyId, info + "KEY_IDS")))
  }

  function GetCancellation(m: Machine): Result<Message, Error> {
    if m.state != Canceled then Err(LocalProtocolError)
    else if m.cancelCode == "" || m.cancelReason == "" then Err(AssertionError)
    else Ok(CancelMessage(m.ownUser, m.transactionId, m.cancelCode, m.cancelReason))
  }

  /** `_event_ok`: the machine, and whether the event may be looked at. */
  function EventOk(m: Machine, transactionId: string, sender: string): (Machine, bool) {
    if m.state == Canceled then (m, false)
    else if transactionId != m.transactionId then (m.Cancel("m.unknown_transaction", "Unknown transaction"), false)
    else if m.other.userId != sender then (m.Cancel("m.user_error", "User mismatch"), false)
    else (m, true)
  }

  function Unexpected(m: Machine): Machine {
    m.Cancel("m.unexpected_message", "Unexpected message")
  }

  function ReceiveAccept(m: Machine, e: Message): Machine
    requires e.AcceptMessage?
  {
    var (m1, ok) := EventOk(m, e.transactionId, e.sender);
    if !ok then m1
    else if m.state != Created then Unexpected(m)
    else if e.agreement !in AGREEMENTS || e.hash != HASH || e.macMethod != MAC
            || ("emoji" !in e.strings && "decimal" !in e.strings) then m.Cancel("m.unknown_method", "Unknown method")
    else m.(commitment := Some(e.commitment), chosenMac := e.macMethod, chosenAgreement := Some(e.agreement),
            strings := e.strings, state := Accepted)
  }

  /** `_check_commitment` for a key, or the failed assertion about an empty commitment. */
  function CheckCommitment(c: Crypto, m: Machine, key: string): Result<bool, Error> {
    if m.commitment.None? || m.commitment.value == "" then Err(AssertionError)
    else Ok(m.commitment.value == c.hash(key + c.canonical(m.StartContent())))
  }

  function Establish(c: Crypto, m: Machine, key: string): (Machine, Option<Error>) {
    match c.agree(m.privateKey, key)
    case None => (m, Some(InvalidKey))
    case Some(secret) => (m.(secret := Some(secret), theirKey := key, state := KeyReceived), None)
  }

  function ReceiveKey(c: Crypto, m: Machine, e: Message): (Machine, Option<Error>)
    requires e.KeyMessage?
  {
    if m.secret.Some? || (m.state != Started && m.state != Accepted) then (Unexpected(m), None)
    else
      var (m1, ok) := EventOk(m, e.transactionId, e.sender);
      if !ok then (m1, None)
      else if m.startedByUs then
        match CheckCommitment(c, m, e.key)
        case Err(error) => (m, Some(error))
        case Ok(matches) =>
          if matches then Establish(c, m, e.key)
          else (m.Cancel("m.mismatched_commitment", "Mismatched commitment"), None)
      else Establish(c, m, e.key)
  }

  /** Python's `s.split(":", 2)`, followed by unpacking into two parts: None when that fails. */
  function SplitKeyId(s: string): Option<(string, string)> {
    var i := Find(s, ':');
    if i == |s| || Find(s[i + 1..], ':') < |s[i + 1..]| then None
    else Some((s[..i], s[i + 1..]))
  }

  /** The first position of a character, or the length. */
  function Find(s: string, c: char): (i: nat)
    ensures i <= |s| && c !in s[..i] && (i < |s| ==> s[i] == c)
  {
    if s == [] || s[0] == c then 0
    else
      var i := Find(s[1..], c) + 1;
      assert s[..i] == [s[0]] + s[1..][..i - 1];
      i
  }

  function Join(separator: string, parts: seq<string>): string {
    if parts == [] then "" else if |parts| == 1 then parts[0] else parts[0] + separator + Join(separator, parts[1..])
  }

  function KeyIds(macs: seq<(string, string)>): seq<string> {
    seq(|macs|, i requires 0 <= i < |macs| => macs[i].0)
  }

  /** The loop over the MACs; the second result says whether it was left early. */
  function CheckMacs(c: Crypto, m: Machine, secret: string, info: string, macs: seq<(string, string)>): (Machine, bool)
    decreases |macs|
  {
    if macs == [] then (m, false)
    else
      var (keyId, mac) := macs[0];
      match SplitKeyId(keyId)
      case None => (m.Cancel("m.invalid_message", "Invalid message"), true)
      case Some((keyType, deviceId)) =>
        if keyType != "ed25519" then (m.Cancel("m.key_mismatch", "Key mismatch"), true)
        else if deviceId != m.other.deviceId then CheckMacs(c, m, secret, info, macs[1..])
        else if mac != c.mac(secret, m.other.ed25519, info + keyId)
        then (m.Cancel("m.key_mismatch", "Key mismatch"), true)
        else CheckMacs(c, m.(verifiedDevices := m.verifiedDevices + [deviceId]), secret, info, macs[1..])
  }

  function ReceiveMac(c: Crypto, m: Machine, e: Message): (Machine, Option<Error>)
    requires e.MacMessage?
  {
    if m.Verified() then (m, None)
    else
      var (m1, ok) := EventOk(m, e.transactionId, e.sender);
      if !ok then (m1, None)
      else if m.state != KeyReceived then (Unexpected(m), None)
      else if m.secret.None? || m.chosenMac == "" then (m, Some(AssertionError))
      else
        var info := MacInfo(m.other.userId, m.other.deviceId, m.ownUser, m.ownDevice, m.transactionId);
        var keyIds := Join(",", Sorting.SortBy((s: string) => s, KeyIds(e.macs)));
        if e.keys != c.mac(m.secret.value, keyIds, info + "KEY_IDS")
        then (m.Cancel("m.key_mismatch", "Key mismatch"), None)
        else
          var (m2, left) := CheckMacs(c, m, m.secret.value, info, e.macs);
          if left then (m2, None)
          // Without a verified device the verification is canceled, and then goes on all the same.
          else
            var m3 := if m2.verifiedDevices == [] then m2.Cancel("m.key_mismatch", "Key mismatch") else m2;
            (m3.(state := MacReceived), None)
  }

  datatype Call =
    | CallAcceptVerification
    | CallAcceptSas
    | CallRejectSas
    | CallCancel
    | CallTimedOut(now: int)
    | CallReceive(message: Message)

  function Next(c: Crypto, m: Machine, call: Call): Machine {
    match call
    case CallAcceptVerification => AcceptVerification(m).0
    case CallAcceptSas => AcceptSas(m).0
    case CallRejectSas => RejectSas(m).0
    case CallCancel => CancelByUser(m)
    case CallTimedOut(now) => TimedOut(m, now).0
    case CallReceive(e) =>
      match e
      case AcceptMessage(_, _, _, _, _, _, _) => ReceiveAccept(m, e)
      case KeyMessage(_, _, _) => ReceiveKey(c, m, e).0
      case MacMessage(_, _, _, _) => ReceiveMac(c, m, e).0
      case CancelMessage(_, _, _, _) => CancelByUser(m)
      case StartMessage(_, _) => m
  }

  function After(c: Crypto, m: Machine, calls: seq<Call>): Machine
    decreases |calls|
  {
    if calls == [] then m else After(c, Next(c, m, calls[0]), calls[1..])
  }

  /** A machine that either side has just created. */
  ghost predicate Fresh(c: Crypto, m: Machine) {
    || (exists u, d, f, k, p, t, s, ms, now :: m == New(u, d, f, k, p, t, s, ms, now))
    || (exists u, d, f, k, p, start, now :: m == FromStart(c, u, d, f, k, p, start, now))
  }
}
