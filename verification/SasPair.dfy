/** Two honest machines joined by ordered message queues. */
module SasPair {
  import opened Wrappers
  import opened SasMachine
  import opened SasSafety
  import Sorting

  /** Two machines of the same verification that established a secret with each other. */
  ghost predicate Mirrored(c: Crypto, a: Machine, b: Machine) {
    && a.other == Peer(b.ownUser, b.ownDevice, b.ownFingerprint)
    && b.other == Peer(a.ownUser, a.ownDevice, a.ownFingerprint)
    && a.transactionId == b.transactionId && a.startedByUs != b.startedByUs
    && a.secret.Some? && a.secret == b.secret
    && a.theirKey == c.public(b.privateKey) && b.theirKey == c.public(a.privateKey)
  }

  /** Both sides derive the strings to compare from the same text, with either key agreement. */
  lemma SameExtraInfo(c: Crypto, a: Machine, b: Machine)
    requires Mirrored(c, a, b)
    ensures ExtraInfoV1(a) == ExtraInfoV1(b) && ExtraInfoV2(c, a) == ExtraInfoV2(c, b)
  {
    if !a.startedByUs {
      SameExtraInfoFromStarter(c, b, a);
    } else {
      SameExtraInfoFromStarter(c, a, b);
    }
  }

  lemma SameExtraInfoFromStarter(c: Crypto, a: Machine, b: Machine)
    requires Mirrored(c, a, b) && a.startedByUs
    ensures ExtraInfoV1(a) == ExtraInfoV1(b) && ExtraInfoV2(c, a) == ExtraInfoV2(c, b)
  {
  }

  lemma {:induction false} SplitAtBar(a: string, x: string, b: string, y: string)
    requires '|' !in a && '|' !in b && a + "|" + x == b + "|" + y
    ensures a == b && x == y
  {
    var s, t := a + "|" + x, b + "|" + y;
    assert s[1..] == t[1..];
    if a == "" || b == "" {
      assert s[0] == t[0];
      assert a == "" && b == "" && s[1..] == x && t[1..] == y;
    } else {
      assert s[1..] == a[1..] + "|" + x && t[1..] == b[1..] + "|" + y;
      assert a == [s[0]] + a[1..] && b == [t[0]] + b[1..];
      SplitAtBar(a[1..], x, b[1..], y);
    }
  }

  /**
   * The newer text binds the keys: an initiator and a responder of the same verification
   * that derive it equally see each other's keys. Public keys are base64, without a bar.
   */
  lemma ExtraInfoV2BindsKeys(c: Crypto, a: Machine, b: Machine)
    requires a.startedByUs && !b.startedByUs && a.transactionId == b.transactionId
    requires a.other.userId == b.ownUser && a.other.deviceId == b.ownDevice
    requires b.other.userId == a.ownUser && b.other.deviceId == a.ownDevice
    requires '|' !in c.public(a.privateKey) && '|' !in b.theirKey
    requires '|' !in c.public(b.privateKey) && '|' !in a.theirKey
    ensures ExtraInfoV2(c, a) == ExtraInfoV2(c, b) <==>
            a.theirKey == c.public(b.privateKey) && b.theirKey == c.public(a.privateKey)
  {
    var front := INFO + "|" + a.ownUser + "|" + a.ownDevice + "|";
    var middle := b.ownUser + "|" + b.ownDevice + "|";
    var tx := a.transactionId;
    var inA := middle + (a.theirKey + "|" + tx);
    var inB := middle + (c.public(b.privateKey) + "|" + tx);
    assert ExtraInfoV2(c, a) == front + (c.public(a.privateKey) + "|" + inA);
    assert ExtraInfoV2(c, b) == front + (b.theirKey + "|" + inB);
    if ExtraInfoV2(c, a) == ExtraInfoV2(c, b) {
      DropFront(front, c.public(a.privateKey) + "|" + inA, b.theirKey + "|" + inB);
      SplitAtBar(c.public(a.privateKey), inA, b.theirKey, inB);
      DropFront(middle, a.theirKey + "|" + tx, c.public(b.privateKey) + "|" + tx);
      SplitAtBar(a.theirKey, tx, c.public(b.privateKey), tx);
    }
  }

  lemma DropFront(front: string, x: string, y: string)
    requires front + x == front + y
    ensures x == y
  {
    assert x == (front + x)[|front|..] && y == (front + y)[|front|..];
  }

  lemma SingleKeyId(keyId: string, mac: string)
    ensures Join(",", Sorting.SortBy((s: string) => s, KeyIds([(keyId, mac)]))) == keyId
  {
    var key := (s: string) => s;
    assert KeyIds([(keyId, mac)]) == [keyId];
    assert [keyId][1..] == [];
    assert Sorting.SortBy(key, [keyId]) == Sorting.Insert(key, keyId, []) == [keyId];
  }

  lemma SingleMac(c: Crypto, m: Machine, info: string)
    requires m.secret.Some? && m.verifiedDevices == []
    ensures
      var keyId := "ed25519:" + m.other.deviceId;
      CheckMacs(c, m, m.secret.value, info, [(keyId, c.mac(m.secret.value, m.other.ed25519, info + keyId))]) ==
      if ':' !in m.other.deviceId then (m.(verifiedDevices := [m.other.deviceId]), false)
      else (m.Cancel("m.invalid_message", "Invalid message"), true)
  {
    var keyId := "ed25519:" + m.other.deviceId;
    var macs := [(keyId, c.mac(m.secret.value, m.other.ed25519, info + keyId))];
    assert macs[1..] == [] && [] + [m.other.deviceId] == [m.other.deviceId];
    SplitKeyIdIff(keyId, m.other.deviceId);
    if ':' in m.other.deviceId {
      ColonDoesNotSplit(m.other.deviceId);
    }
    hide SplitKeyId;
  }

  /** An honest MAC message is accepted exactly when the sender's device id has no colon. */
  lemma HonestMacAcceptedIff(c: Crypto, a: Machine, b: Machine)
    requires Mirrored(c, a, b) && a.state == KeyReceived && a.chosenMac != "" && a.verifiedDevices == []
    requires b.sasAccepted && b.state != Canceled && b.chosenMac != ""
    ensures GetMac(c, b).Ok? && GetMac(c, b).value.MacMessage?
    ensures ReceiveMac(c, a, GetMac(c, b).value) ==
            (if ':' !in b.ownDevice then a.(verifiedDevices := [b.ownDevice], state := MacReceived)
             else a.Cancel("m.invalid_message", "Invalid message"), None)
  {
    var info := MacInfo(b.ownUser, b.ownDevice, a.ownUser, a.ownDevice, a.transactionId);
    var keyId := "ed25519:" + b.ownDevice;
    SingleKeyId(keyId, c.mac(b.secret.value, b.ownFingerprint, info + keyId));
    SingleMac(c, a, info);
    hide CheckMacs, Sorting.SortBy, MacInfo, Join, KeyIds;
  }

  lemma {:induction false} FindPresent(s: string, c: char)
    requires c in s
    ensures Find(s, c) < |s|
  {
    if s[0] == c {
    } else {
      assert s == [s[0]] + s[1..];
      FindPresent(s[1..], c);
    }
  }

  lemma ColonDoesNotSplit(d: string)
    requires ':' in d
    ensures SplitKeyId("ed25519:" + d) == None
  {
    var s := "ed25519:" + d;
    assert s[..7] == "ed25519" && s[8..] == d;
    FindFirst(s, ':', 7);
    FindPresent(d, ':');
  }

  datatype Side = Side(userId: string, deviceId: string, fingerprint: string, privateKey: string, created: int)

  /** Alice starts the verification of Bob's device. */
  datatype Setup = Setup(c: Crypto, alice: Side, bob: Side, transactionId: string)
  {
    /** The key agreement works, hashes are not empty, and device ids have no colon. */
    ghost predicate Honest() {
      && c.agree(alice.privateKey, c.public(bob.privateKey)).Some?
      && c.agree(alice.privateKey, c.public(bob.privateKey)) == c.agree(bob.privateKey, c.public(alice.privateKey))
      && (forall s :: c.hash(s) != "")
      && ':' !in alice.deviceId && ':' !in bob.deviceId
    }
  }

  /** The two objects and the messages under way; Bob's object is created by the start message. */
  datatype System = System(
    alice: Machine, bob: Option<Machine>, toBob: seq<Message>, toAlice: seq<Message>,
    offerAccepted: bool, aliceConfirmed: bool, bobConfirmed: bool)

  datatype Action = DeliverToBob | DeliverToAlice | BobAccepts | AliceConfirms | BobConfirms

  function Reply(r: Result<Message, Error>): seq<Message> {
    if r.Ok? then [r.value] else []
  }

  /** What the client does with an event of a known verification: the new object, and the answers. */
  function Handle(c: Crypto, m: Machine, e: Message): (Machine, seq<Message>) {
    match e
    case StartMessage(_, _) => (m, [])
    case AcceptMessage(_, _, _, _, _, _, _) =>
      var m' := ReceiveAccept(m, e);
      (m', Reply(if m'.state == Canceled then GetCancellation(m') else ShareKey(c, m')))
    case CancelMessage(_, _, _, _) => (CancelByUser(m), [])
    case KeyMessage(_, _, _) =>
      var m' := ReceiveKey(c, m, e).0;
      (m', if m'.state == Canceled then Reply(GetCancellation(m'))
           else if m'.startedByUs then [] else Reply(ShareKey(c, m')))
    case MacMessage(_, _, _, _) =>
      var m' := ReceiveMac(c, m, e).0;
      (m', if m'.state == Canceled then Reply(GetCancellation(m')) else [])
  }

  function Begin(u: Setup): System {
    var alice := New(u.alice.userId, u.alice.deviceId, u.alice.fingerprint, u.alice.privateKey,
                     Peer(u.bob.userId, u.bob.deviceId, u.bob.fingerprint), u.transactionId, [], [], u.alice.created);
    System(alice, None, Reply(StartVerification(alice)), [], false, false, false)
  }

  predicate Enabled(s: System, a: Action) {
    match a
    case DeliverToBob => s.toBob != []
    case DeliverToAlice => s.toAlice != []
    case BobAccepts => s.bob.Some? && !s.offerAccepted
    case AliceConfirms => s.alice.secret.Some? && !s.aliceConfirmed
    case BobConfirms => s.bob.Some? && s.bob.value.secret.Some? && !s.bobConfirmed
  }

  function Step(u: Setup, s: System, a: Action): System
    requires Enabled(s, a)
  {
    match a
    case DeliverToBob =>
      var e, rest := s.toBob[0], s.toBob[1..];
      if s.bob.None? then
        if e.StartMessage? then
          s.(bob := Some(FromStart(u.c, u.bob.userId, u.bob.deviceId, u.bob.fingerprint, u.bob.privateKey,
                                   Peer(u.alice.userId, u.alice.deviceId, u.alice.fingerprint),
                                   e.start, u.bob.created)),
             toBob := rest)
        else s.(toBob := rest)
      else
        var (bob, answers) := Handle(u.c, s.bob.value, e);
        s.(bob := Some(bob), toBob := rest, toAlice := s.toAlice + answers)
    case DeliverToAlice =>
      var (alice, answers) := Handle(u.c, s.alice, s.toAlice[0]);
      s.(alice := alice, toAlice := s.toAlice[1..], toBob := s.toBob + answers)
    case BobAccepts =>
      var (bob, r) := AcceptVerification(s.bob.value);
      s.(bob := Some(bob), toAlice := s.toAlice + Reply(r), offerAccepted := true)
    case AliceConfirms =>
      var alice := AcceptSas(s.alice).0;
      s.(alice := alice, toBob := s.toBob + Reply(GetMac(u.c, alice)), aliceConfirmed := true)
    case BobConfirms =>
      var bob := AcceptSas(s.bob.value).0;
      s.(bob := Some(bob), toAlice := s.toAlice + Reply(GetMac(u.c, bob)), bobConfirmed := true)
  }

  /** The states of a schedule, every action of which has to be enabled. */
  ghost predicate IsRun(u: Setup, states: seq<System>, actions: seq<Action>) {
    && |states| == |actions| + 1 && states[0] == Begin(u)
    && (forall i :: 0 <= i < |actions| ==>
         Enabled(states[i], actions[i]) && states[i + 1] == Step(u, states[i], actions[i]))
  }

  /** How far a verification is: the messages each side received, and what the users did. */
  datatype Progress = Progress(aliceGot: nat, bobGot: nat, offerAccepted: bool,
                               aliceConfirmed: bool, bobConfirmed: bool) {
    function AliceSent(): nat {
      1 + (if aliceGot >= 1 then 1 else 0) + (if aliceConfirmed then 1 else 0)
    }

    function BobSent(): nat {
      (if offerAccepted then 1 else 0) + (if bobGot >= 2 then 1 else 0) + (if bobConfirmed then 1 else 0)
    }

    ghost predicate Valid() {
      && bobGot <= AliceSent() && aliceGot <= BobSent()
      && (offerAccepted ==> bobGot >= 1) && (aliceGot >= 1 ==> offerAccepted)
      && (aliceConfirmed ==> aliceGot >= 2) && (bobConfirmed ==> bobGot >= 2)
    }

    function Total(): nat {
      aliceGot + bobGot + (if offerAccepted then 1 else 0) + (if aliceConfirmed then 1 else 0)
          + (if bobConfirmed then 1 else 0)
    }
  }

  function SharedSecret(u: Setup): Option<string> {
    u.c.agree(u.alice.privateKey, u.c.public(u.bob.privateKey))
  }

  function BobStarted(u: Setup): Machine {
    FromStart(u.c, u.bob.userId, u.bob.deviceId, u.bob.fingerprint, u.bob.privateKey,
              Peer(u.alice.userId, u.alice.deviceId, u.alice.fingerprint), Begin(u).alice.StartContent(), u.bob.created)
  }

  function AliceAt(u: Setup, p: Progress): Machine {
    var m0 := Begin(u).alice.(sasAccepted := p.aliceConfirmed);
    var m1 := if p.aliceGot >= 1
              then m0.(commitment := BobStarted(u).commitment, chosenMac := MAC,
                       chosenAgreement := Some(AGREEMENT_V2), strings := STRINGS, state := Accepted)
              else m0;
    var m2 := if p.aliceGot >= 2
              then m1.(secret := SharedSecret(u), theirKey := u.c.public(u.bob.privateKey), state := KeyReceived)
              else m1;
    if p.aliceGot >= 3 then m2.(verifiedDevices := [u.bob.deviceId], state := MacReceived) else m2
  }

  function BobAt(u: Setup, p: Progress): Machine {
    var m0 := BobStarted(u).(sasAccepted := p.bobConfirmed);
    var m1 := if p.offerAccepted then m0.(chosenMac := MAC, chosenAgreement := Some(AGREEMENT_V2)) else m0;
    var m2 := if p.bobGot >= 2
              then m1.(secret := SharedSecret(u), theirKey := u.c.public(u.alice.privateKey), state := KeyReceived)
              else m1;
    if p.bobGot >= 3 then m2.(verifiedDevices := [u.alice.deviceId], state := MacReceived) else m2
  }

  /** The messages each side sends in the course of the protocol. */
  function AliceMessages(u: Setup): seq<Message> {
    Reply(StartVerification(Begin(u).alice)) + Reply(ShareKey(u.c, Begin(u).alice))
    + Reply(GetMac(u.c, AliceAt(u, Progress(2, 2, true, true, false))))
  }

  function BobMessages(u: Setup): seq<Message> {
    Reply(AcceptVerification(BobStarted(u)).1) + Reply(ShareKey(u.c, BobStarted(u)))
    + Reply(GetMac(u.c, BobAt(u, Progress(1, 2, true, false, true))))
  }

  lemma MacsExist(u: Setup)
    requires u.Honest()
    ensures GetMac(u.c, AliceAt(u, Progress(2, 2, true, true, false))).Ok?
    ensures GetMac(u.c, BobAt(u, Progress(1, 2, true, false, true))).Ok?
  {
  }

  lemma MessagesAre(u: Setup)
    requires u.Honest()
    ensures |AliceMessages(u)| == 3 && |BobMessages(u)| == 3
    ensures AliceMessages(u)[0] == StartMessage(u.alice.userId, Begin(u).alice.StartContent())
    ensures AliceMessages(u)[1] == KeyMessage(u.alice.userId, u.transactionId, u.c.public(u.alice.privateKey))
    ensures BobMessages(u)[0] == AcceptMessage(u.bob.userId, u.transactionId, AGREEMENT_V2, HASH, MAC, STRINGS,
                                               BobStarted(u).commitment.value)
    ensures BobMessages(u)[1] == KeyMessage(u.bob.userId, u.transactionId, u.c.public(u.bob.privateKey))
    ensures BobStarted(u).state == Started
  {
    MacsExist(u);
    hide GetMac, AliceAt, BobAt;
  }

  function Between(ms: seq<Message>, i: nat, j: nat): seq<Message> {
    if i <= j <= |ms| then ms[i..j] else []
  }

  /** The messages under way. */
  function ToBob(u: Setup, p: Progress): seq<Message> {
    Between(AliceMessages(u), p.bobGot, p.AliceSent())
  }

  function ToAlice(u: Setup, p: Progress): seq<Message> {
    Between(BobMessages(u), p.aliceGot, p.BobSent())
  }

  /** What a side sends between two points. */
  function AliceSends(u: Setup, p: Progress, q: Progress): seq<Message> {
    Between(AliceMessages(u), p.AliceSent(), q.AliceSent())
  }

  function BobSends(u: Setup, p: Progress, q: Progress): seq<Message> {
    Between(BobMessages(u), p.BobSent(), q.BobSent())
  }

  /** The state of the system at some point of the protocol. */
  function StateAt(u: Setup, p: Progress): System {
    System(AliceAt(u, p), if p.bobGot >= 1 then Some(BobAt(u, p)) else None,
           ToBob(u, p), ToAlice(u, p),
           p.offerAccepted, p.aliceConfirmed, p.bobConfirmed)
  }

  lemma AliceGetsAccept(u: Setup, p: Progress)
    requires u.Honest() && p.Valid() && p.aliceGot == 0 && p.BobSent() > 0
    ensures Handle(u.c, AliceAt(u, p), BobMessages(u)[0]) == (AliceAt(u, p.(aliceGot := 1)), [AliceMessages(u)[1]])
  {
    MessagesAre(u);
    hide AliceMessages, BobMessages;
  }

  lemma AliceGetsKey(u: Setup, p: Progress)
    requires u.Honest() && p.Valid() && p.aliceGot == 1 && p.BobSent() > 1
    ensures Handle(u.c, AliceAt(u, p), BobMessages(u)[1]) == (AliceAt(u, p.(aliceGot := 2)), [])
  {
    MessagesAre(u);
    hide AliceMessages, BobMessages;
  }

  lemma BobGetsKey(u: Setup, p: Progress)
    requires u.Honest() && p.Valid() && p.bobGot == 1 && p.AliceSent() > 1
    ensures Handle(u.c, BobAt(u, p), AliceMessages(u)[1]) == (BobAt(u, p.(bobGot := 2)), [BobMessages(u)[1]])
  {
    MessagesAre(u);
    hide AliceMessages, BobMessages;
  }

  /** Once both sides have a secret it is the same. */
  lemma BothMirrored(u: Setup, p: Progress)
    requires u.Honest() && p.Valid() && p.aliceGot >= 2
    ensures p.bobGot >= 2 && Mirrored(u.c, AliceAt(u, p), BobAt(u, p)) && Mirrored(u.c, BobAt(u, p), AliceAt(u, p))
  {
  }

  /** The last message makes a side that has the secret a verified one. */
  lemma LastStep(u: Setup, p: Progress)
    requires u.Honest() && p.Valid()
    ensures p.aliceGot == 2 ==>
              AliceAt(u, p.(aliceGot := 3)) == AliceAt(u, p).(verifiedDevices := [u.bob.deviceId], state := MacReceived)
              && AliceAt(u, p).state == KeyReceived && AliceAt(u, p).chosenMac != ""
                   && AliceAt(u, p).verifiedDevices == []
    ensures p.bobGot == 2 ==>
              BobAt(u, p.(bobGot := 3)) == BobAt(u, p).(verifiedDevices := [u.alice.deviceId], state := MacReceived)
              && BobAt(u, p).state == KeyReceived && BobAt(u, p).chosenMac != "" && BobAt(u, p).verifiedDevices == []
  {
  }

  /** A side that confirmed the string can send its MAC. */
  lemma ConfirmedSides(u: Setup, p: Progress)
    requires u.Honest() && p.Valid()
    ensures p.aliceConfirmed ==>
        AliceAt(u, p).sasAccepted && AliceAt(u, p).state != Canceled && AliceAt(u, p).chosenMac != ""
    ensures p.bobConfirmed ==> BobAt(u, p).sasAccepted && BobAt(u, p).state != Canceled && BobAt(u, p).chosenMac != ""
    ensures AliceAt(u, p).ownDevice == u.alice.deviceId && BobAt(u, p).ownDevice == u.bob.deviceId
  {
  }

  lemma MacsAre(u: Setup, p: Progress)
    requires u.Honest() && p.Valid() && |AliceMessages(u)| == 3 && |BobMessages(u)| == 3
    ensures p.aliceConfirmed ==> GetMac(u.c, AliceAt(u, p)) == Ok(AliceMessages(u)[2])
    ensures p.bobConfirmed ==> GetMac(u.c, BobAt(u, p)) == Ok(BobMessages(u)[2])
  {
  }

  lemma AliceGetsMac(u: Setup, p: Progress)
    requires u.Honest() && p.Valid() && p.aliceGot == 2 && p.BobSent() > 2
    ensures |BobMessages(u)| == 3
    ensures Handle(u.c, AliceAt(u, p), BobMessages(u)[2]) == (AliceAt(u, p.(aliceGot := 3)), [])
  {
    hide AliceMessages, BobMessages, ReceiveMac, GetMac, AliceAt, BobAt, Mirrored;
    MessagesAre(u);
    MacsAre(u, p);
    BothMirrored(u, p);
    LastStep(u, p);
    ConfirmedSides(u, p);
    HonestMacAcceptedIff(u.c, AliceAt(u, p), BobAt(u, p));
  }

  lemma BobGetsMac(u: Setup, p: Progress)
    requires u.Honest() && p.Valid() && p.bobGot == 2 && p.AliceSent() > 2
    ensures |AliceMessages(u)| == 3
    ensures Handle(u.c, BobAt(u, p), AliceMessages(u)[2]) == (BobAt(u, p.(bobGot := 3)), [])
  {
    hide AliceMessages, BobMessages, ReceiveMac, GetMac, AliceAt, BobAt, Mirrored;
    MessagesAre(u);
    MacsAre(u, p);
    BothMirrored(u, p);
    LastStep(u, p);
    ConfirmedSides(u, p);
    HonestMacAcceptedIff(u.c, BobAt(u, p), AliceAt(u, p));
  }

  ghost predicate EnabledAt(p: Progress, a: Action) {
    match a
    case DeliverToBob => p.bobGot < p.AliceSent()
    case DeliverToAlice => p.aliceGot < p.BobSent()
    case BobAccepts => p.bobGot >= 1 && !p.offerAccepted
    case AliceConfirms => p.aliceGot >= 2 && !p.aliceConfirmed
    case BobConfirms => p.bobGot >= 2 && !p.bobConfirmed
  }

  function Advance(p: Progress, a: Action): Progress {
    match a
    case DeliverToBob => p.(bobGot := p.bobGot + 1)
    case DeliverToAlice => p.(aliceGot := p.aliceGot + 1)
    case BobAccepts => p.(offerAccepted := true)
    case AliceConfirms => p.(aliceConfirmed := true)
    case BobConfirms => p.(bobConfirmed := true)
  }

  lemma SecretsAt(u: Setup, p: Progress)
    requires u.Honest() && p.Valid()
    ensures AliceAt(u, p).secret.Some? <==> p.aliceGot >= 2
    ensures BobAt(u, p).secret.Some? <==> p.bobGot >= 2
  {
  }

  lemma EnabledAgrees(u: Setup, p: Progress, a: Action)
    requires u.Honest() && p.Valid()
    ensures Enabled(StateAt(u, p), a) <==> EnabledAt(p, a)
  {
    MessagesAre(u);
    SecretsAt(u, p);
    hide AliceMessages, BobMessages, AliceAt, BobAt;
  }

  lemma AdvanceIsValid(p: Progress, a: Action)
    requires p.Valid() && EnabledAt(p, a)
    ensures Advance(p, a).Valid() && Advance(p, a).Total() == p.Total() + 1
  {
  }

  /** A queue that holds the messages from `i` to `j` loses its head, or gets the messages up to `k`. */
  lemma QueueMoves(ms: seq<Message>, i: nat, j: nat, k: nat)
    requires i <= j <= k <= |ms|
    ensures i < j ==>
      Between(ms, i, j) != [] && Between(ms, i, j)[0] == ms[i] && Between(ms, i, j)[1..] == Between(ms, i + 1, j)
    ensures Between(ms, i, j) + Between(ms, j, k) == Between(ms, i, k)
  {
  }

  lemma NoneOrOne(ms: seq<Message>, i: nat)
    requires i <= |ms|
    ensures Between(ms, i, i) == [] && (i < |ms| ==> Between(ms, i, i + 1) == [ms[i]])
  {
  }

  lemma BobsHandling(u: Setup, p: Progress)
    requires u.Honest() && p.Valid() && 0 < p.bobGot < p.AliceSent() && |AliceMessages(u)| == 3
    ensures var p' := Advance(p, DeliverToBob);
      Handle(u.c, BobAt(u, p), AliceMessages(u)[p.bobGot]) == (BobAt(u, p'), BobSends(u, p, p'))
  {
    hide AliceMessages, BobMessages, Handle, BobAt, Between;
    MessagesAre(u);
    NoneOrOne(BobMessages(u), p.BobSent());
    if p.bobGot == 1 {
      BobGetsKey(u, p);
    } else {
      BobGetsMac(u, p);
    }
  }

  lemma AlicesHandling(u: Setup, p: Progress)
    requires u.Honest() && p.Valid() && p.aliceGot < p.BobSent() && |BobMessages(u)| == 3
    ensures var p' := Advance(p, DeliverToAlice);
      Handle(u.c, AliceAt(u, p), BobMessages(u)[p.aliceGot]) == (AliceAt(u, p'), AliceSends(u, p, p'))
  {
    hide AliceMessages, BobMessages, Handle, AliceAt, Between;
    MessagesAre(u);
    NoneOrOne(AliceMessages(u), p.AliceSent());
    if p.aliceGot == 0 {
      AliceGetsAccept(u, p);
    } else if p.aliceGot == 1 {
      AliceGetsKey(u, p);
    } else {
      AliceGetsMac(u, p);
    }
  }

  /** How the queues change when a side receives a message, or sends what it sends between two points. */
  lemma QueueToBob(u: Setup, p: Progress, q: Progress)
    requires u.Honest() && p.Valid() && q.Valid()
    ensures |AliceMessages(u)| == 3
    ensures q.bobGot == p.bobGot && q.AliceSent() >= p.AliceSent() ==> ToBob(u, p) + AliceSends(u, p, q) == ToBob(u, q)
    ensures q.bobGot == p.bobGot + 1 && q.AliceSent() == p.AliceSent() ==>
              ToBob(u, p) != [] && ToBob(u, p)[0] == AliceMessages(u)[p.bobGot] && ToBob(u, p)[1..] == ToBob(u, q)
  {
    MessagesAre(u);
    QueueMoves(AliceMessages(u), p.bobGot, p.AliceSent(),
               if q.AliceSent() >= p.AliceSent() then q.AliceSent() else p.AliceSent());
    hide AliceMessages, Between;
  }

  lemma QueueToAlice(u: Setup, p: Progress, q: Progress)
    requires u.Honest() && p.Valid() && q.Valid()
    ensures |BobMessages(u)| == 3
    ensures q.aliceGot == p.aliceGot && q.BobSent() >= p.BobSent() ==>
        ToAlice(u, p) + BobSends(u, p, q) == ToAlice(u, q)
    ensures q.aliceGot == p.aliceGot + 1 && q.BobSent() == p.BobSent() ==>
              ToAlice(u, p) != [] && ToAlice(u, p)[0] == BobMessages(u)[p.aliceGot]
                  && ToAlice(u, p)[1..] == ToAlice(u, q)
  {
    MessagesAre(u);
    QueueMoves(BobMessages(u), p.aliceGot, p.BobSent(),
               if q.BobSent() >= p.BobSent() then q.BobSent() else p.BobSent());
    hide BobMessages, Between;
  }

  /** A side only depends on what it received and what its user did. */
  lemma SidesAreIndependent(u: Setup, p: Progress, q: Progress)
    ensures p.aliceGot == q.aliceGot && p.aliceConfirmed == q.aliceConfirmed ==> AliceAt(u, p) == AliceAt(u, q)
    ensures p.bobGot == q.bobGot && p.offerAccepted == q.offerAccepted && p.bobConfirmed == q.bobConfirmed ==>
              BobAt(u, p) == BobAt(u, q)
    ensures p.bobGot == q.bobGot && p.AliceSent() == q.AliceSent() ==> ToBob(u, p) == ToBob(u, q)
    ensures p.aliceGot == q.aliceGot && p.BobSent() == q.BobSent() ==> ToAlice(u, p) == ToAlice(u, q)
  {
    hide AliceMessages, BobMessages, Between;
  }

  lemma AliceReceives(u: Setup, p: Progress)
    requires u.Honest() && p.Valid() && p.aliceGot < p.BobSent()
    ensures Enabled(StateAt(u, p), DeliverToAlice)
    ensures Step(u, StateAt(u, p), DeliverToAlice) == StateAt(u, Advance(p, DeliverToAlice))
  {
    var p' := Advance(p, DeliverToAlice);
    QueueToAlice(u, p, p');
    QueueToBob(u, p, p');
    SidesAreIndependent(u, p, p');
    AlicesHandling(u, p);
    hide AliceMessages, BobMessages, Handle, AliceAt, BobAt, ToBob, ToAlice, AliceSends;
  }

  lemma BobReceivesStart(u: Setup, p: Progress)
    requires u.Honest() && p.Valid() && p.bobGot == 0
    ensures Enabled(StateAt(u, p), DeliverToBob)
    ensures Step(u, StateAt(u, p), DeliverToBob) == StateAt(u, Advance(p, DeliverToBob))
  {
    var p' := Advance(p, DeliverToBob);
    MessagesAre(u);
    QueueToAlice(u, p, p');
    QueueToBob(u, p, p');
    SidesAreIndependent(u, p, p');
    assert BobAt(u, p') == BobStarted(u);
    assert BobSends(u, p, p') == [];
    hide AliceMessages, BobMessages, Handle, AliceAt, BobAt, ToBob, ToAlice, BobSends, FromStart;
  }

  lemma BobReceives(u: Setup, p: Progress)
    requires u.Honest() && p.Valid() && 0 < p.bobGot < p.AliceSent()
    ensures Enabled(StateAt(u, p), DeliverToBob)
    ensures Step(u, StateAt(u, p), DeliverToBob) == StateAt(u, Advance(p, DeliverToBob))
  {
    var p' := Advance(p, DeliverToBob);
    QueueToAlice(u, p, p');
    QueueToBob(u, p, p');
    SidesAreIndependent(u, p, p');
    BobsHandling(u, p);
    hide AliceMessages, BobMessages, Handle, AliceAt, BobAt, ToBob, ToAlice, BobSends, FromStart;
  }

  lemma BobAcceptsOffer(u: Setup, p: Progress)
    requires u.Honest() && p.Valid() && EnabledAt(p, BobAccepts)
    ensures Enabled(StateAt(u, p), BobAccepts)
    ensures Step(u, StateAt(u, p), BobAccepts) == StateAt(u, Advance(p, BobAccepts))
  {
    var p' := Advance(p, BobAccepts);
    SidesAreIndependent(u, p, p');
    QueueToAlice(u, p, p');
    OfferIsFirst(u, p);
    hide ToBob, ToAlice, BobSends, AliceAt, BobAt, AcceptVerification, Reply;
  }

  lemma AliceConfirmsString(u: Setup, p: Progress)
    requires u.Honest() && p.Valid() && EnabledAt(p, AliceConfirms)
    ensures Enabled(StateAt(u, p), AliceConfirms)
    ensures Step(u, StateAt(u, p), AliceConfirms) == StateAt(u, Advance(p, AliceConfirms))
  {
    var p' := Advance(p, AliceConfirms);
    SidesAreIndependent(u, p, p');
    SecretsAt(u, p);
    QueueToBob(u, p, p');
    AliceMacIsLast(u, p);
    hide ToBob, ToAlice, AliceSends, AliceAt, BobAt, GetMac, AcceptSas, Reply;
  }

  lemma BobConfirmsString(u: Setup, p: Progress)
    requires u.Honest() && p.Valid() && EnabledAt(p, BobConfirms)
    ensures Enabled(StateAt(u, p), BobConfirms)
    ensures Step(u, StateAt(u, p), BobConfirms) == StateAt(u, Advance(p, BobConfirms))
  {
    var p' := Advance(p, BobConfirms);
    SidesAreIndependent(u, p, p');
    SecretsAt(u, p);
    QueueToAlice(u, p, p');
    BobMacIsLast(u, p);
    hide ToBob, ToAlice, BobSends, AliceAt, BobAt, GetMac, AcceptSas, Reply;
  }

  lemma OfferIsFirst(u: Setup, p: Progress)
    requires u.Honest() && p.Valid() && EnabledAt(p, BobAccepts)
    ensures
      var (bob, r) := AcceptVerification(BobAt(u, p));
      && bob == BobAt(u, Advance(p, BobAccepts))
      && Reply(r) == BobSends(u, p, Advance(p, BobAccepts))
  {
    MessagesAre(u);
    hide BobMessages;
  }

  lemma AliceMacIsLast(u: Setup, p: Progress)
    requires u.Honest() && p.Valid() && EnabledAt(p, AliceConfirms)
    ensures
      var p' := Advance(p, AliceConfirms);
      && AcceptSas(AliceAt(u, p)).0 == AliceAt(u, p')
      && Reply(GetMac(u.c, AliceAt(u, p'))) == AliceSends(u, p, p')
  {
    hide GetMac, AliceAt, BobAt, AliceMessages, BobMessages, Between, ToBob, ToAlice, AcceptSas;
    var p' := Advance(p, AliceConfirms);
    AdvanceIsValid(p, AliceConfirms);
    StringAccepted(u, p);
    MessagesAre(u);
    MacsAre(u, p');
    NoneOrOne(AliceMessages(u), 2);
  }

  lemma BobMacIsLast(u: Setup, p: Progress)
    requires u.Honest() && p.Valid() && EnabledAt(p, BobConfirms)
    ensures
      var p' := Advance(p, BobConfirms);
      && AcceptSas(BobAt(u, p)).0 == BobAt(u, p')
      && Reply(GetMac(u.c, BobAt(u, p'))) == BobSends(u, p, p')
  {
    hide GetMac, AliceAt, BobAt, AliceMessages, BobMessages, Between, ToBob, ToAlice, AcceptSas;
    var p' := Advance(p, BobConfirms);
    AdvanceIsValid(p, BobConfirms);
    StringAccepted(u, p);
    MessagesAre(u);
    MacsAre(u, p');
    NoneOrOne(BobMessages(u), 2);
  }

  lemma StringAccepted(u: Setup, p: Progress)
    requires u.Honest() && p.Valid()
    ensures p.aliceGot == 2 || p.aliceGot == 3 ==> AcceptSas(AliceAt(u, p)).0 == AliceAt(u, p.(aliceConfirmed := true))
    ensures p.bobGot == 2 || p.bobGot == 3 ==> AcceptSas(BobAt(u, p)).0 == BobAt(u, p.(bobConfirmed := true))
  {
  }

  /** Every enabled action leads on to the next point of the protocol. */
  lemma StepAdvances(u: Setup, p: Progress, a: Action)
    requires u.Honest() && p.Valid() && Enabled(StateAt(u, p), a)
    ensures EnabledAt(p, a) && Step(u, StateAt(u, p), a) == StateAt(u, Advance(p, a))
  {
    EnabledAgrees(u, p, a);
    hide StateAt, Step;
    match a
    case DeliverToBob =>
      if p.bobGot == 0 {
        BobReceivesStart(u, p);
      } else {
        BobReceives(u, p);
      }
    case DeliverToAlice => AliceReceives(u, p);
    case BobAccepts => BobAcceptsOffer(u, p);
    case AliceConfirms => AliceConfirmsString(u, p);
    case BobConfirms => BobConfirmsString(u, p);
  }

  lemma {:induction false} RunProgress(u: Setup, states: seq<System>, actions: seq<Action>, n: nat)
    returns (p: Progress)
    requires u.Honest() && IsRun(u, states, actions) && n <= |actions|
    ensures p.Valid() && p.Total() == n && states[n] == StateAt(u, p)
  {
    if n == 0 {
      p := Progress(0, 0, false, false, false);
      MessagesAre(u);
      assert Between(BobMessages(u), 0, 0) == [];
      NoneOrOne(AliceMessages(u), 0);
      hide BobMessages, Between;
    } else {
      var before := RunProgress(u, states, actions, n - 1);
      hide StateAt, Step;
      StepAdvances(u, before, actions[n - 1]);
      AdvanceIsValid(before, actions[n - 1]);
      p := Advance(before, actions[n - 1]);
    }
  }

  ghost predicate Quiet(s: System) {
    forall a: Action :: !Enabled(s, a)
  }

  /** Both sides are verified, with exactly the other device. */
  ghost predicate BothVerified(u: Setup, s: System) {
    && s.alice.Verified() && s.alice.verifiedDevices == [u.bob.deviceId]
    && s.bob.Some? && s.bob.value.Verified() && s.bob.value.verifiedDevices == [u.alice.deviceId]
  }

  lemma QuietIsDone(u: Setup, p: Progress)
    requires u.Honest() && p.Valid()
    ensures p.Total() <= 9
    ensures Quiet(StateAt(u, p)) <==> p.Total() == 9
    ensures p.Total() == 9 ==> BothVerified(u, StateAt(u, p))
  {
    EnabledAgrees(u, p, DeliverToBob);
    EnabledAgrees(u, p, DeliverToAlice);
    EnabledAgrees(u, p, BobAccepts);
    EnabledAgrees(u, p, AliceConfirms);
    EnabledAgrees(u, p, BobConfirms);
    if p.Total() == 9 {
      VerifiedAtTheEnd(u);
      assert p == Progress(3, 3, true, true, true);
    }
    hide StateAt, Enabled, BothVerified;
    forall a ensures Enabled(StateAt(u, p), a) <==> EnabledAt(p, a) {
      EnabledAgrees(u, p, a);
    }
    if p.Total() < 9 {
      assert EnabledAt(p, DeliverToBob) || EnabledAt(p, DeliverToAlice) || EnabledAt(p, BobAccepts)
          || EnabledAt(p, AliceConfirms) || EnabledAt(p, BobConfirms);
    }
  }

  lemma VerifiedAtTheEnd(u: Setup)
    requires u.Honest()
    ensures BothVerified(u, StateAt(u, Progress(3, 3, true, true, true)))
  {
  }

  /**
   * Two honest sides, whatever the order of message deliveries and user actions: nobody ever
   * cancels; the run comes to rest after exactly nine actions and never before; and then both
   * sides are verified with exactly the other device.
   */
  lemma HonestRunsVerify(u: Setup, states: seq<System>, actions: seq<Action>)
    requires u.Honest() && IsRun(u, states, actions)
    ensures
      var s := states[|actions|];
      && |actions| <= 9
      && (Quiet(s) <==> |actions| == 9)
      && (|actions| == 9 ==> BothVerified(u, s))
      && s.alice.state != Canceled && (s.bob.Some? ==> s.bob.value.state != Canceled)
  {
    hide Quiet, BothVerified, AliceMessages, BobMessages, IsRun;
    var p := RunProgress(u, states, actions, |actions|);
    QuietIsDone(u, p);
    MessagesAre(u);
  }

  /** In such a run, as soon as both sides have the secret, both show the user the same string. */
  lemma HonestRunsAgree(u: Setup, states: seq<System>, actions: seq<Action>)
    requires u.Honest() && IsRun(u, states, actions)
    requires states[|actions|].alice.secret.Some?
    ensures
      var s := states[|actions|];
      && s.bob.Some? && s.bob.value.secret == s.alice.secret
      && ExtraInfo(u.c, s.alice).Ok? && ExtraInfo(u.c, s.alice) == ExtraInfo(u.c, s.bob.value)
  {
    hide ExtraInfoV1, ExtraInfoV2, AliceAt, BobAt, ToBob, ToAlice, IsRun;
    var p := RunProgress(u, states, actions, |actions|);
    SecretsAt(u, p);
    BothMirrored(u, p);
    SameExtraInfo(u.c, AliceAt(u, p), BobAt(u, p));
    AgreementChosen(u, p);
  }

  lemma AgreementChosen(u: Setup, p: Progress)
    requires u.Honest() && p.Valid() && p.aliceGot >= 2
    ensures AliceAt(u, p).chosenAgreement == Some(AGREEMENT_V2) && BobAt(u, p).chosenAgreement == Some(AGREEMENT_V2)
  {
  }
}
