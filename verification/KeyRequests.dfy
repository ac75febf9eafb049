/**
 * Room key requests of other devices: a request moves between the received requests,
 * those waiting for an Olm session and those of untrusted devices until it is answered or
 * dropped, and a cancellation may arrive at any time.
 */
module KeyRequests {
  import opened Wrappers
  import opened Sequences
  import opened Dicts
  import opened Devices

  type RequestId = string
  type SessionKey = (string, string, string)  // room, sender key, session id

  datatype KeyRequest = KeyRequest(id: RequestId, sender: UserId, device: DeviceId, megolm: bool, session: SessionKey) {
    function Key(): DeviceKey {
      (sender, device)
    }
  }

  datatype Cancellation = Cancellation(id: RequestId, sender: UserId, device: DeviceId)

  /** An event in the queue of received requests, or one shown to the user. */
  datatype Queued = Asked(request: KeyRequest) | Withdrawn(cancellation: Cancellation) {
    function Id(): RequestId {
      if Asked? then request.id else cancellation.id
    }
  }

  type Bucket = Dict<RequestId, KeyRequest>

  /** The devices whose Olm session is broken, those that were ever marked so, and the dummy messages sent for them. */
  datatype Wedging = Wedging(wedged: seq<DeviceKey>, marked: seq<DeviceKey>, dummies: seq<DeviceKey>)

  /**
   * The queues, what they depend on, and the history: all requests, the withdrawn ones, the
   * answers, and what was shown.
   */
  datatype State = State(
    own: UserId,
    devices: map<DeviceKey, OlmDevice>, olmSessions: set<string>, groupSessions: set<SessionKey>,
    received: Dict<RequestId, Queued>,
    waiting: map<DeviceKey, Bucket>,
    noSession: seq<DeviceKey>,
    untrusted: Bucket,
    requests: map<RequestId, KeyRequest>, closed: set<RequestId>,
    forwarded: seq<KeyRequest>, shown: seq<Queued>, wedging: Wedging)
  {
    /** The defaultdict of waiting requests. */
    function Waiting(k: DeviceKey): Bucket {
      if k in waiting then waiting[k] else Empty()
    }
  }

  function HandleRequest(s: State, r: KeyRequest): State {
    if r.megolm then s.(received := Put(s.received, r.id, Asked(r)), requests := s.requests[r.id := r]) else s
  }

  /** A request no longer waits for an Olm session; the last one cancels the session as well. */
  function StopWaiting(s: State, key: DeviceKey, id: RequestId): State {
    var bucket := Pop(s.Waiting(key), id);
    s.(waiting := s.waiting[key := bucket],
       noSession := if bucket.keys == [] && key in s.devices then Remove(s.noSession, key) else s.noSession)
  }

  /** A request of an untrusted device was shown to the user, so its cancellation has to be as well. */
  function StopVerifying(s: State, c: Cancellation): State {
    if c.id in s.untrusted.vals then
      s.(untrusted := Pop(s.untrusted, c.id), received := Put(s.received, c.id, Withdrawn(c)))
    else s
  }

  function HandleCancellation(s: State, c: Cancellation): State {
    var key := (c.sender, c.device);
    var s1 := StopWaiting(s.(received := Pop(s.received, c.id)), key, c.id);
    StopVerifying(s1, c).(
      closed := if c.id in s.requests && s.requests[c.id].Key() == key then s.closed + {c.id} else s.closed)
  }

  datatype Outcome = Invalid | NoOlmSession | Untrusted | Forward

  /** What `share_with_ourselves` comes to. */
  function Assess(s: State, r: KeyRequest): Outcome {
    if r.session !in s.groupSessions then Invalid
    else if r.Key() !in s.devices then Invalid
    else if s.devices[r.Key()].curve25519 !in s.olmSessions then NoOlmSession
    else if s.devices[r.Key()].trust != Verified then Untrusted
    else Forward
  }

  /** A request whose device has no Olm session waits, and the device asks for a session. */
  function Park(s: State, r: KeyRequest): State {
    s.(noSession := if r.Key() in s.noSession then s.noSession else s.noSession + [r.Key()],
       waiting := s.waiting[r.Key() := Put(s.Waiting(r.Key()), r.id, r)])
  }

  /** `_collect_single_key_share`: the new state, and False when the device is not trusted. */
  function CollectSingle(s: State, r: KeyRequest): (State, bool) {
    if r.sender != s.own then (s, true)
    else match Assess(s, r)
      case Invalid => (s, true)
      case NoOlmSession => (Park(s, r), true)
      case Untrusted => (s, false)
      case Forward => (s.(forwarded := s.forwarded + [r]), true)
  }

  /** One round of the loop of `collect_key_requests`. */
  function CollectOne(s: State, q: Queued): State {
    match q
    case Withdrawn(c) => s.(shown := s.shown + [q])
    case Asked(r) =>
      var (s', done) := CollectSingle(s, r);
      if done then s' else s'.(untrusted := Put(s'.untrusted, r.id, r), shown := s'.shown + [q])
  }

  function CollectAll(s: State, qs: seq<Queued>): State
    decreases |qs|
  {
    if qs == [] then s else CollectAll(CollectOne(s, qs[0]), qs[1..])
  }

  /** `collect_key_requests`: the queue is emptied at the end, and nobody looks at it before. */
  function Collect(s: State): State {
    CollectAll(s.(received := Empty()), Values(s.received))
  }

  /** `continue_key_share`: None for the error. */
  function Continue(s: State, r: KeyRequest): (State, Option<bool>) {
    if r.id !in s.untrusted.vals || s.untrusted.vals[r.id] != r then (s, None)
    else
      var (s', done) := CollectSingle(s, r);
      if done then (s'.(untrusted := Pop(s'.untrusted, r.id)), Some(true)) else (s', Some(false))
  }

  function Cancel(s: State, id: RequestId): (State, bool) {
    (s.(untrusted := Pop(s.untrusted, id)), id in s.untrusted.vals)
  }

  /** `_mark_device_for_unwedging`: `recent` says that the newest session of the device is not an hour old. */
  function MarkWedged(s: State, k: DeviceKey, recent: bool): State {
    var w := s.wedging;
    if k !in s.devices || recent || k in w.wedged then s
    else s.(wedging := w.(wedged := w.wedged + [k], marked := w.marked + [k]))
  }

  /** The new session repairs a device: it gets a dummy message over that session. */
  function Unwedge(w: Wedging, k: DeviceKey): Wedging {
    if k in w.wedged then w.(wedged := Remove(w.wedged, k), dummies := w.dummies + [k]) else w
  }

  /** One device of a `/keys/claim` response with a properly signed key. */
  function ClaimOne(s: State, k: DeviceKey): State {
    if k !in s.devices then s
    else
      var s1 := s.(olmSessions := s.olmSessions + {s.devices[k].curve25519}, wedging := Unwedge(s.wedging, k));
      if k in s.noSession then Release(s1, k) else s1
  }

  /** The devices of a response whose one-time keys are signed properly, one after the other. */
  function ClaimAll(s: State, ks: seq<DeviceKey>): State
    decreases |ks|
  {
    if ks == [] then s else ClaimAll(ClaimOne(s, ks[0]), ks[1..])
  }

  /** The requests that waited for a session with a device are received again. */
  function Release(s: State, k: DeviceKey): State {
    s.(noSession := Remove(s.noSession, k), waiting := s.waiting - {k},
       received := Update(s.received, Widen(s.Waiting(k))))
  }

  function Widen(b: Bucket): (r: Dict<RequestId, Queued>)
    ensures r.keys == b.keys && r.vals.Keys == b.vals.Keys
    ensures forall id :: id in r.vals ==> r.vals[id] == Asked(b.vals[id])
  {
    RawDict(b.keys, map id | id in b.vals :: Asked(b.vals[id]))
  }

  datatype Event =
    | EvRequest(request: KeyRequest)
    | EvCancellation(cancellation: Cancellation)
    | EvCollect
    | EvContinue(request: KeyRequest)
    | EvCancel(id: RequestId)
    | EvClaim(ks: seq<DeviceKey>)
    | EvWedged(k: DeviceKey, recent: bool)
    | EvOther(devices: map<DeviceKey, OlmDevice>, olmSessions: set<string>, groupSessions: set<SessionKey>)

  /** Request ids are fresh, and devices are never dropped from the store. */
  ghost predicate Enabled(s: State, e: Event) {
    match e
    case EvRequest(r) => r.megolm ==> r.id !in s.requests
    case EvOther(devices, olmSessions, groupSessions) => s.devices.Keys <= devices.Keys
    case _ => true
  }

  function Next(s: State, e: Event): State {
    match e
    case EvRequest(r) => HandleRequest(s, r)
    case EvCancellation(c) => HandleCancellation(s, c)
    case EvCollect => Collect(s)
    case EvContinue(r) => Continue(s, r).0
    case EvCancel(id) => Cancel(s, id).0
    case EvClaim(ks) => ClaimAll(s, ks)
    case EvWedged(k, recent) => MarkWedged(s, k, recent)
    case EvOther(devices, olmSessions, groupSessions) =>
      s.(devices := devices, olmSessions := olmSessions, groupSessions := groupSessions)
  }

  ghost predicate Initial(s: State) {
    && s.received == Empty() && s.waiting == map[] && s.noSession == [] && s.untrusted == Empty()
    && s.requests == map[] && s.closed == {} && s.forwarded == [] && s.shown == []
    && s.wedging == Wedging([], [], [])
  }

  ghost predicate IsRun(states: seq<State>, events: seq<Event>) {
    && |states| == |events| + 1 && Initial(states[0])
    && (forall i :: 0 <= i < |events| ==> Enabled(states[i], events[i]) && states[i + 1] == Next(states[i], events[i]))
  }
}
