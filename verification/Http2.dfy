/**
 * Sending request bodies over HTTP/2 under flow control (sections 4.2, 6.1 and 6.9 of RFC
 * 7540). The framing library is a list of the frames sent and the counters of the windows.
 */
module Http2 {
  import opened Sequences
  import opened Dicts
  import opened ByteStrings

  type StreamId = nat

  /** The largest payload a peer accepts. */
  type FrameSize = n: nat | n > 0 witness 1

  /** A frame; `limit` is the peer's frame size at the time a DATA frame was sent. */
  datatype Frame = Data(stream: StreamId, payload: Bytes, limit: FrameSize) | EndStream(stream: StreamId)

  /** `maxFrame` is the peer's limit; windows may be negative after the peer lowered its settings. */
  datatype Connection = Connection(
    buffered: Dict<StreamId, Bytes>, window: int, windows: map<StreamId, int>, initialWindow: int, maxFrame: FrameSize,
    next: StreamId, frames: seq<Frame>, bodies: map<StreamId, Bytes>)
  {
    /** `local_flow_control_window`. */
    function Available(id: StreamId): int {
      Min(window, if id in windows then windows[id] else initialWindow)
    }
  }

  /** The DATA frames for some bytes: as large as possible. */
  function DataFrames(id: StreamId, data: Bytes, maxFrame: FrameSize): seq<Frame>
    decreases |data|
  {
    if data == [] then []
    else if |data| <= maxFrame then [Data(id, data, maxFrame)]
    else [Data(id, data[..maxFrame], maxFrame)] + DataFrames(id, data[maxFrame..], maxFrame)
  }

  /** How much of a body may go out now. */
  function Sendable(s: Connection, id: StreamId, data: Bytes): (n: nat)
    ensures n <= |data| && n as int <= if s.Available(id) < 0 then 0 else s.Available(id)
  {
    var n := Min(s.Available(id), |data|);
    if n < 0 then 0 else n
  }

  /** Some bytes go out on a stream. */
  function Emit(s: Connection, id: StreamId, data: Bytes): Connection
  {
    s.(frames := s.frames + DataFrames(id, data, s.maxFrame),
       window := s.window - |data|,
       windows := s.windows[id := (if id in s.windows then s.windows[id] else s.initialWindow) - |data|])
  }

  /** The stream ends, or its rest is buffered. */
  function Finish(s: Connection, id: StreamId, rest: Bytes): Connection {
    if rest == [] then s.(frames := s.frames + [EndStream(id)], buffered := Pop(s.buffered, id))
    else s.(buffered := Put(s.buffered, id, rest))
  }

  /** `_send_data`. */
  function SendData(s: Connection, id: StreamId, data: Bytes): Connection
  {
    var n := Sendable(s, id, data);
    Finish(Emit(s, id, data[..n]), id, data[n..])
  }

  /** `send`: a new stream for a request with this body. */
  function Send(s: Connection, body: Bytes): Connection
  {
    SendData(s.(next := s.next + 2, bodies := s.bodies[s.next := body]), s.next, body)
  }

  /** A window update for one stream. */
  function UpdateStream(s: Connection, id: StreamId, increment: nat): Connection
  {
    var s1 := s.(windows := s.windows[id := (if id in s.windows then s.windows[id] else s.initialWindow) + increment]);
    if id in s.buffered.vals then SendData(s1, id, s.buffered.vals[id]) else s1
  }

  /**
   * The loop over all streams after an update of the connection's window. A stream that is
   * done leaves the dictionary, and asking for another stream after that fails.
   */
  function SendEach(s: Connection, ids: seq<StreamId>): (Connection, bool)
    decreases |ids|
  {
    if ids == [] then (s, true)
    else if ids[0] !in s.buffered.vals then SendEach(s, ids[1..])
    else
      var s1 := SendData(s, ids[0], s.buffered.vals[ids[0]]);
      if |ids| > 1 && ids[0] !in s1.buffered.vals then (s1, false) else SendEach(s1, ids[1..])
  }

  function UpdateConnection(s: Connection, increment: nat): (Connection, bool)
  {
    SendEach(s.(window := s.window + increment), s.buffered.keys)
  }

  /** The bytes sent on a stream. */
  function SentOn(frames: seq<Frame>, id: StreamId): Bytes {
    if frames == [] then []
    else
      var last := frames[|frames| - 1];
      SentOn(frames[..|frames| - 1], id) + (if last.Data? && last.stream == id then last.payload else [])
  }

  function EndsOf(frames: seq<Frame>, id: StreamId): nat {
    if frames == [] then 0
    else EndsOf(frames[..|frames| - 1], id) + (if frames[|frames| - 1] == EndStream(id) then 1 else 0)
  }

  function Buffered(s: Connection, id: StreamId): Bytes {
    if id in s.buffered.vals then s.buffered.vals[id] else []
  }

  /**
   * Conservation for one stream: what was sent and what is buffered make up the body, and
   * the stream was ended, once and with nothing left, exactly when nothing is buffered.
   */
  ghost predicate StreamOk(s: Connection, id: StreamId) {
    && (id in s.bodies ==> SentOn(s.frames, id) + Buffered(s, id) == s.bodies[id])
    && (id !in s.bodies ==> SentOn(s.frames, id) == [] && id !in s.buffered.vals)
    && EndsOf(s.frames, id) == (if id in s.bodies && id !in s.buffered.vals then 1 else 0)
    && (id in s.buffered.vals ==> s.buffered.vals[id] != [])
    && (id >= s.next ==> id !in s.bodies)
  }

  /** A stream ends with an EndStream frame after all of its body. */
  ghost predicate EndsLast(s: Connection) {
    forall i :: 0 <= i < |s.frames| && s.frames[i].EndStream? ==>
      s.frames[i].stream in s.bodies && SentOn(s.frames[..i], s.frames[i].stream) == s.bodies[s.frames[i].stream]
  }

  ghost predicate FramesFit(frames: seq<Frame>) {
    forall f :: f in frames && f.Data? ==> 0 < |f.payload| <= f.limit
  }

  ghost predicate Inv(s: Connection) {
    && (forall id :: StreamOk(s, id))
    && EndsLast(s) && FramesFit(s.frames)
  }

  lemma {:induction false} SentOnConcat(a: seq<Frame>, b: seq<Frame>, id: StreamId)
    ensures SentOn(a + b, id) == SentOn(a, id) + SentOn(b, id)
    ensures EndsOf(a + b, id) == EndsOf(a, id) + EndsOf(b, id)
  {
    if b == [] {
      assert a + b == a;
    } else {
      var n, last := |b| - 1, b[|b| - 1];
      assert (a + b)[..|a + b| - 1] == a + b[..n] && (a + b)[|a + b| - 1] == last;
      SentOnConcat(a, b[..n], id);
      Reassociate(SentOn(a, id), SentOn(b[..n], id), if last.Data? && last.stream == id then last.payload else []);
    }
  }

  lemma SentOnOne(f: Frame, id: StreamId)
    ensures SentOn([f], id) == if f.Data? && f.stream == id then f.payload else []
    ensures EndsOf([f], id) == if f == EndStream(id) then 1 else 0
  {
    assert [f][..0] == [];
  }

  /** DATA frames carry their data, on their stream only, and end nothing. */
  lemma {:induction false} DataFramesCarry(id: StreamId, data: Bytes, maxFrame: FrameSize, j: StreamId)
    decreases |data|
    ensures SentOn(DataFrames(id, data, maxFrame), j) == if j == id then data else []
    ensures EndsOf(DataFrames(id, data, maxFrame), j) == 0
  {
    if data == [] {
    } else if |data| <= maxFrame {
      SentOnOne(Data(id, data, maxFrame), j);
    } else {
      var f, rest := Data(id, data[..maxFrame], maxFrame), DataFrames(id, data[maxFrame..], maxFrame);
      assert DataFrames(id, data, maxFrame) == [f] + rest && data[..maxFrame] + data[maxFrame..] == data;
      hide DataFrames, SentOn, EndsOf;
      DataFramesCarry(id, data[maxFrame..], maxFrame, j);
      SentOnOne(f, j);
      SentOnConcat([f], rest, j);
    }
  }

  lemma {:induction false} DataFramesFit(id: StreamId, data: Bytes, maxFrame: FrameSize)
    decreases |data|
    ensures FramesFit(DataFrames(id, data, maxFrame))
    ensures forall f :: f in DataFrames(id, data, maxFrame) ==> f.Data? && f.limit == maxFrame
  {
    if |data| <= maxFrame {
    } else {
      DataFramesFit(id, data[maxFrame..], maxFrame);
    }
  }

  /** A stream whose rest is about to be sent. */
  ghost predicate Pending(s: Connection, id: StreamId, data: Bytes) {
    && id in s.bodies && id < s.next
    && SentOn(s.frames, id) + data == s.bodies[id] && EndsOf(s.frames, id) == 0
    && (forall j :: j != id ==> StreamOk(s, j))
  }

  lemma SendDataCarries(s: Connection, id: StreamId, data: Bytes, j: StreamId)
    ensures
      var s', n := SendData(s, id, data), Sendable(s, id, data);
      && SentOn(s'.frames, j) == SentOn(s.frames, j) + (if j == id then data[..n] else [])
      && EndsOf(s'.frames, j) == EndsOf(s.frames, j) + (if j == id && n == |data| then 1 else 0)
  {
    var n := Sendable(s, id, data);
    var fs := DataFrames(id, data[..n], s.maxFrame);
    DataFramesCarry(id, data[..n], s.maxFrame, j);
    SentOnOne(EndStream(id), j);
    SentOnConcat(s.frames, fs, j);
    SentOnConcat(s.frames + fs, [EndStream(id)], j);
    hide DataFrames, Sendable, SentOn, EndsOf;
  }

  lemma SendDataBuffers(s: Connection, id: StreamId, data: Bytes)
    ensures
      var s', n := SendData(s, id, data), Sendable(s, id, data);
      && s'.bodies == s.bodies && s'.next == s.next
      && Buffered(s', id) == data[n..] && (id in s'.buffered.vals <==> n < |data|)
  {
    hide DataFrames, Sendable;
  }

  lemma SendDataKeepsStream(s: Connection, id: StreamId, data: Bytes)
    requires Pending(s, id, data)
    ensures StreamOk(SendData(s, id, data), id)
  {
    var n := Sendable(s, id, data);
    SendDataCarries(s, id, data, id);
    SendDataBuffers(s, id, data);
    hide SendData, Sendable, SentOn, EndsOf;
    Reassociate(SentOn(s.frames, id), data[..n], data[n..]);
    assert data[..n] + data[n..] == data;
  }

  lemma SendDataKeepsOthers(s: Connection, id: StreamId, data: Bytes, j: StreamId)
    requires j != id && StreamOk(s, j)
    ensures StreamOk(SendData(s, id, data), j)
  {
    SendDataCarries(s, id, data, j);
    OthersBuffered(s, id, data, j);
    hide SendData, Sendable, SentOn, EndsOf;
    assert SentOn(s.frames, j) + [] == SentOn(s.frames, j);
  }

  lemma OthersBuffered(s: Connection, id: StreamId, data: Bytes, j: StreamId)
    requires j != id
    ensures
      var s' := SendData(s, id, data);
      && s'.bodies == s.bodies && s'.next == s.next
      && Buffered(s', j) == Buffered(s, j) && (j in s'.buffered.vals <==> j in s.buffered.vals)
  {
    hide DataFrames, Sendable;
  }

  /** A stream that is finished has sent all of its body. */
  lemma FinishKeepsEnds(s: Connection, id: StreamId, rest: Bytes)
    requires EndsLast(s) && (rest == [] ==> id in s.bodies && SentOn(s.frames, id) == s.bodies[id])
    ensures EndsLast(Finish(s, id, rest))
  {
    hide SentOn;
    var s' := Finish(s, id, rest);
    forall i | 0 <= i < |s'.frames| && s'.frames[i].EndStream?
      ensures s'.frames[i].stream in s'.bodies
          && SentOn(s'.frames[..i], s'.frames[i].stream) == s'.bodies[s'.frames[i].stream]
    {
      if i < |s.frames| {
        assert s'.frames[..i] == s.frames[..i];
      } else {
        assert s'.frames[..i] == s.frames;
      }
    }
  }

  lemma EmitKeepsEnds(s: Connection, id: StreamId, data: Bytes)
    requires EndsLast(s)
    ensures EndsLast(Emit(s, id, data))
  {
    DataFramesFit(id, data, s.maxFrame);
    var s', fs := Emit(s, id, data), DataFrames(id, data, s.maxFrame);
    hide SentOn, DataFrames;
    forall i | 0 <= i < |s'.frames| && s'.frames[i].EndStream?
      ensures s'.frames[i].stream in s'.bodies
          && SentOn(s'.frames[..i], s'.frames[i].stream) == s'.bodies[s'.frames[i].stream]
    {
      if i >= |s.frames| {
        AddedAreData(s.frames, fs, i);
      }
      assert s'.frames[..i] == s.frames[..i];
    }
  }

  lemma AddedAreData(before: seq<Frame>, fs: seq<Frame>, i: nat)
    requires (forall f :: f in fs ==> f.Data?) && |before| <= i < |before + fs|
    ensures (before + fs)[i].Data?
  {
    assert (before + fs)[i] == fs[i - |before|] && fs[i - |before|] in fs;
  }

  lemma SendDataKeepsEnds(s: Connection, id: StreamId, data: Bytes)
    requires Pending(s, id, data) && EndsLast(s)
    ensures EndsLast(SendData(s, id, data))
  {
    var n := Sendable(s, id, data);
    var s1 := Emit(s, id, data[..n]);
    EmitKeepsEnds(s, id, data[..n]);
    DataFramesCarry(id, data[..n], s.maxFrame, id);
    SentOnConcat(s.frames, DataFrames(id, data[..n], s.maxFrame), id);
    hide EndsLast, Sendable, SentOn, EndsOf, DataFrames, StreamOk;
    assert n == |data| ==> data[..n] == data;
    FinishKeepsEnds(s1, id, data[n..]);
  }

  lemma SendDataKeepsFit(s: Connection, id: StreamId, data: Bytes)
    requires FramesFit(s.frames)
    ensures FramesFit(SendData(s, id, data).frames)
  {
    DataFramesFit(id, data[..Sendable(s, id, data)], s.maxFrame);
    hide DataFrames, Sendable;
  }

  lemma SendDataKeepsInv(s: Connection, id: StreamId, data: Bytes)
    requires Pending(s, id, data) && EndsLast(s) && FramesFit(s.frames)
    ensures Inv(SendData(s, id, data))
  {
    forall j ensures StreamOk(SendData(s, id, data), j) {
      if j == id {
        SendDataKeepsStream(s, id, data);
      } else {
        SendDataKeepsOthers(s, id, data, j);
      }
    }
    SendDataKeepsEnds(s, id, data);
    SendDataKeepsFit(s, id, data);
  }

  /**
   * Sending keeps to the windows: a window that is not negative does not become negative, and one
   * without credit sends nothing.
   */
  lemma SendDataFitsWindows(s: Connection, id: StreamId, data: Bytes)
    requires id in s.windows
    ensures
      var s' := SendData(s, id, data);
      && SentOn(s'.frames, id) == SentOn(s.frames, id) + data[..Sendable(s, id, data)]
      && s.window - s'.window == s.windows[id] - s'.windows[id] == |SentOn(s'.frames, id)| - |SentOn(s.frames, id)|
      && (s.window >= 0 ==> s'.window >= 0) && (s.windows[id] >= 0 ==> s'.windows[id] >= 0)
      && (s.window <= 0 || s.windows[id] <= 0 ==> SentOn(s'.frames, id) == SentOn(s.frames, id))
      && (id in s'.buffered.vals ==> s'.window <= 0 || s'.windows[id] <= 0)
  {
    SendDataCarries(s, id, data, id);
  }

  lemma SendKeepsInv(s: Connection, body: Bytes)
    requires Inv(s)
    ensures Inv(Send(s, body))
  {
    var s1 := s.(next := s.next + 2, bodies := s.bodies[s.next := body]);
    assert StreamOk(s, s.next);
    forall j | j != s.next ensures StreamOk(s1, j) {
      assert StreamOk(s, j);
    }
    assert SentOn(s1.frames, s.next) + body == body;
    assert EndsLast(s1) by {
      forall i | 0 <= i < |s.frames| && s.frames[i].EndStream?
        ensures s.frames[i].stream in s1.bodies
            && SentOn(s.frames[..i], s.frames[i].stream) == s1.bodies[s.frames[i].stream]
      {
      }
    }
    hide SendData, Inv;
    SendDataKeepsInv(s1, s.next, body);
  }

  lemma ResumeKeepsInv(s: Connection, id: StreamId)
    requires Inv(s) && id in s.buffered.vals
    ensures Inv(SendData(s, id, s.buffered.vals[id]))
  {
    assert StreamOk(s, id);
    hide SendData;
    SendDataKeepsInv(s, id, s.buffered.vals[id]);
  }

  lemma WindowsDoNotMatter(s: Connection, window: int, windows: map<StreamId, int>)
    requires Inv(s)
    ensures Inv(s.(window := window, windows := windows))
  {
    var s' := s.(window := window, windows := windows);
    forall j ensures StreamOk(s', j) {
      assert StreamOk(s, j);
    }
  }

  lemma SettingsDoNotMatter(s: Connection, maxFrame: FrameSize, initialWindow: int)
    requires Inv(s)
    ensures Inv(ChangeSettings(s, maxFrame, initialWindow))
  {
    var s' := ChangeSettings(s, maxFrame, initialWindow);
    forall j ensures StreamOk(s', j) {
      assert StreamOk(s, j);
    }
  }

  lemma {:induction false} SendEachKeepsInv(s: Connection, ids: seq<StreamId>)
    requires Inv(s)
    decreases |ids|
    ensures Inv(SendEach(s, ids).0)
  {
    if ids == [] {
    } else {
      hide SendData, StreamOk;
      if ids[0] in s.buffered.vals {
        ResumeKeepsInv(s, ids[0]);
        SendEachKeepsInv(SendData(s, ids[0], s.buffered.vals[ids[0]]), ids[1..]);
      } else {
        SendEachKeepsInv(s, ids[1..]);
      }
    }
  }

  datatype Event =
    | EvSend(body: Bytes)
    | EvUpdateStream(id: StreamId, increment: nat)
    | EvUpdateConnection(increment: nat)
    | EvSettings(maxFrame: FrameSize, initialWindow: int)

  /**
   * New settings of the peer: the windows of all streams change by as much as the initial
   * one (section 6.9.2 of RFC 7540).
   */
  function ChangeSettings(s: Connection, maxFrame: FrameSize, initialWindow: int): Connection {
    s.(maxFrame := maxFrame, initialWindow := initialWindow,
       windows := map id | id in s.windows :: s.windows[id] + initialWindow - s.initialWindow)
  }

  function Next(s: Connection, e: Event): Connection
  {
    match e
    case EvSend(body) => Send(s, body)
    case EvUpdateStream(id, increment) => UpdateStream(s, id, increment)
    case EvUpdateConnection(increment) => UpdateConnection(s, increment).0
    case EvSettings(maxFrame, initialWindow) => ChangeSettings(s, maxFrame, initialWindow)
  }

  lemma NextKeepsInv(s: Connection, e: Event)
    requires Inv(s)
    ensures Inv(Next(s, e))
  {
    hide Inv, SendData;
    match e
    case EvSend(body) => SendKeepsInv(s, body);
    case EvUpdateStream(id, increment) =>
      var windows := s.windows[id := (if id in s.windows then s.windows[id] else s.initialWindow) + increment];
      WindowsDoNotMatter(s, s.window, windows);
      if id in s.buffered.vals {
        ResumeKeepsInv(s.(windows := windows), id);
      }
    case EvUpdateConnection(increment) =>
      WindowsDoNotMatter(s, s.window + increment, s.windows);
      SendEachKeepsInv(s.(window := s.window + increment), s.buffered.keys);
    case EvSettings(maxFrame, initialWindow) => SettingsDoNotMatter(s, maxFrame, initialWindow);
  }

  /** Only frames within the present limit were added. */
  ghost predicate AddsWithin(before: seq<Frame>, after: seq<Frame>, maxFrame: FrameSize) {
    && |before| <= |after| && after[..|before|] == before
    && (forall i :: |before| <= i < |after| && after[i].Data? ==> after[i].limit == maxFrame)
  }

  lemma AddsTwice(a: seq<Frame>, b: seq<Frame>, c: seq<Frame>, maxFrame: FrameSize)
    requires AddsWithin(a, b, maxFrame) && AddsWithin(b, c, maxFrame)
    ensures AddsWithin(a, c, maxFrame)
  {
    assert c[..|a|] == c[..|b|][..|a|];
    forall i | |a| <= i < |c| && c[i].Data? ensures c[i].limit == maxFrame {
      assert i < |b| ==> c[..|b|][i] == b[i];
    }
  }

  lemma SendDataAdds(s: Connection, id: StreamId, data: Bytes)
    ensures AddsWithin(s.frames, SendData(s, id, data).frames, s.maxFrame)
        && SendData(s, id, data).maxFrame == s.maxFrame
  {
    var fs := DataFrames(id, data[..Sendable(s, id, data)], s.maxFrame);
    DataFramesFit(id, data[..Sendable(s, id, data)], s.maxFrame);
    var after := SendData(s, id, data).frames;
    hide DataFrames, Sendable;
    assert after[..|s.frames|] == s.frames;
    forall i | |s.frames| <= i < |after| && after[i].Data? ensures after[i].limit == s.maxFrame {
      assert i < |s.frames| + |fs| ==> after[i] == fs[i - |s.frames|] && after[i] in fs;
    }
  }

  lemma {:induction false} SendEachAdds(s: Connection, ids: seq<StreamId>)
    decreases |ids|
    ensures AddsWithin(s.frames, SendEach(s, ids).0.frames, s.maxFrame)
  {
    if ids == [] {
    } else if ids[0] !in s.buffered.vals {
      SendEachAdds(s, ids[1..]);
    } else {
      var s1 := SendData(s, ids[0], s.buffered.vals[ids[0]]);
      SendDataAdds(s, ids[0], s.buffered.vals[ids[0]]);
      hide SendData, AddsWithin;
      SendEachAdds(s1, ids[1..]);
      AddsTwice(s.frames, s1.frames, SendEach(s1, ids[1..]).0.frames, s.maxFrame);
    }
  }

  lemma SendAdds(s: Connection, body: Bytes)
    ensures AddsWithin(s.frames, Send(s, body).frames, s.maxFrame)
  {
    hide SendData, AddsWithin;
    SendDataAdds(s.(next := s.next + 2, bodies := s.bodies[s.next := body]), s.next, body);
  }

  lemma UpdateStreamAdds(s: Connection, id: StreamId, increment: nat)
    ensures AddsWithin(s.frames, UpdateStream(s, id, increment).frames, s.maxFrame)
  {
    assert AddsWithin(s.frames, s.frames, s.maxFrame);
    hide SendData, AddsWithin;
    if id in s.buffered.vals {
      var windows := s.windows[id := (if id in s.windows then s.windows[id] else s.initialWindow) + increment];
      SendDataAdds(s.(windows := windows), id, s.buffered.vals[id]);
    }
  }

  /** The limit noted in a frame is the peer's limit when it was sent. */
  lemma NextAddsWithinLimit(s: Connection, e: Event)
    ensures AddsWithin(s.frames, Next(s, e).frames, s.maxFrame)
  {
    assert AddsWithin(s.frames, s.frames, s.maxFrame);
    hide Send, UpdateStream, SendEach, AddsWithin;
    match e
    case EvSend(body) => SendAdds(s, body);
    case EvUpdateStream(id, increment) => UpdateStreamAdds(s, id, increment);
    case EvUpdateConnection(increment) => SendEachAdds(s.(window := s.window + increment), s.buffered.keys);
    case EvSettings(maxFrame, initialWindow) =>
  }

  ghost predicate IsRun(states: seq<Connection>, events: seq<Event>) {
    && |states| == |events| + 1
    && states[0].buffered == Empty() && states[0].frames == [] && states[0].bodies == map[]
    && (forall i :: 0 <= i < |events| ==> states[i + 1] == Next(states[i], events[i]))
  }

  lemma {:induction false} RunKeepsInv(states: seq<Connection>, events: seq<Event>, n: nat)
    requires IsRun(states, events) && n <= |events|
    ensures Inv(states[n])
  {
    if n == 0 {
    } else {
      RunKeepsInv(states, events, n - 1);
      hide Inv, Next;
      NextKeepsInv(states[n - 1], events[n - 1]);
    }
  }

  /**
   * For any sequence of sends and window changes: the DATA sent on a stream followed by the
   * buffered rest is the request's body; every frame fits; and the stream was ended once, after
   * all of the body, exactly when nothing is left.
   */
  lemma BodiesAreConserved(states: seq<Connection>, events: seq<Event>, n: nat, id: StreamId)
    requires IsRun(states, events) && n <= |events| && id in states[n].bodies
    ensures
      var s := states[n];
      && SentOn(s.frames, id) + Buffered(s, id) == s.bodies[id]
      && FramesFit(s.frames)
      && EndsOf(s.frames, id) == (if Buffered(s, id) == [] then 1 else 0)
      && (forall i :: 0 <= i < |s.frames| && s.frames[i] == EndStream(id) ==> SentOn(s.frames[..i], id) == s.bodies[id])
  {
    RunKeepsInv(states, events, n);
    assert StreamOk(states[n], id);
  }

  function OwnWindow(s: Connection, id: StreamId): int {
    if id in s.windows then s.windows[id] else s.initialWindow
  }

  function Positive(n: int): nat {
    if n < 0 then 0 else n
  }

  /** The first of the streams whose own window has room for all of its rest, or their number. */
  function FirstWithRoom(s: Connection, ids: seq<StreamId>): (i: nat)
    ensures i <= |ids|
  {
    if ids == [] || |Buffered(s, ids[0])| <= OwnWindow(s, ids[0]) then 0 else 1 + FirstWithRoom(s, ids[1..])
  }

  /** What the own windows of the first `n` streams let through. */
  function CreditOf(s: Connection, ids: seq<StreamId>, n: nat): nat {
    if n == 0 || ids == [] then 0 else Positive(OwnWindow(s, ids[0])) + CreditOf(s, ids[1..], n - 1)
  }

  /**
   * The first stream with room for its rest is not the last one, and the window of the
   * connection has room for it and for what the streams in front of it may send.
   */
  predicate LosesStream(s: Connection, ids: seq<StreamId>) {
    var i := FirstWithRoom(s, ids);
    i < |ids| - 1 && |Buffered(s, ids[i])| + CreditOf(s, ids, i) <= s.window
  }

  ghost predicate AllBuffered(s: Connection, ids: seq<StreamId>) {
    Distinct(ids) && forall id :: id in ids ==> id in s.buffered.vals && s.buffered.vals[id] != []
  }

  /** What the turn of the first stream does to the windows, to the stream and to the others. */
  lemma TurnOfFirst(s: Connection, ids: seq<StreamId>)
    requires AllBuffered(s, ids) && ids != []
    ensures
      var data := Buffered(s, ids[0]);
      var s1 := SendData(s, ids[0], data);
      && AllBuffered(s1, ids[1..]) && SameStreams(s, s1, ids[1..])
      && s1.window == s.window - Positive(Min(Min(s.window, OwnWindow(s, ids[0])), |data|))
      && (ids[0] !in s1.buffered.vals <==> |data| <= s.window && |data| <= OwnWindow(s, ids[0]))
  {
    var s1 := SendData(s, ids[0], Buffered(s, ids[0]));
    SendDataBuffers(s, ids[0], Buffered(s, ids[0]));
    forall id | id in ids[1..]
      ensures id in s1.buffered.vals && s1.buffered.vals[id] != []
      ensures Buffered(s1, id) == Buffered(s, id) && OwnWindow(s1, id) == OwnWindow(s, id)
    {
      assert id in ids && id != ids[0];
      OthersBuffered(s, ids[0], Buffered(s, ids[0]), id);
    }
  }

  /** Some streams have the same rests and windows in two states. */
  ghost predicate SameStreams(s: Connection, s': Connection, ids: seq<StreamId>) {
    forall id :: id in ids ==> Buffered(s', id) == Buffered(s, id) && OwnWindow(s', id) == OwnWindow(s, id)
  }

  lemma {:induction false} SameRoom(s: Connection, s': Connection, ids: seq<StreamId>, n: nat)
    requires SameStreams(s, s', ids)
    ensures FirstWithRoom(s', ids) == FirstWithRoom(s, ids) && CreditOf(s', ids, n) == CreditOf(s, ids, n)
  {
    if ids == [] {
    } else {
      assert ids == [ids[0]] + ids[1..];
      SameRoom(s, s', ids[1..], if n == 0 then 0 else n - 1);
    }
  }

  /** Without credit for the connection no stream is finished. */
  lemma {:induction false} NoCreditNoLoss(s: Connection, ids: seq<StreamId>)
    requires AllBuffered(s, ids) && s.window <= 0
    decreases |ids|
    ensures SendEach(s, ids).1
  {
    if ids == [] {
    } else {
      TurnOfFirst(s, ids);
      assert ids[0] in s.buffered.vals;
      hide SendData, AllBuffered;
      NoCreditNoLoss(SendData(s, ids[0], Buffered(s, ids[0])), ids[1..]);
    }
  }

  /** The loop over all streams fails exactly when it loses a stream before the last one. */
  lemma {:induction false} SendEachFailsIff(s: Connection, ids: seq<StreamId>)
    requires AllBuffered(s, ids)
    decreases |ids|
    ensures !SendEach(s, ids).1 <==> LosesStream(s, ids)
  {
    if ids == [] {
    } else {
      var s1, rest := SendData(s, ids[0], Buffered(s, ids[0])), ids[1..];
      TurnOfFirst(s, ids);
      assert ids[0] in s.buffered.vals && Buffered(s, ids[0]) == s.buffered.vals[ids[0]] != [];
      hide SendData, SameStreams, AllBuffered, Buffered, OwnWindow, CreditOf;
      if |Buffered(s, ids[0])| <= OwnWindow(s, ids[0]) {
        CreditOfNone(s, ids);
        if s.window < |Buffered(s, ids[0])| {
          NoCreditNoLoss(s1, rest);
        }
      } else {
        SendEachFailsIff(s1, rest);
        LosesStreamLater(s, s1, ids);
      }
    }
  }

  lemma CreditOfNone(s: Connection, ids: seq<StreamId>)
    ensures CreditOf(s, ids, 0) == 0
  {
  }

  /** A first stream without room for its rest takes its credit and leaves the question to the others. */
  lemma LosesStreamLater(s: Connection, s1: Connection, ids: seq<StreamId>)
    requires AllBuffered(s, ids) && ids != [] && |Buffered(s, ids[0])| > OwnWindow(s, ids[0])
    requires AllBuffered(s1, ids[1..]) && SameStreams(s, s1, ids[1..])
    requires s1.window == s.window - Positive(Min(Min(s.window, OwnWindow(s, ids[0])), |Buffered(s, ids[0])|))
    ensures LosesStream(s, ids) <==> LosesStream(s1, ids[1..])
  {
    var rest := ids[1..];
    var i := FirstWithRoom(s, rest);
    SameRoom(s, s1, rest, i);
    if i < |rest| {
      assert rest[i] in rest && s1.buffered.vals[rest[i]] != [];
      assert Buffered(s1, rest[i]) == Buffered(s, rest[i]) && |Buffered(s, rest[i])| > 0;
    }
    assert CreditOf(s, ids, i + 1) == Positive(OwnWindow(s, ids[0])) + CreditOf(s, rest, i);
  }

  lemma BufferedAre(s: Connection)
    requires Inv(s)
    ensures AllBuffered(s, s.buffered.keys)
  {
    KeysAre(s.buffered);
    forall id | id in s.buffered.keys ensures s.buffered.vals[id] != [] {
      assert StreamOk(s, id);
    }
  }

  /** In every state that runs reach, a condition on the state before the call tells whether the loop fails. */
  lemma UpdateConnectionFailsIff(s: Connection, increment: nat)
    requires Inv(s)
    ensures !UpdateConnection(s, increment).1 <==> LosesStream(s.(window := s.window + increment), s.buffered.keys)
  {
    BufferedAre(s);
    SendEachFailsIff(s.(window := s.window + increment), s.buffered.keys);
  }

  /** A body waits as a whole while the connection has no credit. */
  lemma SendWaits(s: Connection, body: Bytes)
    requires s.window == 0 && body != [] && s.initialWindow >= 0 && s.next !in s.windows
    ensures Send(s, body) == s.(next := s.next + 2, bodies := s.bodies[s.next := body],
                                windows := s.windows[s.next := s.initialWindow],
                                buffered := Put(s.buffered, s.next, body))
  {
    assert body[..0] == [] && body[0..] == body;
    assert s.frames + [] == s.frames;
    hide Put;
  }

  /** A body goes out as a whole when both windows have room for it, and with it the stream ends. */
  lemma SendsAll(s: Connection, id: StreamId, data: Bytes)
    requires |data| <= s.window && |data| <= OwnWindow(s, id)
    ensures
      SendData(s, id, data)
      == Emit(s, id, data).(frames := s.frames + DataFrames(id, data, s.maxFrame) + [EndStream(id)],
                            buffered := Pop(s.buffered, id))
  {
    assert Sendable(s, id, data) == |data|;
    assert data[..|data|] == data && data[|data|..] == [];
    hide Pop, Sendable, DataFrames;
  }

  /** A connection without credit and with nothing buffered gets two requests. */
  lemma TwoWait(s: Connection, first: Bytes, second: Bytes)
    requires Inv(s) && s.window == 0 && s.buffered == Empty() && first != [] && second != [] && s.initialWindow >= 0
    requires s.next !in s.windows && s.next + 2 !in s.windows
    ensures
      var s2 := Send(Send(s, first), second);
      && Inv(s2) && s2.window == 0 && s2.frames == s.frames && s2.maxFrame == s.maxFrame
      && s2.buffered.keys == [s.next, s.next + 2]
      && s.next in s2.buffered.vals && s2.buffered.vals[s.next] == first
      && OwnWindow(s2, s.next) == s.initialWindow
  {
    SendKeepsInv(s, first);
    SendKeepsInv(Send(s, first), second);
    SendWaits(s, first);
    SendWaits(Send(s, first), second);
    hide Send, Inv, StreamOk;
  }

  /**
   * The loop can fail: when two requests wait for a connection without credit, any update that
   * lets all of the first one out, and whatever the second one is.
   */
  lemma UpdateConnectionCanFail(s: Connection, first: Bytes, second: Bytes, increment: nat)
    requires Inv(s) && s.window == 0 && s.buffered == Empty()
    requires s.next !in s.windows && s.next + 2 !in s.windows
    requires 0 < |first| <= increment && |first| <= s.initialWindow && second != []
    ensures
      var s2 := Send(Send(s, first), second);
      var (s3, ok) := UpdateConnection(s2, increment);
      && Inv(s2) && !ok
      && s3.frames == s.frames + DataFrames(s.next, first, s.maxFrame) + [EndStream(s.next)]
  {
    hide Send, Inv, SendData, DataFrames, Pop, Put;
    TwoWait(s, first, second);
    var s2 := Send(Send(s, first), second);
    FirstIsLost(s2.(window := s2.window + increment), s2.buffered.keys);
    SendsAll(s2.(window := s2.window + increment), s.next, first);
  }

  lemma FirstIsLost(s: Connection, ids: seq<StreamId>)
    requires |ids| > 1 && ids[0] in s.buffered.vals
    requires |s.buffered.vals[ids[0]]| <= s.window && |s.buffered.vals[ids[0]]| <= OwnWindow(s, ids[0])
    ensures SendEach(s, ids) == (SendData(s, ids[0], s.buffered.vals[ids[0]]), false)
  {
    SendsAll(s, ids[0], s.buffered.vals[ids[0]]);
    hide SendData, DataFrames;
  }

  /** A connection before its first request. */
  function Fresh(window: nat, maxFrame: FrameSize): Connection {
    Connection(Empty(), window, map[], window, maxFrame, 1, [], map[])
  }

  lemma FreshIsOk(window: nat, maxFrame: FrameSize)
    ensures Inv(Fresh(window, maxFrame))
  {
    forall id ensures StreamOk(Fresh(window, maxFrame), id) {
    }
  }

  /**
   * And so it does in a run from a fresh connection of any window and frame size: a body uses up
   * the connection's window, two more wait, and an update lets the first of them out.
   */
  lemma UpdateConnectionFailsInRun(window: nat, maxFrame: FrameSize, full: Bytes, first: Bytes, second: Bytes,
                                   increment: nat) returns (states: seq<Connection>)
    requires |full| == window && 0 < |first| <= Min(increment, window) && second != []
    ensures IsRun(states, [EvSend(full), EvSend(first), EvSend(second), EvUpdateConnection(increment)])
    ensures states[0] == Fresh(window, maxFrame) && !UpdateConnection(states[3], increment).1
  {
    hide Send, Inv, UpdateConnection, DataFrames;
    var s0 := Fresh(window, maxFrame);
    var s1, s2, s3 := Send(s0, full), Send(Send(s0, full), first), Send(Send(Send(s0, full), first), second);
    states := [s0, s1, s2, s3, UpdateConnection(s3, increment).0];
    WindowUsedUp(window, maxFrame, full);
    UpdateConnectionCanFail(s1, first, second, increment);
  }

  lemma WindowUsedUp(window: nat, maxFrame: FrameSize, full: Bytes)
    requires |full| == window
    ensures
      var s1 := Send(Fresh(window, maxFrame), full);
      && Inv(s1) && s1.window == 0 && s1.buffered == Empty() && s1.windows == map[1 := 0] && s1.next == 3
      && s1.initialWindow == window
  {
    var s0 := Fresh(window, maxFrame);
    FreshIsOk(window, maxFrame);
    SendKeepsInv(s0, full);
    SendsAll(s0.(next := 3, bodies := map[1 := full]), 1, full);
    assert Pop(Empty<StreamId, Bytes>(), 1) == Empty();
    hide SendData, DataFrames, Inv, Pop;
  }

  /** No buffered stream has credit on both windows. */
  ghost predicate Drained(s: Connection) {
    forall id :: id in s.buffered.vals ==> s.window <= 0 || OwnWindow(s, id) <= 0
  }

  /** No stream has credit, except possibly for these. */
  ghost predicate DrainedBut(s: Connection, ids: seq<StreamId>) {
    forall id :: id in s.buffered.vals && id !in ids ==> s.window <= 0 || OwnWindow(s, id) <= 0
  }

  /** A stream that has had its turn has no credit left, and the turn gives none to others. */
  lemma TurnDrains(s: Connection, id: StreamId, data: Bytes)
    ensures
      var s' := SendData(s, id, data);
      && s'.window <= s.window && (id in s'.buffered.vals ==> s'.window <= 0 || OwnWindow(s', id) <= 0)
      && (forall j :: j != id ==>
            OwnWindow(s', j) == OwnWindow(s, j) && (j in s'.buffered.vals ==> j in s.buffered.vals))
  {
    hide DataFrames;
  }

  /** After a loop that does not fail, every stream has had its turn. */
  lemma {:induction false} SendEachDrains(s: Connection, ids: seq<StreamId>)
    requires DrainedBut(s, ids) && SendEach(s, ids).1
    decreases |ids|
    ensures Drained(SendEach(s, ids).0)
  {
    if ids == [] {
    } else {
      assert ids == [ids[0]] + ids[1..];
      hide SendData;
      if ids[0] in s.buffered.vals {
        TurnDrains(s, ids[0], s.buffered.vals[ids[0]]);
        SendEachDrains(SendData(s, ids[0], s.buffered.vals[ids[0]]), ids[1..]);
      } else {
        SendEachDrains(s, ids[1..]);
      }
    }
  }

  /** A successful update of the connection's window leaves nobody waiting who could send. */
  lemma UpdateConnectionDrains(s: Connection, increment: nat)
    requires UpdateConnection(s, increment).1
    ensures Drained(UpdateConnection(s, increment).0)
  {
    KeysAre(s.buffered);
    SendEachDrains(s.(window := s.window + increment), s.buffered.keys);
  }

  /** A failing loop has credit left for the connection and a stream behind the lost one that could use it. */
  predicate LeavesCredit(s: Connection, ids: seq<StreamId>) {
    var i := FirstWithRoom(s, ids);
    && LosesStream(s, ids) && |Buffered(s, ids[i])| + CreditOf(s, ids, i) < s.window
    && exists id | id in ids[i + 1..] :: OwnWindow(s, id) > 0
  }

  lemma LeavesCreditLater(s: Connection, s1: Connection, ids: seq<StreamId>)
    requires AllBuffered(s, ids) && ids != [] && |Buffered(s, ids[0])| > OwnWindow(s, ids[0])
    requires AllBuffered(s1, ids[1..]) && SameStreams(s, s1, ids[1..])
    requires s1.window == s.window - Positive(Min(Min(s.window, OwnWindow(s, ids[0])), |Buffered(s, ids[0])|))
    ensures LeavesCredit(s, ids) <==> LeavesCredit(s1, ids[1..])
  {
    var rest := ids[1..];
    var i := FirstWithRoom(s, rest);
    SameRoom(s, s1, rest, i);
    LosesStreamLater(s, s1, ids);
    assert CreditOf(s, ids, i + 1) == Positive(OwnWindow(s, ids[0])) + CreditOf(s, rest, i);
    assert FirstWithRoom(s, ids) == i + 1;
    if i < |rest| {
      assert rest[i] in rest && rest[i + 1..] == ids[i + 2..];
      assert forall id :: id in rest[i + 1..] ==> id in rest;
    }
  }

  /** The turn of a first stream that is lost: the others have credit as before. */
  lemma LostFirst(s: Connection, s1: Connection, ids: seq<StreamId>)
    requires ids != [] && SameStreams(s, s1, ids[1..]) && DrainedBut(s1, ids[1..])
    requires forall id :: id in ids[1..] ==> id in s1.buffered.vals
    ensures Drained(s1) <==> s1.window <= 0 || !exists id | id in ids[1..] :: OwnWindow(s, id) > 0
  {
  }

  /** Exactly when some stream has credit after the loop over all streams. */
  lemma {:induction false} SendEachDrainedIff(s: Connection, ids: seq<StreamId>)
    requires AllBuffered(s, ids) && DrainedBut(s, ids)
    decreases |ids|
    ensures Drained(SendEach(s, ids).0) <==> !LeavesCredit(s, ids)
  {
    SendEachFailsIff(s, ids);
    if SendEach(s, ids).1 {
      SendEachDrains(s, ids);
    } else if ids == [] {
    } else {
      var data := Buffered(s, ids[0]);
      var s1, rest := SendData(s, ids[0], data), ids[1..];
      TurnOfFirst(s, ids);
      TurnDrains(s, ids[0], data);
      assert ids[0] in s.buffered.vals && data == s.buffered.vals[ids[0]] != [];
      assert DrainedBut(s1, rest) by {
        assert forall id :: id in ids <==> id == ids[0] || id in rest;
      }
      hide SendData, SameStreams, OwnWindow, CreditOf, Buffered, DrainedBut, Drained;
      CreditOfNone(s, ids);
      if |data| <= OwnWindow(s, ids[0]) {
        LostFirst(s, s1, ids);
      } else {
        SendEachDrainedIff(s1, rest);
        LeavesCreditLater(s, s1, ids);
      }
    }
  }

  /** Whether an event may leave a buffered stream with credit, when none had any before. */
  ghost predicate Stalls(s: Connection, e: Event) {
    match e
    case EvSend(body) => false
    case EvUpdateStream(id, increment) => false
    case EvUpdateConnection(increment) => LeavesCredit(s.(window := s.window + increment), s.buffered.keys)
    case EvSettings(maxFrame, initialWindow) =>
      s.window > 0 && exists id :: id in s.buffered.vals && OwnWindow(s, id) + initialWindow - s.initialWindow > 0
  }

  lemma SendStaysDrained(s: Connection, body: Bytes)
    requires Drained(s)
    ensures Drained(Send(s, body))
  {
    var s1 := s.(next := s.next + 2, bodies := s.bodies[s.next := body]);
    TurnDrains(s1, s.next, body);
    hide SendData;
  }

  lemma UpdateStreamStaysDrained(s: Connection, id: StreamId, increment: nat)
    requires Drained(s)
    ensures Drained(UpdateStream(s, id, increment))
  {
    if id in s.buffered.vals {
      var s1 := s.(windows := s.windows[id := OwnWindow(s, id) + increment]);
      TurnDrains(s1, id, s.buffered.vals[id]);
      hide SendData;
    }
  }

  lemma UpdateConnectionDrainedIff(s: Connection, increment: nat)
    requires Inv(s)
    ensures Drained(UpdateConnection(s, increment).0) <==>
            !LeavesCredit(s.(window := s.window + increment), s.buffered.keys)
  {
    hide Inv, SendEach, LeavesCredit, Drained, OwnWindow;
    var s1 := s.(window := s.window + increment);
    BufferedAre(s);
    KeysAre(s.buffered);
    SendEachDrainedIff(s1, s1.buffered.keys);
  }

  lemma SettingsDrainedIff(s: Connection, maxFrame: FrameSize, initialWindow: int)
    ensures Drained(ChangeSettings(s, maxFrame, initialWindow)) <==> !Stalls(s, EvSettings(maxFrame, initialWindow))
  {
    var s' := ChangeSettings(s, maxFrame, initialWindow);
    assert forall id :: OwnWindow(s', id) == OwnWindow(s, id) + initialWindow - s.initialWindow;
    hide OwnWindow, ChangeSettings;
  }

  /** From a state in which no waiting body could be sent, exactly the stalling events lead to one that could. */
  lemma NextDrainedIff(s: Connection, e: Event)
    requires Inv(s) && Drained(s)
    ensures Drained(Next(s, e)) <==> !Stalls(s, e)
  {
    hide Inv, Drained, Send, UpdateStream, UpdateConnection, ChangeSettings, LeavesCredit;
    match e
    case EvSend(body) => SendStaysDrained(s, body);
    case EvUpdateStream(id, increment) => UpdateStreamStaysDrained(s, id, increment);
    case EvUpdateConnection(increment) => UpdateConnectionDrainedIff(s, increment);
    case EvSettings(maxFrame, initialWindow) => SettingsDrainedIff(s, maxFrame, initialWindow);
  }

  /**
   * Over any run: after its start, or after an update of the connection's window that did not
   * fail, no waiting body can be sent until an event stalls.
   */
  lemma {:induction false} DrainedUntilStalled(states: seq<Connection>, events: seq<Event>, m: nat, n: nat)
    requires IsRun(states, events) && m <= n <= |events|
    requires m == 0 || (events[m - 1].EvUpdateConnection? && UpdateConnection(states[m - 1], events[m - 1].increment).1)
    requires forall i :: m <= i < n ==> !Stalls(states[i], events[i])
    ensures Drained(states[n])
    decreases n
  {
    if n == 0 {
    } else if n == m {
      hide UpdateConnection, Drained;
      UpdateConnectionDrains(states[m - 1], events[m - 1].increment);
    } else {
      hide Inv, Drained, Next, Stalls;
      DrainedUntilStalled(states, events, m, n - 1);
      RunKeepsInv(states, events, n - 1);
      NextDrainedIff(states[n - 1], events[n - 1]);
    }
  }

  /**
   * New settings stall in a run from a fresh connection: a body that is larger than the window
   * waits, the window of the connection opens again, and larger initial windows give the stream
   * credit as well. Nothing is sent.
   */
  lemma SettingsStallInRun(window: nat, maxFrame: FrameSize, body: Bytes, more: nat)
    returns (states: seq<Connection>)
    requires |body| > window && more > 0
    ensures IsRun(states, [EvSend(body), EvUpdateConnection(more), EvSettings(maxFrame, window + more)])
    ensures states[0] == Fresh(window, maxFrame)
    ensures 1 in states[3].buffered.vals && states[3].Available(1) == more && states[3].frames == states[1].frames
  {
    var s0 := Fresh(window, maxFrame);
    var s1 := Send(s0, body);
    var s2 := UpdateConnection(s1, more).0;
    states := [s0, s1, s2, ChangeSettings(s2, maxFrame, window + more)];
    WaitsForWindow(window, maxFrame, body);
    UpdateOfNoUse(s1, more);
    hide Send, UpdateConnection, DataFrames;
  }

  lemma WaitsForWindow(window: nat, maxFrame: FrameSize, body: Bytes)
    requires |body| > window
    ensures
      var s1 := Send(Fresh(window, maxFrame), body);
      && s1.window == 0 && s1.windows == map[1 := 0] && s1.buffered == Put(Empty(), 1, body[window..])
      && s1.initialWindow == window
  {
    hide DataFrames;
  }

  /** An update of the connection's window does nothing for a single stream without credit of its own. */
  lemma UpdateOfNoUse(s: Connection, increment: nat)
    requires s.window == 0 && s.windows == map[1 := 0] && s.buffered.keys == [1]
    requires 1 in s.buffered.vals && s.buffered.vals[1] != []
    ensures
      var s' := UpdateConnection(s, increment).0;
      s'.window == increment && s'.windows == s.windows && s'.frames == s.frames && 1 in s'.buffered.vals
      && s'.initialWindow == s.initialWindow
  {
    KeysAre(s.buffered);
    var s1 := s.(window := increment);
    var data := s.buffered.vals[1];
    assert Sendable(s1, 1, data) == 0;
    assert [1][1..] == [];
    assert data[..0] == [] && data[0..] == data;
    assert s.frames + [] == s.frames;
  }

  lemma DataFramesNext(id: StreamId, data: Bytes, maxFrame: FrameSize, size: nat)
    requires data != [] && size == Min(|data|, maxFrame)
    ensures DataFrames(id, data, maxFrame)
        == [Data(id, data[..size], maxFrame)] + DataFrames(id, data[size..], maxFrame)
  {
    if |data| <= maxFrame {
      assert data[..size] == data && data[size..] == [];
    }
  }

  lemma DropSent(sent: Bytes, data: Bytes, body: Bytes)
    requires sent + data == body
    ensures data == body[|sent|..]
  {
  }

  lemma SameUpdate(before: map<StreamId, int>, after: map<StreamId, int>, id: StreamId)
    requires after - {id} == before - {id} && id in after
    ensures after == before[id := after[id]]
  {
    forall j | j != id ensures (j in after <==> j in before) && (j in after ==> after[j] == before[j]) {
      assert j in after <==> j in after - {id};
      assert j in before <==> j in before - {id};
      assert j in after ==> after[j] == (after - {id})[j] == (before - {id})[j];
    }
  }

  /** The frames for the first `left` bytes, and none for a negative number. */
  ghost function FramesLeft(id: StreamId, data: Bytes, left: int, maxFrame: FrameSize): seq<Frame>
  {
    DataFrames(id, data[..Min(Positive(left), |data|)], maxFrame)
  }

  lemma FramesLeftNext(id: StreamId, data: Bytes, left: int, maxFrame: FrameSize, size: nat)
    requires 0 < left <= |data| && size == Min(left, maxFrame)
    ensures FramesLeft(id, data, left, maxFrame)
        == [Data(id, data[..size], maxFrame)] + FramesLeft(id, data[size..], left - size, maxFrame)
  {
    DataFramesNext(id, data[..left], maxFrame, size);
    assert data[..left][..size] == data[..size] && data[..left][size..] == data[size..][..left - size];
  }

  lemma FramesLeftEnds(id: StreamId, data: Bytes, left: int, maxFrame: FrameSize)
    requires left <= |data|
    ensures left <= 0 ==> FramesLeft(id, data, left, maxFrame) == []
    ensures FramesLeft(id, data, left, maxFrame) == DataFrames(id, data[..Positive(left)], maxFrame)
  {
  }

  class Http2Connection {
    var maxFrame: FrameSize
    var initialWindow: int
    var window: int
    var windows: map<StreamId, int>
    var next: StreamId
    var buffered: Dict<StreamId, Bytes>
    ghost var frames: seq<Frame>
    ghost var bodies: map<StreamId, Bytes>

    constructor (maxFrame: FrameSize, initialWindow: int)
      ensures View() == Connection(Empty(), initialWindow, map[], initialWindow, maxFrame, 1, [], map[])
    {
      this.maxFrame, this.initialWindow, window, windows := maxFrame, initialWindow, initialWindow, map[];
      next, buffered, frames, bodies := 1, Empty(), [], map[];
    }

    ghost function View(): Connection
      reads this
    {
      Connection(buffered, window, windows, initialWindow, maxFrame, next, frames, bodies)
    }

    /** `send_data` of the framing library, which refuses frames over the limits. */
    method SendFrame(id: StreamId, chunk: Bytes)
      requires id in windows && 0 < |chunk| <= maxFrame && |chunk| <= window && |chunk| <= windows[id]
      modifies this`window, this`windows, this`frames
      ensures window == old(window) - |chunk| && windows == old(windows)[id := old(windows)[id] - |chunk|]
      ensures frames == old(frames) + [Data(id, chunk, maxFrame)]
    {
      window, windows := window - |chunk|, windows[id := windows[id] - |chunk|];
      frames := frames + [Data(id, chunk, maxFrame)];
    }

    /** The loop of `_send_data`, which does nothing for a negative window. */
    method SendChunks(id: StreamId, body: Bytes, bytesToSend: int) returns (data: Bytes)
      requires id in windows
      requires bytesToSend <= |body| && bytesToSend <= window && bytesToSend <= windows[id]
      modifies this`window, this`windows, this`frames
      ensures
        var n := Positive(bytesToSend);
        && data == body[n..]
        && window == old(window) - n && windows == old(windows)[id := old(windows)[id] - n]
        && frames == old(frames) + DataFrames(id, body[..n], maxFrame)
    {
      hide DataFrames, FramesLeft;
      data := body;
      var left := bytesToSend;
      ghost var n, sent: Bytes := Positive(bytesToSend), [];
      FramesLeftEnds(id, data, left, maxFrame);
      while left > 0
        invariant left <= |data| && Positive(left) + |sent| == n
        invariant sent + data == body
        invariant id in windows && windows - {id} == old(windows) - {id}
        invariant window == old(window) - |sent| && windows[id] == old(windows)[id] - |sent|
        invariant frames + FramesLeft(id, data, left, maxFrame)
            == old(frames) + FramesLeft(id, body, bytesToSend, maxFrame)
      {
        var size := Min(left, maxFrame);
        FramesLeftNext(id, data, left, maxFrame, size);
        var chunk := data[..size];
        ghost var rest := data[size..];
        assert data == chunk + rest;
        hide *;
        Reassociate(frames, [Data(id, chunk, maxFrame)], FramesLeft(id, rest, left - size, maxFrame));
        Reassociate(sent, chunk, rest);
        sent := sent + chunk;
        data := data[size..];
        left := left - size;
        SendFrame(id, chunk);
      }
      FramesLeftEnds(id, data, left, maxFrame);
      DropSent(sent, data, body);
      SameUpdate(old(windows), windows, id);
    }

    method FinishBody(id: StreamId, data: Bytes)
      modifies this`frames, this`buffered
      ensures View() == Finish(old(View()), id, data)
    {
      if data == [] {
        frames := frames + [EndStream(id)];
        buffered := Pop(buffered, id);
      } else {
        buffered := Put(buffered, id, data);
      }
    }

    /** `_send_data`: as many frames as fit the windows, then either the end of the stream or a buffered rest. */
    method SendBody(id: StreamId, body: Bytes)
      modifies this`window, this`windows, this`frames, this`buffered
      ensures View() == SendData(old(View()), id, body)
    {
      hide DataFrames, Finish;
      if id !in windows {
        windows := windows[id := initialWindow];
      }
      var bytesToSend := Min(Min(window, windows[id]), |body|);
      var data := SendChunks(id, body, bytesToSend);
      assert View() == Emit(old(View()), id, body[..Sendable(old(View()), id, body)]);
      FinishBody(id, data);
    }

    method ApplySettings(maxFrame: FrameSize, initialWindow: int)
      modifies this`maxFrame, this`initialWindow, this`windows
      ensures View() == ChangeSettings(old(View()), maxFrame, initialWindow)
    {
      windows := map id | id in windows :: windows[id] + initialWindow - this.initialWindow;
      this.maxFrame, this.initialWindow := maxFrame, initialWindow;
    }

    method SendRequest(body: Bytes)
      modifies this
      ensures View() == Send(old(View()), body)
    {
      var id := next;
      next := next + 2;
      bodies := bodies[id := body];
      SendBody(id, body);
    }

    method HandleStreamUpdate(id: StreamId, increment: nat)
      modifies this
      ensures View() == UpdateStream(old(View()), id, increment)
    {
      windows := windows[id := (if id in windows then windows[id] else initialWindow) + increment];
      if id in buffered.vals {
        SendBody(id, buffered.vals[id]);
      }
    }

    /** The loop over the streams with buffered data; False stands for its error, when the dictionary lost a stream. */
    method SendToEach(ids: seq<StreamId>) returns (ok: bool)
      requires ids == buffered.keys
      modifies this`window, this`windows, this`frames, this`buffered
      ensures (View(), ok) == SendEach(old(View()), ids)
    {
      hide SendData, SendEach, EachFrom;
      KeysAre(buffered);
      EachStarts(View(), ids);
      var i := 0;
      while i < |ids|
        invariant 0 <= i <= |ids|
        invariant forall k :: i <= k < |ids| ==> ids[k] in buffered.vals
        invariant EachFrom(View(), ids, i) == old(EachFrom(View(), ids, 0))
      {
        ghost var before := View();
        SendBody(ids[i], buffered.vals[ids[i]]);
        TurnKeepsKeys(before, ids, i);
        EachNext(before, ids, i);
        i := i + 1;
        if i < |ids| && ids[i - 1] !in buffered.vals {
          return false;
        }
      }
      EachEnds(View(), ids);
      return true;
    }

    /** An update of the connection's window. */
    method HandleConnectionUpdate(increment: nat) returns (ok: bool)
      modifies this`window, this`windows, this`frames, this`buffered
      ensures (View(), ok) == UpdateConnection(old(View()), increment)
    {
      window := window + increment;
      ok := SendToEach(buffered.keys);
    }
  }

  ghost function EachFrom(s: Connection, ids: seq<StreamId>, i: nat): (Connection, bool)
  {
    SendEach(s, if i <= |ids| then ids[i..] else [])
  }

  lemma EachStarts(s: Connection, ids: seq<StreamId>)
    ensures EachFrom(s, ids, 0) == SendEach(s, ids)
  {
    assert ids[0..] == ids;
  }

  lemma EachEnds(s: Connection, ids: seq<StreamId>)
    ensures EachFrom(s, ids, |ids|) == (s, true)
  {
  }

  lemma EachNext(s: Connection, ids: seq<StreamId>, i: nat)
    requires i < |ids| && ids[i] in s.buffered.vals
    ensures
      var s' := SendData(s, ids[i], s.buffered.vals[ids[i]]);
      EachFrom(s, ids, i) == if i + 1 < |ids| && ids[i] !in s'.buffered.vals then (s', false)
                             else EachFrom(s', ids, i + 1)
  {
    hide SendData;
    assert ids[i..][0] == ids[i] && ids[i..][1..] == ids[i + 1..];
  }

  lemma TurnKeepsKeys(s: Connection, ids: seq<StreamId>, i: nat)
    requires Distinct(ids) && i < |ids| && ids[i] in s.buffered.vals
    ensures
      var s' := SendData(s, ids[i], s.buffered.vals[ids[i]]);
      s'.maxFrame == s.maxFrame && forall k :: i < k < |ids| && ids[k] in s.buffered.vals ==> ids[k] in s'.buffered.vals
  {
    DistinctIndices(ids);
    hide DataFrames, Sendable;
  }
}
