/**
 * Over runs of an HTTP/2 connection: credit is conserved, the latest settings apply, and the
 * requests get their streams in order.
 */
module Http2Credit {
  import opened ByteStrings
  import opened Http2

  /** All bytes sent in DATA frames. */
  function Total(frames: seq<Frame>): nat {
    if frames == [] then 0
    else
      var last := frames[|frames| - 1];
      Total(frames[..|frames| - 1]) + (if last.Data? then |last.payload| else 0)
  }

  lemma {:induction false} TotalConcat(a: seq<Frame>, b: seq<Frame>)
    ensures Total(a + b) == Total(a) + Total(b)
  {
    if b == [] {
      assert a + b == a;
    } else {
      var n := |b| - 1;
      assert (a + b)[..|a + b| - 1] == a + b[..n] && (a + b)[|a + b| - 1] == b[n];
      TotalConcat(a, b[..n]);
    }
  }

  lemma {:induction false} TotalOfData(id: StreamId, data: Bytes, maxFrame: FrameSize)
    decreases |data|
    ensures Total(DataFrames(id, data, maxFrame)) == |data|
  {
    if data == [] {
    } else if |data| <= maxFrame {
      assert [Data(id, data, maxFrame)][..0] == [];
    } else {
      var f := Data(id, data[..maxFrame], maxFrame);
      TotalOfData(id, data[maxFrame..], maxFrame);
      TotalConcat([f], DataFrames(id, data[maxFrame..], maxFrame));
      assert [f][..0] == [];
    }
  }

  /** What a stream may send plus what it has sent, apart from the initial window. */
  function Account(s: Connection, id: StreamId): int {
    OwnWindow(s, id) - s.initialWindow + |SentOn(s.frames, id)|
  }

  /** What the connection may send plus what it has sent. */
  function AccountOfAll(s: Connection): int {
    s.window + Total(s.frames)
  }

  ghost predicate SameAccounts(s: Connection, s': Connection) {
    && AccountOfAll(s') == AccountOfAll(s) && (forall j :: Account(s', j) == Account(s, j))
    && s'.initialWindow == s.initialWindow && s'.maxFrame == s.maxFrame
    && s'.bodies == s.bodies && s'.next == s.next
  }

  lemma SendDataTotal(s: Connection, id: StreamId, data: Bytes)
    ensures AccountOfAll(SendData(s, id, data)) == AccountOfAll(s)
  {
    var sent := data[..Sendable(s, id, data)];
    var fs := DataFrames(id, sent, s.maxFrame);
    TotalOfData(id, sent, s.maxFrame);
    TotalConcat(s.frames, fs);
    TotalConcat(s.frames + fs, [EndStream(id)]);
    assert Total([EndStream(id)]) == 0 by {
      assert [EndStream(id)][..0] == [];
    }
    hide DataFrames, Sendable, Total;
  }

  lemma SendDataAccount(s: Connection, id: StreamId, data: Bytes, j: StreamId)
    ensures Account(SendData(s, id, data), j) == Account(s, j)
  {
    SendDataCarries(s, id, data, j);
    hide DataFrames, Sendable, SentOn;
  }

  /** Sending moves credit into frames, byte for byte. */
  lemma SendDataKeepsAccounts(s: Connection, id: StreamId, data: Bytes)
    ensures SameAccounts(s, SendData(s, id, data))
  {
    SendDataTotal(s, id, data);
    forall j ensures Account(SendData(s, id, data), j) == Account(s, j) {
      SendDataAccount(s, id, data, j);
    }
    hide DataFrames, Sendable, Account, AccountOfAll;
  }

  lemma {:induction false} SendEachKeepsAccounts(s: Connection, ids: seq<StreamId>)
    decreases |ids|
    ensures SameAccounts(s, SendEach(s, ids).0)
  {
    if ids == [] {
    } else {
      hide SendData, Account, AccountOfAll;
      if ids[0] in s.buffered.vals {
        SendDataKeepsAccounts(s, ids[0], s.buffered.vals[ids[0]]);
        SendEachKeepsAccounts(SendData(s, ids[0], s.buffered.vals[ids[0]]), ids[1..]);
      } else {
        SendEachKeepsAccounts(s, ids[1..]);
      }
    }
  }

  /** What an event grants to one stream, and to the connection. */
  function Granted(e: Event, id: StreamId): nat {
    if e.EvUpdateStream? && e.id == id then e.increment else 0
  }

  function GrantedToAll(e: Event): nat {
    if e.EvUpdateConnection? then e.increment else 0
  }

  lemma NextAccounts(s: Connection, e: Event, j: StreamId)
    ensures
      var s' := Next(s, e);
      && Account(s', j) == Account(s, j) + Granted(e, j)
      && AccountOfAll(s') == AccountOfAll(s) + GrantedToAll(e)
      && (if e.EvSettings? then s'.maxFrame == e.maxFrame && s'.initialWindow == e.initialWindow
          else s'.maxFrame == s.maxFrame && s'.initialWindow == s.initialWindow)
      && (if e.EvSend? then s'.next == s.next + 2 && s'.bodies == s.bodies[s.next := e.body]
          else s'.next == s.next && s'.bodies == s.bodies)
  {
    hide SendData, SendEach, SentOn, Total;
    match e
    case EvSend(body) =>
      var s1 := s.(next := s.next + 2, bodies := s.bodies[s.next := body]);
      SendDataKeepsAccounts(s1, s.next, body);
    case EvUpdateStream(id, increment) =>
      var windows := s.windows[id := OwnWindow(s, id) + increment];
      if id in s.buffered.vals {
        SendDataKeepsAccounts(s.(windows := windows), id, s.buffered.vals[id]);
      }
    case EvUpdateConnection(increment) =>
      SendEachKeepsAccounts(s.(window := s.window + increment), s.buffered.keys);
    case EvSettings(maxFrame, initialWindow) =>
  }

  function GrantedBy(events: seq<Event>, id: StreamId): nat {
    if events == [] then 0 else GrantedBy(events[..|events| - 1], id) + Granted(events[|events| - 1], id)
  }

  function GrantedToAllBy(events: seq<Event>): nat {
    if events == [] then 0 else GrantedToAllBy(events[..|events| - 1]) + GrantedToAll(events[|events| - 1])
  }

  /**
   * Credit is conserved over any run: what a stream has sent and may still send are its initial
   * window, as the latest settings give it, and all that was granted to it since; and what all
   * streams have sent and the connection may still send are its first window and all that was
   * granted to the connection.
   */
  lemma {:induction false} CreditIsConserved(states: seq<Connection>, events: seq<Event>, n: nat, id: StreamId)
    requires IsRun(states, events) && n <= |events|
    ensures
      var s0, s := states[0], states[n];
      && OwnWindow(s, id) + |SentOn(s.frames, id)|
         == s.initialWindow + (OwnWindow(s0, id) - s0.initialWindow) + GrantedBy(events[..n], id)
      && s.window + Total(s.frames) == s0.window + GrantedToAllBy(events[..n])
  {
    if n == 0 {
      assert events[..0] == [];
    } else {
      assert events[..n][..n - 1] == events[..n - 1];
      hide Next, SentOn, Total, OwnWindow;
      CreditIsConserved(states, events, n - 1, id);
      NextAccounts(states[n - 1], events[n - 1], id);
    }
  }

  /** The settings in force are the latest ones. */
  lemma {:induction false} LatestSettingsApply(states: seq<Connection>, events: seq<Event>, n: nat, i: nat)
    requires IsRun(states, events) && i < n <= |events| && events[i].EvSettings?
    requires forall j :: i < j < n ==> !events[j].EvSettings?
    ensures states[n].maxFrame == events[i].maxFrame && states[n].initialWindow == events[i].initialWindow
    decreases n
  {
    hide Next;
    NextAccounts(states[n - 1], events[n - 1], 0);
    if n == i + 1 {
    } else {
      LatestSettingsApply(states, events, n - 1, i);
    }
  }

  /** The bodies of the requests so far. */
  function Requests(events: seq<Event>): seq<Bytes> {
    if events == [] then []
    else
      var last := events[|events| - 1];
      Requests(events[..|events| - 1]) + (if last.EvSend? then [last.body] else [])
  }

  function StreamAt(first: StreamId, k: nat): StreamId {
    first + 2 * k
  }

  /** The streams from `first` on, every other one, carry these bodies, and no other stream has one. */
  ghost predicate Numbered(s: Connection, first: StreamId, bodies: seq<Bytes>) {
    && s.next == StreamAt(first, |bodies|)
    && (forall k :: 0 <= k < |bodies| ==>
          StreamAt(first, k) in s.bodies && s.bodies[StreamAt(first, k)] == bodies[k])
    && (forall id :: id in s.bodies ==> exists k :: 0 <= k < |bodies| && id == StreamAt(first, k))
  }

  lemma NumberedNext(s: Connection, s': Connection, first: StreamId, bodies: seq<Bytes>, body: Bytes)
    requires Numbered(s, first, bodies) && s'.next == s.next + 2 && s'.bodies == s.bodies[s.next := body]
    ensures Numbered(s', first, bodies + [body])
  {
    var all := bodies + [body];
    forall k: nat, j: nat ensures StreamAt(first, k) == StreamAt(first, j) ==> k == j {
    }
    assert s'.next == StreamAt(first, |all|);
    hide StreamAt;
    forall k | 0 <= k < |all| ensures StreamAt(first, k) in s'.bodies && s'.bodies[StreamAt(first, k)] == all[k] {
      assert k < |bodies| ==> StreamAt(first, k) != StreamAt(first, |bodies|);
    }
    forall id | id in s'.bodies ensures exists k :: 0 <= k < |all| && id == StreamAt(first, k) {
      if id == s.next {
        assert id == StreamAt(first, |bodies|);
      } else {
        var k :| 0 <= k < |bodies| && id == StreamAt(first, k);
        assert 0 <= k < |all|;
      }
    }
  }

  /** The requests of a run get every other stream, in order, and no other stream has a body. */
  lemma {:induction false} StreamsInOrder(states: seq<Connection>, events: seq<Event>, n: nat)
    requires IsRun(states, events) && n <= |events|
    ensures Numbered(states[n], states[0].next, Requests(events[..n]))
  {
    if n == 0 {
      assert events[..0] == [];
    } else {
      assert events[..n][..n - 1] == events[..n - 1];
      StreamsInOrder(states, events, n - 1);
      NextAccounts(states[n - 1], events[n - 1], 0);
      hide Next, Numbered, Account, AccountOfAll;
      var before := Requests(events[..n - 1]);
      if events[n - 1].EvSend? {
        NumberedNext(states[n - 1], states[n], states[0].next, before, events[n - 1].body);
      } else {
        NumberedSame(states[n - 1], states[n], states[0].next, before);
        assert before + [] == before;
      }
    }
  }

  lemma NumberedSame(s: Connection, s': Connection, first: StreamId, bodies: seq<Bytes>)
    requires Numbered(s, first, bodies) && s'.next == s.next && s'.bodies == s.bodies
    ensures Numbered(s', first, bodies)
  {
  }

  ghost predicate FullUpToLast(fs: seq<Frame>, maxFrame: FrameSize) {
    forall i :: 0 <= i < |fs| - 1 ==> fs[i].Data? && |fs[i].payload| == maxFrame
  }

  /** DATA frames are as few as the frame size allows: all but the last one are full. */
  lemma {:induction false} FramesAreFull(id: StreamId, data: Bytes, maxFrame: FrameSize)
    decreases |data|
    ensures FullUpToLast(DataFrames(id, data, maxFrame), maxFrame)
  {
    if |data| <= maxFrame {
    } else {
      FramesAreFull(id, data[maxFrame..], maxFrame);
    }
  }
}
