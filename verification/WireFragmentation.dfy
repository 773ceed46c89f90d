/**
 Fragmentation does not matter: cutting the two byte streams into chunks in any other way,
 with the same interleaving of their bytes, leads the proxy to the same connection.
 */
module WireFragmentation {
  import opened WireProxy
  import opened WireTransparency

  /** What is left to compare once a connection is closed: its unread input is irrelevant. */
  function Shut(c: Connection): Connection {
    c.(front := [], back := [], fromClient := [], fromServer := [])
  }

  predicate Same(c: Connection, d: Connection) {
    c == d || (c.status != Open && d.status != Open && Shut(c) == Shut(d))
  }

  lemma SizeOfPrefix(a: Bytes, b: Bytes, startup: bool)
    requires |a| >= Header(startup)
    ensures FrameSize(a + b, startup) == FrameSize(a, startup)
  {}

  /** More input after a chunk: the same as one longer chunk. `seen` is the input history. */
  lemma {:induction false} PumpClientAppend(c: Connection, b: Bytes, seen: Bytes, decode: Decode)
    requires c.status == Open
    ensures var d, e := PumpClient(c, decode), PumpClient(c.(front := c.front + b, fromClient := seen), decode);
      if d.status == Open then e == PumpClient(d.(front := d.front + b, fromClient := seen), decode)
      else e.status == d.status && Shut(e) == Shut(d)
    decreases |c.front|
  {
    var whole := c.(front := c.front + b, fromClient := seen);
    if Incomplete(c.front, c.startup) {
    } else if Misframed(c.front, c.startup) {
      SizeOfPrefix(c.front, b, c.startup);
    } else {
      SizeOfPrefix(c.front, b, c.startup);
      var size := FrameSize(c.front, c.startup);
      var frame, rest := c.front[..size], c.front[size..];
      assert whole.front[..size] == frame && whole.front[size..] == rest + b;
      PumpClientStep(c, decode);
      PumpClientStep(whole, decode);
      ClientFrameFront(c, frame, rest, rest + b, seen, decode);
      var next := ClientFrame(c.(front := rest), frame, decode);
      if next.status == Open {
        PumpClientAppend(next, b, seen, decode);
      }
    }
  }

  /** Handling a frame does not look at the rest of the buffer. */
  lemma ClientFrameFront(c: Connection, frame: Bytes, rest: Bytes, more: Bytes, seen: Bytes, decode: Decode)
    requires |frame| >= 5 && (c.startup ==> |frame| >= 8)
    ensures var d := ClientFrame(c.(front := rest), frame, decode);
      d.front == rest &&
      ClientFrame(c.(front := more, fromClient := seen), frame, decode) == d.(front := more, fromClient := seen)
  {}

  lemma ReceiveBack(c: Connection, frame: Bytes, more: Bytes, seen: Bytes)
    requires |frame| >= 5
    ensures Receive(c, frame).back == c.back
    ensures Receive(c.(back := more, fromServer := seen), frame) == Receive(c, frame).(back := more, fromServer := seen)
  {}

  lemma FinishBack(c: Connection, q: Query, cut: bool, more: Bytes, seen: Bytes)
    ensures Finish(c, q, cut).back == c.back
    ensures Finish(c.(back := more, fromServer := seen), q, cut) == Finish(c, q, cut).(back := more, fromServer := seen)
  {}

  lemma ReadyBack(c: Connection, frame: Bytes, more: Bytes, seen: Bytes)
    requires IsReady(frame)
    ensures Ready(c, frame).back == c.back
    ensures Ready(c.(back := more, fromServer := seen), frame) == Ready(c, frame).(back := more, fromServer := seen)
  {
    if !c.startupReply && c.queries != [] {
      var d := c.(queries := c.queries[1..], answered := c.answered + 1);
      FinishBack(d, c.queries[0], Cuts(c.queries[0], frame), more, seen);
    }
  }

  lemma ServerFrameBack(c: Connection, frame: Bytes, rest: Bytes, more: Bytes, seen: Bytes)
    requires |frame| >= 5
    ensures var d := ServerFrame(c.(back := rest), frame);
      d.back == rest &&
      ServerFrame(c.(back := more, fromServer := seen), frame) == d.(back := more, fromServer := seen)
  {
    var b := c.(back := rest);
    ReceiveBack(b, frame, more, seen);
    if frame[0] == ReadyTag { ReadyBack(Receive(b, frame), frame, more, seen); }
    assert c.(back := more, fromServer := seen) == b.(back := more, fromServer := seen);
  }

  lemma {:induction false} PumpServerAppend(c: Connection, b: Bytes, seen: Bytes)
    requires c.status == Open
    ensures var d, e := PumpServer(c), PumpServer(c.(back := c.back + b, fromServer := seen));
      if d.status == Open then e == PumpServer(d.(back := d.back + b, fromServer := seen))
      else e.status == d.status && Shut(e) == Shut(d)
    decreases |c.back|
  {
    var whole := c.(back := c.back + b, fromServer := seen);
    if Incomplete(c.back, false) {
    } else if Misframed(c.back, false) {
      SizeOfPrefix(c.back, b, false);
    } else {
      SizeOfPrefix(c.back, b, false);
      var size := FrameSize(c.back, false);
      var frame, rest := c.back[..size], c.back[size..];
      assert whole.back[..size] == frame && whole.back[size..] == rest + b;
      PumpServerStep(c);
      PumpServerStep(whole);
      ServerFrameBack(c, frame, rest, rest + b, seen);
      var next := ServerFrame(c.(back := rest), frame);
      if next.status == Open {
        PumpServerAppend(next, b, seen);
      }
    }
  }

  lemma {:induction false} PumpClientSeen(c: Connection, decode: Decode)
    ensures PumpClient(c, decode).fromClient == c.fromClient
    decreases |c.front|
  {
    if c.status == Open && !Incomplete(c.front, c.startup) && !Misframed(c.front, c.startup) {
      PumpClientStep(c, decode);
      var size := FrameSize(c.front, c.startup);
      PumpClientSeen(ClientFrame(c.(front := c.front[size..]), c.front[..size], decode), decode);
    }
  }

  lemma {:induction false} PumpServerSeen(c: Connection)
    ensures PumpServer(c).fromServer == c.fromServer
    decreases |c.back|
  {
    if c.status == Open && !Incomplete(c.back, false) && !Misframed(c.back, false) {
      PumpServerStep(c);
      var size := FrameSize(c.back, false);
      ServerFrameSeen(c.(back := c.back[size..]), c.back[..size]);
      PumpServerSeen(ServerFrame(c.(back := c.back[size..]), c.back[..size]));
    }
  }

  lemma ServerFrameSeen(c: Connection, frame: Bytes)
    requires |frame| >= 5
    ensures ServerFrame(c, frame).fromServer == c.fromServer && ServerFrame(c, frame).back == c.back
  {}

  /** Two chunks in a row are as good as their concatenation. */
  lemma ClientChunks(c: Connection, a: Bytes, b: Bytes, decode: Decode)
    ensures Same(ClientData(ClientData(c, a, decode), b, decode), ClientData(c, a + b, decode))
  {
    if c.status == Open {
      var c1 := c.(front := c.front + a, fromClient := c.fromClient + a);
      PumpClientSeen(c1, decode);
      PumpClientAppend(c1, b, c1.fromClient + b, decode);
      assert c.front + (a + b) == c1.front + b;
      assert c.fromClient + (a + b) == c1.fromClient + b;
    }
  }

  lemma ServerChunks(c: Connection, a: Bytes, b: Bytes)
    ensures Same(ServerData(ServerData(c, a), b), ServerData(c, a + b))
  {
    if c.status == Open {
      var c1 := c.(back := c.back + a, fromServer := c.fromServer + a);
      PumpServerSeen(c1);
      PumpServerAppend(c1, b, c1.fromServer + b);
      assert c.back + (a + b) == c1.back + b;
      assert c.fromServer + (a + b) == c1.fromServer + b;
    }
  }

  // ---------------------------------------------------------------- whole runs

  function Singles(e: Event): seq<Event>
    decreases |e.chunk|
  {
    if e.chunk == [] then [] else
      match e
      case FromClient(chunk) => [FromClient([chunk[0]])] + Singles(FromClient(chunk[1..]))
      case FromServer(chunk) => [FromServer([chunk[0]])] + Singles(FromServer(chunk[1..]))
  }

  /** The run one byte at a time: the interleaving of the two streams, without chunking. */
  function Bytewise(events: seq<Event>): seq<Event>
    decreases |events|
  {
    if events == [] then [] else Singles(events[0]) + Bytewise(events[1..])
  }

  lemma ClosedStays(c: Connection, e: Event, decode: Decode)
    requires c.status != Open
    ensures Handle(c, e, decode) == c
  {}

  lemma {:induction false} SameRun(c: Connection, d: Connection, events: seq<Event>, decode: Decode)
    requires Same(c, d)
    ensures Same(Run(c, events, decode), Run(d, events, decode))
    decreases |events|
  {
    if events != [] {
      if c.status != Open {
        ClosedStays(c, events[0], decode);
        ClosedStays(d, events[0], decode);
      }
      SameRun(Handle(c, events[0], decode), Handle(d, events[0], decode), events[1..], decode);
    }
  }

  lemma SameTransitive(c: Connection, d: Connection, e: Connection)
    requires Same(c, d) && Same(d, e)
    ensures Same(c, e)
  {}

  function WithChunk(e: Event, chunk: Bytes): Event {
    match e case FromClient(_) => FromClient(chunk) case FromServer(_) => FromServer(chunk)
  }

  lemma Chunks(c: Connection, e: Event, a: Bytes, b: Bytes, decode: Decode)
    ensures Same(Handle(c, WithChunk(e, a + b), decode),
                 Handle(Handle(c, WithChunk(e, a), decode), WithChunk(e, b), decode))
  {
    match e
    case FromClient(_) => ClientChunks(c, a, b, decode);
    case FromServer(_) => ServerChunks(c, a, b);
  }

  lemma EmptyChunk(c: Connection, e: Event, decode: Decode)
    requires Settled(c) && e.chunk == []
    ensures Handle(c, e, decode) == c
  {
    assert c.front + [] == c.front && c.back + [] == c.back;
    assert c.fromClient + [] == c.fromClient && c.fromServer + [] == c.fromServer;
  }

  lemma {:induction false} SinglesRun(c: Connection, e: Event, decode: Decode)
    requires Invariant(c) && Settled(c)
    ensures Same(Handle(c, e, decode), Run(c, Singles(e), decode))
    decreases |e.chunk|
  {
    if e.chunk == [] {
      EmptyChunk(c, e, decode);
    } else {
      var first, rest := WithChunk(e, [e.chunk[0]]), WithChunk(e, e.chunk[1..]);
      assert e.chunk == [e.chunk[0]] + e.chunk[1..];
      Chunks(c, e, [e.chunk[0]], e.chunk[1..], decode);
      HandleKeeps(c, first, decode);
      var d := Handle(c, first, decode);
      SinglesRun(d, rest, decode);
      assert Singles(e) == [first] + Singles(rest);
      assert Singles(e)[1..] == Singles(rest);
      SameTransitive(Handle(c, e, decode), Handle(d, rest, decode), Run(d, Singles(rest), decode));
    }
  }

  lemma {:induction false} BytewiseRun(c: Connection, events: seq<Event>, decode: Decode)
    requires Invariant(c) && Settled(c)
    ensures Same(Run(c, events, decode), Run(c, Bytewise(events), decode))
    decreases |events|
  {
    if events != [] {
      var e, rest := events[0], events[1..];
      SinglesRun(c, e, decode);
      HandleKeeps(c, e, decode);
      BytewiseRun(Handle(c, e, decode), rest, decode);
      RunAppend(c, Singles(e), Bytewise(rest), decode);
      SameRun(Handle(c, e, decode), Run(c, Singles(e), decode), Bytewise(rest), decode);
      SameTransitive(Run(c, events, decode), Run(Handle(c, e, decode), Bytewise(rest), decode),
                     Run(c, Bytewise(events), decode));
    }
  }

  lemma SameSymmetric(c: Connection, d: Connection)
    requires Same(c, d)
    ensures Same(d, c)
  {}

  /** Two runs that deliver the same bytes in the same interleaving, however fragmented, end
      in the same connection: same output on both sides, same queue, same marker. */
  lemma FragmentationIrrelevant(a: seq<Event>, b: seq<Event>, decode: Decode)
    requires Bytewise(a) == Bytewise(b)
    ensures Same(Run(Fresh, a, decode), Run(Fresh, b, decode))
  {
    FreshOk();
    BytewiseRun(Fresh, a, decode);
    BytewiseRun(Fresh, b, decode);
    SameSymmetric(Run(Fresh, b, decode), Run(Fresh, Bytewise(b), decode));
    SameTransitive(Run(Fresh, a, decode), Run(Fresh, Bytewise(a), decode), Run(Fresh, b, decode));
  }
}
