/**
 What the commit-loss proxy guarantees over every run: nothing is lost, added or
 reordered on either stream however the bytes were fragmented, and the marker is written
 only for a commit that really succeeded and of whose reply the client saw nothing.
 */
module WireTransparency {
  import opened WireProxy
  import opened CommitPattern

  datatype Event = FromClient(chunk: Bytes) | FromServer(chunk: Bytes)

  function Handle(c: Connection, e: Event, decode: Decode): Connection {
    match e
    case FromClient(chunk) => ClientData(c, chunk, decode)
    case FromServer(chunk) => ServerData(c, chunk)
  }

  function Run(c: Connection, events: seq<Event>, decode: Decode): Connection
    decreases |events|
  {
    if events == [] then c else Run(Handle(c, events[0], decode), events[1..], decode)
  }

  lemma {:induction false} RunAppend(c: Connection, a: seq<Event>, b: seq<Event>, decode: Decode)
    ensures Run(c, a + b, decode) == Run(Run(c, a, decode), b, decode)
    decreases |a|
  {
    if a == [] {
      assert a + b == b;
    } else {
      assert (a + b)[1..] == a[1..] + b;
      RunAppend(Handle(c, a[0], decode), a[1..], b, decode);
    }
  }

  // ---------------------------------------------------------------- invariants

  /** The bytes of a COMMIT reply that are being held back. */
  function Held(c: Connection): Bytes {
    if c.queries == [] then [] else Flat(c.queries[0].frames)
  }

  /** Only the query at the front of the queue, and only a COMMIT, holds frames. */
  predicate QueueOk(c: Connection) {
    forall i :: 0 <= i < |c.queries| && (i > 0 || !c.queries[0].commit || c.startupReply) ==>
      c.queries[i].frames == [] && !c.queries[i].complete
  }

  /** Conservation: received bytes are forwarded, held, cut off or still buffered. */
  predicate Conserves(c: Connection) {
    && (c.status != Aborted ==> c.toServer + c.front == c.fromClient)
    && c.toServer <= c.fromClient
    && c.toClient + Held(c) + Flat(c.withheld) + c.back == c.fromServer
    && (c.status != Dropped ==> c.withheld == [])
    && (c.status == Dropped <==> c.marker)
    && (c.status == Dropped ==> Held(c) == [])
  }

  predicate HasCommitComplete(frames: seq<Bytes>) {
    exists i :: 0 <= i < |frames| && IsCommitComplete(frames[i])
  }

  /** `complete` remembers that a held frame was CommandComplete COMMIT. */
  predicate CompleteOk(c: Connection) {
    c.queries != [] ==> (c.queries[0].complete <==> HasCommitComplete(c.queries[0].frames))
  }

  /** With at most one ReadyForQuery per query, the queue is exactly what is unanswered. */
  predicate QueueTracks(c: Connection) {
    && c.answered + |c.queries| == |c.asked|
    && forall i :: 0 <= i < |c.queries| ==> c.queries[i].commit == c.asked[c.answered + i]
  }

  predicate ReplyOk(c: Connection) {
    && (c.startupReply ==> c.reply == [] && c.answered == 0)
    && (c.inStep ==> QueueTracks(c))
    && (c.inStep && c.status != Dropped ==>
          (c.queries == [] ==> c.reply == []) &&
          (c.queries != [] && c.queries[0].commit ==> c.queries[0].frames == c.reply))
  }

  /** The withheld frames are the whole reply to a COMMIT, with CommandComplete COMMIT in it
      and ReadyForQuery idle at its end. */
  predicate DroppedOk(c: Connection) {
    c.status == Dropped ==>
      && c.withheld != [] && IsReadyIdle(c.withheld[|c.withheld| - 1]) && HasCommitComplete(c.withheld)
      && (c.inStep ==> c.withheld == c.reply && 0 < c.answered <= |c.asked| && c.asked[c.answered - 1])
  }

  predicate Invariant(c: Connection) {
    QueueOk(c) && Conserves(c) && CompleteOk(c) && ReplyOk(c) && DroppedOk(c)
  }

  /** Between events no complete frame is kept waiting. */
  predicate Settled(c: Connection) {
    c.status == Open ==> Incomplete(c.front, c.startup) && Incomplete(c.back, false)
  }

  lemma FlatAppend(fs: seq<Bytes>, f: Bytes)
    ensures Flat(fs + [f]) == Flat(fs) + f
  {
    assert (fs + [f])[..|fs|] == fs;
  }

  // ---------------------------------------------------------------- one frame

  lemma ClientFrameConserves(c: Connection, frame: Bytes, rest: Bytes, decode: Decode)
    requires QueueOk(c) && Conserves(c) && c.status == Open && c.front == frame + rest
    requires |frame| >= 5 && (c.startup ==> |frame| >= 8)
    ensures var d := ClientFrame(c.(front := rest), frame, decode); QueueOk(d) && Conserves(d)
  {
    Forwarded(c, frame, rest);
    if !c.startup && frame[0] == QueryTag {
      var e := c.(front := rest, toServer := c.toServer + frame);
      AskConserves(e, Query(IsCommitText(decode(Statement(frame))), false, []));
    }
  }

  lemma Forwarded(c: Connection, frame: Bytes, rest: Bytes)
    requires Conserves(c) && c.status == Open && c.front == frame + rest
    ensures Conserves(c.(front := rest, toServer := c.toServer + frame))
    ensures Conserves(c.(front := rest, status := Aborted))
  {
    assert c.toServer + (frame + rest) == (c.toServer + frame) + rest;
  }

  lemma AskConserves(c: Connection, q: Query)
    requires QueueOk(c) && Conserves(c) && q.frames == [] && !q.complete
    ensures var d := c.(queries := c.queries + [q], asked := c.asked + [q.commit]); QueueOk(d) && Conserves(d)
  {
    var d := c.(queries := c.queries + [q], asked := c.asked + [q.commit]);
    assert Held(d) == Held(c) by { assert Flat([]) == []; }
  }

  /** A new query joins the end of the queue. */
  lemma AskTracks(c: Connection, q: Query)
    requires QueueTracks(c)
    ensures QueueTracks(c.(queries := c.queries + [q], asked := c.asked + [q.commit]))
  {}

  lemma AskReplies(c: Connection, q: Query)
    requires ReplyOk(c) && c.status == Open && q.frames == []
    ensures ReplyOk(c.(queries := c.queries + [q], asked := c.asked + [q.commit]))
  {
    if c.inStep { AskTracks(c, q); }
  }

  lemma AskComplete(c: Connection, q: Query)
    requires CompleteOk(c) && q.frames == [] && !q.complete
    ensures CompleteOk(c.(queries := c.queries + [q], asked := c.asked + [q.commit]))
  {
    assert !HasCommitComplete([]);
  }

  lemma ClientFrameReplies(c: Connection, frame: Bytes, rest: Bytes, decode: Decode)
    requires CompleteOk(c) && ReplyOk(c) && c.status == Open
    requires |frame| >= 5 && (c.startup ==> |frame| >= 8)
    ensures var d := ClientFrame(c.(front := rest), frame, decode); CompleteOk(d) && ReplyOk(d) && DroppedOk(d)
  {
    var d := ClientFrame(c.(front := rest), frame, decode);
    assert d.status != Dropped;
    if !c.startup && frame[0] == QueryTag {
      var q := Query(IsCommitText(decode(Statement(frame))), false, []);
      var e := c.(front := rest, toServer := c.toServer + frame);
      assert d == e.(queries := e.queries + [q], asked := e.asked + [q.commit]);
      AskReplies(e, q);
      AskComplete(e, q);
    } else {
      SameReplies(c, d);
    }
  }

  lemma SameReplies(c: Connection, d: Connection)
    requires CompleteOk(c) && ReplyOk(c) && c.status != Dropped
    requires d.queries == c.queries && d.asked == c.asked && d.answered == c.answered && d.reply == c.reply
    requires d.inStep == c.inStep && d.startupReply == c.startupReply
    ensures CompleteOk(d) && ReplyOk(d)
  {}

  /** Forwarding or holding one backend frame. */
  lemma ReceiveConserves(c: Connection, frame: Bytes, rest: Bytes)
    requires QueueOk(c) && Conserves(c) && c.status == Open && c.back == frame + rest && |frame| >= 5
    ensures var d := Receive(c.(back := rest), frame); QueueOk(d) && Conserves(d)
  {
    var d := Receive(c.(back := rest), frame);
    assert c.toClient + Held(c) + (frame + rest) == c.fromServer by {
      assert c.toClient + Held(c) + Flat(c.withheld) == c.toClient + Held(c);
    }
    if !c.startupReply && c.queries != [] && c.queries[0].commit {
      FlatAppend(c.queries[0].frames, frame);
      assert Held(d) == Held(c) + frame;
      assert d.toClient + Held(d) + Flat(d.withheld) + d.back == c.toClient + Held(c) + (frame + rest);
    } else {
      assert Held(c) == [] && Held(d) == [];
      assert d.toClient + Held(d) + Flat(d.withheld) + d.back == c.toClient + Held(c) + (frame + rest);
    }
  }

  lemma HasCommitCompleteAppend(fs: seq<Bytes>, f: Bytes)
    ensures HasCommitComplete(fs + [f]) <==> HasCommitComplete(fs) || IsCommitComplete(f)
  {
    if HasCommitComplete(fs) {
      var i :| 0 <= i < |fs| && IsCommitComplete(fs[i]);
      assert (fs + [f])[i] == fs[i];
    }
    if IsCommitComplete(f) { assert (fs + [f])[|fs|] == f; }
  }

  lemma ReceiveReplies(c: Connection, frame: Bytes)
    requires QueueOk(c) && CompleteOk(c) && ReplyOk(c) && c.status == Open && |frame| >= 5
    ensures var d := Receive(c, frame); CompleteOk(d) && QueueOk(d) && (c.inStep ==> QueueTracks(c))
    ensures var d := Receive(c, frame);
      (c.startupReply ==> d.reply == [] && d.answered == 0) && (d.inStep ==> c.inStep && QueueTracks(d)) &&
      (d.inStep && !c.startupReply && IsReady(frame) ==> c.queries != []) &&
      (!c.startupReply && c.queries != [] ==> d.queries != [] && d.reply != [] && d.reply[|d.reply| - 1] == frame) &&
      (d.inStep && d.queries != [] && d.queries[0].commit ==> d.queries[0].frames == d.reply) &&
      (d.inStep && d.queries == [] ==> d.reply == [])
  {
    if c.queries != [] { HasCommitCompleteAppend(c.queries[0].frames, frame); }
  }

  /** `e` is the state once the answered query `q` was taken off the queue: what was held is
      released, or cut off, as a whole. */
  lemma FinishConserves(e: Connection, q: Query, cut: bool)
    requires e.status == Open && !e.marker && e.withheld == [] && Held(e) == [] && (q.commit || q.frames == [])
    requires e.toServer + e.front == e.fromClient && e.toClient + Flat(q.frames) + e.back == e.fromServer
    ensures Conserves(Finish(e, q, cut))
  {
    var f := Finish(e, q, cut);
    assert Flat([]) == [];
    assert f.toClient + Held(f) + Flat(f.withheld) + f.back == e.toClient + Flat(q.frames) + e.back;
  }

  lemma PopConserves(d: Connection)
    requires QueueOk(d) && Conserves(d) && d.status == Open && d.queries != [] && !d.startupReply
    ensures var e := d.(queries := d.queries[1..], answered := d.answered + 1); var q := d.queries[0];
      && Held(e) == [] && QueueOk(e) && (q.commit || q.frames == []) && e.withheld == [] && !e.marker
      && e.toClient + Flat(q.frames) + e.back == e.fromServer
  {
    assert Flat([]) == [];
    assert d.toClient + Flat(d.queries[0].frames) + [] + d.back == d.toClient + Flat(d.queries[0].frames) + d.back;
  }

  lemma FinishQueue(e: Connection, q: Query, cut: bool)
    ensures Finish(e, q, cut).queries == e.queries && Finish(e, q, cut).startupReply == e.startupReply
    ensures Finish(e, q, cut).status == (if cut then Dropped else e.status)
  {}

  /** The end of a reply. */
  lemma ReadyConserves(d: Connection, frame: Bytes)
    requires QueueOk(d) && Conserves(d) && d.status == Open && IsReady(frame)
    ensures var e := Ready(d, frame); QueueOk(e) && Conserves(e)
    ensures var e := Ready(d, frame); e.status == Open && !d.startupReply ==> Held(e) == []
  {
    if !d.startupReply && d.queries != [] {
      var e, q := d.(queries := d.queries[1..], answered := d.answered + 1), d.queries[0];
      PopConserves(d);
      FinishConserves(e, q, Cuts(q, frame));
      FinishQueue(e, q, Cuts(q, frame));
    } else {
      assert Flat([]) == [];
    }
  }

  lemma ServerFrameKeeps(c: Connection, frame: Bytes, rest: Bytes)
    requires Invariant(c) && c.status == Open && c.back == frame + rest && |frame| >= 5
    ensures Invariant(ServerFrame(c.(back := rest), frame))
  {
    var b := c.(back := rest);
    var d := Receive(b, frame);
    ReceiveConserves(c, frame, rest);
    ReceiveReplies(b, frame);
    if frame[0] == ReadyTag {
      ReadyConserves(d, frame);
      ReadyReplies(b, frame);
    }
  }

  /** The front query leaves the queue. */
  lemma PopTracks(d: Connection)
    requires QueueTracks(d) && d.queries != []
    ensures QueueTracks(d.(queries := d.queries[1..], answered := d.answered + 1))
    ensures d.asked[d.answered] == d.queries[0].commit
  {}

  lemma PopComplete(d: Connection)
    requires QueueOk(d) && d.queries != []
    ensures CompleteOk(d.(queries := d.queries[1..], answered := d.answered + 1))
    ensures |d.queries| > 1 ==> d.queries[1].frames == [] && !d.queries[1].complete
  {
    assert !HasCommitComplete([]);
  }

  lemma ReadyReplies(b: Connection, frame: Bytes)
    requires QueueOk(b) && CompleteOk(b) && ReplyOk(b) && b.status == Open && IsReady(frame)
    ensures var e := ServerFrame(b, frame); CompleteOk(e) && ReplyOk(e) && DroppedOk(e)
  {
    var d := Receive(b, frame);
    ReceiveReplies(b, frame);
    if !b.startupReply && d.queries != [] {
      PopComplete(d);
      if d.inStep { PopTracks(d); }
      PopReplies(b, d, frame);
    }
  }

  /** `e` is the state once the answered query `q` was taken off the queue. */
  lemma FinishReplies(e: Connection, q: Query, cut: bool)
    requires e.status == Open && !e.startupReply && (e.inStep ==> QueueTracks(e))
    requires e.queries != [] ==> e.queries[0].frames == []
    ensures ReplyOk(Finish(e, q, cut))
  {}

  lemma FinishDropped(e: Connection, q: Query, frame: Bytes)
    requires e.status == Open && IsReady(frame) && (q.complete <==> HasCommitComplete(q.frames))
    requires Cuts(q, frame) ==> q.frames != [] && q.frames[|q.frames| - 1] == frame
    requires e.inStep && q.commit ==> q.frames == e.reply
    requires e.inStep ==> 0 < e.answered <= |e.asked| && e.asked[e.answered - 1] == q.commit
    ensures DroppedOk(Finish(e, q, Cuts(q, frame)))
  {}

  lemma HeldEndsWith(b: Connection, frame: Bytes)
    requires |frame| >= 5 && !b.startupReply && b.queries != []
    ensures var q := Receive(b, frame).queries[0];
      q.commit ==> q.frames == b.queries[0].frames + [frame] && q.frames[|q.frames| - 1] == frame
  {}

  lemma PopReplies(b: Connection, d: Connection, frame: Bytes)
    requires b.status == Open && IsReady(frame) && !b.startupReply && d == Receive(b, frame) && d.queries != []
    requires d.status == Open && !d.startupReply && QueueOk(d) && CompleteOk(d)
    requires d.inStep ==> QueueTracks(d) && d.reply != [] && d.reply[|d.reply| - 1] == frame
    requires d.inStep && d.queries[0].commit ==> d.queries[0].frames == d.reply
    ensures ReplyOk(Ready(d, frame)) && DroppedOk(Ready(d, frame))
  {
    var e, q := d.(queries := d.queries[1..], answered := d.answered + 1), d.queries[0];
    if d.inStep { PopTracks(d); }
    PopComplete(d);
    HeldEndsWith(b, frame);
    FinishReplies(e, q, Cuts(q, frame));
    FinishDropped(e, q, frame);
  }

  // ---------------------------------------------------------------- one chunk, one run

  lemma {:induction false} PumpClientKeeps(c: Connection, decode: Decode)
    requires Invariant(c)
    ensures var d := PumpClient(c, decode);
      Invariant(d) && d.back == c.back && (d.status == Open ==> Incomplete(d.front, d.startup))
    decreases |c.front|
  {
    if c.status != Open || Incomplete(c.front, c.startup) {
    } else if Misframed(c.front, c.startup) {
      SameReplies(c, c.(status := Aborted));
    } else {
      var size := FrameSize(c.front, c.startup);
      var frame, rest := c.front[..size], c.front[size..];
      PumpClientStep(c, decode);
      assert c.front == frame + rest;
      ClientFrameConserves(c, frame, rest, decode);
      ClientFrameReplies(c, frame, rest, decode);
      PumpClientKeeps(ClientFrame(c.(front := rest), frame, decode), decode);
    }
  }

  predicate SameFront(c: Connection, d: Connection) {
    d.front == c.front && d.startup == c.startup && d.back == c.back
  }

  lemma ReceiveFront(c: Connection, frame: Bytes)
    requires |frame| >= 5
    ensures SameFront(c, Receive(c, frame))
  {}

  lemma ReadyFront(c: Connection, frame: Bytes)
    requires IsReady(frame)
    ensures SameFront(c, Ready(c, frame))
  {}

  lemma ServerFrameFront(c: Connection, frame: Bytes)
    requires |frame| >= 5
    ensures SameFront(c, ServerFrame(c, frame))
  {
    ReceiveFront(c, frame);
    if frame[0] == ReadyTag { ReadyFront(Receive(c, frame), frame); }
  }

  lemma {:induction false} PumpServerKeeps(c: Connection)
    requires Invariant(c)
    ensures var d := PumpServer(c);
      Invariant(d) && d.front == c.front && d.startup == c.startup && (d.status == Open ==> Incomplete(d.back, false))
    decreases |c.back|
  {
    if c.status != Open || Incomplete(c.back, false) {
    } else if Misframed(c.back, false) {
      SameReplies(c, c.(status := Aborted));
    } else {
      var size := FrameSize(c.back, false);
      var frame, rest := c.back[..size], c.back[size..];
      PumpServerStep(c);
      assert c.back == frame + rest;
      ServerFrameKeeps(c, frame, rest);
      ServerFrameFront(c.(back := rest), frame);
      var next := ServerFrame(c.(back := rest), frame);
      assert Invariant(next) && |next.back| < |c.back|;
      PumpServerKeeps(next);
    }
  }

  lemma HandleKeeps(c: Connection, e: Event, decode: Decode)
    requires Invariant(c) && Settled(c)
    ensures Invariant(Handle(c, e, decode)) && Settled(Handle(c, e, decode))
  {
    if c.status == Open {
      match e
      case FromClient(chunk) =>
        var d := c.(front := c.front + chunk, fromClient := c.fromClient + chunk);
        assert d.toServer + d.front == d.fromClient;
        SameReplies(c, d);
        PumpClientKeeps(d, decode);
        ClientPumpOpen(d, decode);
      case FromServer(chunk) =>
        var d := c.(back := c.back + chunk, fromServer := c.fromServer + chunk);
        assert d.toClient + Held(d) + Flat(d.withheld) + d.back == d.fromServer;
        SameReplies(c, d);
        PumpServerKeeps(d);
    }
  }

  /** The frontend loop never closes the connection as dropped. */
  lemma {:induction false} ClientPumpOpen(c: Connection, decode: Decode)
    requires c.status != Dropped
    ensures PumpClient(c, decode).status != Dropped
    decreases |c.front|
  {
    if c.status == Open && !Incomplete(c.front, c.startup) && !Misframed(c.front, c.startup) {
      PumpClientStep(c, decode);
      var size := FrameSize(c.front, c.startup);
      ClientPumpOpen(ClientFrame(c.(front := c.front[size..]), c.front[..size], decode), decode);
    }
  }

  lemma {:induction false} RunKeeps(c: Connection, events: seq<Event>, decode: Decode)
    requires Invariant(c) && Settled(c)
    ensures Invariant(Run(c, events, decode)) && Settled(Run(c, events, decode))
    decreases |events|
  {
    if events != [] {
      HandleKeeps(c, events[0], decode);
      RunKeeps(Handle(c, events[0], decode), events[1..], decode);
    }
  }

  lemma FreshOk()
    ensures Invariant(Fresh) && Settled(Fresh)
  {
    assert Flat([]) == [];
  }

  // ---------------------------------------------------------------- theorems

  /** Transparency, for every interleaving and every fragmentation of both streams: what
      was forwarded, with what is buffered or held, is what was received, in order; and while
      the connection is open no complete frame is waiting in a buffer. */
  lemma Transparent(events: seq<Event>, decode: Decode)
    ensures var c := Run(Fresh, events, decode);
      && c.toServer <= c.fromClient
      && (c.status != Aborted ==> c.toServer + c.front == c.fromClient)
      && c.toClient + Held(c) + Flat(c.withheld) + c.back == c.fromServer
      && (c.status != Dropped ==> c.toClient + Held(c) + c.back == c.fromServer)
      && Settled(c)
  {
    FreshOk();
    RunKeeps(Fresh, events, decode);
    var c := Run(Fresh, events, decode);
    if c.status != Dropped {
      assert c.toClient + Held(c) + [] == c.toClient + Held(c);
    }
  }

  /** Only the reply to a COMMIT at the front of the queue is ever held; with any other query,
      or none, in front, the client has every complete frame the server sent. */
  lemma OnlyCommitRepliesHeld(events: seq<Event>, decode: Decode)
    ensures var c := Run(Fresh, events, decode);
      c.status == Open && (c.queries == [] || !c.queries[0].commit || c.startupReply) ==>
        c.toClient + c.back == c.fromServer
  {
    Transparent(events, decode);
    FreshOk();
    RunKeeps(Fresh, events, decode);
    var c := Run(Fresh, events, decode);
    if c.status == Open && (c.queries == [] || !c.queries[0].commit || c.startupReply) {
      assert c.toClient + [] == c.toClient;
    }
  }

  /** The marker: written exactly when the connection was cut. When no ReadyForQuery came without
      a query outstanding, the cut query was a COMMIT, the withheld frames are its whole reply,
      with CommandComplete COMMIT in it and ReadyForQuery idle at its end, and everything the
      client has precedes that reply: it received no byte of it. */
  lemma MarkerMeansUnseenCommit(events: seq<Event>, decode: Decode)
    ensures var c := Run(Fresh, events, decode);
      && (c.marker <==> c.status == Dropped)
      && (c.marker ==> c.withheld != [] && HasCommitComplete(c.withheld) && IsReadyIdle(c.withheld[|c.withheld| - 1]))
      && (c.marker && c.inStep ==>
            0 < c.answered <= |c.asked| && c.asked[c.answered - 1]
            && c.toClient + Flat(c.reply) + c.back == c.fromServer)
  {
    FreshOk();
    RunKeeps(Fresh, events, decode);
    var c := Run(Fresh, events, decode);
    if c.marker && c.inStep {
      assert Held(c) == [];
      assert c.toClient + [] == c.toClient;
    }
  }

  /** What receiving the last frame of a COMMIT reply does. */
  lemma LastFrameHeld(b: Connection, frame: Bytes)
    requires IsReady(frame) && !b.startupReply && b.queries != [] && b.queries[0].commit
    ensures var d := Receive(b, frame);
      && d.status == b.status && !d.startupReply && d.toClient == b.toClient && d.back == b.back
      && |d.queries| == |b.queries| && d.queries[1..] == b.queries[1..]
      && d.queries[0] == Query(true, b.queries[0].complete, b.queries[0].frames + [frame])
  {
    var d := Receive(b, frame);
    assert !IsCommitComplete(frame);
    assert d.queries == b.queries[0 := d.queries[0]];
  }

  lemma FinishTexts(e: Connection, q: Query, cut: bool)
    requires q.commit
    ensures Finish(e, q, cut).toClient == e.toClient + (if cut then [] else Flat(q.frames))
    ensures Finish(e, q, cut).queries == e.queries && Finish(e, q, cut).back == e.back
    ensures Finish(e, q, cut).status == (if cut then Dropped else e.status)
  {}

  /** The frame that ends a COMMIT reply: what the client gets, and whether the connection is cut. */
  lemma ReplyEnds(b: Connection, frame: Bytes)
    requires IsReady(frame) && b.status == Open && !b.startupReply && b.queries != [] && b.queries[0].commit
    ensures var d := ServerFrame(b, frame); var cut := Cuts(b.queries[0], frame);
      && d.status == (if cut then Dropped else Open) && d.queries == b.queries[1..] && d.back == b.back
      && d.toClient == b.toClient + (if cut then [] else Flat(b.queries[0].frames + [frame]))
  {
    var r := Receive(b, frame);
    LastFrameHeld(b, frame);
    FinishTexts(r.(queries := r.queries[1..], answered := r.answered + 1), r.queries[0], Cuts(r.queries[0], frame));
  }

  lemma Regrouped(sent: Bytes, held: Bytes, frame: Bytes, rest: Bytes, all: Bytes)
    requires sent + held + [] + (frame + rest) == all
    ensures sent + (held + frame) == sent + held + frame && sent + held + frame + rest == all
    ensures sent + [] == sent
  {
    assert sent + held + [] == sent + held;
    assert sent + held + (frame + rest) == sent + held + frame + rest;
  }

  /** The decision at a ReadyForQuery for a COMMIT in front of the queue: the connection is cut
      exactly when the held reply has CommandComplete COMMIT and the status is idle; otherwise
      the whole held reply, this frame included, is released to the client in order. */
  lemma CommitReplyDecided(c: Connection, frame: Bytes, rest: Bytes)
    requires Invariant(c) && c.status == Open && !c.startupReply && c.queries != [] && c.queries[0].commit
    requires c.back == frame + rest && IsReady(frame)
    ensures var d := ServerFrame(c.(back := rest), frame);
      && (d.status == Dropped <==> HasCommitComplete(c.queries[0].frames) && IsReadyIdle(frame))
      && (d.status != Dropped ==> d.status == Open && d.queries == c.queries[1..])
      && (d.status != Dropped ==> d.toClient == c.toClient + Held(c) + frame && d.toClient + d.back == c.fromServer)
      && (d.status == Dropped ==> d.toClient == c.toClient)
  {
    ReplyEnds(c.(back := rest), frame);
    FlatAppend(c.queries[0].frames, frame);
    assert Flat(c.withheld) == [];
    Regrouped(c.toClient, Held(c), frame, rest, c.fromServer);
  }
}
