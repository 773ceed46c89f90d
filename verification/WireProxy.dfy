/**
 The commit-loss proxy: PostgreSQL message framing over two fragmented byte streams, with
 a queue of simple queries and the frames held back for a COMMIT in flight.
 (Message Formats of the PostgreSQL Frontend/Backend Protocol, version 3.0.)
 */
module WireProxy {
  import opened CommitPattern

  type Byte = b: int | 0 <= b < 256
  type Bytes = seq<Byte>

  const MaxFrame := 16 * 1024 * 1024
  const ProtocolV3 := 196608
  const QueryTag := 81      // 'Q'
  const CompleteTag := 67   // 'C'
  const ReadyTag := 90      // 'Z'
  const Idle := 73          // 'I'

  // ---------------------------------------------------------------- connection state

  datatype Query = Query(commit: bool, complete: bool, frames: seq<Bytes>)

  /** Open; aborted on unexpected framing; or cut with the commit reply withheld. */
  datatype Status = Open | Aborted | Dropped

  /** The fields from `fromClient` on are history: the handlers never read them.
      `fromClient` and `fromServer` are the bytes received, `withheld` the frames that the cut
      discarded, `asked` lists whether each forwarded simple query was a COMMIT, `answered` counts the
      ReadyForQuery frames after the startup reply, `reply` holds the server frames received for
      the query now in front of the queue, and `inStep` says every one of those ReadyForQuery
      frames found a query outstanding, so that none answers twice. */
  datatype Connection = Connection(
    front: Bytes, back: Bytes, startup: bool, startupReply: bool, queries: seq<Query>,
    toServer: Bytes, toClient: Bytes, status: Status, marker: bool,
    fromClient: Bytes, fromServer: Bytes, withheld: seq<Bytes>,
    asked: seq<bool>, answered: nat, reply: seq<Bytes>, inStep: bool)

  const Fresh: Connection :=
    Connection([], [], true, true, [], [], [], Open, false, [], [], [], [], 0, [], true)

  function U32(b: Bytes, at: nat): nat
    requires at + 4 <= |b|
  {
    (b[at] as int) * 0x100_0000 + (b[at + 1] as int) * 0x1_0000 + (b[at + 2] as int) * 0x100 + (b[at + 3] as int)
  }

  function Header(startup: bool): nat { if startup then 4 else 5 }

  /** Total length of the frame at the start of the buffer, from its length word. */
  function FrameSize(b: Bytes, startup: bool): nat
    requires |b| >= Header(startup)
  {
    if startup then U32(b, 0) else U32(b, 1) + 1
  }

  predicate BadSize(size: nat, startup: bool) {
    size < (if startup then 8 else 5) || size > MaxFrame
  }

  /** More bytes are needed before anything can be said about the next frame. */
  predicate Incomplete(b: Bytes, startup: bool) {
    |b| < Header(startup) || (!BadSize(FrameSize(b, startup), startup) && |b| < FrameSize(b, startup))
  }

  predicate Misframed(b: Bytes, startup: bool) {
    |b| >= Header(startup) && BadSize(FrameSize(b, startup), startup)
  }

  type Decode = Bytes -> string

  /** `frame.subarray(5, -1)`: the statement text without its terminating zero. */
  function Statement(frame: Bytes): Bytes {
    if |frame| > 5 then frame[5..|frame| - 1] else []
  }

  function ClientFrame(c: Connection, frame: Bytes, decode: Decode): Connection
    requires |frame| >= 5 && (c.startup ==> |frame| >= 8)
  {
    if c.startup then
      if U32(frame, 4) != ProtocolV3 then c.(status := Aborted)
      else c.(startup := false, toServer := c.toServer + frame)
    else if frame[0] == QueryTag then
      var commit := IsCommitText(decode(Statement(frame)));
      c.(queries := c.queries + [Query(commit, false, [])], toServer := c.toServer + frame, asked := c.asked + [commit])
    else c.(toServer := c.toServer + frame)
  }

  function PumpClient(c: Connection, decode: Decode): Connection
    decreases |c.front|
  {
    if c.status != Open || Incomplete(c.front, c.startup) then c
    else if Misframed(c.front, c.startup) then c.(status := Aborted)
    else
      var size := FrameSize(c.front, c.startup);
      PumpClient(ClientFrame(c.(front := c.front[size..]), c.front[..size], decode), decode)
  }

  function ClientData(c: Connection, chunk: Bytes, decode: Decode): Connection {
    if c.status == Open then PumpClient(c.(front := c.front + chunk, fromClient := c.fromClient + chunk), decode) else c
  }

  function Flat(frames: seq<Bytes>): Bytes {
    if frames == [] then [] else Flat(frames[..|frames| - 1]) + frames[|frames| - 1]
  }

  const CommitTag: Bytes := [67, 79, 77, 77, 73, 84, 0]

  predicate IsCommitComplete(frame: Bytes) {
    |frame| >= 5 && frame[0] == CompleteTag && frame[5..] == CommitTag
  }

  predicate IsReady(frame: Bytes) { |frame| >= 5 && frame[0] == ReadyTag }

  predicate IsReadyIdle(frame: Bytes) { IsReady(frame) && |frame| > 5 && frame[5] == Idle }

  /** One backend frame: held for a COMMIT in front of the queue, forwarded otherwise. */
  function Receive(c: Connection, frame: Bytes): Connection
    requires |frame| >= 5
  {
    var after := c.(reply := if c.startupReply || c.queries == [] then [] else c.reply + [frame],
                    inStep := c.inStep && (c.startupReply || c.queries != [] || !IsReady(frame)));
    if !c.startupReply && c.queries != [] && c.queries[0].commit then
      var q := c.queries[0];
      after.(queries := c.queries[0 := Query(true, q.complete || IsCommitComplete(frame), q.frames + [frame])])
    else after.(toClient := c.toClient + frame)
  }

  /** The front query is answered: cut the connection, or release what is held. */
  function Finish(c: Connection, q: Query, cut: bool): Connection {
    if cut then c.(status := Dropped, marker := true, withheld := q.frames)
    else if q.commit then c.(toClient := c.toClient + Flat(q.frames), reply := [])
    else c.(reply := [])
  }

  predicate Cuts(q: Query, frame: Bytes) {
    q.commit && q.complete && IsReadyIdle(frame)
  }

  /** The ReadyForQuery that ends a reply. */
  function Ready(c: Connection, frame: Bytes): Connection
    requires IsReady(frame)
  {
    if c.startupReply then c.(startupReply := false)
    else if c.queries == [] then c.(answered := c.answered + 1, reply := [])
    else Finish(c.(queries := c.queries[1..], answered := c.answered + 1), c.queries[0], Cuts(c.queries[0], frame))
  }

  function ServerFrame(c: Connection, frame: Bytes): Connection
    requires |frame| >= 5
  {
    var d := Receive(c, frame);
    if frame[0] == ReadyTag then Ready(d, frame) else d
  }

  function PumpServer(c: Connection): Connection
    decreases |c.back|
  {
    if c.status != Open || Incomplete(c.back, false) then c
    else if Misframed(c.back, false) then c.(status := Aborted)
    else
      var size := FrameSize(c.back, false);
      PumpServer(ServerFrame(c.(back := c.back[size..]), c.back[..size]))
  }

  function ServerData(c: Connection, chunk: Bytes): Connection {
    if c.status == Open then PumpServer(c.(back := c.back + chunk, fromServer := c.fromServer + chunk)) else c
  }

  // ---------------------------------------------------------------- the handlers

  class Proxy {
    const decode: Decode
    var front: Bytes
    var back: Bytes
    var startup: bool
    var startupReply: bool
    var queries: seq<Query>
    var toServer: Bytes
    var toClient: Bytes
    var status: Status
    var marker: bool
    ghost var fromClient: Bytes
    ghost var fromServer: Bytes
    ghost var withheld: seq<Bytes>
    ghost var asked: seq<bool>
    ghost var answered: nat
    ghost var reply: seq<Bytes>
    ghost var inStep: bool

    constructor (decode: Decode)
      ensures State() == Fresh && this.decode == decode
    {
      this.decode := decode;
      front, back, startup, startupReply, queries := [], [], true, true, [];
      toServer, toClient, status, marker := [], [], Open, false;
      fromClient, fromServer, withheld := [], [], [];
      asked, answered, reply, inStep := [], 0, [], true;
    }

    ghost function State(): Connection
      reads this
    {
      Connection(front, back, startup, startupReply, queries, toServer, toClient, status, marker,
                 fromClient, fromServer, withheld, asked, answered, reply, inStep)
    }

    /** `client.on('data')`; a destroyed socket delivers nothing more. */
    method OnClientData(chunk: Bytes)
      modifies this
      ensures State() == ClientData(old(State()), chunk, decode)
    {
      if status != Open {
        return;
      }
      front, fromClient := front + chunk, fromClient + chunk;
      ghost var goal := PumpClient(State(), decode);
      while |front| >= Header(startup)
        invariant PumpClient(State(), decode) == goal && status == Open
        decreases |front|
      {
        ghost var before := State();
        var size := FrameSize(front, startup);
        if BadSize(size, startup) {
          status := Aborted;
          return;
        }
        if |front| < size {
          return;
        }
        PumpClientStep(before, decode);
        var frame := front[..size];
        front := front[size..];
        OnClientFrame(frame);
        if status != Open {
          return;
        }
      }
    }

    method OnClientFrame(frame: Bytes)
      requires |frame| >= 5 && (startup ==> |frame| >= 8)
      modifies `status, `startup, `queries, `asked, `toServer
      ensures State() == ClientFrame(old(State()), frame, decode)
    {
      if startup {
        if U32(frame, 4) != ProtocolV3 {
          status := Aborted;
          return;
        }
        startup := false;
      } else if frame[0] == QueryTag {
        var commit := IsCommitText(decode(Statement(frame)));
        queries := queries + [Query(commit, false, [])];
        asked := asked + [commit];
      }
      toServer := toServer + frame;
    }

    /** `upstream.on('data')`. */
    method OnServerData(chunk: Bytes)
      modifies this
      ensures State() == ServerData(old(State()), chunk)
    {
      if status != Open {
        return;
      }
      back, fromServer := back + chunk, fromServer + chunk;
      ghost var goal := PumpServer(State());
      while |back| >= 5
        invariant PumpServer(State()) == goal && status == Open
        decreases |back|
      {
        ghost var before := State();
        var size := FrameSize(back, false);
        if BadSize(size, false) {
          status := Aborted;
          return;
        }
        if |back| < size {
          return;
        }
        PumpServerStep(before);
        var frame := back[..size];
        back := back[size..];
        OnServerFrame(frame);
        if status != Open {
          return;
        }
      }
    }

    /** The body of the backend loop, for one complete frame. */
    method OnServerFrame(frame: Bytes)
      requires |frame| >= 5 && status == Open
      modifies `inStep, `reply, `queries, `toClient, `startupReply, `answered, `marker, `status, `withheld
      ensures State() == ServerFrame(old(State()), frame)
    {
      HoldOrForward(frame);
      if frame[0] == ReadyTag {
        FinishReply(frame);
      }
    }

    method HoldOrForward(frame: Bytes)
      requires |frame| >= 5
      modifies `inStep, `reply, `queries, `toClient
      ensures State() == Receive(old(State()), frame)
    {
      inStep := inStep && (startupReply || queries != [] || !IsReady(frame));
      reply := if startupReply || queries == [] then [] else reply + [frame];
      if !startupReply && queries != [] && queries[0].commit {
        var q := queries[0];
        queries := queries[0 := Query(true, q.complete || IsCommitComplete(frame), q.frames + [frame])];
      } else {
        toClient := toClient + frame;
      }
    }

    method FinishReply(frame: Bytes)
      requires IsReady(frame)
      modifies `startupReply, `answered, `reply, `queries, `marker, `status, `withheld, `toClient
      ensures State() == Ready(old(State()), frame)
    {
      if startupReply {
        startupReply := false;
      } else if queries == [] {
        answered, reply := answered + 1, [];
      } else {
        FinishQuery(frame);
      }
    }

    method FinishQuery(frame: Bytes)
      requires IsReady(frame) && !startupReply && queries != []
      modifies `answered, `reply, `queries, `marker, `status, `withheld, `toClient
      ensures State() == Ready(old(State()), frame)
    {
      answered := answered + 1;
      var query := queries[0];
      queries := queries[1..];
      SettleReply(query, query.commit && query.complete && |frame| > 5 && frame[5] == Idle);
    }

    method SettleReply(query: Query, cut: bool)
      modifies `reply, `marker, `status, `withheld, `toClient
      ensures State() == Finish(old(State()), query, cut)
    {
      if cut {
        marker, status, withheld := true, Dropped, query.frames;
        return;
      }
      reply := [];
      if query.commit {
        Release(query.frames);
      }
    }

    /** `for (const held of query.frames) client.write(held)`. */
    method Release(frames: seq<Bytes>)
      modifies `toClient
      ensures toClient == old(toClient) + Flat(frames)
    {
      for i := 0 to |frames|
        invariant toClient == old(toClient) + Flat(frames[..i])
      {
        assert frames[..i + 1][..i] == frames[..i];
        toClient := toClient + frames[i];
      }
      assert frames[..|frames|] == frames;
    }
  }

  lemma PumpClientStep(c: Connection, decode: Decode)
    requires c.status == Open && !Incomplete(c.front, c.startup) && !Misframed(c.front, c.startup)
    ensures var size := FrameSize(c.front, c.startup);
      size <= |c.front| &&
      PumpClient(c, decode) == PumpClient(ClientFrame(c.(front := c.front[size..]), c.front[..size], decode), decode)
  {}

  lemma PumpServerStep(c: Connection)
    requires c.status == Open && !Incomplete(c.back, false) && !Misframed(c.back, false)
    ensures var size := FrameSize(c.back, false);
      size <= |c.back| &&
      PumpServer(c) == PumpServer(ServerFrame(c.(back := c.back[size..]), c.back[..size]))
  {}
}
