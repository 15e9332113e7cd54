/**
 * Who closes the connections and packet sockets an end obtains for open requests. The peer, the
 * network, the context and the scheduler are arbitrary, and this end may dial and listen itself.
 */
module Ownership {
  import opened Basics
  import opened Tunnel

  /** Forwarding; past the end of its connection and the status check; with its close callback installed. */
  datatype Stage = Reading | Closing | Waiting

  /** A running serve goroutine past its capture; it closes `conn` when it exits. */
  datatype Server = Server(kind: Kind, conn: ConnId, stage: Stage)

  /**
   * `handed` holds every connection a dialer or listener returned, `pipes` the local ends of this
   * end's own dials and listens; `starting` counts uncaptured goroutines; `waiting` are the dials
   * and listens whose caller waits, `results` those answered.
   */
  datatype Host = Host(
    ep: Endpoint,
    handed: set<ConnId>,
    pipes: set<ConnId>,
    closed: set<ConnId>,
    startingStream: nat,
    startingPacket: nat,
    running: multiset<Server>,
    dials: nat,
    waiting: map<nat, Kind>,
    results: map<nat, bool>)

  const NEW_HOST := Host(FRESH, {}, {}, {}, 0, 0, multiset{}, 0, map[], map[])

  datatype Action =
    | Receive(msg: Message, answer: Answer, copy: Copy, sendOk: bool)
    | CloseCall
    | LinkError
    | ContextEnds
    | Start(kind: Kind)
    | WriteFails(server: Server)
    | ReadFails(server: Server, eof: bool, sendOk: bool)
    | Arm(server: Server)
    | WaitOver(server: Server)
    | Dial(kind: Kind, protocol: string, target: string, sendOk: bool)
    | Wake(dial: nat, pipe: ConnId)
    | Cancel(dial: nat)

  predicate Enabled(h: Host, a: Action) {
    match a
    case Receive(_, answer, _, _) => answer.Opened? ==> answer.conn !in h.handed + h.pipes
    case Start(kind) => if kind == StreamKind then h.startingStream > 0 else h.startingPacket > 0
    case WriteFails(v) => v in h.running
    case ReadFails(v, _, _) => v in h.running && v.stage == Reading
    case Arm(v) => v in h.running && v.stage == Closing
    case WaitOver(v) => v in h.running && v.stage == Waiting
    case Dial(_, _, _, _) => h.ep.status == Idle
    case Wake(dial, pipe) => dial in h.waiting && dial in h.results && pipe !in h.handed + h.pipes
    case Cancel(dial) => dial in h.waiting && h.ep.onResult.Some?
    case _ => true
  }

  function Apply(h: Host, e: Effect): Host {
    h.(ep := e.ep, closed := h.closed + e.closes)
  }

  /** The deferred `conn.Close()`. */
  function Exit(h: Host, v: Server): Host {
    h.(closed := h.closed + {v.conn}, running := h.running - multiset{v})
  }

  function Received(h: Host, msg: Message, answer: Answer, copy: Copy, sendOk: bool): Host {
    var e := if msg.Text? then HandleCommand(h.ep, msg.cmd, answer, sendOk)
             else HandleBinary(h.ep, msg.data, copy, sendOk);
    var got := h.ep.status == Idle && answer.Opened? && msg.Text? && (msg.cmd.OpenStream? || msg.cmd.OpenPacket?);
    Apply(h, e).(
      results := if e.calls != [] && e.calls[0].cb.ToDialer? then h.results[e.calls[0].cb.dial := e.calls[0].ok]
                 else h.results,
      handed := if got then h.handed + {answer.conn} else h.handed,
      startingStream := if e.spawned == [StreamKind] then h.startingStream + 1 else h.startingStream,
      startingPacket := if e.spawned == [PacketKind] then h.startingPacket + 1 else h.startingPacket)
  }

  function Started(h: Host, kind: Kind): Host
    requires Enabled(h, Start(kind))
  {
    var c := Capture(h.ep, kind);
    h.(startingStream := if kind == StreamKind then h.startingStream - 1 else h.startingStream,
       startingPacket := if kind == PacketKind then h.startingPacket - 1 else h.startingPacket,
       running := if c.Some? then h.running + multiset{Server(kind, c.value, Reading)} else h.running)
  }

  function Moves(h: Host, v: Server, stage: Stage): Host {
    h.(running := h.running - multiset{v} + multiset{v.(stage := stage)})
  }

  /**
   * The error path of `serveStream` and `servePacket` up to its status check; a stream at its end
   * installs the close callback in a later step. That `X` is sent after that is of no consequence here.
   */
  function ReadFailed(h: Host, v: Server, eof: bool, sendOk: bool): Host {
    var own := if v.kind == StreamKind then InStream else InPacket;
    if h.ep.status != own then Exit(h, v)
    else if v.kind == StreamKind && eof then Moves(h, v, Closing)
    else Exit(Apply(h, Send(Quiet(h.ep), ErrorNote("read"), sendOk)), v)
  }

  function Dialed(h: Host, kind: Kind, protocol: string, target: string, sendOk: bool): Host
    requires h.ep.status == Idle
  {
    var request := if kind == StreamKind then OpenStream(protocol, target) else OpenPacket(protocol, target);
    Apply(h, DialBegin(h.ep, h.dials, request, sendOk).value).(
      dials := h.dials + 1,
      waiting := if sendOk then h.waiting[h.dials := kind] else h.waiting)
  }

  function Woken(h: Host, dial: nat, pipe: ConnId): Host
    requires Enabled(h, Wake(dial, pipe))
  {
    var ok, kind := h.results[dial], h.waiting[dial];
    Apply(h, DialFinish(h.ep, ok, kind, pipe)).(
      waiting := h.waiting - {dial},
      pipes := if ok then h.pipes + {pipe} else h.pipes,
      startingStream := if ok && kind == StreamKind then h.startingStream + 1 else h.startingStream)
  }

  function Next(h: Host, a: Action): Host
    requires Enabled(h, a)
  {
    match a
    case Receive(msg, answer, copy, sendOk) => Received(h, msg, answer, copy, sendOk)
    case CloseCall => Apply(h, CloseWith(Quiet(h.ep)))
    case LinkError => Apply(h, CloseWith(Quiet(h.ep)))
    case ContextEnds => Apply(h, ContextDone(h.ep))
    case Start(kind) => Started(h, kind)
    case WriteFails(v) => Exit(Apply(h, CloseWith(Quiet(h.ep))), v)
    case ReadFails(v, eof, sendOk) => ReadFailed(h, v, eof, sendOk)
    case Arm(v) => Moves(Apply(h, InstallCloser(h.ep, 0)), v, Waiting)
    case WaitOver(v) => Exit(h, v)
    case Dial(kind, protocol, target, sendOk) => Dialed(h, kind, protocol, target, sendOk)
    case Wake(dial, pipe) => Woken(h, dial, pipe)
    case Cancel(dial) => Apply(h, DialCancel(h.ep)).(waiting := h.waiting - {dial})
  }

  // ---- Orphans ----

  ghost predicate Held(h: Host, c: ConnId) { exists v :: v in h.running && v.conn == c }

  /** A goroutine that has been spawned but not captured yet would capture `c` now. */
  predicate Awaited(h: Host, c: ConnId) {
    || (h.startingStream > 0 && Capture(h.ep, StreamKind) == Some(c))
    || (h.startingPacket > 0 && Capture(h.ep, PacketKind) == Some(c))
  }

  /** Closed, or held by a live goroutine that closes it on exit, or about to be. */
  ghost predicate Covered(h: Host, c: ConnId) { c in h.closed || Held(h, c) || Awaited(h, c) }

  ghost predicate NoOrphan(h: Host) { forall c | c in h.handed :: Covered(h, c) }

  /** The current connection depends on a goroutine that has not captured it yet. */
  ghost predicate Relied(h: Host, kind: Kind) {
    var c := Capture(h.ep, kind);
    c.Some? && c.value in h.handed && c.value !in h.closed && !Held(h, c.value)
  }

  /**
   * The moments at which a connection is lost: before its goroutine has captured it, the status
   * leaves stream or packet mode without the connection being closed, or another connection takes
   * its place. That is what the context's end does, what a reply to an earlier close request does,
   * what a close request does to packets, and what this end's own dialer does when it wakes or gives up.
   */
  ghost predicate Loses(h: Host, a: Action)
    requires Enabled(h, a)
  {
    match a
    case ContextEnds => Relied(h, StreamKind) || Relied(h, PacketKind)
    case Receive(Text(BareReply), _, _, _) => LateReply(h)
    case Receive(Text(Reply(_, _)), _, _, _) => LateReply(h)
    case Receive(Text(CloseRequest), _, _, sendOk) => sendOk && Relied(h, PacketKind)
    case Wake(dial, _) =>
      Relied(h, StreamKind) || (Relied(h, PacketKind) && !(h.results[dial] && h.waiting[dial] == PacketKind))
    case Cancel(_) => Relied(h, StreamKind) || Relied(h, PacketKind)
    case _ => false
  }

  ghost predicate LateReply(h: Host) {
    h.ep.onResult.Some? && h.ep.onResult.value.ToCloser? && (Relied(h, StreamKind) || Relied(h, PacketKind))
  }

  ghost predicate Sound(h: Host) {
    && (h.ep.streamConn.Some? ==> h.ep.streamConn.value in h.handed + h.pipes)
    && (h.ep.packetConn.Some? ==> h.ep.packetConn.value in h.handed)
    && (h.ep.streamConn.Some? && h.ep.packetConn.Some? ==> h.ep.streamConn != h.ep.packetConn)
    && (forall v | v in h.running :: v.conn in h.handed + h.pipes)
    && h.closed <= h.handed + h.pipes && h.handed !! h.pipes
    && (h.ep.onCmdErr.Some? ==> h.ep.onCmdErr.value in h.pipes)
  }

  lemma HeldOnly(h: Host, k: Host, v: Server)
    requires v in h.running && k.running == h.running - multiset{v}
    ensures forall c :: Held(h, c) && c != v.conn ==> Held(k, c)
    ensures forall c :: Held(k, c) ==> Held(h, c)
  {
    forall c | Held(h, c) && c != v.conn ensures Held(k, c) {
      var u :| u in h.running && u.conn == c;
      assert u in k.running;
    }
    forall c | Held(k, c) ensures Held(h, c) {
      var u :| u in k.running && u.conn == c;
      assert u in h.running;
    }
  }

  // ---- Exactly the losing steps orphan a connection ----

  ghost predicate Exact(h: Host, a: Action)
    requires Enabled(h, a)
  {
    Sound(Next(h, a)) && (NoOrphan(Next(h, a)) <==> !Loses(h, a))
  }

  lemma SameHeld(h: Host, k: Host)
    requires k.running == h.running
    ensures forall c :: Held(k, c) <==> Held(h, c)
  {
  }

  lemma OpenExact(h: Host, a: Action)
    requires Sound(h) && NoOrphan(h) && Enabled(h, a) && a.Receive?
    requires a.msg.Text? && (a.msg.cmd.OpenStream? || a.msg.cmd.OpenPacket?)
    ensures Exact(h, a)
  {
    if h.ep.status != Idle {
      assert Next(h, a) == Next(h, LinkError);
      CloseExact(h, LinkError);
    } else {
      IdleOpenExact(h, a);
    }
  }

  lemma IdleOpenExact(h: Host, a: Action)
    requires Sound(h) && NoOrphan(h) && Enabled(h, a) && a.Receive? && h.ep.status == Idle
    requires a.msg.Text? && (a.msg.cmd.OpenStream? || a.msg.cmd.OpenPacket?)
    ensures Exact(h, a)
  {
    if a.answer.Opened? { OpenedExact(h, a); } else { RefusedExact(h, a); }
  }

  lemma OpenedExact(h: Host, a: Action)
    requires Sound(h) && NoOrphan(h) && Enabled(h, a) && a.Receive? && h.ep.status == Idle && a.answer.Opened?
    requires a.msg.Text? && (a.msg.cmd.OpenStream? || a.msg.cmd.OpenPacket?)
    ensures Exact(h, a)
  {
    SameHeld(h, Next(h, a));
  }

  lemma RefusedExact(h: Host, a: Action)
    requires Sound(h) && NoOrphan(h) && Enabled(h, a) && a.Receive? && h.ep.status == Idle && !a.answer.Opened?
    requires a.msg.Text? && (a.msg.cmd.OpenStream? || a.msg.cmd.OpenPacket?)
    ensures Exact(h, a)
  {
    SameHeld(h, Next(h, a));
  }

  lemma CloseRequestExact(h: Host, a: Action)
    requires Sound(h) && NoOrphan(h) && Enabled(h, a) && a.Receive? && a.msg == Text(CloseRequest)
    ensures Exact(h, a)
  {
    SameHeld(h, Next(h, a));
  }

  lemma ReplyExact(h: Host, a: Action)
    requires Sound(h) && NoOrphan(h) && Enabled(h, a) && a.Receive? && IsReply(a.msg)
    ensures Exact(h, a)
  {
    if h.ep.onResult.Some? && h.ep.onResult.value.ToCloser? {
      LateReplyExact(h, a);
    } else {
      SameCaptureKeeps(h, Next(h, a));
    }
  }

  lemma LateReplyExact(h: Host, a: Action)
    requires Sound(h) && NoOrphan(h) && Enabled(h, a) && a.Receive? && IsReply(a.msg)
    requires h.ep.onResult.Some? && h.ep.onResult.value.ToCloser?
    ensures Exact(h, a)
  {
    SameHeld(h, Next(h, a));
  }

  /** A step that leaves connections and goroutines alone. */
  lemma SameCaptureKeeps(h: Host, k: Host)
    requires Sound(h) && NoOrphan(h)
    requires k.ep == h.ep.(onResult := k.ep.onResult)
    requires k == h.(ep := k.ep, results := k.results)
    ensures Sound(k) && NoOrphan(k)
  {
    SameHeld(h, k);
    forall c | c in k.handed ensures Covered(k, c) { assert Covered(h, c); }
  }

  lemma NoteExact(h: Host, a: Action)
    requires Sound(h) && NoOrphan(h) && Enabled(h, a) && a.Receive? && !IsReply(a.msg) && !IsRequest(a.msg)
    requires a.msg.Text?
    ensures Exact(h, a)
  {
    SameHeld(h, Next(h, a));
  }

  lemma DataExact(h: Host, a: Action)
    requires Sound(h) && NoOrphan(h) && Enabled(h, a) && a.Receive? && a.msg.Binary?
    ensures Exact(h, a)
  {
    SameHeld(h, Next(h, a));
  }

  lemma CloseExact(h: Host, a: Action)
    requires Sound(h) && NoOrphan(h) && Enabled(h, a) && (a.CloseCall? || a.LinkError? || a.ContextEnds?)
    ensures Exact(h, a)
  {
    SameHeld(h, Next(h, a));
  }

  lemma DialKeeps(h: Host, kind: Kind, protocol: string, target: string, sendOk: bool)
    requires Sound(h) && NoOrphan(h) && h.ep.status == Idle
    ensures Exact(h, Dial(kind, protocol, target, sendOk))
  {
    SameHeld(h, Dialed(h, kind, protocol, target, sendOk));
  }

  lemma WakeExact(h: Host, dial: nat, pipe: ConnId)
    requires Sound(h) && NoOrphan(h) && Enabled(h, Wake(dial, pipe))
    ensures Exact(h, Wake(dial, pipe))
  {
    SameHeld(h, Woken(h, dial, pipe));
  }

  lemma CancelExact(h: Host, dial: nat)
    requires Sound(h) && NoOrphan(h) && Enabled(h, Cancel(dial))
    ensures Exact(h, Cancel(dial))
  {
    SameHeld(h, Next(h, Cancel(dial)));
  }

  lemma StartExact(h: Host, kind: Kind)
    requires Sound(h) && NoOrphan(h) && Enabled(h, Start(kind))
    ensures Exact(h, Start(kind))
  {
    var k, c := Started(h, kind), Capture(h.ep, kind);
    if c.Some? { assert Server(kind, c.value, Reading) in k.running; }
    forall d | Held(h, d) ensures Held(k, d) {
      var v :| v in h.running && v.conn == d;
      assert v in k.running;
    }
  }

  lemma ExitKeeps(h: Host, v: Server)
    requires Sound(h) && NoOrphan(h) && v in h.running
    ensures Sound(Exit(h, v)) && NoOrphan(Exit(h, v))
  {
    HeldOnly(h, Exit(h, v), v);
  }

  /** Sending a command, or failing to and closing, covers everything. */
  lemma SendKeeps(h: Host, cmd: Command, sendOk: bool)
    requires Sound(h) && NoOrphan(h)
    ensures Sound(Apply(h, Send(Quiet(h.ep), cmd, sendOk))) && NoOrphan(Apply(h, Send(Quiet(h.ep), cmd, sendOk)))
  {
    SameHeld(h, Apply(h, Send(Quiet(h.ep), cmd, sendOk)));
  }

  lemma MovesKeeps(h: Host, v: Server, stage: Stage)
    requires Sound(h) && NoOrphan(h) && v in h.running
    ensures Sound(Moves(h, v, stage)) && NoOrphan(Moves(h, v, stage))
  {
    var k := Moves(h, v, stage);
    forall c | Held(h, c) ensures Held(k, c) {
      var u :| u in h.running && u.conn == c;
      if u == v { assert v.(stage := stage) in k.running; } else { assert u in k.running; }
    }
  }

  lemma ArmExact(h: Host, v: Server)
    requires Sound(h) && NoOrphan(h) && Enabled(h, Arm(v))
    ensures Exact(h, Arm(v))
  {
    var armed := Apply(h, InstallCloser(h.ep, 0));
    SameHeld(h, armed);
    MovesKeeps(armed, v, Waiting);
  }

  lemma ReadFailsExact(h: Host, v: Server, eof: bool, sendOk: bool)
    requires Sound(h) && NoOrphan(h) && Enabled(h, ReadFails(v, eof, sendOk))
    ensures Exact(h, ReadFails(v, eof, sendOk))
  {
    var own := if v.kind == StreamKind then InStream else InPacket;
    if h.ep.status != own {
      ExitKeeps(h, v);
    } else if v.kind == StreamKind && eof {
      MovesKeeps(h, v, Closing);
    } else {
      SendKeeps(h, ErrorNote("read"), sendOk);
      ExitKeeps(Apply(h, Send(Quiet(h.ep), ErrorNote("read"), sendOk)), v);
    }
  }

  /** One step: soundness is kept, and coverage is kept exactly by the steps that do not lose. */
  lemma StepExact(h: Host, a: Action)
    requires Sound(h) && NoOrphan(h) && Enabled(h, a)
    ensures Exact(h, a)
  {
    match a
    case Receive(msg, _, _, _) =>
      if msg == Text(CloseRequest) {
        CloseRequestExact(h, a);
      } else if IsRequest(msg) {
        OpenExact(h, a);
      } else if IsReply(msg) {
        ReplyExact(h, a);
      } else if msg.Text? {
        NoteExact(h, a);
      } else {
        DataExact(h, a);
      }
    case Start(kind) => StartExact(h, kind);
    case Arm(v) => ArmExact(h, v);
    case WriteFails(v) =>
      CloseExact(h, LinkError);
      ExitKeeps(Next(h, LinkError), v);
    case ReadFails(v, eof, sendOk) => ReadFailsExact(h, v, eof, sendOk);
    case WaitOver(v) => ExitKeeps(h, v);
    case Dial(kind, protocol, target, sendOk) => DialKeeps(h, kind, protocol, target, sendOk);
    case Wake(dial, pipe) => WakeExact(h, dial, pipe);
    case Cancel(dial) => CancelExact(h, dial);
    case _ => CloseExact(h, a);
  }

  // ---- Whole runs ----

  predicate Legal(h: Host, run: seq<Action>)
    decreases |run|
  {
    run == [] || (Enabled(h, run[0]) && Legal(Next(h, run[0]), run[1..]))
  }

  function Exec(h: Host, run: seq<Action>): Host
    requires Legal(h, run)
    decreases |run|
  {
    if run == [] then h else Exec(Next(h, run[0]), run[1..])
  }

  /** Every state of the run leaves no connection orphaned. */
  ghost predicate AlwaysCovered(h: Host, run: seq<Action>)
    requires Legal(h, run)
    decreases |run|
  {
    NoOrphan(h) && (run != [] ==> AlwaysCovered(Next(h, run[0]), run[1..]))
  }

  ghost predicate NeverLoses(h: Host, run: seq<Action>)
    requires Legal(h, run)
    decreases |run|
  {
    run != [] ==> !Loses(h, run[0]) && NeverLoses(Next(h, run[0]), run[1..])
  }

  lemma {:induction false} RunExact(h: Host, run: seq<Action>)
    requires Sound(h) && NoOrphan(h) && Legal(h, run)
    ensures AlwaysCovered(h, run) <==> NeverLoses(h, run)
    decreases |run|
  {
    if run != [] {
      var k := Next(h, run[0]);
      StepExact(h, run[0]);
      if NoOrphan(k) {
        RunExact(k, run[1..]);
      } else {
        assert !AlwaysCovered(k, run[1..]);
      }
    }
  }

  /** Whatever peer, network and scheduler do, no connection is ever orphaned exactly if no step loses one. */
  lemma OrphanFreeExactly(run: seq<Action>)
    requires Legal(NEW_HOST, run)
    ensures AlwaysCovered(NEW_HOST, run) <==> NeverLoses(NEW_HOST, run)
  {
    RunExact(NEW_HOST, run);
  }

  /** With no goroutine left to start, a covered connection is closed or held by a live goroutine. */
  lemma CoveredWhenStarted(h: Host, c: ConnId)
    requires NoOrphan(h) && h.startingStream == 0 && h.startingPacket == 0 && c in h.handed
    ensures c in h.closed || Held(h, c)
  {
    assert Covered(h, c);
  }

  /** A losing run: the context ends before the goroutine starts, and not even `Close` closes the connection. */
  lemma ContextEndOrphans()
    ensures var run := [Receive(Text(OpenStream("tcp", "a")), Opened(0, ""), Complete, true),
                        ContextEnds, Start(StreamKind), CloseCall];
            && Legal(NEW_HOST, run) && !NeverLoses(NEW_HOST, run) && !AlwaysCovered(NEW_HOST, run)
  {
    var run := [Receive(Text(OpenStream("tcp", "a")), Opened(0, ""), Complete, true),
                ContextEnds, Start(StreamKind), CloseCall];
    var h1 := Next(NEW_HOST, run[0]);
    var h2 := Next(h1, run[1]);
    var h3 := Next(h2, run[2]);
    assert Legal(h3, run[1..][1..][1..]);
    assert Legal(NEW_HOST, run);
    assert Relied(h1, StreamKind);
    assert !NeverLoses(h1, run[1..]);
    RunExact(NEW_HOST, run);
  }

  /** Nothing that this end still refers to is open. */
  predicate Shut(h: Host) {
    h.ep.status == Closed && h.ep.streamConn.None? && h.ep.packetConn.None?
  }

  /**
   * A write that fails, of forwarded data or of an error note, shuts an open end: what it refers to
   * and what the goroutine served is closed.
   */
  lemma FailedWriteShuts(h: Host, v: Server)
    requires v in h.running && h.ep.status != Closed
    ensures var k := Next(h, WriteFails(v));
            Shut(k) && k.closed == h.closed + ToSet(h.ep.streamConn) + ToSet(h.ep.packetConn) + {v.conn}
    ensures v.stage == Reading && h.ep.status == (if v.kind == StreamKind then InStream else InPacket) ==>
              var k := Next(h, ReadFails(v, false, false));
              Shut(k) && k.closed == h.closed + ToSet(h.ep.streamConn) + ToSet(h.ep.packetConn) + {v.conn}
  {
  }

  /** After the context has ended, closing closes nothing any more, whatever this end still holds. */
  lemma CloseComesTooLate(h: Host)
    ensures var k := Next(h, ContextEnds); Next(k, CloseCall) == k && Next(k, LinkError) == k && k.closed == h.closed
  {
    assert h.closed + {} == h.closed;
  }

  /** Another: a peer closes packet mode before the goroutine starts. */
  lemma PacketCloseOrphans()
    ensures var run := [Receive(Text(OpenPacket("udp", "a")), Opened(0, ""), Complete, true),
                        Receive(Text(CloseRequest), Blocked, Complete, true), Start(PacketKind)];
            && Legal(NEW_HOST, run) && !NeverLoses(NEW_HOST, run) && !AlwaysCovered(NEW_HOST, run)
  {
    var run := [Receive(Text(OpenPacket("udp", "a")), Opened(0, ""), Complete, true),
                Receive(Text(CloseRequest), Blocked, Complete, true), Start(PacketKind)];
    var h1 := Next(NEW_HOST, run[0]);
    var h2 := Next(h1, run[1]);
    assert Legal(h2, run[1..][1..]);
    assert Relied(h1, PacketKind);
    assert !NeverLoses(h1, run[1..]);
    RunExact(NEW_HOST, run);
  }

  const DIAL := Dial(StreamKind, "tcp", "a", true)
  const CLOSE := Receive(Text(CloseRequest), Blocked, Complete, true)
  const OPEN := Receive(Text(OpenStream("tcp", "b")), Opened(0, ""), Complete, true)
  const ANSWER := Receive(Text(Reply(true, "")), Blocked, Complete, true)
  const WAKE := Wake(0, 1)

  const DIALED := Host(
    Endpoint(InOper, Some(ToDialer(0)), None, None, None), {}, {}, {}, 0, 0, multiset{}, 1, map[0 := StreamKind], map[])
  const IDLE := DIALED.(ep := DIALED.ep.(status := Idle))
  const ACCEPTED :=
    IDLE.(ep := Endpoint(InStream, Some(ToDialer(0)), None, Some(0), None), handed := {0}, startingStream := 1)
  const ANSWERED := ACCEPTED.(ep := Endpoint(InStream, None, None, Some(0), None), results := map[0 := true])

  lemma DialsAndIsClosed()
    ensures Enabled(NEW_HOST, DIAL) && Next(NEW_HOST, DIAL) == DIALED
    ensures Enabled(DIALED, CLOSE) && Next(DIALED, CLOSE) == IDLE
  {
  }

  lemma AcceptsAndIsAnswered()
    ensures Enabled(IDLE, OPEN) && Next(IDLE, OPEN) == ACCEPTED
    ensures Enabled(ACCEPTED, ANSWER) && Next(ACCEPTED, ANSWER) == ANSWERED
  {
  }

  lemma WakeLoses()
    ensures Enabled(ANSWERED, WAKE) && Loses(ANSWERED, WAKE)
  {
    assert Relied(ANSWERED, StreamKind);
  }

  lemma OneMore(h: Host, a: Action, run: seq<Action>)
    requires Enabled(h, a) && Legal(Next(h, a), run) && !NeverLoses(Next(h, a), run)
    ensures Legal(h, [a] + run) && !NeverLoses(h, [a] + run)
  {
    assert ([a] + run)[0] == a && ([a] + run)[1..] == run;
  }

  /** And one of an end that both dials and accepts: its own dialer takes the place of the accepted connection. */
  lemma WakeOrphans()
    ensures var run := [DIAL] + ([CLOSE] + ([OPEN] + ([ANSWER] + [WAKE])));
            Legal(NEW_HOST, run) && !NeverLoses(NEW_HOST, run) && !AlwaysCovered(NEW_HOST, run)
  {
    DialsAndIsClosed();
    AcceptsAndIsAnswered();
    WakeLoses();
    OneMore(ACCEPTED, ANSWER, [WAKE]);
    OneMore(IDLE, OPEN, [ANSWER] + [WAKE]);
    OneMore(DIALED, CLOSE, [OPEN] + ([ANSWER] + [WAKE]));
    OneMore(NEW_HOST, DIAL, [CLOSE] + ([OPEN] + ([ANSWER] + [WAKE])));
    RunExact(NEW_HOST, [DIAL] + ([CLOSE] + ([OPEN] + ([ANSWER] + [WAKE]))));
  }
}
