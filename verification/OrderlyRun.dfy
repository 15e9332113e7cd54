/**
 * Orderly runs of a whole tunnel: a dialing client and an accepting server joined by two FIFO
 * channels. Sessions are numbered by the client's open requests; the connection the server dials
 * for session k and the client's local pipe for session k both carry the id k.
 */
module OrderlyRun {
  import opened Basics
  import opened Tunnel

  /** A message and the session of the connection it was read from, or in which it was sent. */
  datatype Tagged = Tagged(msg: Message, sess: nat)

  /** One `serveStream` goroutine; `done` records a close callback that ran before `X` was sent. */
  datatype Serve =
    | Starting
    | Serving(conn: ConnId)
    | Closing(conn: ConnId, done: bool)
    | Waiting(conn: ConnId)
    | Returning(conn: ConnId)
    | Returned

  /**
   * One direction of one session: bytes read at the source, bytes of them that reached the other
   * end, how many of those passed before delivery began, and bytes written into its connection.
   */
  datatype Flow = Flow(read: seq<byte>, seen: seq<byte>, skip: nat, delivered: seq<byte>)

  datatype Session = Session(up: Flow, down: Flow)

  const NO_FLOW := Flow([], [], 0, [])

  datatype System = System(
    client: Endpoint,
    dialing: bool,
    result: Option<bool>,
    serve: Serve,
    closeSent: bool,
    pipesClosed: set<ConnId>,
    server: Endpoint,
    goros: seq<Serve>,
    live: set<ConnId>,
    accepted: nat,
    toServer: seq<Tagged>,
    toClient: seq<Tagged>,
    log: seq<Session>)

  const INIT := System(FRESH, false, None, Returned, false, {}, FRESH, [], {}, 0, [], [], [])

  datatype Action =
    | Dial(protocol: string, target: string)
    | Wake
    | ClientReceive(copy: Copy)
    | ClientStart
    | ClientRead(data: seq<byte>)
    | ClientReadFails(eof: bool)
    | ClientSendClose
    | ClientReturn
    | ServerReceive(answer: Answer, copy: Copy)
    | Start(g: nat)
    | Read(g: nat, data: seq<byte>)
    | ReadFails(g: nat, eof: bool)
    | SendClose(g: nat)
    | Return(g: nat)

  // ---- Enabled actions ----

  predicate HasConn(v: Serve) { v.Serving? || v.Closing? || v.Waiting? || v.Returning? }

  predicate Enabled(s: System, a: Action) {
    match a
    case Dial(_, _) => s.client.status == Idle && !s.dialing && s.client.onResult.None? && s.serve == Returned
    case Wake => s.dialing && s.result.Some?
    case ClientReceive(copy) =>
      s.toClient != [] && (s.toClient[0].msg.Binary? && copy.Broken? ==> s.closeSent)
    case ClientStart => s.serve == Starting
    case ClientRead(_) => s.serve.Serving? && s.serve.conn !in s.pipesClosed
    case ClientReadFails(_) => s.serve.Serving?
    case ClientSendClose => s.serve.Closing?
    case ClientReturn => s.serve.Returning?
    case ServerReceive(answer, _) => s.toServer != [] && (answer.Opened? ==> answer.conn == s.accepted)
    case Start(g) => g < |s.goros| && s.goros[g] == Starting
    case Read(g, _) => g < |s.goros| && s.goros[g].Serving? && s.goros[g].conn in s.live
    case ReadFails(g, _) => g < |s.goros| && s.goros[g].Serving?
    case SendClose(g) => g < |s.goros| && s.goros[g].Closing?
    case Return(g) => g < |s.goros| && s.goros[g].Returning?
  }

  // ---- Effects on the shared state ----

  function TagAll(sent: seq<Message>, sess: nat): seq<Tagged> {
    seq(|sent|, i requires 0 <= i < |sent| => Tagged(sent[i], sess))
  }

  function Pred(n: nat): nat { if n == 0 then 0 else n - 1 }

  /** A close callback lets the goroutine that waits for it return. */
  function Release(v: Serve): Serve {
    match v
    case Waiting(c) => Returning(c)
    case Closing(c, _) => Closing(c, true)
    case _ => v
  }

  function CloserCalled(calls: seq<Call>): Option<nat> {
    if calls != [] && calls[0].cb.ToCloser? then Some(calls[0].cb.goroutine) else None
  }

  function DialerCalled(calls: seq<Call>): Option<bool> {
    if calls != [] && calls[0].cb.ToDialer? then Some(calls[0].ok) else None
  }

  function Pass(f: Flow, data: seq<byte>): Flow { f.(seen := f.seen + data) }
  function Deliver(f: Flow, data: seq<byte>): Flow { f.(delivered := f.delivered + data) }
  function Source(f: Flow, data: seq<byte>): Flow { f.(read := f.read + data) }

  function LogUp(log: seq<Session>, m: Tagged, writes: seq<Write>): seq<Session> {
    var seen := if m.msg.Binary? && m.sess < |log|
                then log[m.sess := log[m.sess].(up := Pass(log[m.sess].up, m.msg.data))] else log;
    if writes == [] || writes[0].conn >= |seen| then seen
    else var k := writes[0].conn; seen[k := seen[k].(up := Deliver(seen[k].up, writes[0].data))]
  }

  function LogDown(log: seq<Session>, m: Tagged, writes: seq<Write>): seq<Session> {
    var seen := if m.msg.Binary? && m.sess < |log|
                then log[m.sess := log[m.sess].(down := Pass(log[m.sess].down, m.msg.data))] else log;
    if writes == [] || writes[0].conn >= |seen| then seen
    else var k := writes[0].conn; seen[k := seen[k].(down := Deliver(seen[k].down, writes[0].data))]
  }

  // ---- The client's steps ----

  function DoDial(s: System, protocol: string, target: string): System
    requires s.client.status == Idle
  {
    var n := |s.log|;
    var e := DialBegin(s.client, n, OpenStream(protocol, target), true).value;
    s.(client := e.ep, dialing := true, closeSent := false,
       toServer := s.toServer + TagAll(e.sent, n), log := s.log + [Session(NO_FLOW, NO_FLOW)])
  }

  function DoWake(s: System): System
    requires s.result.Some?
  {
    var k := Pred(|s.log|);
    var e := DialFinish(s.client, s.result.value, StreamKind, k);
    s.(client := e.ep, dialing := false, result := None,
       serve := if e.spawned != [] then Starting else s.serve,
       log := if k < |s.log| then s.log[k := s.log[k].(down := s.log[k].down.(skip := |s.log[k].down.seen|))]
              else s.log)
  }

  /** The client refuses every incoming open request (`OnCheckIncoming` returns false). */
  function DoClientReceive(s: System, copy: Copy): System
    requires s.toClient != []
  {
    var m := s.toClient[0];
    var e := if m.msg.Text? then HandleCommand(s.client, m.msg.cmd, Blocked, true)
             else HandleBinary(s.client, m.msg.data, copy, true);
    s.(client := e.ep, toClient := s.toClient[1..], toServer := s.toServer + TagAll(e.sent, Pred(|s.log|)),
       pipesClosed := s.pipesClosed + e.closes,
       result := if DialerCalled(e.calls).Some? then DialerCalled(e.calls) else s.result,
       serve := if CloserCalled(e.calls).Some? then Release(s.serve) else s.serve,
       log := LogDown(s.log, m, e.writes))
  }

  function DoClientStart(s: System): System {
    var c := Capture(s.client, StreamKind);
    s.(serve := if c.Some? then Serving(c.value) else Returned)
  }

  function DoClientRead(s: System, data: seq<byte>): System
    requires s.serve.Serving?
  {
    var k := s.serve.conn;
    s.(toServer := s.toServer + TagAll([Binary(data)], k),
       log := if k < |s.log| then s.log[k := s.log[k].(up := Source(s.log[k].up, data))] else s.log)
  }

  function DoClientReadFails(s: System, eof: bool): System
    requires s.serve.Serving?
  {
    if s.client.status != InStream then s.(serve := Returning(s.serve.conn))
    else if eof then
      s.(client := InstallCloser(s.client, 0).ep, serve := Closing(s.serve.conn, false))
    else
      var e := Send(Quiet(s.client), ErrorNote("read"), true);
      s.(client := e.ep, toServer := s.toServer + TagAll(e.sent, s.serve.conn), serve := Returning(s.serve.conn))
  }

  function DoClientSendClose(s: System): System
    requires s.serve.Closing?
  {
    var e := Send(Quiet(s.client), CloseRequest, true);
    s.(client := e.ep, toServer := s.toServer + TagAll(e.sent, s.serve.conn), closeSent := true,
       serve := if s.serve.done then Returning(s.serve.conn) else Waiting(s.serve.conn))
  }

  // ---- The server's steps ----

  function DoServerReceive(s: System, answer: Answer, copy: Copy): System
    requires s.toServer != []
  {
    var m := s.toServer[0];
    var e := if m.msg.Text? then HandleCommand(s.server, m.msg.cmd, answer, true)
             else HandleBinary(s.server, m.msg.data, copy, true);
    var accepted := if m.msg.Text? && m.msg.cmd.OpenStream? then s.accepted + 1 else s.accepted;
    var g := CloserCalled(e.calls);
    var freed := if g.Some? && g.value < |s.goros| then s.goros[g.value := Release(s.goros[g.value])] else s.goros;
    s.(server := e.ep, toServer := s.toServer[1..], toClient := s.toClient + TagAll(e.sent, Pred(accepted)),
       accepted := accepted,
       goros := if e.spawned != [] then freed + [Starting] else freed,
       live := s.live - e.closes + (if e.spawned != [] && answer.Opened? then {answer.conn} else {}),
       log := LogUp(s.log, m, e.writes))
  }

  function DoStart(s: System, g: nat): System
    requires g < |s.goros|
  {
    var c := Capture(s.server, StreamKind);
    s.(goros := s.goros[g := if c.Some? then Serving(c.value) else Returned])
  }

  function DoRead(s: System, g: nat, data: seq<byte>): System
    requires g < |s.goros| && s.goros[g].Serving?
  {
    var k := s.goros[g].conn;
    s.(toClient := s.toClient + TagAll([Binary(data)], k),
       log := if k < |s.log| then s.log[k := s.log[k].(down := Source(s.log[k].down, data))] else s.log)
  }

  /** A read error; after end of file the connection yields no more data. */
  function DoReadFails(s: System, g: nat, eof: bool): System
    requires g < |s.goros| && s.goros[g].Serving?
  {
    var c := s.goros[g].conn;
    var t := s.(live := if eof then s.live - {c} else s.live);
    if s.server.status != InStream then t.(goros := s.goros[g := Returning(c)])
    else if eof then
      t.(server := InstallCloser(s.server, g).ep, goros := s.goros[g := Closing(c, false)])
    else
      var e := Send(Quiet(s.server), ErrorNote("read"), true);
      t.(server := e.ep, toClient := s.toClient + TagAll(e.sent, c), goros := s.goros[g := Returning(c)])
  }

  function DoSendClose(s: System, g: nat): System
    requires g < |s.goros| && s.goros[g].Closing?
  {
    var c := s.goros[g].conn;
    var e := Send(Quiet(s.server), CloseRequest, true);
    s.(server := e.ep, toClient := s.toClient + TagAll(e.sent, c),
       goros := s.goros[g := if s.goros[g].done then Returning(c) else Waiting(c)])
  }

  function DoReturn(s: System, g: nat): System
    requires g < |s.goros| && s.goros[g].Returning?
  {
    s.(live := s.live - {s.goros[g].conn}, goros := s.goros[g := Returned])
  }

  function Next(s: System, a: Action): System
    requires Enabled(s, a)
  {
    match a
    case Dial(protocol, target) => DoDial(s, protocol, target)
    case Wake => DoWake(s)
    case ClientReceive(copy) => DoClientReceive(s, copy)
    case ClientStart => DoClientStart(s)
    case ClientRead(data) => DoClientRead(s, data)
    case ClientReadFails(eof) => DoClientReadFails(s, eof)
    case ClientSendClose => DoClientSendClose(s)
    case ClientReturn => s.(pipesClosed := s.pipesClosed + {s.serve.conn}, serve := Returned)
    case ServerReceive(answer, copy) => DoServerReceive(s, answer, copy)
    case Start(g) => DoStart(s, g)
    case Read(g, data) => DoRead(s, g, data)
    case ReadFails(g, eof) => DoReadFails(s, g, eof)
    case SendClose(g) => DoSendClose(s, g)
    case Return(g) => DoReturn(s, g)
  }

  // ---- Runs ----

  predicate Legal(s: System, run: seq<Action>)
    decreases |run|
  {
    run == [] || (Enabled(s, run[0]) && Legal(Next(s, run[0]), run[1..]))
  }

  function Exec(s: System, run: seq<Action>): System
    requires Legal(s, run)
    decreases |run|
  {
    if run == [] then s else Exec(Next(s, run[0]), run[1..])
  }
}
