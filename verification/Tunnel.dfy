/**
 * One end of a tunnel (`Conn` in conn.go): its fields as a value, every lock-held region as a
 * function on that value, the text commands on the wire, and the mutable object refining them.
 */
module Tunnel {
  import opened Basics

  /** Identifies a connection, packet socket or local pipe within one end of the tunnel. */
  type ConnId = nat

  datatype Status = Idle | InPacket | InStream | InOper | Closed

  datatype Command =
    | OpenStream(protocol: string, target: string)
    | OpenPacket(protocol: string, target: string)
    | CloseRequest
    | BareReply
    | Reply(ok: bool, text: string)
    | ErrorNote(text: string)
    | Unknown

  datatype Message = Text(cmd: Command) | Binary(data: seq<byte>)

  /** The one-shot `onResult` closure: it belongs to a dial or listen, or to a goroutine that sent `X`. */
  datatype Callback = ToDialer(dial: nat) | ToCloser(goroutine: nat)

  datatype Kind = StreamKind | PacketKind

  datatype Endpoint = Endpoint(
    status: Status,
    onResult: Option<Callback>,
    onCmdErr: Option<ConnId>,
    streamConn: Option<ConnId>,
    packetConn: Option<ConnId>)

  const FRESH := Endpoint(Idle, None, None, None, None)

  /** A callback invocation, and bytes written into a local connection. */
  datatype Call = Call(cb: Callback, ok: bool, text: string)
  datatype Write = Write(conn: ConnId, data: seq<byte>)

  /** What one lock-held region does: the new fields and everything visible outside of them. */
  datatype Effect = Effect(
    ep: Endpoint,
    sent: seq<Message>,
    closes: set<ConnId>,
    calls: seq<Call>,
    writes: seq<Write>,
    spawned: seq<Kind>)

  /** What `OnCheckIncoming` and the dialer or listener decide about an open request. */
  datatype Answer = Blocked | Failed(error: string) | Opened(conn: ConnId, localAddr: string)

  /** How copying a binary message into the local stream ends; `n` bytes get through before a failure. */
  datatype Copy = Complete | Broken(n: nat, error: string)

  const BLOCKED_TEXT := "Incoming request blocked"

  function Quiet(ep: Endpoint): Effect { Effect(ep, [], {}, [], [], []) }

  function ToSet(c: Option<ConnId>): set<ConnId> { if c.Some? then {c.value} else {} }

  predicate IsRequest(m: Message) {
    m.Text? && (m.cmd.OpenStream? || m.cmd.OpenPacket? || m.cmd.CloseRequest?)
  }

  predicate IsReply(m: Message) { m.Text? && (m.cmd.BareReply? || m.cmd.Reply?) }

  // ---- Lock-held regions ----

  /** `Close` and `closeWithCode`: a second close does nothing. */
  function CloseWith(e: Effect): Effect {
    if e.ep.status == Closed then e
    else e.(ep := e.ep.(status := Closed, streamConn := None, packetConn := None),
            closes := e.closes + ToSet(e.ep.streamConn) + ToSet(e.ep.packetConn))
  }

  /** `sendCmd`: a failing write closes this end. */
  function Send(e: Effect, cmd: Command, sendOk: bool): Effect {
    if sendOk then e.(sent := e.sent + [Text(cmd)]) else CloseWith(e)
  }

  /** The status write of the ping goroutine once the context is done; it closes nothing else. */
  function ContextDone(ep: Endpoint): Effect { Quiet(ep.(status := Closed)) }

  function HandleCommand(ep: Endpoint, cmd: Command, answer: Answer, sendOk: bool): Effect {
    match cmd
    case CloseRequest =>
      Send(Quiet(ep.(status := Idle, streamConn := None)).(closes := ToSet(ep.streamConn)), BareReply, sendOk)
    case OpenPacket(_, _) => HandleOpen(ep, PacketKind, answer, sendOk)
    case OpenStream(_, _) => HandleOpen(ep, StreamKind, answer, sendOk)
    case BareReply => HandleReply(ep, false, "")
    case Reply(ok, text) => HandleReply(ep, ok, text)
    case ErrorNote(_) =>
      if ep.status != Idle && ep.onCmdErr.Some?
      then Quiet(ep.(onCmdErr := None)).(closes := {ep.onCmdErr.value})
      else Quiet(ep)
    case Unknown => Quiet(ep)
  }

  function HandleOpen(ep: Endpoint, kind: Kind, answer: Answer, sendOk: bool): Effect {
    if ep.status != Idle then CloseWith(Quiet(ep)) else
    match answer
    case Blocked => Send(Quiet(ep), Reply(false, BLOCKED_TEXT), sendOk)
    case Failed(error) => Send(Quiet(ep), Reply(false, error), sendOk)
    case Opened(conn, addr) =>
      var held := if kind == StreamKind then ep.(status := InStream, streamConn := Some(conn))
                  else ep.(status := InPacket, packetConn := Some(conn));
      Send(Quiet(held), Reply(true, addr), sendOk).(spawned := if sendOk then [kind] else [])
  }

  function HandleReply(ep: Endpoint, ok: bool, text: string): Effect {
    match ep.onResult
    case None => Quiet(ep)
    case Some(cb) =>
      var next := if cb.ToCloser? then ep.(onResult := None, status := Idle) else ep.(onResult := None);
      Quiet(next).(calls := [Call(cb, ok, text)])
  }

  /** `handleBinary`; the frame read in packet mode is module `PacketFrame` and changes no field here. */
  function HandleBinary(ep: Endpoint, data: seq<byte>, copy: Copy, sendOk: bool): Effect {
    if ep.status != InStream || ep.streamConn.None? then Quiet(ep) else
    var conn := ep.streamConn.value;
    match copy
    case Complete => Quiet(ep).(writes := [Write(conn, data)])
    case Broken(n, error) =>
      var part := if n < |data| then data[..n] else data;
      Send(Quiet(ep.(status := Idle, streamConn := None)).(closes := {conn}, writes := [Write(conn, part)]),
           ErrorNote(error), sendOk)
  }

  /** First half of `DialContext` and `ListenPacketContext`; `None` is the `StatusError` return. */
  function DialBegin(ep: Endpoint, dial: nat, request: Command, sendOk: bool): Option<Effect> {
    if ep.status != Idle then None else
    var e := Send(Quiet(ep.(onResult := Some(ToDialer(dial)))), request, sendOk);
    Some(if sendOk then e.(ep := e.ep.(status := InOper)) else e)
  }

  /** Second half, when the dialer wakes with its result. */
  function DialFinish(ep: Endpoint, ok: bool, kind: Kind, pipe: ConnId): Effect {
    if !ok then Quiet(ep.(status := Idle))
    else if kind == StreamKind then
      Quiet(ep.(status := InStream, streamConn := Some(pipe), onCmdErr := Some(pipe))).(spawned := [StreamKind])
    else Quiet(ep.(status := InPacket, onCmdErr := Some(pipe)))
  }

  /** The cancelled branch, as far as it gets while holding the lock. */
  function DialCancel(ep: Endpoint): Effect { Quiet(ep.(status := Idle, onResult := None)) }

  /** `closeAndWaitForIdle` up to its unlock. */
  function InstallCloser(ep: Endpoint, g: nat): Effect { Quiet(ep.(onResult := Some(ToCloser(g)))) }

  /** The opening capture of `serveStream` and `servePacket`; `None` is the early return. */
  function Capture(ep: Endpoint, kind: Kind): Option<ConnId> {
    if kind == StreamKind then (if ep.status == InStream then ep.streamConn else None)
    else if ep.status == InPacket then ep.packetConn else None
  }

  /** A goroutine is started exactly when the message that grants a request has left. */
  lemma ServedIfGranted(ep: Endpoint, cmd: Command, answer: Answer, sendOk: bool)
    ensures var e := HandleCommand(ep, cmd, answer, sendOk);
            e.spawned != [] <==> exists text :: Text(Reply(true, text)) in e.sent
  {
    var e := HandleCommand(ep, cmd, answer, sendOk);
    if e.spawned != [] { assert Text(Reply(true, answer.localAddr)) in e.sent; }
  }

  /** Stream mode comes with a stream, so no goroutine of it captures a nil one. */
  predicate Backed(ep: Endpoint) { ep.status == InStream ==> ep.streamConn.Some? }

  lemma EveryRegionBacks(ep: Endpoint, cmd: Command, data: seq<byte>, answer: Answer, copy: Copy, sendOk: bool)
    requires Backed(ep)
    ensures Backed(HandleCommand(ep, cmd, answer, sendOk).ep) && Backed(HandleBinary(ep, data, copy, sendOk).ep)
    ensures Backed(CloseWith(Quiet(ep)).ep) && Backed(ContextDone(ep).ep)
    ensures forall dial :: var e := DialBegin(ep, dial, cmd, sendOk); e.Some? ==> Backed(e.value.ep)
    ensures forall ok, kind, pipe :: Backed(DialFinish(ep, ok, kind, pipe).ep)
    ensures Backed(DialCancel(ep).ep) && forall g :: Backed(InstallCloser(ep, g).ep)
  {
  }

  // ---- Text commands ----

  /** `split`: cut at the first `sep`. */
  function Split(s: string, sep: char): (r: (string, string))
    ensures sep !in r.0
    ensures if sep in s then s == r.0 + [sep] + r.1 else r == (s, "")
  {
    if s == "" then ("", "")
    else if s[0] == sep then ("", s[1..])
    else
      var (l, r) := Split(s[1..], sep);
      assert s == [s[0]] + s[1..];
      assert sep !in s[1..] ==> [s[0]] + l == s;
      ([s[0]] + l, r)
  }

  function Encode(cmd: Command): string {
    match cmd
    case OpenStream(protocol, target) => "S" + protocol + ";" + target
    case OpenPacket(protocol, target) => "P" + protocol + ";" + target
    case CloseRequest => "X"
    case BareReply => "R"
    case Reply(ok, text) => (if ok then "RT" else "RF") + text
    case ErrorNote(text) => "E" + text
    case Unknown => "?"
  }

  /** How `handleCommand` reads a non-empty text message; on an empty one `cmd[0]` panics. */
  function Parse(s: string): Command
    requires s != ""
  {
    match s[0]
    case 'X' => CloseRequest
    case 'P' => var (protocol, target) := Split(s[1..], ';'); OpenPacket(protocol, target)
    case 'S' => var (protocol, target) := Split(s[1..], ';'); OpenStream(protocol, target)
    case 'R' => if |s| == 1 then BareReply else Reply(s[1] == 'T', s[2..])
    case 'E' => ErrorNote(s[1..])
    case _ => Unknown
  }

  lemma {:induction false} SplitJoin(l: string, sep: char, r: string)
    requires sep !in l
    ensures Split(l + [sep] + r, sep) == (l, r)
  {
    var s := l + [sep] + r;
    if l == "" {
      assert s[0] == sep && s[1..] == r;
    } else {
      assert s[1..] == l[1..] + [sep] + r;
      SplitJoin(l[1..], sep, r);
      assert s[0] == l[0] && [l[0]] + l[1..] == l;
    }
  }

  /** A command survives the wire exactly when an open request's protocol holds no separator. */
  lemma WireRoundTrip(cmd: Command)
    ensures Parse(Encode(cmd)) == cmd <==> (cmd.OpenStream? || cmd.OpenPacket? ==> ';' !in cmd.protocol)
  {
    match cmd
    case OpenStream(protocol, target) =>
      assert Encode(cmd)[1..] == protocol + [';'] + target;
      if ';' !in protocol { SplitJoin(protocol, ';', target); }
    case OpenPacket(protocol, target) =>
      assert Encode(cmd)[1..] == protocol + [';'] + target;
      if ';' !in protocol { SplitJoin(protocol, ';', target); }
    case Reply(ok, text) =>
      assert Encode(cmd)[2..] == text;
    case _ =>
  }

  /** An open request's text behind its first letter. */
  predicate Cut(s: string, protocol: string, target: string) {
    ';' !in protocol && (s == protocol + ";" + target || (target == "" && s == protocol))
  }

  /** Which texts are read as which command, without reference to how they are taken apart. */
  predicate Means(s: string, cmd: Command)
    requires s != ""
  {
    match cmd
    case OpenStream(protocol, target) => s[0] == 'S' && Cut(s[1..], protocol, target)
    case OpenPacket(protocol, target) => s[0] == 'P' && Cut(s[1..], protocol, target)
    case CloseRequest => s[0] == 'X'
    case BareReply => s == "R"
    case Reply(ok, text) => |s| > 1 && s[0] == 'R' && (ok <==> s[1] == 'T') && s[2..] == text
    case ErrorNote(text) => s == "E" + text
    case Unknown => s[0] !in "XPSRE"
  }

  lemma SplitCuts(s: string, protocol: string, target: string)
    ensures Split(s, ';') == (protocol, target) <==> Cut(s, protocol, target)
  {
    if Cut(s, protocol, target) && s == protocol + ";" + target { SplitJoin(protocol, ';', target); }
  }

  lemma ParseMeans(s: string)
    requires s != ""
    ensures Means(s, Parse(s))
  {
    var (protocol, target) := Split(s[1..], ';');
    SplitCuts(s[1..], protocol, target);
    if s[0] == 'E' { assert s == "E" + s[1..]; }
    if s[0] == 'R' && |s| == 1 { assert s == "R"; }
  }

  lemma MeansOpen(s: string, protocol: string, target: string)
    requires s != "" && Cut(s[1..], protocol, target)
    ensures s[0] == 'S' ==> Parse(s) == OpenStream(protocol, target)
    ensures s[0] == 'P' ==> Parse(s) == OpenPacket(protocol, target)
  {
    SplitCuts(s[1..], protocol, target);
  }

  lemma MeansOther(s: string, cmd: Command)
    requires s != "" && Means(s, cmd) && !cmd.OpenStream? && !cmd.OpenPacket?
    ensures Parse(s) == cmd
  {
    if cmd.ErrorNote? { assert ("E" + cmd.text)[1..] == cmd.text; }
  }

  /** Every non-empty text means exactly one command, the one it is read as. */
  lemma ParseExactly(s: string, cmd: Command)
    requires s != ""
    ensures Parse(s) == cmd <==> Means(s, cmd)
  {
    if Means(s, cmd) {
      if cmd.OpenStream? || cmd.OpenPacket? { MeansOpen(s, cmd.protocol, cmd.target); } else { MeansOther(s, cmd); }
    }
    if Parse(s) == cmd { ParseMeans(s); }
  }

  /** The texts on the wire. */
  lemma WireTexts()
    ensures Encode(OpenStream("tcp", "a:1")) == "Stcp;a:1" && Encode(OpenPacket("udp", "b:2")) == "Pudp;b:2"
    ensures Encode(CloseRequest) == "X" && Encode(BareReply) == "R" && Encode(ErrorNote("reset")) == "Ereset"
    ensures Encode(Reply(true, "c:3")) == "RTc:3" && Encode(Reply(false, "no")) == "RFno"
  {
  }

  // ---- The object ----

  /** The mutable end of a tunnel. `out`, `closed`, `calls`, `writes` and `spawned` record its effects. */
  class Conn {
    var status: Status
    var onResult: Option<Callback>
    var onCmdErr: Option<ConnId>
    var streamConn: Option<ConnId>
    var packetConn: Option<ConnId>
    var out: seq<Message>
    var closed: set<ConnId>
    var calls: seq<Call>
    var writes: seq<Write>
    var spawned: seq<Kind>

    ghost function Fields(): Endpoint
      reads this
    {
      Endpoint(status, onResult, onCmdErr, streamConn, packetConn)
    }

    /** `WrapConn`. */
    constructor ()
      ensures Fields() == FRESH
      ensures out == [] && closed == {} && calls == [] && writes == [] && spawned == []
    {
      status, onResult, onCmdErr, streamConn, packetConn := Idle, None, None, None, None;
      out, closed, calls, writes, spawned := [], {}, [], [], [];
    }

    /** The object now is what it was before, changed by exactly `e`. */
    twostate predicate Became(e: Effect)
      reads this
    {
      && Fields() == e.ep
      && out == old(out) + e.sent
      && closed == old(closed) + e.closes
      && calls == old(calls) + e.calls
      && writes == old(writes) + e.writes
      && spawned == old(spawned) + e.spawned
    }

    method CloseWithCode()
      modifies this
      ensures Became(CloseWith(Quiet(old(Fields()))))
    {
      if status == Closed { return; }
      status := Closed;
      if streamConn.Some? {
        closed := closed + {streamConn.value};
        streamConn := None;
      }
      if packetConn.Some? {
        closed := closed + {packetConn.value};
        packetConn := None;
      }
    }

    method SendCmd(cmd: Command, sendOk: bool)
      modifies this
      ensures Became(Send(Quiet(old(Fields())), cmd, sendOk))
    {
      if sendOk {
        out := out + [Text(cmd)];
      } else {
        CloseWithCode();
      }
    }

    /** `handleCommand` on the raw text; it fails with an index panic exactly on the empty message. */
    method Handle(text: string, answer: Answer, sendOk: bool) returns (panicked: bool)
      modifies this
      ensures panicked <==> text == ""
      ensures panicked ==> unchanged(this)
      ensures !panicked ==> Became(HandleCommand(old(Fields()), Parse(text), answer, sendOk))
    {
      if text == "" { return true; }
      panicked := false;
      match text[0] {
        case 'X' =>
          status := Idle;
          if streamConn.Some? {
            closed := closed + {streamConn.value};
            streamConn := None;
          }
          SendCmd(BareReply, sendOk);
        case 'P' => Open(PacketKind, answer, sendOk);
        case 'S' => Open(StreamKind, answer, sendOk);
        case 'R' =>
          if |text| == 1 {
            Result(false, "");
          } else {
            Result(text[1] == 'T', text[2..]);
          }
        case 'E' =>
          if status != Idle && onCmdErr.Some? {
            closed := closed + {onCmdErr.value};
            onCmdErr := None;
          }
        case _ =>
      }
    }

    method Open(kind: Kind, answer: Answer, sendOk: bool)
      modifies this
      ensures Became(HandleOpen(old(Fields()), kind, answer, sendOk))
    {
      if status != Idle {
        CloseWithCode();
        return;
      }
      match answer
      case Blocked => SendCmd(Reply(false, BLOCKED_TEXT), sendOk);
      case Failed(error) => SendCmd(Reply(false, error), sendOk);
      case Opened(conn, addr) =>
        if kind == StreamKind {
          status := InStream;
          streamConn := Some(conn);
        } else {
          status := InPacket;
          packetConn := Some(conn);
        }
        SendCmd(Reply(true, addr), sendOk);
        if sendOk { spawned := spawned + [kind]; }
    }

    method Result(ok: bool, text: string)
      modifies this
      ensures Became(HandleReply(old(Fields()), ok, text))
    {
      if onResult.Some? {
        var cb := onResult.value;
        onResult := None;
        if cb.ToCloser? { status := Idle; }
        calls := calls + [Call(cb, ok, text)];
      }
    }

    /** `handleBinary` outside packet mode. */
    method HandleStreamData(data: seq<byte>, copy: Copy, sendOk: bool)
      modifies this
      ensures Became(HandleBinary(old(Fields()), data, copy, sendOk))
    {
      if status != InStream || streamConn.None? { return; }
      var conn := streamConn.value;
      match copy
      case Complete => writes := writes + [Write(conn, data)];
      case Broken(n, error) =>
        writes := writes + [Write(conn, if n < |data| then data[..n] else data)];
        status := Idle;
        closed := closed + {conn};
        streamConn := None;
        SendCmd(ErrorNote(error), sendOk);
    }

    /** The first half of `DialContext` or `ListenPacketContext`. */
    method BeginDial(dial: nat, request: Command, sendOk: bool) returns (begun: bool)
      modifies this
      ensures begun <==> DialBegin(old(Fields()), dial, request, sendOk).Some?
      ensures if begun then Became(DialBegin(old(Fields()), dial, request, sendOk).value) else unchanged(this)
    {
      if status != Idle { return false; }
      begun := true;
      onResult := Some(ToDialer(dial));
      SendCmd(request, sendOk);
      if sendOk { status := InOper; }
    }

    /** The cancelled branch of a dial, up to the close it may go on to attempt. */
    method CancelDial()
      modifies this
      ensures Became(DialCancel(old(Fields())))
    {
      status := Idle;
      if onResult.Some? { onResult := None; }
    }

    /** `closeAndWaitForIdle` up to its unlock. */
    method ArmClose(g: nat)
      modifies this
      ensures Became(InstallCloser(old(Fields()), g))
    {
      onResult := Some(ToCloser(g));
    }

    /** How `serveStream` and `servePacket` begin; `None` is their early return, or a nil connection to close. */
    method BeginServe(kind: Kind) returns (conn: Option<ConnId>, panicked: bool)
      ensures conn == Capture(Fields(), kind)
      ensures panicked <==> if kind == StreamKind then status == InStream && streamConn.None?
                            else status == InPacket && packetConn.None?
    {
      conn := if kind == StreamKind then streamConn else packetConn;
      if status != (if kind == StreamKind then InStream else InPacket) { return None, false; }
      panicked := conn.None?;
    }

    /** The second half, when the dialer wakes. */
    method FinishDial(ok: bool, kind: Kind, pipe: ConnId)
      modifies this
      ensures Became(DialFinish(old(Fields()), ok, kind, pipe))
    {
      if !ok {
        status := Idle;
        return;
      }
      if kind == StreamKind {
        streamConn := Some(pipe);
        spawned := spawned + [StreamKind];
      }
      onCmdErr := Some(pipe);
      status := if kind == StreamKind then InStream else InPacket;
    }
  }
}
