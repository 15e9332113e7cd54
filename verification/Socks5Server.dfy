/** The SOCKS5 server side as it runs: a connection read and written step by step, refining `Socks5Session`. */
module Socks5Server {
  import opened Basics
  import opened Socks5Addr
  import opened Socks5Session

  class Connection {
    const stream: ByteStream
    var out: seq<byte>
    var writes: nat
    var calls: seq<Call>
    var version: byte

    ghost function View(): Wire
      reads this, stream
    {
      Wire(stream.rest, out, writes, calls)
    }

    constructor (bytes: seq<byte>, writes: nat)
      ensures fresh(stream) && View() == Wire(bytes, [], writes, [])
    {
      stream := new ByteStream(bytes);
      this.out, this.writes, this.calls, version := [], writes, [], 0;
    }

    method Write(bytes: seq<byte>) returns (ok: bool)
      modifies this`out, this`writes
      ensures View() == Put(old(View()), bytes) && (ok <==> old(writes) > 0)
    {
      ok := writes > 0;
      if ok { out, writes := out + bytes, writes - 1; }
    }

    /** A length byte, then that many bytes in full. */
    method ReadBlock() returns (r: Option<seq<byte>>)
      modifies stream
      ensures stream.rest == Block(old(stream.rest)).rest
      ensures match Block(old(stream.rest))
              case Got(v, _) => r == Some(v)
              case Stop(e, _) => r == None && e == EOF
    {
      var l := stream.ReadByte();
      if l.None? { return None; }
      ghost var s := old(stream.rest);
      var got, ok := stream.ReadFull(l.value);
      if !ok { return None; }
      assert s == [s[0]] + (got + stream.rest);
      assert got == s[1..1 + |got|] && stream.rest == s[1 + |got|..];
      r := Some(got);
    }

    method ReadHandShake() returns (r: Option<seq<byte>>, error: Option<Error>)
      modifies stream, this`version
      ensures stream.rest == HandShake(old(stream.rest)).rest
      ensures match HandShake(old(stream.rest))
              case Got(v, _) => r == Some(v) && version == VERSION
              case Stop(e, _) => r == None && error == Some(e)
    {
      r, error := None, Some(EOF);
      var v := stream.ReadByte();
      if v.None? { return; }
      version := v.value;
      if version != VERSION { return None, Some(SocksVersion(version)); }
      r := ReadBlock();
    }

    method ReadCredentials() returns (r: Option<(seq<byte>, seq<byte>)>, error: Option<Error>)
      modifies stream
      ensures stream.rest == Credentials(old(stream.rest)).rest
      ensures match Credentials(old(stream.rest))
              case Got(v, _) => r == Some(v)
              case Stop(e, _) => r == None && error == Some(e)
    {
      r, error := None, Some(EOF);
      var b := stream.ReadByte();
      if b.None? { return; }
      if b.value != 1 { return None, Some(UnsupportVersion); }
      var id := ReadBlock();
      if id.None? { return; }
      var pw := ReadBlock();
      if pw.None? { return; }
      r := Some((id.value, pw.value));
    }

    method Authenticate(guard: Guard, offer: byte) returns (ok: bool, error: Option<Error>)
      modifies this`out, this`writes, stream
      ensures Auth(View(), ok, error) == TryAuth(guard, old(View()), offer)
    {
      if offer == NO_AUTH {
        ok := Write([VERSION, offer]);
        return ok, if ok then None else Some(WriteFailed);
      }
      if offer == USER_AUTH && guard.Some? {
        var creds, stop := ReadCredentials();
        if creds.None? { return stop == Some(UnsupportVersion), stop; }
        var admitted := guard.value(creds.value.0, creds.value.1);
        var sent := Write(if admitted then [1, 0] else [1, 255]);
        if !sent { return false, Some(WriteFailed); }
        return true, if admitted then None else Some(Unauthorized);
      }
      return false, None;
    }

    method ReadRequest() returns (r: Option<Call>, error: Option<Error>)
      requires version == VERSION
      modifies stream
      ensures stream.rest == Request(old(stream.rest)).rest
      ensures match Request(old(stream.rest))
              case Got(v, _) => r == Some(v)
              case Stop(e, _) => r == None && error == Some(e)
    {
      r, error := None, Some(EOF);
      var v := stream.ReadByte();
      if v.None? { return; }
      if v.value != version { return None, Some(VersionChanged); }
      var cmd := stream.ReadByte();
      if cmd.None? { return; }
      var reserved := stream.ReadByte();
      if reserved.None? { return; }
      assert stream.rest == old(stream.rest)[3..];
      var addr := new AddrPort();
      var n, outcome := addr.ReadFrom(stream);
      match outcome
      case Success => r := Some(Call(cmd.value, Addr(addr.typ, addr.data, addr.port)));
      case EndOfFile =>
      case Unsupported => error := Some(UnsupportVersion);
    }

    method SendResponse(status: byte, addr: Option<Addr>) returns (error: Option<Error>)
      requires version == VERSION
      modifies this`out, this`writes
      ensures (View(), error) == Respond(old(View()), status, addr)
    {
      var ok := Write([version, status, 0]);
      if !ok { return Some(WriteFailed); }
      var m := Marshal(addr);
      if !m.Bytes? { return Some(UnsupportVersion); }
      ok := Write(m.bytes);
      return if ok then None else Some(WriteFailed);
    }

    /** The part of `Handle` up to the end of authentication; `None` means the request may follow. */
    method Greet(guard: Guard) returns (error: Option<Error>)
      modifies this`out, this`writes, this`version, stream
      ensures match Login(guard, old(View()))
              case Open(w) => error == None && View() == w && version == VERSION
              case Over(end) => error == end.error && error.Some? && View() == end.w
    {
      ghost var w0 := View();
      var methods, stop := ReadHandShake();
      if methods.None? { return stop; }
      ghost var w := View();
      var ok, i := false, 0;
      while i < |methods.value| && !ok
        invariant 0 <= i <= |methods.value| && version == VERSION
        invariant ok ==> Auth(View(), true, None) == AuthLoop(guard, w, methods.value)
        invariant !ok ==> AuthLoop(guard, View(), methods.value[i..]) == AuthLoop(guard, w, methods.value)
        decreases |methods.value| - i, !ok
      {
        assert methods.value[i..][1..] == methods.value[i + 1..];
        ok, error := Authenticate(guard, methods.value[i]);
        if error.Some? { return; }
        i := i + 1;
      }
      if !ok {
        var sent := Write([VERSION, NO_ACCEPTABLE]);
        return Some(if sent then NoAcceptableAuth else WriteFailed);
      }
      error := None;
    }

    /** The request: the Handler is called and the outcome reported. */
    method Serve(env: Env, call: Call) returns (error: Option<Error>, relaying: bool)
      requires version == VERSION
      modifies this`out, this`writes, this`calls
      ensures End(View(), error, relaying) == Perform(env, old(View()), call)
    {
      relaying := false;
      if call.cmd == CMD_DIAL {
        calls := calls + [call];
        if env.dial.Some? {
          error := SendResponse(StatusOf(env.dial.value), None);
          return;
        }
        error := SendResponse(0, None);
        relaying := error.None?;
      } else if call.cmd == CMD_BIND {
        calls := calls + [call];
        if env.bind.Some? {
          error := SendResponse(StatusOf(env.bind.value), None);
          return;
        }
        error := SendResponse(0, env.listenAddr);
        if error.Some? { return; }
        if env.accept.Some? {
          error := SendResponse(StatusOf(env.accept.value), None);
          return;
        }
        error := SendResponse(0, env.localAddr);
        relaying := error.None?;
      } else {
        error := SendResponse(7, None);
      }
    }

    /** The whole session is the machine's. */
    method Handle(guard: Guard, env: Env) returns (error: Option<Error>, relaying: bool)
      modifies this, stream
      ensures End(View(), error, relaying) == Socks5Session.Handle(guard, env, old(View()))
    {
      error := Greet(guard);
      if error.Some? { return error, false; }
      var call, stop := ReadRequest();
      if call.None? {
        error := SendResponse(StatusOf(stop.value), None);
        return error, false;
      }
      error, relaying := Serve(env, call.value);
    }
  }
}
