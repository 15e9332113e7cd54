/**
 * A SOCKS5 session (socks5/server.go, socks5/conn.go; sections 3 to 6 of RFC 1928 and section 2 of
 * RFC 1929) as a machine over the client's byte stream.
 */
module Socks5Session {
  import opened Basics
  import opened Socks5Addr

  const VERSION: byte := 5
  const NO_AUTH: byte := 0
  const USER_AUTH: byte := 2
  const NO_ACCEPTABLE: byte := 255
  const CMD_DIAL: byte := 1
  const CMD_BIND: byte := 2

  datatype Error =
    | EOF
    | SocksVersion(v: byte)
    | NoAcceptableAuth
    | UnsupportVersion
    | Unauthorized
    | VersionChanged
    | TargetBlocked
    | UnsupportCommand
    | WriteFailed
    | Other(text: string)

  /** `UserGuarder.Auth`, when there is one. */
  type Guard = Option<(seq<byte>, seq<byte>) -> bool>

  datatype Call = Call(cmd: byte, addr: Addr)

  /**
   * The session's connection: bytes not yet read, bytes written, how many more writes succeed before
   * the client is gone, and the calls made to the Handler.
   */
  datatype Wire = Wire(rest: seq<byte>, out: seq<byte>, writes: nat, calls: seq<Call>)

  /** What the Handler and the network decide: errors of a dial, a bind and an accept, and two local addresses. */
  datatype Env = Env(dial: Option<Error>, bind: Option<Error>, listenAddr: Option<Addr>, accept: Option<Error>,
                     localAddr: Option<Addr>)

  // ---- Reading ----

  datatype Got<+T> = Got(value: T, rest: seq<byte>) | Stop(error: Error, rest: seq<byte>)

  /** A length byte and that many bytes. */
  function Block(s: seq<byte>): Got<seq<byte>> {
    if s == [] then Stop(EOF, [])
    else
      var n: nat := s[0];
      if |s| < 1 + n then Stop(EOF, []) else Got(s[1..1 + n], s[1 + n..])
  }

  function HandShake(s: seq<byte>): Got<seq<byte>> {
    if s == [] then Stop(EOF, [])
    else if s[0] != VERSION then Stop(SocksVersion(s[0]), s[1..])
    else Block(s[1..])
  }

  function Credentials(s: seq<byte>): Got<(seq<byte>, seq<byte>)> {
    if s == [] then Stop(EOF, [])
    else if s[0] != 1 then Stop(UnsupportVersion, s[1..])
    else
      match Block(s[1..])
      case Stop(e, r) => Stop(e, r)
      case Got(id, r) =>
        match Block(r)
        case Stop(e, r) => Stop(e, r)
        case Got(pw, r) => Got((id, pw), r)
  }

  function Request(s: seq<byte>): Got<Call> {
    if s == [] then Stop(EOF, [])
    else if s[0] != VERSION then Stop(VersionChanged, s[1..])
    else if |s| < 3 then Stop(EOF, [])
    else
      var r := ReadAddr(Addr(0, [], 0), s[3..]);
      match r.outcome
      case Success => Got(Call(s[1], r.addr), s[3..][r.n..])
      case EndOfFile => Stop(EOF, s[3..][r.n..])
      case Unsupported => Stop(UnsupportVersion, s[3..][r.n..])
  }

  // ---- Writing ----

  function Put(w: Wire, bytes: seq<byte>): Wire {
    if w.writes == 0 then w else w.(out := w.out + bytes, writes := w.writes - 1)
  }

  /** The reply header and the address are two writes. */
  function Respond(w: Wire, status: byte, addr: Option<Addr>): (Wire, Option<Error>) {
    if w.writes == 0 then (w, Some(WriteFailed)) else
    var v := Put(w, [VERSION, status, 0]);
    match Marshal(addr)
    case Bytes(bytes) => if v.writes == 0 then (v, Some(WriteFailed)) else (Put(v, bytes), None)
    case _ => (v, Some(UnsupportVersion))
  }

  /** `strings.Contains`. */
  predicate Mentions(text: string, word: string) {
    word <= text || (text != "" && Mentions(text[1..], word))
  }

  /** The status byte `sendErrorResponse` picks; an unsupported address type reports as such. */
  function StatusOf(e: Error): byte {
    match e
    case UnsupportVersion => 8
    case UnsupportCommand => 7
    case TargetBlocked => 2
    case Other(text) =>
      if Mentions(text, "refused") then 5
      else if Mentions(text, "unreachable") then (if Mentions(text, "network") then 3 else 4)
      else if Mentions(text, "blocked") || Mentions(text, "not allowed") then 2
      else 1
    case _ => 1
  }

  // ---- tryAuth and Handle ----

  datatype Auth = Auth(w: Wire, ok: bool, error: Option<Error>)

  function TryAuth(guard: Guard, w: Wire, method_: byte): Auth {
    if method_ == NO_AUTH then
      if w.writes == 0 then Auth(w, false, Some(WriteFailed)) else Auth(Put(w, [VERSION, method_]), true, None)
    else if method_ == USER_AUTH && guard.Some? then
      match Credentials(w.rest)
      case Stop(e, r) => Auth(w.(rest := r), e == UnsupportVersion, Some(e))
      case Got((id, pw), r) =>
        var v := w.(rest := r);
        if v.writes == 0 then Auth(v, false, Some(WriteFailed))
        else if guard.value(id, pw) then Auth(Put(v, [1, 0]), true, None)
        else Auth(Put(v, [1, 255]), true, Some(Unauthorized))
    else Auth(w, false, None)
  }

  /** The loop over the offered methods. */
  function AuthLoop(guard: Guard, w: Wire, methods: seq<byte>): Auth {
    if methods == [] then Auth(w, false, None) else
    var r := TryAuth(guard, w, methods[0]);
    if r.error.Some? || r.ok then r else AuthLoop(guard, r.w, methods[1..])
  }

  /** `relaying` tells that the session went on to copy the remaining bytes in both directions. */
  datatype End = End(w: Wire, error: Option<Error>, relaying: bool)

  function FailWith(w: Wire, e: Error): End { var (v, err) := Respond(w, StatusOf(e), None); End(v, err, false) }

  function Perform(env: Env, w: Wire, call: Call): End {
    if call.cmd == CMD_DIAL then
      var v := w.(calls := w.calls + [call]);
      if env.dial.Some? then FailWith(v, env.dial.value) else
      var (u, err) := Respond(v, 0, None);
      End(u, err, err.None?)
    else if call.cmd == CMD_BIND then
      var v := w.(calls := w.calls + [call]);
      if env.bind.Some? then FailWith(v, env.bind.value) else
      var (u, err) := Respond(v, 0, env.listenAddr);
      if err.Some? then End(u, err, false)
      else if env.accept.Some? then FailWith(u, env.accept.value)
      else var (t, err) := Respond(u, 0, env.localAddr); End(t, err, err.None?)
    else var (u, err) := Respond(w, 7, None); End(u, err, false)
  }

  /** Handshake and authentication: the session goes on with a request, or is over. */
  datatype Stage = Open(w: Wire) | Over(end: End)

  function Login(guard: Guard, w: Wire): Stage {
    match HandShake(w.rest)
    case Stop(e, r) => Over(End(w.(rest := r), Some(e), false))
    case Got(methods, r) =>
      var a := AuthLoop(guard, w.(rest := r), methods);
      if a.error.Some? then Over(End(a.w, a.error, false))
      else if a.ok then Open(a.w)
      else
        Over(End(Put(a.w, [VERSION, NO_ACCEPTABLE]),
                 Some(if a.w.writes == 0 then WriteFailed else NoAcceptableAuth), false))
  }

  function Answer(env: Env, w: Wire): End {
    match Request(w.rest)
    case Stop(e, r) => FailWith(w.(rest := r), e)
    case Got(call, r) => Perform(env, w.(rest := r), call)
  }

  function Handle(guard: Guard, env: Env, w: Wire): End {
    match Login(guard, w)
    case Over(end) => end
    case Open(v) => Answer(env, v)
  }

  // ---- Well-formed transcripts ----

  /** Methods offered, credentials if asked for, and the request. */
  datatype Transcript = Transcript(
    methods: seq<byte>,
    creds: Option<(seq<byte>, seq<byte>)>,
    reserved: byte,
    call: Call)

  predicate Acceptable(guard: Guard, m: byte) { m == NO_AUTH || (m == USER_AUTH && guard.Some?) }

  /** The first acceptable method in the client's order. */
  function Selected(guard: Guard, methods: seq<byte>): Option<byte> {
    if methods == [] then None
    else if Acceptable(guard, methods[0]) then Some(methods[0])
    else Selected(guard, methods[1..])
  }

  /** The selected method succeeds: nothing to show, or credentials the guarder accepts. */
  predicate Admitted(guard: Guard, methods: seq<byte>, creds: Option<(seq<byte>, seq<byte>)>) {
    |methods| <= 255 &&
    match Selected(guard, methods)
    case None => false
    case Some(m) => Shown(guard, m, creds)
  }

  /** What an acceptable method wants to see. */
  predicate Shown(guard: Guard, m: byte, creds: Option<(seq<byte>, seq<byte>)>) {
    if m == NO_AUTH then creds.None?
    else creds.Some? && |creds.value.0| <= 255 && |creds.value.1| <= 255
         && guard.Some? && guard.value(creds.value.0, creds.value.1)
  }

  /** A client that is admitted and makes a request. */
  predicate Valid(guard: Guard, t: Transcript) {
    Admitted(guard, t.methods, t.creds) && WellFormed(t.call.addr)
  }

  function BlockOf(data: seq<byte>): seq<byte>
    requires |data| <= 255
  {
    [|data|] + data
  }

  function CredentialBytes(creds: Option<(seq<byte>, seq<byte>)>): seq<byte>
    requires creds.Some? ==> |creds.value.0| <= 255 && |creds.value.1| <= 255
  {
    if creds.None? then [] else [1] + BlockOf(creds.value.0) + BlockOf(creds.value.1)
  }

  function LoginBytes(guard: Guard, methods: seq<byte>, creds: Option<(seq<byte>, seq<byte>)>): seq<byte>
    requires Admitted(guard, methods, creds)
  {
    [VERSION] + BlockOf(methods) + CredentialBytes(creds)
  }

  function RequestBytes(reserved: byte, call: Call): seq<byte>
    requires WellFormed(call.addr)
  {
    [VERSION, call.cmd, reserved] + Encode(call.addr)
  }

  function Spoken(guard: Guard, t: Transcript): seq<byte>
    requires Valid(guard, t)
  {
    LoginBytes(guard, t.methods, t.creds) + RequestBytes(t.reserved, t.call)
  }

  // ---- Parsing what was spoken ----

  lemma BlockReads(data: seq<byte>, tail: seq<byte>)
    requires |data| <= 255
    ensures Block(BlockOf(data) + tail) == Got(data, tail)
  {
    var s := BlockOf(data) + tail;
    assert s[1..1 + |data|] == data && s[1 + |data|..] == tail;
  }

  lemma BlockSpoken(s: seq<byte>)
    requires Block(s).Got?
    ensures |Block(s).value| <= 255 && s == BlockOf(Block(s).value) + Block(s).rest
  {
    assert s == [s[0]] + s[1..1 + s[0]] + s[1 + s[0]..];
  }

  lemma CredentialsRead(id: seq<byte>, pw: seq<byte>, tail: seq<byte>)
    requires |id| <= 255 && |pw| <= 255
    ensures Credentials([1] + BlockOf(id) + BlockOf(pw) + tail) == Got((id, pw), tail)
  {
    var s := [1] + BlockOf(id) + BlockOf(pw) + tail;
    assert s[1..] == BlockOf(id) + (BlockOf(pw) + tail);
    BlockReads(id, BlockOf(pw) + tail);
    BlockReads(pw, tail);
  }

  lemma CredentialsSpoken(s: seq<byte>)
    requires Credentials(s).Got?
    ensures var (id, pw) := Credentials(s).value;
            |id| <= 255 && |pw| <= 255 && s == [1] + BlockOf(id) + BlockOf(pw) + Credentials(s).rest
  {
    BlockSpoken(s[1..]);
    BlockSpoken(Block(s[1..]).rest);
    assert s == [s[0]] + s[1..];
  }

  lemma RequestReads(reserved: byte, call: Call, tail: seq<byte>)
    requires WellFormed(call.addr)
    ensures Request(RequestBytes(reserved, call) + tail) == Got(call, tail)
  {
    var s := RequestBytes(reserved, call) + tail;
    assert s[3..] == Encode(call.addr) + tail;
    AddrRoundTrip(Addr(0, [], 0), call.addr, tail);
    assert s[3..][|Encode(call.addr)|..] == tail;
  }

  lemma RequestSpoken(s: seq<byte>)
    requires Request(s).Got?
    ensures var call := Request(s).value;
            WellFormed(call.addr) && s == RequestBytes(s[2], call) + Request(s).rest
  {
    ReadIsEncoding(Addr(0, [], 0), s[3..]);
    Cut3(s, ReadAddr(Addr(0, [], 0), s[3..]).n);
  }

  lemma Cut3(s: seq<byte>, n: nat)
    requires 3 + n <= |s|
    ensures s == [s[0], s[1], s[2]] + s[3..][..n] + s[3..][n..]
  {
  }

  // ---- The first acceptable method decides ----

  /** The loop skips to the selected method and does what that one does. */
  lemma {:induction false} LoopSelects(guard: Guard, w: Wire, methods: seq<byte>)
    ensures AuthLoop(guard, w, methods) ==
            match Selected(guard, methods)
            case None => Auth(w, false, None)
            case Some(m) => TryAuth(guard, w, m)
  {
    if methods != [] && !Acceptable(guard, methods[0]) { LoopSelects(guard, w, methods[1..]); }
  }

  predicate ToHandler(cmd: byte) { cmd == CMD_DIAL || cmd == CMD_BIND }

  lemma HandShakeReads(methods: seq<byte>, tail: seq<byte>)
    requires |methods| <= 255
    ensures HandShake([VERSION] + BlockOf(methods) + tail) == Got(methods, tail)
  {
    var s := [VERSION] + BlockOf(methods) + tail;
    assert s[1..] == BlockOf(methods) + tail;
    BlockReads(methods, tail);
  }

  lemma HandShakeSpoken(s: seq<byte>)
    requires HandShake(s).Got?
    ensures |HandShake(s).value| <= 255 && s == [VERSION] + BlockOf(HandShake(s).value) + HandShake(s).rest
  {
    BlockSpoken(s[1..]);
    assert s == [s[0]] + s[1..];
  }

  /** What a client that is admitted has been sent: the chosen method or the verdict on its credentials. */
  function Welcome(creds: Option<(seq<byte>, seq<byte>)>): seq<byte> {
    if creds.None? then [VERSION, NO_AUTH] else [1, 0]
  }

  lemma LoginAnswers(guard: Guard, w: Wire, methods: seq<byte>, creds: Option<(seq<byte>, seq<byte>)>, tail: seq<byte>)
    requires Admitted(guard, methods, creds) && w.writes > 0 && w.rest == LoginBytes(guard, methods, creds) + tail
    ensures Login(guard, w) == Open(Put(w, Welcome(creds)).(rest := tail))
  {
    var after := CredentialBytes(creds) + tail;
    Join([VERSION] + BlockOf(methods), CredentialBytes(creds), tail);
    HandShakeReads(methods, after);
    SelectedAcceptable(guard, methods);
    TryAnswers(guard, w.(rest := after), Selected(guard, methods).value, creds, tail);
    LoginOpens(guard, w, methods, after);
    assert w.(rest := after).(rest := tail) == w.(rest := tail);
  }

  /** A login opens with what the selected method leaves, if that succeeds. */
  lemma LoginOpens(guard: Guard, w: Wire, methods: seq<byte>, after: seq<byte>)
    requires HandShake(w.rest) == Got(methods, after) && Selected(guard, methods).Some?
    ensures var a := TryAuth(guard, w.(rest := after), Selected(guard, methods).value);
            a.ok && a.error.None? ==> Login(guard, w) == Open(a.w)
  {
    LoopSelects(guard, w.(rest := after), methods);
  }

  lemma TryAnswers(guard: Guard, w: Wire, m: byte, creds: Option<(seq<byte>, seq<byte>)>, tail: seq<byte>)
    requires Acceptable(guard, m) && Shown(guard, m, creds) && w.writes > 0 && w.rest == CredentialBytes(creds) + tail
    ensures TryAuth(guard, w, m) == Auth(Put(w, Welcome(creds)).(rest := tail), true, None)
  {
    if creds.Some? {
      CredentialsRead(creds.value.0, creds.value.1, tail);
    } else {
      assert w.rest == tail;
    }
  }

  lemma TrySpoken(guard: Guard, w: Wire, m: byte) returns (creds: Option<(seq<byte>, seq<byte>)>)
    requires Acceptable(guard, m) && TryAuth(guard, w, m).ok && TryAuth(guard, w, m).error.None?
    ensures Shown(guard, m, creds) && w.writes > 0 && TryAuth(guard, w, m).w.calls == w.calls
    ensures w.rest == CredentialBytes(creds) + TryAuth(guard, w, m).w.rest
  {
    creds := None;
    if m == NO_AUTH {
      assert w.rest == [] + w.rest;
    } else {
      CredentialsSpoken(w.rest);
      creds := Some(Credentials(w.rest).value);
    }
  }

  lemma {:induction false} SelectedAcceptable(guard: Guard, methods: seq<byte>)
    ensures Selected(guard, methods).Some? ==> Acceptable(guard, Selected(guard, methods).value)
  {
    if methods != [] { SelectedAcceptable(guard, methods[1..]); }
  }

  lemma LoginSpoken(guard: Guard, w: Wire) returns (methods: seq<byte>, creds: Option<(seq<byte>, seq<byte>)>)
    requires Login(guard, w).Open?
    ensures Admitted(guard, methods, creds) && w.writes > 0 && Login(guard, w).w.calls == w.calls
    ensures w.rest == LoginBytes(guard, methods, creds) + Login(guard, w).w.rest
  {
    var v := w.(rest := HandShake(w.rest).rest);
    methods := HandShake(w.rest).value;
    HandShakeSpoken(w.rest);
    LoopSelects(guard, v, methods);
    SelectedAcceptable(guard, methods);
    creds := TrySpoken(guard, v, Selected(guard, methods).value);
  }

  /** Without an admitted login no call is made. */
  lemma LoginMakesNoCall(guard: Guard, w: Wire)
    ensures (if Login(guard, w).Open? then Login(guard, w).w else Login(guard, w).end.w).calls == w.calls
  {
    if HandShake(w.rest).Got? {
      LoopSelects(guard, w.(rest := HandShake(w.rest).rest), HandShake(w.rest).value);
    }
  }

  /** Requests to dial or bind are the ones passed on, once; nothing of the stream is taken meanwhile. */
  lemma PerformEffect(env: Env, w: Wire, call: Call)
    ensures Perform(env, w, call).w.rest == w.rest
    ensures Perform(env, w, call).w.calls == w.calls + (if ToHandler(call.cmd) then [call] else [])
  {
    assert w.calls + [] == w.calls;
  }

  /** A valid transcript is welcomed and its request performed on the bytes behind it. */
  lemma SpokenIsPerformed(guard: Guard, env: Env, w: Wire, t: Transcript, tail: seq<byte>)
    requires Valid(guard, t) && w.writes > 0 && w.rest == Spoken(guard, t) + tail
    ensures Handle(guard, env, w) == Perform(env, Put(w, Welcome(t.creds)).(rest := tail), t.call)
  {
    var request := RequestBytes(t.reserved, t.call) + tail;
    Join(LoginBytes(guard, t.methods, t.creds), RequestBytes(t.reserved, t.call), tail);
    LoginAnswers(guard, w, t.methods, t.creds, request);
    RequestReads(t.reserved, t.call, tail);
  }

  /** A client that speaks a valid transcript reaches the Handler with its own address; the rest is the relay's. */
  lemma SpokenIsHandled(guard: Guard, env: Env, w: Wire, t: Transcript, tail: seq<byte>)
    requires Valid(guard, t) && ToHandler(t.call.cmd) && w.writes > 0 && w.rest == Spoken(guard, t) + tail
    ensures Handle(guard, env, w).w.calls == w.calls + [t.call] && Handle(guard, env, w).w.rest == tail
  {
    SpokenIsPerformed(guard, env, w, t, tail);
    PerformEffect(env, Put(w, Welcome(t.creds)).(rest := tail), t.call);
  }

  /** Conversely, whenever the Handler is called the client has spoken a valid transcript. */
  lemma HandledWasSpoken(guard: Guard, env: Env, w: Wire) returns (t: Transcript)
    requires Handle(guard, env, w).w.calls != w.calls
    ensures Valid(guard, t) && ToHandler(t.call.cmd) && w.writes > 0
    ensures w.rest == Spoken(guard, t) + Handle(guard, env, w).w.rest
    ensures Handle(guard, env, w).w.calls == w.calls + [t.call]
  {
    LoginMakesNoCall(guard, w);
    var v := Login(guard, w).w;
    var methods, creds := LoginSpoken(guard, w);
    var reserved, call := AnswerSpoken(env, v);
    t := Transcript(methods, creds, reserved, call);
    Join(LoginBytes(guard, methods, creds), RequestBytes(reserved, call), Answer(env, v).w.rest);
  }

  lemma Join(a: seq<byte>, b: seq<byte>, c: seq<byte>)
    ensures a + (b + c) == a + b + c
  {
  }

  /** A call after the login was asked for by a request that the stream begins with. */
  lemma AnswerSpoken(env: Env, w: Wire) returns (reserved: byte, call: Call)
    requires Answer(env, w).w.calls != w.calls
    ensures WellFormed(call.addr) && ToHandler(call.cmd)
    ensures w.rest == RequestBytes(reserved, call) + Answer(env, w).w.rest
    ensures Answer(env, w).w.calls == w.calls + [call]
  {
    RequestSpoken(w.rest);
    reserved, call := w.rest[2], Request(w.rest).value;
    PerformEffect(env, w.(rest := Request(w.rest).rest), call);
  }

  /** For every byte stream the Handler is called at most once, and exactly when a valid transcript begins it. */
  lemma HandlerCalledExactly(guard: Guard, env: Env, w: Wire)
    requires w.calls == []
    ensures |Handle(guard, env, w).w.calls| <= 1
    ensures Handle(guard, env, w).w.calls != [] <==>
              w.writes > 0 && exists t :: Valid(guard, t) && ToHandler(t.call.cmd) && Spoken(guard, t) <= w.rest
  {
    if Handle(guard, env, w).w.calls != [] {
      var t := HandledWasSpoken(guard, env, w);
    } else if w.writes > 0 {
      if t :| Valid(guard, t) && ToHandler(t.call.cmd) && Spoken(guard, t) <= w.rest {
        PrefixIsHandled(guard, env, w, t);
      }
    }
  }

  lemma PrefixIsHandled(guard: Guard, env: Env, w: Wire, t: Transcript)
    requires Valid(guard, t) && ToHandler(t.call.cmd) && w.writes > 0 && Spoken(guard, t) <= w.rest
    ensures Handle(guard, env, w).w.calls == w.calls + [t.call]
  {
    var tail := w.rest[|Spoken(guard, t)|..];
    assert w.rest == Spoken(guard, t) + tail;
    SpokenIsHandled(guard, env, w, t, tail);
  }
}
