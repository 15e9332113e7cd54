/** What a SOCKS5 client is sent in reply, octet by octet (section 6 of RFC 1928, section 2 of RFC 1929). */
module Socks5Replies {
  import opened Basics
  import opened Socks5Addr
  import opened Socks5Session

  // ---- Which status an error is reported with ----

  predicate WordAt(text: string, word: string, i: nat) { i + |word| <= |text| && text[i..i + |word|] == word }

  ghost predicate HasWord(text: string, word: string) { exists i: nat :: WordAt(text, word, i) }

  lemma {:induction false} MentionsExactly(text: string, word: string)
    ensures Mentions(text, word) <==> HasWord(text, word)
  {
    if word <= text {
      assert WordAt(text, word, 0);
    } else if text != "" {
      MentionsExactly(text[1..], word);
      if i: nat :| WordAt(text, word, i) {
        assert i > 0;
        assert text[1..][i - 1..i - 1 + |word|] == text[i..i + |word|];
        assert WordAt(text[1..], word, i - 1);
      }
      if i: nat :| WordAt(text[1..], word, i) {
        assert text[1..][i..i + |word|] == text[i + 1..i + 1 + |word|];
        assert WordAt(text, word, i + 1);
      }
    }
  }

  /** The sentinel errors first; then, in this order, what the text says. */
  ghost predicate Reports(e: Error, status: byte) {
    match e
    case UnsupportVersion => status == 8
    case UnsupportCommand => status == 7
    case TargetBlocked => status == 2
    case Other(text) =>
      && (status == 5 <==> HasWord(text, "refused"))
      && (status == 3 <==> !HasWord(text, "refused") && HasWord(text, "unreachable") && HasWord(text, "network"))
      && (status == 4 <==> !HasWord(text, "refused") && HasWord(text, "unreachable") && !HasWord(text, "network"))
      && (status == 2 <==> !HasWord(text, "refused") && !HasWord(text, "unreachable")
                           && (HasWord(text, "blocked") || HasWord(text, "not allowed")))
      && status in {1, 2, 3, 4, 5}
    case _ => status == 1
  }

  /** An error is reported with exactly one status, never the one that grants a request. */
  lemma StatusReports(e: Error, status: byte)
    ensures Reports(e, status) <==> status == StatusOf(e)
    ensures Reports(e, status) ==> status != 0
  {
    if e.Other? { WordsMentioned(e.text); }
  }

  lemma WordsMentioned(text: string)
    ensures forall word | word in ["refused", "unreachable", "network", "blocked", "not allowed"] ::
              Mentions(text, word) <==> HasWord(text, word)
  {
    forall word | word in ["refused", "unreachable", "network", "blocked", "not allowed"]
      ensures Mentions(text, word) <==> HasWord(text, word)
    {
      MentionsExactly(text, word);
    }
  }

  // ---- Replies ----

  const NIL_ADDR: seq<byte> := [1, 0, 0, 0, 0, 0, 0]

  ghost predicate Granted(reply: seq<byte>, addr: Option<Addr>) {
    match addr
    case None => reply == [5, 0, 0] + NIL_ADDR
    case Some(a) => WellFormed(a) && reply == [5, 0, 0] + Encode(a)
  }

  ghost predicate Failure(reply: seq<byte>, e: Error) {
    exists status :: Reports(e, status) && status != 0 && reply == [5, status, 0] + NIL_ADDR
  }

  /** The reply to a request that was performed, and whether the connection is relayed afterwards. */
  ghost predicate Answers(env: Env, cmd: byte, reply: seq<byte>, relaying: bool) {
    if cmd == 1 then
      if env.dial.Some? then Failure(reply, env.dial.value) && !relaying else Granted(reply, None) && relaying
    else if cmd == 2 then
      if env.bind.Some? then Failure(reply, env.bind.value) && !relaying
      else exists first, second :: reply == first + second && BindAnswers(env, first, second, relaying)
    else reply == [5, 7, 0] + NIL_ADDR && !relaying
  }

  ghost predicate BindAnswers(env: Env, first: seq<byte>, second: seq<byte>, relaying: bool) {
    && Granted(first, env.listenAddr)
    && (if env.accept.Some? then Failure(second, env.accept.value) && !relaying
        else Granted(second, env.localAddr) && relaying)
  }

  predicate Sendable(addr: Option<Addr>) { addr.Some? ==> WellFormed(addr.value) }

  lemma RespondGrants(w: Wire, addr: Option<Addr>) returns (reply: seq<byte>)
    requires w.writes >= 2 && Sendable(addr)
    ensures Granted(reply, addr)
    ensures Respond(w, 0, addr) == (w.(out := w.out + reply, writes := w.writes - 2), None)
  {
    if addr.Some? { MarshalWellFormed(addr.value); }
    var bytes := Marshal(addr).bytes;
    reply := [5, 0, 0] + bytes;
    assert w.out + [5, 0, 0] + bytes == w.out + reply;
  }

  lemma FailReports(w: Wire, e: Error) returns (reply: seq<byte>)
    requires w.writes >= 2
    ensures Failure(reply, e) && FailWith(w, e) == End(w.(out := w.out + reply, writes := w.writes - 2), None, false)
  {
    var status := StatusOf(e);
    StatusReports(e, status);
    reply := [5, status, 0] + NIL_ADDR;
    assert w.out + [5, status, 0] + NIL_ADDR == w.out + reply;
  }

  lemma DialAnswers(env: Env, w: Wire, call: Call) returns (reply: seq<byte>)
    requires w.writes >= 2 && call.cmd == 1
    ensures Answers(env, 1, reply, Perform(env, w, call).relaying)
    ensures Perform(env, w, call).w.out == w.out + reply && Perform(env, w, call).error.None?
  {
    var v := w.(calls := w.calls + [call]);
    if env.dial.Some? { reply := FailReports(v, env.dial.value); } else { reply := RespondGrants(v, None); }
  }

  lemma BindOpens(env: Env, w: Wire, call: Call) returns (first: seq<byte>, second: seq<byte>)
    requires w.writes >= 4 && call.cmd == 2 && env.bind.None? && Sendable(env.listenAddr) && Sendable(env.localAddr)
    ensures var end := Perform(env, w, call);
            && BindAnswers(env, first, second, end.relaying)
            && end.w.out == w.out + first + second && end.error.None?
  {
    var v := w.(calls := w.calls + [call]);
    first := RespondGrants(v, env.listenAddr);
    var u := v.(out := v.out + first, writes := v.writes - 2);
    if env.accept.Some? {
      second := FailReports(u, env.accept.value);
    } else {
      second := RespondGrants(u, env.localAddr);
    }
  }

  lemma BindAnswered(env: Env, w: Wire, call: Call) returns (reply: seq<byte>)
    requires w.writes >= 4 && call.cmd == 2 && Sendable(env.listenAddr) && Sendable(env.localAddr)
    ensures Answers(env, 2, reply, Perform(env, w, call).relaying)
    ensures Perform(env, w, call).w.out == w.out + reply && Perform(env, w, call).error.None?
  {
    if env.bind.Some? {
      reply := BindFails(env, w, call);
    } else {
      var first, second := BindOpens(env, w, call);
      reply := first + second;
      JoinBytes(w.out, first, second);
    }
  }

  lemma JoinBytes(a: seq<byte>, b: seq<byte>, c: seq<byte>)
    ensures a + b + c == a + (b + c)
  {
  }

  lemma BindFails(env: Env, w: Wire, call: Call) returns (reply: seq<byte>)
    requires w.writes >= 2 && call.cmd == 2 && env.bind.Some?
    ensures Failure(reply, env.bind.value) && Perform(env, w, call).w.out == w.out + reply
    ensures !Perform(env, w, call).relaying && Perform(env, w, call).error.None?
  {
    reply := FailReports(w.(calls := w.calls + [call]), env.bind.value);
  }

  lemma OtherAnswers(env: Env, w: Wire, call: Call) returns (reply: seq<byte>)
    requires w.writes >= 2 && call.cmd != 1 && call.cmd != 2
    ensures Answers(env, call.cmd, reply, Perform(env, w, call).relaying)
    ensures Perform(env, w, call).w.out == w.out + reply && Perform(env, w, call).error.None?
  {
    reply := [5, 7, 0] + NIL_ADDR;
    assert w.out + [5, 7, 0] + NIL_ADDR == w.out + reply;
  }

  /**
   * A client with a valid transcript that stays to be answered is sent the welcome and the reply its
   * command and the outcomes call for, and nothing else; exactly granted requests are relayed.
   */
  lemma SpokenIsAnswered(guard: Guard, env: Env, w: Wire, t: Transcript, tail: seq<byte>) returns (reply: seq<byte>)
    requires Valid(guard, t) && w.rest == Spoken(guard, t) + tail && w.writes >= (if t.call.cmd == 2 then 5 else 3)
    requires t.call.cmd == 2 ==> Sendable(env.listenAddr) && Sendable(env.localAddr)
    ensures var end := Handle(guard, env, w);
            && end.w.out == w.out + (if t.creds.None? then [5, 0] else [1, 0]) + reply
            && Answers(env, t.call.cmd, reply, end.relaying) && end.error.None?
  {
    SpokenIsPerformed(guard, env, w, t, tail);
    var v := Put(w, Welcome(t.creds)).(rest := tail);
    if t.call.cmd == 1 {
      reply := DialAnswers(env, v, t.call);
    } else if t.call.cmd == 2 {
      reply := BindAnswered(env, v, t.call);
    } else {
      reply := OtherAnswers(env, v, t.call);
    }
  }

  /** An admitted client whose request cannot be read is told so, and no call is made. */
  lemma UnreadIsReported(guard: Guard, env: Env, w: Wire) returns (reply: seq<byte>)
    requires Login(guard, w).Open? && Request(Login(guard, w).w.rest).Stop? && Login(guard, w).w.writes >= 2
    ensures var v, end := Login(guard, w).w, Handle(guard, env, w);
            && Failure(reply, Request(v.rest).error) && end.w.out == v.out + reply && end.w.calls == w.calls
  {
    LoginMakesNoCall(guard, w);
    var v := Login(guard, w).w;
    reply := FailReports(v.(rest := Request(v.rest).rest), Request(v.rest).error);
  }

  /** An unknown address type is reported as such, a changed version as a general failure. */
  lemma UnreadStatus(s: seq<byte>)
    ensures |s| >= 4 && s[0] == 5 && s[3] !in {1, 3, 4} ==> Request(s).Stop? && Reports(Request(s).error, 8)
    ensures |s| >= 1 && s[0] != 5 ==> Request(s).Stop? && Reports(Request(s).error, 1)
    ensures s == [] ==> Request(s).Stop? && Reports(Request(s).error, 1)
  {
  }

  // ---- Clients that are not admitted ----

  lemma GreetingReads(guard: Guard, w: Wire, methods: seq<byte>, tail: seq<byte>)
    requires |methods| <= 255 && w.rest == [5] + BlockOf(methods) + tail
    ensures HandShake(w.rest) == Got(methods, tail)
    ensures AuthLoop(guard, w.(rest := tail), methods) ==
            match Selected(guard, methods)
            case None => Auth(w.(rest := tail), false, None)
            case Some(m) => TryAuth(guard, w.(rest := tail), m)
  {
    HandShakeReads(methods, tail);
    LoopSelects(guard, w.(rest := tail), methods);
  }

  /** Without an acceptable method the client is told so, and the session is over. */
  lemma NoMethodIsRefused(guard: Guard, env: Env, w: Wire, methods: seq<byte>, tail: seq<byte>)
    requires |methods| <= 255 && w.rest == [5] + BlockOf(methods) + tail && w.writes > 0
    requires forall m | m in methods :: m != 0 && (m != 2 || guard.None?)
    ensures var end := Handle(guard, env, w);
            end.w == Wire(tail, w.out + [5, 255], w.writes - 1, w.calls) && end.error == Some(NoAcceptableAuth)
  {
    GreetingReads(guard, w, methods, tail);
    NoneSelected(guard, methods);
  }

  lemma {:induction false} NoneSelected(guard: Guard, methods: seq<byte>)
    requires forall m | m in methods :: m != 0 && (m != 2 || guard.None?)
    ensures Selected(guard, methods).None?
  {
    if methods != [] {
      assert methods[0] in methods;
      assert forall m | m in methods[1..] :: m in methods;
      NoneSelected(guard, methods[1..]);
    }
  }

  /** Credentials the guarder turns down are answered by a failure, and the session is over. */
  lemma WrongPasswordIsRefused(guard: Guard, env: Env, w: Wire, methods: seq<byte>, id: seq<byte>, pw: seq<byte>,
                               tail: seq<byte>)
    requires |methods| <= 255 && |id| <= 255 && |pw| <= 255 && w.writes > 0
    requires Selected(guard, methods) == Some(2) && guard.Some? && !guard.value(id, pw)
    requires w.rest == [5] + BlockOf(methods) + ([1] + BlockOf(id) + BlockOf(pw) + tail)
    ensures var end := Handle(guard, env, w);
            end.w == Wire(tail, w.out + [1, 255], w.writes - 1, w.calls) && end.error == Some(Unauthorized)
  {
    GreetingReads(guard, w, methods, [1] + BlockOf(id) + BlockOf(pw) + tail);
    CredentialsRead(id, pw, tail);
  }

  /** Credentials of another version get no answer. */
  lemma BadCredentialsAreDropped(guard: Guard, env: Env, w: Wire, methods: seq<byte>, version: byte, tail: seq<byte>)
    requires |methods| <= 255 && Selected(guard, methods) == Some(2) && guard.Some? && version != 1
    requires w.rest == [5] + BlockOf(methods) + ([version] + tail)
    ensures Handle(guard, env, w) == End(w.(rest := tail), Some(UnsupportVersion), false)
    ensures TryAuth(guard, w.(rest := [version] + tail), 2) == Auth(w.(rest := tail), true, Some(UnsupportVersion))
  {
    GreetingReads(guard, w, methods, [version] + tail);
    assert ([version] + tail)[1..] == tail;
  }

  /** Another protocol version gets no answer at all. */
  lemma OtherVersionIsDropped(guard: Guard, env: Env, w: Wire)
    requires w.rest != [] && w.rest[0] != 5
    ensures Handle(guard, env, w) == End(w.(rest := w.rest[1..]), Some(SocksVersion(w.rest[0])), false)
  {
  }

  // ---- Octets ----

  /** The octets of a dial without authentication. */
  lemma DialOctets(guard: Guard, methods: seq<byte>, call: Call)
    requires methods == [0] && call == Call(1, Addr(1, [127, 0, 0, 1], 443))
    ensures var t := Transcript(methods, None, 0, call);
            Valid(guard, t) && Spoken(guard, t) == [5, 1, 0] + [5, 1, 0, 1, 127, 0, 0, 1, 1, 187]
  {
    assert Encode(call.addr) == [1, 127, 0, 0, 1, 1, 187];
    assert LoginBytes(guard, methods, None) == [5, 1, 0];
  }

  /** The octets of a bind to the domain `a.b` behind a password, the second method offered. */
  lemma BindOctets(guard: Guard, methods: seq<byte>, id: seq<byte>, pw: seq<byte>, call: Call)
    requires methods == [1, 2] && id == [117] && pw == [112] && guard.Some? && guard.value(id, pw)
    requires call == Call(2, Addr(3, [97, 46, 98], 80))
    ensures var t := Transcript(methods, Some((id, pw)), 0, call);
            && Valid(guard, t)
            && Spoken(guard, t) == [5, 2, 1, 2] + [1, 1, 117, 1, 112] + [5, 2, 0, 3, 3, 97, 46, 98, 0, 80]
  {
    assert methods[1..] == [2] && Selected(guard, methods[1..]) == Some(2);
    assert Encode(call.addr) == [3, 3, 97, 46, 98, 0, 80];
    assert CredentialBytes(Some((id, pw))) == [1, 1, 117, 1, 112];
    assert LoginBytes(guard, methods, Some((id, pw))) == [5, 2, 1, 2] + [1, 1, 117, 1, 112];
  }
}
