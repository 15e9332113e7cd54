/**
 * What orderly runs keep: the phase of the client's one outstanding request, the words the two
 * channels may hold, and a forecast of when the server is idle and reads no old connection.
 */
module OrderlyInvariant {
  import opened Basics
  import opened Tunnel
  import opened OrderlyRun

  /** Where the client's latest request is: nowhere, on its way, or answered but not yet received. */
  datatype Phase = Rest | OpenSent | OpenAnswered | CloseSent | CloseAnswered

  /**
   * What the server looks like to a message about to be handled: it is idle; a close callback is
   * armed, so that the next bare reply makes it idle; no goroutine forwards a connection any more.
   */
  datatype Outlook = Outlook(idle: bool, armed: bool, quiet: bool)

  /** A goroutine that forwards a connection with data left, or would capture one now. */
  predicate Reader(v: Serve, ep: Endpoint, live: set<ConnId>) {
    match v
    case Serving(c) => c in live
    case Starting => ep.status == InStream && ep.streamConn.Some? && ep.streamConn.value in live
    case _ => false
  }

  predicate Quiet(goros: seq<Serve>, ep: Endpoint, live: set<ConnId>) {
    forall g | 0 <= g < |goros| :: !Reader(goros[g], ep, live)
  }

  function Now(s: System): Outlook {
    Outlook(s.server.status == Idle, s.server.onResult.Some?, Quiet(s.goros, s.server, s.live))
  }

  predicate Settled(v: Outlook) { v.idle && v.quiet }

  /** `w` promises everything `v` promises. */
  predicate Better(v: Outlook, w: Outlook) {
    (v.idle ==> w.idle) && (v.quiet ==> w.quiet) && (v.armed ==> w.armed || w.idle)
  }

  // ---- The channel to the server ----

  /** The outlook after the server has handled one message, whatever the environment decides. */
  function After(m: Tagged, v: Outlook): Outlook {
    if m.msg.Binary? then v
    else if m.msg.cmd.CloseRequest? then Outlook(true, v.armed, true)
    else if m.msg.cmd.BareReply? && v.armed then Outlook(true, false, v.quiet)
    else v
  }

  function Forecast(ch: seq<Tagged>, v: Outlook): Outlook {
    if ch == [] then v else Forecast(ch[1..], After(ch[0], v))
  }

  /** Behind an open request there are only bare replies and error notes. */
  predicate Tail(ch: seq<Tagged>) {
    forall i | 0 <= i < |ch| :: ch[i].msg.Text? && (ch[i].msg.cmd.BareReply? || ch[i].msg.cmd.ErrorNote?)
  }

  /** At most the announced request; an open request meets a settled server; data is of the open session. */
  predicate UpWord(ch: seq<Tagged>, ph: Phase, accepted: nat, v: Outlook) {
    if ch == [] then ph != OpenSent && ph != CloseSent else
    var rest, m, w := ch[1..], ch[0], After(ch[0], v);
    match m.msg
    case Binary(_) => m.sess + 1 == accepted && UpWord(rest, ph, accepted, w)
    case Text(OpenStream(_, _)) => ph == OpenSent && Settled(v) && Tail(rest)
    case Text(CloseRequest) => ph == CloseSent && UpWord(rest, Rest, accepted, w)
    case Text(BareReply) => UpWord(rest, ph, accepted, w)
    case Text(ErrorNote(_)) => UpWord(rest, ph, accepted, w)
    case Text(_) => false
  }

  // ---- The channel to the client ----

  predicate Lax(ph: Phase) { ph == OpenSent || ph == OpenAnswered }

  /** At most the announced reply; behind a dial reply, or with none expected, all data is of the open session. */
  predicate DownWord(ch: seq<Tagged>, ph: Phase, accepted: nat, v: Outlook) {
    if ch == [] then ph != OpenAnswered && ph != CloseAnswered else
    var rest, m := ch[1..], ch[0];
    match m.msg
    case Binary(_) => OfSession(m, ph, accepted) && DownWord(rest, ph, accepted, v)
    case Text(CloseRequest) => DownWord(rest, ph, accepted, v)
    case Text(Reply(ok, _)) => ph == OpenAnswered && (!ok ==> Settled(v)) && DownWord(rest, Rest, accepted, v)
    case Text(BareReply) => ph == CloseAnswered && DownWord(rest, Rest, accepted, v)
    case Text(ErrorNote(_)) => DownWord(rest, ph, accepted, v)
    case Text(_) => false
  }

  predicate OfSession(m: Tagged, ph: Phase, accepted: nat) {
    m.sess < accepted && (!Lax(ph) ==> m.sess + 1 == accepted)
  }

  // ---- The two ends ----

  ghost predicate ClientShape(s: System, ph: Phase) {
    var n := |s.log|;
    && s.client.status in {Idle, InOper, InStream} && s.client.packetConn.None?
    && (s.dialing ==> n > 0 && s.serve == Returned && !s.closeSent)
    && (Lax(ph) <==> s.dialing && s.result.None?)
    && (Lax(ph) <==> s.client.onResult.Some? && s.client.onResult.value.ToDialer?)
    && (ph == CloseSent || ph == CloseAnswered <==> s.serve.Waiting?)
    && (!s.dialing ==> s.result.None?)
    && (s.client.onResult.Some? && s.client.onResult.value.ToCloser? <==> s.serve.Closing? || s.serve.Waiting?)
    && (s.client.status == InOper ==> s.dialing)
    && (s.client.status == InStream ==> !s.dialing && n > 0 && s.client.streamConn == Some(n - 1))
    && (s.serve != Returned ==> n > 0)
    && (HasConn(s.serve) ==> s.serve.conn == n - 1)
    && (s.serve.Closing? ==> !s.serve.done)
    && (s.serve.Waiting? ==> s.closeSent)
  }

  ghost predicate ServerShape(s: System, ph: Phase) {
    && |s.log| == (if ph == OpenSent then s.accepted + 1 else s.accepted)
    && s.server.status in {Idle, InStream} && s.server.packetConn.None? && s.server.onCmdErr.None?
    && (s.server.onResult.Some? ==> s.server.onResult.value.ToCloser? && s.server.onResult.value.goroutine < |s.goros|)
    && (s.server.status == InStream ==> s.accepted > 0 && s.server.streamConn == Some(s.accepted - 1))
    && Goros(s.goros, s.accepted, s.server.streamConn, s.live)
  }

  predicate Goros(goros: seq<Serve>, accepted: nat, current: Option<ConnId>, live: set<ConnId>) {
    forall g | 0 <= g < |goros| :: Goro(goros[g], accepted, current, live)
  }

  /** Only the current connection is still forwarded. */
  predicate Goro(v: Serve, accepted: nat, current: Option<ConnId>, live: set<ConnId>) {
    && (HasConn(v) ==> v.conn < accepted)
    && (v.Serving? && v.conn in live ==> v.conn + 1 == accepted && current == Some(v.conn))
  }

  /** Once the client has left a session, the server will have left it before the next open request. */
  ghost predicate LeaveShape(s: System) {
    && (Left(s) || (!s.dialing && s.closeSent) ==> Settled(Forecast(s.toServer, Now(s))))
    && (s.result == Some(false) ==> Settled(Now(s)))
  }

  /** Out of any session, and not about to send an `X` for one. */
  predicate Left(s: System) { !s.dialing && s.client.status == Idle && !s.serve.Closing? && !s.serve.Waiting? }

  ghost predicate CoreAt(s: System, ph: Phase) {
    && ClientShape(s, ph) && ServerShape(s, ph)
    && UpWord(s.toServer, ph, s.accepted, Now(s))
    && DownWord(s.toClient, ph, s.accepted, Now(s))
  }

  ghost predicate InvAt(s: System, ph: Phase) { CoreAt(s, ph) && LeaveShape(s) }

  ghost predicate Inv(s: System) { exists ph :: InvAt(s, ph) }

  /**
   * The client takes an `X` for the end of its session while nothing on the way to the server will
   * have ended it there.
   */
  predicate Misleads(s: System, a: Action) {
    && a.ClientReceive? && s.toClient != [] && s.toClient[0].msg == Text(CloseRequest)
    && !s.dialing && !s.serve.Closing? && !s.serve.Waiting?
    && !Settled(After(Tagged(Text(BareReply), 0), Forecast(s.toServer, Now(s))))
  }

  // ---- Words under growth and change ----

  lemma {:induction false} BetterUp(ch: seq<Tagged>, ph: Phase, accepted: nat, v: Outlook, w: Outlook)
    requires UpWord(ch, ph, accepted, v) && Better(v, w)
    ensures UpWord(ch, ph, accepted, w) && Better(Forecast(ch, v), Forecast(ch, w))
  {
    if ch != [] {
      assert Better(After(ch[0], v), After(ch[0], w));
      if ch[0].msg.Text? && ch[0].msg.cmd.OpenStream? {
        BetterForecast(ch[1..], After(ch[0], v), After(ch[0], w));
      } else {
        BetterUp(ch[1..], if ch[0].msg == Text(CloseRequest) then Rest else ph, accepted,
                 After(ch[0], v), After(ch[0], w));
      }
    }
  }

  lemma {:induction false} BetterForecast(ch: seq<Tagged>, v: Outlook, w: Outlook)
    requires Better(v, w)
    ensures Better(Forecast(ch, v), Forecast(ch, w))
  {
    if ch != [] { BetterForecast(ch[1..], After(ch[0], v), After(ch[0], w)); }
  }

  lemma {:induction false} ForecastPush(ch: seq<Tagged>, m: Tagged, v: Outlook)
    ensures Forecast(ch + [m], v) == After(m, Forecast(ch, v))
  {
    if ch == [] {
      assert ch + [m] == [m];
    } else {
      assert (ch + [m])[1..] == ch[1..] + [m];
      ForecastPush(ch[1..], m, After(ch[0], v));
    }
  }

  /** A message the client may append, and the phase afterwards. */
  predicate UpMay(m: Tagged, ph: Phase, ph': Phase, accepted: nat, v: Outlook) {
    match m.msg
    case Binary(_) => !Lax(ph) && ph' == ph && m.sess + 1 == accepted
    case Text(OpenStream(_, _)) => ph == Rest && ph' == OpenSent && Settled(v)
    case Text(CloseRequest) => ph == Rest && ph' == CloseSent
    case Text(BareReply) => ph' == ph
    case Text(ErrorNote(_)) => ph' == ph
    case Text(_) => false
  }

  lemma {:induction false} UpPush(ch: seq<Tagged>, m: Tagged, ph: Phase, ph': Phase, accepted: nat, v: Outlook)
    requires UpWord(ch, ph, accepted, v) && UpMay(m, ph, ph', accepted, Forecast(ch, v))
    ensures UpWord(ch + [m], ph', accepted, v)
  {
    if ch == [] {
      assert ch + [m] == [m] && [m][1..] == [];
    } else {
      assert (ch + [m])[1..] == ch[1..] + [m];
      if !(ch[0].msg.Text? && ch[0].msg.cmd.OpenStream?) {
        if ch[0].msg == Text(CloseRequest) {
          UpPush(ch[1..], m, Rest, Rest, accepted, After(ch[0], v));
        } else {
          UpPush(ch[1..], m, ph, ph', accepted, After(ch[0], v));
        }
      }
    }
  }

  /** Phases that expect the same requests allow the same words. */
  lemma {:induction false} UpPhase(ch: seq<Tagged>, ph: Phase, ph': Phase, accepted: nat, v: Outlook)
    requires UpWord(ch, ph, accepted, v)
    requires ph != OpenSent && ph != CloseSent && ph' != OpenSent && ph' != CloseSent
    ensures UpWord(ch, ph', accepted, v)
  {
    if ch != [] { UpPhase(ch[1..], ph, ph', accepted, After(ch[0], v)); }
  }

  lemma {:induction false} TailWord(ch: seq<Tagged>, ph: Phase, accepted: nat, v: Outlook)
    requires Tail(ch) && ph != OpenSent && ph != CloseSent
    ensures UpWord(ch, ph, accepted, v)
  {
    if ch != [] { TailWord(ch[1..], ph, accepted, After(ch[0], v)); }
  }

  lemma {:induction false} BetterDown(ch: seq<Tagged>, ph: Phase, accepted: nat, v: Outlook, w: Outlook)
    requires DownWord(ch, ph, accepted, v) && Better(v, w)
    ensures DownWord(ch, ph, accepted, w)
  {
    if ch != [] { BetterDown(ch[1..], if IsReply(ch[0].msg) then Rest else ph, accepted, v, w); }
  }

  /** A message the server may append, and the phase afterwards. */
  predicate DownMay(m: Tagged, ph: Phase, ph': Phase, accepted: nat, v: Outlook) {
    match m.msg
    case Binary(_) => ph' == ph && m.sess + 1 == accepted
    case Text(CloseRequest) => ph' == ph
    case Text(BareReply) => ph == CloseSent && ph' == CloseAnswered
    case Text(ErrorNote(_)) => ph' == ph
    case Text(_) => false
  }

  lemma {:induction false} DownPush(ch: seq<Tagged>, m: Tagged, ph: Phase, ph': Phase, accepted: nat, v: Outlook)
    requires DownWord(ch, ph, accepted, v) && DownMay(m, ph, ph', accepted, v)
    ensures DownWord(ch + [m], ph', accepted, v)
  {
    if ch == [] {
      assert ch + [m] == [m] && [m][1..] == [];
    } else {
      assert (ch + [m])[1..] == ch[1..] + [m];
      if IsReply(ch[0].msg) {
        DownPush(ch[1..], m, Rest, Rest, accepted, v);
      } else {
        DownPush(ch[1..], m, ph, ph', accepted, v);
      }
    }
  }

  /** A new dial loosens what the client may still receive; answering it starts a new session. */
  lemma {:induction false} DownDial(ch: seq<Tagged>, accepted: nat, v: Outlook)
    requires DownWord(ch, Rest, accepted, v)
    ensures DownWord(ch, OpenSent, accepted, v)
  {
    if ch != [] { DownDial(ch[1..], accepted, v); }
  }

  lemma {:induction false} DownAnswer(ch: seq<Tagged>, m: Tagged, accepted: nat, v: Outlook, w: Outlook)
    requires DownWord(ch, OpenSent, accepted, v)
    requires m.msg.Text? && m.msg.cmd.Reply? && (!m.msg.cmd.ok ==> Settled(w))
    ensures DownWord(ch + [m], OpenAnswered, accepted + 1, w)
  {
    if ch == [] {
      assert ch + [m] == [m] && [m][1..] == [];
    } else {
      assert (ch + [m])[1..] == ch[1..] + [m];
      DownAnswer(ch[1..], m, accepted, v, w);
    }
  }

  lemma {:induction false} DownPhase(ch: seq<Tagged>, ph: Phase, ph': Phase, accepted: nat, v: Outlook)
    requires DownWord(ch, ph, accepted, v) && !Lax(ph) && !Lax(ph')
    requires ph != CloseAnswered && ph' != CloseAnswered
    ensures DownWord(ch, ph', accepted, v)
  {
    if ch != [] { DownPhase(ch[1..], ph, ph', accepted, v); }
  }

  // ---- The client's steps ----

  lemma DialKeeps(s: System, ph: Phase, protocol: string, target: string)
    requires InvAt(s, ph) && Enabled(s, Dial(protocol, target))
    ensures InvAt(DoDial(s, protocol, target), OpenSent)
  {
    var m := Tagged(Text(OpenStream(protocol, target)), |s.log|);
    assert DoDial(s, protocol, target).toServer == s.toServer + [m];
    UpPush(s.toServer, m, Rest, OpenSent, s.accepted, Now(s));
    DownDial(s.toClient, s.accepted, Now(s));
  }

  lemma {:induction false} SettledForecast(ch: seq<Tagged>, v: Outlook)
    requires Settled(v)
    ensures Settled(Forecast(ch, v))
  {
    if ch != [] { SettledForecast(ch[1..], After(ch[0], v)); }
  }

  lemma WakeKeeps(s: System, ph: Phase)
    requires InvAt(s, ph) && Enabled(s, Wake)
    ensures InvAt(DoWake(s), Rest)
  {
    if !s.result.value { SettledForecast(s.toServer, Now(s)); }
  }

  /** The client's answer to a close request, or its note about a broken pipe, joins the channel. */
  lemma ClientSays(s: System, t: System, ph: Phase, ph': Phase, m: Tagged)
    requires UpWord(s.toServer, ph, s.accepted, Now(s)) && t.toServer == s.toServer + [m]
    requires UpMay(m, ph, ph', s.accepted, Forecast(s.toServer, Now(s)))
    requires t.accepted == s.accepted && Now(t) == Now(s)
    ensures UpWord(t.toServer, ph', t.accepted, Now(t))
    ensures Forecast(t.toServer, Now(t)) == After(m, Forecast(s.toServer, Now(s)))
  {
    UpPush(s.toServer, m, ph, ph', s.accepted, Now(s));
    ForecastPush(s.toServer, m, Now(s));
  }

  lemma ClientGetsReply(s: System, ph: Phase, copy: Copy)
    requires InvAt(s, ph) && s.toClient != [] && IsReply(s.toClient[0].msg)
    ensures InvAt(DoClientReceive(s, copy), Rest)
  {
    var t := DoClientReceive(s, copy);
    assert t.toServer == s.toServer;
    UpPhase(s.toServer, ph, Rest, s.accepted, Now(s));
  }

  /** An `X` keeps the core; it keeps everything exactly if it does not mislead. */
  lemma ClientGetsClose(s: System, ph: Phase, copy: Copy)
    requires InvAt(s, ph) && s.toClient != [] && s.toClient[0].msg == Text(CloseRequest)
    ensures CoreAt(DoClientReceive(s, copy), ph)
    ensures LeaveShape(DoClientReceive(s, copy)) <==> !Misleads(s, ClientReceive(copy))
  {
    var t := DoClientReceive(s, copy);
    ClientSays(s, t, ph, ph, Tagged(Text(BareReply), Pred(|s.log|)));
  }

  /** Nothing in the channel takes back what the server already promises. */
  lemma {:induction false} ForecastKeeps(ch: seq<Tagged>, ph: Phase, accepted: nat, v: Outlook)
    requires UpWord(ch, ph, accepted, v)
    ensures Better(v, Forecast(ch, v))
  {
    if ch != [] {
      if ch[0].msg.Text? && ch[0].msg.cmd.OpenStream? {
        SettledForecast(ch[1..], v);
      } else {
        ForecastKeeps(ch[1..], if ch[0].msg == Text(CloseRequest) then Rest else ph, accepted, After(ch[0], v));
      }
    }
  }

  lemma ClientGetsNote(s: System, ph: Phase, copy: Copy)
    requires InvAt(s, ph) && s.toClient != [] && s.toClient[0].msg.Text? && s.toClient[0].msg.cmd.ErrorNote?
    ensures InvAt(DoClientReceive(s, copy), ph)
  {
    var t := DoClientReceive(s, copy);
    assert t.log == s.log && t.toServer == s.toServer && t.toClient == s.toClient[1..];
    assert t.client == s.client.(onCmdErr := t.client.onCmdErr) && t.serve == s.serve && t.result == s.result;
  }

  lemma ClientGetsData(s: System, ph: Phase, copy: Copy)
    requires InvAt(s, ph) && s.toClient != [] && s.toClient[0].msg.Binary?
    requires copy.Complete? || s.client.status != InStream
    ensures InvAt(DoClientReceive(s, copy), ph)
  {
    var t := DoClientReceive(s, copy);
    assert t.toServer == s.toServer && t.client == s.client && t.serve == s.serve && |t.log| == |s.log|;
  }

  lemma ClientPipeBreaks(s: System, ph: Phase, copy: Copy)
    requires InvAt(s, ph) && s.toClient != [] && s.toClient[0].msg.Binary?
    requires copy.Broken? && s.client.status == InStream && s.closeSent
    ensures InvAt(DoClientReceive(s, copy), ph)
  {
    var t := DoClientReceive(s, copy);
    assert t.serve == s.serve && t.client.onResult == s.client.onResult && |t.log| == |s.log|;
    ClientSays(s, t, ph, ph, Tagged(Text(ErrorNote(copy.error)), Pred(|s.log|)));
  }

  lemma ClientReceiveKeeps(s: System, ph: Phase, copy: Copy)
    requires InvAt(s, ph) && Enabled(s, ClientReceive(copy)) && !Misleads(s, ClientReceive(copy))
    ensures Inv(DoClientReceive(s, copy))
  {
    var m := s.toClient[0].msg;
    if IsReply(m) {
      ClientGetsReply(s, ph, copy);
    } else if m == Text(CloseRequest) {
      ClientGetsClose(s, ph, copy);
      assert InvAt(DoClientReceive(s, copy), ph);
    } else if m.Text? {
      ClientGetsNote(s, ph, copy);
    } else if copy.Broken? && s.client.status == InStream {
      ClientPipeBreaks(s, ph, copy);
    } else {
      ClientGetsData(s, ph, copy);
    }
  }

  lemma ClientStartKeeps(s: System, ph: Phase)
    requires InvAt(s, ph) && Enabled(s, ClientStart)
    ensures InvAt(DoClientStart(s), ph)
  {
  }

  lemma ClientReadKeeps(s: System, ph: Phase, data: seq<byte>)
    requires InvAt(s, ph) && Enabled(s, ClientRead(data))
    ensures InvAt(DoClientRead(s, data), ph)
  {
    ClientSays(s, DoClientRead(s, data), ph, ph, Tagged(Binary(data), s.serve.conn));
  }

  lemma ClientReadFailsKeeps(s: System, ph: Phase, eof: bool)
    requires InvAt(s, ph) && Enabled(s, ClientReadFails(eof))
    ensures InvAt(DoClientReadFails(s, eof), ph)
  {
    if s.client.status == InStream && !eof {
      ClientSays(s, DoClientReadFails(s, eof), ph, ph, Tagged(Text(ErrorNote("read")), s.serve.conn));
    }
  }

  lemma ClientSendCloseKeeps(s: System, ph: Phase)
    requires InvAt(s, ph) && Enabled(s, ClientSendClose)
    ensures InvAt(DoClientSendClose(s), CloseSent)
  {
    ClientSays(s, DoClientSendClose(s), ph, CloseSent, Tagged(Text(CloseRequest), s.serve.conn));
    DownPhase(s.toClient, ph, CloseSent, s.accepted, Now(s));
  }

  lemma ClientReturnKeeps(s: System, ph: Phase)
    requires InvAt(s, ph) && Enabled(s, ClientReturn)
    ensures InvAt(Next(s, ClientReturn), ph)
  {
  }

  // ---- The server's steps ----

  /** One goroutine moves on, to no more than it was. */
  lemma GoroMoves(s: System, t: System, g: nat, v: Serve)
    requires g < |s.goros| && t.goros == s.goros[g := v] && t.accepted == s.accepted && t.live <= s.live
    requires t.server.streamConn == s.server.streamConn && t.server.status == s.server.status
    requires Goros(s.goros, s.accepted, s.server.streamConn, s.live)
    requires Goro(v, t.accepted, t.server.streamConn, t.live)
    requires Reader(v, t.server, t.live) ==> Reader(s.goros[g], s.server, s.live)
    ensures Goros(t.goros, t.accepted, t.server.streamConn, t.live)
    ensures Quiet(s.goros, s.server, s.live) ==> Quiet(t.goros, t.server, t.live)
  {
    forall i | 0 <= i < |t.goros|
      ensures Goro(t.goros[i], t.accepted, t.server.streamConn, t.live)
      ensures Quiet(s.goros, s.server, s.live) ==> !Reader(t.goros[i], t.server, t.live)
    {
      assert Goro(s.goros[i], s.accepted, s.server.streamConn, s.live);
    }
  }

  lemma ServerOpens(s: System, answer: Answer, copy: Copy)
    requires InvAt(s, OpenSent) && Enabled(s, ServerReceive(answer, copy))
    requires s.toServer[0].msg.Text? && s.toServer[0].msg.cmd.OpenStream?
    ensures InvAt(DoServerReceive(s, answer, copy), OpenAnswered)
  {
    var t := DoServerReceive(s, answer, copy);
    var r := t.toClient[|s.toClient|];
    assert t.toClient == s.toClient + [r];
    TailWord(s.toServer[1..], OpenAnswered, s.accepted + 1, Now(t));
    DownAnswer(s.toClient, r, s.accepted, Now(s), Now(t));
  }

  /** A step of the server that only improves its outlook and pops nothing keeps the words. */
  lemma ServerImproves(s: System, t: System, ph: Phase)
    requires UpWord(s.toServer, ph, s.accepted, Now(s)) && DownWord(s.toClient, ph, s.accepted, Now(s))
    requires Better(Now(s), Now(t)) && t.toServer == s.toServer && t.accepted == s.accepted
    ensures UpWord(t.toServer, ph, t.accepted, Now(t)) && DownWord(s.toClient, ph, t.accepted, Now(t))
    ensures Better(Forecast(s.toServer, Now(s)), Forecast(t.toServer, Now(t)))
  {
    BetterUp(s.toServer, ph, s.accepted, Now(s), Now(t));
    BetterDown(s.toClient, ph, s.accepted, Now(s), Now(t));
  }

  /** Handling the first message, when that leaves the outlook at least as good as forecast. */
  lemma ServerPops(s: System, t: System, ph: Phase, ph': Phase)
    requires s.toServer != [] && !(s.toServer[0].msg.Text? && s.toServer[0].msg.cmd.OpenStream?)
    requires UpWord(s.toServer, ph, s.accepted, Now(s)) && DownWord(s.toClient, ph, s.accepted, Now(s))
    requires ph' == if s.toServer[0].msg == Text(CloseRequest) then CloseAnswered else ph
    requires Better(After(s.toServer[0], Now(s)), Now(t)) && Better(Now(s), Now(t))
    requires t.toServer == s.toServer[1..] && t.accepted == s.accepted
    ensures UpWord(t.toServer, ph', t.accepted, Now(t)) && DownWord(s.toClient, ph, t.accepted, Now(t))
    ensures Better(Forecast(s.toServer, Now(s)), Forecast(t.toServer, Now(t)))
  {
    var m, v := s.toServer[0], Now(s);
    var mid := if m.msg == Text(CloseRequest) then Rest else ph;
    BetterUp(s.toServer[1..], mid, s.accepted, After(m, v), Now(t));
    if m.msg == Text(CloseRequest) { UpPhase(s.toServer[1..], Rest, CloseAnswered, s.accepted, Now(t)); }
    BetterDown(s.toClient, ph, s.accepted, v, Now(t));
  }

  lemma ServerGetsClose(s: System, ph: Phase, answer: Answer, copy: Copy)
    requires InvAt(s, ph) && Enabled(s, ServerReceive(answer, copy)) && s.toServer[0].msg == Text(CloseRequest)
    ensures InvAt(DoServerReceive(s, answer, copy), CloseAnswered)
  {
    var t, r := DoServerReceive(s, answer, copy), Tagged(Text(BareReply), Pred(s.accepted));
    assert Quiet(t.goros, t.server, t.live);
    ServerPops(s, t, ph, CloseAnswered);
    assert t.toClient == s.toClient + [r];
    DownPush(s.toClient, r, ph, CloseAnswered, s.accepted, Now(t));
  }

  lemma ServerGetsBare(s: System, ph: Phase, answer: Answer, copy: Copy)
    requires InvAt(s, ph) && Enabled(s, ServerReceive(answer, copy)) && s.toServer[0].msg == Text(BareReply)
    ensures InvAt(DoServerReceive(s, answer, copy), ph)
  {
    var t := DoServerReceive(s, answer, copy);
    assert t.toClient == s.toClient && t.live == s.live && |t.log| == |s.log| && |t.goros| == |s.goros|;
    ServerPops(s, t, ph, ph);
  }

  lemma ServerGetsNote(s: System, ph: Phase, answer: Answer, copy: Copy)
    requires InvAt(s, ph) && Enabled(s, ServerReceive(answer, copy))
    requires s.toServer[0].msg.Text? && s.toServer[0].msg.cmd.ErrorNote?
    ensures InvAt(DoServerReceive(s, answer, copy), ph)
  {
    var t := DoServerReceive(s, answer, copy);
    assert t.toClient == s.toClient;
    ServerPops(s, t, ph, ph);
  }

  lemma ServerGetsData(s: System, ph: Phase, answer: Answer, copy: Copy)
    requires InvAt(s, ph) && Enabled(s, ServerReceive(answer, copy)) && s.toServer[0].msg.Binary?
    requires copy.Complete? || s.server.status != InStream
    ensures InvAt(DoServerReceive(s, answer, copy), ph)
  {
    var t := DoServerReceive(s, answer, copy);
    assert t.toClient == s.toClient && t.server == s.server && t.live == s.live && |t.log| == |s.log|;
    ServerPops(s, t, ph, ph);
  }

  lemma ServerConnBreaks(s: System, ph: Phase, answer: Answer, copy: Copy)
    requires InvAt(s, ph) && Enabled(s, ServerReceive(answer, copy)) && s.toServer[0].msg.Binary?
    requires copy.Broken? && s.server.status == InStream
    ensures InvAt(DoServerReceive(s, answer, copy), ph)
  {
    var t, r := DoServerReceive(s, answer, copy), Tagged(Text(ErrorNote(copy.error)), Pred(s.accepted));
    assert Quiet(t.goros, t.server, t.live) && |t.log| == |s.log| && t.goros == s.goros;
    ServerPops(s, t, ph, ph);
    assert t.toClient == s.toClient + [r];
    DownPush(s.toClient, r, ph, ph, s.accepted, Now(t));
  }

  lemma ServerReceiveKeeps(s: System, ph: Phase, answer: Answer, copy: Copy)
    requires InvAt(s, ph) && Enabled(s, ServerReceive(answer, copy))
    ensures Inv(DoServerReceive(s, answer, copy))
  {
    match s.toServer[0].msg
    case Binary(_) =>
      if copy.Broken? && s.server.status == InStream {
        ServerConnBreaks(s, ph, answer, copy);
      } else {
        ServerGetsData(s, ph, answer, copy);
      }
    case Text(OpenStream(_, _)) => ServerOpens(s, answer, copy);
    case Text(CloseRequest) => ServerGetsClose(s, ph, answer, copy);
    case Text(BareReply) => ServerGetsBare(s, ph, answer, copy);
    case Text(ErrorNote(_)) => ServerGetsNote(s, ph, answer, copy);
  }

  lemma StartKeeps(s: System, ph: Phase, g: nat)
    requires InvAt(s, ph) && Enabled(s, Start(g))
    ensures InvAt(DoStart(s, g), ph)
  {
    var t := DoStart(s, g);
    GoroMoves(s, t, g, t.goros[g]);
    ServerImproves(s, t, ph);
  }

  lemma ReadKeeps(s: System, ph: Phase, g: nat, data: seq<byte>)
    requires InvAt(s, ph) && Enabled(s, Read(g, data))
    ensures InvAt(DoRead(s, g, data), ph)
  {
    var r := Tagged(Binary(data), s.goros[g].conn);
    assert DoRead(s, g, data).toClient == s.toClient + [r];
    DownPush(s.toClient, r, ph, ph, s.accepted, Now(s));
  }

  lemma ReadEnds(s: System, ph: Phase, g: nat)
    requires InvAt(s, ph) && Enabled(s, ReadFails(g, true))
    ensures InvAt(DoReadFails(s, g, true), ph)
  {
    var t := DoReadFails(s, g, true);
    GoroMoves(s, t, g, t.goros[g]);
    ServerImproves(s, t, ph);
  }

  lemma ReadBreaks(s: System, ph: Phase, g: nat)
    requires InvAt(s, ph) && Enabled(s, ReadFails(g, false))
    ensures InvAt(DoReadFails(s, g, false), ph)
  {
    var t, r := DoReadFails(s, g, false), Tagged(Text(ErrorNote("read")), s.goros[g].conn);
    assert t.server == s.server && t.live == s.live;
    GoroMoves(s, t, g, Returning(s.goros[g].conn));
    ServerImproves(s, t, ph);
    if s.server.status == InStream {
      assert t.toClient == s.toClient + [r];
      DownPush(s.toClient, r, ph, ph, s.accepted, Now(t));
    }
  }

  lemma SendCloseKeeps(s: System, ph: Phase, g: nat)
    requires InvAt(s, ph) && Enabled(s, SendClose(g))
    ensures InvAt(DoSendClose(s, g), ph)
  {
    var r := Tagged(Text(CloseRequest), s.goros[g].conn);
    var t := DoSendClose(s, g);
    assert t.toClient == s.toClient + [r];
    GoroMoves(s, t, g, t.goros[g]);
    ServerImproves(s, t, ph);
    DownPush(s.toClient, r, ph, ph, s.accepted, Now(t));
  }

  lemma ReturnKeeps(s: System, ph: Phase, g: nat)
    requires InvAt(s, ph) && Enabled(s, Return(g))
    ensures InvAt(DoReturn(s, g), ph)
  {
    var t := DoReturn(s, g);
    GoroMoves(s, t, g, Returned);
    ServerImproves(s, t, ph);
  }

  /** A goroutine that returns closes its connection: no other goroutine reads it any more. */
  lemma ReturnEndsReading(s: System, g: nat, h: nat, data: seq<byte>)
    requires Enabled(s, Return(g)) && h < |s.goros| && s.goros[h] == Serving(s.goros[g].conn)
    ensures !Enabled(Next(s, Return(g)), Read(h, data))
  {
  }

  /** A close callback that has run lets its goroutine return, whether its `X` was sent before or not. */
  lemma CallbackReleases(s: System, g: nat, answer: Answer, copy: Copy)
    requires s.server.onResult == Some(ToCloser(g)) && g < |s.goros|
    requires s.toServer != [] && s.toServer[0].msg == Text(BareReply)
    ensures var t := DoServerReceive(s, answer, copy);
            && (s.goros[g].Waiting? ==> t.goros[g] == Returning(s.goros[g].conn))
            && (s.goros[g].Closing? ==> DoSendClose(t, g).goros[g] == Returning(s.goros[g].conn))
  {
  }

  // ---- Whole runs ----

  lemma StepKeeps(s: System, a: Action)
    requires Inv(s) && Enabled(s, a) && !Misleads(s, a)
    ensures Inv(Next(s, a))
  {
    var ph :| InvAt(s, ph);
    match a
    case Dial(protocol, target) => DialKeeps(s, ph, protocol, target);
    case Wake => WakeKeeps(s, ph);
    case ClientReceive(copy) => ClientReceiveKeeps(s, ph, copy);
    case ClientStart => ClientStartKeeps(s, ph);
    case ClientRead(data) => ClientReadKeeps(s, ph, data);
    case ClientReadFails(eof) => ClientReadFailsKeeps(s, ph, eof);
    case ClientSendClose => ClientSendCloseKeeps(s, ph);
    case ClientReturn => ClientReturnKeeps(s, ph);
    case ServerReceive(answer, copy) => ServerReceiveKeeps(s, ph, answer, copy);
    case Start(g) => StartKeeps(s, ph, g);
    case Read(g, data) => ReadKeeps(s, ph, g, data);
    case ReadFails(g, eof) => if eof { ReadEnds(s, ph, g); } else { ReadBreaks(s, ph, g); }
    case SendClose(g) => SendCloseKeeps(s, ph, g);
    case Return(g) => ReturnKeeps(s, ph, g);
  }
}
