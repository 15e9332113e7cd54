/** The main results about orderly runs: sessions never mix, and open requests meet an idle server. */
module SessionIsolation {
  import opened Basics
  import opened Tunnel
  import opened OrderlyRun
  import opened OrderlyInvariant

  /** The data of session `k` still in a channel. */
  function Pending(ch: seq<Tagged>, k: nat): seq<byte> {
    if ch == [] then [] else DataOf(ch[0], k) + Pending(ch[1..], k)
  }

  function DataOf(m: Tagged, k: nat): seq<byte> {
    if m.msg.Binary? && m.sess == k then m.msg.data else []
  }

  /**
   * Everything read has passed or is in flight; what was delivered is one window of what passed,
   * reaching up to the latest byte while delivery goes on.
   */
  ghost predicate FlowOk(f: Flow, ch: seq<Tagged>, k: nat, delivering: bool) {
    && f.read == f.seen + Pending(ch, k)
    && f.skip + |f.delivered| <= |f.seen|
    && f.delivered == f.seen[f.skip..f.skip + |f.delivered|]
    && (delivering ==> f.skip + |f.delivered| == |f.seen|)
  }

  ghost predicate Up(s: System, k: nat)
    requires k < |s.log|
  {
    var f := s.log[k].up;
    && FlowOk(f, s.toServer, k, s.server.status == InStream && k + 1 == s.accepted)
    && f.skip == 0
    && (k >= s.accepted ==> f.seen == [])
  }

  ghost predicate Down(s: System, k: nat)
    requires k < |s.log|
  {
    var f := s.log[k].down;
    && FlowOk(f, s.toClient, k, s.client.status == InStream && k + 1 == |s.log|)
    && (s.dialing && k + 1 == |s.log| ==> f.delivered == [])
  }

  ghost predicate Flows(s: System) {
    (forall k | 0 <= k < |s.log| :: Up(s, k)) && (forall k | 0 <= k < |s.log| :: Down(s, k))
  }

  lemma {:induction false} PendingPush(ch: seq<Tagged>, m: Tagged, k: nat)
    ensures Pending(ch + [m], k) == Pending(ch, k) + DataOf(m, k)
  {
    if ch == [] {
      assert ch + [m] == [m];
    } else {
      assert (ch + [m])[1..] == ch[1..] + [m];
      PendingPush(ch[1..], m, k);
    }
  }

  lemma {:induction false} NoFutureUp(ch: seq<Tagged>, ph: Phase, accepted: nat, v: Outlook, k: nat)
    requires UpWord(ch, ph, accepted, v) && k >= accepted
    ensures Pending(ch, k) == []
  {
    if ch != [] {
      if ch[0].msg.Text? && ch[0].msg.cmd.OpenStream? {
        NoData(ch[1..], k);
      } else {
        NoFutureUp(ch[1..], if ch[0].msg == Text(CloseRequest) then Rest else ph, accepted, After(ch[0], v), k);
      }
    }
  }

  lemma {:induction false} NoData(ch: seq<Tagged>, k: nat)
    requires Tail(ch)
    ensures Pending(ch, k) == []
  {
    if ch != [] { NoData(ch[1..], k); }
  }

  lemma {:induction false} NoFutureDown(ch: seq<Tagged>, ph: Phase, accepted: nat, v: Outlook, k: nat)
    requires DownWord(ch, ph, accepted, v) && k >= accepted
    ensures Pending(ch, k) == []
  {
    if ch != [] { NoFutureDown(ch[1..], if IsReply(ch[0].msg) then Rest else ph, accepted, v, k); }
  }

  // ---- The client's data on its way to the server ----

  /** Data leaves the front of a channel: it passes, and what is delivered extends the window. */
  lemma FlowPass(f: Flow, g: Flow, ch: seq<Tagged>, k: nat, delivering: bool, still: bool, part: seq<byte>)
    requires ch != [] && FlowOk(f, ch, k, delivering)
    requires g == Flow(f.read, f.seen + DataOf(ch[0], k), f.skip, f.delivered + part)
    requires part != [] ==> delivering
    requires part <= DataOf(ch[0], k)
    requires still ==> delivering && part == DataOf(ch[0], k)
    ensures FlowOk(g, ch[1..], k, still)
  {
    assert f.read == (f.seen + DataOf(ch[0], k)) + Pending(ch[1..], k);
    assert g.delivered == g.seen[g.skip..g.skip + |g.delivered|];
  }

  lemma FlowSource(f: Flow, g: Flow, ch: seq<Tagged>, m: Tagged, k: nat, delivering: bool)
    requires FlowOk(f, ch, k, delivering)
    requires g == f.(read := f.read + DataOf(m, k))
    ensures FlowOk(g, ch + [m], k, delivering)
  {
    PendingPush(ch, m, k);
    assert f.seen + Pending(ch, k) + DataOf(m, k) == f.seen + (Pending(ch, k) + DataOf(m, k));
  }

  /** The part of a message that `io.Copy` gets through. */
  function Through(data: seq<byte>, delivering: bool, copy: Copy): (part: seq<byte>)
    ensures part <= data
  {
    if !delivering then [] else if copy.Complete? || copy.n >= |data| then data else data[..copy.n]
  }

  lemma UpReceiveData(s: System, ph: Phase, answer: Answer, copy: Copy, k: nat)
    requires CoreAt(s, ph) && Enabled(s, ServerReceive(answer, copy)) && k < |s.log| && Up(s, k)
    requires s.toServer[0].msg.Binary?
    ensures |DoServerReceive(s, answer, copy).log| == |s.log| && Up(DoServerReceive(s, answer, copy), k)
  {
    var t, m := DoServerReceive(s, answer, copy), s.toServer[0];
    var f, g := s.log[k].up, t.log[k].up;
    var was := s.server.status == InStream && k + 1 == s.accepted;
    assert f.seen + [] == f.seen && f.delivered + [] == f.delivered;
    FlowPass(f, g, s.toServer, k, was, was && copy.Complete?, Through(m.msg.data, was, copy));
  }

  lemma UpReceiveText(s: System, ph: Phase, answer: Answer, copy: Copy, k: nat)
    requires CoreAt(s, ph) && Enabled(s, ServerReceive(answer, copy)) && k < |s.log| && Up(s, k)
    requires s.toServer[0].msg.Text?
    ensures |DoServerReceive(s, answer, copy).log| == |s.log| && Up(DoServerReceive(s, answer, copy), k)
  {
    var t := DoServerReceive(s, answer, copy);
    var f := s.log[k].up;
    assert t.log == s.log && f.seen + [] == f.seen && f.delivered + [] == f.delivered;
    FlowPass(f, f, s.toServer, k, s.server.status == InStream && k + 1 == s.accepted, false, []);
  }

  /** A channel stays as it was or gains one text message. */
  ghost predicate GainsText(ch: seq<Tagged>, ch': seq<Tagged>) {
    ch' == ch || (|ch'| == |ch| + 1 && ch' == ch + [ch'[|ch|]] && ch'[|ch|].msg.Text?)
  }

  lemma TextKeepsFlow(f: Flow, ch: seq<Tagged>, ch': seq<Tagged>, k: nat, delivering: bool)
    requires FlowOk(f, ch, k, delivering) && GainsText(ch, ch')
    ensures FlowOk(f, ch', k, delivering)
  {
    if ch' != ch {
      assert f.read + [] == f.read;
      FlowSource(f, f, ch, ch'[|ch|], k, delivering);
    }
  }

  lemma UpRead(s: System, ph: Phase, data: seq<byte>, k: nat)
    requires CoreAt(s, ph) && Enabled(s, ClientRead(data)) && k < |s.log| && Up(s, k)
    ensures |DoClientRead(s, data).log| == |s.log| && Up(DoClientRead(s, data), k)
  {
    var t, m := DoClientRead(s, data), Tagged(Binary(data), s.serve.conn);
    assert t.toServer == s.toServer + [m] && s.log[k].up.read + [] == s.log[k].up.read;
    FlowSource(s.log[k].up, t.log[k].up, s.toServer, m, k, s.server.status == InStream && k + 1 == s.accepted);
  }

  lemma UpDial(s: System, ph: Phase, protocol: string, target: string, k: nat)
    requires CoreAt(s, ph) && Enabled(s, Dial(protocol, target)) && k <= |s.log| && (k < |s.log| ==> Up(s, k))
    ensures Up(DoDial(s, protocol, target), k)
  {
    var t, m := DoDial(s, protocol, target), Tagged(Text(OpenStream(protocol, target)), |s.log|);
    assert t.toServer == s.toServer + [m];
    PendingPush(s.toServer, m, k);
    if k == |s.log| { NoFutureUp(s.toServer, ph, s.accepted, Now(s), k); }
  }

  /** A step that at most adds text to the channel and touches nothing else of this direction. */
  ghost predicate UpUntouched(s: System, t: System) {
    && GainsText(s.toServer, t.toServer) && |t.log| == |s.log|
    && t.server.status == s.server.status && t.accepted == s.accepted
    && forall k | 0 <= k < |s.log| :: t.log[k].up == s.log[k].up
  }

  lemma UpClientReceives(s: System, copy: Copy)
    requires Enabled(s, ClientReceive(copy))
    ensures UpUntouched(s, DoClientReceive(s, copy))
  {
  }

  lemma UpOther(s: System, a: Action)
    requires Enabled(s, a) && !a.Dial? && !a.ClientRead? && !a.ServerReceive?
    ensures UpUntouched(s, Next(s, a))
  {
    match a
    case ClientReceive(copy) => UpClientReceives(s, copy);
    case ReadFails(g, eof) => UpReadFails(s, g, eof);
    case ClientReadFails(eof) => UpClientReadFails(s, eof);
    case _ =>
  }

  lemma UpReadFails(s: System, g: nat, eof: bool)
    requires Enabled(s, ReadFails(g, eof))
    ensures UpUntouched(s, DoReadFails(s, g, eof))
  {
  }

  lemma UpClientReadFails(s: System, eof: bool)
    requires Enabled(s, ClientReadFails(eof))
    ensures UpUntouched(s, DoClientReadFails(s, eof))
  {
  }

  lemma UpText(s: System, t: System, k: nat)
    requires k < |s.log| && Up(s, k) && UpUntouched(s, t)
    ensures Up(t, k)
  {
    TextKeepsFlow(s.log[k].up, s.toServer, t.toServer, k, s.server.status == InStream && k + 1 == s.accepted);
  }

  lemma UpStep(s: System, ph: Phase, a: Action, k: nat)
    requires CoreAt(s, ph) && Enabled(s, a) && k < |Next(s, a).log| && (k < |s.log| ==> Up(s, k))
    ensures Up(Next(s, a), k)
  {
    match a {
      case Dial(protocol, target) => UpDial(s, ph, protocol, target, k);
      case ClientRead(data) => UpRead(s, ph, data, k);
      case ServerReceive(answer, copy) =>
        if s.toServer[0].msg.Binary? {
          UpReceiveData(s, ph, answer, copy, k);
        } else {
          UpReceiveText(s, ph, answer, copy, k);
        }
      case _ =>
        UpOther(s, a);
        UpText(s, Next(s, a), k);
    }
  }

  // ---- The server's data on its way to the client ----

  lemma DownReceiveData(s: System, ph: Phase, copy: Copy, k: nat)
    requires CoreAt(s, ph) && Enabled(s, ClientReceive(copy)) && k < |s.log| && Down(s, k)
    requires s.toClient[0].msg.Binary?
    ensures |DoClientReceive(s, copy).log| == |s.log| && Down(DoClientReceive(s, copy), k)
  {
    var t, m := DoClientReceive(s, copy), s.toClient[0];
    var f, g := s.log[k].down, t.log[k].down;
    var was := s.client.status == InStream && k + 1 == |s.log|;
    assert f.seen + [] == f.seen && f.delivered + [] == f.delivered;
    FlowPass(f, g, s.toClient, k, was, was && copy.Complete?, Through(m.msg.data, was, copy));
  }

  lemma DownReceiveText(s: System, ph: Phase, copy: Copy, k: nat)
    requires CoreAt(s, ph) && Enabled(s, ClientReceive(copy)) && k < |s.log| && Down(s, k)
    requires s.toClient[0].msg.Text?
    ensures |DoClientReceive(s, copy).log| == |s.log| && Down(DoClientReceive(s, copy), k)
  {
    var t, f := DoClientReceive(s, copy), s.log[k].down;
    var was := s.client.status == InStream && k + 1 == |s.log|;
    assert t.log == s.log && f.seen + [] == f.seen && f.delivered + [] == f.delivered;
    FlowPass(f, f, s.toClient, k, was, was && t.client.status == InStream, []);
  }

  lemma DownRead(s: System, ph: Phase, g: nat, data: seq<byte>, k: nat)
    requires CoreAt(s, ph) && Enabled(s, Read(g, data)) && k < |s.log| && Down(s, k)
    ensures |DoRead(s, g, data).log| == |s.log| && Down(DoRead(s, g, data), k)
  {
    var t, m := DoRead(s, g, data), Tagged(Binary(data), s.goros[g].conn);
    assert t.toClient == s.toClient + [m] && s.log[k].down.read + [] == s.log[k].down.read;
    FlowSource(s.log[k].down, t.log[k].down, s.toClient, m, k, s.client.status == InStream && k + 1 == |s.log|);
  }

  lemma DownDials(s: System, ph: Phase, protocol: string, target: string, k: nat)
    requires CoreAt(s, ph) && Enabled(s, Dial(protocol, target)) && k <= |s.log| && (k < |s.log| ==> Down(s, k))
    ensures Down(DoDial(s, protocol, target), k)
  {
    if k == |s.log| { NoFutureDown(s.toClient, ph, s.accepted, Now(s), k); }
  }

  lemma DownWake(s: System, ph: Phase, k: nat)
    requires CoreAt(s, ph) && Enabled(s, Wake) && k < |s.log| && Down(s, k)
    ensures |DoWake(s).log| == |s.log| && Down(DoWake(s), k)
  {
  }

  ghost predicate DownUntouched(s: System, t: System) {
    && GainsText(s.toClient, t.toClient) && |t.log| == |s.log|
    && t.client.status == s.client.status && t.dialing == s.dialing
    && forall k | 0 <= k < |s.log| :: t.log[k].down == s.log[k].down
  }

  lemma DownServerReceives(s: System, answer: Answer, copy: Copy)
    requires Enabled(s, ServerReceive(answer, copy))
    ensures DownUntouched(s, DoServerReceive(s, answer, copy))
  {
  }

  lemma DownOther(s: System, a: Action)
    requires Enabled(s, a) && !a.Dial? && !a.Wake? && !a.ClientReceive? && !a.Read?
    ensures DownUntouched(s, Next(s, a))
  {
    match a
    case ServerReceive(answer, copy) => DownServerReceives(s, answer, copy);
    case ReadFails(g, eof) => assert DoReadFails(s, g, eof).log == s.log;
    case ClientReadFails(eof) => assert DoClientReadFails(s, eof).toClient == s.toClient;
    case _ =>
  }

  lemma DownText(s: System, t: System, k: nat)
    requires k < |s.log| && Down(s, k) && DownUntouched(s, t)
    ensures Down(t, k)
  {
    TextKeepsFlow(s.log[k].down, s.toClient, t.toClient, k, s.client.status == InStream && k + 1 == |s.log|);
  }

  lemma DownStep(s: System, ph: Phase, a: Action, k: nat)
    requires CoreAt(s, ph) && Enabled(s, a) && k < |Next(s, a).log| && (k < |s.log| ==> Down(s, k))
    ensures Down(Next(s, a), k)
  {
    match a {
      case Dial(protocol, target) => DownDials(s, ph, protocol, target, k);
      case Wake => DownWake(s, ph, k);
      case ClientReceive(copy) =>
        if s.toClient[0].msg.Binary? {
          DownReceiveData(s, ph, copy, k);
        } else {
          DownReceiveText(s, ph, copy, k);
        }
      case Read(g, data) => DownRead(s, ph, g, data, k);
      case _ =>
        DownOther(s, a);
        DownText(s, Next(s, a), k);
    }
  }

  // ---- Orderly runs ----

  /** No step of the run lets the client take an `X` for the end of a session that the server has not ended. */
  predicate NeverMisled(s: System, run: seq<Action>)
    requires Legal(s, run)
    decreases |run|
  {
    run != [] ==> !Misleads(s, run[0]) && NeverMisled(Next(s, run[0]), run[1..])
  }

  lemma FlowsStep(s: System, ph: Phase, a: Action)
    requires CoreAt(s, ph) && Flows(s) && Enabled(s, a)
    ensures Flows(Next(s, a))
  {
    var t := Next(s, a);
    forall k | 0 <= k < |t.log| ensures Up(t, k) { UpStep(s, ph, a, k); }
    forall k | 0 <= k < |t.log| ensures Down(t, k) { DownStep(s, ph, a, k); }
  }

  lemma {:induction false} RunKeeps(s: System, run: seq<Action>)
    requires Inv(s) && Flows(s) && Legal(s, run) && NeverMisled(s, run)
    ensures Inv(Exec(s, run)) && Flows(Exec(s, run))
    decreases |run|
  {
    if run != [] {
      var ph :| InvAt(s, ph);
      StepKeeps(s, run[0]);
      FlowsStep(s, ph, run[0]);
      RunKeeps(Next(s, run[0]), run[1..]);
    }
  }

  lemma OrderlyRunKeeps(run: seq<Action>)
    requires Legal(INIT, run) && NeverMisled(INIT, run)
    ensures Inv(Exec(INIT, run)) && Flows(Exec(INIT, run))
  {
    assert InvAt(INIT, Rest);
    RunKeeps(INIT, run);
  }

  /** `part` is one contiguous run of `whole`. */
  ghost predicate ContiguousIn(part: seq<byte>, whole: seq<byte>) {
    exists i: nat :: PartAt(part, whole, i)
  }

  ghost predicate PartAt(part: seq<byte>, whole: seq<byte>, i: nat) {
    i + |part| <= |whole| && part == whole[i..i + |part|]
  }

  ghost predicate Isolated(s: System) {
    forall k | 0 <= k < |s.log| ::
      && s.log[k].up.delivered <= s.log[k].up.read
      && ContiguousIn(s.log[k].down.delivered, s.log[k].down.read)
  }

  /**
   * In every orderly run without a misleading step, what the server wrote into the connection of
   * session k is a prefix of what the client read in session k, and what the client delivered is one
   * contiguous run of what the server read from the connection of session k.
   */
  lemma SessionsStayApart(run: seq<Action>)
    requires Legal(INIT, run) && NeverMisled(INIT, run)
    ensures Isolated(Exec(INIT, run))
  {
    OrderlyRunKeeps(run);
    var s := Exec(INIT, run);
    forall k | 0 <= k < |s.log|
      ensures s.log[k].up.delivered <= s.log[k].up.read
      ensures ContiguousIn(s.log[k].down.delivered, s.log[k].down.read)
    {
      assert Up(s, k) && Down(s, k);
      var f := s.log[k].down;
      assert PartAt(f.delivered, f.read, f.skip);
    }
  }

  lemma FlowWhole(f: Flow, ch: seq<Tagged>, k: nat)
    requires FlowOk(f, ch, k, true)
    ensures f.skip <= |f.read| && f.read[f.skip..] == f.delivered + Pending(ch, k)
  {
    assert f.delivered == f.seen[f.skip..];
  }

  /** What was read at one end, from byte `skip` on, is what the other delivered and what is in flight to it. */
  ghost predicate Whole(f: Flow, ch: seq<Tagged>, k: nat, skip: nat) {
    skip <= |f.read| && f.read[skip..] == f.delivered + Pending(ch, k)
  }

  /**
   * Nothing is lost while a session is open at the receiver, up to the bytes that reached the client
   * before its dialer woke.
   */
  lemma NothingLostWhileOpen(run: seq<Action>)
    requires Legal(INIT, run) && NeverMisled(INIT, run)
    ensures var s := Exec(INIT, run);
            var k, n := s.accepted - 1, |s.log| - 1;
            && (s.server.status == InStream ==> 0 <= k <= n && Whole(s.log[k].up, s.toServer, k, 0))
            && (s.client.status == InStream ==> 0 <= n && Whole(s.log[n].down, s.toClient, n, s.log[n].down.skip))
  {
    OrderlyRunKeeps(run);
    var s := Exec(INIT, run);
    var k, n := s.accepted - 1, |s.log| - 1;
    if s.server.status == InStream {
      assert Up(s, k);
      FlowWhole(s.log[k].up, s.toServer, k);
    }
    if s.client.status == InStream {
      assert Down(s, n);
      FlowWhole(s.log[n].down, s.toClient, n);
    }
  }

  /** Neither end is closed, and an open request at the head of its channel finds the server idle. */
  predicate OpensIdle(s: System) {
    && s.server.status != Closed && s.client.status != Closed
    && (s.toServer != [] && s.toServer[0].msg.Text? && s.toServer[0].msg.cmd.OpenStream? ==> s.server.status == Idle)
  }

  /** An open request is handled by an idle server, which is never closed by one. */
  lemma OpenMeetsIdleServer(run: seq<Action>)
    requires Legal(INIT, run) && NeverMisled(INIT, run)
    ensures OpensIdle(Exec(INIT, run))
  {
    OrderlyRunKeeps(run);
  }

  /** When the client may dial and nothing is in flight, the server is idle and forwards no old connection. */
  lemma ReadyClientMeansIdleServer(run: seq<Action>, protocol: string, target: string)
    requires Legal(INIT, run) && NeverMisled(INIT, run)
    requires Enabled(Exec(INIT, run), Dial(protocol, target))
    requires Exec(INIT, run).toServer == [] && Exec(INIT, run).toClient == []
    ensures Settled(Now(Exec(INIT, run)))
  {
    OrderlyRunKeeps(run);
  }

  // ---- Exactly the misleading steps let the client go too early ----

  /** Once the client has left its session, what is on the way to the server leaves it settled. */
  predicate Followed(s: System) { Left(s) ==> Settled(Forecast(s.toServer, Now(s))) }

  predicate AlwaysFollowed(s: System, run: seq<Action>)
    requires Legal(s, run)
    decreases |run|
  {
    Followed(s) && (run != [] ==> AlwaysFollowed(Next(s, run[0]), run[1..]))
  }

  /** A misleading step lets the client go, out of phase with the server. */
  lemma MisledLeaves(s: System, ph: Phase, copy: Copy)
    requires InvAt(s, ph) && Misleads(s, ClientReceive(copy))
    ensures var t := DoClientReceive(s, copy);
            && CoreAt(t, ph) && ph == Rest && Left(t) && !Settled(Forecast(t.toServer, Now(t)))
  {
    ClientGetsClose(s, ph, copy);
  }

  lemma {:induction false} RunFollowed(s: System, run: seq<Action>)
    requires Inv(s) && Legal(s, run)
    ensures AlwaysFollowed(s, run) <==> NeverMisled(s, run)
    decreases |run|
  {
    if run != [] {
      var ph :| InvAt(s, ph);
      if Misleads(s, run[0]) {
        MisledLeaves(s, ph, run[0].copy);
        assert !Followed(Next(s, run[0]));
      } else {
        StepKeeps(s, run[0]);
        RunFollowed(Next(s, run[0]), run[1..]);
      }
    }
  }

  /** A run never frees the client ahead of the server exactly if none of its steps misleads the client. */
  lemma FollowedExactly(run: seq<Action>)
    requires Legal(INIT, run)
    ensures AlwaysFollowed(INIT, run) <==> NeverMisled(INIT, run)
  {
    assert InvAt(INIT, Rest);
    RunFollowed(INIT, run);
  }
}
