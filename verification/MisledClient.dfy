/**
 * Why a misleading `X` matters: from every one of them an otherwise harmless run goes on to mix two
 * sessions or to bring an open request to a busy server. The run lets a waiting goroutine capture
 * its connection, drains the channel to the server, and dials; if that server is idle, a byte of
 * the old connection then reaches the client in the new session.
 */
module MisledClient {
  import opened Tunnel
  import opened OrderlyRun
  import opened OrderlyInvariant
  import opened SessionIsolation

  ghost predicate Safe(s: System) { Isolated(s) && OpensIdle(s) }

  /** Some run that never misleads leads from `s` to `t`. */
  ghost predicate Reaches(s: System, t: System) {
    exists run :: Legal(s, run) && NeverMisled(s, run) && Exec(s, run) == t
  }

  lemma ReachesItself(s: System)
    ensures Reaches(s, s)
  {
    assert Legal(s, []) && NeverMisled(s, []) && Exec(s, []) == s;
  }

  lemma ReachesAfter(s: System, a: Action, t: System)
    requires Enabled(s, a) && !Misleads(s, a) && Reaches(Next(s, a), t)
    ensures Reaches(s, t)
  {
    var run :| Legal(Next(s, a), run) && NeverMisled(Next(s, a), run) && Exec(Next(s, a), run) == t;
    var whole := [a] + run;
    assert whole[0] == a && whole[1..] == run;
    assert Legal(s, whole) && NeverMisled(s, whole) && Exec(s, whole) == t;
  }

  // ---- What a misled client leaves behind ----

  /** Data of earlier sessions, error notes, and one kind of command that leaves requests alone. */
  predicate Soft(m: Tagged, n: nat, cmd: Command) {
    match m.msg
    case Binary(_) => m.sess < n
    case Text(c) => c == cmd || c.ErrorNote?
  }

  predicate AllSoft(ch: seq<Tagged>, n: nat, cmd: Command) { forall i | 0 <= i < |ch| :: Soft(ch[i], n, cmd) }

  ghost predicate Ripe(s: System) {
    && Left(s) && s.client.onResult.None? && s.result.None? && s.accepted == |s.log|
    && s.server.status in {Idle, InStream} && s.server.onCmdErr.None?
    && (s.server.onResult.Some? ==> s.server.onResult.value.ToCloser?)
    && AllSoft(s.toServer, |s.log|, BareReply) && AllSoft(s.toClient, |s.log|, CloseRequest)
  }

  /** A goroutine forwards a connection of an earlier session that still has data. */
  predicate Forwards(s: System, g: nat) {
    g < |s.goros| && s.goros[g].Serving? && s.goros[g].conn in s.live && s.goros[g].conn < |s.log|
  }

  lemma {:induction false} UpSoft(ch: seq<Tagged>, accepted: nat, v: Outlook)
    requires UpWord(ch, Rest, accepted, v)
    ensures AllSoft(ch, accepted, BareReply)
  {
    if ch != [] {
      UpSoft(ch[1..], accepted, After(ch[0], v));
      assert forall i | 0 < i < |ch| :: ch[i] == ch[1..][i - 1];
    }
  }

  lemma {:induction false} DownSoft(ch: seq<Tagged>, accepted: nat, v: Outlook)
    requires DownWord(ch, Rest, accepted, v)
    ensures AllSoft(ch, accepted, CloseRequest)
  {
    if ch != [] {
      DownSoft(ch[1..], accepted, v);
      assert forall i | 0 < i < |ch| :: ch[i] == ch[1..][i - 1];
    }
  }

  lemma LeftRipe(s: System)
    requires CoreAt(s, Rest) && Left(s)
    ensures Ripe(s)
  {
    UpSoft(s.toServer, s.accepted, Now(s));
    DownSoft(s.toClient, s.accepted, Now(s));
  }

  // ---- Up to the dial ----

  /** A reader is a goroutine that forwards, or becomes one by starting now. */
  lemma Captures(s: System) returns (t: System, g: nat)
    requires CoreAt(s, Rest) && Left(s) && !Now(s).quiet
    ensures Reaches(s, t) && Ripe(t) && Forwards(t, g)
    ensures t.server == s.server && t.toServer == s.toServer
  {
    LeftRipe(s);
    g :| 0 <= g < |s.goros| && Reader(s.goros[g], s.server, s.live);
    t := s;
    if s.goros[g] == Starting {
      t := DoStart(s, g);
      ReachesItself(t);
      ReachesAfter(s, Start(g), t);
    } else {
      ReachesItself(s);
    }
  }

  /** Whether the server will be idle depends on whether it is, and on whether a callback is armed. */
  lemma {:induction false} ForecastIdle(ch: seq<Tagged>, n: nat, v: Outlook, w: Outlook)
    requires AllSoft(ch, n, BareReply) && v.idle == w.idle && v.armed == w.armed
    ensures Forecast(ch, v).idle == Forecast(ch, w).idle && Forecast(ch, v).quiet == v.quiet
  {
    if ch != [] { ForecastIdle(ch[1..], n, After(ch[0], v), After(ch[0], w)); }
  }

  lemma DrainOne(s: System)
    requires Ripe(s) && s.toServer != []
    ensures var t := DoServerReceive(s, Blocked, Complete);
            && Ripe(t) && t.toServer == s.toServer[1..]
            && Now(t).idle == After(s.toServer[0], Now(s)).idle && Now(t).armed == After(s.toServer[0], Now(s)).armed
            && forall g | Forwards(s, g) :: Forwards(t, g)
  {
    var t := DoServerReceive(s, Blocked, Complete);
    assert t.toClient == s.toClient && |t.log| == |s.log| && |t.goros| == |s.goros|;
  }

  lemma {:induction false} DrainServer(s: System, g: nat) returns (t: System)
    requires Ripe(s)
    ensures Reaches(s, t) && Ripe(t) && t.toServer == []
    ensures t.server.status == Idle <==> Forecast(s.toServer, Now(s)).idle
    ensures Forwards(s, g) ==> Forwards(t, g)
    decreases |s.toServer|
  {
    if s.toServer == [] {
      t := s;
      ReachesItself(s);
    } else {
      var u := DoServerReceive(s, Blocked, Complete);
      DrainOne(s);
      t := DrainServer(u, g);
      ForecastIdle(u.toServer, |s.log|, After(s.toServer[0], Now(s)), Now(u));
      ReachesAfter(s, ServerReceive(Blocked, Complete), t);
    }
  }

  /** The client's goroutine returns without a word. */
  lemma FinishServe(s: System) returns (t: System)
    requires Ripe(s)
    ensures Reaches(s, t) && Ripe(t) && t.serve == Returned
    ensures t.toServer == s.toServer && t.server == s.server
    ensures forall g | Forwards(s, g) :: Forwards(t, g)
  {
    ReachesItself(s);
    t := s;
    if s.serve == Starting {
      t := DoClientStart(s);
      ReachesItself(t);
      ReachesAfter(s, ClientStart, t);
    } else if s.serve != Returned {
      var u := if s.serve.Serving? then DoClientReadFails(s, false) else s;
      t := Next(u, ClientReturn);
      ReachesItself(t);
      ReachesAfter(u, ClientReturn, t);
      if s.serve.Serving? { ReachesAfter(s, ClientReadFails(false), t); }
    }
  }

  // ---- A busy server ----

  lemma DialsBusy(s: System) returns (t: System)
    requires Ripe(s) && s.serve == Returned && s.toServer == [] && s.server.status != Idle
    ensures Reaches(s, t) && !Safe(t)
  {
    t := DoDial(s, "tcp", "a");
    ReachesItself(t);
    ReachesAfter(s, Dial("tcp", "a"), t);
  }

  // ---- An idle server that still forwards an old connection ----

  /** The client waits for the answer to its dial of session `n`, in which nothing has been delivered. */
  ghost predicate Awaiting(s: System, n: nat) {
    && |s.log| == n + 1 && s.log[n] == Session(NO_FLOW, NO_FLOW)
    && s.dialing && s.result.None? && s.client.onResult.Some? && s.client.onResult.value.ToDialer?
    && s.client.status in {Idle, InOper}
  }

  /** Whatever of the old session is still in the channel to the client is passed over while it dials. */
  lemma PassOne(s: System, n: nat)
    requires Awaiting(s, n) && s.toClient != [] && Soft(s.toClient[0], n, CloseRequest)
    ensures Awaiting(DoClientReceive(s, Complete), n)
    ensures DoClientReceive(s, Complete).toClient == s.toClient[1..]
  {
  }

  lemma {:induction false} DrainClient(s: System, n: nat, soft: nat) returns (u: System)
    requires Awaiting(s, n) && soft <= |s.toClient| && AllSoft(s.toClient[..soft], n, CloseRequest)
    ensures Reaches(s, u) && Awaiting(u, n) && u.toClient == s.toClient[soft..]
    decreases soft
  {
    if soft == 0 {
      u := s;
      ReachesItself(s);
    } else {
      var v := DoClientReceive(s, Complete);
      assert s.toClient[..soft][0] == s.toClient[0];
      PassOne(s, n);
      assert v.toClient[..soft - 1] == s.toClient[..soft][1..];
      u := DrainClient(v, n, soft - 1);
      ReachesAfter(s, ClientReceive(Complete), u);
    }
  }

  /** The dial succeeds, and the next byte of the old connection is delivered in the new session. */
  lemma TakesOldByte(s: System, n: nat, c: nat) returns (t: System)
    requires Awaiting(s, n) && c < n
    requires s.toClient == [Tagged(Text(Reply(true, "")), n), Tagged(Binary([7]), c)]
    ensures Reaches(s, t) && !Safe(t)
  {
    var u := DoClientReceive(s, Complete);
    var v := DoWake(u);
    t := DoClientReceive(v, Complete);
    assert t.log[n].down.delivered == [7] && t.log[n].down.read == [];
    assert !ContiguousIn(t.log[n].down.delivered, t.log[n].down.read);
    ReachesItself(t);
    ReachesAfter(v, ClientReceive(Complete), t);
    ReachesAfter(u, Wake, t);
    ReachesAfter(s, ClientReceive(Complete), t);
  }

  /** An idle server accepts session `n` and forwards one more byte of the old connection `c`. */
  lemma Accepts(s: System, g: nat) returns (t: System, c: nat)
    requires Ripe(s) && s.serve == Returned && s.toServer == [] && s.server.status == Idle && Forwards(s, g)
    ensures Reaches(s, t) && Awaiting(t, |s.log|) && c < |s.log|
    ensures t.toClient == s.toClient + [Tagged(Text(Reply(true, "")), |s.log|), Tagged(Binary([7]), c)]
  {
    var n := |s.log|;
    c := s.goros[g].conn;
    var u := DoDial(s, "tcp", "a");
    var v := DoServerReceive(u, Opened(n, ""), Complete);
    assert v.goros[g] == s.goros[g] && v.toClient == s.toClient + [Tagged(Text(Reply(true, "")), n)];
    t := DoRead(v, g, [7]);
    ReachesItself(t);
    ReachesAfter(v, Read(g, [7]), t);
    ReachesAfter(u, ServerReceive(Opened(n, ""), Complete), t);
    ReachesAfter(s, Dial("tcp", "a"), t);
  }

  lemma DialsForwarding(s: System, g: nat) returns (t: System)
    requires Ripe(s) && s.serve == Returned && s.toServer == [] && s.server.status == Idle && Forwards(s, g)
    ensures Reaches(s, t) && !Safe(t)
  {
    var n, k := |s.log|, |s.toClient|;
    var u, c := Accepts(s, g);
    assert u.toClient[..k] == s.toClient;
    var v := DrainClient(u, n, k);
    t := TakesOldByte(v, n, c);
    ReachesJoin(s, u, v);
    ReachesJoin(s, v, t);
  }

  lemma ReachesJoin(s: System, t: System, u: System)
    requires Reaches(s, t) && Reaches(t, u)
    ensures Reaches(s, u)
  {
    var run :| Legal(s, run) && NeverMisled(s, run) && Exec(s, run) == t;
    JoinRun(s, run, t, u);
  }

  lemma {:induction false} JoinRun(s: System, run: seq<Action>, t: System, u: System)
    requires Legal(s, run) && NeverMisled(s, run) && Exec(s, run) == t && Reaches(t, u)
    ensures Reaches(s, u)
    decreases |run|
  {
    if run != [] {
      JoinRun(Next(s, run[0]), run[1..], t, u);
      ReachesAfter(s, run[0], u);
    }
  }

  // ---- Exactly the misleading steps lead to harm ----

  /** A client that left ahead of the server can do harm. */
  lemma AheadHarms(s: System) returns (t: System)
    requires CoreAt(s, Rest) && Left(s) && !Settled(Forecast(s.toServer, Now(s)))
    ensures Reaches(s, t) && !Safe(t)
  {
    LeftRipe(s);
    ReachesItself(s);
    var a, g := s, 0;
    if !Now(s).quiet { a, g := Captures(s); }
    var b := DrainServer(a, g);
    var c := FinishServe(b);
    ForecastIdle(s.toServer, |s.log|, Now(s), Now(a));
    if c.server.status == Idle { t := DialsForwarding(c, g); } else { t := DialsBusy(c); }
    ReachesJoin(b, c, t);
    ReachesJoin(a, b, t);
    ReachesJoin(s, a, t);
  }

  /** After a run that never misled, no continuation that never misleads does harm. */
  lemma UnmisledIsSafe(run: seq<Action>, t: System)
    requires Legal(INIT, run) && NeverMisled(INIT, run) && Reaches(Exec(INIT, run), t)
    ensures Safe(t)
  {
    assert Reaches(INIT, Exec(INIT, run));
    ReachesJoin(INIT, Exec(INIT, run), t);
    var whole :| Legal(INIT, whole) && NeverMisled(INIT, whole) && Exec(INIT, whole) == t;
    SessionsStayApart(whole);
    OpenMeetsIdleServer(whole);
  }

  /**
   * After any run that has not misled the client yet, the next step is a misleading one exactly if
   * some continuation behind it, itself free of misleading steps, mixes two sessions or brings an
   * open request to a busy server.
   */
  lemma MisleadingExactly(run: seq<Action>, a: Action)
    requires Legal(INIT, run) && NeverMisled(INIT, run) && Enabled(Exec(INIT, run), a)
    ensures Misleads(Exec(INIT, run), a) <==> exists t :: Reaches(Next(Exec(INIT, run), a), t) && !Safe(t)
  {
    var s := Exec(INIT, run);
    OrderlyRunKeeps(run);
    if Misleads(s, a) {
      var ph :| InvAt(s, ph);
      MisledLeaves(s, ph, a.copy);
      var t := AheadHarms(Next(s, a));
    } else if t :| Reaches(Next(s, a), t) && !Safe(t) {
      ReachesAfter(s, a, t);
      UnmisledIsSafe(run, t);
    }
  }
}
