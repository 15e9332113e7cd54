/**
 * How a client comes to be misled: a goroutine of session 0 has installed its close callback, is
 * overtaken by the client's own close and by later dials, and only then sends `X`. In the first run
 * the client takes it for the end of session 1 and dials session 2, while the connection of session
 * 1 stays open and keeps being forwarded. In the second it takes it for the end of session 2, and
 * its next open request meets a server that is still busy.
 */
module StaleClose {
  import opened Basics
  import opened Tunnel
  import opened OrderlyRun
  import opened SessionIsolation

  const FIRST_OPEN: seq<Action> := [Dial("tcp", "a"), ServerReceive(Opened(0, ""), Complete), Start(0)]
  const WAKING: seq<Action> := [ClientReceive(Complete), Wake, ClientStart]
  const FIRST_SESSION := FIRST_OPEN + WAKING
  const CLOSES: seq<Action> := [ReadFails(0, true), ClientReadFails(true), ClientSendClose]
  const CLOSED: seq<Action> := [ServerReceive(Blocked, Complete), ClientReceive(Complete), ClientReturn]
  const CROSSING_CLOSE := CLOSES + CLOSED
  const SECOND_SESSION: seq<Action> := [
    Dial("tcp", "b"), ServerReceive(Opened(1, ""), Complete), Start(1), SendClose(0)]
  const MISLED_CLIENT: seq<Action> := [
    ClientReceive(Complete), Wake, ClientReceive(Complete), ClientStart]
  const THIRD_SESSION: seq<Action> := [
    Dial("tcp", "c"), ServerReceive(Blocked, Complete), ServerReceive(Opened(2, ""), Complete)]
  const LEAK: seq<Action> := [Read(1, [7]), ClientReceive(Complete), Wake, ClientReceive(Complete)]

  const LEAKING_RUN := FIRST_SESSION + (CROSSING_CLOSE + (SECOND_SESSION + (MISLED_CLIENT + (THIRD_SESSION + LEAK))))

  const EMPTY := Session(NO_FLOW, NO_FLOW)

  ghost predicate Leads(s: System, run: seq<Action>, t: System) {
    Legal(s, run) && Exec(s, run) == t
  }

  lemma {:induction false} LeadsOn(s: System, a: seq<Action>, t: System, b: seq<Action>, u: System)
    requires Leads(s, a, t) && Leads(t, b, u)
    ensures Leads(s, a + b, u)
    decreases |a|
  {
    if a == [] {
      assert a + b == b;
    } else {
      assert (a + b)[0] == a[0] && (a + b)[1..] == a[1..] + b;
      LeadsOn(Next(s, a[0]), a[1..], t, b, u);
    }
  }

  // ---- The state after each part ----

  const CLIENT_IN_0 := Endpoint(InStream, None, Some(0), Some(0), None)
  const SERVER_IN_0 := Endpoint(InStream, None, None, Some(0), None)
  const AFTER_1 := System(CLIENT_IN_0, false, None, Serving(0), false, {},
                          SERVER_IN_0, [Serving(0)], {0}, 1, [], [], [EMPTY])

  /** Both ends closed session 0; the server's callback is still armed and its `X` not yet sent. */
  const AFTER_2 := System(CLIENT_IN_0.(status := Idle), false, None, Returned, true, {0},
                          Endpoint(Idle, Some(ToCloser(0)), None, None, None), [Closing(0, false)], {}, 1,
                          [], [], [EMPTY])

  const AFTER_3 := System(
    CLIENT_IN_0.(status := InOper, onResult := Some(ToDialer(1))), true, None, Returned, false, {0},
    Endpoint(InStream, Some(ToCloser(0)), None, Some(1), None), [Waiting(0), Serving(1)], {1}, 2,
    [], [Tagged(Text(Reply(true, "")), 1), Tagged(Text(CloseRequest), 0)], [EMPTY, EMPTY])

  const AFTER_4 := System(
    Endpoint(Idle, None, Some(1), None, None), false, None, Returned, false, {0, 1},
    Endpoint(InStream, Some(ToCloser(0)), None, Some(1), None), [Waiting(0), Serving(1)], {1}, 2,
    [Tagged(Text(BareReply), 1)], [], [EMPTY, EMPTY])

  /** Session 2 is open while goroutine 1 still serves the live connection of session 1. */
  const AFTER_5 := System(
    Endpoint(InOper, Some(ToDialer(2)), Some(1), None, None), true, None, Returned, false, {0, 1},
    Endpoint(InStream, None, None, Some(2), None), [Returning(0), Serving(1), Starting], {1, 2}, 3,
    [], [Tagged(Text(Reply(true, "")), 2)], [EMPTY, EMPTY, EMPTY])

  const SERVED_0 := System(
    Endpoint(InOper, Some(ToDialer(0)), None, None, None), true, None, Returned, false, {},
    SERVER_IN_0, [Serving(0)], {0}, 1, [], [Tagged(Text(Reply(true, "")), 0)], [EMPTY])

  const CLOSING_0 := System(
    CLIENT_IN_0.(onResult := Some(ToCloser(0))), false, None, Waiting(0), true, {},
    SERVER_IN_0.(onResult := Some(ToCloser(0))), [Closing(0, false)], {}, 1,
    [Tagged(Text(CloseRequest), 0)], [], [EMPTY])

  lemma Opens()
    ensures Leads(INIT, FIRST_OPEN, SERVED_0)
  {
    var run := FIRST_OPEN;
    var s1 := Next(INIT, run[0]);
    var s2 := Next(s1, run[1]);
    assert Next(s2, run[2]) == SERVED_0;
  }

  lemma Wakes()
    ensures Leads(SERVED_0, WAKING, AFTER_1)
  {
    var run := WAKING;
    var s1 := Next(SERVED_0, run[0]);
    var s2 := Next(s1, run[1]);
    assert Next(s2, run[2]) == AFTER_1;
  }

  lemma Part1()
    ensures Leads(INIT, FIRST_SESSION, AFTER_1)
  {
    Opens();
    Wakes();
    LeadsOn(INIT, FIRST_OPEN, SERVED_0, WAKING, AFTER_1);
  }

  lemma BothClose()
    ensures Leads(AFTER_1, CLOSES, CLOSING_0)
  {
    var run := CLOSES;
    var s1 := Next(AFTER_1, run[0]);
    var s2 := Next(s1, run[1]);
    assert Next(s2, run[2]) == CLOSING_0;
  }

  lemma ClientClosed()
    ensures Leads(CLOSING_0, CLOSED, AFTER_2)
  {
    var run := CLOSED;
    var s1 := Next(CLOSING_0, run[0]);
    var s2 := Next(s1, run[1]);
    assert Next(s2, run[2]) == AFTER_2;
  }

  lemma Part2()
    ensures Leads(AFTER_1, CROSSING_CLOSE, AFTER_2)
  {
    BothClose();
    ClientClosed();
    LeadsOn(AFTER_1, CLOSES, CLOSING_0, CLOSED, AFTER_2);
  }

  lemma Part3()
    ensures Leads(AFTER_2, SECOND_SESSION, AFTER_3)
  {
    var run := SECOND_SESSION;
    var s1 := Next(AFTER_2, run[0]);
    var s2 := Next(s1, run[1]);
    var s3 := Next(s2, run[2]);
    assert Next(s3, run[3]) == AFTER_3;
  }

  lemma Part4()
    ensures Leads(AFTER_3, MISLED_CLIENT, AFTER_4)
  {
    var run := MISLED_CLIENT;
    var s1 := Next(AFTER_3, run[0]);
    var s2 := Next(s1, run[1]);
    var s3 := Next(s2, run[2]);
    assert Next(s3, run[3]) == AFTER_4;
  }

  lemma Part5()
    ensures Leads(AFTER_4, THIRD_SESSION, AFTER_5)
  {
    var run := THIRD_SESSION;
    var s1 := Next(AFTER_4, run[0]);
    var s2 := Next(s1, run[1]);
    assert Next(s2, run[2]) == AFTER_5;
  }

  lemma Part6() returns (s: System)
    ensures Leads(AFTER_5, LEAK, s)
    ensures |s.log| == 3 && s.log[2].down.delivered == [7] && s.log[2].down.read == []
  {
    var run := LEAK;
    var s1 := Next(AFTER_5, run[0]);
    var s2 := Next(s1, run[1]);
    var s3 := Next(s2, run[2]);
    s := Next(s3, run[3]);
  }

  /** Sessions mix: the client delivers in session 2 what the server read in session 1. */
  lemma StaleCloseMixesSessions()
    ensures Legal(INIT, LEAKING_RUN) && !Isolated(Exec(INIT, LEAKING_RUN)) && !NeverMisled(INIT, LEAKING_RUN)
  {
    Part1();
    Part2();
    Part3();
    Part4();
    Part5();
    var s := Part6();
    LeadsOn(AFTER_4, THIRD_SESSION, AFTER_5, LEAK, s);
    LeadsOn(AFTER_3, MISLED_CLIENT, AFTER_4, THIRD_SESSION + LEAK, s);
    LeadsOn(AFTER_2, SECOND_SESSION, AFTER_3, MISLED_CLIENT + (THIRD_SESSION + LEAK), s);
    LeadsOn(AFTER_1, CROSSING_CLOSE, AFTER_2, SECOND_SESSION + (MISLED_CLIENT + (THIRD_SESSION + LEAK)), s);
    LeadsOn(INIT, FIRST_SESSION, AFTER_1,
            CROSSING_CLOSE + (SECOND_SESSION + (MISLED_CLIENT + (THIRD_SESSION + LEAK))), s);
    assert !ContiguousIn(s.log[2].down.delivered, s.log[2].down.read);
    if NeverMisled(INIT, LEAKING_RUN) { SessionsStayApart(LEAKING_RUN); }
  }

  // ---- A busy server ----

  const OPENING_1: seq<Action> := [Dial("tcp", "b"), ServerReceive(Opened(1, ""), Complete), Start(1)]
  const SESSION_1 := OPENING_1 + WAKING
  const ENDING_1: seq<Action> := [ReadFails(1, true), SendClose(1), ClientReceive(Complete)]
  const ENDED_1: seq<Action> := [ServerReceive(Blocked, Complete), ClientReadFails(true), ClientReturn]
  const OPENING_2: seq<Action> := [Dial("tcp", "c"), ServerReceive(Opened(2, ""), Complete), Start(2)]
  const SESSION_2 := OPENING_2 + WAKING
  const STALE: seq<Action> := [SendClose(0), ClientReceive(Complete), ServerReceive(Blocked, Complete)]
  const LEAVING: seq<Action> := [ClientReadFails(true), ClientReturn]

  const READY_RUN :=
    FIRST_SESSION + (CROSSING_CLOSE + (SESSION_1 + (ENDING_1 + (ENDED_1 + (SESSION_2 + (STALE + LEAVING))))))

  const IN_1 := System(
    Endpoint(InStream, None, Some(1), Some(1), None), false, None, Serving(1), false, {0},
    Endpoint(InStream, Some(ToCloser(0)), None, Some(1), None), [Closing(0, false), Serving(1)], {1}, 2,
    [], [], [EMPTY, EMPTY])

  /** Session 1 is open at the server, and its answer on the way. */
  const SERVED_1 := IN_1.(
    client := CLIENT_IN_0.(status := InOper, onResult := Some(ToDialer(1))), dialing := true, serve := Returned,
    toClient := [Tagged(Text(Reply(true, "")), 1)])

  const CLOSING_1 := System(
    Endpoint(Idle, None, Some(1), None, None), false, None, Serving(1), false, {0, 1},
    Endpoint(InStream, Some(ToCloser(1)), None, Some(1), None), [Closing(0, false), Waiting(1)], {}, 2,
    [Tagged(Text(BareReply), 1)], [], [EMPTY, EMPTY])

  const OUT_1 := System(
    Endpoint(Idle, None, Some(1), None, None), false, None, Returned, false, {0, 1},
    Endpoint(Idle, None, None, Some(1), None), [Closing(0, false), Returning(1)], {}, 2, [], [], [EMPTY, EMPTY])

  const IN_2 := System(
    Endpoint(InStream, None, Some(2), Some(2), None), false, None, Serving(2), false, {0, 1},
    Endpoint(InStream, None, None, Some(2), None), [Closing(0, false), Returning(1), Serving(2)], {2}, 3,
    [], [], [EMPTY, EMPTY, EMPTY])

  const SERVED_2 := IN_2.(
    client := Endpoint(InOper, Some(ToDialer(2)), Some(1), None, None), dialing := true, serve := Returned,
    toClient := [Tagged(Text(Reply(true, "")), 2)])

  const MISLED_2 := System(
    Endpoint(Idle, None, Some(2), None, None), false, None, Serving(2), false, {0, 1, 2},
    Endpoint(InStream, None, None, Some(2), None), [Waiting(0), Returning(1), Serving(2)], {2}, 3,
    [], [], [EMPTY, EMPTY, EMPTY])

  const READY_2 := MISLED_2.(serve := Returned)

  lemma Opening1()
    ensures Leads(AFTER_2, OPENING_1, SERVED_1)
  {
    var run := OPENING_1;
    var s1 := Next(AFTER_2, run[0]);
    var s2 := Next(s1, run[1]);
    assert Next(s2, run[2]) == SERVED_1;
  }

  lemma Waking1()
    ensures Leads(SERVED_1, WAKING, IN_1)
  {
    var run := WAKING;
    var s1 := Next(SERVED_1, run[0]);
    var s2 := Next(s1, run[1]);
    assert Next(s2, run[2]) == IN_1;
  }

  lemma Opens1()
    ensures Leads(AFTER_2, SESSION_1, IN_1)
  {
    Opening1();
    Waking1();
    LeadsOn(AFTER_2, OPENING_1, SERVED_1, WAKING, IN_1);
  }

  lemma Ending1()
    ensures Leads(IN_1, ENDING_1, CLOSING_1)
  {
    var run := ENDING_1;
    var s1 := Next(IN_1, run[0]);
    var s2 := Next(s1, run[1]);
    assert Next(s2, run[2]) == CLOSING_1;
  }

  lemma Ended1()
    ensures Leads(CLOSING_1, ENDED_1, OUT_1)
  {
    var run := ENDED_1;
    var s1 := Next(CLOSING_1, run[0]);
    var s2 := Next(s1, run[1]);
    assert Next(s2, run[2]) == OUT_1;
  }

  lemma Opening2()
    ensures Leads(OUT_1, OPENING_2, SERVED_2)
  {
    var run := OPENING_2;
    var s1 := Next(OUT_1, run[0]);
    var s2 := Next(s1, run[1]);
    assert Next(s2, run[2]) == SERVED_2;
  }

  lemma Waking2()
    ensures Leads(SERVED_2, WAKING, IN_2)
  {
    var run := WAKING;
    var s1 := Next(SERVED_2, run[0]);
    var s2 := Next(s1, run[1]);
    assert Next(s2, run[2]) == IN_2;
  }

  lemma Opens2()
    ensures Leads(OUT_1, SESSION_2, IN_2)
  {
    Opening2();
    Waking2();
    LeadsOn(OUT_1, OPENING_2, SERVED_2, WAKING, IN_2);
  }

  lemma Stale2()
    ensures Leads(IN_2, STALE, MISLED_2)
  {
    var run := STALE;
    var s1 := Next(IN_2, run[0]);
    var s2 := Next(s1, run[1]);
    assert Next(s2, run[2]) == MISLED_2;
  }

  lemma Leaves2()
    ensures Leads(MISLED_2, LEAVING, READY_2)
  {
    var s1 := Next(MISLED_2, LEAVING[0]);
    assert Next(s1, LEAVING[1]) == READY_2;
  }

  lemma ReadyRun()
    ensures Leads(INIT, READY_RUN, READY_2)
  {
    Part1();
    Part2();
    Opens1();
    Ending1();
    Ended1();
    Opens2();
    Stale2();
    Leaves2();
    LeadsOn(IN_2, STALE, MISLED_2, LEAVING, READY_2);
    LeadsOn(OUT_1, SESSION_2, IN_2, STALE + LEAVING, READY_2);
    LeadsOn(CLOSING_1, ENDED_1, OUT_1, SESSION_2 + (STALE + LEAVING), READY_2);
    LeadsOn(IN_1, ENDING_1, CLOSING_1, ENDED_1 + (SESSION_2 + (STALE + LEAVING)), READY_2);
    LeadsOn(AFTER_2, SESSION_1, IN_1, ENDING_1 + (ENDED_1 + (SESSION_2 + (STALE + LEAVING))), READY_2);
    LeadsOn(AFTER_1, CROSSING_CLOSE, AFTER_2,
            SESSION_1 + (ENDING_1 + (ENDED_1 + (SESSION_2 + (STALE + LEAVING)))), READY_2);
    LeadsOn(INIT, FIRST_SESSION, AFTER_1,
            CROSSING_CLOSE + (SESSION_1 + (ENDING_1 + (ENDED_1 + (SESSION_2 + (STALE + LEAVING))))), READY_2);
  }

  /**
   * The client may dial and nothing is in flight, yet the server is busy; the open request then
   * meets it in stream mode and closes it.
   */
  lemma StaleCloseMeetsBusyServer()
    ensures Legal(INIT, READY_RUN) && !NeverMisled(INIT, READY_RUN)
    ensures var s, dial := Exec(INIT, READY_RUN), Dial("tcp", "d");
            && Enabled(s, dial) && s.toServer == [] && s.toClient == [] && s.server.status != Idle
            && !OpensIdle(Next(s, dial))
            && Next(Next(s, dial), ServerReceive(Blocked, Complete)).server.status == Closed
  {
    ReadyRun();
    if NeverMisled(INIT, READY_RUN) { ReadyClientMeansIdleServer(READY_RUN, "tcp", "d"); }
  }
}
