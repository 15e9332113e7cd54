/** What an error note does: it closes the local pipe of the session it arrives in. */
module ErrorNotes {
  import opened Basics
  import opened Tunnel
  import opened OrderlyRun
  import Ownership

  predicate IsNote(m: Message) { m.Text? && m.cmd.ErrorNote? }

  // ---- Orderly runs ----

  /** In stream mode the client's latest session has its alarm set, or its pipe is closed already. */
  predicate Alarmed(s: System) {
    s.client.status == InStream ==>
      && |s.log| > 0
      && (s.client.onCmdErr == Some(|s.log| - 1) || (s.client.onCmdErr.None? && |s.log| - 1 in s.pipesClosed))
  }

  /** Only the dialer enters stream mode, and no dial begins in it. */
  predicate Dialed(s: System) { s.dialing ==> |s.log| > 0 }

  lemma ReceiveAlarmed(s: System, copy: Copy)
    requires Alarmed(s) && Enabled(s, ClientReceive(copy))
    ensures Alarmed(DoClientReceive(s, copy)) && |DoClientReceive(s, copy).log| == |s.log|
  {
    var t := DoClientReceive(s, copy);
    assert t.client.status == InStream ==> s.client.status == InStream;
    assert s.pipesClosed <= t.pipesClosed;
    assert t.client.onCmdErr == s.client.onCmdErr || s.client.onCmdErr.value in t.pipesClosed;
  }

  lemma StepAlarmed(s: System, a: Action)
    requires Alarmed(s) && Dialed(s) && Enabled(s, a)
    ensures Alarmed(Next(s, a)) && Dialed(Next(s, a))
  {
    match a
    case ClientReceive(copy) => ReceiveAlarmed(s, copy);
    case _ =>
  }

  lemma {:induction false} RunAlarmed(s: System, run: seq<Action>)
    requires Alarmed(s) && Dialed(s) && Legal(s, run)
    ensures Alarmed(Exec(s, run))
    decreases |run|
  {
    if run != [] {
      StepAlarmed(s, run[0]);
      RunAlarmed(Next(s, run[0]), run[1..]);
    }
  }

  /** In every orderly run, a note heard in stream mode closes the pipe of the client's session, and no other pipe. */
  lemma NoteClosesSessionPipe(run: seq<Action>, copy: Copy)
    requires Legal(INIT, run) && Enabled(Exec(INIT, run), ClientReceive(copy))
    requires Exec(INIT, run).client.status == InStream && IsNote(Exec(INIT, run).toClient[0].msg)
    ensures var s := Exec(INIT, run);
            |s.log| > 0 && Next(s, ClientReceive(copy)).pipesClosed == s.pipesClosed + {|s.log| - 1}
  {
    RunAlarmed(INIT, run);
  }

  // ---- Any end that dials ----

  /** The pipe of the last successful dial or listen, unless a note was heard outside idle since. */
  function Watch(h: Ownership.Host, a: Ownership.Action, w: Option<ConnId>): Option<ConnId>
    requires Ownership.Enabled(h, a)
  {
    match a
    case Wake(dial, pipe) => if h.results[dial] then Some(pipe) else w
    case Receive(msg, _, _, _) => if IsNote(msg) && h.ep.status != Idle then None else w
    case _ => w
  }

  function Watched(h: Ownership.Host, run: seq<Ownership.Action>, w: Option<ConnId>): Option<ConnId>
    requires Ownership.Legal(h, run)
    decreases |run|
  {
    if run == [] then w else Watched(Ownership.Next(h, run[0]), run[1..], Watch(h, run[0], w))
  }

  lemma StepWatches(h: Ownership.Host, a: Ownership.Action)
    requires Ownership.Enabled(h, a)
    ensures Ownership.Next(h, a).ep.onCmdErr == Watch(h, a, h.ep.onCmdErr)
  {
    if a.Receive? { HearWatches(h, a); }
  }

  lemma HearWatches(h: Ownership.Host, a: Ownership.Action)
    requires Ownership.Enabled(h, a) && a.Receive?
    ensures Ownership.Next(h, a).ep.onCmdErr == Watch(h, a, h.ep.onCmdErr)
  {
    var ep := Ownership.Next(h, a).ep;
    match a.msg
    case Binary(data) => assert ep == HandleBinary(h.ep, data, a.copy, a.sendOk).ep;
    case Text(cmd) => assert ep == HandleCommand(h.ep, cmd, a.answer, a.sendOk).ep;
  }

  lemma {:induction false} RunWatches(h: Ownership.Host, run: seq<Ownership.Action>)
    requires Ownership.Legal(h, run)
    ensures Ownership.Exec(h, run).ep.onCmdErr == Watched(h, run, h.ep.onCmdErr)
    decreases |run|
  {
    if run != [] {
      StepWatches(h, run[0]);
      RunWatches(Ownership.Next(h, run[0]), run[1..]);
    }
  }

  /** Hearing a note, an end that is not idle closes exactly the pipe it still watches; an idle one closes nothing. */
  lemma NoteClosesWatchedPipe(run: seq<Ownership.Action>, text: string, answer: Answer, copy: Copy, sendOk: bool)
    requires Ownership.Legal(Ownership.NEW_HOST, run) && !answer.Opened?
    ensures var h := Ownership.Exec(Ownership.NEW_HOST, run);
            Ownership.Next(h, Ownership.Receive(Text(ErrorNote(text)), answer, copy, sendOk)).closed ==
            h.closed + (if h.ep.status == Idle then {} else ToSet(Watched(Ownership.NEW_HOST, run, None)))
  {
    RunWatches(Ownership.NEW_HOST, run);
  }
}
