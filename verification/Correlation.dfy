/**
 * Requests and replies between two ends of a tunnel, in every run until an end closes: both ends
 * may dial, listen, cancel, send and close in any interleaving.
 */
module Correlation {
  import opened Basics
  import opened Tunnel

  /**
   * One end with the history of its requests, the replies it gave and the replies it got. `holder`
   * is the number of the next request when the installed callback was installed, `behind` how many
   * answers were outstanding then, and `unsent` counts close callbacks whose `X` is not sent yet.
   * `misrouted` records a callback that was given the answer to another request than its `holder`,
   * or one of the wrong kind. `decided` is what this end's checks, dialer and listener decided about
   * each request it answered, `told` what its callbacks were told.
   */
  datatype Side = Side(
    ep: Endpoint,
    reqs: seq<Command>,
    answers: seq<Command>,
    decided: seq<Answer>,
    got: seq<Command>,
    holder: nat,
    behind: int,
    unsent: nat,
    out: seq<Message>,
    misrouted: bool,
    told: seq<Told>)

  /** A callback's invocation, with the number of the request that the reply answers. */
  datatype Told = Told(call: Call, request: nat)

  datatype Pair = Pair(me: Side, peer: Side, broken: bool)

  const NEW_SIDE := Side(FRESH, [], [], [], [], 0, 0, 0, [], false, [])
  const NEW_PAIR := Pair(NEW_SIDE, NEW_SIDE, false)

  datatype Move =
    | Hear(answer: Answer, copy: Copy)
    | BeginDial(dial: nat, kind: Kind, protocol: string, target: string)
    | Finish(ok: bool, kind: Kind, pipe: ConnId)
    | Cancel
    | Install(g: nat)
    | SendClose
    | SendData(data: seq<byte>)
    | SendNote(text: string)
    | Shut

  /** A move of the first end or, with `swap`, of the second. */
  datatype Action = Action(swap: bool, move: Move)

  function Swap(p: Pair): Pair { Pair(p.peer, p.me, p.broken) }

  function Reqs(out: seq<Message>): seq<Command> {
    if out == [] then [] else (if IsRequest(out[0]) then [out[0].cmd] else []) + Reqs(out[1..])
  }

  function Reps(out: seq<Message>): seq<Command> {
    if out == [] then [] else (if IsReply(out[0]) then [out[0].cmd] else []) + Reps(out[1..])
  }

  predicate Can(p: Pair, m: Move) {
    match m
    case Hear(_, _) => p.peer.out != []
    case BeginDial(_, _, _, _) => p.me.ep.status == Idle
    case SendClose => p.me.unsent > 0
    case _ => true
  }

  function Opening(kind: Kind, protocol: string, target: string): Command {
    if kind == StreamKind then OpenStream(protocol, target) else OpenPacket(protocol, target)
  }

  predicate Misroutes(me: Side, msg: Message, calls: seq<Call>) {
    calls != [] && (me.holder != |me.got| || (calls[0].cb.ToCloser? != (msg == Text(BareReply))))
  }

  function Handle(ep: Endpoint, msg: Message, answer: Answer, copy: Copy): Effect {
    if msg.Text? then HandleCommand(ep, msg.cmd, answer, true) else HandleBinary(ep, msg.data, copy, true)
  }

  function Heard(p: Pair, answer: Answer, copy: Copy): Pair
    requires p.peer.out != []
  {
    var msg := p.peer.out[0];
    var e := Handle(p.me.ep, msg, answer, copy);
    Pair(p.me.(ep := e.ep, out := p.me.out + e.sent, answers := p.me.answers + Reps(e.sent),
               decided := if Reps(e.sent) != [] then p.me.decided + [answer] else p.me.decided,
               told := if e.calls != [] then p.me.told + [Told(e.calls[0], |p.me.got|)] else p.me.told,
               got := if IsReply(msg) then p.me.got + [msg.cmd] else p.me.got,
               misrouted := p.me.misrouted || Misroutes(p.me, msg, e.calls)),
         p.peer.(out := p.peer.out[1..]),
         p.broken || (IsRequest(msg) && e.sent == []))
  }

  function Outstanding(s: Side): int { |s.reqs| - |s.got| }

  /** Requesting: the command leaves and is remembered. */
  function Ask(s: Side, e: Effect, cmd: Command): Side {
    s.(ep := e.ep, out := s.out + e.sent, reqs := s.reqs + [cmd])
  }

  function Act(p: Pair, m: Move): Pair
    requires Can(p, m)
  {
    var me := p.me;
    match m
    case Hear(answer, copy) => Heard(p, answer, copy)
    case BeginDial(dial, kind, protocol, target) =>
      var cmd := Opening(kind, protocol, target);
      p.(me := Ask(me, DialBegin(me.ep, dial, cmd, true).value, cmd).(holder := |me.reqs|, behind := Outstanding(me)))
    case Finish(ok, kind, pipe) => p.(me := me.(ep := DialFinish(me.ep, ok, kind, pipe).ep))
    case Cancel => p.(me := me.(ep := DialCancel(me.ep).ep))
    case Install(g) =>
      p.(me := me.(ep := InstallCloser(me.ep, g).ep, holder := |me.reqs|, behind := Outstanding(me),
                   unsent := me.unsent + 1))
    case SendClose => p.(me := Ask(me, Send(Quiet(me.ep), CloseRequest, true), CloseRequest).(unsent := me.unsent - 1))
    case SendData(data) => p.(me := me.(out := me.out + [Binary(data)]))
    case SendNote(text) => p.(me := me.(out := me.out + [Text(ErrorNote(text))]))
    case Shut => p.(me := me.(ep := CloseWith(Quiet(me.ep)).ep), broken := true)
  }

  predicate Enabled(p: Pair, a: Action) { Can(if a.swap then Swap(p) else p, a.move) }

  function Next(p: Pair, a: Action): Pair
    requires Enabled(p, a)
  {
    if a.swap then Swap(Act(Swap(p), a.move)) else Act(p, a.move)
  }

  // ---- Correlation ----

  /** The reply a request deserves when the environment has decided `d` about it. */
  predicate Fits(req: Command, d: Answer, rep: Command) {
    if req.CloseRequest? then rep == BareReply else
    match d
    case Blocked => rep == Reply(false, "Incoming request blocked")
    case Failed(error) => rep == Reply(false, error)
    case Opened(_, addr) => rep == Reply(true, addr)
  }

  ghost predicate AllFit(reqs: seq<Command>, decided: seq<Answer>, answers: seq<Command>) {
    && |answers| == |decided| <= |reqs|
    && forall k | 0 <= k < |answers| :: Fits(reqs[k], decided[k], answers[k])
  }

  /** The requests of `me`: answered in order, each in its kind, the rest still on the way. */
  ghost predicate Answered(me: Side, peer: Side) {
    && AllFit(me.reqs, peer.decided, peer.answers)
    && Reqs(me.out) == me.reqs[|peer.answers|..]
    && peer.answers == me.got + Reps(peer.out)
  }

  ghost predicate Correlated(p: Pair) { Answered(p.me, p.peer) && Answered(p.peer, p.me) }

  lemma {:induction false} ReqsAppend(a: seq<Message>, b: seq<Message>)
    ensures Reqs(a + b) == Reqs(a) + Reqs(b)
  {
    if a == [] {
      assert a + b == b;
    } else {
      assert (a + b)[0] == a[0] && (a + b)[1..] == a[1..] + b;
      ReqsAppend(a[1..], b);
      assert Reqs(a + b) == (if IsRequest(a[0]) then [a[0].cmd] else []) + (Reqs(a[1..]) + Reqs(b));
    }
  }

  lemma {:induction false} RepsAppend(a: seq<Message>, b: seq<Message>)
    ensures Reps(a + b) == Reps(a) + Reps(b)
  {
    if a == [] {
      assert a + b == b;
    } else {
      assert (a + b)[0] == a[0] && (a + b)[1..] == a[1..] + b;
      RepsAppend(a[1..], b);
      assert Reps(a + b) == (if IsReply(a[0]) then [a[0].cmd] else []) + (Reps(a[1..]) + Reps(b));
    }
  }

  /** What a handler sends: one fitting reply to a request it does not close on, and no request ever. */
  lemma HandlerReplies(ep: Endpoint, msg: Message, answer: Answer, copy: Copy)
    ensures var e := Handle(ep, msg, answer, copy);
            && Reqs(e.sent) == []
            && (IsRequest(msg) && e.sent != [] ==> |Reps(e.sent)| == 1 && Fits(msg.cmd, answer, Reps(e.sent)[0]))
            && (!IsRequest(msg) ==> Reps(e.sent) == [])
  {
  }

  /** The peer's requests, when the first message of its channel is handled and `sent` is the outcome. */
  lemma PeerAnswered(me: Side, peer: Side, me': Side, peer': Side, sent: seq<Message>, d: Answer)
    requires Answered(peer, me) && peer.out != [] && peer' == peer.(out := peer.out[1..])
    requires me'.answers == me.answers + Reps(sent) && me'.out == me.out + sent
    requires me'.decided == if Reps(sent) != [] then me.decided + [d] else me.decided
    requires if IsRequest(peer.out[0]) then |Reps(sent)| == 1 && Fits(peer.out[0].cmd, d, Reps(sent)[0])
             else Reps(sent) == []
    ensures Answered(peer', me')
  {
    RepsAppend(me.out, sent);
    Join(peer.got, Reps(me.out), Reps(sent));
    NextAnswer(peer.reqs, me.decided, me.answers, peer.out, d, Reps(sent));
  }

  lemma Join(a: seq<Command>, b: seq<Command>, c: seq<Command>)
    ensures (a + b) + c == a + (b + c)
  {
  }

  /** Handling the first message moves one request, if it is one, from the way to the answered ones. */
  lemma NextAnswer(reqs: seq<Command>, decided: seq<Answer>, answers: seq<Command>, out: seq<Message>,
                   d: Answer, reply: seq<Command>)
    requires AllFit(reqs, decided, answers) && out != [] && Reqs(out) == reqs[|answers|..]
    requires if IsRequest(out[0]) then |reply| == 1 && Fits(out[0].cmd, d, reply[0]) else reply == []
    ensures AllFit(reqs, if reply != [] then decided + [d] else decided, answers + reply)
    ensures Reqs(out[1..]) == reqs[|answers + reply|..]
  {
    if IsRequest(out[0]) {
      FirstRequest(reqs, |answers|, out);
      assert reply == [reply[0]];
      FitsOneMore(reqs, decided, answers, d, reply[0]);
    } else {
      assert answers + reply == answers;
    }
  }

  lemma FitsOneMore(reqs: seq<Command>, decided: seq<Answer>, answers: seq<Command>, d: Answer, answer: Command)
    requires AllFit(reqs, decided, answers) && |answers| < |reqs| && Fits(reqs[|answers|], d, answer)
    ensures AllFit(reqs, decided + [d], answers + [answer])
  {
  }

  /** The first request on the way is the first one not answered. */
  lemma FirstRequest(reqs: seq<Command>, n: nat, out: seq<Message>)
    requires n <= |reqs| && out != [] && IsRequest(out[0]) && Reqs(out) == reqs[n..]
    ensures n < |reqs| && reqs[n] == out[0].cmd && Reqs(out[1..]) == reqs[n + 1..]
  {
    assert Reqs(out) == [out[0].cmd] + Reqs(out[1..]);
    assert reqs[n..][0] == out[0].cmd;
    assert reqs[n + 1..] == reqs[n..][1..];
  }

  /** My own requests, when I handle the first message of the peer's channel. */
  lemma MineAnswered(me: Side, peer: Side, me': Side, peer': Side, sent: seq<Message>)
    requires Answered(me, peer) && peer.out != [] && peer' == peer.(out := peer.out[1..])
    requires me'.reqs == me.reqs && me'.out == me.out + sent && Reqs(sent) == []
    requires me'.got == if IsReply(peer.out[0]) then me.got + [peer.out[0].cmd] else me.got
    ensures Answered(me', peer')
  {
    ReqsAppend(me.out, sent);
    assert Reqs(me.out) + [] == Reqs(me.out);
    if IsReply(peer.out[0]) { Join(me.got, [peer.out[0].cmd], Reps(peer.out[1..])); }
  }

  lemma HearKeeps(p: Pair, answer: Answer, copy: Copy)
    requires Correlated(p) && p.peer.out != [] && !Heard(p, answer, copy).broken
    ensures Correlated(Heard(p, answer, copy))
  {
    var q, sent := Heard(p, answer, copy), Handle(p.me.ep, p.peer.out[0], answer, copy).sent;
    HandlerReplies(p.me.ep, p.peer.out[0], answer, copy);
    PeerAnswered(p.me, p.peer, q.me, q.peer, sent, answer);
    MineAnswered(p.me, p.peer, q.me, q.peer, sent);
  }

  /** My requests grow by what I say. */
  lemma MineSaid(me: Side, peer: Side, me': Side, sent: seq<Message>)
    requires Answered(me, peer) && me'.out == me.out + sent && me'.reqs == me.reqs + Reqs(sent) && me'.got == me.got
    ensures Answered(me', peer)
  {
    var n := |peer.answers|;
    ReqsAppend(me.out, sent);
    assert (me.reqs + Reqs(sent))[n..] == me.reqs[n..] + Reqs(sent);
  }

  /** What I say answers nothing. */
  lemma PeersSaid(me: Side, peer: Side, me': Side, sent: seq<Message>)
    requires Answered(peer, me) && me'.out == me.out + sent && me'.answers == me.answers && me'.decided == me.decided
    requires Reps(sent) == []
    ensures Answered(peer, me')
  {
    RepsAppend(me.out, sent);
    assert Reps(me.out) + [] == Reps(me.out);
  }

  lemma OneSaid(msg: Message)
    requires !IsReply(msg)
    ensures Reps([msg]) == [] && Reqs([msg]) == if IsRequest(msg) then [msg.cmd] else []
  {
    assert [msg][1..] == [];
  }

  /** What a move other than hearing says. */
  function Said(m: Move): seq<Message> {
    match m
    case BeginDial(_, kind, protocol, target) => [Text(Opening(kind, protocol, target))]
    case SendClose => [Text(CloseRequest)]
    case SendData(data) => [Binary(data)]
    case SendNote(text) => [Text(ErrorNote(text))]
    case _ => []
  }

  lemma ActSays(p: Pair, m: Move)
    requires Can(p, m) && !m.Hear?
    ensures var q, sent := Act(p, m), Said(m);
            && q.peer == p.peer && q.me.out == p.me.out + sent && q.me.got == p.me.got && q.me.answers == p.me.answers
            && q.me.decided == p.me.decided && q.me.told == p.me.told
            && Reps(sent) == [] && q.me.reqs == p.me.reqs + Reqs(sent)
  {
    if Said(m) != [] { OneSaid(Said(m)[0]); }
    assert p.me.out + [] == p.me.out && p.me.reqs + [] == p.me.reqs;
  }

  lemma SayKeeps(p: Pair, m: Move)
    requires Correlated(p) && Can(p, m) && !m.Hear?
    ensures Correlated(Act(p, m))
  {
    ActSays(p, m);
    MineSaid(p.me, p.peer, Act(p, m).me, Said(m));
    PeersSaid(p.me, p.peer, Act(p, m).me, Said(m));
  }

  lemma ActKeeps(p: Pair, m: Move)
    requires Can(p, m) && (!p.broken ==> Correlated(p))
    ensures !Act(p, m).broken ==> Correlated(Act(p, m))
  {
    if !Act(p, m).broken {
      if m.Hear? { HearKeeps(p, m.answer, m.copy); } else { SayKeeps(p, m); }
    }
  }

  // ---- What callbacks are told ----

  /** The call carries what the peer decided about the request that the reply answers. */
  predicate Truth(req: Command, d: Answer, call: Call) {
    if req.CloseRequest? then !call.ok && call.text == "" else
    match d
    case Blocked => !call.ok && call.text == "Incoming request blocked"
    case Failed(error) => !call.ok && call.text == error
    case Opened(_, addr) => call.ok && call.text == addr
  }

  ghost predicate ToldTruth(me: Side, peer: Side) {
    forall t | t in me.told ::
      t.request < |me.got| <= |me.reqs| && |me.got| <= |peer.decided|
      && Truth(me.reqs[t.request], peer.decided[t.request], t.call)
  }

  lemma HearTellsTruth(p: Pair, answer: Answer, copy: Copy)
    requires Correlated(p) && ToldTruth(p.me, p.peer) && ToldTruth(p.peer, p.me) && p.peer.out != []
    requires Correlated(Heard(p, answer, copy))
    ensures ToldTruth(Heard(p, answer, copy).me, Heard(p, answer, copy).peer)
    ensures ToldTruth(Heard(p, answer, copy).peer, Heard(p, answer, copy).me)
  {
    var q, msg := Heard(p, answer, copy), p.peer.out[0];
    TruthGrows(p.peer, p.me, q.peer, q.me);
    if IsReply(msg) {
      AnswerFits(p.me, p.peer);
      ReplyTellsTruth(p, answer, copy);
    } else {
      OnlyRepliesCall(p.me.ep, msg, answer, copy);
      TruthGrows(p.me, p.peer, q.me, q.peer);
    }
  }

  /** What was told stays true as replies and decisions are added. */
  lemma TruthGrows(me: Side, peer: Side, me': Side, peer': Side)
    requires ToldTruth(me, peer) && me'.told == me.told && me'.reqs == me.reqs && Answered(me', peer')
    requires |me.got| <= |me'.got| && peer.decided <= peer'.decided
    ensures ToldTruth(me', peer')
  {
  }

  lemma ReplyTellsTruth(p: Pair, answer: Answer, copy: Copy)
    requires ToldTruth(p.me, p.peer) && p.peer.out != [] && IsReply(p.peer.out[0])
    requires |p.me.got| < |p.me.reqs| && |p.me.got| < |p.peer.decided|
    requires Fits(p.me.reqs[|p.me.got|], p.peer.decided[|p.me.got|], p.peer.out[0].cmd)
    ensures ToldTruth(Heard(p, answer, copy).me, Heard(p, answer, copy).peer)
  {
  }

  lemma ActTellsTruth(p: Pair, m: Move)
    requires Correlated(p) && ToldTruth(p.me, p.peer) && ToldTruth(p.peer, p.me) && Can(p, m)
    requires Correlated(Act(p, m))
    ensures ToldTruth(Act(p, m).me, Act(p, m).peer) && ToldTruth(Act(p, m).peer, Act(p, m).me)
  {
    if m.Hear? { HearTellsTruth(p, m.answer, m.copy); } else { ActSays(p, m); }
  }

  // ---- A callback gets its own answer ----

  /** A reply is given to a callback that was installed while an earlier answer was outstanding. */
  predicate Overtakes(p: Pair, a: Action)
    requires Enabled(p, a)
  {
    var q := if a.swap then Swap(p) else p;
    a.move.Hear? && IsReply(q.peer.out[0]) && q.me.ep.onResult.Some? && q.me.behind > 0
  }

  /** As long as a callback is installed no answer arrives, and its request is of its kind. */
  ghost predicate Holds(s: Side) {
    s.ep.onResult.Some? ==>
      && s.holder == |s.got| + s.behind && s.behind >= 0
      && if s.holder < |s.reqs| then s.ep.onResult.value.ToCloser? <==> s.reqs[s.holder].CloseRequest?
         else s.ep.onResult.value.ToCloser? && s.holder == |s.reqs|
  }

  lemma HearHolds(p: Pair, answer: Answer, copy: Copy)
    requires Correlated(p) && Holds(p.me) && Holds(p.peer) && p.peer.out != []
    ensures var q := Heard(p, answer, copy);
            && Holds(q.me) && Holds(q.peer) && q.peer.misrouted == p.peer.misrouted
            && (q.me.misrouted <==> p.me.misrouted || Overtakes(p, Action(false, Hear(answer, copy))))
  {
    var msg := p.peer.out[0];
    if IsReply(msg) { ReplyHolds(p, answer, copy); } else { OnlyRepliesCall(p.me.ep, msg, answer, copy); }
  }

  lemma OnlyRepliesCall(ep: Endpoint, msg: Message, answer: Answer, copy: Copy)
    requires !IsReply(msg)
    ensures Handle(ep, msg, answer, copy).calls == [] && Handle(ep, msg, answer, copy).ep.onResult == ep.onResult
  {
  }

  lemma ReplyHolds(p: Pair, answer: Answer, copy: Copy)
    requires Correlated(p) && Holds(p.me) && p.peer.out != [] && IsReply(p.peer.out[0])
    ensures var q := Heard(p, answer, copy);
            && q.me.ep.onResult.None?
            && (q.me.misrouted <==> p.me.misrouted || (p.me.ep.onResult.Some? && p.me.behind > 0))
  {
    AnswerFits(p.me, p.peer);
  }

  /** The reply about to be heard fits the request it answers. */
  lemma AnswerFits(me: Side, peer: Side)
    requires Answered(me, peer) && peer.out != [] && IsReply(peer.out[0])
    ensures |me.got| < |me.reqs| && |me.got| < |peer.decided|
    ensures Fits(me.reqs[|me.got|], peer.decided[|me.got|], peer.out[0].cmd)
  {
    var k := |me.got|;
    assert Reps(peer.out)[0] == peer.out[0].cmd;
    assert peer.answers[k] == peer.out[0].cmd;
  }

  lemma SayHolds(p: Pair, m: Move)
    requires Correlated(p) && Holds(p.me) && Can(p, m) && !m.Hear?
    ensures Holds(Act(p, m).me) && Act(p, m).me.misrouted == p.me.misrouted && Act(p, m).peer == p.peer
  {
  }

  lemma ActHolds(p: Pair, m: Move)
    requires Correlated(p) && Holds(p.me) && Holds(p.peer) && Can(p, m)
    ensures Holds(Act(p, m).me) && Holds(Act(p, m).peer) && Act(p, m).peer.misrouted == p.peer.misrouted
    ensures Act(p, m).me.misrouted <==> p.me.misrouted || Overtakes(p, Action(false, m))
  {
    if m.Hear? { HearHolds(p, m.answer, m.copy); } else { SayHolds(p, m); }
  }

  /** A new request begins only when the last one has been answered. */
  predicate Disciplined(s: Side, m: Move) {
    m.BeginDial? || m.Install? ==> |s.reqs| == |s.got| && s.unsent == 0
  }

  predicate Prompt(s: Side) { s.ep.onResult.Some? ==> s.behind == 0 }

  lemma PromptKeeps(p: Pair, m: Move)
    requires Prompt(p.me) && Prompt(p.peer) && Can(p, m) && Disciplined(p.me, m)
    ensures Prompt(Act(p, m).me) && Prompt(Act(p, m).peer)
  {
  }

  // ---- Whole runs ----

  predicate Legal(p: Pair, run: seq<Action>)
    decreases |run|
  {
    run == [] || (Enabled(p, run[0]) && Legal(Next(p, run[0]), run[1..]))
  }

  function Exec(p: Pair, run: seq<Action>): Pair
    requires Legal(p, run)
    decreases |run|
  {
    if run == [] then p else Exec(Next(p, run[0]), run[1..])
  }

  ghost predicate AllDisciplined(p: Pair, run: seq<Action>)
    requires Legal(p, run)
    decreases |run|
  {
    run != [] ==> Disciplined(if run[0].swap then p.peer else p.me, run[0].move)
                  && AllDisciplined(Next(p, run[0]), run[1..])
  }

  lemma StepKeeps(p: Pair, a: Action)
    requires Enabled(p, a) && (!p.broken ==> Correlated(p))
    ensures !Next(p, a).broken ==> Correlated(Next(p, a))
    ensures p.broken ==> Next(p, a).broken
  {
    ActKeeps(if a.swap then Swap(p) else p, a.move);
  }

  lemma {:induction false} RunKeeps(p: Pair, run: seq<Action>)
    requires Legal(p, run) && (!p.broken ==> Correlated(p))
    ensures !Exec(p, run).broken ==> Correlated(Exec(p, run))
    decreases |run|
  {
    if run != [] {
      StepKeeps(p, run[0]);
      RunKeeps(Next(p, run[0]), run[1..]);
    }
  }

  /** In every run until an end closes, requests and replies are counted and matched, in both directions. */
  lemma RepliesCorrelate(run: seq<Action>)
    requires Legal(NEW_PAIR, run) && !Exec(NEW_PAIR, run).broken
    ensures var p := Exec(NEW_PAIR, run);
            && Correlated(p)
            && |p.me.reqs| == |Reqs(p.me.out)| + |Reps(p.peer.out)| + |p.me.got|
            && |p.peer.reqs| == |Reqs(p.peer.out)| + |Reps(p.me.out)| + |p.peer.got|
            && (forall k | 0 <= k < |p.me.got| :: Fits(p.me.reqs[k], p.peer.decided[k], p.me.got[k]))
            && (forall k | 0 <= k < |p.peer.got| :: Fits(p.peer.reqs[k], p.me.decided[k], p.peer.got[k]))
  {
    RunKeeps(NEW_PAIR, run);
    var p := Exec(NEW_PAIR, run);
    assert forall k | 0 <= k < |p.me.got| :: p.me.got[k] == p.peer.answers[k];
    assert forall k | 0 <= k < |p.peer.got| :: p.peer.got[k] == p.me.answers[k];
  }

  /** No step of the run gives a reply to a callback installed too early. */
  predicate NeverOvertakes(p: Pair, run: seq<Action>)
    requires Legal(p, run)
    decreases |run|
  {
    run != [] ==> !Overtakes(p, run[0]) && NeverOvertakes(Next(p, run[0]), run[1..])
  }

  lemma {:induction false} RunMisroutes(p: Pair, run: seq<Action>)
    requires Legal(p, run) && Correlated(p) && Holds(p.me) && Holds(p.peer) && !Exec(p, run).broken
    ensures var q := Exec(p, run);
            q.me.misrouted || q.peer.misrouted <==> p.me.misrouted || p.peer.misrouted || !NeverOvertakes(p, run)
    decreases |run|
  {
    if run != [] {
      var a, q := run[0], Next(p, run[0]);
      if q.broken { BrokenStays(q, run[1..]); }
      if p.broken { BrokenStays(p, run); }
      StepKeeps(p, a);
      ActHolds(if a.swap then Swap(p) else p, a.move);
      RunMisroutes(q, run[1..]);
    }
  }

  /**
   * In every run until an end closes, some callback was given another request's answer exactly if
   * some reply met a callback that had been installed while an earlier answer was outstanding.
   */
  lemma MisroutedExactly(run: seq<Action>)
    requires Legal(NEW_PAIR, run) && !Exec(NEW_PAIR, run).broken
    ensures Exec(NEW_PAIR, run).me.misrouted || Exec(NEW_PAIR, run).peer.misrouted <==> !NeverOvertakes(NEW_PAIR, run)
  {
    RunMisroutes(NEW_PAIR, run);
  }

  lemma {:induction false} DisciplinedRunPrompt(p: Pair, run: seq<Action>)
    requires Legal(p, run) && AllDisciplined(p, run) && Prompt(p.me) && Prompt(p.peer)
    ensures NeverOvertakes(p, run)
    decreases |run|
  {
    if run != [] {
      PromptKeeps(if run[0].swap then Swap(p) else p, run[0].move);
      DisciplinedRunPrompt(Next(p, run[0]), run[1..]);
    }
  }

  lemma {:induction false} RunTellsTruth(p: Pair, run: seq<Action>)
    requires Legal(p, run) && Correlated(p) && ToldTruth(p.me, p.peer) && ToldTruth(p.peer, p.me)
    requires !Exec(p, run).broken
    ensures ToldTruth(Exec(p, run).me, Exec(p, run).peer) && ToldTruth(Exec(p, run).peer, Exec(p, run).me)
    decreases |run|
  {
    if run != [] {
      var a, q := run[0], Next(p, run[0]);
      if q.broken { BrokenStays(q, run[1..]); }
      StepKeeps(p, a);
      ActTellsTruth(if a.swap then Swap(p) else p, a.move);
      RunTellsTruth(q, run[1..]);
    }
  }

  /**
   * In every run until an end closes, whatever callback is called is told what the peer's dialer,
   * listener or check decided about the request answered, down to the address or the error text.
   */
  lemma CallbacksAreToldTheDecision(run: seq<Action>)
    requires Legal(NEW_PAIR, run) && !Exec(NEW_PAIR, run).broken
    ensures ToldTruth(Exec(NEW_PAIR, run).me, Exec(NEW_PAIR, run).peer)
    ensures ToldTruth(Exec(NEW_PAIR, run).peer, Exec(NEW_PAIR, run).me)
  {
    RunTellsTruth(NEW_PAIR, run);
  }

  /** No reply reaches the callback of a cancelled dial. */
  lemma CancelSilences(p: Pair, answer: Answer, copy: Copy)
    requires p.peer.out != []
    ensures Heard(Act(p, Cancel), answer, copy).me.told == p.me.told
  {
  }

  lemma {:induction false} BrokenStays(p: Pair, run: seq<Action>)
    requires Legal(p, run) && p.broken
    ensures Exec(p, run).broken
    decreases |run|
  {
    if run != [] { BrokenStays(Next(p, run[0]), run[1..]); }
  }

  /** With one request outstanding at a time, every callback is given the answer to its own request. */
  lemma CallbacksGetTheirOwnAnswer(run: seq<Action>)
    requires Legal(NEW_PAIR, run) && AllDisciplined(NEW_PAIR, run) && !Exec(NEW_PAIR, run).broken
    ensures !Exec(NEW_PAIR, run).me.misrouted && !Exec(NEW_PAIR, run).peer.misrouted
  {
    DisciplinedRunPrompt(NEW_PAIR, run);
    MisroutedExactly(run);
  }

  const REDIAL: seq<Action> := [
    Action(false, BeginDial(0, StreamKind, "tcp", "a")), Action(false, Cancel),
    Action(false, BeginDial(1, StreamKind, "tcp", "b")),
    Action(true, Hear(Failed("no"), Complete)), Action(false, Hear(Blocked, Complete))]

  /** A dial cancelled before its answer, then a second dial: it is given the first one's answer. */
  lemma CancelledDialMisroutes()
    ensures Legal(NEW_PAIR, REDIAL) && !Exec(NEW_PAIR, REDIAL).broken && Exec(NEW_PAIR, REDIAL).me.misrouted
  {
    var p1 := Next(NEW_PAIR, REDIAL[0]);
    var p2 := Next(p1, REDIAL[1]);
    var p3 := Next(p2, REDIAL[2]);
    var p4 := Next(p3, REDIAL[3]);
    assert Next(p4, REDIAL[4]).me.misrouted;
  }
}
