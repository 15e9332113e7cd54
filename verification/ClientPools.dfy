/**
 * The client's connections (client.go) under unboundedly many callers: every pool operation, every
 * return of a dial or listen, and every spawn or exit of a watcher is one step.
 */
module ClientPools {
  import opened ConnPool

  /**
   * The three pools; the connections in the hands of callers about to dial, to listen, to add an
   * idle connection or to ping; callers that have filed a connection but not spawned its watcher;
   * live watchers; and connections let go by Shutdown or Ping.
   */
  datatype Client = Client(
    idle: seq<ConnRef>,
    stream: seq<ConnRef>,
    packet: seq<ConnRef>,
    dialing: multiset<ConnRef>,
    listening: multiset<ConnRef>,
    adding: multiset<ConnRef>,
    pinging: multiset<ConnRef>,
    streamSpawns: multiset<ConnRef>,
    packetSpawns: multiset<ConnRef>,
    streamWatchers: multiset<ConnRef>,
    packetWatchers: multiset<ConnRef>,
    released: multiset<ConnRef>,
    created: nat,
    shutdown: bool,
    cleared: bool,
    panicked: bool)

  const NEW_CLIENT := Client([], [], [], multiset{}, multiset{}, multiset{}, multiset{}, multiset{}, multiset{},
                             multiset{}, multiset{}, multiset{}, 0, false, false, false)

  datatype Purpose = ForDial | ForListen | ForPing

  datatype Action =
    | AddIdle
    | PutIdle(c: ConnRef)
    | Take(purpose: Purpose)
    | DialReturns(c: ConnRef, ok: bool)
    | ListenReturns(c: ConnRef, ok: bool)
    | SpawnStream(c: ConnRef)
    | SpawnPacket(c: ConnRef)
    | StreamClosed(c: ConnRef)
    | PacketClosed(c: ConnRef)
    | WatcherQuits(c: ConnRef, stream: bool)
    | PingReturns(c: ConnRef)
    | BeginShutdown
    | ClearIdle
    | ClearStream
    | ClearPacket

  /** `fresh` connections are numbered as they are created; a failing `newConn` is a step that does not happen. */
  predicate Enabled(s: Client, a: Action) {
    !s.panicked &&
    match a
    case PutIdle(c) => c in s.adding
    case DialReturns(c, _) => c in s.dialing
    case ListenReturns(c, _) => c in s.listening
    case SpawnStream(c) => c in s.streamSpawns
    case SpawnPacket(c) => c in s.packetSpawns
    case StreamClosed(c) => c in s.streamWatchers
    case PacketClosed(c) => c in s.packetWatchers
    case WatcherQuits(c, stream) => s.shutdown && c in (if stream then s.streamWatchers else s.packetWatchers)
    case PingReturns(c) => c in s.pinging
    case ClearIdle => s.shutdown
    case ClearStream => s.shutdown
    case ClearPacket => s.shutdown
    case _ => true
  }

  /** `getIdleConn`: the last idle connection, or a new one when there is none. */
  function TakeFor(s: Client, purpose: Purpose): Client {
    var c := if s.idle == [] then s.created else s.idle[|s.idle| - 1];
    var t := if s.idle == [] then s.(created := s.created + 1) else s.(idle := s.idle[..|s.idle| - 1]);
    match purpose
    case ForDial => t.(dialing := t.dialing + multiset{c})
    case ForListen => t.(listening := t.listening + multiset{c})
    case ForPing => t.(pinging := t.pinging + multiset{c})
  }

  /** A stream watcher sees its pipe closed and calls `PutFrom`. */
  function StreamDone(s: Client, c: ConnRef): Client {
    var t := s.(streamWatchers := s.streamWatchers - multiset{c});
    if c in s.stream then t.(idle := s.idle + [c], stream := SwapRemove(s.stream, c)) else t.(panicked := true)
  }

  function PacketDone(s: Client, c: ConnRef): Client {
    var t := s.(packetWatchers := s.packetWatchers - multiset{c});
    if c in s.packet then t.(idle := s.idle + [c], packet := SwapRemove(s.packet, c)) else t.(panicked := true)
  }

  function Next(s: Client, a: Action): Client
    requires Enabled(s, a)
  {
    match a
    case AddIdle => s.(adding := s.adding + multiset{s.created}, created := s.created + 1)
    case PutIdle(c) => s.(adding := s.adding - multiset{c}, idle := s.idle + [c])
    case Take(purpose) => TakeFor(s, purpose)
    case DialReturns(c, ok) =>
      var t := s.(dialing := s.dialing - multiset{c});
      if ok then t.(stream := s.stream + [c], streamSpawns := s.streamSpawns + multiset{c})
      else t.(idle := s.idle + [c])
    case ListenReturns(c, ok) =>
      var t := s.(listening := s.listening - multiset{c});
      if ok then t.(packet := s.packet + [c], packetSpawns := s.packetSpawns + multiset{c})
      else t.(idle := s.idle + [c])
    case SpawnStream(c) =>
      s.(streamSpawns := s.streamSpawns - multiset{c}, streamWatchers := s.streamWatchers + multiset{c})
    case SpawnPacket(c) =>
      s.(packetSpawns := s.packetSpawns - multiset{c}, packetWatchers := s.packetWatchers + multiset{c})
    case StreamClosed(c) => StreamDone(s, c)
    case PacketClosed(c) => PacketDone(s, c)
    case WatcherQuits(c, stream) =>
      if stream then s.(streamWatchers := s.streamWatchers - multiset{c})
      else s.(packetWatchers := s.packetWatchers - multiset{c})
    case PingReturns(c) => s.(pinging := s.pinging - multiset{c}, released := s.released + multiset{c})
    case BeginShutdown => s.(shutdown := true)
    case ClearIdle => s.(idle := [], released := s.released + multiset(s.idle))
    case ClearStream => s.(stream := [], released := s.released + multiset(s.stream), cleared := true)
    case ClearPacket => s.(packet := [], released := s.released + multiset(s.packet), cleared := true)
  }

  // ---- Invariants, connection by connection ----

  /** In how many places a connection is. */
  function Places(s: Client, c: ConnRef): nat {
    Filed(s.idle, c) + Filed(s.stream, c) + Filed(s.packet, c)
    + s.dialing[c] + s.listening[c] + s.adding[c] + s.pinging[c] + s.released[c]
  }

  function Filed(pool: seq<ConnRef>, c: ConnRef): nat { multiset(pool)[c] }

  /** A created connection is in exactly one place, any other in none. */
  ghost predicate OnePlace(s: Client, c: ConnRef) { Places(s, c) == if c < s.created then 1 else 0 }

  function StreamWatched(s: Client, c: ConnRef): nat { s.streamSpawns[c] + s.streamWatchers[c] }
  function PacketWatched(s: Client, c: ConnRef): nat { s.packetSpawns[c] + s.packetWatchers[c] }

  /** Until Shutdown, watchers and pool agree; afterwards a watched connection is still filed or was released. */
  ghost predicate WatchAgrees(s: Client, c: ConnRef) {
    && (!s.shutdown ==> StreamWatched(s, c) == Filed(s.stream, c) && PacketWatched(s, c) == Filed(s.packet, c))
    && (!s.cleared ==> StreamWatched(s, c) <= Filed(s.stream, c) && PacketWatched(s, c) <= Filed(s.packet, c))
    && StreamWatched(s, c) <= Filed(s.stream, c) + s.released[c]
    && PacketWatched(s, c) <= Filed(s.packet, c) + s.released[c]
  }

  ghost predicate Inv(s: Client) {
    && (s.cleared ==> s.shutdown) && (s.panicked ==> s.cleared)
    && (forall c: ConnRef :: OnePlace(s, c)) && (forall c: ConnRef :: WatchAgrees(s, c))
  }

  function One(x: ConnRef, c: ConnRef): nat { if x == c then 1 else 0 }

  lemma FiledAfterPut(pool: seq<ConnRef>, x: ConnRef, c: ConnRef)
    ensures Filed(pool + [x], c) == Filed(pool, c) + One(x, c)
  {
  }

  lemma FiledAfterTake(pool: seq<ConnRef>, c: ConnRef)
    requires pool != []
    ensures Filed(pool[..|pool| - 1], c) + One(pool[|pool| - 1], c) == Filed(pool, c)
  {
    RemoveLast(pool);
  }

  lemma FiledAfterRemove(pool: seq<ConnRef>, x: ConnRef, c: ConnRef)
    ensures x in pool ==> Filed(SwapRemove(pool, x), c) + One(x, c) == Filed(pool, c)
  {
    SwapRemoveContents(pool, x);
    assert x in pool ==> multiset(pool)[x] > 0;
  }

  // ---- Exactly one place ----

  lemma TakeToDial(s: Client, c: ConnRef)
    requires OnePlace(s, c)
    ensures OnePlace(TakeFor(s, ForDial), c)
  {
    if s.idle != [] { FiledAfterTake(s.idle, c); }
  }

  lemma TakeToListen(s: Client, c: ConnRef)
    requires OnePlace(s, c)
    ensures OnePlace(TakeFor(s, ForListen), c)
  {
    if s.idle != [] { FiledAfterTake(s.idle, c); }
  }

  lemma TakeToPing(s: Client, c: ConnRef)
    requires OnePlace(s, c)
    ensures OnePlace(TakeFor(s, ForPing), c)
  {
    if s.idle != [] { FiledAfterTake(s.idle, c); }
  }

  lemma TakePlaces(s: Client, purpose: Purpose, c: ConnRef)
    requires OnePlace(s, c)
    ensures OnePlace(TakeFor(s, purpose), c)
  {
    match purpose
    case ForDial => TakeToDial(s, c);
    case ForListen => TakeToListen(s, c);
    case ForPing => TakeToPing(s, c);
  }

  lemma PutPlaces(s: Client, x: ConnRef, c: ConnRef)
    requires Enabled(s, PutIdle(x)) && OnePlace(s, c)
    ensures OnePlace(Next(s, PutIdle(x)), c)
  {
    FiledAfterPut(s.idle, x, c);
  }

  lemma DialPlaces(s: Client, x: ConnRef, ok: bool, c: ConnRef)
    requires Enabled(s, DialReturns(x, ok)) && OnePlace(s, c)
    ensures OnePlace(Next(s, DialReturns(x, ok)), c)
  {
    if ok { FiledAfterPut(s.stream, x, c); } else { FiledAfterPut(s.idle, x, c); }
  }

  lemma ListenPlaces(s: Client, x: ConnRef, ok: bool, c: ConnRef)
    requires Enabled(s, ListenReturns(x, ok)) && OnePlace(s, c)
    ensures OnePlace(Next(s, ListenReturns(x, ok)), c)
  {
    if ok { FiledAfterPut(s.packet, x, c); } else { FiledAfterPut(s.idle, x, c); }
  }

  lemma WatcherPlaces(s: Client, a: Action, c: ConnRef)
    requires Enabled(s, a) && OnePlace(s, c) && (a.StreamClosed? || a.PacketClosed?)
    ensures OnePlace(Next(s, a), c)
  {
    FiledAfterPut(s.idle, a.c, c);
    if a.StreamClosed? { FiledAfterRemove(s.stream, a.c, c); } else { FiledAfterRemove(s.packet, a.c, c); }
  }

  lemma OtherPlaces(s: Client, a: Action, c: ConnRef)
    requires Enabled(s, a) && OnePlace(s, c)
    requires a.AddIdle? || a.PingReturns? || a.ClearIdle? || a.ClearStream? || a.ClearPacket?
    ensures OnePlace(Next(s, a), c)
  {
  }

  lemma PlacesStep(s: Client, a: Action, c: ConnRef)
    requires Enabled(s, a) && OnePlace(s, c)
    ensures OnePlace(Next(s, a), c)
  {
    match a
    case Take(purpose) => TakePlaces(s, purpose, c);
    case PutIdle(x) => PutPlaces(s, x, c);
    case DialReturns(x, ok) => DialPlaces(s, x, ok, c);
    case ListenReturns(x, ok) => ListenPlaces(s, x, ok, c);
    case StreamClosed(_) => WatcherPlaces(s, a, c);
    case PacketClosed(_) => WatcherPlaces(s, a, c);
    case SpawnStream(_) =>
    case SpawnPacket(_) =>
    case WatcherQuits(_, _) =>
    case BeginShutdown =>
    case _ => OtherPlaces(s, a, c);
  }

  // ---- Watchers and pools ----

  lemma WatchDial(s: Client, x: ConnRef, ok: bool, c: ConnRef)
    requires Enabled(s, DialReturns(x, ok)) && WatchAgrees(s, c)
    ensures WatchAgrees(Next(s, DialReturns(x, ok)), c)
  {
    FiledAfterPut(s.stream, x, c);
  }

  lemma WatchListen(s: Client, x: ConnRef, ok: bool, c: ConnRef)
    requires Enabled(s, ListenReturns(x, ok)) && WatchAgrees(s, c)
    ensures WatchAgrees(Next(s, ListenReturns(x, ok)), c)
  {
    FiledAfterPut(s.packet, x, c);
  }

  lemma WatchSpawn(s: Client, a: Action, c: ConnRef)
    requires Enabled(s, a) && WatchAgrees(s, c) && (a.SpawnStream? || a.SpawnPacket? || a.WatcherQuits?)
    ensures WatchAgrees(Next(s, a), c)
  {
  }

  lemma WatchClosed(s: Client, a: Action, c: ConnRef)
    requires Enabled(s, a) && (a.StreamClosed? || a.PacketClosed?)
    requires WatchAgrees(s, c) && WatchAgrees(s, a.c) && (s.cleared ==> s.shutdown)
    ensures WatchAgrees(Next(s, a), c)
  {
    if a.StreamClosed? { FiledAfterRemove(s.stream, a.c, c); } else { FiledAfterRemove(s.packet, a.c, c); }
  }

  /** A step that leaves busy pools and watchers alone and takes nothing back from the released ones. */
  lemma WatchFrame(s: Client, t: Client, c: ConnRef)
    requires WatchAgrees(s, c)
    requires t.stream == s.stream && t.packet == s.packet && s.released[c] <= t.released[c]
    requires t.streamSpawns == s.streamSpawns && t.streamWatchers == s.streamWatchers
    requires t.packetSpawns == s.packetSpawns && t.packetWatchers == s.packetWatchers
    requires (s.shutdown ==> t.shutdown) && t.cleared == s.cleared
    ensures WatchAgrees(t, c)
  {
  }

  lemma WatchTake(s: Client, purpose: Purpose, c: ConnRef)
    requires WatchAgrees(s, c)
    ensures WatchAgrees(TakeFor(s, purpose), c)
  {
    WatchFrame(s, TakeFor(s, purpose), c);
  }

  lemma WatchIdle(s: Client, a: Action, c: ConnRef)
    requires Enabled(s, a) && WatchAgrees(s, c) && (a.AddIdle? || a.PutIdle? || a.PingReturns? || a.BeginShutdown?)
    ensures WatchAgrees(Next(s, a), c)
  {
    WatchFrame(s, Next(s, a), c);
  }

  lemma WatchClear(s: Client, a: Action, c: ConnRef)
    requires Enabled(s, a) && WatchAgrees(s, c) && (a.ClearIdle? || a.ClearStream? || a.ClearPacket?)
    ensures WatchAgrees(Next(s, a), c)
  {
  }

  lemma WatchStep(s: Client, a: Action, c: ConnRef)
    requires Enabled(s, a) && WatchAgrees(s, c) && (s.cleared ==> s.shutdown)
    requires a.StreamClosed? || a.PacketClosed? ==> WatchAgrees(s, a.c)
    ensures WatchAgrees(Next(s, a), c)
  {
    match a
    case DialReturns(x, ok) => WatchDial(s, x, ok, c);
    case ListenReturns(x, ok) => WatchListen(s, x, ok, c);
    case StreamClosed(_) => WatchClosed(s, a, c);
    case PacketClosed(_) => WatchClosed(s, a, c);
    case SpawnStream(_) => WatchSpawn(s, a, c);
    case SpawnPacket(_) => WatchSpawn(s, a, c);
    case WatcherQuits(_, _) => WatchSpawn(s, a, c);
    case ClearIdle => WatchClear(s, a, c);
    case ClearStream => WatchClear(s, a, c);
    case ClearPacket => WatchClear(s, a, c);
    case Take(purpose) => WatchTake(s, purpose, c);
    case _ => WatchIdle(s, a, c);
  }

  lemma StepKeeps(s: Client, a: Action)
    requires Inv(s) && Enabled(s, a)
    ensures Inv(Next(s, a))
  {
    forall c: ConnRef ensures OnePlace(Next(s, a), c) { PlacesStep(s, a, c); }
    forall c: ConnRef ensures WatchAgrees(Next(s, a), c) { WatchStep(s, a, c); }
    if Next(s, a).panicked { assert WatchAgrees(s, a.c); }
  }

  // ---- Whole runs ----

  predicate Legal(s: Client, run: seq<Action>)
    decreases |run|
  {
    run == [] || (Enabled(s, run[0]) && Legal(Next(s, run[0]), run[1..]))
  }

  function Exec(s: Client, run: seq<Action>): Client
    requires Legal(s, run)
    decreases |run|
  {
    if run == [] then s else Exec(Next(s, run[0]), run[1..])
  }

  lemma {:induction false} RunKeeps(s: Client, run: seq<Action>)
    requires Inv(s) && Legal(s, run)
    ensures Inv(Exec(s, run))
    decreases |run|
  {
    if run != [] {
      StepKeeps(s, run[0]);
      RunKeeps(Next(s, run[0]), run[1..]);
    }
  }

  /** In every run, Shutdown included, each created connection is in exactly one place. */
  lemma EveryConnectionInOnePlace(run: seq<Action>, c: ConnRef)
    requires Legal(NEW_CLIENT, run)
    ensures OnePlace(Exec(NEW_CLIENT, run), c)
  {
    RunKeeps(NEW_CLIENT, run);
  }

  /** Until Shutdown the watchers, with those about to be spawned, are exactly the busy connections. */
  lemma WatchersMatchPools(run: seq<Action>)
    requires Legal(NEW_CLIENT, run) && !Exec(NEW_CLIENT, run).shutdown
    ensures var s := Exec(NEW_CLIENT, run);
            && s.streamSpawns + s.streamWatchers == multiset(s.stream)
            && s.packetSpawns + s.packetWatchers == multiset(s.packet)
  {
    RunKeeps(NEW_CLIENT, run);
    var s := Exec(NEW_CLIENT, run);
    assert forall c: ConnRef :: WatchAgrees(s, c) ==> (s.streamSpawns + s.streamWatchers)[c] == multiset(s.stream)[c];
    assert forall c: ConnRef :: WatchAgrees(s, c) ==> (s.packetSpawns + s.packetWatchers)[c] == multiset(s.packet)[c];
  }

  /** `PutFrom` panics in no run in which Shutdown has not yet cleared the busy pools. */
  lemma PutFromPanicsOnlyAfterClear(run: seq<Action>)
    requires Legal(NEW_CLIENT, run) && !Exec(NEW_CLIENT, run).cleared
    ensures !Exec(NEW_CLIENT, run).panicked
  {
    RunKeeps(NEW_CLIENT, run);
  }

  /** In any reachable state, the `PutFrom` of a stream watcher panics exactly if Shutdown took its connection. */
  lemma StreamWatcherPanicsExactly(run: seq<Action>, c: ConnRef)
    requires Legal(NEW_CLIENT, run) && Enabled(Exec(NEW_CLIENT, run), StreamClosed(c))
    ensures var s := Exec(NEW_CLIENT, run); Next(s, StreamClosed(c)).panicked <==> c in s.released
  {
    RunKeeps(NEW_CLIENT, run);
    var s := Exec(NEW_CLIENT, run);
    assert OnePlace(s, c) && WatchAgrees(s, c);
    assert c in s.stream <==> Filed(s.stream, c) > 0;
  }

  /** Likewise for a packet watcher. */
  lemma PacketWatcherPanicsExactly(run: seq<Action>, c: ConnRef)
    requires Legal(NEW_CLIENT, run) && Enabled(Exec(NEW_CLIENT, run), PacketClosed(c))
    ensures var s := Exec(NEW_CLIENT, run); Next(s, PacketClosed(c)).panicked <==> c in s.released
  {
    RunKeeps(NEW_CLIENT, run);
    var s := Exec(NEW_CLIENT, run);
    assert OnePlace(s, c) && WatchAgrees(s, c);
    assert c in s.packet <==> Filed(s.packet, c) > 0;
  }

  // ---- The life of one connection ----

  datatype Place = Unborn | Idle | Stream | Packet | Dialing | Listening | Adding | Pinging | Released

  function CountAt(s: Client, c: ConnRef, p: Place): nat {
    match p
    case Unborn => if c < s.created then 0 else 1
    case Idle => Filed(s.idle, c)
    case Stream => Filed(s.stream, c)
    case Packet => Filed(s.packet, c)
    case Dialing => s.dialing[c]
    case Listening => s.listening[c]
    case Adding => s.adding[c]
    case Pinging => s.pinging[c]
    case Released => s.released[c]
  }

  ghost predicate LivesAt(s: Client, c: ConnRef, p: Place) { CountAt(s, c, p) > 0 }

  function Hands(purpose: Purpose): Place {
    match purpose
    case ForDial => Dialing
    case ForListen => Listening
    case ForPing => Pinging
  }

  /** Where a connection goes from `p`: by its own dial, listen, watcher, ping or filing, or when it is taken. */
  function Goes(s: Client, a: Action, c: ConnRef, p: Place): Place {
    match a
    case AddIdle => if c == s.created then Adding else p
    case Take(purpose) =>
      if c == (if s.idle == [] then s.created else s.idle[|s.idle| - 1]) then Hands(purpose) else p
    case PutIdle(x) => if c == x then Idle else p
    case DialReturns(x, ok) => if c == x then (if ok then Stream else Idle) else p
    case ListenReturns(x, ok) => if c == x then (if ok then Packet else Idle) else p
    case StreamClosed(x) => if c == x && p == Stream then Idle else p
    case PacketClosed(x) => if c == x && p == Packet then Idle else p
    case PingReturns(x) => if c == x then Released else p
    case ClearIdle => if p == Idle then Released else p
    case ClearStream => if p == Stream then Released else p
    case ClearPacket => if p == Packet then Released else p
    case _ => p
  }

  /** A connection lives in one place only. */
  lemma LivesOnce(s: Client, c: ConnRef, p: Place, q: Place)
    requires OnePlace(s, c) && LivesAt(s, c, p) && LivesAt(s, c, q)
    ensures p == q && CountAt(s, c, p) == 1
  {
  }

  lemma TakeGoes(s: Client, purpose: Purpose, c: ConnRef, p: Place)
    requires OnePlace(s, c) && LivesAt(s, c, p)
    ensures LivesAt(TakeFor(s, purpose), c, Goes(s, Take(purpose), c, p))
  {
    if s.idle != [] { FiledAfterTake(s.idle, c); }
  }

  lemma DialGoes(s: Client, x: ConnRef, ok: bool, c: ConnRef, p: Place)
    requires Enabled(s, DialReturns(x, ok)) && OnePlace(s, c) && LivesAt(s, c, p)
    ensures LivesAt(Next(s, DialReturns(x, ok)), c, Goes(s, DialReturns(x, ok), c, p))
  {
    if c == x {
      LivesOnce(s, c, p, Dialing);
      var t := Next(s, DialReturns(x, ok));
      assert if ok then t.stream == s.stream + [x] else t.idle == s.idle + [x];
    } else {
      DialLeavesOthers(s, x, ok, c, p);
    }
  }

  lemma DialLeavesOthers(s: Client, x: ConnRef, ok: bool, c: ConnRef, p: Place)
    requires Enabled(s, DialReturns(x, ok)) && c != x
    ensures CountAt(Next(s, DialReturns(x, ok)), c, p) == CountAt(s, c, p)
  {
    if ok { FiledAfterPut(s.stream, x, c); } else { FiledAfterPut(s.idle, x, c); }
  }

  lemma ListenGoes(s: Client, x: ConnRef, ok: bool, c: ConnRef, p: Place)
    requires Enabled(s, ListenReturns(x, ok)) && OnePlace(s, c) && LivesAt(s, c, p)
    ensures LivesAt(Next(s, ListenReturns(x, ok)), c, Goes(s, ListenReturns(x, ok), c, p))
  {
    if c == x {
      LivesOnce(s, c, p, Listening);
      var t := Next(s, ListenReturns(x, ok));
      assert if ok then t.packet == s.packet + [x] else t.idle == s.idle + [x];
    } else {
      ListenLeavesOthers(s, x, ok, c, p);
    }
  }

  lemma ListenLeavesOthers(s: Client, x: ConnRef, ok: bool, c: ConnRef, p: Place)
    requires Enabled(s, ListenReturns(x, ok)) && c != x
    ensures CountAt(Next(s, ListenReturns(x, ok)), c, p) == CountAt(s, c, p)
  {
    if ok { FiledAfterPut(s.packet, x, c); } else { FiledAfterPut(s.idle, x, c); }
  }

  lemma StreamWatcherGoes(s: Client, x: ConnRef, c: ConnRef, p: Place)
    requires Enabled(s, StreamClosed(x)) && OnePlace(s, c) && LivesAt(s, c, p)
    ensures LivesAt(StreamDone(s, x), c, Goes(s, StreamClosed(x), c, p))
  {
    if x in s.stream {
      FiledAfterPut(s.idle, x, c);
      FiledAfterRemove(s.stream, x, c);
      if c == x { LivesOnce(s, c, p, Stream); }
    }
  }

  lemma PacketWatcherGoes(s: Client, x: ConnRef, c: ConnRef, p: Place)
    requires Enabled(s, PacketClosed(x)) && OnePlace(s, c) && LivesAt(s, c, p)
    ensures LivesAt(PacketDone(s, x), c, Goes(s, PacketClosed(x), c, p))
  {
    if x in s.packet {
      FiledAfterPut(s.idle, x, c);
      FiledAfterRemove(s.packet, x, c);
      if c == x { LivesOnce(s, c, p, Packet); }
    }
  }

  lemma FileGoes(s: Client, a: Action, c: ConnRef, p: Place)
    requires Enabled(s, a) && OnePlace(s, c) && LivesAt(s, c, p) && (a.AddIdle? || a.PutIdle? || a.PingReturns?)
    ensures LivesAt(Next(s, a), c, Goes(s, a, c, p))
  {
    if a.PutIdle? { FiledAfterPut(s.idle, a.c, c); }
    if a.PutIdle? && c == a.c { LivesOnce(s, c, p, Adding); }
    if a.PingReturns? && c == a.c { LivesOnce(s, c, p, Pinging); }
  }

  lemma StepGoes(s: Client, a: Action, c: ConnRef, p: Place)
    requires Enabled(s, a) && OnePlace(s, c) && LivesAt(s, c, p)
    ensures LivesAt(Next(s, a), c, Goes(s, a, c, p))
  {
    match a
    case Take(purpose) => TakeGoes(s, purpose, c, p);
    case DialReturns(x, ok) => DialGoes(s, x, ok, c, p);
    case ListenReturns(x, ok) => ListenGoes(s, x, ok, c, p);
    case StreamClosed(x) => StreamWatcherGoes(s, x, c, p);
    case PacketClosed(x) => PacketWatcherGoes(s, x, c, p);
    case AddIdle => FileGoes(s, a, c, p);
    case PutIdle(_) => FileGoes(s, a, c, p);
    case PingReturns(_) => FileGoes(s, a, c, p);
    case _ =>
  }

  /** Where the run takes a connection from `p`. */
  function Ends(s: Client, run: seq<Action>, c: ConnRef, p: Place): Place
    requires Legal(s, run)
    decreases |run|
  {
    if run == [] then p else Ends(Next(s, run[0]), run[1..], c, Goes(s, run[0], c, p))
  }

  lemma {:induction false} RunGoes(s: Client, run: seq<Action>, c: ConnRef, p: Place)
    requires Inv(s) && Legal(s, run) && LivesAt(s, c, p)
    ensures LivesAt(Exec(s, run), c, Ends(s, run, c, p))
    decreases |run|
  {
    if run != [] {
      StepKeeps(s, run[0]);
      StepGoes(s, run[0], c, p);
      RunGoes(Next(s, run[0]), run[1..], c, Goes(s, run[0], c, p));
    }
  }

  /** After every run a connection is, once and nowhere else, where its own life so far has taken it. */
  lemma LifeOfAConnection(run: seq<Action>, c: ConnRef, p: Place)
    requires Legal(NEW_CLIENT, run)
    ensures CountAt(Exec(NEW_CLIENT, run), c, p) == if p == Ends(NEW_CLIENT, run, c, Unborn) then 1 else 0
  {
    RunKeeps(NEW_CLIENT, run);
    RunGoes(NEW_CLIENT, run, c, Unborn);
    var s, q := Exec(NEW_CLIENT, run), Ends(NEW_CLIENT, run, c, Unborn);
    LivesOnce(s, c, q, q);
    if LivesAt(s, c, p) { LivesOnce(s, c, p, q); }
  }

  predicate LetsGo(a: Action) { a.PingReturns? || a.ClearIdle? || a.ClearStream? || a.ClearPacket? }

  lemma {:induction false} StaysHeld(s: Client, run: seq<Action>, c: ConnRef, p: Place)
    requires Legal(s, run) && p != Released && forall i | 0 <= i < |run| :: !LetsGo(run[i])
    ensures Ends(s, run, c, p) != Released
    decreases |run|
  {
    if run != [] {
      assert !LetsGo(run[0]);
      StaysHeld(Next(s, run[0]), run[1..], c, Goes(s, run[0], c, p));
    }
  }

  /** Only Ping and the clears let a connection go; no dial, listen or watcher ever leaks one. */
  lemma OnlyPingAndClearsLetGo(run: seq<Action>)
    requires Legal(NEW_CLIENT, run) && forall i | 0 <= i < |run| :: !LetsGo(run[i])
    ensures Exec(NEW_CLIENT, run).released == multiset{}
  {
    forall c: ConnRef ensures Exec(NEW_CLIENT, run).released[c] == 0 {
      StaysHeld(NEW_CLIENT, run, c, Unborn);
      LifeOfAConnection(run, c, Released);
    }
  }

  /** The connection of a failed dial or listen is filed last, so the next caller takes it. */
  lemma FailedIsTakenNext(s: Client, a: Action, purpose: Purpose)
    requires Enabled(s, a) && ((a.DialReturns? && !a.ok) || (a.ListenReturns? && !a.ok))
    ensures Next(s, a).idle == s.idle + [a.c]
    ensures Goes(Next(s, a), Take(purpose), a.c, Idle) == Hands(purpose)
  {
  }

  const BUSY: seq<Action> := [Take(ForDial), DialReturns(0, true), SpawnStream(0)]
  const CLEARED: seq<Action> := [BeginShutdown, ClearStream, StreamClosed(0)]

  const WATCHED := NEW_CLIENT.(stream := [0], streamWatchers := multiset{0}, created := 1)

  lemma BusyIsWatched()
    ensures Legal(NEW_CLIENT, BUSY) && Exec(NEW_CLIENT, BUSY) == WATCHED
  {
    var s1 := Next(NEW_CLIENT, BUSY[0]);
    var s2 := Next(s1, BUSY[1]);
    assert Next(s2, BUSY[2]) == WATCHED;
  }

  lemma ClearedPanics()
    ensures Legal(WATCHED, CLEARED) && Exec(WATCHED, CLEARED).panicked
  {
    var s1 := Next(WATCHED, CLEARED[0]);
    var s2 := Next(s1, CLEARED[1]);
    assert Next(s2, CLEARED[2]).panicked;
  }

  lemma {:induction false} RunsOn(s: Client, a: seq<Action>, b: seq<Action>)
    requires Legal(s, a) && Legal(Exec(s, a), b)
    ensures Legal(s, a + b) && Exec(s, a + b) == Exec(Exec(s, a), b)
    decreases |a|
  {
    if a == [] {
      assert a + b == b;
    } else {
      assert (a + b)[0] == a[0] && (a + b)[1..] == a[1..] + b;
      RunsOn(Next(s, a[0]), a[1..], b);
    }
  }

  /** After the clear the panic can happen: a watcher may still take its close branch. */
  lemma ClearThenPanic()
    ensures Legal(NEW_CLIENT, BUSY + CLEARED) && Exec(NEW_CLIENT, BUSY + CLEARED).panicked
  {
    BusyIsWatched();
    ClearedPanics();
    RunsOn(NEW_CLIENT, BUSY, CLEARED);
  }
}
