/** The server's dialer and packet listener (server.go): candidates in order, blocked ones skipped. */
module ServerDial {
  import opened Basics
  import opened IPRules

  type ConnRef = nat

  datatype Error = BadTarget | LookupFailed | NetworkUnreachable | Blocked | HostUnreachable | DialFailed(text: string)

  /** What the underlying dialer returns. */
  datatype Attempt = Attempt(conn: Option<ConnRef>, error: Option<Error>)

  /** Target and resolver outcomes: the port parsed from the target, and the resolved addresses. */
  datatype Lookup = Lookup(port: Option<nat>, ips: Option<seq<IP>>)

  function BaseProtocol(protocol: string): string {
    if protocol == "" || protocol[0] == ':' then "" else [protocol[0]] + BaseProtocol(protocol[1..])
  }

  /** The base protocol is what stands before the first colon. */
  lemma {:induction false} BaseProtocolIs(protocol: string)
    ensures ':' !in BaseProtocol(protocol) && BaseProtocol(protocol) <= protocol
    ensures |BaseProtocol(protocol)| < |protocol| ==> protocol[|BaseProtocol(protocol)|] == ':'
  {
    if protocol != "" && protocol[0] != ':' { BaseProtocolIs(protocol[1..]); }
  }

  /** The rules of a possibly nil set; a nil set blocks as little as an empty one. */
  ghost function RulesOf(blocks: IPRuleSet?): seq<Rule>
    reads blocks
  {
    if blocks == null then [] else blocks.rules
  }

  /** Which candidates may be dialed. */
  ghost function Admits(rules: seq<Rule>, ips: seq<IP>): seq<bool> {
    seq(|ips|, i requires 0 <= i < |ips| => !Verdict(rules, ips[i]))
  }

  /** Candidate `i` is dialed and succeeds. */
  predicate Reaches(admits: seq<bool>, attempts: seq<Attempt>, i: nat)
    requires |attempts| == |admits|
  {
    i < |admits| && admits[i] && attempts[i].error.None?
  }

  predicate NoneReached(admits: seq<bool>, attempts: seq<Attempt>, i: nat)
    requires |attempts| == |admits|
  {
    forall j | 0 <= j < i :: !Reaches(admits, attempts, j)
  }

  /** The underlying dialer returns a connection exactly when it returns no error. */
  predicate WellBehaved(attempts: seq<Attempt>) {
    forall i | 0 <= i < |attempts| :: attempts[i].conn.Some? <==> attempts[i].error.None?
  }

  /** The admitted candidates before `i`, in order. */
  function AdmittedBefore(admits: seq<bool>, i: nat): seq<nat>
    requires i <= |admits|
  {
    if i == 0 then [] else AdmittedBefore(admits, i - 1) + (if admits[i - 1] then [i - 1] else [])
  }

  lemma {:induction false} AdmittedExactly(admits: seq<bool>, i: nat)
    requires i <= |admits|
    ensures forall j :: j in AdmittedBefore(admits, i) <==> 0 <= j < i && admits[j]
    ensures forall j, k | 0 <= j < k < |AdmittedBefore(admits, i)| ::
              AdmittedBefore(admits, i)[j] < AdmittedBefore(admits, i)[k]
  {
    if i > 0 {
      AdmittedExactly(admits, i - 1);
      var before := AdmittedBefore(admits, i - 1);
      assert forall k | 0 <= k < |before| :: before[k] in before;
    }
  }

  /** The error left by the candidates before `i` when none of them was reached. */
  function LastError(admits: seq<bool>, attempts: seq<Attempt>, i: nat): Option<Error>
    requires |attempts| == |admits| && i <= |admits|
  {
    if i == 0 then None else if admits[i - 1] then attempts[i - 1].error else Some(Blocked)
  }

  /** How a search over all candidates ends: at the first that is admitted and succeeds, or with the last error. */
  predicate Searched(admits: seq<bool>, attempts: seq<Attempt>, conn: Option<ConnRef>, error: Option<Error>,
                     dialed: seq<nat>, found: Option<nat>)
    requires |attempts| == |admits|
  {
    match found
    case Some(i) =>
      && Reaches(admits, attempts, i) && NoneReached(admits, attempts, i) && dialed == AdmittedBefore(admits, i + 1)
      && conn == attempts[i].conn && error == None
    case None =>
      && NoneReached(admits, attempts, |admits|) && dialed == AdmittedBefore(admits, |admits|)
      && error == LastError(admits, attempts, |admits|) && (error.None? <==> admits == [])
      && (WellBehaved(attempts) ==> conn.None?)
  }

  /**
   * The loop shared by `dialer` and `pktListener`. `attempts[i]` is what dialing candidate i returns
   * if it comes to that, `dialed` the candidates dialed, `found` the one that was returned.
   */
  method TryCandidates(blocks: IPRuleSet?, ips: seq<IP>, attempts: seq<Attempt>)
    returns (conn: Option<ConnRef>, error: Option<Error>, dialed: seq<nat>, found: Option<nat>)
    requires |attempts| == |ips|
    ensures Searched(Admits(RulesOf(blocks), ips), attempts, conn, error, dialed, found)
  {
    conn, error, dialed, found := None, None, [], None;
    ghost var admits := Admits(RulesOf(blocks), ips);
    var i := 0;
    while i < |ips|
      invariant 0 <= i <= |ips| && found == None
      invariant NoneReached(admits, attempts, i) && dialed == AdmittedBefore(admits, i)
      invariant error == LastError(admits, attempts, i) && (error.None? <==> i == 0)
      invariant WellBehaved(attempts) ==> conn.None?
    {
      var blocked := Blocks(blocks, ips, i);
      if blocked {
        error := Some(Blocked);
      } else {
        dialed := dialed + [i];
        conn, error := attempts[i].conn, attempts[i].error;
        if error.None? {
          found := Some(i);
          return;
        }
      }
      i := i + 1;
    }
  }

  method Blocks(blocks: IPRuleSet?, ips: seq<IP>, i: nat) returns (blocked: bool)
    requires i < |ips|
    ensures blocked <==> !Admits(RulesOf(blocks), ips)[i]
  {
    blocked := BlockedBy(blocks, ips[i]);
  }

  const TCP: set<string> := {"tcp", "tcp4", "tcp6"}
  const PACKET: set<string> := {"ip", "ip4", "ip6", "udp", "udp4", "udp6"}

  /** The checks before the loop; `None` means the candidates are tried. */
  function Refusal(protocols: set<string>, protocol: string, lookup: Lookup): Option<Error> {
    if lookup.port.None? then Some(BadTarget)
    else if BaseProtocol(protocol) !in protocols then Some(NetworkUnreachable)
    else if lookup.ips.None? then Some(LookupFailed)
    else None
  }

  /** The protocol is `base`, or `base` with something behind a colon. */
  predicate Speaks(protocol: string, base: string) { protocol == base || base + ":" <= protocol }

  lemma {:induction false} BaseExactly(protocol: string, base: string)
    requires ':' !in base
    ensures BaseProtocol(protocol) == base <==> Speaks(protocol, base)
  {
    if base != "" && protocol != "" && protocol[0] == base[0] {
      assert protocol == [base[0]] + protocol[1..] && base == [base[0]] + base[1..];
      BaseExactly(protocol[1..], base[1..]);
      assert base + ":" == [base[0]] + (base[1..] + ":");
    }
  }

  predicate SpeaksTCP(protocol: string) {
    Speaks(protocol, "tcp") || Speaks(protocol, "tcp4") || Speaks(protocol, "tcp6")
  }

  predicate SpeaksPacket(protocol: string) {
    || Speaks(protocol, "ip") || Speaks(protocol, "ip4") || Speaks(protocol, "ip6")
    || Speaks(protocol, "udp") || Speaks(protocol, "udp4") || Speaks(protocol, "udp6")
  }

  /** Why nothing is dialed: a bad port, else another protocol, else nothing resolved. */
  predicate Refuses(speaks: bool, lookup: Lookup, refusal: Option<Error>) {
    match refusal
    case Some(BadTarget) => lookup.port.None?
    case Some(NetworkUnreachable) => lookup.port.Some? && !speaks
    case Some(LookupFailed) => lookup.port.Some? && speaks && lookup.ips.None?
    case Some(_) => false
    case None => lookup.port.Some? && speaks && lookup.ips.Some?
  }

  lemma RefusalExactly(protocol: string, lookup: Lookup, refusal: Option<Error>)
    ensures Refusal(TCP, protocol, lookup) == refusal <==> Refuses(SpeaksTCP(protocol), lookup, refusal)
    ensures Refusal(PACKET, protocol, lookup) == refusal <==> Refuses(SpeaksPacket(protocol), lookup, refusal)
  {
    BaseExactly(protocol, "tcp");
    BaseExactly(protocol, "tcp4");
    BaseExactly(protocol, "tcp6");
    BaseExactly(protocol, "ip");
    BaseExactly(protocol, "ip4");
    BaseExactly(protocol, "ip6");
    BaseExactly(protocol, "udp");
    BaseExactly(protocol, "udp4");
    BaseExactly(protocol, "udp6");
  }

  /** `dialer`: with a well-behaved dialer it returns a nil error exactly with a connection. */
  method Dial(blocks: IPRuleSet?, protocol: string, lookup: Lookup, attempts: seq<Attempt>)
    returns (conn: Option<ConnRef>, error: Option<Error>, dialed: seq<nat>, found: Option<nat>)
    requires lookup.ips.Some? ==> |attempts| == |lookup.ips.value|
    ensures Refusal(TCP, protocol, lookup).Some? ==>
              conn == None && error == Refusal(TCP, protocol, lookup) && dialed == [] && found == None
    ensures Refusal(TCP, protocol, lookup).None? ==>
              var ips := lookup.ips.value;
              && Searched(Admits(RulesOf(blocks), ips), attempts, conn, if ips == [] then None else error, dialed, found)
              && (ips == [] ==> error == Some(HostUnreachable))
    ensures error.None? <==> found.Some?
    ensures WellBehaved(attempts) ==> (error.None? <==> conn.Some?)
  {
    conn, dialed, found := None, [], None;
    error := Refusal(TCP, protocol, lookup);
    if error.Some? { return; }
    conn, error, dialed, found := TryCandidates(blocks, lookup.ips.value, attempts);
    if error.None? && found.None? { error := Some(HostUnreachable); }
  }

  /** `pktListener` has no fallback error: it returns neither socket nor error exactly if nothing was resolved. */
  method Listen(blocks: IPRuleSet?, protocol: string, lookup: Lookup, attempts: seq<Attempt>)
    returns (conn: Option<ConnRef>, error: Option<Error>, dialed: seq<nat>, found: Option<nat>)
    requires lookup.ips.Some? ==> |attempts| == |lookup.ips.value|
    ensures Refusal(PACKET, protocol, lookup).Some? ==>
              conn == None && error == Refusal(PACKET, protocol, lookup) && dialed == [] && found == None
    ensures Refusal(PACKET, protocol, lookup).None? ==>
              var ips := lookup.ips.value;
              && Searched(Admits(RulesOf(blocks), ips), attempts, conn, error, dialed, found)
              && (WellBehaved(attempts) ==> ((error.None? <==> conn.Some?) <==> ips != []))
  {
    conn, dialed, found := None, [], None;
    error := Refusal(PACKET, protocol, lookup);
    if error.Some? { return; }
    conn, error, dialed, found := TryCandidates(blocks, lookup.ips.value, attempts);
  }
}
