/** SOCKS5 addresses (socks5/addr.go; section 5 of RFC 1928) and the byte stream they are read from. */
module Socks5Addr {
  import opened Basics

  const IPV4: byte := 1
  const DOMAIN: byte := 3
  const IPV6: byte := 4

  datatype Addr = Addr(typ: byte, data: seq<byte>, port: nat)

  datatype Marshalled = Bytes(bytes: seq<byte>) | UnknownType | LengthPanic

  /** The bytes a peer has sent and nobody has read yet, up to its end of file. */
  class ByteStream {
    var rest: seq<byte>

    constructor (bytes: seq<byte>)
      ensures rest == bytes
    {
      rest := bytes;
    }

    method ReadByte() returns (b: Option<byte>)
      modifies this
      ensures old(rest) == [] ==> b == None && rest == []
      ensures old(rest) != [] ==> b == Some(old(rest)[0]) && rest == old(rest)[1..]
    {
      if rest == [] { return None; }
      b := Some(rest[0]);
      rest := rest[1..];
    }

    /** `io.ReadFull`: on a short stream it consumes and returns what there is. */
    method ReadFull(n: nat) returns (got: seq<byte>, ok: bool)
      modifies this
      ensures got + rest == old(rest) && |got| <= n
      ensures ok <==> |old(rest)| >= n
      ensures if ok then |got| == n else rest == []
    {
      ok := |rest| >= n;
      if ok {
        got, rest := rest[..n], rest[n..];
      } else {
        got, rest := rest, [];
      }
    }
  }

  // ---- Codec ----

  /** What the setters, a successful read and the marshaller agree on. */
  predicate WellFormed(a: Addr) {
    a.port < TWO_16 &&
    if a.typ == IPV4 then |a.data| == 4
    else if a.typ == DOMAIN then |a.data| <= 255
    else a.typ == IPV6 && |a.data| == 16
  }

  /** `MarshalBinary`; `None` is the nil address. */
  function Marshal(a: Option<Addr>): Marshalled {
    match a
    case None => Bytes([IPV4, 0, 0, 0, 0, 0, 0])
    case Some(a) =>
      if a.typ == IPV4 then (if |a.data| != 4 then LengthPanic else Bytes([a.typ] + a.data + PutU16(a.port)))
      else if a.typ == DOMAIN then
        (if |a.data| > 255 then LengthPanic else Bytes([a.typ, |a.data|] + a.data + PutU16(a.port)))
      else if a.typ == IPV6 then (if |a.data| != 16 then LengthPanic else Bytes([a.typ] + a.data + PutU16(a.port)))
      else UnknownType
  }

  /** The encoding of a well-formed address. */
  function Encode(a: Addr): seq<byte>
    requires WellFormed(a)
  {
    Front(a) + a.data + PutU16(a.port)
  }

  function Front(a: Addr): seq<byte>
    requires WellFormed(a)
  {
    if a.typ == DOMAIN then [a.typ, |a.data|] else [a.typ]
  }

  /** Marshalling never panics on a well-formed address, and yields its encoding. */
  lemma MarshalWellFormed(a: Addr)
    requires a.port < TWO_16
    ensures WellFormed(a) ==> Marshal(Some(a)) == Bytes(Encode(a))
    ensures Marshal(Some(a)).LengthPanic? <==> a.typ in {IPV4, DOMAIN, IPV6} && !WellFormed(a)
  {
  }

  datatype Outcome = Success | EndOfFile | Unsupported

  /** The address left behind, the count returned, and how the read ended. */
  datatype ReadResult = ReadResult(addr: Addr, n: nat, outcome: Outcome)

  /** How many address bytes follow the type byte and an optional length byte: where, and how many. */
  function Extent(s: seq<byte>): Option<(nat, nat)>
    requires s != []
  {
    if s[0] == IPV4 then Some((1, 4))
    else if s[0] == IPV6 then Some((1, 16))
    else if s[0] == DOMAIN && |s| >= 2 then Some((2, s[1]))
    else None
  }

  function Zeros(n: nat): seq<byte> { seq(n, _ => 0) }

  /** `ReadFrom` on an address holding `a` and a stream holding `s`. */
  function ReadAddr(a: Addr, s: seq<byte>): (r: ReadResult)
    ensures r.n <= |s|
  {
    if s == [] then ReadResult(a, 0, EndOfFile) else
    var typed := a.(typ := s[0]);
    match Extent(s)
    case None => ReadResult(typed, 1, if s[0] == DOMAIN then EndOfFile else Unsupported)
    case Some((at, n)) => ReadBody(typed, s, at, n)
  }

  /** The address bytes and the port; a short read leaves zeros behind what arrived. */
  function ReadBody(a: Addr, s: seq<byte>, at: nat, n: nat): (r: ReadResult)
    requires at <= |s|
    ensures r.n <= |s|
  {
    if |s| < at + n then
      ReadResult(a.(data := s[at..] + Zeros(n - |s[at..]|)), |s|, EndOfFile)
    else
      var filled := a.(data := s[at..at + n]);
      if |s| < at + n + 2 then ReadResult(filled, |s|, EndOfFile)
      else ReadResult(filled.(port := GetU16(s, at + n)), at + n + 2, Success)
  }

  /** An encoded address followed by anything is read back, and exactly its bytes are counted. */
  lemma AddrRoundTrip(old_: Addr, a: Addr, tail: seq<byte>)
    requires WellFormed(a)
    ensures ReadAddr(old_, Encode(a) + tail) == ReadResult(a, |Encode(a)|, Success)
  {
    var s, at := Encode(a) + tail, |Front(a)|;
    Spans(Front(a), a.data, PutU16(a.port), tail);
    assert s[0] == s[..at][0] && (a.typ == DOMAIN ==> s[1] == s[..at][1]);
    GetPutU16(a.port, s, at + |a.data|);
  }

  lemma Spans(front: seq<byte>, data: seq<byte>, port: seq<byte>, tail: seq<byte>)
    requires |port| == 2
    ensures var s, i, j := front + data + port + tail, |front|, |front| + |data|;
            && |s| == j + 2 + |tail| && s[..i] == front && s[i..j] == data && s[j..j + 2] == port
  {
    var s, j := front + data + port + tail, |front| + |data|;
    assert s[j] == port[0] && s[j + 1] == port[1];
  }

  /** A successful read has read the encoding of the well-formed address it returns. */
  lemma ReadIsEncoding(old_: Addr, s: seq<byte>)
    requires ReadAddr(old_, s).outcome == Success
    ensures var r := ReadAddr(old_, s); WellFormed(r.addr) && s[..r.n] == Encode(r.addr)
  {
    var r := ReadAddr(old_, s);
    var (at, n) := Extent(s).value;
    assert s[..at] == Front(r.addr);
    assert s[..r.n] == s[..at] + s[at..at + n] + s[at + n..at + n + 2];
  }

  /** Every strict prefix of an encoding fails to be read. */
  lemma StrictPrefixFails(old_: Addr, a: Addr, s: seq<byte>)
    requires WellFormed(a) && s < Encode(a)
    ensures ReadAddr(old_, s).outcome == EndOfFile && ReadAddr(old_, s).n == |s|
  {
    if s != [] {
      assert s[0] == Encode(a)[0] == a.typ;
      if a.typ == DOMAIN && |s| >= 2 { assert s[1] == Encode(a)[1] == |a.data|; }
    }
  }

  // ---- The address object ----

  function To4(ip: seq<byte>): Option<seq<byte>> {
    if |ip| == 4 then Some(ip)
    else if |ip| == 16 && ip[..10] == Zeros(10) && ip[10] == 255 && ip[11] == 255 then Some(ip[12..])
    else None
  }

  function To16(ip: seq<byte>): Option<seq<byte>> {
    if |ip| == 4 then Some(Zeros(10) + [255, 255] + ip) else if |ip| == 16 then Some(ip) else None
  }

  const MAPPED: seq<byte> := [0, 0, 0, 0, 0, 0, 0, 0, 0, 0, 255, 255]

  /** The 16-byte form is the mapped one, and exactly the 4-byte and mapped addresses have a 4-byte form. */
  lemma FormsExactly(ip: seq<byte>, v: seq<byte>)
    ensures To4(ip) == Some(v) <==> |v| == 4 && (ip == v || ip == MAPPED + v)
    ensures To16(ip) == Some(v) <==> |v| == 16 && (ip == v || (|ip| == 4 && v == MAPPED + ip))
  {
    assert Zeros(10) + [255, 255] == MAPPED;
    if |ip| == 16 {
      assert ip == ip[..10] + [ip[10], ip[11]] + ip[12..];
      if To4(ip) == Some(v) { assert ip == MAPPED + v; }
      if ip == MAPPED + v {
        assert ip[..10] == MAPPED[..10] == Zeros(10);
        assert ip[10] == MAPPED[10] && ip[11] == MAPPED[11] && ip[12..] == v;
      }
    }
  }

  class AddrPort {
    var typ: byte
    var data: seq<byte>
    var port: nat

    ghost function Value(): Addr
      reads this
    {
      Addr(typ, data, port)
    }

    constructor ()
      ensures Value() == Addr(0, [], 0)
    {
      typ, data, port := 0, [], 0;
    }

    /** `ReadFrom`: the count is the number of bytes taken from the stream in every outcome. */
    method ReadFrom(r: ByteStream) returns (n: nat, outcome: Outcome)
      modifies this, r
      ensures ReadResult(Value(), n, outcome) == ReadAddr(old(Value()), old(r.rest))
      ensures r.rest == old(r.rest)[n..]
    {
      var b := r.ReadByte();
      if b.None? { return 0, EndOfFile; }
      n := 1;
      typ := b.value;
      var size: nat;
      if typ == IPV4 {
        size := 4;
      } else if typ == DOMAIN {
        var l := r.ReadByte();
        if l.None? { return 1, EndOfFile; }
        n := 2;
        size := l.value;
      } else if typ == IPV6 {
        size := 16;
      } else {
        return 1, Unsupported;
      }
      n, outcome := ReadRest(r, old(r.rest), n, size);
    }

    method ReadRest(r: ByteStream, ghost s: seq<byte>, at: nat, size: nat) returns (n: nat, outcome: Outcome)
      requires at <= |s| && r.rest == s[at..]
      modifies this`data, this`port, r
      ensures ReadResult(Value(), n, outcome) == ReadBody(old(Value()), s, at, size)
      ensures r.rest == s[n..]
    {
      var got, ok := r.ReadFull(size);
      n := at + |got|;
      data := got + Zeros(size - |got|);
      if !ok { return n, EndOfFile; }
      assert r.rest == s[at + size..] && data == s[at..at + size];
      got, ok := r.ReadFull(2);
      n := n + |got|;
      if !ok { return n, EndOfFile; }
      assert got == s[at + size..at + size + 2] && r.rest == s[n..];
      port := GetU16(got, 0);
      outcome := Success;
    }

    method SetIPv4(ip: seq<byte>) returns (panicked: bool)
      modifies this`typ, this`data
      ensures panicked <==> To4(ip).None?
      ensures typ == IPV4 && data == (if panicked then [] else To4(ip).value)
      ensures !panicked && port < TWO_16 ==> WellFormed(Value())
    {
      typ := IPV4;
      panicked := To4(ip).None?;
      data := if panicked then [] else To4(ip).value;
    }

    method SetDomain(domain: seq<byte>) returns (panicked: bool)
      modifies this`typ, this`data
      ensures panicked <==> |domain| > 255
      ensures if panicked then typ == old(typ) && data == old(data) else typ == DOMAIN && data == domain
      ensures !panicked && port < TWO_16 ==> WellFormed(Value())
    {
      panicked := |domain| > 255;
      if !panicked { typ, data := DOMAIN, domain; }
    }

    method SetIPv6(ip: seq<byte>) returns (panicked: bool)
      modifies this`typ, this`data
      ensures panicked <==> To16(ip).None?
      ensures typ == IPV6 && data == (if panicked then [] else To16(ip).value)
      ensures !panicked && port < TWO_16 ==> WellFormed(Value())
    {
      typ := IPV6;
      panicked := To16(ip).None?;
      data := if panicked then [] else To16(ip).value;
    }
  }

  /** `AddrPortFromNetAddr` after parsing; the fallback stores the 16-byte form of 0.0.0.0. */
  function FromNetAddr(ip: seq<byte>, port: nat): Addr {
    if |ip| == 4 then Addr(IPV4, ip, port)
    else if |ip| == 16 then Addr(IPV6, ip, port)
    else Addr(IPV4, Zeros(10) + [255, 255, 0, 0, 0, 0], port)
  }

  /** What is marshalled of it: the type the address's length tells, the address and the port. */
  lemma FromNetAddrMarshals(ip: seq<byte>, port: nat)
    requires port < TWO_16
    ensures |ip| == 4 ==> Marshal(Some(FromNetAddr(ip, port))) == Bytes([1] + ip + [port / 256, port % 256])
    ensures |ip| == 16 ==> Marshal(Some(FromNetAddr(ip, port))) == Bytes([4] + ip + [port / 256, port % 256])
  {
  }

  /** Its result can be marshalled exactly when the parsed address was an IPv4 or IPv6 one. */
  lemma FromNetAddrWellFormed(ip: seq<byte>, port: nat)
    requires port < TWO_16
    ensures WellFormed(FromNetAddr(ip, port)) <==> |ip| == 4 || |ip| == 16
    ensures Marshal(Some(FromNetAddr(ip, port))).LengthPanic? <==> |ip| != 4 && |ip| != 16
  {
  }
}
