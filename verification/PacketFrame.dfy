/** Packet frames (conn.go): network and address with a length byte each, then the data. */
module PacketFrame {
  import opened Basics

  const BUFFER := 65536

  datatype Frame = Frame(network: seq<byte>, addr: seq<byte>, data: seq<byte>)

  /** The length bytes are truncated, whatever the lengths. */
  function Encode(f: Frame): seq<byte> {
    [|f.network| % 256] + f.network + [|f.addr| % 256] + f.addr + f.data
  }

  /** A length byte and that many bytes; `None` when the message ends before. */
  function TakeBlock(s: seq<byte>): Option<(seq<byte>, seq<byte>)> {
    if s == [] then None else
    var n: nat := s[0];
    if |s| < 1 + n then None else Some((s[1..1 + n], s[1 + n..]))
  }

  /** The single final `Read` returns `n` of the remaining bytes, as many as it likes up to the buffer. */
  predicate Chunk(n: nat, remaining: nat) { n <= remaining && n <= BUFFER }

  function Decode(s: seq<byte>, n: nat): Option<Frame> {
    match TakeBlock(s)
    case None => None
    case Some((network, r)) =>
      match TakeBlock(r)
      case None => None
      case Some((addr, r)) => Some(Frame(network, addr, if n <= |r| then r[..n] else r))
  }

  /** The octets of a frame for network `udp` and address `a`. */
  lemma FrameOctets(f: Frame)
    requires f.network == [117, 100, 112] && f.addr == [97]
    ensures Encode(f) == [3, 117, 100, 112, 1, 97] + f.data
  {
  }

  lemma TakeBlockOf(block: seq<byte>, tail: seq<byte>)
    requires |block| < 256
    ensures TakeBlock([|block| % 256] + block + tail) == Some((block, tail))
  {
    var s := [|block| % 256] + block + tail;
    assert s[1..1 + |block|] == block && s[1 + |block|..] == tail;
  }

  /** What the first block holds has its length byte's length, so a long block never survives. */
  lemma TakeBlockLength(s: seq<byte>)
    ensures TakeBlock(s).Some? ==> |TakeBlock(s).value.0| == s[0] < 256
  {
  }

  /**
   * The receiver recovers network and address exactly when both are under 256 bytes; its data is
   * then the first `n` bytes sent, and all of them when the final read returns the rest.
   */
  lemma FrameRecovered(f: Frame, n: nat)
    requires Chunk(n, |f.data|)
    ensures var r := Decode(Encode(f), n);
            (r.Some? && r.value.network == f.network && r.value.addr == f.addr) <==> |f.network| < 256 && |f.addr| < 256
    ensures |f.network| < 256 && |f.addr| < 256 ==>
              Decode(Encode(f), n) == Some(Frame(f.network, f.addr, f.data[..n]))
    ensures |f.network| < 256 && |f.addr| < 256 && n == |f.data| ==> Decode(Encode(f), n) == Some(f)
  {
    var s, second := Encode(f), [|f.addr| % 256] + f.addr + f.data;
    assert s == [|f.network| % 256] + f.network + second;
    TakeBlockLength(s);
    if |f.network| < 256 {
      TakeBlockOf(f.network, second);
      TakeBlockLength(second);
      if |f.addr| < 256 {
        TakeBlockOf(f.addr, f.data);
        assert n == |f.data| ==> f.data[..n] == f.data;
      }
    }
  }
}
