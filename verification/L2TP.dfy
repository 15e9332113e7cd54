/** The L2TP header and AVP codec (l2tp/server.go; sections 3.1 and 4.1 of RFC 2661). */
module L2TP {
  import opened Basics

  type u16 = x: int | 0 <= x < 65536

  datatype Header = Header(
    isControl: bool,
    priority: bool,
    sequence: bool,
    tunnelID: u16,
    sessionID: u16,
    ns: u16,
    nr: u16,
    length: nat,
    offset: nat)

  datatype Error = WrongLength | BadVersion(version: nat) | UnexpectedFlag(name: string, expected: bool)

  /** `Panic` is an index or slice out of range, which the message loop recovers from. */
  datatype Parsed<+T> = Ok(value: T, rest: seq<byte>) | Err(error: Error) | Panic

  const VERSION := 2
  const FLAG_TYPE := 0x8000
  const FLAG_LENGTH := 0x4000
  const FLAG_SEQUENCE := 0x0800
  const FLAG_OFFSET := 0x0200
  const FLAG_PRIORITY := 0x0100

  /** `flags & mask != 0` for a mask of one bit. */
  predicate Has(flags: nat, mask: nat)
    requires mask > 0
  {
    flags / mask % 2 == 1
  }

  // ---- parseHeader ----

  function ParseHeader(buf: seq<byte>): Parsed<Header> {
    if |buf| < 6 then Err(WrongLength) else
    var flags, b := GetU16(buf, 0), buf[2..];
    if flags % 16 != VERSION then Err(BadVersion(flags % 16))
    else if Has(flags, FLAG_LENGTH) then
      var length := GetU16(b, 0);
      if |b| + 2 < length then Err(WrongLength)
      else if length < 4 then Panic
      else ParseIDs(flags, length, b[2..length - 2])
    else ParseIDs(flags, 0, b)
  }

  function ParseIDs(flags: nat, length: nat, b: seq<byte>): Parsed<Header> {
    if |b| < 4 then Panic else
    var head := Header(Has(flags, FLAG_TYPE), Has(flags, FLAG_PRIORITY), Has(flags, FLAG_SEQUENCE),
                       GetU16(b, 0), GetU16(b, 2), 0, 0, length, 0);
    if head.sequence then
      if |b| < 8 then Panic
      else ParseOffset(flags, head.(ns := GetU16(b, 4), nr := GetU16(b, 6)), b[8..])
    else if head.isControl then Err(UnexpectedFlag("Sequence", true))
    else ParseOffset(flags, head, b[4..])
  }

  /** `2 + offset` is 16-bit arithmetic and wraps. */
  function Skip(offset: nat): nat { (2 + offset) % TWO_16 }

  function ParseOffset(flags: nat, head: Header, b: seq<byte>): Parsed<Header> {
    if !Has(flags, FLAG_OFFSET) then Ok(head, b)
    else if head.isControl then Err(UnexpectedFlag("Offset", false))
    else if |b| < 2 || Skip(GetU16(b, 0)) > |b| then Panic
    else Ok(head.(offset := GetU16(b, 0)), b[Skip(GetU16(b, 0))..])
  }

  // ---- The layout announced by the flag bits ----

  function Size(present: bool, n: nat): nat { if present then n else 0 }

  function IdsAt(flags: nat): nat { 2 + Size(Has(flags, FLAG_LENGTH), 2) }
  function SequenceAt(flags: nat): nat { IdsAt(flags) + 4 }
  function OffsetAt(flags: nat): nat { SequenceAt(flags) + Size(Has(flags, FLAG_SEQUENCE), 4) }

  /** Where the message ends: at its Length, if it has one. */
  function End(buf: seq<byte>): nat
    requires |buf| >= 6
  {
    if Has(GetU16(buf, 0), FLAG_LENGTH) then GetU16(buf, 2) else |buf|
  }

  /** Where the payload starts; meaningful when the offset field itself is inside the buffer. */
  function BodyAt(buf: seq<byte>): nat
    requires |buf| >= 6
  {
    var flags := GetU16(buf, 0);
    var at := OffsetAt(flags);
    if !Has(flags, FLAG_OFFSET) then at
    else if at + 2 > |buf| then at + 2
    else at + Skip(GetU16(buf, at))
  }

  predicate Readable(buf: seq<byte>) {
    |buf| >= 6 && GetU16(buf, 0) % 16 == VERSION && End(buf) <= |buf|
  }

  /** A control message has sequence numbers and no offset. */
  predicate Lawful(flags: nat) {
    Has(flags, FLAG_TYPE) ==> Has(flags, FLAG_SEQUENCE) && !Has(flags, FLAG_OFFSET)
  }

  /** The message covers every field and the pad its flags announce. */
  predicate Covers(buf: seq<byte>)
    requires |buf| >= 6
  {
    var flags := GetU16(buf, 0);
    OffsetAt(flags) + Size(Has(flags, FLAG_OFFSET), 2) <= End(buf) && BodyAt(buf) <= End(buf)
  }

  /** Everything of the header but the offset, read straight off the layout. */
  function FrontAt(buf: seq<byte>): Header
    requires Readable(buf) && OffsetAt(GetU16(buf, 0)) <= End(buf)
  {
    var flags := GetU16(buf, 0);
    var s := Has(flags, FLAG_SEQUENCE);
    Header(Has(flags, FLAG_TYPE), Has(flags, FLAG_PRIORITY), s,
           GetU16(buf, IdsAt(flags)), GetU16(buf, IdsAt(flags) + 2),
           if s then GetU16(buf, SequenceAt(flags)) else 0, if s then GetU16(buf, SequenceAt(flags) + 2) else 0,
           if Has(flags, FLAG_LENGTH) then GetU16(buf, 2) else 0, 0)
  }

  /** The header. */
  function HeaderAt(buf: seq<byte>): Header
    requires Readable(buf) && Covers(buf)
  {
    var flags := GetU16(buf, 0);
    FrontAt(buf).(offset := if Has(flags, FLAG_OFFSET) then GetU16(buf, OffsetAt(flags)) else 0)
  }

  /** The window `parseHeader` goes on with after the flags and the Length. */
  lemma Window(buf: seq<byte>)
    requires Readable(buf) && End(buf) >= IdsAt(GetU16(buf, 0))
    ensures var flags := GetU16(buf, 0);
            ParseHeader(buf) == ParseIDs(flags, if Has(flags, FLAG_LENGTH) then GetU16(buf, 2) else 0,
                                         buf[IdsAt(flags)..End(buf)])
  {
    var flags, b := GetU16(buf, 0), buf[2..];
    if Has(flags, FLAG_LENGTH) {
      assert GetU16(b, 0) == GetU16(buf, 2);
      Reslice(buf, 2, 2, End(buf) - 2);
    } else {
      assert b == buf[2..End(buf)];
    }
  }

  lemma Reslice(buf: seq<byte>, a: nat, lo: nat, hi: nat)
    requires a <= |buf| && lo <= hi <= |buf| - a
    ensures buf[a..][lo..hi] == buf[a + lo..a + hi]
  {
  }

  lemma Shifted(buf: seq<byte>, lo: nat, hi: nat, i: nat)
    requires lo + i + 2 <= hi <= |buf|
    ensures GetU16(buf[lo..hi], i) == GetU16(buf, lo + i)
  {
  }

  /** What is left to parse once the fixed fields are read. */
  ghost predicate FrontParses(buf: seq<byte>)
    requires Readable(buf)
  {
    var flags := GetU16(buf, 0);
    ParseHeader(buf) ==
    if OffsetAt(flags) > End(buf) then Panic
    else if Has(flags, FLAG_TYPE) && !Has(flags, FLAG_SEQUENCE) then Err(UnexpectedFlag("Sequence", true))
    else ParseOffset(flags, FrontAt(buf), buf[OffsetAt(flags)..End(buf)])
  }

  lemma FrontSequenced(buf: seq<byte>)
    requires Readable(buf) && Has(GetU16(buf, 0), FLAG_SEQUENCE)
    ensures FrontParses(buf)
  {
    var at, end := IdsAt(GetU16(buf, 0)), End(buf);
    if end >= at {
      Window(buf);
      if end >= at + 8 {
        Shifted(buf, at, end, 0);
        Shifted(buf, at, end, 2);
        Shifted(buf, at, end, 4);
        Shifted(buf, at, end, 6);
        assert buf[at..end][8..] == buf[at + 8..end];
      }
    }
  }

  lemma FrontPlain(buf: seq<byte>)
    requires Readable(buf) && !Has(GetU16(buf, 0), FLAG_SEQUENCE)
    ensures FrontParses(buf)
  {
    var at, end := IdsAt(GetU16(buf, 0)), End(buf);
    if end >= at {
      Window(buf);
      if end >= at + 4 {
        Shifted(buf, at, end, 0);
        Shifted(buf, at, end, 2);
        assert buf[at..end][4..] == buf[at + 4..end];
      }
    }
  }

  lemma Front(buf: seq<byte>)
    requires Readable(buf)
    ensures FrontParses(buf)
  {
    if Has(GetU16(buf, 0), FLAG_SEQUENCE) { FrontSequenced(buf); } else { FrontPlain(buf); }
  }

  /** Parsing succeeds exactly on a readable, lawful, covered message, and then reads the layout. */
  lemma ParseHeaderExactly(buf: seq<byte>)
    ensures ParseHeader(buf).Ok? <==> Readable(buf) && Lawful(GetU16(buf, 0)) && Covers(buf)
    ensures ParseHeader(buf).Ok? ==> ParseHeader(buf) == Ok(HeaderAt(buf), buf[BodyAt(buf)..End(buf)])
  {
    if Readable(buf) {
      Front(buf);
      if OffsetAt(GetU16(buf, 0)) <= End(buf) { OffsetExactly(buf, FrontAt(buf)); }
    }
  }

  lemma OffsetExactly(buf: seq<byte>, head: Header)
    requires Readable(buf) && OffsetAt(GetU16(buf, 0)) <= End(buf)
    ensures var flags, b := GetU16(buf, 0), buf[OffsetAt(GetU16(buf, 0))..End(buf)];
            var o := Has(flags, FLAG_OFFSET);
            && ParseOffset(flags, head, b) ==
               if o && head.isControl then Err(UnexpectedFlag("Offset", false))
               else if !Covers(buf) then Panic
               else Ok(if o then head.(offset := GetU16(buf, OffsetAt(flags))) else head, buf[BodyAt(buf)..End(buf)])
  {
    var flags := GetU16(buf, 0);
    var at, end := OffsetAt(flags), End(buf);
    if Has(flags, FLAG_OFFSET) && at + 2 <= end {
      Shifted(buf, at, end, 0);
      if BodyAt(buf) <= end { assert buf[at..end][Skip(GetU16(buf, at))..] == buf[BodyAt(buf)..end]; }
    }
  }

  /** It panics exactly when it is readable but too short for what is read before any rejection. */
  lemma ParseHeaderPanicsExactly(buf: seq<byte>)
    ensures ParseHeader(buf).Panic? <==>
              Readable(buf) && (OffsetAt(GetU16(buf, 0)) > End(buf) || (!Has(GetU16(buf, 0), FLAG_TYPE) && !Covers(buf)))
  {
    if Readable(buf) {
      Front(buf);
      if OffsetAt(GetU16(buf, 0)) <= End(buf) { OffsetExactly(buf, FrontAt(buf)); }
    }
  }

  /** Which error a message that is not read comes to. */
  lemma ParseHeaderErrsExactly(buf: seq<byte>)
    ensures ParseHeader(buf) == Err(WrongLength) <==>
              |buf| < 6 || (GetU16(buf, 0) % 16 == VERSION && End(buf) > |buf|)
    ensures forall v :: ParseHeader(buf) == Err(BadVersion(v)) <==> |buf| >= 6 && v != VERSION && v == GetU16(buf, 0) % 16
    ensures forall s, on :: ParseHeader(buf) == Err(UnexpectedFlag(s, on)) <==>
              && Readable(buf) && OffsetAt(GetU16(buf, 0)) <= End(buf) && Has(GetU16(buf, 0), FLAG_TYPE)
              && (if Has(GetU16(buf, 0), FLAG_SEQUENCE) then Has(GetU16(buf, 0), FLAG_OFFSET) && s == "Offset" && !on
                  else s == "Sequence" && on)
  {
    if Readable(buf) {
      Front(buf);
      if OffsetAt(GetU16(buf, 0)) <= End(buf) { OffsetExactly(buf, FrontAt(buf)); }
    }
  }

  // ---- header.encode ----

  function Bit(on: bool, mask: nat): nat { if on then mask else 0 }

  function Flags(h: Header): nat {
    VERSION + Bit(h.isControl, FLAG_TYPE) + Bit(h.priority, FLAG_PRIORITY) + Bit(h.length != 0, FLAG_LENGTH)
    + Bit(h.sequence, FLAG_SEQUENCE) + Bit(h.offset > 0, FLAG_OFFSET)
  }

  /** The encoding after each of its stages. */
  function UpToLength(h: Header): seq<byte> {
    PutU16(Flags(h)) + (if h.length != 0 then PutU16(h.length) else [])
  }

  function UpToTunnel(h: Header): seq<byte> { UpToLength(h) + PutU16(h.tunnelID) }
  function UpToSession(h: Header): seq<byte> { UpToTunnel(h) + PutU16(h.sessionID) }
  function UpToNs(h: Header): seq<byte> { UpToSession(h) + (if h.sequence then PutU16(h.ns) else []) }
  function UpToNr(h: Header): seq<byte> { UpToNs(h) + (if h.sequence then PutU16(h.nr) else []) }
  function Encode(h: Header): seq<byte> { UpToNr(h) + (if h.offset > 0 then PutU16(h.offset) else []) }

  /** `buf` followed by `enc`, whose flags are still to be filled in. */
  ghost predicate Reserved(r: seq<byte>, buf: seq<byte>, enc: seq<byte>) {
    |enc| >= 2 && |r| == |buf| + |enc| && r[..|buf|] == buf && r[|buf| + 2..] == enc[2..]
  }

  lemma ReservedGrows(r: seq<byte>, buf: seq<byte>, enc: seq<byte>, more: seq<byte>)
    requires Reserved(r, buf, enc)
    ensures Reserved(r + more, buf, enc + more)
  {
    assert (r + more)[|buf| + 2..] == r[|buf| + 2..] + more;
    assert (enc + more)[2..] == enc[2..] + more;
  }

  /** The encoder appends to a buffer and patches the flags into the two bytes it reserved. */
  method EncodeTo(h: Header, buf: seq<byte>) returns (r: seq<byte>)
    ensures r == buf + Encode(h)
  {
    var start, flags := |buf|, VERSION;
    r := buf + [0, 0];
    if h.isControl { flags := flags + FLAG_TYPE; }
    if h.priority { flags := flags + FLAG_PRIORITY; }
    assert Reserved(r, buf, PutU16(Flags(h)));
    if h.length != 0 {
      flags := flags + FLAG_LENGTH;
      r := Append(r, h.length, buf, PutU16(Flags(h)));
    }
    assert h.length == 0 ==> UpToLength(h) == PutU16(Flags(h));
    r := Append(r, h.tunnelID, buf, UpToLength(h));
    r := Append(r, h.sessionID, buf, UpToTunnel(h));
    if h.sequence {
      flags := flags + FLAG_SEQUENCE;
      r := Append(r, h.ns, buf, UpToSession(h));
      r := Append(r, h.nr, buf, UpToNs(h));
    }
    assert !h.sequence ==> UpToNr(h) == UpToNs(h) == UpToSession(h);
    assert h.offset == 0 ==> Encode(h) == UpToNr(h);
    if h.offset > 0 {
      flags := flags + FLAG_OFFSET;
      r := Append(r, h.offset, buf, UpToNr(h)); // the padding loop that follows starts at its own bound and adds nothing
    }
    r := PatchFlags(r, start, flags, h, buf);
  }

  /** The reserved place is filled in. */
  method PatchFlags(r: seq<byte>, start: nat, flags: nat, ghost h: Header, ghost buf: seq<byte>) returns (r': seq<byte>)
    requires start == |buf| && flags == Flags(h) && Reserved(r, buf, Encode(h))
    ensures r' == buf + Encode(h)
  {
    EncodeStarts(h);
    Patch(r, buf, Encode(h));
    r' := r[start := flags / 256][start + 1 := flags % 256];
  }

  /** `append` of the two bytes of a number. */
  method Append(r: seq<byte>, n: nat, ghost buf: seq<byte>, ghost enc: seq<byte>) returns (r': seq<byte>)
    requires Reserved(r, buf, enc)
    ensures Reserved(r', buf, enc + PutU16(n)) && r' == r + PutU16(n)
  {
    r' := r + PutU16(n);
    ReservedGrows(r, buf, enc, PutU16(n));
  }

  lemma Patch(r: seq<byte>, buf: seq<byte>, enc: seq<byte>)
    requires Reserved(r, buf, enc)
    ensures r[|buf| := enc[0]][|buf| + 1 := enc[1]] == buf + enc
  {
    var p := r[|buf| := enc[0]][|buf| + 1 := enc[1]];
    assert p[..|buf|] == r[..|buf|] && p[|buf| + 2..] == r[|buf| + 2..];
    assert p == p[..|buf|] + [enc[0], enc[1]] + p[|buf| + 2..];
  }

  lemma EncodeStarts(h: Header)
    ensures Flags(h) < TWO_16 && |Encode(h)| >= 2
    ensures Encode(h)[0] == Flags(h) / 256 && Encode(h)[1] == Flags(h) % 256
  {
    EncodePrefixes(h);
    assert Encode(h)[0] == PutU16(Flags(h))[0] && Encode(h)[1] == PutU16(Flags(h))[1];
  }

  /** Every stage begins the complete encoding. */
  lemma EncodePrefixes(h: Header)
    ensures PutU16(Flags(h)) <= UpToLength(h) <= UpToTunnel(h) <= UpToSession(h) <= UpToNs(h) <= UpToNr(h) <= Encode(h)
    ensures PutU16(Flags(h)) <= Encode(h) && UpToLength(h) <= Encode(h) && UpToTunnel(h) <= Encode(h)
    ensures UpToSession(h) <= Encode(h) && UpToNs(h) <= Encode(h)
  {
  }

  // ---- Round trips ----

  lemma FlagBits(h: Header)
    ensures var f := Flags(h);
            && f < TWO_16 && f % 16 == VERSION
            && Has(f, FLAG_TYPE) == h.isControl && Has(f, FLAG_PRIORITY) == h.priority
            && Has(f, FLAG_LENGTH) == (h.length != 0) && Has(f, FLAG_SEQUENCE) == h.sequence
            && Has(f, FLAG_OFFSET) == (h.offset > 0)
  {
  }

  /** A header the encoder and the parser agree on, in front of `n` further bytes. */
  predicate Consistent(h: Header, n: nat) { Agrees(h, |Encode(h)|, n) }

  /** The number a stage ends with is read back from any message beginning with that stage. */
  lemma LastField(stage: seq<byte>, before: seq<byte>, n: nat, m: seq<byte>)
    requires stage == before + PutU16(n) && stage <= m
    ensures GetU16(m, |before|) == n % TWO_16
  {
    assert m[|before|..|before| + 2] == stage[|before|..] == PutU16(n);
    GetPutU16(n, m, |before|);
  }

  lemma StageSizes(h: Header)
    ensures var f := Flags(h);
            && |UpToLength(h)| == IdsAt(f) && |UpToTunnel(h)| == IdsAt(f) + 2 && |UpToSession(h)| == SequenceAt(f)
            && |UpToNr(h)| == OffsetAt(f) && |Encode(h)| == OffsetAt(f) + Size(h.offset > 0, 2)
  {
    FlagBits(h);
  }

  lemma EncodeFront(h: Header, m: seq<byte>)
    requires Encode(h) <= m
    ensures var f := Flags(h);
            && |m| >= |Encode(h)| >= IdsAt(f) + 4 && GetU16(m, 0) == f
            && (h.length != 0 ==> GetU16(m, 2) == h.length % TWO_16)
  {
    EncodeSize(h);
    EncodeFlags(h, m);
    EncodeLength(h, m);
  }

  lemma EncodeSize(h: Header)
    ensures |Encode(h)| >= IdsAt(Flags(h)) + 4
  {
    StageSizes(h);
    EncodePrefixes(h);
  }

  lemma EncodeFlags(h: Header, m: seq<byte>)
    requires Encode(h) <= m && |m| >= 2
    ensures GetU16(m, 0) == Flags(h)
  {
    EncodeStarts(h);
    assert m[0] == Encode(h)[0] && m[1] == Encode(h)[1];
    assert PutU16(Flags(h)) == [m[0], m[1]] == m[0..2];
    GetPutU16(Flags(h), m, 0);
  }

  lemma EncodeLength(h: Header, m: seq<byte>)
    requires Encode(h) <= m && |m| >= 4
    ensures h.length != 0 ==> GetU16(m, 2) == h.length % TWO_16
  {
    if h.length != 0 {
      EncodePrefixes(h);
      LastField(UpToLength(h), PutU16(Flags(h)), h.length, m);
    }
  }

  lemma EncodeIds(h: Header, m: seq<byte>)
    requires Encode(h) <= m && |Encode(h)| >= IdsAt(Flags(h)) + 4
    ensures GetU16(m, IdsAt(Flags(h))) == h.tunnelID && GetU16(m, IdsAt(Flags(h)) + 2) == h.sessionID
  {
    StageSizes(h);
    EncodePrefixes(h);
    LastField(UpToTunnel(h), UpToLength(h), h.tunnelID, m);
    LastField(UpToSession(h), UpToTunnel(h), h.sessionID, m);
  }

  lemma EncodeBack(h: Header, m: seq<byte>)
    requires Encode(h) <= m && |Encode(h)| == OffsetAt(Flags(h)) + Size(h.offset > 0, 2)
    requires h.sequence ==> |m| >= SequenceAt(Flags(h)) + 4
    ensures var f := Flags(h);
            && (h.sequence ==> GetU16(m, SequenceAt(f)) == h.ns && GetU16(m, SequenceAt(f) + 2) == h.nr)
            && (h.offset > 0 ==> GetU16(m, OffsetAt(f)) == h.offset % TWO_16)
  {
    StageSizes(h);
    EncodePrefixes(h);
    if h.sequence {
      LastField(UpToNs(h), UpToSession(h), h.ns, m);
      LastField(UpToNr(h), UpToNs(h), h.nr, m);
    }
    if h.offset > 0 { LastField(Encode(h), UpToNr(h), h.offset, m); }
  }

  /** Where each field lands, and what is read back from there. */
  lemma EncodeLayout(h: Header, m: seq<byte>)
    requires Encode(h) <= m
    ensures var f := Flags(h);
            && |m| >= |Encode(h)| == OffsetAt(f) + Size(h.offset > 0, 2)
            && GetU16(m, 0) == f
            && GetU16(m, IdsAt(f)) == h.tunnelID && GetU16(m, IdsAt(f) + 2) == h.sessionID
            && (h.length != 0 ==> GetU16(m, 2) == h.length % TWO_16)
            && (h.sequence ==> GetU16(m, SequenceAt(f)) == h.ns && GetU16(m, SequenceAt(f) + 2) == h.nr)
            && (h.offset > 0 ==> GetU16(m, OffsetAt(f)) == h.offset % TWO_16)
  {
    FlagBits(h);
    StageSizes(h);
    EncodeFront(h, m);
    EncodeIds(h, m);
    EncodeBack(h, m);
  }

  /** What `EncodeLayout` and `FlagBits` say about a message, for any flags `f`. */
  ghost predicate Laid(h: Header, m: seq<byte>, f: nat, size: nat) {
    && size == OffsetAt(f) + Size(h.offset > 0, 2) <= |m|
    && GetU16(m, 0) == f && f % 16 == VERSION
    && Has(f, FLAG_TYPE) == h.isControl && Has(f, FLAG_PRIORITY) == h.priority
    && Has(f, FLAG_LENGTH) == (h.length != 0) && Has(f, FLAG_SEQUENCE) == h.sequence
    && Has(f, FLAG_OFFSET) == (h.offset > 0)
    && GetU16(m, IdsAt(f)) == h.tunnelID && GetU16(m, IdsAt(f) + 2) == h.sessionID
    && (h.length != 0 ==> GetU16(m, 2) == h.length % TWO_16)
    && (h.sequence ==> GetU16(m, SequenceAt(f)) == h.ns && GetU16(m, SequenceAt(f) + 2) == h.nr)
    && (h.offset > 0 ==> GetU16(m, OffsetAt(f)) == h.offset % TWO_16)
  }

  predicate Agrees(h: Header, size: nat, n: nat) {
    && (h.isControl ==> h.sequence && h.offset == 0)
    && (!h.sequence ==> h.ns == 0 && h.nr == 0)
    && h.offset <= 65533 && h.offset <= n
    && h.length < TWO_16 && (h.length == 0 || h.length == size + n)
  }

  lemma SkipIs(offset: nat)
    requires offset < TWO_16
    ensures offset % TWO_16 == offset && Skip(offset) == 2 + offset - (if offset > 65533 then TWO_16 else 0)
  {
  }

  lemma LaidBody(h: Header, m: seq<byte>, f: nat, size: nat)
    requires Laid(h, m, f, size) && h.offset <= 65533
    ensures BodyAt(m) == size + h.offset
  {
    SkipIs(h.offset);
  }

  /** Without its offset the header is read back under any Length that frames it. */
  lemma LaidFront(h: Header, m: seq<byte>, f: nat, size: nat)
    requires Laid(h, m, f, size) && (!h.sequence ==> h.ns == 0 && h.nr == 0)
    requires h.length == 0 || (size <= h.length < TWO_16 && h.length <= |m|)
    ensures Readable(m) && OffsetAt(GetU16(m, 0)) <= End(m) && FrontAt(m) == h.(offset := 0)
    ensures End(m) == if h.length != 0 then h.length else |m|
  {
    LaidEnds(h, m, f, size);
  }

  lemma LaidEnds(h: Header, m: seq<byte>, f: nat, size: nat)
    requires Laid(h, m, f, size) && (h.length == 0 || (size <= h.length < TWO_16 && h.length <= |m|))
    ensures |m| >= 6 && Readable(m) && OffsetAt(GetU16(m, 0)) <= End(m)
    ensures End(m) == if h.length != 0 then h.length else |m|
    ensures h.length != 0 ==> GetU16(m, 2) == h.length
  {
    assert h.length < TWO_16 ==> h.length % TWO_16 == h.length;
  }

  lemma LaidHeader(h: Header, m: seq<byte>, f: nat, size: nat)
    requires Laid(h, m, f, size) && Agrees(h, size, |m| - size)
    ensures Readable(m) && Lawful(GetU16(m, 0)) && Covers(m)
    ensures End(m) == |m| && BodyAt(m) == size + h.offset && HeaderAt(m) == h
  {
    LaidFront(h, m, f, size);
    LaidBody(h, m, f, size);
    assert h.offset % TWO_16 == h.offset;
  }

  lemma LaidParses(h: Header, m: seq<byte>, f: nat, size: nat)
    requires Laid(h, m, f, size) && Agrees(h, size, |m| - size)
    ensures ParseHeader(m) == Ok(h, m[size + h.offset..])
  {
    LaidHeader(h, m, f, size);
    ParseHeaderExactly(m);
  }

  lemma ParsedAgrees(h: Header, m: seq<byte>, f: nat, size: nat)
    requires Laid(h, m, f, size) && h.offset <= |m| - size && (h.offset <= 65533 || h.length == 0)
    requires ParseHeader(m) == Ok(h, m[size + h.offset..])
    ensures Agrees(h, size, |m| - size)
  {
    ParseHeaderExactly(m);
    assert |m[BodyAt(m)..End(m)]| == |m| - size - h.offset;
    if h.offset <= 65533 { LaidBody(h, m, f, size); }
  }

  /** Encoding then parsing gives the header and the bytes behind the pad back. */
  ghost predicate RoundTrips(h: Header, body: seq<byte>) {
    h.offset <= |body| && ParseHeader(Encode(h) + body) == Ok(h, body[h.offset..])
  }

  /**
   * The one accident: the skip over the pad wraps around 16 bits back into the header, the Length
   * is short by as much, and the bytes it frames there happen to be those behind the pad.
   */
  ghost predicate Wraps(h: Header, m: seq<byte>, size: nat) {
    && 65534 <= h.offset < TWO_16 && !h.isControl && (!h.sequence ==> h.ns == 0 && h.nr == 0)
    && 2 <= size <= h.length < TWO_16 && h.length + TWO_16 == |m| && size + h.offset <= |m|
    && m[size + h.offset - TWO_16..h.length] == m[size + h.offset..]
  }

  lemma WrappedBody(h: Header, m: seq<byte>, f: nat, size: nat)
    requires Laid(h, m, f, size) && 65534 <= h.offset < TWO_16
    ensures BodyAt(m) == size + h.offset - TWO_16
  {
    SkipIs(h.offset);
  }

  lemma WrappedHeader(h: Header, m: seq<byte>, f: nat, size: nat)
    requires Laid(h, m, f, size) && Wraps(h, m, size)
    ensures Readable(m) && Lawful(GetU16(m, 0)) && Covers(m) && HeaderAt(m) == h
    ensures m[BodyAt(m)..End(m)] == m[size + h.offset..]
  {
    LaidFront(h, m, f, size);
    WrappedBody(h, m, f, size);
    assert h.offset % TWO_16 == h.offset;
  }

  lemma WrappedParses(h: Header, m: seq<byte>, f: nat, size: nat)
    requires Laid(h, m, f, size) && Wraps(h, m, size)
    ensures ParseHeader(m) == Ok(h, m[size + h.offset..])
  {
    WrappedHeader(h, m, f, size);
    ParseHeaderExactly(m);
  }

  lemma ParsedWraps(h: Header, m: seq<byte>, f: nat, size: nat)
    requires Laid(h, m, f, size) && size + h.offset <= |m| && h.offset > 65533 && h.length != 0
    requires ParseHeader(m) == Ok(h, m[size + h.offset..])
    ensures Wraps(h, m, size)
  {
    ParseHeaderExactly(m);
    assert h.offset == GetU16(m, OffsetAt(f)) && h.length == GetU16(m, 2);
    WrappedBody(h, m, f, size);
    assert |m[BodyAt(m)..End(m)]| == |m| - size - h.offset;
  }

  /** Round trips happen exactly for consistent headers and for the one accident. */
  lemma HeaderRoundTrip(h: Header, body: seq<byte>)
    ensures RoundTrips(h, body) <==>
              Consistent(h, |body|) || Wraps(h, Encode(h) + body, |Encode(h)|)
  {
    var m, f, size := Encode(h) + body, Flags(h), |Encode(h)|;
    FlagBits(h);
    EncodeLayout(h, m);
    assert Laid(h, m, f, size);
    if h.offset <= |body| {
      assert m[size + h.offset..] == body[h.offset..];
      if Agrees(h, size, |body|) {
        LaidParses(h, m, f, size);
      } else if Wraps(h, m, size) {
        WrappedParses(h, m, f, size);
      } else if RoundTrips(h, body) {
        if h.offset <= 65533 || h.length == 0 { ParsedAgrees(h, m, f, size); } else { ParsedWraps(h, m, f, size); }
      }
    }
  }

  predicate ReservedClear(flags: nat) {
    && !Has(flags, 0x2000) && !Has(flags, 0x1000) && !Has(flags, 0x0400)
    && !Has(flags, 0x80) && !Has(flags, 0x40) && !Has(flags, 0x20) && !Has(flags, 0x10)
  }

  function Digit(flags: nat, mask: nat): nat
    requires mask > 0
  {
    if Has(flags, mask) then 1 else 0
  }

  lemma LowNibble(x: nat)
    ensures x / 0x10 == 16 * (x / 0x100) + 8 * Digit(x, 0x80) + 4 * Digit(x, 0x40) + 2 * Digit(x, 0x20) + Digit(x, 0x10)
  {
    assert x / 0x20 == x / 0x10 / 2 && x / 0x40 == x / 0x20 / 2;
    assert x / 0x80 == x / 0x40 / 2 && x / 0x100 == x / 0x80 / 2;
  }

  lemma MiddleNibble(x: nat)
    ensures x / 0x100 == 16 * (x / 0x1000) + 8 * Digit(x, 0x800) + 4 * Digit(x, 0x400) + 2 * Digit(x, 0x200)
                         + Digit(x, 0x100)
  {
    assert x / 0x200 == x / 0x100 / 2 && x / 0x400 == x / 0x200 / 2;
    assert x / 0x800 == x / 0x400 / 2 && x / 0x1000 == x / 0x800 / 2;
  }

  lemma HighNibble(x: nat)
    requires x < TWO_16
    ensures x / 0x1000 == 8 * Digit(x, 0x8000) + 4 * Digit(x, 0x4000) + 2 * Digit(x, 0x2000) + Digit(x, 0x1000)
  {
    assert x / 0x2000 == x / 0x1000 / 2 && x / 0x4000 == x / 0x2000 / 2 && x / 0x8000 == x / 0x4000 / 2;
  }

  /** Flags without reserved bits are the sum of the bits the encoder writes. */
  lemma FlagsRecompose(flags: nat)
    requires flags < TWO_16 && flags % 16 == VERSION && ReservedClear(flags)
    ensures flags == VERSION + Bit(Has(flags, FLAG_TYPE), FLAG_TYPE) + Bit(Has(flags, FLAG_PRIORITY), FLAG_PRIORITY)
                     + Bit(Has(flags, FLAG_LENGTH), FLAG_LENGTH) + Bit(Has(flags, FLAG_SEQUENCE), FLAG_SEQUENCE)
                     + Bit(Has(flags, FLAG_OFFSET), FLAG_OFFSET)
  {
    LowNibble(flags);
    MiddleNibble(flags);
    HighNibble(flags);
  }

  /** Re-encoding a parsed header without reserved bits and offset, then its payload, rebuilds the message. */
  lemma ParseThenEncode(buf: seq<byte>)
    requires ParseHeader(buf).Ok?
    requires ReservedClear(GetU16(buf, 0)) && !Has(GetU16(buf, 0), FLAG_OFFSET)
    ensures Encode(ParseHeader(buf).value) + ParseHeader(buf).rest == buf[..End(buf)]
  {
    ParseHeaderExactly(buf);
    Reencoded(buf);
    assert buf[..OffsetAt(GetU16(buf, 0))] + buf[OffsetAt(GetU16(buf, 0))..End(buf)] == buf[..End(buf)];
  }

  lemma Reencoded(buf: seq<byte>)
    requires Readable(buf) && Covers(buf) && ReservedClear(GetU16(buf, 0)) && !Has(GetU16(buf, 0), FLAG_OFFSET)
    ensures Encode(HeaderAt(buf)) == buf[..OffsetAt(GetU16(buf, 0))]
  {
    var h, flags := HeaderAt(buf), GetU16(buf, 0);
    FlagsRecompose(flags);
    assert Flags(h) == flags;
    assert UpToLength(h) == buf[..IdsAt(flags)];
    assert UpToTunnel(h) == buf[..IdsAt(flags) + 2];
    assert UpToSession(h) == buf[..SequenceAt(flags)];
    assert UpToNr(h) == buf[..OffsetAt(flags)];
  }

  // ---- Attribute-value pairs ----

  datatype AVP = AVP(mandatory: bool, hidden: bool, length: nat, vendorID: u16, attrType: u16, value: seq<byte>)

  const FLAG_MANDATORY := 0x8000
  const FLAG_HIDDEN := 0x4000

  function ParseAVP(buf: seq<byte>): (r: Parsed<AVP>)
    ensures !r.Panic?
    ensures r.Ok? ==> 6 <= r.value.length <= |buf| && r.rest == buf[r.value.length..]
  {
    if |buf| < 6 then Err(WrongLength) else
    var flags := GetU16(buf, 0);
    var length := flags % 1024;
    if length < 6 || |buf| < length then Err(WrongLength)
    else Ok(AVP(Has(flags, FLAG_MANDATORY), Has(flags, FLAG_HIDDEN), length, GetU16(buf, 2), GetU16(buf, 4),
                buf[6..length]), buf[length..])
  }

  function Octet(buf: seq<byte>, i: nat): nat
    requires i < |buf|
  {
    buf[i]
  }

  /** The ten-bit length after the two flags and four reserved bits. */
  function LengthOf(buf: seq<byte>): nat
    requires |buf| >= 2
  {
    Octet(buf, 0) % 4 * 256 + Octet(buf, 1)
  }

  /** An AVP is read exactly if its length covers the six fixed octets and is covered, whatever the reserved bits. */
  lemma ParseAVPExactly(buf: seq<byte>)
    ensures ParseAVP(buf).Ok? <==> |buf| >= 6 && 6 <= LengthOf(buf) <= |buf|
    ensures ParseAVP(buf).Ok? ==>
              var a := AVP(buf[0] >= 128, buf[0] / 64 % 2 == 1, LengthOf(buf), Octet(buf, 2) * 256 + Octet(buf, 3),
                           Octet(buf, 4) * 256 + Octet(buf, 5), buf[6..LengthOf(buf)]);
              ParseAVP(buf) == Ok(a, buf[LengthOf(buf)..])
  {
    if |buf| >= 6 {
      var hi: int, lo: int := buf[0], buf[1];
      var flags := GetU16(buf, 0);
      assert flags == 256 * hi + lo;
      assert flags / 0x8000 == hi / 128 && flags / 0x4000 == hi / 64 && flags % 1024 == hi % 4 * 256 + lo;
    }
  }

  function AVPFlags(a: AVP): nat {
    Bit(a.mandatory, FLAG_MANDATORY) + Bit(a.hidden, FLAG_HIDDEN) + (6 + |a.value|) % 1024
  }

  function EncodeAVP(a: AVP): seq<byte> {
    PutU16(AVPFlags(a)) + PutU16(a.vendorID) + PutU16(a.attrType) + a.value
  }

  lemma AVPBits(a: AVP)
    ensures var f := AVPFlags(a);
            && f < TWO_16 && f % 1024 == (6 + |a.value|) % 1024
            && Has(f, FLAG_MANDATORY) == a.mandatory && Has(f, FLAG_HIDDEN) == a.hidden
  {
  }

  lemma AVPFlagsSmall(a: AVP)
    ensures AVPFlags(a) < TWO_16
  {
  }

  lemma ThreePairs(a: seq<byte>, b: seq<byte>, c: seq<byte>, rest: seq<byte>)
    requires |a| == |b| == |c| == 2
    ensures var m := a + b + c + rest; m[0..2] == a && m[2..4] == b && m[4..6] == c && m[6..] == rest
  {
    var m := a + b + c + rest;
    assert m[2] == b[0] && m[3] == b[1] && m[4] == c[0] && m[5] == c[1];
  }

  lemma AVPLayout(a: AVP, rest: seq<byte>)
    ensures var m := EncodeAVP(a) + rest;
            && |m| == 6 + |a.value| + |rest| && GetU16(m, 0) == AVPFlags(a)
            && GetU16(m, 2) == a.vendorID && GetU16(m, 4) == a.attrType
            && m[6..] == a.value + rest
  {
    AVPFlagsSmall(a);
    var m, f, v, t := EncodeAVP(a) + rest, PutU16(AVPFlags(a)), PutU16(a.vendorID), PutU16(a.attrType);
    assert m == f + v + t + (a.value + rest);
    ThreePairs(f, v, t, a.value + rest);
    GetPutU16(AVPFlags(a), m, 0);
    GetPutU16(a.vendorID, m, 2);
    GetPutU16(a.attrType, m, 4);
  }

  /** An encoded AVP followed by anything is read back exactly when its value fits and its length says so. */
  lemma AVPRoundTrip(a: AVP, rest: seq<byte>)
    ensures ParseAVP(EncodeAVP(a) + rest) == Ok(a, rest) <==> |a.value| <= 1017 && a.length == 6 + |a.value|
  {
    var m := EncodeAVP(a) + rest;
    AVPBits(a);
    AVPLayout(a, rest);
    if |a.value| <= 1017 {
      assert m[6..6 + |a.value|] == m[6..][..|a.value|] == a.value;
      assert m[6 + |a.value|..] == m[6..][|a.value|..] == rest;
    }
  }

  /** The loop of `handle` over the body of a control message. */
  function ParseAVPs(buf: seq<byte>): Option<seq<AVP>>
    decreases |buf|
  {
    if buf == [] then Some([]) else
    match ParseAVP(buf)
    case Ok(a, rest) =>
      (match ParseAVPs(rest)
       case Some(tail) => Some([a] + tail)
       case None => None)
    case _ => None
  }

  /** The body is cut into consecutive pieces, each of which is the whole of one AVP. */
  predicate Partition(avps: seq<AVP>, buf: seq<byte>)
    decreases |avps|
  {
    if avps == [] then buf == [] else
    var n := avps[0].length;
    6 <= n <= |buf| && ParseAVP(buf[..n]) == Ok(avps[0], []) && Partition(avps[1..], buf[n..])
  }

  lemma AVPLocal(buf: seq<byte>, n: nat)
    requires 6 <= n <= |buf| && GetU16(buf, 0) % 1024 == n
    ensures ParseAVP(buf).Ok? && ParseAVP(buf[..n]) == Ok(ParseAVP(buf).value, [])
  {
    assert GetU16(buf[..n], 0) == GetU16(buf, 0) && GetU16(buf[..n], 2) == GetU16(buf, 2)
           && GetU16(buf[..n], 4) == GetU16(buf, 4);
    assert buf[..n][6..n] == buf[6..n];
  }

  lemma PartitionFirst(avps: seq<AVP>, buf: seq<byte>)
    requires avps != [] && Partition(avps, buf)
    ensures ParseAVP(buf).Ok? && ParseAVP(buf).value == avps[0]
  {
    assert GetU16(buf[..avps[0].length], 0) == GetU16(buf, 0);
    AVPLocal(buf, avps[0].length);
  }

  lemma {:induction false} PartitionParses(buf: seq<byte>, avps: seq<AVP>)
    requires Partition(avps, buf)
    ensures ParseAVPs(buf) == Some(avps)
    decreases |avps|
  {
    if avps != [] {
      PartitionFirst(avps, buf);
      PartitionParses(buf[avps[0].length..], avps[1..]);
      assert avps == [avps[0]] + avps[1..];
    }
  }

  lemma {:induction false} ParsesPartition(buf: seq<byte>)
    requires ParseAVPs(buf).Some?
    ensures Partition(ParseAVPs(buf).value, buf)
    decreases |buf|
  {
    if buf != [] {
      var a, rest := ParseAVP(buf).value, ParseAVP(buf).rest;
      AVPLocal(buf, a.length);
      ParsesPartition(rest);
      assert ParseAVPs(buf).value[1..] == ParseAVPs(rest).value;
    }
  }

  /** The loop succeeds exactly on partitioned bodies, with the AVPs of the partition. */
  lemma LoopPartitions(buf: seq<byte>, avps: seq<AVP>)
    ensures ParseAVPs(buf) == Some(avps) <==> Partition(avps, buf)
  {
    if Partition(avps, buf) { PartitionParses(buf, avps); }
    if ParseAVPs(buf).Some? { ParsesPartition(buf); }
  }

  function EncodeAll(avps: seq<AVP>): seq<byte> {
    if avps == [] then [] else EncodeAVP(avps[0]) + EncodeAll(avps[1..])
  }

  /** Parsing the concatenated encodings of AVPs that fit returns the list. */
  lemma {:induction false} AVPsRoundTrip(avps: seq<AVP>)
    requires forall i | 0 <= i < |avps| :: |avps[i].value| <= 1017 && avps[i].length == 6 + |avps[i].value|
    ensures ParseAVPs(EncodeAll(avps)) == Some(avps)
  {
    if avps != [] {
      AVPsRoundTrip(avps[1..]);
      OneMore(avps[0], EncodeAll(avps[1..]));
      assert avps == [avps[0]] + avps[1..];
    }
  }

  lemma OneMore(a: AVP, rest: seq<byte>)
    requires |a.value| <= 1017 && a.length == 6 + |a.value| && ParseAVPs(rest).Some?
    ensures ParseAVPs(EncodeAVP(a) + rest) == Some([a] + ParseAVPs(rest).value)
  {
    AVPRoundTrip(a, rest);
  }

  // ---- handle ----

  /** What handling a datagram comes to: a reply, a recorded error or panic, or nothing (data messages). */
  datatype Outcome = Replied(bytes: seq<byte>) | Failed | Quiet

  function Response(head: Header): Header {
    Header(true, false, true, head.tunnelID, head.sessionID, (head.ns + 1) % TWO_16, (head.nr + 1) % TWO_16, 0, 0)
  }

  /** Sequence numbers wrap; a control message without any AVP trips the access to the first one. */
  function Handle(buf: seq<byte>): Outcome {
    match ParseHeader(buf)
    case Ok(head, body) =>
      if !head.isControl then Quiet else
      (match ParseAVPs(body)
       case Some(avps) => if avps == [] then Failed else Replied(Encode(Response(head)))
       case None => Failed)
    case _ => Failed
  }

  method CollectAVPs(buf: seq<byte>) returns (r: Option<seq<AVP>>)
    ensures r == ParseAVPs(buf)
  {
    var avps: seq<AVP>, body := [], buf;
    assert ParseAVPs(buf).Some? ==> avps + ParseAVPs(buf).value == ParseAVPs(buf).value;
    while |body| > 0
      invariant ParseAVPs(buf) == match ParseAVPs(body) case Some(tail) => Some(avps + tail) case None => None
      decreases |body|
    {
      var avp := ParseAVP(body);
      if !avp.Ok? { return None; }
      assert forall tail :: avps + ([avp.value] + tail) == avps + [avp.value] + tail;
      avps, body := avps + [avp.value], avp.rest;
    }
    assert avps + [] == avps;
    return Some(avps);
  }

  method HandleMessage(buf: seq<byte>) returns (r: Outcome)
    ensures r == Handle(buf)
  {
    var parsed := ParseHeader(buf);
    if !parsed.Ok? { return Failed; }
    if !parsed.value.isControl { return Quiet; }
    var avps := CollectAVPs(parsed.rest);
    if avps.None? || avps.value == [] { return Failed; }
    var bytes := EncodeTo(Response(parsed.value), []);
    assert [] + Encode(Response(parsed.value)) == Encode(Response(parsed.value));
    return Replied(bytes);
  }

  lemma ResponseParses(head: Header)
    ensures ParseHeader(Encode(Response(head))) == Ok(Response(head), [])
  {
    var r := Response(head);
    HeaderRoundTrip(r, []);
    assert Encode(r) + [] == Encode(r);
    assert RoundTrips(r, []);
  }

  /** A reply is sent exactly for a control message with one or more AVPs, and parses as its successor. */
  lemma RepliesExactly(buf: seq<byte>)
    ensures Handle(buf).Replied? <==>
              ParseHeader(buf).Ok? && ParseHeader(buf).value.isControl
              && exists avps :: avps != [] && Partition(avps, ParseHeader(buf).rest)
    ensures Handle(buf).Replied? ==>
              ParseHeader(Handle(buf).bytes) == Ok(Response(ParseHeader(buf).value), [])
  {
    var p := ParseHeader(buf);
    if p.Ok? && p.value.isControl {
      BodyExactly(p.rest);
      ResponseParses(p.value);
    }
  }

  lemma BodyExactly(body: seq<byte>)
    ensures (exists avps :: avps != [] && Partition(avps, body)) <==>
            ParseAVPs(body).Some? && ParseAVPs(body).value != []
  {
    if ParseAVPs(body).Some? { LoopPartitions(body, ParseAVPs(body).value); }
    if avps :| avps != [] && Partition(avps, body) { LoopPartitions(body, avps); }
  }

  /** A control header alone, for the same tunnel and session, one further in both sequences. */
  predicate Advances(head: Header, reply: Header) {
    && reply.isControl && reply.sequence && !reply.priority && reply.length == 0 && reply.offset == 0
    && reply.tunnelID == head.tunnelID && reply.sessionID == head.sessionID
    && reply.ns == (if head.ns == 65535 then 0 else head.ns + 1)
    && reply.nr == (if head.nr == 65535 then 0 else head.nr + 1)
  }

  lemma ResponseAdvances(head: Header)
    ensures Advances(head, Response(head))
  {
  }

  /** What a reply parses as. */
  lemma ReplyAdvances(buf: seq<byte>, head: Header, body: seq<byte>, bytes: seq<byte>)
    requires ParseHeader(buf) == Ok(head, body) && Handle(buf) == Replied(bytes)
    ensures exists reply :: ParseHeader(bytes) == Ok(reply, []) && Advances(head, reply)
  {
    RepliesExactly(buf);
    ResponseAdvances(head);
  }

  /** Nothing happens exactly on data messages; whatever else is not answered is recorded as an error. */
  lemma QuietExactly(buf: seq<byte>)
    ensures Handle(buf).Quiet? <==> ParseHeader(buf).Ok? && !ParseHeader(buf).value.isControl
  {
  }

  /** A Start-Control-Connection-Request for tunnel 1 and session 2, numbered 3 and 4, and its answer. */
  const REQUEST: seq<byte> := [0xC8, 2, 0, 20, 0, 1, 0, 2, 0, 3, 0, 4, 0x80, 8, 0, 0, 0, 0, 0, 1]
  const REPLY: seq<byte> := [0x88, 2, 0, 1, 0, 2, 0, 4, 0, 5]

  const HEAD := Header(true, false, true, 1, 2, 3, 4, 20, 0)

  lemma RequestFields(buf: seq<byte>)
    requires buf == REQUEST
    ensures GetU16(buf, 0) == 0xC802 && GetU16(buf, 2) == 20 && GetU16(buf, 4) == 1
    ensures GetU16(buf, 6) == 2 && GetU16(buf, 8) == 3 && GetU16(buf, 10) == 4
  {
  }

  lemma RequestHeader(buf: seq<byte>)
    requires buf == REQUEST
    ensures ParseHeader(buf) == Ok(HEAD, buf[12..20])
  {
    RequestFields(buf);
    assert Has(0xC802, FLAG_TYPE) && Has(0xC802, FLAG_LENGTH) && Has(0xC802, FLAG_SEQUENCE);
    assert !Has(0xC802, FLAG_OFFSET) && !Has(0xC802, FLAG_PRIORITY);
    assert IdsAt(0xC802) == 4 && OffsetAt(0xC802) == 12;
    ParseHeaderExactly(buf);
  }

  lemma RequestBody(body: seq<byte>, a: AVP)
    requires body == [0x80, 8, 0, 0, 0, 0, 0, 1] && a == AVP(true, false, 8, 0, 0, [0, 1])
    ensures ParseAVPs(body) == Some([a])
  {
    assert GetU16(body, 0) == 0x8008 && Has(0x8008, FLAG_MANDATORY) && !Has(0x8008, FLAG_HIDDEN);
    assert GetU16(body, 2) == 0 && GetU16(body, 4) == 0;
    assert body[6..8] == [0, 1] && body[8..] == [];
    assert ParseAVP(body) == Ok(a, []);
    assert ParseAVPs([]) == Some([]) && [a] + [] == [a];
  }

  lemma RequestsBody(buf: seq<byte>)
    requires buf == REQUEST
    ensures ParseAVPs(buf[12..20]) == Some([AVP(true, false, 8, 0, 0, [0, 1])])
  {
    RequestBody(buf[12..20], AVP(true, false, 8, 0, 0, [0, 1]));
  }

  lemma ReplyOctets(r: Header)
    requires r == Header(true, false, true, 1, 2, 4, 5, 0, 0)
    ensures Encode(r) == REPLY
  {
    assert Flags(r) == 0x8802;
    assert UpToSession(r) == [0x88, 2, 0, 1, 0, 2];
    assert UpToNr(r) == REPLY && REPLY + [] == REPLY;
  }

  lemma AnswersWith(buf: seq<byte>, head: Header, body: seq<byte>, a: AVP, reply: seq<byte>)
    requires ParseHeader(buf) == Ok(head, body) && head.isControl && ParseAVPs(body) == Some([a])
    requires Encode(Response(head)) == reply
    ensures Handle(buf) == Replied(reply)
  {
  }

  lemma HeadIsAnswered(buf: seq<byte>, head: Header, body: seq<byte>, a: AVP)
    requires ParseHeader(buf) == Ok(head, body) && head == HEAD && ParseAVPs(body) == Some([a])
    ensures Handle(buf) == Replied(REPLY)
  {
    HeadResponse(head);
    AnswersWith(buf, head, body, a, REPLY);
  }

  lemma HeadResponse(head: Header)
    requires head == HEAD
    ensures Encode(Response(head)) == REPLY
  {
    assert Response(head) == Header(true, false, true, 1, 2, 4, 5, 0, 0);
    ReplyOctets(Response(head));
  }

  /** The octets of two data headers, one with priority and one with an offset. */
  lemma DataOctets(p: Header, o: Header)
    requires p == Header(false, true, false, 1, 2, 0, 0, 0, 0) && o == Header(false, false, false, 1, 2, 0, 0, 0, 3)
    ensures Encode(p) == [0x01, 2, 0, 1, 0, 2] && Encode(o) == [0x02, 2, 0, 1, 0, 2, 0, 3]
  {
    assert Flags(p) == 0x0102 && Flags(o) == 0x0202;
    assert UpToSession(p) == [0x01, 2, 0, 1, 0, 2] == UpToNr(p);
    assert UpToSession(o) == [0x02, 2, 0, 1, 0, 2] == UpToNr(o);
  }

  /** The octets of a request and of its reply. */
  lemma RequestIsAnswered(buf: seq<byte>)
    requires buf == REQUEST
    ensures Handle(buf) == Replied(REPLY)
  {
    RequestHeader(buf);
    RequestsBody(buf);
    HeadIsAnswered(buf, HEAD, buf[12..20], AVP(true, false, 8, 0, 0, [0, 1]));
  }
}
