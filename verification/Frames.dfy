/** What filters say about frames that are built from their parts. */
module Frames {
  import opened Words
  import opened WordLaws
  import opened Bpf
  import opened Filters
  import opened Meanings

  // A 16-bit and a 32-bit field, most significant byte first.
  type Half = w: nat | w < 65536

  function Bytes2(w: Half): seq<Byte> { [w / 256, w % 256] }

  function Bytes4(w: Word): seq<Byte> { [w / 16777216, w / 65536 % 256, w / 256 % 256, w % 256] }

  // An Ethernet frame: two addresses of six bytes, the type, the payload.
  function Ethernet(macs: seq<Byte>, ethertype: Half, payload: seq<Byte>): seq<Byte> { macs + (Bytes2(ethertype) + payload) }

  /** An IPv4 datagram (section 3.1 of RFC 791): version and header length, type of service, total length and identification, the
      fragment field, time to live, protocol, checksum and addresses, options, and the segment it carries. */
  datatype Datagram = Datagram(version: nat, ihl: nat, service: seq<Byte>, frag: Half, ttl: Byte, proto: Byte, addresses: seq<Byte>,
                               options: seq<Byte>, segment: seq<Byte>)

  predicate Sound(d: Datagram) {
    d.version < 16 && 5 <= d.ihl <= 15 && |d.service| == 5 && |d.addresses| == 10 && |d.options| == 4 * (d.ihl - 5)
  }

  function Header(d: Datagram): (r: seq<Byte>)
    requires Sound(d)
    ensures |r| == 4 * d.ihl
  {
    [16 * d.version + d.ihl] + d.service + Bytes2(d.frag) + [d.ttl, d.proto] + d.addresses + d.options
  }

  function Ip4(macs: seq<Byte>, d: Datagram): seq<Byte>
    requires Sound(d)
  {
    Ethernet(macs, 0x800, Header(d) + d.segment)
  }

  /** A transport header begins with its two ports. */
  function Ports(sport: Half, dport: Half, rest: seq<Byte>): seq<Byte> { Bytes2(sport) + Bytes2(dport) + rest }

  /** Loads of fields that were written there. */
  lemma {:induction false} LoadWritten(p: Packet, off: Word, w: Word)
    ensures off + 4 <= |p.bytes| && p.bytes[off..off + 4] == Bytes4(w) ==> Load(p, off, W) == Some(w)
    ensures w < 65536 && off + 2 <= |p.bytes| && p.bytes[off..off + 2] == Bytes2(w) ==> Load(p, off, H) == Some(w)
    ensures w < 256 && off < |p.bytes| && p.bytes[off] == w ==> Load(p, off, B) == Some(w)
  {
    hide Pack4, Pack2;
    BigEndian(w);
    if off + 4 <= |p.bytes| {
      var b := p.bytes[off..off + 4];
      assert b[0] == p.bytes[off] && b[1] == p.bytes[off + 1] && b[2] == p.bytes[off + 2] && b[3] == p.bytes[off + 3];
    }
    if off + 2 <= |p.bytes| {
      var b := p.bytes[off..off + 2];
      assert b[0] == p.bytes[off] && b[1] == p.bytes[off + 1];
    }
  }

  lemma {:induction false} Inside(pre: seq<Byte>, mid: seq<Byte>, post: seq<Byte>)
    ensures (pre + (mid + post))[|pre|..|pre| + |mid|] == mid
    ensures forall i :: 0 <= i < |mid| ==> (pre + (mid + post))[|pre| + i] == mid[i]
  {
  }

  lemma {:induction false} Behind(pre: seq<Byte>, post: seq<Byte>)
    ensures forall i {:trigger (pre + post)[i]} :: |pre| <= i < |pre| + |post| ==> (pre + post)[i] == post[i - |pre|]
  {
  }

  /** The type field. */
  lemma {:induction false} TypeWritten(p: Packet, macs: seq<Byte>, ethertype: Half, payload: seq<Byte>, t: Word)
    requires |macs| == 12 && p.bytes == Ethernet(macs, ethertype, payload)
    ensures TypeIs(p, t) == Some(t == ethertype)
    ensures |p.bytes| == 14 + |payload| && forall i {:trigger payload[i]} :: 0 <= i < |payload| ==> p.bytes[14 + i] == payload[i]
  {
    hide Load;
    Inside(macs, Bytes2(ethertype), payload);
    LoadWritten(p, 12, ethertype);
    assert macs + (Bytes2(ethertype) + payload) == (macs + Bytes2(ethertype)) + payload;
    Behind(macs + Bytes2(ethertype), payload);
  }

  /** Where the fields of an IPv4 header are. */
  lemma {:induction false} HeaderBytes(d: Datagram)
    requires Sound(d)
    ensures var h := Header(d); h[0] == 16 * d.version + d.ihl && h[6] == d.frag / 256 && h[7] == d.frag % 256 && h[9] == d.proto
  {
  }

  lemma {:induction false} DatagramBytes(p: Packet, macs: seq<Byte>, d: Datagram)
    requires |macs| == 12 && Sound(d) && p.bytes == Ip4(macs, d)
    ensures |p.bytes| == 14 + 4 * d.ihl + |d.segment|
    ensures p.bytes[14] == 16 * d.version + d.ihl && p.bytes[20] == d.frag / 256 && p.bytes[21] == d.frag % 256 && p.bytes[23] == d.proto
    ensures forall i {:trigger d.segment[i]} :: 0 <= i < |d.segment| ==> p.bytes[14 + 4 * d.ihl + i] == d.segment[i]
  {
    hide Header;
    var payload := Header(d) + d.segment;
    TypeWritten(p, macs, 0x800, payload, 0x800);
    HeaderBytes(d);
    assert payload[0] == Header(d)[0] && payload[6] == Header(d)[6] && payload[7] == Header(d)[7] && payload[9] == Header(d)[9];
    forall i | 0 <= i < |d.segment| ensures p.bytes[14 + 4 * d.ihl + i] == d.segment[i] {
      assert payload[4 * d.ihl + i] == d.segment[i];
    }
  }

  /** Protocol, fragment offset and header length are read back. */
  lemma {:induction false} HeaderRead(p: Packet, macs: seq<Byte>, d: Datagram, proto: Word)
    requires |macs| == 12 && Sound(d) && p.bytes == Ip4(macs, d)
    ensures ProtoIs(p, proto) == Some(proto == d.proto)
    ensures FirstFragment(p) == Some(d.frag % 8192 == 0)
    ensures HeaderLength(p) == Some(4 * d.ihl)
  {
    hide Load, Band, Ip4;
    DatagramBytes(p, macs, d);
    LoadWritten(p, 23, d.proto);
    assert p.bytes[20..22] == Bytes2(d.frag);
    LoadWritten(p, 20, d.frag);
    LoadWritten(p, 14, 16 * d.version + d.ihl);
    LowBits(d.frag);
    assert (16 * d.version + d.ihl) % 16 == d.ihl;
  }

  lemma {:induction false} LowBits(w: Word)
    ensures Band(w, 0x1fff) == w % 8192
  {
    assert Pow2(13) == 8192;
    AndBitsLow(w, 13, 32);
  }

  /** Where the ports are. */
  lemma {:induction false} PortBytes(p: Packet, macs: seq<Byte>, d: Datagram, sport: Half, dport: Half, rest: seq<Byte>)
    requires |macs| == 12 && Sound(d) && p.bytes == Ip4(macs, d) && d.segment == Ports(sport, dport, rest)
    ensures var at := 14 + 4 * d.ihl; Load(p, at, H) == Some(sport) && Load(p, at + 2, H) == Some(dport)
  {
    hide Load, Ip4;
    DatagramBytes(p, macs, d);
    var at := 14 + 4 * d.ihl;
    assert d.segment[0] == sport / 256 && d.segment[1] == sport % 256 && d.segment[2] == dport / 256 && d.segment[3] == dport % 256;
    assert p.bytes[at] == d.segment[0] && p.bytes[at + 1] == d.segment[1] && p.bytes[at + 2] == d.segment[2] && p.bytes[at + 3] == d.segment[3];
    assert p.bytes[at..at + 2] == Bytes2(sport) && p.bytes[at + 2..at + 4] == Bytes2(dport);
    LoadWritten(p, at, sport);
    LoadWritten(p, at + 2, dport);
  }

  /** A port filter accepts exactly the first fragments of the protocol whose selected ports match, for every header length. */
  lemma {:induction false} PortFilter(p: Packet, macs: seq<Byte>, d: Datagram, sport: Half, dport: Half, rest: seq<Byte>, q: Word, proto: Word, dir: Dir)
    requires |macs| == 12 && Sound(d) && p.bytes == Ip4(macs, d) && d.segment == Ports(sport, dport, rest)
    ensures var wanted := d.proto == proto && d.frag % 8192 == 0;
      && (dir == SrcPort ==> Meaning(Port(q, proto, dir), p) == Some(wanted && sport == q))
      && (dir == DstPort ==> Meaning(Port(q, proto, dir), p) == Some(wanted && dport == q))
      && (dir == EitherPort ==> Meaning(Port(q, proto, dir), p) == Some(wanted && (sport == q || dport == q)))
      && (dir == BothPorts ==> Meaning(Port(q, proto, dir), p) == Some(wanted && sport == q && dport == q))
  {
    hide Load, ProtoIs, FirstFragment, HeaderLength, Ip4, Ports;
    HeaderRead(p, macs, d, proto);
    PortBytes(p, macs, d, sport, dport, rest);
    assert Plus(4 * d.ihl, Plus(14, 0)) == 14 + 4 * d.ihl && Plus(4 * d.ihl, Plus(14, 2)) == 14 + 4 * d.ihl + 2;
  }

  /** A protocol is found in every IPv4 datagram that carries it. */
  lemma {:induction false} ProtocolIn4(p: Packet, macs: seq<Byte>, d: Datagram, proto: Word)
    requires |macs| == 12 && Sound(d) && p.bytes == Ip4(macs, d)
    ensures ProtoAbbrevIs(p, proto) == Some(d.proto == proto)
  {
    hide Header, TypeIs, ProtoIs, FirstFragment, HeaderLength;
    HeaderRead(p, macs, d, proto);
    TypeWritten(p, macs, 0x800, Header(d) + d.segment, 0x800);
    TypeWritten(p, macs, 0x800, Header(d) + d.segment, 0x86dd);
  }

  /** An IPv6 packet (section 3 of RFC 2460): six bytes, the next header, the hop limit and the addresses, and what follows. */
  function Ip6(macs: seq<Byte>, first: seq<Byte>, next: Byte, addresses: seq<Byte>, rest: seq<Byte>): seq<Byte> {
    Ethernet(macs, 0x86dd, first + [next] + addresses + rest)
  }

  /** In IPv6 packets only six protocols are looked for, in the next header or that of a fragment header behind it. */
  lemma {:induction false} ProtocolIn6(p: Packet, macs: seq<Byte>, first: seq<Byte>, next: Byte, addresses: seq<Byte>, rest: seq<Byte>, proto: Word)
    requires |macs| == 12 && |first| == 6 && |addresses| == 33 && p.bytes == Ip6(macs, first, next, addresses, rest)
    ensures var known := proto == 6 || proto == 17 || proto == 50 || proto == 51 || proto == 103 || proto == 132;
      ProtoAbbrevIs(p, proto) ==
        if !known then Some(false) else if next == proto then Some(true) else if next != 44 then Some(false)
        else if |rest| > 0 then Some(rest[0] == proto) else None
  {
    hide TypeIs;
    var payload := first + [next] + addresses + rest;
    TypeWritten(p, macs, 0x86dd, payload, 0x800);
    TypeWritten(p, macs, 0x86dd, payload, 0x86dd);
    assert payload[6] == next && p.bytes[20] == next;
    if |rest| > 0 { assert payload[40] == rest[0] && p.bytes[54] == rest[0]; }
  }

  /** Loads count from the frame, from the payload, or from the segment behind the header, whatever its length. */
  lemma {:induction false} IndexedLoads(p: Packet, macs: seq<Byte>, d: Datagram, k: Word, size: Size, w: Word, t: Word)
    requires |macs| == 12 && Sound(d) && p.bytes == Ip4(macs, d) && |p.bytes| < M
    ensures Reads(p.bytes, k, size, w) ==> Val(At(Frame, Num(k), size), p) == Some(w)
    ensures Reads(Header(d) + d.segment, k, size, w) ==> Val(At(Payload(t), Num(k), size), p) == Some(w)
    ensures Reads(d.segment, k, size, w) ==> Val(At(Transport(t), Num(k), size), p) == Some(w)
  {
    hide Load, HeaderLength, Header, Ip4, Reads, Plus;
    HeaderRead(p, macs, d, t);
    FrameParts(p, macs, d);
    ReadsLoad(p, 0, p.bytes, k, size, w);
    ReadsLoad(p, 14, Header(d) + d.segment, k, size, w);
    ReadsLoad(p, 14 + 4 * d.ihl, d.segment, k, size, w);
    if Reads(p.bytes, k, size, w) { NoWrap(k, 0, 0); }
    if Reads(Header(d) + d.segment, k, size, w) { NoWrap(k, 14, 0); }
    if Reads(d.segment, k, size, w) { NoWrap(k, 4 * d.ihl, 14); }
  }

  lemma {:induction false} NoWrap(k: Word, x: Word, y: Word)
    requires k + x + y < M
    ensures Plus(Plus(k, x), y) == k + x + y && Plus(k, x) == k + x
  {
  }

  lemma {:induction false} FrameParts(p: Packet, macs: seq<Byte>, d: Datagram)
    requires |macs| == 12 && Sound(d) && p.bytes == Ip4(macs, d)
    ensures p.bytes[14..] == Header(d) + d.segment && p.bytes[0..] == p.bytes
    ensures |p.bytes| == 14 + 4 * d.ihl + |d.segment| && p.bytes[14 + 4 * d.ihl..] == d.segment
  {
    hide Header;
  }

  /** The field of the given size at k holds w. */
  predicate Reads(b: seq<Byte>, k: nat, size: Size, w: Word) {
    match size
    case W => k + 4 <= |b| && b[k..k + 4] == Bytes4(w)
    case H => w < 65536 && k + 2 <= |b| && b[k..k + 2] == Bytes2(w)
    case B => k < |b| && b[k] == w
  }

  lemma {:induction false} ReadsLoad(p: Packet, at: nat, part: seq<Byte>, k: Word, size: Size, w: Word)
    requires at <= |p.bytes| < M && p.bytes[at..] == part
    ensures Reads(part, k, size, w) ==> at + k < M && Load(p, at + k, size) == Some(w)
  {
    hide Load;
    if Reads(part, k, size, w) {
      LoadWritten(p, at + k, w);
      match size
      case W => Later(p.bytes, at, k, 4);
      case H => Later(p.bytes, at, k, 2);
      case B => assert p.bytes[at..][k] == p.bytes[at + k];
    }
  }

  lemma {:induction false} Later(b: seq<Byte>, at: nat, k: nat, n: nat)
    requires at + k + n <= |b|
    ensures b[at..][k..k + n] == b[at + k..at + k + n]
  {
  }

  /** Byte strings are looked for where they are. */
  lemma {:induction false} BytesFound(p: Packet, pre: seq<Byte>, w: seq<Byte>, post: seq<Byte>, off: Word, v: seq<Byte>)
    requires p.bytes == pre + (w + post) && |pre| == off && |w| == |v|
    ensures Meaning(Bytes(off, v), p) == Some(w == v)
  {
    Inside(pre, w, post);
  }

  lemma {:induction false} BytesShort(p: Packet, off: Word, v: seq<Byte>)
    requires |p.bytes| < off + |v|
    ensures Meaning(Bytes(off, v), p) == None
  {
  }

  /** Conjunction, disjunction and negation of filters, where the left one does not fault; and where it does. */
  lemma {:induction false} Connectives(f: Filter, g: Filter, p: Packet)
    ensures Meaning(All(f, g), p) == Some(true) <==> Meaning(f, p) == Some(true) && Meaning(g, p) == Some(true)
    ensures Meaning(Any(f, g), p) == Some(true) <==> Meaning(f, p) == Some(true) || (Meaning(f, p) == Some(false) && Meaning(g, p) == Some(true))
    ensures Meaning(No(f), p) == Some(true) <==> Meaning(f, p) == Some(false)
    ensures Meaning(All(f, g), p).None? <==> Meaning(f, p).None? || (Meaning(f, p) == Some(true) && Meaning(g, p).None?)
    ensures Meaning(Any(f, g), p).None? <==> Meaning(f, p).None? || (Meaning(f, p) == Some(false) && Meaning(g, p).None?)
    ensures Meaning(No(f), p).None? <==> Meaning(f, p).None?
  {
  }

  /** A relation whose checks pass compares two numbers: equal, greater, or not less; reversed, the opposite. */
  lemma {:induction false} Relations(l: Expr, r: Expr, p: Packet, x: Word, y: Word)
    requires Val(l, p) == Some(x) && Val(r, p) == Some(y) && ChecksAre(p, Guards(l) + Guards(r)) == Some(true)
    ensures Meaning(Rel(Jeq, l, r, false), p) == Some(x == y) && Meaning(Rel(Jeq, l, r, true), p) == Some(x != y)
    ensures Meaning(Rel(Jgt, l, r, false), p) == Some(x > y) && Meaning(Rel(Jgt, l, r, true), p) == Some(x <= y)
    ensures Meaning(Rel(Jge, l, r, false), p) == Some(x >= y) && Meaning(Rel(Jge, l, r, true), p) == Some(x < y)
  {
  }

  /** A masked field: for equality, the bits of the mask agree; for order, the masked numbers compare, or, in reverse, do not. */
  lemma {:induction false} MaskedFields(p: Packet, off: Word, size: Size, mask: Word, v: Word, x: Word, reverse: bool)
    requires Load(p, off, size) == Some(x)
    ensures Meaning(Field(off, size, mask, Jeq, reverse, v), p) == Some(true) <==>
      forall i {:trigger Bit(v, i)} :: 0 <= i < 32 ==> (Bit(v, i) == 1 <==> Bit(x, i) == 1 && Bit(mask, i) == 1)
    ensures mask == ONES ==> Meaning(Field(off, size, mask, Jgt, reverse, v), p) == Some(if reverse then x <= v else x > v)
    ensures mask == ONES ==> Meaning(Field(off, size, mask, Jge, reverse, v), p) == Some(if reverse then x < v else x >= v)
    ensures Meaning(Field(off, size, mask, Jset, reverse, v), p) == Some(true) <==>
      exists i {:trigger Bit(v, i)} :: 0 <= i < 32 && Bit(x, i) == 1 && Bit(mask, i) == 1 && Bit(v, i) == 1
  {
    hide Load, Band, Bit;
    BandOnes(x);
    forall i | 0 <= i < 32 ensures Bit(Band(x, mask), i) == 1 <==> Bit(x, i) == 1 && Bit(mask, i) == 1 {
      LogicBits(x, mask, i);
    }
    MaskedEqual(x, mask, v);
    TestLaws(Band(x, mask), v);
    CommonWith(Band(x, mask), v);
  }

  lemma {:induction false} CommonWith(a: Word, b: Word)
    ensures Test(Jset, a, b) <==> exists i {:trigger Bit(b, i)} :: 0 <= i < 32 && Bit(a, i) == 1 && Bit(b, i) == 1
  {
    hide Bit, Test;
    TestLaws(a, b);
    if Test(Jset, a, b) {
      var i :| 0 <= i < 32 && Bit(a, i) == 1 && Bit(b, i) == 1;
      assert Bit(b, i) == 1;
    }
  }

  lemma {:induction false} MaskedEqual(x: Word, mask: Word, v: Word)
    ensures Band(x, mask) == v <==> forall i {:trigger Bit(v, i)} :: 0 <= i < 32 ==> (Bit(v, i) == 1 <==> Bit(x, i) == 1 && Bit(mask, i) == 1)
  {
    hide Band, Bit;
    if forall i {:trigger Bit(v, i)} :: 0 <= i < 32 ==> (Bit(v, i) == 1 <==> Bit(x, i) == 1 && Bit(mask, i) == 1) {
      Pow32();
      forall i | 0 <= i < 32 ensures Bit(Band(x, mask), i) == Bit(v, i) {
        LogicBits(x, mask, i);
        BitIsBit(v, i);
        BitIsBit(Band(x, mask), i);
      }
      SameBits(Band(x, mask), v, 32);
    } else {
      forall i | 0 <= i < 32 ensures Bit(Band(x, mask), i) == 1 <==> Bit(x, i) == 1 && Bit(mask, i) == 1 {
        LogicBits(x, mask, i);
      }
    }
  }

  /** Expressions: numbers, the wire length, negation and the binary operations. */
  lemma {:induction false} Values(l: Expr, r: Expr, op: AluOp, k: Word, p: Packet, x: Word, y: Word)
    requires Val(l, p) == Some(x) && Val(r, p) == Some(y)
    ensures Val(Num(k), p) == Some(k) && Val(Len, p) == Some(p.wirelen)
    ensures Val(Minus(l), p).Some? && Plus(x, Val(Minus(l), p).value) == 0
    ensures Val(Bin(op, l, r), p) == Compute(op, x, y)
  {
    ComputeNumbers(x, y);
  }

  // The layers of the loads on the left spine of an expression.
  function LeftLayers(e: Expr): set<Layer> {
    match e
    case Num(_) => {}
    case Len => {}
    case At(layer, i, _) => LeftLayers(i) + {layer}
    case Minus(x) => LeftLayers(x)
    case Bin(_, l, _) => LeftLayers(l)
  }

  lemma {:induction false} LeftCovered(e: Expr, layer: Layer)
    requires layer in LeftLayers(e)
    ensures Covers(Guards(e), layer)
  {
    match e
    case At(here, i, _) =>
      if layer != here || layer in LeftLayers(i) {
        LeftCovered(i, layer);
        CoversMore(Guards(i), here, layer);
      }
    case Minus(x) => LeftCovered(x, layer);
    case Bin(_, l, _) => LeftCovered(l, layer);
  }

  lemma {:induction false} CoversMore(cs: seq<Check>, here: Layer, layer: Layer)
    requires Covers(cs, layer)
    ensures Covers(ChecksOf(here, cs), layer)
  {
    assert forall c :: c in cs ==> c in ChecksOf(here, cs);
  }

  /** A relation accepts only packets that all loads on the left of its operands are made for. */
  lemma {:induction false} LeftChecked(op: JmpOp, l: Expr, r: Expr, reversed: bool, p: Packet, layer: Layer)
    requires Meaning(Rel(op, l, r, reversed), p) == Some(true) && layer in LeftLayers(l) + LeftLayers(r)
    ensures Belongs(p, layer)
  {
    hide ChecksAre, Guards, LeftLayers, Belongs, Covers;
    var cs := Guards(l) + Guards(r);
    GuardsAnchored(l);
    GuardsAnchored(r);
    BothAnchored(Guards(l), Guards(r));
    if layer in LeftLayers(l) { LeftCovered(l, layer); } else { LeftCovered(r, layer); }
    CoversEither(Guards(l), Guards(r), layer);
    ChecksExact(cs, layer);
    assert ChecksAre(p, cs) == Some(true);
  }

  lemma {:induction false} BothAnchored(x: seq<Check>, y: seq<Check>)
    requires Anchored(x) && Anchored(y)
    ensures Anchored(x + y)
  {
  }

  lemma {:induction false} CoversEither(x: seq<Check>, y: seq<Check>, layer: Layer)
    requires Covers(x, layer) || Covers(y, layer)
    ensures Covers(x + y, layer)
  {
  }

  /** A test of a byte of the transport header: the protocol and the first fragment are asked for, and then the byte. */
  lemma {:induction false} TransportTest(p: Packet, macs: seq<Byte>, d: Datagram, proto: Word, k: Word, v: Word)
    requires |macs| == 12 && Sound(d) && p.bytes == Ip4(macs, d) && |p.bytes| < M && k < |d.segment|
    ensures Meaning(Rel(Jeq, At(Transport(proto), Num(k), B), Num(v), false), p) ==
      Some(d.proto == proto && d.frag % 8192 == 0 && d.segment[k] == v)
  {
    hide Load, TypeIs, FirstFragment, ProtoAbbrevIs, LoadIn, Ip4, Header;
    IndexedLoads(p, macs, d, k, B, d.segment[k], proto);
    ProtocolIn4(p, macs, d, proto);
    HeaderRead(p, macs, d, proto);
    TypeWritten(p, macs, 0x800, Header(d) + d.segment, 0x800) by { FrameIs(macs, d); }
    ThreeChecks(p, TypeCheck(ETHERTYPE_IP), ProtoCheck(proto), FragCheck);
    assert Guards(At(Transport(proto), Num(k), B)) + Guards(Num(v)) == [TypeCheck(ETHERTYPE_IP), ProtoCheck(proto), FragCheck];
  }

  lemma {:induction false} FrameIs(macs: seq<Byte>, d: Datagram)
    requires Sound(d)
    ensures Ip4(macs, d) == Ethernet(macs, 0x800, Header(d) + d.segment)
  {
  }

  lemma {:induction false} ThreeChecks(p: Packet, x: Check, y: Check, z: Check)
    ensures ChecksAre(p, [x, y, z]) == Both(Both(CheckIs(p, x), CheckIs(p, y)), CheckIs(p, z))
  {
    hide CheckIs;
    assert [x, y, z][..2] == [x, y] && [x, y][..1] == [x] && [x][..0] == [];
    assert ChecksAre(p, [x]) == CheckIs(p, x);
    assert ChecksAre(p, [x, y]) == Both(CheckIs(p, x), CheckIs(p, y));
  }

  /** In frames of another type nothing is looked at behind the type field. */
  lemma {:induction false} OtherType(p: Packet, macs: seq<Byte>, ethertype: Half, payload: seq<Byte>, layer: Layer, i: Word, size: Size, op: JmpOp, v: Word,
                                     reversed: bool)
    requires |macs| == 12 && p.bytes == Ethernet(macs, ethertype, payload)
    requires (layer.Payload? && layer.ethertype != ethertype) || (layer.Transport? && ethertype != 0x800)
    ensures Meaning(Rel(op, At(layer, Num(i), size), Num(v), reversed), p) == Some(false)
  {
    hide Load, TypeIs, FirstFragment, ProtoAbbrevIs, LoadIn;
    TypeWritten(p, macs, ethertype, payload, if layer.Payload? then layer.ethertype else 0x800);
    var cs := Guards(At(layer, Num(i), size)) + Guards(Num(v));
    assert Guards(Num(i)) == [] && Guards(Num(v)) == [] && Guards(At(layer, Num(i), size)) == ChecksOf(layer, []);
    if layer.Payload? {
      var c := TypeCheck(layer.ethertype);
      assert cs == [c] && [c][..0] == [];
      assert ChecksAre(p, [c]) == CheckIs(p, c);
    } else {
      assert cs == [TypeCheck(ETHERTYPE_IP), ProtoCheck(layer.proto), FragCheck];
      ThreeChecks(p, TypeCheck(ETHERTYPE_IP), ProtoCheck(layer.proto), FragCheck);
    }
  }
}
