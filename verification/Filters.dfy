/** The filter language, as the parser hands it to the generator, and what a filter means.
    Headers are those of Ethernet: type field at 12, payload at 14. */
module Filters {
  import opened Words
  import opened Bpf
  import opened Meanings

  const OFF_LINKTYPE: Word := 12
  const OFF_MACPL: Word := 14
  const OFF_NL: Word := 0

  const ETHERTYPE_IP: Word := 0x800
  const ETHERTYPE_IPV6: Word := 0x86dd
  const IPPROTO_FRAGMENT: Word := 44

  // Where an index counts from: the frame, the payload of frames of one Ethernet type, or the transport
  // header behind an IPv4 header.
  datatype Layer = Frame | Payload(ethertype: Word) | Transport(proto: Word)

  // A test made before a load: of the Ethernet type, of the protocol byte, and for the first fragment.
  datatype Check = TypeCheck(ethertype: Word) | ProtoCheck(proto: Word) | FragCheck

  datatype Expr =
    | Num(k: Word)
    | Len
    | At(layer: Layer, index: Expr, size: Size)
    | Minus(e: Expr)
    | Bin(op: AluOp, l: Expr, r: Expr)

  datatype Dir = SrcPort | DstPort | EitherPort | BothPorts

  datatype Filter =
    | Bytes(off: Word, v: seq<Byte>)
    | Field(off: Word, size: Size, mask: Word, jop: JmpOp, reverse: bool, w: Word)
    | Port(port: Word, proto: Word, dir: Dir)
    | Rel(rop: JmpOp, l: Expr, r: Expr, reversed: bool)
    | All(f: Filter, g: Filter)
    | Any(f: Filter, g: Filter)
    | No(f: Filter)

  /** The 32-bit value of an expression; None when a load leaves the packet or a divisor is zero. */
  function Val(e: Expr, p: Packet): Option<Word> {
    match e
    case Num(k) => Some(k)
    case Len => Some(p.wirelen)
    case At(layer, i, size) =>
      (match Val(i, p)
       case None => None
       case Some(x) => LoadIn(layer, x, size, p))
    case Minus(x) => (match Val(x, p) case None => None case Some(v) => Some(Opposite(v)))
    case Bin(op, l, r) =>
      (match (Val(l, p), Val(r, p))
       case (Some(x), Some(y)) => Compute(op, x, y)
       case _ => None)
  }

  /** A load at index x of a layer; None when it, or the header length it needs, leaves the packet. */
  function LoadIn(layer: Layer, x: Word, size: Size, p: Packet): Option<Word> {
    match layer
    case Frame => Load(p, Plus(x, 0), size)
    case Payload(_) => Load(p, Plus(x, OFF_MACPL + OFF_NL), size)
    case Transport(_) =>
      match HeaderLength(p) case None => None case Some(n) => Load(p, Plus(Plus(x, n), OFF_MACPL + OFF_NL), size)
  }

  /** The checks made before a load at an index that has checks of its own. */
  function ChecksOf(layer: Layer, cs: seq<Check>): seq<Check> {
    match layer
    case Frame => cs
    case Payload(ethertype) => cs + [TypeCheck(ethertype)]
    case Transport(proto) => [TypeCheck(ETHERTYPE_IP)] + cs + [ProtoCheck(proto), FragCheck]
  }

  /** The checks made before an expression is evaluated. Of a binary operation only those of the left
      operand survive: the generator forgets the right operand's. */
  function Guards(e: Expr): seq<Check> {
    match e
    case Num(_) => []
    case Len => []
    case At(layer, i, _) => ChecksOf(layer, Guards(i))
    case Minus(x) => Guards(x)
    case Bin(_, l, _) => Guards(l)
  }

  /** The layers of every load in an expression. */
  function Layers(e: Expr): set<Layer> {
    match e
    case Num(_) => {}
    case Len => {}
    case At(layer, i, _) => Layers(i) + {layer}
    case Minus(x) => Layers(x)
    case Bin(_, l, r) => Layers(l) + Layers(r)
  }

  function TypeIs(p: Packet, ethertype: Word): Answer {
    match Load(p, OFF_LINKTYPE, H) case None => None case Some(t) => Some(t == ethertype)
  }

  /** A byte of the network header. */
  function NetByteIs(p: Packet, off: Word, v: Word): Answer
    requires OFF_NL + off < M - OFF_MACPL
  {
    match Load(p, OFF_MACPL + (OFF_NL + off), B) case None => None case Some(x) => Some(x == v)
  }

  function ProtoIs(p: Packet, proto: Word): Answer { NetByteIs(p, 9, proto) }

  function Proto4Is(p: Packet, proto: Word): Answer { Both(TypeIs(p, ETHERTYPE_IP), ProtoIs(p, proto)) }

  /** The protocol in the next-header field of an IPv6 header, or in that of a fragment header right behind it. */
  function Proto6Is(p: Packet, proto: Word): Answer {
    Both(TypeIs(p, ETHERTYPE_IPV6),
         Either(NetByteIs(p, 6, proto), Both(NetByteIs(p, 6, IPPROTO_FRAGMENT), NetByteIs(p, 40, proto))))
  }

  // TCP, UDP, ESP, AH, PIM and SCTP are looked for in IPv6 as well.
  predicate AlsoIPv6(proto: Word) { proto in {6, 17, 50, 51, 103, 132} }

  function ProtoAbbrevIs(p: Packet, proto: Word): Answer {
    if AlsoIPv6(proto) then Either(Proto6Is(p, proto), Proto4Is(p, proto)) else Proto4Is(p, proto)
  }

  function CheckIs(p: Packet, c: Check): Answer {
    match c
    case TypeCheck(ethertype) => TypeIs(p, ethertype)
    case ProtoCheck(proto) => ProtoAbbrevIs(p, proto)
    case FragCheck => FirstFragment(p)
  }

  function ChecksAre(p: Packet, cs: seq<Check>): Answer {
    if |cs| == 0 then Some(true) else Both(ChecksAre(p, cs[..|cs|-1]), CheckIs(p, cs[|cs|-1]))
  }

  function Compare(op: JmpOp, l: Expr, r: Expr, reversed: bool, p: Packet): Answer {
    match (Val(l, p), Val(r, p))
    case (Some(x), Some(y)) => Some(Test(op, x, y) != reversed)
    case _ => None
  }

  function Guarded(cs: seq<Check>, p: Packet, a: Answer): Answer { Both(ChecksAre(p, cs), a) }

  /** The bytes at off are exactly v; None when the packet is too short to tell. */
  function BytesAre(p: Packet, off: nat, v: seq<Byte>): Answer {
    if off + |v| <= |p.bytes| then Some(p.bytes[off..off + |v|] == v) else None
  }

  function FieldIs(p: Packet, off: Word, size: Size, mask: Word, jop: JmpOp, reverse: bool, v: Word): Answer {
    match Load(p, off, size)
    case None => None
    case Some(x) => Some(Test(jop, Band(x, mask), v) != (reverse && (jop.Jgt? || jop.Jge?)))
  }

  /** The offset of the transport header, counted from the start of the payload: section 3.1 of RFC 791. */
  function HeaderLength(p: Packet): Option<Word> {
    match Load(p, OFF_MACPL + OFF_NL, B) case None => None case Some(b) => Some(4 * (b % 16))
  }

  /** The 16-bit port at the given offset of the transport header equals port. */
  function PortIs(p: Packet, off: Word, port: Word): Answer {
    match HeaderLength(p)
    case None => None
    case Some(n) =>
      match Load(p, Plus(n, Plus(OFF_MACPL + OFF_NL, off)), H) case None => None case Some(x) => Some(x == port)
  }

  function FirstFragment(p: Packet): Answer {
    match Load(p, OFF_MACPL + (OFF_NL + 6), H) case None => None case Some(x) => Some(Band(x, 0x1fff) == 0)
  }

  function PortsMatch(p: Packet, port: Word, dir: Dir): Answer {
    match dir
    case SrcPort => PortIs(p, 0, port)
    case DstPort => PortIs(p, 2, port)
    case EitherPort => Either(PortIs(p, 0, port), PortIs(p, 2, port))
    case BothPorts => Both(PortIs(p, 0, port), PortIs(p, 2, port))
  }

  /** What a filter says about a packet. */
  function Meaning(f: Filter, p: Packet): Answer {
    match f
    case Bytes(off, v) => BytesAre(p, off, v)
    case Field(off, size, mask, jop, reverse, v) => FieldIs(p, off, size, mask, jop, reverse, v)
    case Port(port, proto, dir) => Both(Both(ProtoIs(p, proto), FirstFragment(p)), PortsMatch(p, port, dir))
    case Rel(op, l, r, reversed) => Guarded(Guards(l) + Guards(r), p, Compare(op, l, r, reversed, p))
    case All(x, y) => Both(Meaning(x, p), Meaning(y, p))
    case Any(x, y) => Either(Meaning(x, p), Meaning(y, p))
    case No(x) => Negate(Meaning(x, p))
  }

  /** What the parser can produce: byte strings are not empty and lie inside the 32-bit offset
      space, and relations are equality or order. */
  predicate WellFormed(f: Filter) {
    match f
    case Bytes(off, v) => 0 < |v| && off + |v| <= M
    case Rel(jop, _, _, _) => jop != Jset
    case All(x, y) => WellFormed(x) && WellFormed(y)
    case Any(x, y) => WellFormed(x) && WellFormed(y)
    case No(x) => WellFormed(x)
    case _ => true
  }

  function Max(x: nat, y: nat): nat { if x < y then y else x }

  /** The scratch registers that compiling an expression needs. */
  function Need(e: Expr): (n: nat)
    ensures n > 0
  {
    match e
    case Num(_) => 1
    case Len => 1
    case At(_, i, _) => Max(Need(i), 2)
    case Minus(x) => Need(x)
    case Bin(_, l, r) => Max(Need(l), 1 + Need(r))
  }

  /** A division occurs in the expression. */
  predicate Divides(e: Expr) {
    match e
    case Num(_) => false
    case Len => false
    case At(_, i, _) => Divides(i)
    case Minus(x) => Divides(x)
    case Bin(op, l, r) => op == Div || Divides(l) || Divides(r)
  }

  predicate DividesIn(f: Filter) {
    match f
    case Rel(_, l, r, _) => Divides(l) || Divides(r)
    case All(x, y) => DividesIn(x) || DividesIn(y)
    case Any(x, y) => DividesIn(x) || DividesIn(y)
    case No(x) => DividesIn(x)
    case _ => false
  }

  /** Every relation can be compiled with the registers there are. */
  predicate Compilable(f: Filter) {
    match f
    case Rel(_, l, r, _) => Need(l) <= BPF_MEMWORDS && 1 + Need(r) <= BPF_MEMWORDS
    case All(x, y) => Compilable(x) && Compilable(y)
    case Any(x, y) => Compilable(x) && Compilable(y)
    case No(x) => Compilable(x)
    case _ => true
  }

  /** The packet is one that a load from the layer makes sense for. */
  predicate Belongs(p: Packet, layer: Layer) {
    match layer
    case Frame => true
    case Payload(ethertype) => TypeIs(p, ethertype) == Some(true)
    case Transport(proto) =>
      TypeIs(p, ETHERTYPE_IP) == Some(true) && ProtoIs(p, proto) == Some(true) && FirstFragment(p) == Some(true)
  }

  /** The checks for a layer are among those of cs. */
  predicate Covers(cs: seq<Check>, layer: Layer) {
    match layer
    case Frame => true
    case Payload(ethertype) => TypeCheck(ethertype) in cs
    case Transport(proto) => TypeCheck(ETHERTYPE_IP) in cs && ProtoCheck(proto) in cs && FragCheck in cs
  }

  predicate OutOfRange(c: Check) {
    (c.TypeCheck? && c.ethertype >= 0x10000) || (c.ProtoCheck? && c.proto >= 0x100)
  }

  // Two different values wanted of one field.
  predicate Clash(c: Check, d: Check) {
    c != d && ((c.TypeCheck? && d.TypeCheck?) || (c.ProtoCheck? && d.ProtoCheck?))
  }

  /** No packet can pass all of cs. */
  predicate Impossible(cs: seq<Check>) {
    (exists c :: c in cs && OutOfRange(c)) || (exists c, d :: c in cs && d in cs && Clash(c, d))
  }

  // A protocol is only looked at in IPv4 packets.
  predicate Anchored(cs: seq<Check>) {
    forall c :: c in cs && c.ProtoCheck? ==> TypeCheck(ETHERTYPE_IP) in cs
  }

  lemma {:induction false} GuardsAnchored(e: Expr)
    ensures Anchored(Guards(e))
  {
    match e
    case Num(_) =>
    case Len =>
    case At(_, i, _) => GuardsAnchored(i);
    case Minus(x) => GuardsAnchored(x);
    case Bin(_, l, _) => GuardsAnchored(l);
  }

  lemma {:induction false} AllChecks(p: Packet, cs: seq<Check>)
    ensures ChecksAre(p, cs) == Some(true) <==> forall c :: c in cs ==> CheckIs(p, c) == Some(true)
  {
    hide CheckIs;
    if |cs| > 0 {
      var n := |cs| - 1;
      AllChecks(p, cs[..n]);
      assert cs == cs[..n] + [cs[n]];
    }
  }

  /** In an IPv4 packet the check for a protocol looks at the protocol byte. */
  lemma {:induction false} ProtoInIP(p: Packet, proto: Word)
    requires TypeIs(p, ETHERTYPE_IP) == Some(true)
    ensures ProtoAbbrevIs(p, proto) == ProtoIs(p, proto)
  {
    hide Load;
  }

  // A packet with the given Ethernet type, fragment field and protocol.
  function Sample(ethertype: nat, frag: Byte, proto: Byte): Packet
    requires ethertype < 0x10000
  {
    Packet(seq(12, _ => 0) + [ethertype / 0x100, ethertype % 0x100] + [0, 0, 0, 0, 0, 0, 0, frag, 0, proto], 0)
  }

  lemma {:induction false} SampleFields(ethertype: nat, frag: Byte, proto: Byte, t: Word, x: Word)
    requires ethertype < 0x10000 && frag <= 1
    ensures var p := Sample(ethertype, frag, proto);
      TypeIs(p, t) == Some(t == ethertype) && ProtoIs(p, x) == Some(x == proto) && FirstFragment(p) == Some(frag == 0)
  {
    hide Band;
    var p := Sample(ethertype, frag, proto);
    assert Load(p, OFF_LINKTYPE, H) == Some(Pack2(ethertype / 0x100, ethertype % 0x100));
    assert Load(p, OFF_MACPL + (OFF_NL + 9), B) == Some(proto);
    assert Load(p, OFF_MACPL + (OFF_NL + 6), H) == Some(Pack2(0, frag));
    FragBits(frag);
  }

  lemma {:induction false} FragBits(frag: Byte)
    requires frag <= 1
    ensures Band(frag, 0x1fff) == frag
  {
    hide AndBits;
    AndBitsLow(frag, 13, 32);
    assert Pow2(5) == 0x20 && Pow2(9) == 0x200 && Pow2(13) == 0x2000;
  }

  /** A packet that passes checks that do not contradict each other; what they leave open is chosen freely. */
  lemma {:induction false} Passing(cs: seq<Check>, type0: nat, proto0: Byte) returns (t: nat, frag: Byte, x: Byte)
    requires Anchored(cs) && !Impossible(cs) && type0 < 0x10000
    ensures t < 0x10000 && ChecksAre(Sample(t, frag, x), cs) == Some(true)
    ensures frag == if FragCheck in cs then 0 else 1
    ensures forall c :: c in cs ==> (c.TypeCheck? ==> c.ethertype == t) && (c.ProtoCheck? ==> c.proto == x)
    ensures (forall c :: c in cs ==> !c.TypeCheck?) ==> t == type0
    ensures (forall c :: c in cs ==> !c.ProtoCheck?) ==> x == proto0
  {
    hide Sample, ProtoIs, FirstFragment, TypeIs, Proto6Is, Proto4Is;
    t, frag, x := type0, if FragCheck in cs then 0 else 1, proto0;
    if exists c :: c in cs && c.TypeCheck? {
      var c :| c in cs && c.TypeCheck?;
      assert !OutOfRange(c) && forall d :: d in cs ==> !Clash(c, d);
      t := c.ethertype;
    }
    if exists c :: c in cs && c.ProtoCheck? {
      var c :| c in cs && c.ProtoCheck?;
      assert !OutOfRange(c) && forall d :: d in cs ==> !Clash(c, d);
      x := c.proto;
    }
    var p := Sample(t, frag, x);
    forall c | c in cs ensures CheckIs(p, c) == Some(true) {
      SampleFields(t, frag, x, t, x);
      if c.ProtoCheck? {
        assert TypeCheck(ETHERTYPE_IP) in cs;
        ProtoInIP(p, x);
      }
    }
    AllChecks(p, cs);
  }

  lemma {:induction false} FieldsInRange(p: Packet, t: Word, x: Word)
    ensures TypeIs(p, t) == Some(true) ==> t < 0x10000
    ensures ProtoIs(p, x) == Some(true) ==> x < 0x100
  {
  }

  lemma {:induction false} ImpossibleFails(cs: seq<Check>, p: Packet)
    requires Anchored(cs) && Impossible(cs)
    ensures ChecksAre(p, cs) != Some(true)
  {
    hide TypeIs, ProtoIs, FirstFragment;
    AllChecks(p, cs);
    if ChecksAre(p, cs) == Some(true) {
      forall c | c in cs ensures !OutOfRange(c) {
        assert CheckIs(p, c) == Some(true);
        if c.TypeCheck? { FieldsInRange(p, c.ethertype, 0); }
        if c.ProtoCheck? {
          assert CheckIs(p, TypeCheck(ETHERTYPE_IP)) == Some(true);
          ProtoInIP(p, c.proto);
          FieldsInRange(p, 0, c.proto);
        }
      }
      forall c, d | c in cs && d in cs ensures !Clash(c, d) {
        assert CheckIs(p, c) == Some(true) && CheckIs(p, d) == Some(true);
        if c.TypeCheck? && d.TypeCheck? { OneField(p, c.ethertype, d.ethertype); }
        if c.ProtoCheck? && d.ProtoCheck? {
          assert CheckIs(p, TypeCheck(ETHERTYPE_IP)) == Some(true);
          ProtoInIP(p, c.proto);
          ProtoInIP(p, d.proto);
          OneField(p, c.proto, d.proto);
        }
      }
      assert false;
    }
  }

  lemma {:induction false} OneField(p: Packet, v: Word, w: Word)
    ensures TypeIs(p, v) == Some(true) && TypeIs(p, w) == Some(true) ==> v == w
    ensures ProtoIs(p, v) == Some(true) && ProtoIs(p, w) == Some(true) ==> v == w
  {
  }

  /** Checks are enough for a layer exactly when they ask for it, or no packet passes them at all. */
  lemma {:induction false} ChecksExact(cs: seq<Check>, layer: Layer)
    requires Anchored(cs)
    ensures (forall p: Packet :: ChecksAre(p, cs) == Some(true) ==> Belongs(p, layer)) <==> Covers(cs, layer) || Impossible(cs)
  {
    hide ChecksAre, TypeIs, ProtoIs, FirstFragment, Impossible, Sample, ProtoAbbrevIs;
    if Impossible(cs) {
      forall p: Packet ensures ChecksAre(p, cs) != Some(true) {
        ImpossibleFails(cs, p);
      }
    } else if Covers(cs, layer) {
      forall p: Packet | ChecksAre(p, cs) == Some(true) ensures Belongs(p, layer) {
        AllChecks(p, cs);
        match layer
        case Frame =>
        case Payload(ethertype) => assert CheckIs(p, TypeCheck(ethertype)) == Some(true);
        case Transport(proto) =>
          assert CheckIs(p, TypeCheck(ETHERTYPE_IP)) == Some(true) && CheckIs(p, ProtoCheck(proto)) == Some(true);
          assert CheckIs(p, FragCheck) == Some(true);
          ProtoInIP(p, proto);
      }
    } else {
      var t, frag, x;
      match layer {
        case Payload(ethertype) =>
          t, frag, x := Passing(cs, if ethertype == 0 then 1 else 0, 0);
          SampleFields(t, frag, x, ethertype, 0);
        case Transport(proto) =>
          t, frag, x := Passing(cs, 0, if proto == 0 then 1 else 0);
          SampleFields(t, frag, x, ETHERTYPE_IP, proto);
      }
      assert ChecksAre(Sample(t, frag, x), cs) == Some(true) && !Belongs(Sample(t, frag, x), layer);
    }
  }

  /** The checks made for a relation are enough for every load in it. */
  ghost predicate ChecksSuffice(l: Expr, r: Expr) {
    forall p: Packet, layer :: ChecksAre(p, Guards(l) + Guards(r)) == Some(true) && layer in Layers(l) + Layers(r) ==> Belongs(p, layer)
  }

  predicate ChecksCover(l: Expr, r: Expr) {
    Impossible(Guards(l) + Guards(r)) || forall layer :: layer in Layers(l) + Layers(r) ==> Covers(Guards(l) + Guards(r), layer)
  }

  /** They are exactly when they ask for the layer of every load, or contradict each other. */
  lemma {:induction false} RelationChecks(l: Expr, r: Expr)
    ensures ChecksSuffice(l, r) <==> ChecksCover(l, r)
  {
    hide ChecksAre, Belongs, Covers, Impossible, Guards, Layers;
    var cs := Guards(l) + Guards(r);
    GuardsAnchored(l);
    GuardsAnchored(r);
    forall layer | layer in Layers(l) + Layers(r)
      ensures (forall p: Packet :: ChecksAre(p, cs) == Some(true) ==> Belongs(p, layer)) <==> Covers(cs, layer) || Impossible(cs)
    {
      ChecksExact(cs, layer);
    }
    if Impossible(cs) {
      forall p: Packet ensures ChecksAre(p, cs) != Some(true) {
        ImpossibleFails(cs, p);
      }
    }
  }

  /** Then a relation only accepts packets its loads make sense for. */
  lemma {:induction false} ChecksHold(op: JmpOp, l: Expr, r: Expr, reversed: bool, p: Packet, layer: Layer)
    requires ChecksCover(l, r)
    requires Meaning(Rel(op, l, r, reversed), p) == Some(true) && layer in Layers(l) + Layers(r)
    ensures Belongs(p, layer)
  {
    hide Belongs, ChecksAre, Guards, Layers, ChecksCover;
    RelationChecks(l, r);
    assert ChecksAre(p, Guards(l) + Guards(r)) == Some(true);
  }

  /** Without that condition it fails: a load in the right operand of a sum is not checked, so here a
      frame that is not IPv4 is accepted by a test of a byte of its IPv4 header. */
  lemma {:induction false} RightOperandUnchecked(p: Packet)
    requires |p.bytes| > 14 && p.bytes[12] == p.bytes[13] == 0 && p.bytes[14] == 0x45
    ensures var ip0 := At(Payload(ETHERTYPE_IP), Num(0), B);
      && Meaning(Rel(Jeq, Bin(Add, Num(0), ip0), Num(0x45), false), p) == Some(true)
      && Payload(ETHERTYPE_IP) in Layers(Bin(Add, Num(0), ip0)) && !Belongs(p, Payload(ETHERTYPE_IP))
      && Meaning(Rel(Jeq, Bin(Add, ip0, Num(0)), Num(0x45), false), p) == Some(false)
  {
    var ip0 := At(Payload(ETHERTYPE_IP), Num(0), B);
    assert Val(ip0, p) == Some(0x45);
    assert Val(Bin(Add, Num(0), ip0), p) == Some(0x45);
    assert Guards(Bin(Add, ip0, Num(0))) + Guards(Num(0x45)) == [TypeCheck(ETHERTYPE_IP)];
    assert Guards(Bin(Add, Num(0), ip0)) + Guards(Num(0x45)) == [];
    assert TypeIs(p, ETHERTYPE_IP) == Some(false);
    assert [TypeCheck(ETHERTYPE_IP)][..0] == [];
    assert ChecksAre(p, [TypeCheck(ETHERTYPE_IP)]) == Some(false);
  }
}
