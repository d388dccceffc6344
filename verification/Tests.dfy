/** Generating the tests: fields, byte strings, ports and relations. */
module Tests {
  import opened Words
  import opened Bpf
  import opened Blocks
  import opened Trees
  import opened Meanings
  import opened Filters
  import opened Backpatch
  import opened Regs
  import opened Arith
  import Liveness

  /** One block whose statements and branch answer a question about the packet. */
  predicate Answers(n: Node, st: State, p: Packet, a: Answer) {
    match a
    case None => Land(n, st, p) == Done(Fault)
    case Some(h) => Land(n, st, p).Next? && Land(n, st, p).side == h
  }

  lemma {:induction false} LeafMeans(g: Graph, b: Id, p: Packet, a: Answer)
    requires b < |g| && forall st: State :: Answers(g[b], st, p, a)
    ensures Means(g, Leaf(b), p, a)
  {
    forall st: State ensures Matches(Eval(g, Leaf(b), st, p), a) {
      assert Answers(g[b], st, p, a);
    }
  }

  function FieldStmts(off: Word, size: Size, mask: Word): seq<Stmt> {
    [LdAbs(size, off)] + (if mask != ONES then [Alu(AluOp.And, K(mask))] else [])
  }

  function AfterMask(x: Word, mask: Word): Word { if mask != ONES then Band(x, mask) else x }

  lemma {:induction false} FieldExec(off: Word, size: Size, mask: Word, st: State, p: Packet)
    ensures Exec(FieldStmts(off, size, mask), st, p)
         == match Load(p, off, size) case None => None case Some(x) => Some(st[A_ATOM := AfterMask(x, mask)])
  {
    hide Load, Band;
    var m := if mask != ONES then [Alu(AluOp.And, K(mask))] else [];
    ExecCons(LdAbs(size, off), m, st, p);
    match Load(p, off, size) {
      case None =>
      case Some(x) =>
        if mask != ONES {
          ExecCons(Alu(AluOp.And, K(mask)), [], st[A_ATOM := x], p);
          assert m == [Alu(AluOp.And, K(mask))] + [];
          assert st[A_ATOM := x][A_ATOM := Band(x, mask)] == st[A_ATOM := Band(x, mask)];
        }
    }
  }

  /** A new block holding one test. */
  method NewTest(gen: Generator, stmts: seq<Stmt>, jop: JmpOp, src: Src) returns (b: Id)
    requires gen.Valid() && Liveness.SelfContained(Node(stmts, Jmp(jop, src), NIL, NIL)) && Tame(stmts, gen.divides)
    modifies gen
    ensures Grows(old(gen.Now()), gen.Now(), b, Leaf(b))
    ensures b < |gen.node| && gen.node[b] == Node(stmts, Jmp(jop, src), NIL, NIL)
  {
    b := gen.NewBlock(stmts, Jmp(jop, src));
  }

  /** A field test reads only the A it loads. */
  lemma {:induction false} OwnField(off: Word, size: Size, mask: Word, jop: JmpOp, w: Word)
    ensures Liveness.SelfContained(Node(FieldStmts(off, size, mask), Jmp(jop, K(w)), NIL, NIL))
  {
    var ss := FieldStmts(off, size, mask);
    if mask != ONES {
      LiveTwo(LdAbs(size, off), Alu(AluOp.And, K(mask)), {A_ATOM});
      assert ss == [LdAbs(size, off), Alu(AluOp.And, K(mask))];
    } else {
      assert ss[1..] == [];
      assert Liveness.LiveIn([], RetK(0), {A_ATOM}) == {A_ATOM};
    }
  }

  method Negated(gen: Generator, b: Id, ghost t: Tree, ghost o: Table)
    requires Grows(o, gen.Now(), b, t)
    modifies gen
    ensures Grows(o, gen.Now(), b, Tree.Not(t)) && gen.node == old(gen.node)
  {
    ghost var s := gen.sense;
    gen.GenNot(b, t);
    assert forall i :: 0 <= i < |o.sense| ==> i !in Leaves(t) && gen.sense[i] == s[i] == o.sense[i];
  }

  /** AND the field with mask and compare it with w; reverse asks for the opposite of an inequality. */
  method GenNcmp(gen: Generator, off: Word, size: Size, mask: Word, jop: JmpOp, reverse: bool, w: Word)
    returns (b: Id, ghost t: Tree)
    requires gen.Valid()
    modifies gen
    ensures Grows(old(gen.Now()), gen.Now(), b, t)
    ensures forall p: Packet :: Means(gen.node, t, p, FieldIs(p, off, size, mask, jop, reverse, w))
  {
    ghost var o := gen.Now();
    OwnField(off, size, mask, jop, w);
    b := NewTest(gen, FieldStmts(off, size, mask), jop, K(w));
    t := Leaf(b);
    forall p: Packet ensures Means(gen.node, t, p, FieldIs(p, off, size, mask, jop, false, w)) {
      FieldMeans(gen.node, b, off, size, mask, jop, w, p);
    }
    assert !(reverse && (jop.Jgt? || jop.Jge?)) ==> forall p: Packet ::
      FieldIs(p, off, size, mask, jop, reverse, w) == FieldIs(p, off, size, mask, jop, false, w);
    if reverse && (jop.Jgt? || jop.Jge?) {
      Negated(gen, b, t, o);
      t := Tree.Not(t);
      forall p: Packet ensures Means(gen.node, t, p, FieldIs(p, off, size, mask, jop, reverse, w)) {
        MeansNot(gen.node, Leaf(b), p, FieldIs(p, off, size, mask, jop, false, w));
      }
    }
  }

  lemma {:induction false} FieldMeans(g: Graph, b: Id, off: Word, size: Size, mask: Word, jop: JmpOp, w: Word, p: Packet)
    requires b < |g| && g[b].stmts == FieldStmts(off, size, mask) && g[b].s == Jmp(jop, K(w))
    ensures Means(g, Leaf(b), p, FieldIs(p, off, size, mask, jop, false, w))
  {
    hide Load, Band, Test, Exec;
    forall st: State ensures Answers(g[b], st, p, FieldIs(p, off, size, mask, jop, false, w)) {
      FieldExec(off, size, mask, st, p);
      if Load(p, off, size).Some? { BandOnes(Load(p, off, size).value); }
    }
    LeafMeans(g, b, p, FieldIs(p, off, size, mask, jop, false, w));
  }

  method GenCmp(gen: Generator, off: Word, size: Size, w: Word) returns (b: Id, ghost t: Tree)
    requires gen.Valid()
    modifies gen
    ensures Grows(old(gen.Now()), gen.Now(), b, t)
    ensures forall p: Packet :: Means(gen.node, t, p, FieldIs(p, off, size, ONES, Jeq, false, w))
  {
    b, t := GenNcmp(gen, off, size, ONES, Jeq, false, w);
  }

  /** Conjoin two trees generated one after the other. */
  method Conjoin(gen: Generator, b0: Id, b1: Id, ghost l: Tree, ghost r: Tree, ghost o: Table, ghost m: Table)
    requires Grows(o, m, b0, l) && Grows(m, gen.Now(), b1, r)
    modifies gen
    ensures Grows(o, gen.Now(), b1, Tree.And(l, r))
    ensures forall p: Packet, a, c :: Means(m.node, l, p, a) && Means(old(gen.node), r, p, c) ==>
      Means(gen.node, Tree.And(l, r), p, Both(a, c))
  {
    hide Fresh, Newest, Holds, Means;
    ghost var n := gen.Now();
    GrowsPair(o, m, n, b0, b1, l, r);
    gen.Conjoin(b0, b1, l, r, |o.node|, |m.node|);
    GrowsJoin(o, m, n, gen.Now(), b0, b1, l, r, Tree.And(l, r));
    forall p: Packet, a, c | Means(m.node, l, p, a) && Means(n.node, r, p, c)
      ensures Means(gen.node, Tree.And(l, r), p, Both(a, c))
    {
      MeansKept(m.node, gen.node, l, p, a);
      MeansKept(n.node, gen.node, r, p, c);
      MeansAnd(gen.node, l, r, p, a, c);
    }
  }

  /** Disjoin two trees generated one after the other. */
  method Disjoin(gen: Generator, b0: Id, b1: Id, ghost l: Tree, ghost r: Tree, ghost o: Table, ghost m: Table)
    requires Grows(o, m, b0, l) && Grows(m, gen.Now(), b1, r)
    modifies gen
    ensures Grows(o, gen.Now(), b1, Tree.Or(l, r))
    ensures forall p: Packet, a, c :: Means(m.node, l, p, a) && Means(old(gen.node), r, p, c) ==>
      Means(gen.node, Tree.Or(l, r), p, Either(a, c))
  {
    hide Fresh, Newest, Holds, Means;
    ghost var n := gen.Now();
    GrowsPair(o, m, n, b0, b1, l, r);
    gen.Disjoin(b0, b1, l, r, |o.node|, |m.node|);
    GrowsJoin(o, m, n, gen.Now(), b0, b1, l, r, Tree.Or(l, r));
    forall p: Packet, a, c | Means(m.node, l, p, a) && Means(n.node, r, p, c)
      ensures Means(gen.node, Tree.Or(l, r), p, Either(a, c))
    {
      MeansKept(m.node, gen.node, l, p, a);
      MeansKept(n.node, gen.node, r, p, c);
      MeansOr(gen.node, l, r, p, a, c);
    }
  }

  // The big-endian value of one, two or four bytes, as the generator packs it.
  function Pack(v: seq<Byte>): Word
    requires |v| == 1 || |v| == 2 || |v| == 4
  {
    if |v| == 4 then Pack4(v[0], v[1], v[2], v[3]) else if |v| == 2 then Pack2(v[0], v[1]) else v[0]
  }

  function Sized(n: nat): Size
    requires n == 1 || n == 2 || n == 4
  {
    if n == 4 then W else if n == 2 then H else B
  }

  /** A load of the packed size compares the bytes themselves. */
  lemma {:induction false} PackedField(p: Packet, off: nat, v: seq<Byte>)
    requires (|v| == 1 || |v| == 2 || |v| == 4) && off < M
    ensures FieldIs(p, off, Sized(|v|), ONES, Jeq, false, Pack(v)) == BytesAre(p, off, v)
  {
    hide Pack4, Pack2, Band, LoadAt;
    PackedLoad(p, off, |v|);
    if off + |v| <= |p.bytes| {
      var u := p.bytes[off..off + |v|];
      BandOnes(Pack(u));
      PackExact(u, v);
    }
  }

  lemma {:induction false} PackedLoad(p: Packet, off: nat, n: nat)
    requires n == 1 || n == 2 || n == 4
    ensures LoadAt(p, off, Sized(n)) == if off + n <= |p.bytes| then Some(Pack(p.bytes[off..off + n])) else None
  {
    hide Pack4, Pack2;
  }

  lemma {:induction false} PackExact(u: seq<Byte>, v: seq<Byte>)
    requires |u| == |v| && (|v| == 1 || |v| == 2 || |v| == 4)
    ensures Pack(u) == Pack(v) <==> u == v
  {
    hide Pack4, Pack2;
    if |v| == 4 {
      PackInjective(u[0], u[1], u[2], u[3], v[0], v[1], v[2], v[3]);
      assert u == [u[0], u[1], u[2], u[3]] && v == [v[0], v[1], v[2], v[3]];
    } else if |v| == 2 {
      PackInjective(u[0], u[1], 0, 0, v[0], v[1], 0, 0);
      assert u == [u[0], u[1]] && v == [v[0], v[1]];
    } else {
      assert u == [u[0]] && v == [v[0]];
    }
  }

  /** Comparing the tail first and then the bytes before it compares them all. */
  lemma {:induction false} BytesJoin(p: Packet, off: nat, u: seq<Byte>, v: seq<Byte>)
    requires |v| > 0
    ensures Both(BytesAre(p, off + |u|, v), BytesAre(p, off, u)) == BytesAre(p, off, u + v)
  {
    if off + |u| + |v| <= |p.bytes| {
      var x, y := p.bytes[off..off + |u|], p.bytes[off + |u|..off + |u| + |v|];
      assert p.bytes[off..off + |u + v|] == x + y;
      assert (x + y)[..|u|] == x && (x + y)[|u|..] == y && (u + v)[..|u|] == u && (u + v)[|u|..] == v;
    }
  }

  ghost predicate MeansBytes(g: Graph, t: Tree, off: nat, v: seq<Byte>) {
    forall p: Packet :: Means(g, t, p, BytesAre(p, off, v))
  }

  /** Compare the n bytes before the tail of v already compared, then conjoin. */
  method GenChunk(gen: Generator, off: Word, v: seq<Byte>, size: nat, n: nat, b: Ref, ghost t: Tree, ghost o: Table)
    returns (b': Id, ghost t': Tree)
    requires gen.Valid() && (n == 1 || n == 2 || n == 4) && n <= size <= |v| && off + |v| <= M
    requires if size == |v| then gen.Now() == o && b == NIL else b != NIL && Grows(o, gen.Now(), b, t)
    requires size < |v| ==> MeansBytes(gen.node, t, off + size, v[size..])
    modifies gen
    ensures Grows(o, gen.Now(), b', t')
    ensures MeansBytes(gen.node, t', off + (size - n), v[size - n..])
  {
    hide Means, Fresh, Holds, Meanings.Both, FieldIs;
    ghost var m := gen.Now();
    var u := v[size - n..size];
    var at: nat := off + (size - n);
    b', t' := GenCmp(gen, at, Sized(n), Pack(u));
    forall p: Packet ensures Means(gen.node, t', p, BytesAre(p, at, u)) {
      PackedField(p, at, u);
    }
    if b == NIL {
      assert u == v[size - n..];
      assert MeansBytes(gen.node, t', at, u);
    } else {
      assert v[size - n..] == u + v[size..];
      ghost var r := t';
      Conjoin(gen, b, b', t, r, o, m);
      t' := Tree.And(t, r);
      var w := v[size - n..];
      forall p: Packet ensures Means(gen.node, t', p, BytesAre(p, at, w)) {
        BytesJoin(p, at, u, v[size..]);
      }
    }
  }

  /** Accept exactly the packets holding the bytes v at off: words from the tail, then a half word, then a byte. */
  method GenBcmp(gen: Generator, off: Word, v: seq<Byte>) returns (b: Id, ghost t: Tree)
    requires gen.Valid() && 0 < |v| && off + |v| <= M
    modifies gen
    ensures Grows(old(gen.Now()), gen.Now(), b, t)
    ensures MeansBytes(gen.node, t, off, v)
  {
    hide Means, Fresh, Holds, BytesAre, Grows, MeansBytes;
    ghost var o := gen.Now();
    var list: Ref := NIL;
    var size: nat := |v|;
    t := Leaf(0);
    while size >= 4
      invariant gen.Valid() && size <= |v|
      invariant if size == |v| then gen.Now() == o && list == NIL else list != NIL && Grows(o, gen.Now(), list, t)
      invariant size < |v| ==> MeansBytes(gen.node, t, off + size, v[size..])
    {
      list, t := GenChunk(gen, off, v, size, 4, list, t, o);
      size := size - 4;
      GrowsValid(o, gen.Now(), list, t);
    }
    while size >= 2
      invariant gen.Valid() && size <= |v|
      invariant if size == |v| then gen.Now() == o && list == NIL else list != NIL && Grows(o, gen.Now(), list, t)
      invariant size < |v| ==> MeansBytes(gen.node, t, off + size, v[size..])
    {
      list, t := GenChunk(gen, off, v, size, 2, list, t, o);
      size := size - 2;
      GrowsValid(o, gen.Now(), list, t);
    }
    if size > 0 {
      list, t := GenChunk(gen, off, v, size, 1, list, t, o);
      size := 0;
    }
    assert v[0..] == v && off + 0 == off;
    b := list;
  }

  lemma {:induction false} GrowsValid(o: Table, n: Table, b: Id, t: Tree)
    requires Grows(o, n, b, t)
    ensures |n.node| == |n.sense| == |n.head|
  {
  }

  lemma {:induction false} PortExec(off: Word, st: State, p: Packet)
    ensures Exec(PortStmts(off), st, p)
         == match HeaderLength(p)
            case None => None
            case Some(n) =>
              match Load(p, Plus(n, Plus(OFF_MACPL + OFF_NL, off)), H)
              case None => None
              case Some(x) => Some(st[X_ATOM := n][A_ATOM := x])
  {
    hide Load, Plus, Shl, Band;
    var msh, ld := LdxMsh(OFF_MACPL + OFF_NL), LdInd(H, Plus(OFF_MACPL + OFF_NL, off));
    assert PortStmts(off) == [msh] + ([ld] + []);
    ExecCons(msh, [ld] + [], st, p);
    match Load(p, OFF_MACPL + OFF_NL, B) {
      case None =>
      case Some(b) =>
        NibbleTimesFour(b);
        ExecCons(ld, [], st[X_ATOM := 4 * (b % 16)], p);
    }
  }

  // Load X with the length of the IPv4 header, then A relative to it.
  function PortStmts(off: Word): seq<Stmt> {
    [LdxMsh(OFF_MACPL + OFF_NL), LdInd(H, Plus(OFF_MACPL + OFF_NL, off))]
  }

  lemma {:induction false} OwnPort(off: Word, port: Word)
    ensures Liveness.SelfContained(Node(PortStmts(off), Jmp(Jeq, K(port)), NIL, NIL))
  {
    LiveTwo(PortStmts(off)[0], PortStmts(off)[1], {A_ATOM});
    assert PortStmts(off) == [PortStmts(off)[0], PortStmts(off)[1]];
  }

  /** Compare the port at off in the transport header. */
  method GenPortAtom(gen: Generator, off: Word, port: Word) returns (b: Id, ghost t: Tree)
    requires gen.Valid()
    modifies gen
    ensures Grows(old(gen.Now()), gen.Now(), b, t)
    ensures forall p: Packet :: Means(gen.node, t, p, PortIs(p, off, port))
  {
    OwnPort(off, port);
    b := NewTest(gen, PortStmts(off), Jeq, K(port));
    t := Leaf(b);
    forall p: Packet ensures Means(gen.node, t, p, PortIs(p, off, port)) {
      hide Load, Exec, Plus;
      forall st: State ensures Answers(gen.node[b], st, p, PortIs(p, off, port)) {
        PortExec(off, st, p);
      }
      LeafMeans(gen.node, b, p, PortIs(p, off, port));
    }
  }

  /** Not a fragment other than the first. */
  method GenIpFrag(gen: Generator) returns (b: Id, ghost t: Tree)
    requires gen.Valid()
    modifies gen
    ensures Grows(old(gen.Now()), gen.Now(), b, t)
    ensures forall p: Packet :: Means(gen.node, t, p, FirstFragment(p))
  {
    ghost var o := gen.Now();
    var off := OFF_MACPL + (OFF_NL + 6);
    OwnField(off, H, ONES, Jset, 0x1fff);
    b := NewTest(gen, FieldStmts(off, H, ONES), Jset, K(0x1fff));
    t := Tree.Not(Leaf(b));
    Negated(gen, b, Leaf(b), o);
    forall p: Packet ensures Means(gen.node, t, p, FirstFragment(p)) {
      hide Load, Band;
      FieldMeans(gen.node, b, off, H, ONES, Jset, 0x1fff, p);
      MeansNot(gen.node, Leaf(b), p, FieldIs(p, off, H, ONES, Jset, false, 0x1fff));
      if Load(p, off, H).Some? { BandOnes(Load(p, off, H).value); }
    }
  }

  /** The protocol byte matches, this is the first fragment, and the selected ports match. */
  method GenPortOp(gen: Generator, port: Word, proto: Word, dir: Dir) returns (b: Id, ghost t: Tree)
    requires gen.Valid()
    modifies gen
    ensures Grows(old(gen.Now()), gen.Now(), b, t)
    ensures forall p: Packet :: Means(gen.node, t, p, Meaning(Port(port, proto, dir), p))
  {
    hide Means, Fresh, Grows, Holds, NetByteIs, PortIs, FirstFragment;
    ghost var o := gen.Now();
    var tmp, l := GenNetByte(gen, 9, proto);
    ghost var m := gen.Now();
    GrowsValid(o, m, tmp, l);
    var b0, r := GenIpFrag(gen);
    Conjoin(gen, tmp, b0, l, r, o, m);
    ghost var first := Tree.And(l, r);
    ghost var k := gen.Now();
    GrowsValid(o, k, b0, first);
    var b1, ports := GenPorts(gen, port, dir);
    Conjoin(gen, b0, b1, first, ports, o, k);
    b, t := b1, Tree.And(first, ports);
  }

  lemma {:induction false} UnmaskedField(p: Packet, off: Word, size: Size, w: Word)
    ensures FieldIs(p, off, size, ONES, Jeq, false, w)
         == match Load(p, off, size) case None => None case Some(x) => Some(x == w)
  {
    hide Load, Band;
    if Load(p, off, size).Some? { BandOnes(Load(p, off, size).value); }
  }

  /** Compare a byte of the network header. */
  method GenNetByte(gen: Generator, off: Word, v: Word) returns (b: Id, ghost t: Tree)
    requires gen.Valid() && OFF_NL + off < M - OFF_MACPL
    modifies gen
    ensures Grows(old(gen.Now()), gen.Now(), b, t)
    ensures forall p: Packet :: Means(gen.node, t, p, NetByteIs(p, off, v))
  {
    b, t := GenCmp(gen, OFF_MACPL + (OFF_NL + off), B, v);
    forall p: Packet ensures Means(gen.node, t, p, NetByteIs(p, off, v)) {
      hide Means, Load;
      UnmaskedField(p, OFF_MACPL + (OFF_NL + off), B, v);
      assert FieldIs(p, OFF_MACPL + (OFF_NL + off), B, ONES, Jeq, false, v) == NetByteIs(p, off, v);
    }
  }

  /** The protocol byte of an IPv4 header. */
  method GenProto4(gen: Generator, proto: Word) returns (b: Id, ghost t: Tree)
    requires gen.Valid()
    modifies gen
    ensures Grows(old(gen.Now()), gen.Now(), b, t)
    ensures forall p: Packet :: Means(gen.node, t, p, Proto4Is(p, proto))
  {
    hide Means, Fresh, Grows, Holds, TypeIs, NetByteIs;
    ghost var o := gen.Now();
    var b0, l := GenTypeCheck(gen, ETHERTYPE_IP);
    ghost var m := gen.Now();
    GrowsValid(o, m, b0, l);
    var b1, r := GenNetByte(gen, 9, proto);
    Conjoin(gen, b0, b1, l, r, o, m);
    b, t := b1, Tree.And(l, r);
  }

  /** The next header of an IPv6 header, or of a fragment header behind it. */
  method GenProto6(gen: Generator, proto: Word) returns (b: Id, ghost t: Tree)
    requires gen.Valid()
    modifies gen
    ensures Grows(old(gen.Now()), gen.Now(), b, t)
    ensures forall p: Packet :: Means(gen.node, t, p, Proto6Is(p, proto))
  {
    hide Means, Fresh, Grows, Holds, TypeIs, NetByteIs;
    ghost var o := gen.Now();
    var b0, x := GenTypeCheck(gen, ETHERTYPE_IPV6);
    ghost var m := gen.Now();
    GrowsValid(o, m, b0, x);
    var b1, y := GenNext6(gen, proto);
    Conjoin(gen, b0, b1, x, y, o, m);
    b, t := b1, Tree.And(x, y);
  }

  method GenNext6(gen: Generator, proto: Word) returns (b: Id, ghost t: Tree)
    requires gen.Valid()
    modifies gen
    ensures Grows(old(gen.Now()), gen.Now(), b, t)
    ensures forall p: Packet ::
      Means(gen.node, t, p, Either(NetByteIs(p, 6, proto), Both(NetByteIs(p, 6, IPPROTO_FRAGMENT), NetByteIs(p, 40, proto))))
  {
    hide Means, Fresh, Grows, Holds, NetByteIs;
    ghost var o := gen.Now();
    var b0, x := GenNetByte(gen, 6, proto);
    ghost var m := gen.Now();
    GrowsValid(o, m, b0, x);
    var b1, y := GenNetByte(gen, 6, IPPROTO_FRAGMENT);
    ghost var k := gen.Now();
    GrowsValid(m, k, b1, y);
    var b2, z := GenNetByte(gen, 40, proto);
    Conjoin(gen, b1, b2, y, z, m, k);
    Disjoin(gen, b0, b2, x, Tree.And(y, z), o, m);
    b, t := b2, Tree.Or(x, Tree.And(y, z));
  }

  /** The test for a protocol: in IPv6 packets too, for those looked for there. */
  method GenProtoAbbrev(gen: Generator, proto: Word) returns (b: Id, ghost t: Tree)
    requires gen.Valid()
    modifies gen
    ensures Grows(old(gen.Now()), gen.Now(), b, t)
    ensures forall p: Packet :: Means(gen.node, t, p, ProtoAbbrevIs(p, proto))
  {
    hide Means, Fresh, Grows, Holds, Proto4Is, Proto6Is;
    if !AlsoIPv6(proto) {
      b, t := GenProto4(gen, proto);
    } else {
      ghost var o := gen.Now();
      var b0, l := GenProto6(gen, proto);
      ghost var m := gen.Now();
      GrowsValid(o, m, b0, l);
      var b1, r := GenProto4(gen, proto);
      Disjoin(gen, b0, b1, l, r, o, m);
      b, t := b1, Tree.Or(l, r);
    }
  }

  method GenCheck(gen: Generator, c: Check) returns (b: Id, ghost t: Tree)
    requires gen.Valid()
    modifies gen
    ensures Grows(old(gen.Now()), gen.Now(), b, t)
    ensures forall p: Packet :: Means(gen.node, t, p, CheckIs(p, c))
  {
    hide Means, Fresh, Grows, Holds, TypeIs, ProtoAbbrevIs, FirstFragment;
    match c
    case TypeCheck(ethertype) => b, t := GenTypeCheck(gen, ethertype);
    case ProtoCheck(proto) => b, t := GenProtoAbbrev(gen, proto);
    case FragCheck => b, t := GenIpFrag(gen);
  }

  method GenPorts(gen: Generator, port: Word, dir: Dir) returns (b: Id, ghost t: Tree)
    requires gen.Valid()
    modifies gen
    ensures Grows(old(gen.Now()), gen.Now(), b, t)
    ensures forall p: Packet :: Means(gen.node, t, p, PortsMatch(p, port, dir))
  {
    hide Means, Fresh, Grows, Holds, PortIs;
    ghost var o := gen.Now();
    match dir
    case SrcPort => b, t := GenPortAtom(gen, 0, port);
    case DstPort => b, t := GenPortAtom(gen, 2, port);
    case EitherPort =>
      var tmp, l := GenPortAtom(gen, 0, port);
      ghost var m := gen.Now();
      GrowsValid(o, m, tmp, l);
      var b1, r := GenPortAtom(gen, 2, port);
      Disjoin(gen, tmp, b1, l, r, o, m);
      b, t := b1, Tree.Or(l, r);
    case BothPorts =>
      var tmp, l := GenPortAtom(gen, 0, port);
      ghost var m := gen.Now();
      GrowsValid(o, m, tmp, l);
      var b1, r := GenPortAtom(gen, 2, port);
      Conjoin(gen, tmp, b1, l, r, o, m);
      b, t := b1, Tree.And(l, r);
  }

  // The test at the end of a relation: equality is tested on the difference.
  function RelStmts(a0: Arth, a1: Arth, jop: JmpOp): seq<Stmt> {
    a0.s + a1.s + ([LdxMem(a1.regno), LdMem(a0.regno)] + (if jop == Jeq then [Alu(AluOp.Sub, X)] else []))
  }

  function RelSrc(jop: JmpOp): Src { if jop == Jeq then K(0) else X }

  lemma {:induction false} RelTail(r0: Reg, r1: Reg, jop: JmpOp, st: State, p: Packet)
    ensures var e := Exec([LdxMem(r1), LdMem(r0)] + (if jop == Jeq then [Alu(AluOp.Sub, X)] else []), st, p);
      e == Some(st[X_ATOM := st[r1]][A_ATOM := if jop == Jeq then Diff(st[r0], st[r1]) else st[r0]])
  {
    hide Diff;
    var rest := if jop == Jeq then [Alu(AluOp.Sub, X)] else [];
    assert [LdxMem(r1), LdMem(r0)] + rest == [LdxMem(r1)] + ([LdMem(r0)] + rest);
    ExecCons(LdxMem(r1), [LdMem(r0)] + rest, st, p);
    var s1: State := st[X_ATOM := st[r1]];
    var s2: State := s1[A_ATOM := st[r0]];
    ExecCons(LdMem(r0), rest, s1, p);
    if jop == Jeq {
      assert rest == [Alu(AluOp.Sub, X)] + [];
      ExecCons(Alu(AluOp.Sub, X), [], s2, p);
      assert s2[A_ATOM := Diff(st[r0], st[r1])] == s1[A_ATOM := Diff(st[r0], st[r1])];
    }
  }

  /** A relation's block reads only the registers its operands set. */
  lemma {:induction false} OwnRel(a0: Arth, a1: Arth, l: Expr, r: Expr, jop: JmpOp, keep: set<nat>)
    requires Computes(a0, l, keep) && Computes(a1, r, keep + {a0.regno})
    ensures Liveness.SelfContained(Node(RelStmts(a0, a1, jop), Jmp(jop, RelSrc(jop)), NIL, NIL))
  {
    hide Yields, Tame;
    var loads := [LdxMem(a1.regno), LdMem(a0.regno)];
    var rest := if jop == Jeq then [Alu(AluOp.Sub, X)] else [];
    var out := Liveness.BranchUses(Jmp(jop, RelSrc(jop)));
    Liveness.LiveInConcat(loads, rest, RetK(0), out);
    LiveTwo(LdxMem(a1.regno), LdMem(a0.regno), Liveness.LiveIn(rest, RetK(0), out));
    if jop == Jeq { assert rest[1..] == []; }
    OwnsPair(a0.s, a0.regno, a1.s, a1.regno, loads + rest, out);
  }

  lemma {:induction false} TameRel(a0: Arth, a1: Arth, l: Expr, r: Expr, jop: JmpOp, divides: bool)
    requires Computes(a0, l, {}) && Computes(a1, r, {} + {a0.regno}) && (Divides(l) || Divides(r) ==> divides)
    ensures Tame(RelStmts(a0, a1, jop), divides)
  {
    hide Yields, Owns;
    var tail := [LdxMem(a1.regno), LdMem(a0.regno)] + (if jop == Jeq then [Alu(AluOp.Sub, X)] else []);
    TameConcat(a0.s, a1.s, divides);
    TameConcat(a0.s + a1.s, tail, divides);
  }

  lemma {:induction false} RelMeans(g: Graph, b: Id, a0: Arth, a1: Arth, l: Expr, r: Expr, jop: JmpOp, keep: set<nat>, p: Packet)
    requires b < |g| && g[b].stmts == RelStmts(a0, a1, jop) && g[b].s == Jmp(jop, RelSrc(jop))
    requires Computes(a0, l, keep) && Computes(a1, r, keep + {a0.regno})
    ensures Means(g, Leaf(b), p, Compare(jop, l, r, false, p))
  {
    hide Test, Val;
    forall st: State ensures Answers(g[b], st, p, Compare(jop, l, r, false, p)) {
      YieldsPair(a0.s, a0.regno, Val(l, p), a1.s, a1.regno, Val(r, p), keep, p, st);
      var tail := [LdxMem(a1.regno), LdMem(a0.regno)] + (if jop == Jeq then [Alu(AluOp.Sub, X)] else []);
      ExecConcat(a0.s + a1.s, tail, st, p);
      if Val(l, p).Some? && Val(r, p).Some? {
        RelTail(a0.regno, a1.regno, jop, Exec(a0.s + a1.s, st, p).value, p);
        DiffZero(Val(l, p).value, Val(r, p).value);
      }
    }
    LeafMeans(g, b, p, Compare(jop, l, r, false, p));
  }

  lemma {:induction false} DiffZero(x: Word, y: Word)
    ensures Test(Jeq, Diff(x, y), 0) == Test(Jeq, x, y)
  {
  }

  /** The checks of one operand, conjoined in the order they are made. */
  method GenChecks(gen: Generator, cs: seq<Check>) returns (b: Id, ghost t: Tree)
    requires gen.Valid() && |cs| > 0
    modifies gen
    ensures Grows(old(gen.Now()), gen.Now(), b, t)
    ensures forall p: Packet :: Means(gen.node, t, p, ChecksAre(p, cs))
  {
    hide Means, Fresh, Grows, Holds, CheckIs;
    ghost var o := gen.Now();
    b, t := GenCheck(gen, cs[0]);
    GrowsValid(o, gen.Now(), b, t);
    assert cs[..1][..0] == [];
    var i := 1;
    while i < |cs|
      invariant 0 < i <= |cs| && gen.Valid() && Grows(o, gen.Now(), b, t)
      invariant forall p: Packet :: Means(gen.node, t, p, ChecksAre(p, cs[..i]))
    {
      ghost var m := gen.Now();
      var c, r := GenCheck(gen, cs[i]);
      ghost var l := t;
      Conjoin(gen, b, c, l, r, o, m);
      b, t := c, Tree.And(l, r);
      GrowsValid(o, gen.Now(), b, t);
      assert cs[..i+1][..i] == cs[..i];
      i := i + 1;
    }
    assert cs[..i] == cs;
  }

  method GenTypeCheck(gen: Generator, ethertype: Word) returns (b: Id, ghost t: Tree)
    requires gen.Valid()
    modifies gen
    ensures Grows(old(gen.Now()), gen.Now(), b, t)
    ensures forall p: Packet :: Means(gen.node, t, p, TypeIs(p, ethertype))
  {
    b, t := GenCmp(gen, OFF_LINKTYPE, H, ethertype);
    forall p: Packet ensures Means(gen.node, t, p, TypeIs(p, ethertype)) {
      hide Means, Load;
      UnmaskedField(p, OFF_LINKTYPE, H, ethertype);
      assert FieldIs(p, OFF_LINKTYPE, H, ONES, Jeq, false, ethertype) == TypeIs(p, ethertype);
    }
  }

  /** Compile a relation: the operands, their checks, and a test of one against the other.
      Fails exactly when an operand needs more registers than are free. */
  method GenRelation(gen: Generator, regs: Registers, jop: JmpOp, l: Expr, r: Expr, reversed: bool)
    returns (ok: bool, b: Id, ghost t: Tree)
    requires gen.Valid() && regs.Valid() && regs.Used() == {} && jop != Jset && (Divides(l) || Divides(r) ==> gen.divides)
    modifies gen, regs`curreg, regs.regused
    ensures regs.Valid() && (ok <==> Need(l) <= BPF_MEMWORDS && 1 + Need(r) <= BPF_MEMWORDS)
    ensures ok ==> regs.Used() == {} && Grows(old(gen.Now()), gen.Now(), b, t)
    ensures ok ==> forall p: Packet :: Means(gen.node, t, p, Meaning(Rel(jop, l, r, reversed), p))
  {
    b, t := 0, Leaf(0);
    var a0, a1;
    ok, a0 := GenExpr(l, regs);
    if !ok { return; }
    ok, a1 := GenExpr(r, regs);
    if !ok { return; }
    regs.FreeReg(a0.regno);
    regs.FreeReg(a1.regno);
    b, t := JoinRelation(gen, a0, a1, jop, l, r, reversed);
  }

  method JoinRelation(gen: Generator, a0: Arth, a1: Arth, jop: JmpOp, ghost l: Expr, ghost r: Expr, reversed: bool)
    returns (b: Id, ghost t: Tree)
    requires gen.Valid() && Computes(a0, l, {}) && Computes(a1, r, {} + {a0.regno}) && (Divides(l) || Divides(r) ==> gen.divides)
    modifies gen
    ensures Grows(old(gen.Now()), gen.Now(), b, t)
    ensures forall p: Packet :: Means(gen.node, t, p, Meaning(Rel(jop, l, r, reversed), p))
  {
    hide Means, Fresh, Grows, Holds, Compare, Yields, ChecksAre;
    ghost var o := gen.Now();
    assert a0.checks == Guards(l) && a1.checks == Guards(r) by { CheckLists(a0, l, {}); CheckLists(a1, r, {} + {a0.regno}); }
    if |a0.checks| == 0 && |a1.checks| == 0 {
      b, t := GenRelTest(gen, a0, a1, jop, l, r, reversed);
      assert Guards(l) + Guards(r) == [];
      NoChecks();
    } else {
      var c;
      ghost var k;
      if |a0.checks| == 0 {
        c, k := GenChecks(gen, a1.checks);
        assert Guards(l) + Guards(r) == a1.checks;
      } else if |a1.checks| == 0 {
        c, k := GenChecks(gen, a0.checks);
        assert Guards(l) + Guards(r) == a0.checks;
      } else {
        c, k := GenBothChecks(gen, a0.checks, a1.checks);
      }
      ghost var m := gen.Now();
      GrowsValid(o, m, c, k);
      ghost var x;
      b, x := GenRelTest(gen, a0, a1, jop, l, r, reversed);
      Conjoin(gen, c, b, k, x, o, m);
      t := Tree.And(k, x);
    }
  }

  lemma {:induction false} NoChecks()
    ensures forall p: Packet :: ChecksAre(p, []) == Some(true)
  {
  }

  lemma {:induction false} CheckLists(a: Arth, e: Expr, keep: set<nat>)
    requires Computes(a, e, keep)
    ensures a.checks == Guards(e)
  {
  }

  method GenBothChecks(gen: Generator, us: seq<Check>, vs: seq<Check>) returns (b: Id, ghost t: Tree)
    requires gen.Valid() && |us| > 0 && |vs| > 0
    modifies gen
    ensures Grows(old(gen.Now()), gen.Now(), b, t)
    ensures forall p: Packet :: Means(gen.node, t, p, ChecksAre(p, us + vs))
  {
    hide Means, Fresh, Grows, Holds, CheckIs;
    ghost var o := gen.Now();
    var c0, l := GenChecks(gen, us);
    ghost var m := gen.Now();
    GrowsValid(o, m, c0, l);
    var c1, r := GenChecks(gen, vs);
    Conjoin(gen, c0, c1, l, r, o, m);
    b, t := c1, Tree.And(l, r);
    forall p: Packet ensures Means(gen.node, t, p, ChecksAre(p, us + vs)) {
      ChecksJoin(p, us, vs);
    }
  }

  lemma {:induction false} ChecksJoin(p: Packet, us: seq<Check>, vs: seq<Check>)
    ensures ChecksAre(p, us + vs) == Both(ChecksAre(p, us), ChecksAre(p, vs))
    decreases |vs|
  {
    hide CheckIs;
    if |vs| == 0 {
      assert us + vs == us;
    } else {
      var n := |vs| - 1;
      assert (us + vs)[..|us + vs| - 1] == us + vs[..n] && (us + vs)[|us + vs| - 1] == vs[n];
      ChecksJoin(p, us, vs[..n]);
    }
  }

  method GenRelTest(gen: Generator, a0: Arth, a1: Arth, jop: JmpOp, ghost l: Expr, ghost r: Expr, reversed: bool)
    returns (b: Id, ghost t: Tree)
    requires gen.Valid() && Computes(a0, l, {}) && Computes(a1, r, {} + {a0.regno}) && (Divides(l) || Divides(r) ==> gen.divides)
    modifies gen
    ensures Grows(old(gen.Now()), gen.Now(), b, t)
    ensures forall p: Packet :: Means(gen.node, t, p, Compare(jop, l, r, reversed, p))
  {
    hide Means, Fresh, Holds, Yields, Val;
    ghost var o := gen.Now();
    OwnRel(a0, a1, l, r, jop, {});
    TameRel(a0, a1, l, r, jop, gen.divides);
    b := NewTest(gen, RelStmts(a0, a1, jop), jop, RelSrc(jop));
    t := Leaf(b);
    forall p: Packet ensures Means(gen.node, t, p, Compare(jop, l, r, false, p)) {
      RelMeans(gen.node, b, a0, a1, l, r, jop, {}, p);
    }
    if reversed {
      Negated(gen, b, t, o);
      t := Tree.Not(t);
      forall p: Packet ensures Means(gen.node, t, p, Compare(jop, l, r, reversed, p)) {
        MeansNot(gen.node, Leaf(b), p, Compare(jop, l, r, false, p));
      }
    }
  }

  /** The parser's actions for a whole filter; fails exactly when a relation needs too many registers. */
  method GenFilter(gen: Generator, regs: Registers, f: Filter) returns (ok: bool, b: Id, ghost t: Tree)
    requires gen.Valid() && regs.Valid() && regs.Used() == {} && WellFormed(f) && (DividesIn(f) ==> gen.divides)
    modifies gen, regs`curreg, regs.regused
    ensures regs.Valid() && (ok <==> Compilable(f))
    ensures ok ==> regs.Used() == {} && Grows(old(gen.Now()), gen.Now(), b, t)
    ensures ok ==> forall p: Packet :: Means(gen.node, t, p, Meaning(f, p))
    decreases f
  {
    hide Means, Fresh, Grows, Holds, BytesAre, FieldIs;
    ghost var o := gen.Now();
    ok, b, t := true, 0, Leaf(0);
    match f
    case Bytes(off, v) =>
      b, t := GenBcmp(gen, off, v);
    case Field(off, size, mask, jop, reverse, w) =>
      b, t := GenNcmp(gen, off, size, mask, jop, reverse, w);
    case Port(port, proto, dir) =>
      b, t := GenPortOp(gen, port, proto, dir);
    case Rel(jop, l, r, reversed) =>
      ok, b, t := GenRelation(gen, regs, jop, l, r, reversed);
    case No(x) =>
      ghost var u;
      ok, b, u := GenFilter(gen, regs, x);
      if ok {
        Negated(gen, b, u, o);
        t := Tree.Not(u);
        forall p: Packet ensures Means(gen.node, t, p, Meaning(f, p)) {
          MeansNot(gen.node, u, p, Meaning(x, p));
        }
      }
    case All(x, y) =>
      ghost var l, r;
      var b0;
      ok, b0, l := GenFilter(gen, regs, x);
      if ok {
        ghost var m := gen.Now();
        GrowsValid(o, m, b0, l);
        ok, b, r := GenFilter(gen, regs, y);
        if ok {
          Conjoin(gen, b0, b, l, r, o, m);
          t := Tree.And(l, r);
        }
      }
    case Any(x, y) =>
      ghost var l, r;
      var b0;
      ok, b0, l := GenFilter(gen, regs, x);
      if ok {
        ghost var m := gen.Now();
        GrowsValid(o, m, b0, l);
        ok, b, r := GenFilter(gen, regs, y);
        if ok {
          Disjoin(gen, b0, b, l, r, o, m);
          t := Tree.Or(l, r);
        }
      }
  }
}
