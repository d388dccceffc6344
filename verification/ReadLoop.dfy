/** The resumable packet loop over a buffer of records read from a BPF device. */
module ReadLoop {
  import opened Words

  const PCAP_ERROR := -1
  const PCAP_ERROR_BREAK := -2
  const BPF_ALIGNMENT := 4

  // struct bpf_hdr: seconds, microseconds, captured length, original length (32 bits each,
  // little-endian here), header length (16 bits).
  const HEADER := 18

  function Get32(buf: seq<Byte>, i: nat): Word
    requires i + 4 <= |buf|
  {
    Pack4(buf[i+3], buf[i+2], buf[i+1], buf[i])
  }

  function Get16(buf: seq<Byte>, i: nat): Word
    requires i + 2 <= |buf|
  {
    Pack2(buf[i+1], buf[i])
  }

  function WordAlign(x: nat): nat { (x + (BPF_ALIGNMENT - 1)) / BPF_ALIGNMENT * BPF_ALIGNMENT }

  function CapLen(buf: seq<Byte>, i: nat): nat
    requires i + HEADER <= |buf|
  {
    Get32(buf, i + 8)
  }

  function HdrLen(buf: seq<Byte>, i: nat): nat
    requires i + HEADER <= |buf|
  {
    Get16(buf, i + 16)
  }

  /** From i on the buffer holds whole records, each padded to a word boundary except perhaps the last. */
  predicate WellFormed(buf: seq<Byte>, i: nat)
    decreases |buf| - i
  {
    i >= |buf|
    || (&& i + HEADER <= |buf|
        && HEADER <= HdrLen(buf, i)
        && i + HdrLen(buf, i) + CapLen(buf, i) <= |buf|
        && WellFormed(buf, Next(buf, i)))
  }

  function Next(buf: seq<Byte>, i: nat): (r: nat)
    requires i + HEADER <= |buf|
    ensures HEADER <= HdrLen(buf, i) ==> r > i
  {
    i + WordAlign(CapLen(buf, i) + HdrLen(buf, i))
  }

  // What the callback is handed.
  datatype Packet = Packet(sec: Word, usec: Word, caplen: nat, len: Word, data: seq<Byte>)

  function PacketAt(buf: seq<Byte>, i: nat): Packet
    requires i + HEADER <= |buf| && i + HdrLen(buf, i) + CapLen(buf, i) <= |buf|
  {
    var start := i + HdrLen(buf, i);
    Packet(Get32(buf, i), Get32(buf, i + 4), CapLen(buf, i), Get32(buf, i + 12), buf[start..start + CapLen(buf, i)])
  }

  /** The packets of the records from i on. */
  function Packets(buf: seq<Byte>, i: nat): seq<Packet>
    requires WellFormed(buf, i)
    decreases |buf| - i
  {
    if i >= |buf| then [] else [PacketAt(buf, i)] + Packets(buf, Next(buf, i))
  }

  // The answers of read(): a buffer of records, or one of the errors the loop distinguishes.
  datatype Answer = Data(bytes: seq<Byte>) | Interrupted | WouldBlock | Failed

  type Filter = Packet -> bool

  /** The packets a filter lets pass. */
  function Passing(f: Filter, ps: seq<Packet>): seq<Packet> {
    if |ps| == 0 then [] else (if f(ps[0]) then [ps[0]] else []) + Passing(f, ps[1..])
  }

  predicate AllWellFormed(answers: seq<Answer>) {
    forall i {:trigger answers[i]} :: 0 <= i < |answers| && answers[i].Data? ==> WellFormed(answers[i].bytes, 0)
  }

  /** The packets of the buffers still to be read. */
  function Coming(f: Filter, answers: seq<Answer>): seq<Packet>
    requires AllWellFormed(answers)
  {
    if |answers| == 0 then []
    else (if answers[0].Data? then Passing(f, Packets(answers[0].bytes, 0)) else []) + Coming(f, answers[1..])
  }

  /** The first answer that is not an interruption; the number of answers if there is none. */
  function FirstAnswer(answers: seq<Answer>): (k: nat)
    ensures k <= |answers| && forall i {:trigger answers[i]} :: 0 <= i < k ==> answers[i].Interrupted?
    ensures k < |answers| ==> !answers[k].Interrupted?
  {
    if |answers| == 0 || !answers[0].Interrupted? then 0 else 1 + FirstAnswer(answers[1..])
  }

  /** Of the records rs, those handed over by a call that may hand over cnt (any number if cnt is not positive), and those left. */
  function Take(f: Filter, rs: seq<Packet>, cnt: int): (seq<Packet>, seq<Packet>) {
    if |rs| == 0 then ([], [])
    else if !f(rs[0]) then Take(f, rs[1..], cnt)
    else if cnt == 1 then ([rs[0]], rs[1..])
    else var t := Take(f, rs[1..], cnt - 1); ([rs[0]] + t.0, t.1)
  }

  /** What is handed over are the first packets that pass: as many as allowed, and all if there are fewer. */
  lemma {:induction false} TakeFirst(f: Filter, rs: seq<Packet>, cnt: int)
    ensures Take(f, rs, cnt).0 + Passing(f, Take(f, rs, cnt).1) == Passing(f, rs)
    ensures cnt > 0 ==> |Take(f, rs, cnt).0| <= cnt
    ensures cnt <= 0 || |Take(f, rs, cnt).0| < cnt ==> Take(f, rs, cnt).1 == []
  {
    if |rs| > 0 {
      if !f(rs[0]) {
        TakeFirst(f, rs[1..], cnt);
        assert [] + Passing(f, rs[1..]) == Passing(f, rs);
      } else if cnt != 1 {
        TakeFirst(f, rs[1..], cnt - 1);
        var t := Take(f, rs[1..], cnt - 1);
        AddFront(rs[0], t.0, Passing(f, t.1));
      }
    }
  }

  lemma {:induction false} AddFront(p: Packet, x: seq<Packet>, y: seq<Packet>)
    ensures ([p] + x) + y == [p] + (x + y)
  {
  }

  // The records left in the buffer, and the answers still to come.
  datatype Feed = Feed(left: seq<Packet>, answers: seq<Answer>)

  datatype Result = Result(status: int, handed: seq<Packet>, feed: Feed)

  /** One call during which no break comes. */
  function Call(f: Filter, feed: Feed, cnt: int): Result
    requires AllWellFormed(feed.answers)
  {
    if |feed.left| > 0 then
      var t := Take(f, feed.left, cnt);
      Result(|t.0|, t.0, Feed(t.1, feed.answers))
    else
      var k := FirstAnswer(feed.answers);
      if k == |feed.answers| then Result(0, [], Feed([], []))
      else
        var rest := feed.answers[k+1..];
        match feed.answers[k]
        case Data(bytes) => var t := Take(f, Packets(bytes, 0), cnt); Result(|t.0|, t.0, Feed(t.1, rest))
        case Failed => Result(PCAP_ERROR, [], Feed([], rest))
        case _ => Result(0, [], Feed([], rest))
  }

  lemma {:induction false} CallFeeds(f: Filter, feed: Feed, cnt: int)
    requires AllWellFormed(feed.answers)
    ensures AllWellFormed(Call(f, feed, cnt).feed.answers)
  {
    hide WellFormed, Take, Packets;
  }

  datatype Results = Results(statuses: seq<int>, handed: seq<Packet>, feed: Feed)

  /** A sequence of calls during which no break comes. */
  function Calls(f: Filter, feed: Feed, cnts: seq<int>): Results
    requires AllWellFormed(feed.answers)
    ensures AllWellFormed(Calls(f, feed, cnts).feed.answers)
  {
    if |cnts| == 0 then Results([], [], feed)
    else
      var n := |cnts| - 1;
      var before := Calls(f, feed, cnts[..n]);
      var r := Call(f, before.feed, cnts[n]);
      CallFeeds(f, before.feed, cnts[n]);
      Results(before.statuses + [r.status], before.handed + r.handed, r.feed)
  }

  // The packets counted by the results of calls.
  function Counted(statuses: seq<int>): int {
    if |statuses| == 0 then 0
    else Counted(statuses[..|statuses|-1]) + (if statuses[|statuses|-1] < 0 then 0 else statuses[|statuses|-1])
  }

  class Reader {
    // The last buffer read; the next record in it; what is left of it. cc is 0 when it is used up.
    var buffer: seq<Byte>
    var bp: nat
    var cc: nat
    var breakLoop: bool
    // The answers read() will still give: the outside world.
    var answers: seq<Answer>
    // What the callback has received.
    var delivered: seq<Packet>
    // How often a break has been asked for.
    ghost var breaks: nat
    const useBpf: bool
    const filter: Filter

    ghost predicate Valid()
      reads this
    {
      && AllWellFormed(answers)
      && (cc > 0 ==> bp + cc == |buffer| && WellFormed(buffer, bp))
    }

    // With the filter in the kernel every record has passed it already.
    function Accepts(): Filter { if useBpf then (p: Packet) => true else filter }

    /** Every packet not handed over yet, in order. */
    ghost function Pending(): seq<Packet>
      requires Valid()
      reads this
    {
      (if cc > 0 then Passing(Accepts(), Packets(buffer, bp)) else []) + Coming(Accepts(), answers)
    }

    ghost function Feeding(): Feed
      requires Valid()
      reads this
    {
      Feed(if cc > 0 then Packets(buffer, bp) else [], answers)
    }

    constructor (kernel: bool, f: Filter, world: seq<Answer>)
      requires AllWellFormed(world)
      ensures Valid() && delivered == [] && Pending() == Coming(Accepts(), world) && !breakLoop && useBpf == kernel && filter == f
    {
      hide Coming, Passing, Packets, WellFormed, AllWellFormed;
      buffer, bp, cc, breakLoop, answers, delivered, useBpf, filter := [], 0, 0, false, world, [], kernel, f;
    }

    /** pcap_breakloop may be called at any time. */
    method PollBreak()
      modifies `breakLoop, `breaks
      ensures breaks >= old(breaks) && (breakLoop <==> old(breakLoop) || breaks > old(breaks))
    {
      if * { breakLoop, breaks := true, breaks + 1; }
    }

    /** Wait for something to hand over: continue in the buffer, or read the next one. more is false
        when the call is over, with status its result. Unless a break comes, the first answer that is no interruption
        decides, and the answers up to it are used up. */
    method Begin() returns (more: bool, status: int, start: nat)
      requires Valid()
      modifies this
      ensures AllWellFormed(answers) && delivered == old(delivered) && breaks >= old(breaks)
      ensures more ==> WellFormed(buffer, start) && Passing(Accepts(), Packets(buffer, start)) + Coming(Accepts(), answers) == old(Pending())
      ensures !more ==> Valid() && Pending() == old(Pending()) && cc == old(cc) && buffer == old(buffer) && bp == old(bp)
      ensures var quiet := !old(breakLoop) && breaks == old(breaks);
        if quiet then !breakLoop && (!more ==> status != PCAP_ERROR_BREAK) else !more && status == PCAP_ERROR_BREAK && !breakLoop
      ensures old(breakLoop) ==> answers == old(answers)
      ensures !old(breakLoop) && breaks == old(breaks) && old(cc) > 0 ==> more && answers == old(answers) && buffer == old(buffer) && start == old(bp)
      ensures !old(breakLoop) && breaks == old(breaks) && old(cc) == 0 ==>
        var k := FirstAnswer(old(answers));
        && (k == |old(answers)| ==> !more && status == 0 && answers == [])
        && (k < |old(answers)| ==> answers == old(answers)[k+1..])
        && (k < |old(answers)| && old(answers)[k].Data? ==> more && buffer == old(answers)[k].bytes && start == 0)
        && (k < |old(answers)| && old(answers)[k].WouldBlock? ==> !more && status == 0)
        && (k < |old(answers)| && old(answers)[k].Failed? ==> !more && status == PCAP_ERROR)
    {
      hide Passing, Packets, WellFormed, PacketAt;
      ghost var pending := Pending();
      while true
        invariant Valid() && delivered == old(delivered) && Pending() == pending
        invariant breaks == old(breaks) && breakLoop == old(breakLoop) && (breakLoop ==> answers == old(answers))
        invariant cc == old(cc) && buffer == old(buffer) && bp == old(bp)
        invariant |answers| <= |old(answers)| && answers == old(answers)[|old(answers)| - |answers|..]
        invariant FirstAnswer(old(answers)) == |old(answers)| - |answers| + FirstAnswer(answers)
        invariant cc > 0 ==> answers == old(answers)
        decreases |answers|
      {
        PollBreak();
        if breakLoop {
          breakLoop := false;
          return false, PCAP_ERROR_BREAK, 0;
        }
        if cc > 0 { return true, 0, bp; }
        if |answers| == 0 { return false, 0, 0; }
        var answer := answers[0];
        answers := answers[1..];
        match answer {
          case Interrupted =>
          case WouldBlock => return false, 0, 0;
          case Failed => return false, PCAP_ERROR, 0;
          case Data(bytes) =>
            buffer := bytes;
            return true, 0, 0;
        }
      }
    }

    // Remember where to resume; a padded last record may end past the buffer.
    method Save(i: nat)
      modifies `bp, `cc
      ensures bp == i && cc == if i < |buffer| then |buffer| - i else 0
    {
      bp := i;
      cc := if |buffer| < i then 0 else |buffer| - i;
    }

    /** Hand over at most cnt packets (any number if cnt is not positive) of the current or next buffer. Unless a break comes, the
        result is that of Call; a break before anything is handed over is reported, one after that ends the call and is
        kept for the next one. */
    method ReadBpf(cnt: int) returns (status: int)
      requires Valid()
      modifies this
      ensures Valid() && old(delivered) <= delivered && breaks >= old(breaks)
      ensures delivered + Pending() == old(delivered) + old(Pending())
      ensures |delivered| - |old(delivered)| == if status < 0 then 0 else status
      ensures cnt > 0 ==> status <= cnt
      ensures !old(breakLoop) && breaks == old(breaks) ==>
        !breakLoop && Result(status, delivered[|old(delivered)|..], Feeding()) == Call(Accepts(), old(Feeding()), cnt)
      ensures old(breakLoop) || breaks > old(breaks) ==>
        if status == PCAP_ERROR_BREAK then !breakLoop else status > 0 && breakLoop && breaks > old(breaks)
      ensures old(breakLoop) ==> status == PCAP_ERROR_BREAK && answers == old(answers)
      ensures !old(breakLoop) && breaks == old(breaks) && old(cc) == 0 ==>
        var k := FirstAnswer(old(answers));
        && (status == PCAP_ERROR <==> k < |old(answers)| && old(answers)[k].Failed?)
        && (k == |old(answers)| || old(answers)[k].WouldBlock? ==> status == 0)
        && answers == if k == |old(answers)| then [] else old(answers)[k+1..]
    {
      hide Passing, Packets, WellFormed, Coming, AllWellFormed, Take, Call;
      var more, start;
      ghost var feed := Feeding();
      more, status, start := Begin();
      LeftIs(feed, old(buffer), old(bp), old(cc));
      if !more {
        if !old(breakLoop) && breaks == old(breaks) { CallNothing(Accepts(), feed, cnt, status, answers); }
        return;
      }
      CallWith(Accepts(), feed, cnt, Packets(buffer, start), answers);
      Whole(delivered, Accepts(), buffer, start, answers);
      status := Deliver(start, cnt);
    }

    /** Hand over records of the buffer from start on. */
    method Deliver(start: nat, cnt: int) returns (status: int)
      requires WellFormed(buffer, start) && AllWellFormed(answers) && !breakLoop
      modifies `bp, `cc, `breakLoop, `breaks, `delivered
      ensures Valid() && old(delivered) <= delivered && breaks >= old(breaks)
      ensures delivered + Pending() == old(Handed(delivered, Accepts(), buffer, start, answers))
      ensures |delivered| - |old(delivered)| == if status < 0 then 0 else status
      ensures cnt > 0 ==> status <= cnt
      ensures breaks == old(breaks) ==>
        !breakLoop && status >= 0 && (delivered[|old(delivered)|..], Feeding().left) == Take(Accepts(), old(Packets(buffer, start)), cnt)
      ensures breaks > old(breaks) ==> if status == PCAP_ERROR_BREAK then !breakLoop else status > 0 && breakLoop
    {
      hide Passing, Packets, WellFormed, Coming, PacketAt, Next, AllWellFormed, Take, Taken, Handed;
      var f := Accepts();
      var i: nat, n := start, 0;
      ghost var all := Handed(delivered, f, buffer, i, answers);
      ghost var records := Packets(buffer, start);
      TakenStart(f, records, cnt);
      assert delivered[|old(delivered)|..] == [];
      while i < |buffer|
        invariant WellFormed(buffer, i) && AllWellFormed(answers) && old(delivered) <= delivered
        invariant Handed(delivered, f, buffer, i, answers) == all
        invariant n == |delivered| - |old(delivered)| && (cnt > 0 ==> n < cnt)
        invariant breaks == old(breaks) && !breakLoop && Taken(f, records, cnt, delivered[|old(delivered)|..], Packets(buffer, i), cnt - n)
        decreases |buffer| - i
      {
        PollBreak();
        if breakLoop {
          Save(i);
          Whole(delivered, f, buffer, i, answers);
          if n == 0 {
            breakLoop := false;
            return PCAP_ERROR_BREAK;
          } else {
            return n;
          }
        }
        InBounds(buffer, i);
        var packet := PacketAt(buffer, i);
        HandedNext(delivered, f, buffer, i, answers);
        TakenNext(f, records, cnt, delivered[|old(delivered)|..], buffer, i, cnt - n);
        if f(packet) {
          ghost var before := delivered[|old(delivered)|..];
          delivered := delivered + [packet];
          assert delivered[|old(delivered)|..] == before + [packet];
          i, n := Next(buffer, i), n + 1;
          if cnt > 0 && n >= cnt {
            Save(i);
            LeftOver(buffer, i);
            Whole(delivered, f, buffer, i, answers);
            return n;
          }
        } else {
          i := Next(buffer, i);
        }
      }
      cc := 0;
      status := n;
      LeftOver(buffer, i);
      TakenAll(f, records, cnt, delivered[|old(delivered)|..], Packets(buffer, i), cnt - n);
      Whole(delivered, f, buffer, i, answers);
    }

    /** Any sequence of calls: what has been handed over is a prefix of all packets, each once and in order, counted by the results;
        and if no break comes, every call does what Call says. */
    method Session(cnts: seq<int>) returns (statuses: seq<int>)
      requires Valid()
      modifies this
      ensures Valid() && old(delivered) <= delivered && breaks >= old(breaks)
      ensures delivered + Pending() == old(delivered) + old(Pending())
      ensures |statuses| == |cnts| && |delivered| - |old(delivered)| == Counted(statuses)
      ensures !old(breakLoop) && breaks == old(breaks) ==>
        Results(statuses, delivered[|old(delivered)|..], Feeding()) == Calls(Accepts(), old(Feeding()), cnts)
    {
      hide Call, Coming, Passing, Packets, WellFormed, AllWellFormed;
      var i := 0;
      statuses := [];
      assert cnts[..0] == [];
      while i < |cnts|
        invariant 0 <= i <= |cnts| && Valid() && old(delivered) <= delivered && breaks >= old(breaks)
        invariant delivered + Pending() == old(delivered) + old(Pending())
        invariant |statuses| == i && |delivered| - |old(delivered)| == Counted(statuses)
        invariant !old(breakLoop) && breaks == old(breaks) ==>
          !breakLoop && Results(statuses, delivered[|old(delivered)|..], Feeding()) == Calls(Accepts(), old(Feeding()), cnts[..i])
      {
        ghost var before := delivered;
        var status := ReadBpf(cnts[i]);
        assert delivered[|old(delivered)|..] == before[|old(delivered)|..] + delivered[|before|..];
        assert (statuses + [status])[..i] == statuses && cnts[..i+1][..i] == cnts[..i];
        statuses := statuses + [status];
        i := i + 1;
      }
      assert cnts[..i] == cnts;
    }
  }

  // The call has handed over h; rest with the count left gives what is still to be handed over.
  ghost predicate Taken(f: Filter, records: seq<Packet>, cnt: int, h: seq<Packet>, rest: seq<Packet>, more: int) {
    var t := Take(f, rest, more); Take(f, records, cnt) == (h + t.0, t.1)
  }

  lemma {:induction false} TakenNext(f: Filter, records: seq<Packet>, cnt: int, h: seq<Packet>, buf: seq<Byte>, i: nat, more: int)
    requires WellFormed(buf, i) && i < |buf| && Taken(f, records, cnt, h, Packets(buf, i), more)
    ensures i + HEADER <= |buf| && i + HdrLen(buf, i) + CapLen(buf, i) <= |buf| && Next(buf, i) > i && WellFormed(buf, Next(buf, i))
    ensures var p, rest := PacketAt(buf, i), Packets(buf, Next(buf, i));
      if !f(p) then Taken(f, records, cnt, h, rest, more)
      else if more == 1 then Take(f, records, cnt) == (h + [p], rest)
      else Taken(f, records, cnt, h + [p], rest, more - 1)
  {
    hide PacketAt, CapLen, HdrLen, Next;
    PassingFirst(f, buf, i);
    PacketsFirst(buf, i);
    var p, rest := PacketAt(buf, i), Packets(buf, Next(buf, i));
    assert ([p] + rest)[1..] == rest;
    var t := Take(f, rest, more - 1);
    assert h + ([p] + t.0) == (h + [p]) + t.0;
  }

  lemma {:induction false} PacketsFirst(buf: seq<Byte>, i: nat)
    requires WellFormed(buf, i) && i < |buf|
    ensures Next(buf, i) > i && WellFormed(buf, Next(buf, i)) && Packets(buf, i) == [PacketAt(buf, i)] + Packets(buf, Next(buf, i))
  {
  }

  lemma {:induction false} TakenAll(f: Filter, records: seq<Packet>, cnt: int, h: seq<Packet>, rest: seq<Packet>, more: int)
    requires Taken(f, records, cnt, h, rest, more) && rest == []
    ensures Take(f, records, cnt) == (h, [])
  {
    assert h + [] == h;
  }

  lemma {:induction false} LeftOver(buf: seq<Byte>, i: nat)
    requires WellFormed(buf, i)
    ensures i >= |buf| ==> Packets(buf, i) == []
  {
  }

  lemma {:induction false} TakenStart(f: Filter, records: seq<Packet>, cnt: int)
    ensures Taken(f, records, cnt, [], records, cnt)
  {
    hide Take;
    var t := Take(f, records, cnt);
    assert [] + t.0 == t.0;
  }

  /** Records are left exactly while the buffer is not used up. */
  lemma {:induction false} LeftIs(feed: Feed, buf: seq<Byte>, bp: nat, cc: nat)
    requires cc > 0 ==> bp + cc == |buf| && WellFormed(buf, bp) && feed.left == Packets(buf, bp)
    requires cc == 0 ==> feed.left == []
    ensures |feed.left| > 0 <==> cc > 0
  {
    if cc > 0 { PacketsFirst(buf, bp); }
  }

  /** A call with records to hand over, from the buffer or the next one. */
  lemma {:induction false} CallWith(f: Filter, feed: Feed, cnt: int, records: seq<Packet>, answers: seq<Answer>)
    requires AllWellFormed(feed.answers)
    requires |feed.left| > 0 ==> records == feed.left && answers == feed.answers
    requires var k := FirstAnswer(feed.answers);
      |feed.left| == 0 ==> k < |feed.answers| && feed.answers[k].Data? && records == Packets(feed.answers[k].bytes, 0) && answers == feed.answers[k+1..]
    ensures var t := Take(f, records, cnt); Call(f, feed, cnt) == Result(|t.0|, t.0, Feed(t.1, answers))
  {
    hide Take, Packets, WellFormed;
  }

  /** A call with nothing to hand over. */
  lemma {:induction false} CallNothing(f: Filter, feed: Feed, cnt: int, status: int, answers: seq<Answer>)
    requires AllWellFormed(feed.answers) && |feed.left| == 0
    requires var k := FirstAnswer(feed.answers);
      && (k < |feed.answers| ==> !feed.answers[k].Data? && answers == feed.answers[k+1..] && status == if feed.answers[k].Failed? then PCAP_ERROR else 0)
      && (k == |feed.answers| ==> answers == [] && status == 0)
    ensures Call(f, feed, cnt) == Result(status, [], Feed([], answers))
  {
    hide Take, Packets, WellFormed;
  }

  // Everything handed over, and everything still to come from record i on.
  ghost function Handed(delivered: seq<Packet>, f: Filter, buf: seq<Byte>, i: nat, answers: seq<Answer>): seq<Packet>
    requires WellFormed(buf, i) && AllWellFormed(answers)
  {
    delivered + (Passing(f, Packets(buf, i)) + Coming(f, answers))
  }

  lemma {:induction false} Whole(delivered: seq<Packet>, f: Filter, buf: seq<Byte>, i: nat, answers: seq<Answer>)
    requires WellFormed(buf, i) && AllWellFormed(answers)
    ensures Handed(delivered, f, buf, i, answers) == delivered + (Passing(f, Packets(buf, i)) + Coming(f, answers))
    ensures i >= |buf| ==> Handed(delivered, f, buf, i, answers) == delivered + ([] + Coming(f, answers))
  {
  }

  lemma {:induction false} InBounds(buf: seq<Byte>, i: nat)
    requires WellFormed(buf, i) && i < |buf|
    ensures i + HEADER <= |buf| && i + HdrLen(buf, i) + CapLen(buf, i) <= |buf|
  {
  }

  lemma {:induction false} HandedNext(delivered: seq<Packet>, f: Filter, buf: seq<Byte>, i: nat, answers: seq<Answer>)
    requires WellFormed(buf, i) && i < |buf| && AllWellFormed(answers)
    ensures i + HEADER <= |buf| && i + HdrLen(buf, i) + CapLen(buf, i) <= |buf|
    ensures Next(buf, i) > i && WellFormed(buf, Next(buf, i))
    ensures var d := if f(PacketAt(buf, i)) then delivered + [PacketAt(buf, i)] else delivered;
      Handed(delivered, f, buf, i, answers) == Handed(d, f, buf, Next(buf, i), answers)
  {
    hide Passing, Packets, Coming, Next, PacketAt, WellFormed, CapLen, HdrLen, AllWellFormed;
    InBounds(buf, i);
    PassingFirst(f, buf, i);
    var packet, rest, coming := PacketAt(buf, i), Passing(f, Packets(buf, Next(buf, i))), Coming(f, answers);
    if f(packet) {
      HandOver(delivered, packet, rest, coming);
    } else {
      assert [] + rest == rest;
    }
  }

  lemma {:induction false} HandOver(delivered: seq<Packet>, packet: Packet, rest: seq<Packet>, coming: seq<Packet>)
    ensures delivered + (([packet] + rest) + coming) == (delivered + [packet]) + (rest + coming)
  {
  }

  lemma {:induction false} PassingFirst(f: Filter, buf: seq<Byte>, i: nat)
    requires WellFormed(buf, i) && i < |buf|
    ensures Next(buf, i) > i && WellFormed(buf, Next(buf, i))
    ensures Passing(f, Packets(buf, i)) == (if f(PacketAt(buf, i)) then [PacketAt(buf, i)] else []) + Passing(f, Packets(buf, Next(buf, i)))
  {
    assert Packets(buf, i)[1..] == Packets(buf, Next(buf, i));
  }

  // A record as the device writes it: the packet, and what the header holds beyond its 18 bytes.
  datatype Record = Record(packet: Packet, extra: seq<Byte>)

  predicate Writable(r: Record) { r.packet.caplen == |r.packet.data| < M && HEADER + |r.extra| < 65536 }

  function Le32(w: Word): seq<Byte> { [w % 256, w / 256 % 256, w / 65536 % 256, w / 16777216] }

  function Image(r: Record): (b: seq<Byte>)
    requires Writable(r)
    ensures |b| == HEADER + |r.extra| + |r.packet.data|
  {
    var n := HEADER + |r.extra|;
    Le32(r.packet.sec) + Le32(r.packet.usec) + Le32(r.packet.caplen) + Le32(r.packet.len) + [n % 256, n / 256] + r.extra + r.packet.data
  }

  // Bytes up to the next multiple of four.
  function Padding(n: nat): (b: seq<Byte>)
    ensures (n + |b|) % 4 == 0 && |b| < 4
  {
    seq((4 - n % 4) % 4, _ => 0)
  }

  /** Records one after the other, padded but for the last. */
  function Buffer(rs: seq<Record>): seq<Byte>
    requires forall i :: 0 <= i < |rs| ==> Writable(rs[i])
  {
    if |rs| == 0 then []
    else if |rs| == 1 then Image(rs[0])
    else Image(rs[0]) + Padding(|Image(rs[0])|) + Buffer(rs[1..])
  }

  lemma {:induction false} LittleEndian(b: seq<Byte>, i: nat, w: Word)
    requires i + 4 <= |b| && b[i..i + 4] == Le32(w)
    ensures Get32(b, i) == w
  {
    var c := b[i..i + 4];
    assert c[0] == b[i] && c[1] == b[i + 1] && c[2] == b[i + 2] && c[3] == b[i + 3];
    BytesBack(w);
  }

  lemma {:induction false} BytesBack(w: Word)
    ensures Pack4(w / 16777216, w / 65536 % 256, w / 256 % 256, w % 256) == w
  {
  }

  /** The fields of a record at the front of a buffer are read back. */
  lemma {:induction false} FieldsBack(r: Record, rest: seq<Byte>)
    requires Writable(r)
    ensures var b, n := Image(r) + rest, HEADER + |r.extra|;
      && Get32(b, 0) == r.packet.sec && Get32(b, 4) == r.packet.usec && CapLen(b, 0) == r.packet.caplen && Get32(b, 12) == r.packet.len
      && HdrLen(b, 0) == n && b[n..n + |r.packet.data|] == r.packet.data
  {
    hide Get32, Pack4;
    var b, n := Image(r) + rest, HEADER + |r.extra|;
    assert b[0..4] == Le32(r.packet.sec) && b[4..8] == Le32(r.packet.usec) && b[8..12] == Le32(r.packet.caplen) && b[12..16] == Le32(r.packet.len);
    LittleEndian(b, 0, r.packet.sec);
    LittleEndian(b, 4, r.packet.usec);
    LittleEndian(b, 8, r.packet.caplen);
    LittleEndian(b, 12, r.packet.len);
    assert b[16] == n % 256 && b[17] == n / 256;
  }

  lemma {:induction false} SameFields(pre: seq<Byte>, b: seq<Byte>, i: nat)
    requires i + HEADER <= |b|
    ensures HdrLen(pre + b, |pre| + i) == HdrLen(b, i) && CapLen(pre + b, |pre| + i) == CapLen(b, i)
    ensures Get32(pre + b, |pre| + i) == Get32(b, i) && Get32(pre + b, |pre| + i + 4) == Get32(b, i + 4) && Get32(pre + b, |pre| + i + 12) == Get32(b, i + 12)
  {
    hide Pack2, Pack4;
  }

  lemma {:induction false} SamePacket(pre: seq<Byte>, b: seq<Byte>, i: nat)
    requires i + HEADER <= |b| && i + HdrLen(b, i) + CapLen(b, i) <= |b|
    ensures HdrLen(pre + b, |pre| + i) == HdrLen(b, i) && CapLen(pre + b, |pre| + i) == CapLen(b, i)
    ensures PacketAt(pre + b, |pre| + i) == PacketAt(b, i) && Next(pre + b, |pre| + i) == |pre| + Next(b, i)
  {
    hide Get32, HdrLen, CapLen, WordAlign;
    SameFields(pre, b, i);
    var start, n := i + HdrLen(b, i), CapLen(b, i);
    assert (pre + b)[|pre| + start..|pre| + start + n] == b[start..start + n];
  }

  /** Looking past the first bytes of a buffer. */
  lemma {:induction false} Shifted(pre: seq<Byte>, b: seq<Byte>, i: nat)
    requires WellFormed(b, i)
    ensures WellFormed(pre + b, |pre| + i) && Packets(pre + b, |pre| + i) == Packets(b, i)
    decreases |b| - i
  {
    hide HdrLen, CapLen, PacketAt, Next;
    if i < |b| {
      SamePacket(pre, b, i);
      PacketsFirst(b, i);
      Shifted(pre, b, Next(b, i));
    }
  }

  // The packets of records.
  function Contents(rs: seq<Record>): seq<Packet> { if |rs| == 0 then [] else [rs[0].packet] + Contents(rs[1..]) }

  /** Records that were written are read back: every packet, in order, whatever the header lengths. */
  lemma {:induction false} ReadBack(rs: seq<Record>)
    requires forall i :: 0 <= i < |rs| ==> Writable(rs[i])
    ensures WellFormed(Buffer(rs), 0) && Packets(Buffer(rs), 0) == Contents(rs)
  {
    hide Image, Get32, Get16, Padding;
    if |rs| > 0 {
      var r, tail := rs[0], rs[1..];
      ReadBack(tail);
      var image := Image(r);
      var pad := if |rs| == 1 then [] else Padding(|image|);
      var rest := pad + Buffer(tail);
      assert Buffer(rs) == image + rest by { assert image + [] == image; assert image + pad + Buffer(tail) == image + (pad + Buffer(tail)); }
      FieldsBack(r, rest);
      Aligned(|image|, |pad|);
      var b, next := Buffer(rs), Next(Buffer(rs), 0);
      if |rs| == 1 {
        assert next >= |b|;
      } else {
        assert (image + pad) + Buffer(tail) == b && next == |image + pad|;
        Shifted(image + pad, Buffer(tail), 0);
      }
    }
  }

  lemma {:induction false} Aligned(n: nat, pad: nat)
    ensures WordAlign(n) >= n
    ensures pad < 4 && (n + pad) % 4 == 0 ==> WordAlign(n) == n + pad
  {
  }
}
