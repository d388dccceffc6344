/** The list of capture devices: a linked list kept in order of preference as devices are found. */
module IfList {

  const INT_MAX: nat := 0x7fff_ffff

  predicate IsDigit(c: char) { '0' <= c <= '9' }

  function FromDigit(s: string): string {
    if s == "" || IsDigit(s[0]) then s else FromDigit(s[1..])
  }

  function Atoi(s: string, n: nat): nat {
    if s == "" || !IsDigit(s[0]) then n else Atoi(s[1..], 10 * n + (s[0] as int - '0' as int))
  }

  /** The number in a device name; "any" comes after all others. */
  function Instance(name: string): nat {
    if name == "any" then INT_MAX else Atoi(FromDigit(name), 0)
  }

  // A number written in decimal.
  function Decimal(n: nat): string
    decreases n
  {
    (if n < 10 then "" else Decimal(n / 10)) + [('0' as int + n % 10) as char]
  }

  lemma {:induction false} AtoiDecimal(n: nat, m: nat, rest: string)
    requires rest == "" || !IsDigit(rest[0])
    ensures Atoi(Decimal(n) + rest, 0) == n
  {
    AtoiRun(n, 0, rest);
  }

  function Scale(n: nat): nat
    decreases n
  {
    if n < 10 then 10 else 10 * Scale(n / 10)
  }

  lemma {:induction false} ShiftDigit(m: nat, s: nat, q: nat, d: nat)
    ensures 10 * (m * s + q) + d == m * (10 * s) + (10 * q + d)
  {
    assert m * (10 * s) == 10 * (m * s);
  }

  lemma {:induction false} AtoiStep(d: nat, rest: string, m: nat)
    requires d < 10
    ensures var c := ('0' as int + d) as char; Atoi([c] + rest, m) == Atoi(rest, 10 * m + d)
  {
    var c := ('0' as int + d) as char;
    assert ([c] + rest)[1..] == rest;
  }

  lemma {:induction false} DecimalStep(q: nat, d: nat)
    requires d < 10 && q > 0
    ensures var n := 10 * q + d; n / 10 == q && Decimal(n) == Decimal(q) + [('0' as int + d) as char] && Scale(n) == 10 * Scale(q)
  {
  }

  lemma {:induction false} AtoiRun(n: nat, m: nat, rest: string)
    ensures Atoi(Decimal(n) + rest, m) == Atoi(rest, m * Scale(n) + n)
    decreases n, 1
  {
    hide Atoi;
    if n < 10 {
      assert Decimal(n) + rest == [('0' as int + n) as char] + rest;
      AtoiStep(n, rest, m);
    } else {
      AtoiLong(n / 10, n % 10, m, rest);
    }
  }

  lemma {:induction false} AtoiLong(q: nat, d: nat, m: nat, rest: string)
    requires d < 10 && q > 0
    ensures Atoi(Decimal(10 * q + d) + rest, m) == Atoi(rest, m * Scale(10 * q + d) + (10 * q + d))
    decreases 10 * q + d, 0
  {
    hide Atoi, Decimal, Scale;
    var c := ('0' as int + d) as char;
    var s := Scale(q);
    DecimalStep(q, d);
    AtoiRun(q, m, [c] + rest);
    assert (Decimal(q) + [c]) + rest == Decimal(q) + ([c] + rest);
    AtoiStep(d, rest, m * s + q);
    ShiftDigit(m, s, q, d);
  }

  /** A device named by a word and a number has that number as its instance. */
  lemma {:induction false} InstanceOfNumbered(word: string, n: nat)
    requires forall i :: 0 <= i < |word| ==> !IsDigit(word[i])
    ensures Instance(word + Decimal(n)) == n
  {
    SkipWord(word, Decimal(n));
    DecimalDigits(n);
    assert Decimal(n) + "" == Decimal(n);
    AtoiDecimal(n, 0, "");
    var name := word + Decimal(n);
    assert name[|name|-1] == Decimal(n)[|Decimal(n)|-1];
    assert name != "any";
  }

  predicate NoDigits(s: string) { forall i :: 0 <= i < |s| ==> !IsDigit(s[i]) }

  /** A name without digits has instance 0, unless it is "any". */
  lemma {:induction false} InstanceOfWord(word: string)
    requires NoDigits(word) && word != "any"
    ensures Instance(word) == 0
  {
    SkipWord(word, "");
    assert word + "" == word;
  }

  /** No device with a number below INT_MAX, and none without a number, comes behind "any". */
  lemma {:induction false} AnyBehind(name: string)
    requires Instance("any") <= Instance(name)
    ensures NoDigits(name) ==> name == "any"
    ensures forall word: string, n: nat {:trigger word + Decimal(n)} :: NoDigits(word) && name == word + Decimal(n) ==> n >= INT_MAX
  {
    hide Decimal;
    if NoDigits(name) && name != "any" { InstanceOfWord(name); }
    forall word: string, n: nat | NoDigits(word) && name == word + Decimal(n) ensures n >= INT_MAX {
      InstanceOfNumbered(word, n);
    }
  }

  lemma {:induction false} DecimalDigits(n: nat)
    ensures |Decimal(n)| > 0 && forall i :: 0 <= i < |Decimal(n)| ==> IsDigit(Decimal(n)[i])
    decreases n
  {
    if n >= 10 { DecimalDigits(n / 10); }
  }

  lemma {:induction false} SkipWord(word: string, rest: string)
    requires forall i :: 0 <= i < |word| ==> !IsDigit(word[i])
    ensures FromDigit(word + rest) == FromDigit(rest)
  {
    if word == "" {
      assert word + rest == rest;
    } else {
      assert (word + rest)[1..] == word[1..] + rest;
      SkipWord(word[1..], rest);
    }
  }

  /** get_instance: scan for the first digit, then read the number there. */
  method GetInstance(name: string) returns (n: nat)
    ensures n == Instance(name)
  {
    if name == "any" { return INT_MAX; }
    var i := 0;
    while i < |name| && !IsDigit(name[i])
      invariant 0 <= i <= |name| && FromDigit(name[i..]) == FromDigit(name)
    {
      assert name[i..][1..] == name[i+1..];
      i := i + 1;
    }
    n := 0;
    while i < |name| && IsDigit(name[i])
      invariant 0 <= i <= |name| && Atoi(name[i..], n) == Atoi(FromDigit(name), 0)
    {
      assert name[i..][1..] == name[i+1..];
      n := 10 * n + (name[i] as int - '0' as int);
      i := i + 1;
    }
  }

  datatype Entry = Entry(name: string, loopback: bool)

  /** x may stand before y: loopbacks last, then by instance. */
  predicate NotAfter(x: Entry, y: Entry) {
    if x.loopback == y.loopback then Instance(x.name) <= Instance(y.name) else y.loopback
  }

  predicate Sorted(es: seq<Entry>) { forall i, j :: 0 <= i < j < |es| ==> NotAfter(es[i], es[j]) }

  predicate NamesUnique(es: seq<Entry>) { forall i, j :: 0 <= i < j < |es| ==> es[i].name != es[j].name }

  predicate SameKey(x: Entry, y: Entry) { x.loopback == y.loopback && Instance(x.name) == Instance(y.name) }

  /** The entries that rank equal to k, in order. */
  function Equals(es: seq<Entry>, k: Entry): seq<Entry> {
    if |es| == 0 then [] else (if SameKey(es[0], k) then [es[0]] else []) + Equals(es[1..], k)
  }

  /** es is a stable sort of the devices in order of arrival: in order, and equals as they arrived. */
  ghost predicate StableSort(arrivals: seq<Entry>, es: seq<Entry>) {
    Sorted(es) && forall k :: Equals(es, k) == Equals(arrivals, k)
  }

  lemma {:induction false} EqualsConcat(x: seq<Entry>, y: seq<Entry>, k: Entry)
    ensures Equals(x + y, k) == Equals(x, k) + Equals(y, k)
  {
    if |x| == 0 {
      assert x + y == y;
    } else {
      assert (x + y)[1..] == x[1..] + y;
      EqualsConcat(x[1..], y, k);
    }
  }

  lemma {:induction false} EqualsNone(es: seq<Entry>, k: Entry)
    requires forall i :: 0 <= i < |es| ==> !SameKey(es[i], k)
    ensures Equals(es, k) == []
  {
    if |es| != 0 { EqualsNone(es[1..], k); }
  }

  lemma {:induction false} EqualsMember(es: seq<Entry>, k: Entry, x: Entry)
    ensures x in Equals(es, k) <==> x in es && SameKey(x, k)
  {
    if |es| != 0 { EqualsMember(es[1..], k, x); }
  }

  /** Putting a new arrival behind everything that may stand before it keeps the sort stable. */
  lemma {:induction false} InsertStable(arrivals: seq<Entry>, es: seq<Entry>, e: Entry, k: nat)
    requires StableSort(arrivals, es) && k <= |es|
    requires forall i :: 0 <= i < k ==> NotAfter(es[i], e)
    requires k < |es| ==> !NotAfter(es[k], e)
    ensures StableSort(arrivals + [e], es[..k] + [e] + es[k..])
  {
    hide Instance;
    var r := es[..k] + [e] + es[k..];
    forall i | k <= i < |es| ensures !NotAfter(es[i], e) && NotAfter(e, es[i]) {
    }
    assert forall i :: 0 <= i < |r| ==> r[i] == if i < k then es[i] else if i == k then e else es[i-1];
    forall key ensures Equals(r, key) == Equals(arrivals + [e], key) {
      assert es == es[..k] + es[k..];
      EqualsConcat(es[..k], es[k..], key);
      EqualsConcat(es[..k] + [e], es[k..], key);
      EqualsConcat(es[..k], [e], key);
      EqualsConcat(arrivals, [e], key);
      if SameKey(e, key) { EqualsNone(es[k..], key); }
    }
  }

  lemma {:induction false} InsertUnique(es: seq<Entry>, e: Entry, k: nat)
    requires NamesUnique(es) && k <= |es| && forall i :: 0 <= i < |es| ==> es[i].name != e.name
    ensures NamesUnique(es[..k] + [e] + es[k..])
  {
  }

  class Iface {
    const name: string
    const loopback: bool
    var next: Iface?

    constructor (n: string, lb: bool)
      ensures name == n && loopback == lb && next == null
    {
      name, loopback, next := n, lb, null;
    }
  }

  function Entries(nodes: seq<Iface>): (r: seq<Entry>)
    ensures |r| == |nodes| && forall i {:trigger r[i]} :: 0 <= i < |r| ==> r[i] == Entry(nodes[i].name, nodes[i].loopback)
  {
    seq(|nodes|, i requires 0 <= i < |nodes| => Entry(nodes[i].name, nodes[i].loopback))
  }

  class DeviceList {
    var head: Iface?
    // The nodes from the head on, and the devices in the order they were first found.
    ghost var spine: seq<Iface>
    ghost var arrivals: seq<Entry>

    ghost predicate Linked()
      reads this, spine
    {
      && head == (if |spine| == 0 then null else spine[0])
      && (forall i {:trigger spine[i].next} :: 0 <= i < |spine| ==> spine[i].next == if i + 1 < |spine| then spine[i+1] else null)
      && forall i, j :: 0 <= i < j < |spine| ==> spine[i] != spine[j]
    }

    ghost function Contents(): seq<Entry>
      reads this
    {
      Entries(spine)
    }

    /** Linked, each name once, and in the stable order of arrival. */
    ghost predicate Valid()
      reads this, spine
    {
      Linked() && NamesUnique(Contents()) && StableSort(arrivals, Contents())
    }

    constructor ()
      ensures Valid() && Contents() == [] && arrivals == []
    {
      head, spine, arrivals := null, [], [];
    }

    /** The node with a given name, if the list has one. */
    method Find(name: string) returns (dev: Iface?)
      requires Linked()
      ensures dev == null ==> forall i :: 0 <= i < |spine| ==> spine[i].name != name
      ensures dev != null ==> dev in spine && dev.name == name
    {
      dev := head;
      ghost var k := 0;
      while dev != null
        invariant 0 <= k <= |spine| && dev == (if k < |spine| then spine[k] else null)
        invariant forall i :: 0 <= i < k ==> spine[i].name != name
        decreases |spine| - k
      {
        if dev.name == name { return; }
        dev, k := dev.next, k + 1;
      }
    }

    /** Where a new device goes: behind prev, before next; prev is null at the front. */
    method Place(e: Entry) returns (prev: Iface?, next: Iface?, ghost k: nat)
      requires Valid()
      ensures k <= |spine| && prev == (if k > 0 then spine[k-1] else null) && next == (if k < |spine| then spine[k] else null)
      ensures forall i :: 0 <= i < k ==> NotAfter(Entries(spine)[i], e)
      ensures k < |spine| ==> !NotAfter(Entries(spine)[k], e)
    {
      hide Instance, Sorted, StableSort, NamesUnique;
      var thisInstance := GetInstance(e.name);
      prev, next, k := null, head, 0;
      while next != null
        invariant 0 <= k <= |spine| && prev == (if k > 0 then spine[k-1] else null) && next == (if k < |spine| then spine[k] else null)
        invariant forall i :: 0 <= i < k ==> NotAfter(Entries(spine)[i], e)
        decreases |spine| - k
      {
        if !e.loopback && next.loopback { return; }
        var instance := GetInstance(next.name);
        if thisInstance < instance && (!e.loopback || next.loopback) { return; }
        assert Entries(spine)[k] == Entry(next.name, next.loopback);
        prev, next, k := next, next.next, k + 1;
      }
    }

    /** Insert dev between prev and next. */
    method Splice(dev: Iface, prev: Iface?, next: Iface?, ghost k: nat)
      requires Linked() && dev !in spine && k <= |spine|
      requires prev == (if k > 0 then spine[k-1] else null) && next == (if k < |spine| then spine[k] else null)
      modifies `head, `spine, dev, spine
      ensures Linked() && spine == old(spine)[..k] + [dev] + old(spine)[k..]
    {
      dev.next := next;
      if prev == null { head := dev; } else { prev.next := dev; }
      spine := spine[..k] + [dev] + spine[k..];
      assert forall i :: 0 <= i < |spine| ==> spine[i] == if i < k then old(spine)[i] else if i == k then dev else old(spine)[i-1];
    }

    /** Find a device, or add it in its place if it can be opened. */
    method AddOrFindIf(name: string, loopback: bool, opens: bool) returns (dev: Iface?)
      requires Valid()
      modifies this, spine
      ensures Valid() && forall i {:trigger spine[i]} :: 0 <= i < |spine| ==> spine[i] in old(spine) || fresh(spine[i])
      ensures (exists i :: 0 <= i < |old(Contents())| && old(Contents())[i].name == name) || !opens ==>
                Contents() == old(Contents()) && arrivals == old(arrivals)
      ensures (forall i :: 0 <= i < |old(Contents())| ==> old(Contents())[i].name != name) && opens ==>
                arrivals == old(arrivals) + [Entry(name, loopback)]
      ensures dev != null ==> dev in spine && dev.name == name
      ensures dev == null ==> !opens && forall i :: 0 <= i < |Contents()| ==> Contents()[i].name != name
    {
      hide Instance, Sorted, StableSort, NamesUnique, NotAfter;
      dev := Find(name);
      if dev != null || !opens {
        if dev != null {
          ghost var i :| 0 <= i < |spine| && spine[i] == dev;
          assert Contents()[i].name == name;
        }
        return;
      }
      var e := Entry(name, loopback);
      ghost var was := Entries(spine);
      dev := new Iface(name, loopback);
      var prev, next, k := Place(e);
      Splice(dev, prev, next, k);
      arrivals := arrivals + [e];
      EntriesInserted(old(spine), dev, k, spine);
      InsertUnique(was, e, k);
      InsertStable(old(arrivals), was, e, k);
    }

    /** pcap_lookupdev: the first device, unless it is a loopback. */
    method LookupDev() returns (name: string, found: bool)
      requires Valid()
      ensures found <==> exists i :: 0 <= i < |Contents()| && !Contents()[i].loopback
      ensures found ==> exists i {:trigger Contents()[i]} :: 0 <= i < |Contents()| && Contents()[i] == Entry(name, false)
      ensures found ==> forall i {:trigger arrivals[i]} :: 0 <= i < |arrivals| && !arrivals[i].loopback ==> Instance(name) <= Instance(arrivals[i].name)
      ensures found ==> FirstOfKey(arrivals, Entry(name, false))
      ensures found && name == "any" ==> forall i {:trigger arrivals[i]} :: 0 <= i < |arrivals| && !arrivals[i].loopback ==>
        (NoDigits(arrivals[i].name) ==> arrivals[i].name == "any")
        && forall word: string, n: nat {:trigger word + Decimal(n)} :: NoDigits(word) && arrivals[i].name == word + Decimal(n) ==> n >= INT_MAX
    {
      hide Instance;
      ghost var es := Contents();
      if head == null || head.loopback {
        if head != null { assert es[0].loopback; }
        return "", false;
      }
      name, found := head.name, true;
      assert es[0] == Entry(name, false);
      FirstArrived(arrivals, es);
      forall i | 0 <= i < |arrivals| && !arrivals[i].loopback ensures Instance(name) <= Instance(arrivals[i].name) {
        Kept(arrivals, es, arrivals[i]);
      }
      if name == "any" {
        forall i | 0 <= i < |arrivals| && !arrivals[i].loopback
          ensures (NoDigits(arrivals[i].name) ==> arrivals[i].name == "any")
          ensures forall word: string, n: nat {:trigger word + Decimal(n)} :: NoDigits(word) && arrivals[i].name == word + Decimal(n) ==> n >= INT_MAX
        {
          AnyBehind(arrivals[i].name);
        }
      }
    }

    /** Any sequence of finds and additions: the devices that open are added, each name once, in the order they come. */
    method FindAll(requests: seq<(string, bool, bool)>)
      requires Valid()
      modifies this, spine
      ensures Valid() && arrivals == Added(old(arrivals), requests)
    {
      var i := 0;
      assert requests[..0] == [];
      while i < |requests|
        invariant 0 <= i <= |requests| && Valid() && arrivals == Added(old(arrivals), requests[..i])
        invariant forall j {:trigger spine[j]} :: 0 <= j < |spine| ==> spine[j] in old(spine) || fresh(spine[j])
      {
        SameNames(arrivals, Contents(), requests[i].0);
        var _ := AddOrFindIf(requests[i].0, requests[i].1, requests[i].2);
        assert requests[..i+1][..i] == requests[..i];
        i := i + 1;
      }
      assert requests[..i] == requests;
    }
  }

  lemma {:induction false} EntriesInserted(spine: seq<Iface>, dev: Iface, k: nat, spine2: seq<Iface>)
    requires k <= |spine| && spine2 == spine[..k] + [dev] + spine[k..]
    ensures Entries(spine2) == Entries(spine)[..k] + [Entry(dev.name, dev.loopback)] + Entries(spine)[k..]
  {
  }

  predicate Named(es: seq<Entry>, name: string) { exists i :: 0 <= i < |es| && es[i].name == name }

  /** The devices known after some requests, in order of arrival. */
  function Added(arrivals: seq<Entry>, requests: seq<(string, bool, bool)>): seq<Entry> {
    if |requests| == 0 then arrivals
    else
      var n := |requests| - 1;
      var before, r := Added(arrivals, requests[..n]), requests[n];
      if r.2 && !Named(before, r.0) then before + [Entry(r.0, r.1)] else before
  }

  lemma {:induction false} SameNames(arrivals: seq<Entry>, es: seq<Entry>, name: string)
    requires StableSort(arrivals, es)
    ensures Named(arrivals, name) <==> Named(es, name)
  {
    hide StableSort;
    if Named(arrivals, name) {
      var i :| 0 <= i < |arrivals| && arrivals[i].name == name;
      Kept(arrivals, es, arrivals[i]);
    }
    if Named(es, name) {
      var i :| 0 <= i < |es| && es[i].name == name;
      Kept(arrivals, es, es[i]);
    }
  }

  /** No earlier arrival ranks equal to e. */
  predicate FirstOfKey(arrivals: seq<Entry>, e: Entry) {
    exists i :: 0 <= i < |arrivals| && arrivals[i] == e && forall j :: 0 <= j < i ==> !SameKey(arrivals[j], e)
  }

  lemma {:induction false} FirstEqual(es: seq<Entry>, e: Entry)
    requires |Equals(es, e)| > 0 && Equals(es, e)[0] == e
    ensures FirstOfKey(es, e)
  {
    hide Instance;
    if SameKey(es[0], e) {
      assert es[0] == e;
    } else {
      FirstEqual(es[1..], e);
      var i :| 0 <= i < |es[1..]| && es[1..][i] == e && forall j :: 0 <= j < i ==> !SameKey(es[1..][j], e);
      assert es[i+1] == e;
      forall j | 0 <= j < i + 1 ensures !SameKey(es[j], e) {
        if j > 0 { assert es[1..][j-1] == es[j]; }
      }
    }
  }

  /** The first device of the list arrived before all of its rank. */
  lemma {:induction false} FirstArrived(arrivals: seq<Entry>, es: seq<Entry>)
    requires StableSort(arrivals, es) && |es| > 0
    ensures FirstOfKey(arrivals, es[0])
  {
    hide Instance;
    assert Equals(es, es[0])[0] == es[0];
    FirstEqual(arrivals, es[0]);
  }

  /** Every arrival is on the list. */
  lemma {:induction false} Kept(arrivals: seq<Entry>, es: seq<Entry>, x: Entry)
    requires StableSort(arrivals, es)
    ensures x in arrivals <==> x in es
  {
    hide Instance, Equals;
    EqualsMember(arrivals, x, x);
    EqualsMember(es, x, x);
  }
}
