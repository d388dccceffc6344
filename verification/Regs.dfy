/** The scratch-register allocator used while compiling arithmetic. */
module Regs {
  import opened Bpf

  ghost const ALL: set<nat> := set r: nat | r < BPF_MEMWORDS

  // The register i places after the first.
  function Around(first: nat, i: nat): nat { (first + i) % BPF_MEMWORDS }

  class Registers {
    var regused: array<bool>
    var curreg: nat

    ghost predicate Valid()
      reads this, regused
    {
      regused.Length == BPF_MEMWORDS && curreg < BPF_MEMWORDS
    }

    /** The registers in use. */
    ghost function Used(): (u: set<nat>)
      reads this, regused
      ensures forall r :: r in u <==> 0 <= r < regused.Length && regused[r]
    {
      set r: nat | r < regused.Length && regused[r]
    }

    constructor ()
      ensures Valid() && fresh(regused) && Used() == {}
    {
      regused := new bool[BPF_MEMWORDS](_ => false);
      curreg := 0;
    }

    /** The next free register, searching round the table from the current one; fails only when all are in use. */
    method AllocReg() returns (ok: bool, r: nat)
      requires Valid()
      modifies this`curreg, regused
      ensures Valid()
      ensures ok <==> old(Used()) != ALL
      ensures ok ==> r < BPF_MEMWORDS && r !in old(Used()) && Used() == old(Used()) + {r} && curreg == r
      ensures ok ==> exists n: nat :: n < BPF_MEMWORDS && r == Around(old(curreg), n) && forall i: nat :: i < n ==> Around(old(curreg), i) in old(Used())
      ensures !ok ==> Used() == old(Used())
    {
      var n: int := BPF_MEMWORDS;
      ghost var first := curreg;
      while n > 0
        invariant 0 <= n <= BPF_MEMWORDS && curreg == Around(first, BPF_MEMWORDS - n)
        invariant regused[..] == old(regused[..])
        invariant forall i :: 0 <= i < BPF_MEMWORDS - n ==> regused[Around(first, i)]
      {
        n := n - 1;
        if regused[curreg] {
          curreg := (curreg + 1) % BPF_MEMWORDS;
        } else {
          assert curreg in ALL;
          ghost var k: nat := BPF_MEMWORDS - n - 1;
          assert curreg == Around(first, k) && forall i: nat :: i < k ==> Around(first, i) in old(Used());
          regused[curreg] := true;
          return true, curreg;
        }
      }
      forall k | 0 <= k < BPF_MEMWORDS ensures regused[k] {
        var i := if first <= k then k - first else k + BPF_MEMWORDS - first;
        assert Around(first, i) == k;
        assert regused[Around(first, i)];
      }
      return false, 0;
    }

    method FreeReg(r: nat)
      requires Valid() && r < BPF_MEMWORDS
      modifies regused
      ensures Valid() && Used() == old(Used()) - {r}
    {
      regused[r] := false;
    }
  }
}
