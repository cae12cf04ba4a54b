/** CPU lists as integer bitmasks and back (tuned/utils/commands.py). */
module CpuMask {

  // ----- Bits of natural numbers -----

  function Bit(m: nat, i: nat): bool {
    if i == 0 then m % 2 == 1 else Bit(m / 2, i - 1)
  }

  function Pow2(n: nat): nat {
    if n == 0 then 1 else 2 * Pow2(n - 1)
  }

  /** The bitwise or. */
  function Or(a: nat, b: nat): nat
    decreases a + b
  {
    if a == 0 then b
    else if b == 0 then a
    else 2 * Or(a / 2, b / 2) + (if a % 2 == 1 || b % 2 == 1 then 1 else 0)
  }

  lemma {:induction false} ZeroHasNoBits(i: nat)
    ensures !Bit(0, i)
  {
    if i > 0 { ZeroHasNoBits(i - 1); }
  }

  lemma {:induction false} BitOr(a: nat, b: nat, i: nat)
    ensures Bit(Or(a, b), i) <==> Bit(a, i) || Bit(b, i)
    decreases i
  {
    if a == 0 || b == 0 {
      ZeroHasNoBits(i);
    } else {
      var c := Or(a, b);
      assert c / 2 == Or(a / 2, b / 2) && c % 2 == (if a % 2 == 1 || b % 2 == 1 then 1 else 0);
      if i > 0 { BitOr(a / 2, b / 2, i - 1); }
    }
  }

  lemma {:induction false} BitPow2(n: nat, i: nat)
    ensures Bit(Pow2(n), i) <==> i == n
    decreases i
  {
    if n == 0 {
      if i > 0 { ZeroHasNoBits(i - 1); }
    } else if i > 0 {
      BitPow2(n - 1, i - 1);
    }
  }

  /** A number is determined by its bits. */
  lemma {:induction false} SameBits(a: nat, b: nat)
    requires forall i: nat :: Bit(a, i) <==> Bit(b, i)
    ensures a == b
  {
    if a > 0 || b > 0 {
      assert Bit(a, 0) <==> Bit(b, 0);
      forall i: nat ensures Bit(a / 2, i) <==> Bit(b / 2, i) {
        assert Bit(a, i + 1) <==> Bit(b, i + 1);
      }
      SameBits(a / 2, b / 2);
    }
  }

  // ----- Increasing lists -----

  predicate Increasing(l: seq<nat>) {
    forall i, j :: 0 <= i < j < |l| ==> l[i] < l[j]
  }

  lemma FirstIsIn(l: seq<nat>)
    ensures l == [] || l[0] in l
  {
  }

  /** An increasing list is determined by its elements. */
  lemma {:induction false} IncreasingUnique(a: seq<nat>, b: seq<nat>)
    requires Increasing(a) && Increasing(b) && forall x :: x in a <==> x in b
    ensures a == b
  {
    if a == [] {
      FirstIsIn(b);
    } else {
      assert a[0] in b;
      assert b[0] in a;
      assert a[0] == b[0];
      forall x ensures x in a[1..] <==> x in b[1..] {
        assert x in a[1..] <==> x in a && x != a[0];
        assert x in b[1..] <==> x in b && x != b[0];
      }
      IncreasingUnique(a[1..], b[1..]);
    }
  }

  // ----- bitmask2cpulist and cpulist2bitmask -----

  /** The set bits of the mask, counting from `cpu`. */
  function BitsFrom(mask: nat, cpu: nat): seq<nat> {
    if mask == 0 then []
    else (if mask % 2 == 1 then [cpu] else []) + BitsFrom(mask / 2, cpu + 1)
  }

  function MaskToList(mask: int): seq<nat> {
    if mask <= 0 then [] else BitsFrom(mask, 0)
  }

  function ListToMask(l: seq<nat>): nat {
    if l == [] then 0 else Or(ListToMask(l[..|l| - 1]), Pow2(l[|l| - 1]))
  }

  lemma {:induction false} BitsFromIncreasing(mask: nat, cpu: nat)
    ensures Increasing(BitsFrom(mask, cpu))
    ensures forall i :: 0 <= i < |BitsFrom(mask, cpu)| ==> BitsFrom(mask, cpu)[i] >= cpu
  {
    if mask > 0 { BitsFromIncreasing(mask / 2, cpu + 1); }
  }

  lemma {:induction false} BitsFromHas(mask: nat, cpu: nat, x: nat)
    ensures x in BitsFrom(mask, cpu) <==> x >= cpu && Bit(mask, x - cpu)
  {
    if mask == 0 {
      if x >= cpu { ZeroHasNoBits(x - cpu); }
    } else {
      BitsFromHas(mask / 2, cpu + 1, x);
      assert x in BitsFrom(mask, cpu) <==> (mask % 2 == 1 && x == cpu) || x in BitsFrom(mask / 2, cpu + 1);
      assert x > cpu ==> x - cpu - 1 == x - (cpu + 1);
    }
  }

  /** The list of a mask holds exactly its set bits, in increasing order. */
  lemma MaskToListSpec(mask: nat)
    ensures Increasing(MaskToList(mask))
    ensures forall x :: x in MaskToList(mask) <==> Bit(mask, x)
  {
    BitsFromIncreasing(mask, 0);
    forall x: nat ensures x in MaskToList(mask) <==> Bit(mask, x) { BitsFromHas(mask, 0, x); }
  }

  /** The mask of a list has exactly the listed bits set. */
  lemma {:induction false} ListToMaskSpec(l: seq<nat>, x: nat)
    ensures Bit(ListToMask(l), x) <==> x in l
  {
    if l == [] {
      ZeroHasNoBits(x);
    } else {
      var front, last := l[..|l| - 1], l[|l| - 1];
      ListToMaskSpec(front, x);
      BitOr(ListToMask(front), Pow2(last), x);
      BitPow2(last, x);
      assert l == front + [last];
    }
  }

  /** List to mask to list: the increasing list of the same CPUs. */
  lemma ListMaskList(l: seq<nat>)
    ensures var r := MaskToList(ListToMask(l));
            Increasing(r) && forall x :: x in r <==> x in l
    ensures Increasing(l) ==> MaskToList(ListToMask(l)) == l
  {
    MaskToListSpec(ListToMask(l));
    forall x: nat ensures Bit(ListToMask(l), x) <==> x in l { ListToMaskSpec(l, x); }
    if Increasing(l) { IncreasingUnique(MaskToList(ListToMask(l)), l); }
  }

  /** Mask to list to mask is the identity. */
  lemma MaskListMask(mask: nat)
    ensures ListToMask(MaskToList(mask)) == mask
  {
    MaskToListSpec(mask);
    forall i: nat ensures Bit(ListToMask(MaskToList(mask)), i) <==> Bit(mask, i) {
      ListToMaskSpec(MaskToList(mask), i);
    }
    SameBits(ListToMask(MaskToList(mask)), mask);
  }

  method BitmaskToCpuList(mask: int) returns (cpus: seq<nat>)
    ensures cpus == MaskToList(mask)
    ensures mask >= 0 ==> Increasing(cpus) && forall x :: x in cpus <==> Bit(mask, x)
    ensures mask < 0 ==> cpus == []
  {
    var m, cpu := mask, 0;
    cpus := [];
    while m > 0
      invariant 0 <= cpu && (mask > 0 ==> m >= 0) && (mask <= 0 ==> m == mask && cpus == [])
      invariant mask > 0 ==> cpus + BitsFrom(m, cpu) == BitsFrom(mask, 0)
      decreases m
    {
      if m % 2 == 1 {
        cpus := cpus + [cpu];
      }
      m := m / 2;
      cpu := cpu + 1;
    }
    if mask >= 0 { MaskToListSpec(mask); }
  }

  method CpuListToBitmask(l: seq<nat>) returns (m: nat)
    ensures m == ListToMask(l)
    ensures forall x :: Bit(m, x) <==> x in l
  {
    m := 0;
    for i := 0 to |l|
      invariant m == ListToMask(l[..i])
    {
      assert l[..i + 1][..i] == l[..i];
      m := Or(m, Pow2(l[i]));
    }
    assert l[..|l|] == l;
    forall x: nat ensures Bit(m, x) <==> x in l { ListToMaskSpec(l, x); }
  }
}
