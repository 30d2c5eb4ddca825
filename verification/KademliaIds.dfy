/** Identifiers of 256 bits, their exclusive-or distance and the bucket index it gives.
    Bit i of an identifier is the one worth 2 to the i. */
module KademliaIds {
  const BITS: nat := 256

  type Id = s: seq<bool> | |s| == BITS witness seq(BITS, _ => false)

  function Xor(a: Id, b: Id): (x: Id)
    ensures forall i | 0 <= i < BITS :: x[i] == (a[i] != b[i])
  {
    seq(BITS, i requires 0 <= i < BITS => a[i] != b[i])
  }

  function Pow2(n: nat): (p: nat)
    ensures p >= 1
  {
    if n == 0 then 1 else 2 * Pow2(n - 1)
  }

  /** The number the low n bits stand for. */
  function Value(s: Id, n: nat): nat
    requires n <= BITS
  {
    if n == 0 then 0 else Value(s, n - 1) + if s[n - 1] then Pow2(n - 1) else 0
  }

  /** Distances are compared as numbers. */
  function Distance(id: Id, target: Id): nat {
    var x := Xor(id, target);
    Value(x, |x|)
  }

  /** The identifier at this distance. */
  function DistanceFrom(id: Id, distance: Id): Id {
    Xor(id, distance)
  }

  lemma {:induction false} ValueBound(s: Id, n: nat)
    requires n <= BITS
    ensures Value(s, n) < Pow2(n)
  {
    if n > 0 {
      ValueBound(s, n - 1);
    }
  }

  /** The highest bit in which two numbers differ decides their order. */
  lemma {:induction false} HighestBitDecides(a: Id, b: Id, n: nat, k: nat)
    requires k < n <= BITS && !a[k] && b[k]
    requires forall j | k < j < n :: a[j] == b[j]
    ensures Value(a, n) < Value(b, n)
  {
    if k == n - 1 {
      ValueBound(a, n - 1);
    } else {
      HighestBitDecides(a, b, n - 1, k);
    }
  }

  /** The highest bit below n in which two identifiers differ; n when there is none. */
  function HighestDifference(a: Id, b: Id, n: nat): (k: nat)
    requires n <= BITS
    ensures k <= n
    ensures k < n ==> a[k] != b[k] && forall j | k < j < n :: a[j] == b[j]
    ensures k == n ==> forall j | 0 <= j < n :: a[j] == b[j]
  {
    if n == 0 then 0
    else if a[n - 1] != b[n - 1] then n - 1
    else
      var k := HighestDifference(a, b, n - 1);
      if k == n - 1 then n else k
  }

  /** Numbers are equal only if all their bits are. */
  lemma ValueInjective(a: Id, b: Id)
    requires Value(a, |a|) == Value(b, |b|)
    ensures a == b
  {
    var k := HighestDifference(a, b, |a|);
    if k < BITS {
      if a[k] {
        HighestBitDecides(b, a, |a|, k);
      } else {
        HighestBitDecides(a, b, |a|, k);
      }
    }
  }

  /** No two identifiers are equally far from a target. */
  lemma DistanceInjective(a: Id, b: Id, target: Id)
    ensures Distance(a, target) == Distance(b, target) <==> a == b
  {
    if Distance(a, target) == Distance(b, target) {
      ValueInjective(Xor(a, target), Xor(b, target));
      assert forall i | 0 <= i < BITS :: Xor(a, target)[i] == Xor(b, target)[i];
    }
  }

  /** Going from an identifier by a distance and measuring back gives that distance. */
  lemma DistanceInversion(id: Id, distance: Id)
    ensures Xor(id, DistanceFrom(id, distance)) == distance
    ensures Distance(id, DistanceFrom(id, distance)) == Value(distance, |distance|)
  {
    assert Xor(id, DistanceFrom(id, distance)) == distance;
  }

  /** The bucket of an identifier: the highest set bit of its distance. */
  function Index(origin: Id, target: Id): (i: nat)
    requires origin != target
    ensures i < BITS && Xor(origin, target)[i]
    ensures forall j | i < j < BITS :: !Xor(origin, target)[j]
  {
    HighestDifference(origin, target, |origin|)
  }

  /** There is one bucket only in which an identifier can be. */
  lemma IndexUnique(origin: Id, target: Id, i: nat)
    requires i < BITS && Xor(origin, target)[i] && forall j | i < j < BITS :: !Xor(origin, target)[j]
    ensures origin != target && Index(origin, target) == i
  {
    assert origin[i] != target[i];
  }

  /** A distance below 2^(i+1) and not below 2^i, whatever its lower bits, leads to bucket i. */
  lemma RandomDistanceIndex(origin: Id, distance: Id, i: nat)
    requires i < 256 && Pow2(i) <= Value(distance, 256) < Pow2(i + 1)
    ensures
      var target := DistanceFrom(origin, distance);
      origin != target && Index(origin, target) == i
  {
    var target := DistanceFrom(origin, distance);
    DistanceInversion(origin, distance);
    var zero := seq(BITS, _ => false);
    var k := HighestDifference(distance, zero, |distance|);
    if k < BITS {
      TopBitValue(distance, k, |distance|);
      if k < i { Pow2Monotone(k + 1, i); }
      if i < k { Pow2Monotone(i + 1, k); }
      IndexUnique(origin, target, k);
    } else {
      ClearValue(distance, |distance|);
    }
  }

  lemma {:induction false} TopBitValue(s: Id, k: nat, n: nat)
    requires k < n <= BITS && s[k] && forall j | k < j < n :: !s[j]
    ensures Pow2(k) <= Value(s, n) < Pow2(k + 1)
  {
    if k < n - 1 {
      TopBitValue(s, k, n - 1);
    } else {
      ValueBound(s, n);
    }
  }

  lemma {:induction false} Pow2Monotone(a: nat, b: nat)
    requires a <= b
    ensures Pow2(a) <= Pow2(b)
  {
    if a < b {
      Pow2Monotone(a, b - 1);
    }
  }

  lemma {:induction false} ClearValue(s: Id, n: nat)
    requires n <= BITS && forall j | 0 <= j < n :: !s[j]
    ensures Value(s, n) == 0
  {
    if n > 0 {
      ClearValue(s, n - 1);
    }
  }
}
