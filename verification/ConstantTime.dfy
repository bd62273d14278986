/** Equality of byte strings, in a number of rounds that does not depend on where they differ. */
module ConstantTime {
  function ByteAt(s: seq<bv8>, i: nat): bv8 {
    if i < |s| then s[i] else 0
  }

  lemma NoDifference(diff: bv8, x: bv8, y: bv8)
    ensures diff | (x ^ y) == 0 <==> diff == 0 && x == y
  {
  }

  /** Equal exactly when the strings are, after as many rounds as the longer has bytes, wherever they first differ. */
  method ConstantTimeEq(a: seq<bv8>, b: seq<bv8>) returns (equal: bool, ghost rounds: nat)
    ensures equal <==> a == b
    ensures rounds == if |a| < |b| then |b| else |a|
  {
    var diff: bv8 := if |a| != |b| then 1 else 0;
    var longest := if |a| < |b| then |b| else |a|;
    rounds := 0;
    for i := 0 to longest
      invariant diff == 0 <==> |a| == |b| && forall j :: 0 <= j < i ==> ByteAt(a, j) == ByteAt(b, j)
      invariant rounds == i
    {
      var x, y := ByteAt(a, i), ByteAt(b, i);
      NoDifference(diff, x, y);
      diff := diff | (x ^ y);
      rounds := rounds + 1;
    }
    equal := diff == 0;
    assert equal ==> forall j :: 0 <= j < |a| ==> ByteAt(a, j) == a[j] && ByteAt(b, j) == b[j];
  }
}
