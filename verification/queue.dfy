/** Removing every occurrence of one identity from a queue, as
    `Array.prototype.filter` does in `removeFromWaiting`. */
module Queue {

  function Without<T(==)>(q: seq<T>, x: T): (r: seq<T>)
    ensures x !in r
    ensures multiset(r) == multiset(q)[x := 0]
    ensures |r| <= |q|
    ensures x !in q ==> r == q
  {
    if |q| == 0 then []
    else
      assert q == [q[0]] + q[1..];
      if q[0] == x then Without(q[1..], x)
      else [q[0]] + Without(q[1..], x)
  }

  /** Filtering distributes over concatenation: together with the one-element
      case this says the survivors keep their relative order. */
  lemma {:induction false} WithoutAppend<T>(a: seq<T>, b: seq<T>, x: T)
    ensures Without(a + b, x) == Without(a, x) + Without(b, x)
  {
    if |a| == 0 {
      assert a + b == b;
    } else {
      assert (a + b)[1..] == a[1..] + b;
      WithoutAppend(a[1..], b, x);
    }
  }
}
