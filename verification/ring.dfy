// A bounded queue in a fixed buffer with a moving head.
module Rings {
  datatype Ring<T> = Ring(buf: seq<T>, head: nat, count: nat) {
    ghost predicate Valid() {
      |buf| > 0 && head < |buf| && count <= |buf|
    }

    // Where the i-th queued entry sits.
    ghost function At(i: nat): nat {
      if head + i < |buf| then head + i else head + i - |buf|
    }

    ghost function Contents(): (s: seq<T>)
      requires Valid()
      ensures |s| == count
    {
      seq(count, i requires 0 <= i < count => buf[At(i)])
    }

    predicate Full() {
      count >= |buf|
    }

    function Push(x: T): (r: Ring<T>)
      requires Valid() && !Full()
      ensures r.Valid() && |r.buf| == |buf|
      ensures r.Contents() == Contents() + [x]
    {
      WrapOnce(head + count, |buf|);
      var r := Ring(buf[(head + count) % |buf| := x], head, count + 1);
      assert r.Contents() == Contents() + [x];
      r
    }

    function Front(): (x: T)
      requires Valid() && count > 0
      ensures x == Contents()[0]
    {
      buf[head]
    }

    function Pop(): (r: Ring<T>)
      requires Valid() && count > 0
      ensures r.Valid() && |r.buf| == |buf|
      ensures r.Contents() == Contents()[1..]
    {
      WrapOnce(head + 1, |buf|);
      var r := Ring(buf, (head + 1) % |buf|, count - 1);
      assert r.Contents() == Contents()[1..];
      r
    }
  }

  lemma WrapOnce(x: nat, n: nat)
    requires x < 2 * n
    ensures x % n == if x < n then x else x - n
  {
    if x >= n {
      assert x == n * 1 + (x - n);
    }
  }
}
