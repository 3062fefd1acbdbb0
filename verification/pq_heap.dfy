// A binary min-heap that sifts a hole: entries move into the hole one at a time and the
// element is written last.
module PqHeap {
  datatype Entry = Entry(key: int, item: int)

  // PQ_COMPARE: a must sit below b.
  predicate After(a: Entry, b: Entry) {
    a.key > b.key
  }

  function Parent(i: nat): nat
    requires i > 0
  {
    (i - 1) / 2
  }

  lemma ParentOf(i: nat)
    requires i > 0
    ensures Parent(i) < i && (i == 2 * Parent(i) + 1 || i == 2 * Parent(i) + 2)
  {
  }

  lemma ChildOf(i: nat)
    ensures Parent(2 * i + 1) == i && Parent(2 * i + 2) == i
  {
  }

  ghost predicate Ordered(t: seq<Entry>, k: nat)
    requires 0 < k < |t|
  {
    ParentOf(k);
    t[Parent(k)].key <= t[k].key
  }

  ghost predicate IsHeap(t: seq<Entry>) {
    forall k :: 0 < k < |t| ==> Ordered(t, k)
  }

  // ----- sifting -----

  // Move the hole at i up until e may fill it: the entries, and where the hole ends.
  function SiftUp(s: seq<Entry>, i: nat, e: Entry): (r: (seq<Entry>, nat))
    requires i < |s|
    ensures |r.0| == |s| && r.1 < |s|
    decreases i
  {
    if i > 0 && After(s[ParentAt(i)], e) then SiftUp(s[i := s[ParentAt(i)]], ParentAt(i), e) else (s, i)
  }

  function ParentAt(i: nat): (p: nat)
    requires i > 0
    ensures p < i && p == Parent(i)
  {
    ParentOf(i);
    Parent(i)
  }

  // The child of i that belongs higher.
  function Child(s: seq<Entry>, i: nat): (c: nat)
    requires 2 * i + 1 < |s|
    ensures i < c < |s| && (c == 2 * i + 1 || c == 2 * i + 2)
  {
    if 2 * i + 2 < |s| && After(s[2 * i + 1], s[2 * i + 2]) then 2 * i + 2 else 2 * i + 1
  }

  function SiftDown(s: seq<Entry>, i: nat, e: Entry): (r: (seq<Entry>, nat))
    requires i < |s|
    ensures |r.0| == |s| && r.1 < |s|
    decreases |s| - i
  {
    if 2 * i + 1 >= |s| || !After(e, s[Child(s, i)]) then (s, i)
    else SiftDown(s[i := s[Child(s, i)]], Child(s, i), e)
  }

  // The hole filled.
  function Fill(r: (seq<Entry>, nat), e: Entry): seq<Entry>
    requires r.1 < |r.0|
  {
    r.0[r.1 := e]
  }

  lemma SwapKeepsBag(s: seq<Entry>, i: nat, j: nat, e: Entry)
    requires i < |s| && j < |s| && i != j
    ensures multiset(s[i := s[j]][j := e]) == multiset(s[i := e])
  {
    var t := s[i := e];
    assert s[i := s[j]][j := e] == t[i := t[j]][j := t[i]];
  }

  // ----- sifting up -----

  // With e in the hole everything is in order, except perhaps the hole and its parent; and
  // what hangs below the hole may hang below its parent too.
  ghost predicate UpReady(s: seq<Entry>, i: nat, e: Entry)
    requires i < |s|
  {
    var t := s[i := e];
    && (forall k :: 0 < k < |t| && k != i ==> Ordered(t, k))
    && (i > 0 ==> forall k :: 0 < k < |t| && Parent(k) == i ==> s[ParentAt(i)].key <= t[k].key)
  }

  lemma UpStep(s: seq<Entry>, i: nat, e: Entry)
    requires 0 < i < |s| && UpReady(s, i, e) && After(s[ParentAt(i)], e)
    ensures UpReady(s[i := s[ParentAt(i)]], ParentAt(i), e)
  {
    var p := ParentAt(i);
    var t, s' := s[i := e], s[i := s[p]];
    var t' := s'[p := e];
    forall k | 0 < k < |t'| && k != p ensures Ordered(t', k) {
      ParentOf(k);
      if k != i { assert Ordered(t, k); }
    }
    if p > 0 {
      forall k | 0 < k < |t'| && Parent(k) == p ensures s'[ParentAt(p)].key <= t'[k].key {
        ParentOf(k);
        assert Ordered(t, p);
        if k != i { assert Ordered(t, k); }
      }
    }
  }

  lemma {:induction false} SiftUpHeap(s: seq<Entry>, i: nat, e: Entry)
    requires i < |s| && UpReady(s, i, e)
    ensures IsHeap(Fill(SiftUp(s, i, e), e))
    ensures multiset(Fill(SiftUp(s, i, e), e)) == multiset(s[i := e])
    decreases i
  {
    hide After;
    if i > 0 && After(s[ParentAt(i)], e) {
      UpStep(s, i, e);
      SwapKeepsBag(s, i, ParentAt(i), e);
      SiftUpHeap(s[i := s[ParentAt(i)]], ParentAt(i), e);
    } else {
      UpDone(s, i, e);
    }
  }

  lemma UpDone(s: seq<Entry>, i: nat, e: Entry)
    requires i < |s| && UpReady(s, i, e) && (i > 0 ==> !After(s[ParentAt(i)], e))
    ensures IsHeap(s[i := e])
  {
  }

  // ----- sifting down -----

  // With e in the hole everything is in order, except perhaps the hole and its children.
  ghost predicate DownReady(s: seq<Entry>, i: nat, e: Entry)
    requires i < |s|
  {
    var t := s[i := e];
    && (forall k :: 0 < k < |t| && Parent(k) != i ==> Ordered(t, k))
    && (i > 0 ==> forall k :: 0 < k < |t| && Parent(k) == i ==> s[ParentAt(i)].key <= s[k].key)
  }

  lemma DownStep(s: seq<Entry>, i: nat, e: Entry)
    requires 2 * i + 1 < |s| && DownReady(s, i, e) && After(e, s[Child(s, i)])
    ensures DownReady(s[i := s[Child(s, i)]], Child(s, i), e)
  {
    var c := Child(s, i);
    var t, s' := s[i := e], s[i := s[c]];
    var t' := s'[c := e];
    ChildOf(i);
    forall k | 0 < k < |t'| && Parent(k) != c ensures Ordered(t', k) {
      ParentOf(k);
      if Parent(k) == i {
        assert s[c].key <= s[k].key by { ParentOf(k); }
      } else {
        assert Ordered(t, k);
      }
    }
    forall k | 0 < k < |t'| && Parent(k) == c ensures s'[ParentAt(c)].key <= s'[k].key {
      ParentOf(k);
      assert Ordered(t, k);
    }
  }

  lemma {:induction false} SiftDownHeap(s: seq<Entry>, i: nat, e: Entry)
    requires i < |s| && DownReady(s, i, e)
    ensures IsHeap(Fill(SiftDown(s, i, e), e))
    ensures multiset(Fill(SiftDown(s, i, e), e)) == multiset(s[i := e])
    decreases |s| - i
  {
    hide After, Child;
    if 2 * i + 1 >= |s| || !After(e, s[Child(s, i)]) {
      DownDone(s, i, e);
    } else {
      DownStep(s, i, e);
      SwapKeepsBag(s, i, Child(s, i), e);
      SiftDownHeap(s[i := s[Child(s, i)]], Child(s, i), e);
    }
  }

  lemma DownDone(s: seq<Entry>, i: nat, e: Entry)
    requires i < |s| && DownReady(s, i, e) && (2 * i + 1 >= |s| || !After(e, s[Child(s, i)]))
    ensures IsHeap(s[i := e])
  {
    var t := s[i := e];
    forall k | 0 < k < |t| ensures Ordered(t, k) {
      ParentOf(k);
    }
  }

  // ----- the queue as a sequence -----

  function Enqueued(s: seq<Entry>, e: Entry): seq<Entry> {
    Fill(SiftUp(s + [e], |s|, e), e)
  }

  // Remove the entry at i: the last one takes its place and is sifted up or down.
  function Removed(s: seq<Entry>, i: nat): seq<Entry>
    requires i < |s|
  {
    var n := |s| - 1;
    if i == n then s[..n] else Replaced(s[..n], i, s[n])
  }

  function Replaced(s: seq<Entry>, i: nat, e: Entry): seq<Entry>
    requires i < |s|
  {
    if i > 0 && After(s[ParentAt(i)], e) then Fill(SiftUp(s, i, e), e) else Fill(SiftDown(s, i, e), e)
  }

  // Adding keeps the order and adds exactly the one entry.
  lemma EnqueuedHeap(s: seq<Entry>, e: Entry)
    requires IsHeap(s)
    ensures IsHeap(Enqueued(s, e)) && multiset(Enqueued(s, e)) == multiset(s) + multiset{e}
  {
    hide SiftUp;
    var t := s + [e];
    assert t[|s| := e] == t;
    forall k | 0 < k < |t| && k != |s| ensures Ordered(t, k) {
      ParentOf(k);
      assert Ordered(s, k);
    }
    assert UpReady(t, |s|, e) by {
      forall k | 0 < k < |t| ensures Parent(k) != |s| { ParentOf(k); }
    }
    SiftUpHeap(t, |s|, e);
  }

  lemma PrefixHeap(s: seq<Entry>, n: nat)
    requires IsHeap(s) && n <= |s|
    ensures IsHeap(s[..n])
  {
    forall k | 0 < k < n ensures Ordered(s[..n], k) {
      ParentOf(k);
      assert Ordered(s, k);
    }
  }

  lemma LastMoves(s: seq<Entry>, i: nat)
    requires i < |s| - 1
    ensures multiset(s[..|s| - 1][i := s[|s| - 1]]) == multiset(s) - multiset{s[i]}
  {
    var n := |s| - 1;
    assert s == s[..n] + [s[n]];
    assert multiset(s) == multiset(s[..n]) + multiset{s[n]};
  }

  // Removing any entry keeps the order and takes away exactly that entry.
  lemma RemovedHeap(s: seq<Entry>, i: nat)
    requires IsHeap(s) && i < |s|
    ensures IsHeap(Removed(s, i)) && multiset(Removed(s, i)) == multiset(s) - multiset{s[i]}
  {
    hide SiftUp, SiftDown;
    var n := |s| - 1;
    var s0, last := s[..n], s[n];
    PrefixHeap(s, n);
    if i == n {
      assert s == s0 + [last];
    } else {
      LastMoves(s, i);
      if i > 0 && After(s[ParentAt(i)], last) {
        assert UpReady(s0, i, last) by { UpFits(s, i); }
        SiftUpHeap(s0, i, last);
      } else {
        assert DownReady(s0, i, last) by { DownFits(s, i); }
        SiftDownHeap(s0, i, last);
      }
    }
  }

  lemma UpFits(s: seq<Entry>, i: nat)
    requires IsHeap(s) && 0 < i < |s| - 1 && After(s[ParentAt(i)], s[|s| - 1])
    ensures UpReady(s[..|s| - 1], i, s[|s| - 1])
  {
    var n := |s| - 1;
    var t := s[..n][i := s[n]];
    assert Ordered(s, i);
    forall k | 0 < k < n && k != i ensures Ordered(t, k) {
      ParentOf(k);
      assert Ordered(s, k);
    }
    forall k | 0 < k < n && Parent(k) == i ensures s[ParentAt(i)].key <= t[k].key {
      ParentOf(k);
      assert Ordered(s, k);
    }
  }

  lemma DownFits(s: seq<Entry>, i: nat)
    requires IsHeap(s) && i < |s| - 1 && (i > 0 ==> !After(s[ParentAt(i)], s[|s| - 1]))
    ensures DownReady(s[..|s| - 1], i, s[|s| - 1])
  {
    var n := |s| - 1;
    var t := s[..n][i := s[n]];
    forall k | 0 < k < n && Parent(k) != i ensures Ordered(t, k) {
      ParentOf(k);
      assert Ordered(s, k);
    }
    if i > 0 {
      assert Ordered(s, i);
      forall k | 0 < k < n && Parent(k) == i ensures s[ParentAt(i)].key <= s[..n][k].key {
        ParentOf(k);
        assert Ordered(s, k);
      }
    }
  }

  // ----- taking everything out -----

  lemma {:induction false} RootLeast(s: seq<Entry>, k: nat)
    requires IsHeap(s) && k < |s|
    ensures s[0].key <= s[k].key
    decreases k
  {
    if k > 0 {
      ParentOf(k);
      assert Ordered(s, k);
      RootLeast(s, Parent(k));
    }
  }

  function Drain(s: seq<Entry>): seq<Entry>
    decreases |s|
  {
    if s == [] then [] else [s[0]] + Drain(Removed(s, 0))
  }

  ghost predicate Sorted(s: seq<Entry>) {
    forall i, j :: 0 <= i < j < |s| ==> s[i].key <= s[j].key
  }

  // Taking out one entry after another yields all of them, lowest key first.
  lemma DrainSorts(s: seq<Entry>)
    requires IsHeap(s)
    ensures Sorted(Drain(s)) && multiset(Drain(s)) == multiset(s)
  {
    hide IsHeap, Sorted;
    DrainBag(s);
    DrainSorted(s);
  }

  lemma {:induction false} DrainBag(s: seq<Entry>)
    requires IsHeap(s)
    ensures multiset(Drain(s)) == multiset(s)
    decreases |s|
  {
    hide Removed, IsHeap;
    if s != [] {
      RemovedHeap(s, 0);
      RemovedLength(s, 0);
      DrainBag(Removed(s, 0));
      assert s[0] in multiset(s);
    }
  }

  lemma {:induction false} DrainSorted(s: seq<Entry>)
    requires IsHeap(s)
    ensures Sorted(Drain(s))
    decreases |s|
  {
    hide Removed, IsHeap, Least;
    if s != [] {
      RemovedHeap(s, 0);
      RemovedLength(s, 0);
      DrainSorted(Removed(s, 0));
      var rest := Drain(Removed(s, 0));
      DrainBag(Removed(s, 0));
      BagLeast(s, rest);
      SortedFront(s[0], rest);
    }
  }

  ghost predicate Least(e: Entry, s: seq<Entry>) {
    forall k :: 0 <= k < |s| ==> e.key <= s[k].key
  }

  lemma RootLeastOfAll(s: seq<Entry>)
    requires IsHeap(s) && s != []
    ensures Least(s[0], s)
  {
    hide IsHeap;
    forall k | 0 <= k < |s| ensures s[0].key <= s[k].key {
      RootLeast(s, k);
    }
  }

  lemma BagLeast(s: seq<Entry>, rest: seq<Entry>)
    requires IsHeap(s) && s != [] && multiset(rest) == multiset(s) - multiset{s[0]}
    ensures Least(s[0], rest)
  {
    hide IsHeap;
    forall j | 0 <= j < |rest| ensures s[0].key <= rest[j].key {
      assert rest[j] in multiset(rest);
      assert rest[j] in multiset(s);
      var k :| 0 <= k < |s| && s[k] == rest[j];
      RootLeast(s, k);
    }
  }

  lemma SortedFront(e: Entry, rest: seq<Entry>)
    requires Least(e, rest) && Sorted(rest)
    ensures Sorted([e] + rest)
  {
  }

  lemma RemovedLength(s: seq<Entry>, i: nat)
    requires i < |s|
    ensures |Removed(s, i)| == |s| - 1
  {
  }

  // ----- the array -----

  class Queue {
    var nr: nat
    const entry: array<Entry>

    ghost predicate Valid()
      reads this, entry
    {
      nr <= entry.Length && IsHeap(entry[..nr])
    }

    ghost function Contents(): seq<Entry>
      requires nr <= entry.Length
      reads this, entry
    {
      entry[..nr]
    }

    constructor (max: nat)
      ensures Valid() && fresh(entry) && entry.Length == max && Contents() == []
    {
      entry := new Entry[max](_ => Entry(0, 0));
      nr := 0;
    }

    method SiftHoleUp(i0: nat, e: Entry) returns (i: nat)
      requires i0 < nr <= entry.Length
      modifies entry
      ensures i < nr && (entry[..nr], i) == SiftUp(old(entry[..nr]), i0, e)
    {
      i := i0;
      while i > 0 && After(entry[ParentAt(i)], e)
        invariant i < nr && SiftUp(entry[..nr], i, e) == SiftUp(old(entry[..nr]), i0, e)
      {
        ghost var was := entry[..nr];
        entry[i] := entry[ParentAt(i)];
        assert entry[..nr] == was[i := was[ParentAt(i)]];
        i := ParentAt(i);
      }
    }

    method SiftHoleDown(i0: nat, e: Entry) returns (i: nat)
      requires i0 < nr <= entry.Length
      modifies entry
      ensures i < nr && (entry[..nr], i) == SiftDown(old(entry[..nr]), i0, e)
    {
      i := i0;
      while 2 * i + 1 < nr
        invariant i < nr && SiftDown(entry[..nr], i, e) == SiftDown(old(entry[..nr]), i0, e)
      {
        var child := 2 * i + 1;
        if child + 1 < nr && After(entry[child], entry[child + 1]) {
          child := child + 1;
        }
        ghost var was := entry[..nr];
        assert child == Child(was, i);
        if !After(e, entry[child]) { return; }
        entry[i] := entry[child];
        assert entry[..nr] == was[i := was[child]];
        i := child;
      }
    }

    method Enqueue(e: Entry) returns (ok: bool)
      requires Valid()
      modifies this`nr, entry
      ensures Valid() && ok == (old(nr) < entry.Length)
      ensures ok ==> Contents() == Enqueued(old(Contents()), e)
      ensures !ok ==> Contents() == old(Contents())
    {
      hide SiftUp, IsHeap;
      if nr >= entry.Length { return false; }
      ghost var was := entry[..nr];
      var i := nr;
      nr := nr + 1;
      EnqueuedAny(was, entry[..nr], e);
      EnqueuedHeap(was, e);
      i := SiftHoleUp(i, e);
      ghost var sifted := entry[..nr];
      entry[i] := e;
      assert entry[..nr] == sifted[i := e];
      ok := true;
    }

    method Remove(i: nat) returns (e: Entry, ok: bool)
      requires Valid()
      modifies this`nr, entry
      ensures Valid() && ok == (i < old(nr))
      ensures ok ==> e == old(entry[i]) && Contents() == Removed(old(Contents()), i)
      ensures !ok ==> Contents() == old(Contents())
    {
      hide Replaced, IsHeap;
      if i >= nr { return Entry(0, 0), false; }
      ghost var was := entry[..nr];
      RemovedHeap(was, i);
      e, ok := entry[i], true;
      nr := nr - 1;
      assert entry[..nr] == was[..nr];
      if i < nr {
        Replace(i, entry[nr]);
      }
    }

    // Put the element where the hole at i leads.
    method Replace(i: nat, last: Entry)
      requires i < nr <= entry.Length
      modifies entry
      ensures entry[..nr] == Replaced(old(entry[..nr]), i, last)
    {
      hide SiftUp, SiftDown;
      var j;
      if i > 0 && After(entry[ParentAt(i)], last) {
        j := SiftHoleUp(i, last);
      } else {
        j := SiftHoleDown(i, last);
      }
      ghost var sifted := entry[..nr];
      entry[j] := last;
      assert entry[..nr] == sifted[j := last];
    }

    method Dequeue() returns (e: Entry, ok: bool)
      requires Valid()
      modifies this`nr, entry
      ensures Valid() && ok == (old(nr) > 0)
      ensures ok ==> e == old(entry[0]) && Least(e, old(Contents())) && Contents() == Removed(old(Contents()), 0)
      ensures !ok ==> Contents() == old(Contents())
    {
      hide IsHeap, Removed, Least;
      ghost var was := entry[..nr];
      if nr > 0 {
        RootLeastOfAll(was);
      }
      e, ok := Remove(0);
    }
  }

  // What lies in the hole does not matter.
  lemma EnqueuedAny(s: seq<Entry>, t: seq<Entry>, e: Entry)
    requires |t| == |s| + 1 && t[..|s|] == s
    ensures Fill(SiftUp(t, |s|, e), e) == Enqueued(s, e)
  {
    hide SiftUp;
    assert s + [e] == t[|s| := e];
    HoleIgnored(t, |s|, e, e);
  }

  lemma {:induction false} HoleIgnored(s: seq<Entry>, i: nat, x: Entry, e: Entry)
    requires i < |s|
    ensures SiftUp(s[i := x], i, e).1 == SiftUp(s, i, e).1
    ensures Fill(SiftUp(s[i := x], i, e), e) == Fill(SiftUp(s, i, e), e)
    decreases i
  {
    if i > 0 && After(s[ParentAt(i)], e) {
      var p := ParentAt(i);
      assert s[i := x][i := s[p]] == s[i := s[p]];
    }
  }
}
