// The sliding replay window: one 64-bit mask below the highest counter accepted so far.
module CryptoReplay {
  import opened Bytes

  type u64 = x: int | 0 <= x < 0x1_0000_0000_0000_0000

  datatype Replay = Replay(max: u64, window: u64)

  // ----- 64-bit words, bit by bit -----

  function Bit(w: nat, d: nat): bool
    decreases d
  {
    if d == 0 then w % 2 == 1 else Bit(w / 2, d - 1)
  }

  // w << 1, the top bit falling off.
  function Twice(w: u64): u64 {
    if 2 * w < 0x1_0000_0000_0000_0000 then 2 * w else 2 * w - 0x1_0000_0000_0000_0000
  }

  // w << s
  function Shl(w: u64, s: nat): u64 {
    if s == 0 then w else Twice(Shl(w, s - 1))
  }

  // w | (1 << b)
  function WithBit(w: u64, b: nat): u64
    requires b < 64
  {
    if Bit(w, b) then w
    else
      Word();
      RoomForBit(w, b, 64);
      w + Pow2(b)
  }

  lemma Word()
    ensures Pow2(64) == 0x1_0000_0000_0000_0000
  {
    assert Pow2(8) == 0x100;
    PowAdd(8, 8);
    PowAdd(16, 16);
    PowAdd(32, 32);
  }

  lemma {:induction false} PowAdd(m: nat, n: nat)
    ensures Pow2(m + n) == Pow2(m) * Pow2(n)
    decreases n
  {
    if n > 0 {
      PowAdd(m, n - 1);
      assert Pow2(m + n) == 2 * (Pow2(m) * Pow2(n - 1)) == Pow2(m) * (2 * Pow2(n - 1));
    }
  }

  lemma Doubles(n: nat)
    requires n > 0
    ensures Pow2(n) == 2 * Pow2(n - 1)
  {
  }

  lemma Halved(w: nat, h: nat, p: nat, q: nat)
    requires h == w / 2 && h + p < q
    ensures w + 2 * p < 2 * q
  {
  }

  lemma HalfBelow(w: nat, q: nat)
    requires w < 2 * q
    ensures w / 2 < q
  {
  }

  lemma EvenBelow(w: nat, q: nat)
    requires w < 2 * q && w % 2 == 0
    ensures w + 1 < 2 * q
  {
  }

  lemma BitShape(w: nat, b: nat)
    ensures Bit(w, b) == if b == 0 then w % 2 == 1 else Bit(w / 2, b - 1)
  {
  }

  lemma {:induction false} RoomForBit(w: nat, b: nat, n: nat)
    requires b < n && w < Pow2(n) && !Bit(w, b)
    ensures w + Pow2(b) < Pow2(n)
    decreases b
  {
    hide Bit, Pow2;
    Doubles(n);
    BitShape(w, b);
    if b == 0 {
      EvenBelow(w, Pow2(n - 1));
      assert Pow2(0) == 1 by { PowZero(); }
    } else {
      Doubles(b);
      HalfBelow(w, Pow2(n - 1));
      RoomForBit(w / 2, b - 1, n - 1);
      Halved(w, w / 2, Pow2(b - 1), Pow2(n - 1));
    }
  }

  lemma PowZero()
    ensures Pow2(0) == 1
  {
  }

  // Setting a clear bit changes that bit alone.
  lemma {:induction false} AddBit(w: nat, b: nat, d: nat)
    requires !Bit(w, b)
    ensures Bit(w + Pow2(b), d) <==> d == b || Bit(w, d)
    decreases b
  {
    if b == 0 {
      assert (w + 1) / 2 == w / 2;
    } else {
      assert (w + Pow2(b)) / 2 == w / 2 + Pow2(b - 1) && (w + Pow2(b)) % 2 == w % 2;
      if d > 0 {
        AddBit(w / 2, b - 1, d - 1);
      }
    }
  }

  // A power of two above bit d does not reach it.
  lemma {:induction false} HighAway(w: nat, n: nat, d: nat)
    requires d < n
    ensures Bit(w + Pow2(n), d) == Bit(w, d)
    decreases d
  {
    assert (w + Pow2(n)) / 2 == w / 2 + Pow2(n - 1) && (w + Pow2(n)) % 2 == w % 2;
    if d > 0 {
      HighAway(w / 2, n - 1, d - 1);
    }
  }

  lemma TwiceBit(w: u64, d: nat)
    requires d < 64
    ensures Bit(Twice(w), d) <==> d > 0 && Bit(w, d - 1)
  {
    assert Bit(2 * w, d) <==> d > 0 && Bit(w, d - 1);
    if 2 * w >= 0x1_0000_0000_0000_0000 {
      Word();
      HighAway(Twice(w), 64, d);
    }
  }

  lemma {:induction false} ShlBit(w: u64, s: nat, d: nat)
    requires d < 64
    ensures Bit(Shl(w, s), d) <==> s <= d && Bit(w, d - s)
    decreases s
  {
    hide Bit, Twice;
    if s > 0 {
      TwiceBit(Shl(w, s - 1), d);
      if d > 0 {
        ShlBit(w, s - 1, d - 1);
      }
    }
  }

  lemma WithBitBit(w: u64, b: nat, d: nat)
    requires b < 64
    ensures Bit(WithBit(w, b), d) <==> d == b || Bit(w, d)
  {
    hide Bit;
    if !Bit(w, b) {
      AddBit(w, b, d);
    }
  }

  lemma {:induction false} NoBits(d: nat)
    ensures !Bit(0, d)
    decreases d
  {
    if d > 0 {
      NoBits(d - 1);
    }
  }

  // ----- the check -----

  // The mask after moving it up to a new highest counter.
  function Shifted(w: u64, shift: nat): u64 {
    WithBit(if shift >= 64 then 0 else Shl(w, shift), 0)
  }

  function Check(r: Replay, counter: u64): (Replay, bool) {
    if counter == 0 then (r, false)
    else if counter > r.max then (Replay(counter, Shifted(r.window, counter - r.max)), true)
    else
      var diff := r.max - counter;
      if diff >= 64 || Bit(r.window, diff) then (r, false)
      else (r.(window := WithBit(r.window, diff)), true)
  }

  // After the move, bit d speaks of the counter d below the new highest.
  lemma ShiftedBit(w: u64, s: nat, d: nat)
    requires 0 < s && d < 64
    ensures Bit(Shifted(w, s), d) <==> d == 0 || (s <= d && Bit(w, d - s))
  {
    hide Bit, WithBit, Shl;
    if s >= 64 {
      WithBitBit(0, 0, d);
      NoBits(d);
    } else {
      WithBitBit(Shl(w, s), 0, d);
      ShlBit(w, s, d);
    }
  }

  // ----- the set it stands for -----

  // Bit d of the mask is set exactly when the counter d below the highest was accepted.
  ghost predicate Refines(r: Replay, seen: set<u64>) {
    && (forall c :: c in seen ==> 0 < c <= r.max)
    && (r.max == 0 || r.max in seen)
    && forall d: nat :: d < 64 ==> (Bit(r.window, d) <==> r.max - d in seen)
  }

  ghost predicate Acceptable(r: Replay, seen: set<u64>, counter: u64) {
    counter != 0 && counter !in seen && (counter > r.max || r.max - counter < 64)
  }

  // Main result: a counter is accepted exactly when it is nonzero, was never accepted
  // before, and lies above the highest or fewer than 64 below it; and the mask goes on
  // standing for the set of accepted counters.
  lemma CheckRefines(r: Replay, seen: set<u64>, counter: u64)
    requires Refines(r, seen)
    ensures var (r', ok) := Check(r, counter);
            && (ok <==> Acceptable(r, seen, counter))
            && (if ok then Refines(r', seen + {counter}) else r' == r)
  {
    hide Bit, Shifted, WithBit;
    var (r', ok) := Check(r, counter);
    if counter > r.max {
      forall d: nat | d < 64 ensures Bit(r'.window, d) <==> r'.max - d in seen + {counter} {
        ShiftedBit(r.window, counter - r.max, d);
      }
    } else if counter != 0 && r.max - counter < 64 {
      var w := WithBit(r.window, r.max - counter);
      forall d: nat | d < 64 ensures Bit(w, d) <==> r.max - d in seen + {counter} {
        WithBitBit(r.window, r.max - counter, d);
      }
    }
  }

  lemma NothingSeen()
    ensures Refines(Replay(0, 0), {})
  {
    hide Bit;
    forall d: nat | d < 64 ensures !Bit(0, d) {
      NoBits(d);
    }
  }

  // ----- whole runs -----

  // The counters accepted out of a sequence of arrivals, in order.
  function Accepted(r: Replay, arrivals: seq<u64>): seq<u64>
    decreases |arrivals|
  {
    if arrivals == [] then []
    else
      var (r1, ok) := Check(r, arrivals[0]);
      (if ok then [arrivals[0]] else []) + Accepted(r1, arrivals[1..])
  }

  ghost predicate Distinct(s: seq<u64>) {
    forall i, j :: 0 <= i < j < |s| ==> s[i] != s[j]
  }

  // Whatever arrives in whatever order, no counter is accepted twice.
  lemma {:induction false} NeverTwice(r: Replay, seen: set<u64>, arrivals: seq<u64>)
    requires Refines(r, seen)
    ensures var got := Accepted(r, arrivals);
            Distinct(got) && forall i :: 0 <= i < |got| ==> got[i] !in seen && got[i] != 0
    decreases |arrivals|
  {
    hide Refines, Check;
    if arrivals != [] {
      var c := arrivals[0];
      var (r1, ok) := Check(r, c);
      CheckRefines(r, seen, c);
      NeverTwice(r1, if ok then seen + {c} else seen, arrivals[1..]);
    }
  }
}
