// Decimal numbers as the forms write them: printed digit by digit, parsed strictly.
module AuthText {
  import opened Bytes

  const INT32_MAX := 0x7fff_ffff
  const INT32_MIN := -0x8000_0000
  const MINUS: byte := 45
  const ZERO: byte := 48

  type i32 = x: int | -0x8000_0000 <= x < 0x8000_0000

  predicate IsDigit(c: byte) {
    48 <= c <= 57
  }

  // Most significant digit first.
  function Digits(u: nat): (s: bytes)
    ensures s != []
  {
    if u < 10 then [48 + u] else Digits(u / 10) + [48 + u % 10]
  }

  // The magnitude, computed unsigned so that even the lowest number has one.
  function Magnitude(v: i32): nat {
    if v < 0 then 0 - v as int else v
  }

  function Fmt(v: i32): bytes {
    (if v < 0 then [MINUS] else []) + Digits(Magnitude(v))
  }

  // Overflow is where the program's signed arithmetic would leave 32 bits.
  datatype Parsed = NotANumber | Overflow | Number(v: int)

  function ParseDigits(s: bytes, v: int): Parsed
    decreases |s|
  {
    if s == [] then Number(v)
    else if !IsDigit(s[0]) || v > 214748364 then NotANumber
    else
      var v' := v * 10 + (s[0] as int - 48);
      if v' > INT32_MAX then Overflow else ParseDigits(s[1..], v')
  }

  function Negated(p: Parsed): Parsed {
    if p.Number? then Number(-p.v) else p
  }

  function Parse(s: bytes): Parsed {
    if s != [] && s[0] == MINUS then
      if s[1..] == [] then NotANumber else Negated(ParseDigits(s[1..], 0))
    else if s == [] then NotANumber
    else ParseDigits(s, 0)
  }

  lemma {:induction false} DigitsRead(u: nat, rest: bytes)
    requires u <= INT32_MAX
    ensures ParseDigits(Digits(u) + rest, 0) == ParseDigits(rest, u)
    decreases u
  {
    if u < 10 {
      assert (Digits(u) + rest)[1..] == rest;
    } else {
      var tail := [48 + u % 10] + rest;
      assert Digits(u) + rest == Digits(u / 10) + tail;
      DigitsRead(u / 10, tail);
      assert tail[1..] == rest;
    }
  }

  lemma DigitsTooBig(u: nat)
    requires u == INT32_MAX + 1
    ensures ParseDigits(Digits(u), 0) == Overflow
  {
    DigitsRead(u / 10, [48 + u % 10]);
  }

  lemma {:induction false} FirstIsDigit(u: nat)
    ensures IsDigit(Digits(u)[0]) && forall i :: 0 <= i < |Digits(u)| ==> Digits(u)[i] != 0
    decreases u
  {
    if u >= 10 {
      FirstIsDigit(u / 10);
    }
  }

  // Printing and parsing are inverse for every 32-bit number but the lowest, whose
  // magnitude does not fit while it is being read.
  lemma FmtParses(v: i32)
    ensures Parse(Fmt(v)) == Number(v) <==> v != INT32_MIN
    ensures v == INT32_MIN ==> Parse(Fmt(v)) == Overflow
  {
    hide ParseDigits;
    hide Digits;
    var u := Magnitude(v);
    FirstIsDigit(u);
    assert if v < 0 then Fmt(v)[1..] == Digits(u) else Fmt(v) == Digits(u);
    if v == INT32_MIN {
      DigitsTooBig(u);
    } else {
      DigitsRead(u, []);
      assert Digits(u) + [] == Digits(u);
      assert ParseDigits([], u) == Number(u) by { ParseNothing(u); }
    }
  }

  lemma ParseNothing(v: int)
    ensures ParseDigits([], v) == Number(v)
  {
  }

  // The number these digits stand for, behind v.
  function Value(s: bytes, v: int): int
    decreases |s|
  {
    if s == [] then v else Value(s[1..], v * 10 + (s[0] as int - 48))
  }

  predicate AllDigits(s: bytes) {
    forall i :: 0 <= i < |s| ==> IsDigit(s[i])
  }

  lemma {:induction false} ValueGrows(s: bytes, v: int)
    requires AllDigits(s) && v >= 0
    ensures Value(s, v) >= v && (s != [] ==> Value(s, v) >= 10 * v)
    decreases |s|
  {
    if s != [] {
      ValueGrows(s[1..], v * 10 + (s[0] as int - 48));
    }
  }

  // Digits are read as a number exactly when there is nothing else and it fits 32 bits.
  lemma {:induction false} DigitsIff(s: bytes, v: int)
    requires 0 <= v <= INT32_MAX
    ensures ParseDigits(s, v).Number? <==> AllDigits(s) && Value(s, v) <= INT32_MAX
    ensures ParseDigits(s, v).Number? ==> ParseDigits(s, v).v == Value(s, v)
    decreases |s|
  {
    if s != [] {
      if AllDigits(s) { ValueGrows(s, v); }
      if IsDigit(s[0]) {
        var v' := v * 10 + (s[0] as int - 48);
        assert AllDigits(s) <==> AllDigits(s[1..]) by { assert s == [s[0]] + s[1..]; }
        if v' <= INT32_MAX && v <= 214748364 {
          DigitsIff(s[1..], v');
        } else if AllDigits(s) {
          ValueGrows(s[1..], v');
        }
      }
    }
  }

  // What is read as a number: digits that fit 32 bits, at least one, behind a minus or not.
  lemma ParsesIff(s: bytes)
    ensures var digits := if s != [] && s[0] == MINUS then s[1..] else s;
            && (Parse(s).Number? <==> digits != [] && AllDigits(digits) && Value(digits, 0) <= INT32_MAX)
            && (Parse(s).Number? ==> Parse(s).v == if digits == s then Value(s, 0) else -Value(digits, 0))
  {
    hide ParseDigits, Value;
    DigitsIff(if s != [] && s[0] == MINUS then s[1..] else s, 0);
  }

  // ----- digit by digit -----

  function Reversed(s: bytes): (r: bytes)
    ensures |r| == |s|
  {
    if s == [] then [] else Reversed(s[1..]) + [s[0]]
  }

  lemma {:induction false} ReversedSnoc(s: bytes, c: byte)
    ensures Reversed(s + [c]) == [c] + Reversed(s)
    decreases |s|
  {
    if s == [] {
      assert s + [c] == [c] && [c][1..] == [];
      assert Reversed([c]) == Reversed([]) + [c];
    } else {
      assert (s + [c])[1..] == s[1..] + [c];
      ReversedSnoc(s[1..], c);
    }
  }

  // The digits come out lowest first into a scratch array.
  method LowestFirst(whole: nat) returns (tmp: bytes)
    ensures Reversed(tmp) == Digits(whole)
  {
    var u := whole;
    tmp := [48 + u % 10];
    u := u / 10;
    assert tmp == [] + [48 + whole % 10];
    ReversedSnoc([], 48 + whole % 10);
    while u > 0
      invariant (if u > 0 then Digits(u) else []) + Reversed(tmp) == Digits(whole)
    {
      ReversedSnoc(tmp, 48 + u % 10);
      ghost var was := tmp;
      tmp := tmp + [48 + u % 10];
      assert Digits(u) + Reversed(was) == (if u >= 10 then Digits(u / 10) else []) + ([48 + u % 10] + Reversed(was));
      u := u / 10;
    }
  }

  // And are copied out backwards behind the sign.
  method FmtInt(v: i32) returns (s: bytes)
    ensures s == Fmt(v)
  {
    hide Digits;
    var tmp := LowestFirst(Magnitude(v));
    s := if v < 0 then [MINUS] else [];
    ghost var sign := s;
    var n: nat := |tmp|;
    assert Reversed(tmp[n..]) == [];
    while n > 0
      invariant n <= |tmp| && s == sign + Reversed(tmp[n..])
    {
      n := n - 1;
      assert tmp[n..][1..] == tmp[n + 1..];
      s := s + [tmp[n]];
    }
    assert tmp[0..] == tmp;
  }

  method ParseInt(s: bytes) returns (r: Parsed)
    ensures r == Parse(s)
  {
    var i, neg := 0, false;
    if |s| > 0 && s[0] == MINUS {
      i, neg := 1, true;
    }
    if i == |s| { return NotANumber; }
    var v := 0;
    ghost var from := i;
    while i < |s|
      invariant from <= i <= |s| && ParseDigits(s[i..], v) == ParseDigits(s[from..], 0)
    {
      assert s[i..][1..] == s[i + 1..];
      if !IsDigit(s[i]) || v > 214748364 { return NotANumber; }
      v := v * 10 + (s[i] as int - 48);
      if v > INT32_MAX { return Overflow; }
      i := i + 1;
    }
    assert s[0..] == s;
    r := Number(if neg then -v else v);
  }
}
