// Decoding an encoded form gives the form back, up to what the wire does not carry; and
// the counting pass bounds what the filling pass writes, whatever arrives.
module AuthCodec {
  import opened Bytes
  import opened Wrappers
  import opened Microser
  import opened AuthText
  import opened AuthForm

  // ----- counting bounds filling -----

  ghost predicate Within(w: Filled, fields: nat, errors: nat, options: nat) {
    |w.fields| <= fields && |w.errors| <= errors && w.options <= options
  }

  // No string, however it came about, carries two keys.
  lemma KeysExclude(s: bytes, k: Key, j: Key)
    requires k != j
    ensures !(KeyIs(s, k) && KeyIs(s, j))
  {
    hide KeyText;
    MarksDiffer(k, j);
    KeyMarks(s, k);
    KeyMarks(s, j);
  }

  lemma KeyMarks(s: bytes, k: Key)
    ensures KeyIs(s, k) ==> |s| >= 2 && (s[0], s[1]) == Mark(k)
  {
    hide KeyText;
    if KeyIs(s, k) {
      assert s[0] == s[..|KeyText(k)|][0];
      assert |KeyText(k)| == 2 ==> s[1] == s[..2][1];
    }
  }

  lemma ApplyWithin(w: Filled, s: bytes, r: Rec, c: Counts)
    requires Read(s) == Some(r)
    ensures var one := Count([s]);
            Within(Apply(w, r), |w.fields| + one.fields, |w.errors| + one.errors, w.options + one.options)
  {
    hide KeyIs, Parse, TypeFrom;
    assert [s][1..] == [];
    KeysExclude(s, KOption, KError);
  }

  lemma CountCons(s: bytes, rest: seq<bytes>)
    ensures var one, more, all := Count([s]), Count(rest), Count([s] + rest);
            && all.fields == one.fields + more.fields && all.errors == one.errors + more.errors
            && all.options == one.options + more.options
  {
    hide KeyIs;
    assert ([s] + rest)[1..] == rest && [s][1..] == [];
  }

  // However malformed the strings, the filling pass never writes more fields, errors or
  // options than the counting pass made room for.
  lemma {:induction false} CountBoundsFill(w: Filled, ss: seq<bytes>)
    ensures var c := Count(ss);
            Within(Fill(w, ss), |w.fields| + c.fields, |w.errors| + c.errors, w.options + c.options)
    decreases |ss|
  {
    hide Read, Apply, KeyIs;
    if ss != [] {
      var s, rest := ss[0], ss[1..];
      assert ss == [s] + rest;
      CountCons(s, rest);
      match Read(s)
      case None => CountBoundsFill(w, rest);
      case Some(r) =>
        ApplyWithin(w, s, r, Count([s]));
        CountBoundsFill(Apply(w, r), rest);
    }
  }

  // And so at every string along the way.
  lemma {:induction false} CountPrefix(ss: seq<bytes>, k: nat)
    requires k <= |ss|
    ensures var p, c := Count(ss[..k]), Count(ss);
            p.fields <= c.fields && p.errors <= c.errors && p.options <= c.options
    decreases k
  {
    hide KeyIs;
    if k > 0 {
      CountPrefix(ss[1..], k - 1);
      assert ss[..k] == [ss[0]] + ss[1..][..k - 1] && ss == [ss[0]] + ss[1..];
      CountCons(ss[0], ss[1..][..k - 1]);
      CountCons(ss[0], ss[1..]);
    }
  }

  // ----- records on the wire -----

  ghost function Strings(rs: seq<Rec>): (ss: seq<bytes>)
    ensures |ss| == |rs|
    decreases |rs|
  {
    if rs == [] then [] else [RecText(rs[0])] + Strings(rs[1..])
  }

  lemma UnpackCons(s: bytes, rest: bytes)
    requires |s| <= 0xffff
    ensures var d := Le16(|s|) + s + rest;
            Unpack(d) == if Unpack(rest).None? then None else Some([s] + Unpack(rest).value)
  {
    hide Le16, Get16;
    var d := Le16(|s|) + s + rest;
    assert Le16(|s|) + (s + rest) == d;
    Back16(|s|, s + rest);
    assert d[2..2 + |s|] == s && d[2 + |s|..] == rest;
  }

  // What the sink holds is what was in it and then the records, each behind its length.
  lemma {:induction false} SinkUnpacks(k: Sink, rs: seq<Rec>) returns (tail: bytes)
    requires !PutAll(k, rs).full
    ensures PutAll(k, rs).used == k.used + tail && Unpack(tail) == Some(Strings(rs))
    ensures !k.full
    decreases |rs|
  {
    hide RecText, Le16;
    if rs == [] {
      tail := [];
    } else {
      var more := SinkUnpacks(Put(k, rs[0]), rs[1..]);
      var s := RecText(rs[0]);
      tail := Le16(|s|) + s + more;
      UnpackCons(s, more);
    }
  }

  lemma {:induction false} SinkBounded(k: Sink, rs: seq<Rec>)
    requires |k.used| <= MAX_MSG
    ensures |PutAll(k, rs).used| <= MAX_MSG
    decreases |rs|
  {
    hide RecText;
    if rs != [] {
      SinkBounded(Put(k, rs[0]), rs[1..]);
    }
  }

  // ----- no NUL inside -----

  ghost predicate Clean(s: bytes) {
    forall i :: 0 <= i < |s| ==> s[i] != 0
  }

  ghost predicate CleanText(t: text) {
    t.Some? ==> Clean(t.value)
  }

  lemma {:induction false} CleanUncut(s: bytes, i: nat)
    requires Clean(s) && i <= |s|
    ensures Cuts(s, i) == [s]
    decreases |s| - i
  {
    if i < |s| {
      CleanUncut(s, i + 1);
    }
  }

  ghost predicate CleanRecs(rs: seq<Rec>) {
    forall i :: 0 <= i < |rs| ==> Clean(rs[i].val)
  }

  lemma KeyClean(k: Key)
    ensures Clean(KeyText(k))
  {
  }

  lemma {:induction false} StringsUncut(rs: seq<Rec>)
    requires CleanRecs(rs)
    ensures AllCuts(Strings(rs)) == Strings(rs)
    decreases |rs|
  {
    hide KeyText;
    if rs != [] {
      KeyClean(rs[0].key);
      CleanUncut(RecText(rs[0]), 0);
      StringsUncut(rs[1..]);
      assert Strings(rs)[1..] == Strings(rs[1..]);
    }
  }

  // ----- filling from records -----

  function ApplyAll(w: Filled, rs: seq<Rec>): Filled
    decreases |rs|
  {
    if rs == [] then w else ApplyAll(Apply(w, rs[0]), rs[1..])
  }

  lemma {:induction false} FillIsApply(w: Filled, rs: seq<Rec>)
    ensures Fill(w, Strings(rs)) == ApplyAll(w, rs)
    decreases |rs|
  {
    hide Read, Apply, RecText;
    if rs != [] {
      ReadBack(rs[0]);
      FillIsApply(Apply(w, rs[0]), rs[1..]);
      assert Strings(rs)[1..] == Strings(rs[1..]);
    }
  }

  lemma {:induction false} ApplyJoin(w: Filled, a: seq<Rec>, b: seq<Rec>)
    ensures ApplyAll(w, a + b) == ApplyAll(ApplyAll(w, a), b)
    decreases |a|
  {
    hide Apply;
    if a == [] {
      assert a + b == b;
    } else {
      assert (a + b)[1..] == a[1..] + b;
      ApplyJoin(Apply(w, a[0]), a[1..], b);
    }
  }

  lemma ApplyOne(w: Filled, r: Rec)
    ensures ApplyAll(w, [r]) == Apply(w, r)
  {
    assert [r][1..] == [];
  }

  // ----- one field -----

  // What a field looks like on the other side.
  function Normal(f: Field, errs: seq<Err>): Field {
    f.(texts := f.texts.(error := ErrorOf(f, errs)),
       nums := if Ranged(f) then f.nums else f.nums.(min := 0, max := 0),
       options := if |f.options| <= MAX_OPTIONS then f.options else [])
  }

  // The numbers a field sends can all be printed and read.
  predicate Printable(f: Field) {
    Ranged(f) ==> f.nums.min != INT32_MIN && f.nums.max != INT32_MIN
  }

  // The form so far, ending in this field.
  ghost predicate Ends(w: Filled, f: Field) {
    !w.bad && w.fields != [] && Last(w) == f
  }

  lemma MaybeText(w: Filled, f: Field, k: Key, t: text)
    requires Ends(w, f) && k in {KName, KLabel, KValue, KPattern}
    ensures ApplyAll(w, Maybe(k, t)) == if t.None? then w else WithLast(w, f.(texts := SetText(f.texts, k, t.value)))
  {
    hide Parse, TypeFrom, SetNum;
    if t.Some? {
      ApplyOne(w, Rec(k, t.value));
    }
  }

  lemma TextsRead(w: Filled, f: Field)
    requires Ends(w, NewField(f.kind))
    ensures ApplyAll(w, TextRecs(f)) == WithLast(w, NewField(f.kind).(texts := f.texts.(error := None)))
  {
    hide ApplyAll, Apply, Maybe, WithLast, Last;
    var t, f0 := f.texts, NewField(f.kind);
    var n, l, v, p := Maybe(KName, t.name), Maybe(KLabel, t.label_), Maybe(KValue, t.value), Maybe(KPattern, t.pattern);
    ApplyJoin(w, n + l + v, p);
    ApplyJoin(w, n + l, v);
    ApplyJoin(w, n, l);
    var f1 := f0.(texts := Texts(t.name, None, None, None, None));
    var f2 := f0.(texts := Texts(t.name, t.label_, None, None, None));
    var f3 := f0.(texts := Texts(t.name, t.label_, t.value, None, None));
    var f4 := f0.(texts := Texts(t.name, t.label_, t.value, t.pattern, None));
    SameLast(w, f0);
    TextStep(w, w, f0, f1, KName, t.name);
    TextStep(w, WithLast(w, f1), f1, f2, KLabel, t.label_);
    TextStep(w, WithLast(w, f2), f2, f3, KValue, t.value);
    TextStep(w, WithLast(w, f3), f3, f4, KPattern, t.pattern);
  }

  // One text more, on a form whose last field is written over and over.
  lemma TextStep(w: Filled, w1: Filled, g: Field, h: Field, k: Key, t: text)
    requires !w.bad && w.fields != [] && w1 == WithLast(w, g) && k in {KName, KLabel, KValue, KPattern}
    requires h == if t.None? then g else g.(texts := SetText(g.texts, k, t.value))
    ensures ApplyAll(w1, Maybe(k, t)) == WithLast(w, h)
  {
    hide ApplyAll, Apply, WithLast, Last;
    Rewritten(w, g, h);
    MaybeText(w1, g, k, t);
  }

  // Writing the last field twice is writing it once.
  lemma Rewritten(w: Filled, g: Field, h: Field)
    requires !w.bad && w.fields != []
    ensures Ends(WithLast(w, g), g) && WithLast(WithLast(w, g), h) == WithLast(w, h)
  {
  }

  lemma SameLast(w: Filled, f: Field)
    requires Ends(w, f)
    ensures WithLast(w, f) == w
  {
  }

  lemma NumRead(w: Filled, f: Field, k: Key, v: i32)
    requires Ends(w, f) && k in {KSize, KMaxLen, KMin, KMax} && v != INT32_MIN
    ensures ApplyAll(w, [Num(k, v)]) == WithLast(w, f.(nums := SetNum(f.nums, k, Number(v))))
  {
    hide Parse, Fmt;
    FmtParses(v);
    ApplyOne(w, Num(k, v));
  }

  lemma Keep16(v: u16)
    ensures U16(v) == v
  {
  }

  lemma NumStep(w: Filled, w1: Filled, g: Field, h: Field, k: Key, on: bool, v: i32)
    requires !w.bad && w.fields != [] && w1 == WithLast(w, g) && k in {KSize, KMaxLen, KMin, KMax}
    requires on ==> v != INT32_MIN
    requires h == if on then g.(nums := SetNum(g.nums, k, Number(v))) else g
    ensures ApplyAll(w1, if on then [Num(k, v)] else []) == WithLast(w, h)
  {
    hide ApplyAll, Apply, WithLast, Last, Num;
    Rewritten(w, g, h);
    if on {
      NumRead(w1, g, k, v);
    } else {
      ApplyNone(w1);
    }
  }

  lemma SizesRead(w: Filled, g: Field, n: Nums)
    requires Ends(w, g) && g.nums == NO_NUMS
    ensures ApplyAll(w, (if n.size != 0 then [Num(KSize, n.size)] else []) + (if n.maxlen != 0 then [Num(KMaxLen, n.maxlen)] else []))
         == WithLast(w, g.(nums := Nums(n.size, n.maxlen, 0, 0)))
  {
    hide ApplyAll, Apply, Num, WithLast, Last, U16;
    ApplyJoin(w, if n.size != 0 then [Num(KSize, n.size)] else [], if n.maxlen != 0 then [Num(KMaxLen, n.maxlen)] else []);
    Keep16(n.size);
    Keep16(n.maxlen);
    var g1 := g.(nums := Nums(n.size, 0, 0, 0));
    SameLast(w, g);
    NumStep(w, w, g, g1, KSize, n.size != 0, n.size);
    NumStep(w, WithLast(w, g1), g1, g.(nums := Nums(n.size, n.maxlen, 0, 0)), KMaxLen, n.maxlen != 0, n.maxlen);
  }

  lemma RangeRead(w: Filled, g: Field, n: Nums, on: bool)
    requires !w.bad && w.fields != [] && g.nums == Nums(n.size, n.maxlen, 0, 0)
    requires on ==> n.min != INT32_MIN && n.max != INT32_MIN
    ensures ApplyAll(WithLast(w, g), if on then [Num(KMin, n.min), Num(KMax, n.max)] else [])
         == WithLast(w, if on then g.(nums := n) else g)
  {
    hide ApplyAll, Apply, Num, WithLast, Last, U16;
    var c := if on then [Num(KMin, n.min)] else [];
    var d := if on then [Num(KMax, n.max)] else [];
    assert c + d == if on then [Num(KMin, n.min), Num(KMax, n.max)] else [];
    ApplyJoin(WithLast(w, g), c, d);
    var g3 := if on then g.(nums := Nums(n.size, n.maxlen, n.min, 0)) else g;
    NumStep(w, WithLast(w, g), g, g3, KMin, on, n.min);
    NumStep(w, WithLast(w, g3), g3, if on then g.(nums := n) else g, KMax, on, n.max);
  }

  lemma NumbersRead(w: Filled, g: Field, f: Field)
    requires Ends(w, g) && g.nums == NO_NUMS && Printable(f)
    ensures ApplyAll(w, NumRecs(f)) == WithLast(w, g.(nums := Normal(f, []).nums))
  {
    hide ApplyAll, Apply, Num, WithLast, Last, ErrorOf;
    var n := f.nums;
    var sizes := (if n.size != 0 then [Num(KSize, n.size)] else []) + (if n.maxlen != 0 then [Num(KMaxLen, n.maxlen)] else []);
    ApplyJoin(w, sizes, if Ranged(f) then [Num(KMin, n.min), Num(KMax, n.max)] else []);
    SizesRead(w, g, n);
    RangeRead(w, g.(nums := Nums(n.size, n.maxlen, 0, 0)), n, Ranged(f));
  }

  lemma ApplyNone(w: Filled)
    ensures ApplyAll(w, []) == w
  {
  }

  lemma OptionRead(w: Filled, g: Field, o: bytes)
    requires Ends(w, g) && |g.options| < MAX_OPTIONS
    ensures Apply(w, Rec(KOption, o)) == WithLast(w, g.(options := g.options + [o])).(options := w.options + 1)
  {
  }

  // The form with its last field and its option count replaced.
  function Opted(w: Filled, g: Field, n: nat): Filled
    requires w.fields != []
  {
    WithLast(w, g).(options := n)
  }

  lemma {:induction false} OptionsRead(w: Filled, g: Field, os: seq<bytes>)
    requires Ends(w, g) && |g.options| + |os| <= MAX_OPTIONS
    ensures ApplyAll(w, Options(os)) == Opted(w, g.(options := g.options + os), w.options + |os|)
    decreases |os|
  {
    hide ApplyAll, Apply;
    if os == [] {
      SameLast(w, g);
      ApplyNone(w);
      assert g.options + os == g.options;
    } else {
      var g1 := g.(options := g.options + [os[0]]);
      var w1 := Opted(w, g1, w.options + 1);
      OptionRead(w, g, os[0]);
      OptionsRead(w1, g1, os[1..]);
      ApplyOne(w, Rec(KOption, os[0]));
      ApplyJoin(w, [Rec(KOption, os[0])], Options(os[1..]));
      assert g1.options + os[1..] == g.options + os;
    }
  }

  lemma FlagRead(w: Filled, g: Field, k: Key, on: bool)
    requires Ends(w, g) && (k == KRequired || k == KMulti)
    ensures ApplyAll(w, Marker(k, on)) ==
            if !on then w else WithLast(w, if k == KRequired then g.(required := true) else g.(multi := true))
  {
    hide Parse, TypeFrom, SetNum, SetText;
    if on {
      ApplyOne(w, Rec(k, ONE));
    }
  }

  lemma ErrorApplied(w: Filled, g: Field, v: bytes)
    requires Ends(w, g)
    ensures Apply(w, Rec(KError, v)) ==
            WithLast(w, g.(texts := g.texts.(error := Some(v)))).(errors := w.errors + [Err(g.texts.name, Some(v))])
  {
    hide Parse, TypeFrom, SetNum;
  }

  lemma ErrorRead(w: Filled, g: Field, e: text)
    requires Ends(w, g) && g.texts.error.None?
    ensures ApplyAll(w, Maybe(KError, e)) ==
            WithLast(w, g.(texts := g.texts.(error := e))).(errors := w.errors + ErrorList(g.texts.name, e))
  {
    hide Apply, WithLast, Last, ApplyAll;
    if e.Some? {
      ErrorApplied(w, g, e.value);
      ApplyOne(w, Rec(KError, e.value));
    } else {
      SameLast(w, g);
      ApplyNone(w);
      assert w.errors + [] == w.errors;
    }
  }

  // The entry an error makes in the form's list.
  function ErrorList(name: text, e: text): seq<Err> {
    if e.None? then [] else [Err(name, e)]
  }

  // The form after a whole field: one field, perhaps one error, some options.
  function Added(w: Filled, f: Field, errs: seq<Err>): Filled {
    Filled(w.fields + [Normal(f, errs)], w.errors + ErrorList(f.texts.name, ErrorOf(f, errs)),
           w.options + |Normal(f, errs).options|, false)
  }

  lemma TailRead(w: Filled, g: Field, f: Field, errs: seq<Err>)
    requires Ends(w, g) && g == Normal(f, errs).(required := false, multi := false, texts := f.texts.(error := None), options := [])
    ensures ApplyAll(w, TailRecs(f, errs)) ==
            WithLast(w, Normal(f, errs)).(errors := w.errors + ErrorList(f.texts.name, ErrorOf(f, errs)),
                                          options := w.options + |Normal(f, errs).options|)
  {
    hide ApplyAll, Apply, ErrorOf, Marker, Maybe, Options, WithLast, Last, Opted;
    var os := Normal(f, errs).options;
    var n := w.options + |os|;
    var o := if |f.options| <= MAX_OPTIONS then Options(f.options) else [];
    var r, m, e := Marker(KRequired, f.required), Marker(KMulti, f.multi), Maybe(KError, ErrorOf(f, errs));
    var g1 := g.(options := os);
    var g2 := g1.(required := f.required);
    var g3 := g2.(multi := f.multi);
    ApplyJoin(w, o, r + (m + e));
    assert ApplyAll(w, o) == Opted(w, g1, n) by {
      OptionsRead(w, g, os);
      assert [] + os == os;
      OptionsNone();
    }
    ApplyJoin(Opted(w, g1, n), r, m + e);
    FlagStep(w, g1, g2, n, KRequired, f.required);
    ApplyJoin(Opted(w, g2, n), m, e);
    FlagStep(w, g2, g3, n, KMulti, f.multi);
    OptedLast(w, g3, Normal(f, errs), n);
    ErrorRead(Opted(w, g3, n), g3, ErrorOf(f, errs));
    assert g3.(texts := g3.texts.(error := ErrorOf(f, errs))) == Normal(f, errs);
    OptedShape(w, g3, n);
    OptedShape(w, Normal(f, errs), n);
  }

  lemma FlagStep(w: Filled, g: Field, h: Field, n: nat, k: Key, on: bool)
    requires !w.bad && w.fields != [] && (k == KRequired || k == KMulti)
    requires h == if !on then g else if k == KRequired then g.(required := true) else g.(multi := true)
    ensures ApplyAll(Opted(w, g, n), Marker(k, on)) == Opted(w, h, n)
  {
    hide ApplyAll, Apply, WithLast, Last, Opted, Marker;
    OptedLast(w, g, h, n);
    FlagRead(Opted(w, g, n), g, k, on);
  }

  lemma OptedLast(w: Filled, g: Field, h: Field, n: nat)
    requires !w.bad && w.fields != []
    ensures Ends(Opted(w, g, n), g) && WithLast(Opted(w, g, n), h) == Opted(w, h, n)
  {
  }

  lemma OptedShape(w: Filled, g: Field, n: nat)
    requires w.fields != []
    ensures Opted(w, g, n) == WithLast(w, g).(options := n) && WithLast(w, g).errors == w.errors == Opted(w, g, n).errors
  {
  }

  lemma OptionsNone()
    ensures Options([]) == []
  {
  }

  // ----- types -----

  lemma TypesDiffer(t: byte, u: byte)
    requires TypeName(t).Some? && TypeName(t) == TypeName(u)
    ensures t == u
  {
  }

  lemma {:induction false} TypeFound(t: byte, i: byte)
    requires TypeName(t).Some? && 1 <= i <= t <= 9
    ensures TypeFrom(TypeName(t).value, i) == t
    decreases t - i
  {
    hide TypeName;
    if i < t {
      if TypeName(i) == TypeName(t) { TypesDiffer(t, i); }
      TypeFound(t, i + 1);
    }
  }

  lemma TypeRead(w: Filled, kind: byte)
    requires TypeName(kind).Some? && !w.bad
    ensures Apply(w, Rec(KType, TypeName(kind).value)) == w.(fields := w.fields + [NewField(kind)])
  {
    hide TypeFrom;
    assert 1 <= kind <= 9;
    TypeFound(kind, 1);
  }

  // ----- whole forms -----

  lemma FieldRead(w: Filled, f: Field, errs: seq<Err>)
    requires TypeName(f.kind).Some? && Printable(f) && !w.bad
    ensures ApplyAll(w, FieldRecs(f, errs)) == Added(w, f, errs)
  {
    hide ApplyAll, Apply, TextRecs, NumRecs, TailRecs, TypeName, ErrorOf, Ranged;
    var head := Rec(KType, TypeName(f.kind).value);
    var w0 := w.(fields := w.fields + [NewField(f.kind)]);
    ApplyJoin(w, [head], TextRecs(f) + (NumRecs(f) + TailRecs(f, errs)));
    ApplyOne(w, head);
    TypeRead(w, f.kind);
    ApplyJoin(w0, TextRecs(f), NumRecs(f) + TailRecs(f, errs));
    TextsRead(w0, f);
    var g1 := NewField(f.kind).(texts := f.texts.(error := None));
    Rewritten(w0, g1, g1);
    var w1 := WithLast(w0, g1);
    ApplyJoin(w1, NumRecs(f), TailRecs(f, errs));
    NumbersRead(w1, g1, f);
    var g2 := g1.(nums := Normal(f, errs).nums);
    Rewritten(w0, g1, g2);
    Rewritten(w0, g2, g2);
    TailRead(WithLast(w0, g2), g2, f, errs);
    Rewritten(w0, g2, Normal(f, errs));
  }

  function Normals(fs: seq<Field>, errs: seq<Err>): seq<Field>
    decreases |fs|
  {
    if fs == [] then [] else [Normal(fs[0], errs)] + Normals(fs[1..], errs)
  }

  // The errors as the reader lists them, each with the name of its field.
  function Listed(fs: seq<Field>, errs: seq<Err>): seq<Err>
    decreases |fs|
  {
    if fs == [] then [] else ErrorList(fs[0].texts.name, ErrorOf(fs[0], errs)) + Listed(fs[1..], errs)
  }

  lemma {:induction false} AllRead(w: Filled, fs: seq<Field>, errs: seq<Err>)
    requires Typed(fs) && !w.bad && forall i :: 0 <= i < |fs| ==> Printable(fs[i])
    ensures var w' := ApplyAll(w, AllRecs(fs, errs));
            && w'.fields == w.fields + Normals(fs, errs) && w'.errors == w.errors + Listed(fs, errs) && !w'.bad
    decreases |fs|
  {
    hide ApplyAll, Apply, FieldRecs, TypeName, ErrorOf, ErrorList, Ranged, Normal, Printable;
    if fs == [] {
      ApplyNone(w);
      assert w.fields + [] == w.fields && w.errors + [] == w.errors;
    } else {
      FieldRead(w, fs[0], errs);
      ApplyJoin(w, FieldRecs(fs[0], errs), AllRecs(fs[1..], errs));
      AllRead(Added(w, fs[0], errs), fs[1..], errs);
      Regroup(w.fields, [Normal(fs[0], errs)], Normals(fs[1..], errs));
      Regroup(w.errors, ErrorList(fs[0].texts.name, ErrorOf(fs[0], errs)), Listed(fs[1..], errs));
    }
  }

  lemma Regroup<T>(a: seq<T>, b: seq<T>, c: seq<T>)
    ensures a + b + c == a + (b + c)
  {
  }

  // ----- what the program promises of strings -----

  ghost predicate CleanField(f: Field) {
    && CleanText(f.texts.name) && CleanText(f.texts.label_) && CleanText(f.texts.value)
    && CleanText(f.texts.pattern) && CleanText(f.texts.error)
    && forall i :: 0 <= i < |f.options| ==> Clean(f.options[i])
  }

  // NUL-terminated strings hold no NUL.
  ghost predicate CleanForm(f: Form) {
    && (forall i :: 0 <= i < |f.fields| ==> CleanField(f.fields[i]))
    && (forall i :: 0 <= i < |f.errors| ==> CleanText(f.errors[i].message))
  }

  lemma CleanJoin(a: seq<Rec>, b: seq<Rec>)
    requires CleanRecs(a) && CleanRecs(b)
    ensures CleanRecs(a + b)
  {
  }

  lemma {:induction false} CleanOptions(os: seq<bytes>)
    requires forall i :: 0 <= i < |os| ==> Clean(os[i])
    ensures CleanRecs(Options(os))
    decreases |os|
  {
    hide Clean;
    if os != [] {
      CleanOptions(os[1..]);
    }
  }

  lemma {:induction false} CleanLookup(name: text, errs: seq<Err>)
    requires forall i :: 0 <= i < |errs| ==> CleanText(errs[i].message)
    ensures CleanText(Lookup(name, errs))
    decreases |errs|
  {
    if errs != [] {
      CleanLookup(name, errs[1..]);
    }
  }

  lemma CleanNum(v: i32)
    ensures Clean(Fmt(v))
  {
    hide Digits;
    FirstIsDigit(Magnitude(v));
  }

  lemma CleanNums(f: Field)
    ensures CleanRecs(NumRecs(f))
  {
    hide Fmt, Clean;
    CleanNum(f.nums.size);
    CleanNum(f.nums.maxlen);
    CleanNum(f.nums.min);
    CleanNum(f.nums.max);
  }

  lemma CleanType(t: byte)
    requires TypeName(t).Some?
    ensures Clean(TypeName(t).value)
  {
  }

  lemma CleanTexts(f: Field)
    requires CleanField(f)
    ensures CleanRecs(TextRecs(f))
  {
    hide Clean;
  }

  lemma CleanTail(f: Field, errs: seq<Err>)
    requires CleanField(f) && forall i :: 0 <= i < |errs| ==> CleanText(errs[i].message)
    ensures CleanRecs(TailRecs(f, errs))
  {
    hide Clean, Options, Lookup;
    CleanLookup(f.texts.name, errs);
    CleanOptions(f.options);
    assert Clean(ONE) by { CleanOne(); }
    var o := if |f.options| <= MAX_OPTIONS then Options(f.options) else [];
    var rest := Marker(KRequired, f.required) + (Marker(KMulti, f.multi) + Maybe(KError, ErrorOf(f, errs)));
    assert CleanRecs(rest);
    CleanJoin(o, rest);
  }

  lemma CleanOne()
    ensures Clean(ONE)
  {
  }

  lemma {:induction false} CleanAll(fs: seq<Field>, errs: seq<Err>)
    requires Typed(fs) && (forall i :: 0 <= i < |fs| ==> CleanField(fs[i]))
    requires forall i :: 0 <= i < |errs| ==> CleanText(errs[i].message)
    ensures CleanRecs(AllRecs(fs, errs))
    decreases |fs|
  {
    hide Clean, CleanField, TextRecs, NumRecs, TailRecs, TypeName, CleanRecs;
    if fs == [] {
      assert CleanRecs([]) by { CleanNone(); }
    } else {
      var f := fs[0];
      CleanTexts(f);
      CleanNums(f);
      CleanTail(f, errs);
      CleanAll(fs[1..], errs);
      CleanHead(f.kind);
      CleanJoin(NumRecs(f), TailRecs(f, errs));
      CleanJoin(TextRecs(f), NumRecs(f) + TailRecs(f, errs));
      CleanJoin([Rec(KType, TypeName(f.kind).value)], TextRecs(f) + (NumRecs(f) + TailRecs(f, errs)));
      CleanJoin(FieldRecs(f, errs), AllRecs(fs[1..], errs));
    }
  }

  lemma CleanNone()
    ensures CleanRecs([])
  {
  }

  lemma CleanHead(t: byte)
    requires TypeName(t).Some?
    ensures CleanRecs([Rec(KType, TypeName(t).value)])
  {
    hide TypeName, Clean;
    CleanType(t);
  }

  // ----- counting an encoded form -----

  lemma {:induction false} CountStrings(a: seq<Rec>, b: seq<Rec>)
    ensures Count(Strings(a + b)).fields == Count(Strings(a)).fields + Count(Strings(b)).fields
    decreases |a|
  {
    hide RecText, KeyIs;
    if a == [] {
      assert a + b == b;
    } else {
      assert (a + b)[1..] == a[1..] + b;
      CountStrings(a[1..], b);
      CountCons(RecText(a[0]), Strings(a[1..] + b));
      CountCons(RecText(a[0]), Strings(a[1..]));
    }
  }

  ghost predicate NoType(rs: seq<Rec>) {
    forall i :: 0 <= i < |rs| ==> rs[i].key != KType
  }

  lemma {:induction false} CountNoType(rs: seq<Rec>)
    requires NoType(rs)
    ensures Count(Strings(rs)).fields == 0
    decreases |rs|
  {
    hide RecText, KeyIs;
    if rs != [] {
      OnlyKey(rs[0], KType);
      CountNoType(rs[1..]);
      assert Strings(rs)[1..] == Strings(rs[1..]);
    }
  }

  lemma {:induction false} OptionsNoType(os: seq<bytes>)
    ensures NoType(Options(os))
    decreases |os|
  {
    if os != [] {
      OptionsNoType(os[1..]);
    }
  }

  lemma RestNoType(f: Field, errs: seq<Err>)
    ensures NoType(TextRecs(f) + (NumRecs(f) + TailRecs(f, errs)))
  {
    hide Options, Fmt, NoType;
    OptionsNoType(f.options);
    NoTypeParts(f, errs);
    NoTypeJoin(NumRecs(f), TailRecs(f, errs));
    NoTypeJoin(TextRecs(f), NumRecs(f) + TailRecs(f, errs));
  }

  lemma NoTypeJoin(a: seq<Rec>, b: seq<Rec>)
    requires NoType(a) && NoType(b)
    ensures NoType(a + b)
  {
  }

  lemma NoTypeParts(f: Field, errs: seq<Err>)
    requires NoType(Options(f.options))
    ensures NoType(TextRecs(f)) && NoType(NumRecs(f)) && NoType(TailRecs(f, errs))
  {
    hide Options, Fmt, ErrorOf;
    var rest := Marker(KRequired, f.required) + (Marker(KMulti, f.multi) + Maybe(KError, ErrorOf(f, errs)));
    assert NoType(rest);
    NoTypeJoin(if |f.options| <= MAX_OPTIONS then Options(f.options) else [], rest);
  }

  lemma CountOne(r: Rec)
    requires r.key == KType
    ensures Count(Strings([r])).fields == 1
  {
    hide RecText, KeyIs;
    OnlyKey(r, KType);
    assert Strings([r]) == [RecText(r)] && [RecText(r)][1..] == [];
  }

  // The counting pass finds as many fields as the form has.
  lemma {:induction false} CountAll(fs: seq<Field>, errs: seq<Err>)
    requires Typed(fs)
    ensures Count(Strings(AllRecs(fs, errs))).fields == |fs|
    decreases |fs|
  {
    hide TextRecs, NumRecs, TailRecs, TypeName, Strings, Count, NoType;
    if fs == [] {
      assert Count(Strings([])).fields == 0 by { CountEmpty(); }
    } else {
      var head, rest := Rec(KType, TypeName(fs[0].kind).value), TextRecs(fs[0]) + (NumRecs(fs[0]) + TailRecs(fs[0], errs));
      CountStrings([head] + rest, AllRecs(fs[1..], errs));
      CountStrings([head], rest);
      CountOne(head);
      RestNoType(fs[0], errs);
      CountNoType(rest);
      CountAll(fs[1..], errs);
    }
  }

  lemma CountEmpty()
    ensures Count(Strings([])).fields == 0
  {
  }

  // ----- the message -----

  lemma PartRead(p: Parts, f: field, data: bytes, rest: bytes)
    requires |data| < 0x1_0000
    ensures Split(p, FieldBytes(f, data) + rest) == Split(SetPart(p, f, data), rest)
  {
    hide Le16, Get16, Extent, Payload, Tag, FieldOf, WireOf, SetPart;
    var d := Le16(|data|) + data + rest;
    TagSplits(f, WBYTES);
    PayloadBack(data, rest);
    var m := FieldBytes(f, data) + rest;
    assert m[0] == Tag(f, WBYTES) && m[1..] == d;
  }

  lemma MaybeRead(p: Parts, f: field, t: text, rest: bytes)
    requires t.Some? ==> |t.value| < 0x1_0000
    ensures Split(p, MaybeField(f, t) + rest) == Split(if t.None? then p else SetPart(p, f, t.value), rest)
  {
    hide Split, FieldBytes, SetPart;
    if t.None? {
      assert MaybeField(f, t) + rest == rest;
    } else {
      PartRead(p, f, t.value, rest);
    }
  }

  lemma PartsRead(title: text, note: text, run: bytes)
    requires (title.Some? ==> |title.value| < 0x1_0000) && (note.Some? ==> |note.value| < 0x1_0000) && |run| < 0x1_0000
    ensures Split(Parts(None, None, None), MaybeField(F_TITLE, title) + (MaybeField(F_NOTE, note) + FieldBytes(F_FIELDS, run)))
         == Some(Parts(title, note, Some(run)))
  {
    hide MaybeField, FieldBytes, Split;
    var p0 := Parts(None, None, None);
    MaybeRead(p0, F_TITLE, title, MaybeField(F_NOTE, note) + FieldBytes(F_FIELDS, run));
    var p1 := p0.(title := title);
    MaybeRead(p1, F_NOTE, note, FieldBytes(F_FIELDS, run));
    var p2 := p1.(note := note);
    PartRead(p2, F_FIELDS, run, []);
    assert FieldBytes(F_FIELDS, run) + [] == FieldBytes(F_FIELDS, run);
    assert Split(p2.(run := Some(run)), []) == Some(p2.(run := Some(run))) by { SplitDone(p2.(run := Some(run))); }
  }

  lemma SplitDone(p: Parts)
    ensures Split(p, []) == Some(p)
  {
  }

  lemma {:induction false} ListedBounded(fs: seq<Field>, errs: seq<Err>)
    ensures |Listed(fs, errs)| <= |fs|
    decreases |fs|
  {
    hide ErrorOf;
    if fs != [] {
      ListedBounded(fs[1..], errs);
    }
  }

  // A form as it arrives.
  function NormalForm(f: Form): Form {
    Form(Cut(f.title), Cut(f.note), Normals(f.fields, f.errors), Listed(f.fields, f.errors))
  }

  // What it takes up in the receiving buffer.
  ghost predicate Receivable(f: Form, room: Room)
    requires Typed(f.fields)
  {
    var ss := Strings(AllRecs(f.fields, f.errors));
    Fits(TextSize(Cut(f.title)) + TextSize(Cut(f.note)) + StringsSize(ss), Count(ss), room)
  }

  lemma AlignedIs(n: nat, align: nat)
    requires align > 0
    ensures n <= Aligned(n, align) < n + align && Aligned(n, align) % align == 0
  {
    var q, e := n / align, n % align;
    if e != 0 {
      assert n + (align - e) == align * (q + 1);
      MultipleOf(align, q + 1);
    }
  }

  lemma MultipleOf(a: nat, q: nat)
    requires a > 0
    ensures (a * q) % a == 0
  {
    var r := (a * q) % a;
    assert a * q == a * ((a * q) / a) + r;
    assert a * (q - (a * q) / a) == r;
    NoPart(a, q - (a * q) / a, r);
  }

  lemma NoPart(a: nat, k: int, r: nat)
    requires a > 0 && a * k == r < a
    ensures r == 0
  {
    if k >= 1 {
      MulUp(a, k - 1);
      assert false;
    }
  }

  lemma MulUp(a: nat, k: nat)
    ensures a * (k + 1) >= a
  {
    assert a * (k + 1) == a * k + a;
  }

  // What is counted fits if it does with the most that aligning three arrays can take, and
  // never without the bytes it takes itself.
  lemma FitsBounds(strings: nat, c: Counts, room: Room)
    requires room.align > 0
    ensures var total := strings + c.fields * room.field_ + c.errors * room.error + c.options * room.pointer;
            && (Fits(strings, c, room) ==> total <= room.cap)
            && (total + 3 * (room.align - 1) <= room.cap ==> Fits(strings, c, room))
  {
    hide Aligned;
    CarveBounds(strings, c.fields, room.field_, room);
    var a := if c.fields == 0 then strings else Aligned(strings, room.align) + c.fields * room.field_;
    CarveBounds(a, c.errors, room.error, room);
    var b := if c.errors == 0 then a else Aligned(a, room.align) + c.errors * room.error;
    CarveBounds(b, c.options, room.pointer, room);
  }

  lemma CarveBounds(used: nat, n: nat, size: nat, room: Room)
    requires room.align > 0
    ensures var top := if n == 0 then used else Aligned(used, room.align) + n * size;
            && used + n * size <= top <= used + n * size + room.align - 1
            && (n == 0 || top <= room.cap <==> Carve(used, n, size, room) == Some(top))
            && (Carve(used, n, size, room).Some? ==> Carve(used, n, size, room) == Some(top))
  {
    AlignedIs(used, room.align);
  }

  // ----- when a form encodes -----

  // The bytes of a run of records, each behind its length.
  function RunSize(rs: seq<Rec>): nat {
    if rs == [] then 0 else 2 + |RecText(rs[0])| + RunSize(rs[1..])
  }

  lemma {:induction false} PutAllIff(k: Sink, rs: seq<Rec>)
    requires !k.full && |k.used| <= MAX_MSG
    ensures var k' := PutAll(k, rs);
            && (k'.full <==> |k.used| + RunSize(rs) > MAX_MSG)
            && (!k'.full ==> |k'.used| == |k.used| + RunSize(rs))
    decreases |rs|
  {
    hide RecText;
    if rs != [] {
      var k1 := Put(k, rs[0]);
      if k1.full { FullStays(k1, rs[1..]); } else { PutAllIff(k1, rs[1..]); }
    }
  }

  lemma {:induction false} FullStays(k: Sink, rs: seq<Rec>)
    requires k.full
    ensures PutAll(k, rs).full
    decreases |rs|
  {
    hide RecText;
    if rs != [] {
      FullStays(Put(k, rs[0]), rs[1..]);
    }
  }

  // A title or note that is there, with its tag and length.
  function PartSize(t: text): nat {
    match t
    case None => 0
    case Some(s) => 3 + |s| % 0x1_0000
  }

  // A form is encoded exactly when it has at most 24 fields, all of known types, and what is
  // to be said of it fits 2000 bytes.
  lemma EncodeIff(f: Form)
    ensures Encode(f).Some? <==>
            && |f.fields| <= 24 && Typed(f.fields)
            && 4 + PartSize(f.title) + PartSize(f.note) + RunSize(AllRecs(f.fields, f.errors)) <= 2000
  {
    hide AllRecs, PutAll, RunSize;
    if |f.fields| <= 24 && Typed(f.fields) {
      PutAllIff(Sink([], false), AllRecs(f.fields, f.errors));
    }
  }

  // The strings of a run take, with a NUL each, one byte less than with their length before them.
  lemma {:induction false} UnpackedSize(d: bytes)
    requires Unpack(d).Some?
    ensures StringsSize(Unpack(d).value) + |Unpack(d).value| == |d|
    decreases |d|
  {
    if d != [] {
      UnpackedSize(d[2 + Get16(d)..]);
    }
  }

  function Stored(t: text): nat {
    match t
    case None => 0
    case Some(s) => |s| + 1
  }

  // What decodes has room, and says so of any message at all: for its title and note with
  // their ends, and for every field and error; and there are at most so many of those.
  lemma DecodedFits(msg: bytes, room: Room)
    requires msg != [] && room.align > 0 && Decode(msg, room).Some?
    ensures var f := Decode(msg, room).value;
            && |f.fields| <= MAX_FIELDS && |f.errors| < 0x100
            && Stored(f.title) + Stored(f.note) + |f.fields| * room.field_ <= room.cap
  {
    hide Split, Unpack, AllCuts, Count, Fill, Fits, StringsSize;
    var p := Split(Parts(None, None, None), msg[1..]).value;
    var raw := Unpack(if p.run.Some? then p.run.value else []).value;
    var ss := AllCuts(raw);
    var c, f := Count(ss), Decode(msg, room).value;
    CountBoundsFill(NOTHING, ss);
    FitsBounds(Stored(f.title) + Stored(f.note) + StringsSize(raw), c, room);
    MoreTakesMore(|f.fields|, c.fields, room.field_);
  }

  lemma MoreTakesMore(a: nat, b: nat, k: nat)
    requires a <= b
    ensures a * k <= b * k
  {
    assert b * k == a * k + (b - a) * k;
  }

  // Main result: a form that encodes decodes to its normal form exactly when the receiving
  // buffer has room for it, and is refused otherwise.
  lemma DecodeInvertsEncode(f: Form, room: Room)
    requires CleanForm(f) && Encode(f).Some? && forall i :: 0 <= i < |f.fields| ==> Printable(f.fields[i])
    ensures Typed(f.fields) && Encode(f).value != []
    ensures Decode(Encode(f).value, room) == if Receivable(f, room) then Some(NormalForm(f)) else None
  {
    hide Split, Unpack, AllCuts, Count, Fill, PutAll, Fits, AllRecs, Strings, Normals, Listed, MaybeField, FieldBytes,
         StringsSize, Cut, CleanField, Printable, TypeName, Clean;
    var rs := AllRecs(f.fields, f.errors);
    var k := PutAll(Sink([], false), rs);
    var run := SinkUnpacks(Sink([], false), rs);
    assert k.used == run;
    var msg, ss := Encode(f).value, Strings(rs);
    CutShort(f.title);
    CutShort(f.note);
    assert msg[1..] == MaybeField(F_TITLE, Cut(f.title)) + (MaybeField(F_NOTE, Cut(f.note)) + FieldBytes(F_FIELDS, run));
    PartsRead(Cut(f.title), Cut(f.note), run);
    CleanAll(f.fields, f.errors);
    StringsUncut(rs);
    CountAll(f.fields, f.errors);
    FillIsApply(NOTHING, rs);
    AllRead(NOTHING, f.fields, f.errors);
    ListedBounded(f.fields, f.errors);
    assert [] + Normals(f.fields, f.errors) == Normals(f.fields, f.errors);
    var es := Listed(f.fields, f.errors);
    assert [] + es == es && |es| % 0x100 == |es| && es[..|es|] == es;
  }

  lemma CutShort(t: text)
    ensures Cut(t).Some? ==> |Cut(t).value| < 0x1_0000
  {
  }

  // ----- pass by pass -----

  // Write the records of a form one after the other into a bounded run.
  method PackRecords(rs: seq<Rec>) returns (k: Sink)
    ensures k == PutAll(Sink([], false), rs)
  {
    hide Put;
    k := Sink([], false);
    for i := 0 to |rs|
      invariant PutAll(k, rs[i..]) == PutAll(Sink([], false), rs)
    {
      assert rs[i..][1..] == rs[i + 1..];
      k := Put(k, rs[i]);
    }
  }

  // Take a message apart into title, note and field run.
  method SplitMessage(d: bytes) returns (r: Option<Parts>)
    ensures r == Split(Parts(None, None, None), d)
  {
    hide Extent, Payload, SetPart;
    var p, pos := Parts(None, None, None), 0;
    while pos < |d|
      invariant pos <= |d| && Split(p, d[pos..]) == Split(Parts(None, None, None), d)
    {
      var wire, rest := WireOf(d[pos]), d[pos + 1..];
      assert d[pos..][1..] == rest;
      var n := Extent(rest, wire);
      if n == -1 { return None; }
      if wire == WBYTES {
        p := SetPart(p, FieldOf(d[pos]), Payload(rest));
      }
      assert rest[n..] == d[pos + 1 + n..];
      pos := pos + 1 + n;
    }
    r := Some(p);
  }

  // The strings found so far, in front of those still to come.
  ghost function Joined(ss: seq<bytes>, rest: Option<seq<bytes>>): Option<seq<bytes>> {
    if rest.None? then None else Some(ss + rest.value)
  }

  lemma JoinedMore(ss: seq<bytes>, s: bytes, rest: Option<seq<bytes>>)
    ensures Joined(ss, Joined([s], rest)) == Joined(ss + [s], rest)
  {
    if rest.Some? {
      assert ss + ([s] + rest.value) == ss + [s] + rest.value;
    }
  }

  lemma UnpackStep(d: bytes, pos: nat, n: nat)
    requires pos + 2 + n <= |d| && Get16(d[pos..]) == n
    ensures Unpack(d[pos..]) == Joined([d[pos + 2..pos + 2 + n]], Unpack(d[pos + 2 + n..]))
  {
    hide Get16;
    var rest := d[pos..];
    assert rest[2..2 + n] == d[pos + 2..pos + 2 + n] && rest[2 + n..] == d[pos + 2 + n..];
  }

  lemma UnpackStuck(d: bytes, pos: nat)
    requires pos < |d| && (pos + 2 > |d| || pos + 2 + Get16(d[pos..]) > |d|)
    ensures Unpack(d[pos..]).None?
  {
    hide Get16;
  }

  method UnpackRun(d: bytes) returns (r: Option<seq<bytes>>)
    ensures r == Unpack(d)
  {
    hide Get16, Unpack, Joined;
    var ss, pos := [], 0;
    assert d[0..] == d;
    JoinedNone(Unpack(d));
    while pos < |d|
      invariant pos <= |d| && Joined(ss, Unpack(d[pos..])) == Unpack(d)
    {
      if pos + 2 > |d| || pos + 2 + Get16(d[pos..]) > |d| {
        UnpackStuck(d, pos);
        JoinedStuck(ss);
        return None;
      }
      var n := Get16(d[pos..]);
      UnpackStep(d, pos, n);
      JoinedMore(ss, d[pos + 2..pos + 2 + n], Unpack(d[pos + 2 + n..]));
      ss := ss + [d[pos + 2..pos + 2 + n]];
      pos := pos + 2 + n;
    }
    assert d[pos..] == [];
    UnpackEnd(ss);
    r := Some(ss);
  }

  lemma UnpackEnd(ss: seq<bytes>)
    ensures Joined(ss, Unpack([])) == Some(ss)
  {
    assert ss + [] == ss;
  }

  lemma JoinedStuck(ss: seq<bytes>)
    ensures Joined(ss, None) == None
  {
  }

  lemma JoinedNone(rest: Option<seq<bytes>>)
    ensures Joined([], rest) == rest
  {
    if rest.Some? {
      assert [] + rest.value == rest.value;
    }
  }

  // Read the strings into fields, writing no more than was counted.
  method FillRecords(ss: seq<bytes>) returns (w: Filled)
    ensures w == Fill(NOTHING, ss)
    ensures Within(w, Count(ss).fields, Count(ss).errors, Count(ss).options)
  {
    hide Read, Apply, Count;
    CountBoundsFill(NOTHING, ss);
    w := NOTHING;
    for i := 0 to |ss|
      invariant Fill(w, ss[i..]) == Fill(NOTHING, ss)
    {
      assert ss[i..][1..] == ss[i + 1..];
      match Read(ss[i])
      case None =>
      case Some(r) => w := Apply(w, r);
    }
  }
}
