// Forms on the wire: a run of length-prefixed strings, each a short key, '=', and a value;
// a record begins wherever the type key appears.
module AuthForm {
  import opened Bytes
  import opened Wrappers
  import opened Microser
  import opened AuthText

  const MAX_FIELDS := 24
  const MAX_OPTIONS := 16
  const MAX_MSG := 2000
  const MSG_FORM: byte := 0x17
  const EQ: byte := 61
  const F_TITLE: field := 1
  const F_NOTE: field := 2
  const F_FIELDS: field := 3

  // ----- a form -----

  type text = Option<bytes>

  datatype Texts = Texts(name: text, label_: text, value: text, pattern: text, error: text)
  datatype Nums = Nums(size: u16, maxlen: u16, min: i32, max: i32)
  datatype Field = Field(kind: byte, required: bool, multi: bool, texts: Texts, nums: Nums, options: seq<bytes>)

  // An error given beside the fields, by the name of the field it is about.
  datatype Err = Err(name: text, message: text)

  datatype Form = Form(title: text, note: text, fields: seq<Field>, errors: seq<Err>)

  const INTEGER: byte := 4

  // The nine field types, 1 to 9, by their names on the wire.
  function TypeName(t: byte): Option<bytes> {
    match t
    case 1 => Some([116, 101, 120, 116])
    case 2 => Some([112, 97, 115, 115, 119, 111, 114, 100])
    case 3 => Some([101, 109, 97, 105, 108])
    case 4 => Some([105, 110, 116, 101, 103, 101, 114])
    case 5 => Some([112, 104, 111, 110, 101])
    case 6 => Some([98, 111, 111, 108])
    case 7 => Some([99, 104, 111, 105, 99, 101])
    case 8 => Some([110, 111, 116, 101])
    case 9 => Some([108, 105, 110, 107])
    case _ => None
  }

  // The type of a name, 0 for none: the first that matches, from t on.
  function TypeFrom(s: bytes, t: byte): byte
    requires 1 <= t <= 10
    decreases 10 - t
  {
    if t == 10 then 0 else if TypeName(t) == Some(s) then t else TypeFrom(s, t + 1)
  }

  // ----- keys -----

  datatype Key = KType | KName | KLabel | KValue | KPattern | KSize | KMaxLen | KMin | KMax | KOption | KRequired | KMulti | KError

  // t n l v p sz ml lo hi o r m e
  function KeyText(k: Key): (s: bytes)
    ensures 1 <= |s| <= 2
  {
    match k
    case KType => [116]
    case KName => [110]
    case KLabel => [108]
    case KValue => [118]
    case KPattern => [112]
    case KSize => [115, 122]
    case KMaxLen => [109, 108]
    case KMin => [108, 111]
    case KMax => [104, 105]
    case KOption => [111]
    case KRequired => [114]
    case KMulti => [109]
    case KError => [101]
  }

  // The string is this key, '=', and a value.
  predicate KeyIs(s: bytes, k: Key) {
    var t := KeyText(k);
    |s| > |t| && s[..|t|] == t && s[|t|] == EQ
  }

  function After(s: bytes, k: Key): bytes
    requires KeyIs(s, k)
  {
    s[|KeyText(k)| + 1..]
  }

  datatype Rec = Rec(key: Key, val: bytes)

  function RecText(r: Rec): bytes {
    KeyText(r.key) + [EQ] + r.val
  }

  // The record a string is, keys tried in order.
  function Read(s: bytes): Option<Rec> {
    if KeyIs(s, KType) then Some(Rec(KType, After(s, KType)))
    else if KeyIs(s, KName) then Some(Rec(KName, After(s, KName)))
    else if KeyIs(s, KLabel) then Some(Rec(KLabel, After(s, KLabel)))
    else if KeyIs(s, KValue) then Some(Rec(KValue, After(s, KValue)))
    else if KeyIs(s, KPattern) then Some(Rec(KPattern, After(s, KPattern)))
    else if KeyIs(s, KSize) then Some(Rec(KSize, After(s, KSize)))
    else if KeyIs(s, KMaxLen) then Some(Rec(KMaxLen, After(s, KMaxLen)))
    else if KeyIs(s, KMin) then Some(Rec(KMin, After(s, KMin)))
    else if KeyIs(s, KMax) then Some(Rec(KMax, After(s, KMax)))
    else if KeyIs(s, KRequired) then Some(Rec(KRequired, After(s, KRequired)))
    else if KeyIs(s, KMulti) then Some(Rec(KMulti, After(s, KMulti)))
    else if KeyIs(s, KOption) then Some(Rec(KOption, After(s, KOption)))
    else if KeyIs(s, KError) then Some(Rec(KError, After(s, KError)))
    else None
  }

  // A key's first letter and its second, or '=' after a one-letter key.
  function Mark(k: Key): (byte, byte) {
    (KeyText(k)[0], if |KeyText(k)| == 1 then EQ else KeyText(k)[1])
  }

  lemma MarksDiffer(k: Key, j: Key)
    requires k != j
    ensures Mark(k) != Mark(j)
  {
  }

  // No string reads as two keys.
  lemma OnlyKey(r: Rec, j: Key)
    ensures KeyIs(RecText(r), j) <==> j == r.key
    ensures After(RecText(r), r.key) == r.val
  {
    hide KeyText;
    var s, t := RecText(r), KeyText(r.key);
    assert s[..|t|] == t && s[|t|] == EQ && s[|t| + 1..] == r.val;
    assert (s[0], s[1]) == Mark(r.key);
    if j != r.key {
      MarksDiffer(r.key, j);
    }
  }

  lemma ReadBack(r: Rec)
    ensures Read(RecText(r)) == Some(r)
  {
    hide KeyIs, After, RecText;
    forall j ensures KeyIs(RecText(r), j) <==> j == r.key {
      OnlyKey(r, j);
    }
    OnlyKey(r, r.key);
  }

  // ----- encoding -----

  function Maybe(k: Key, t: text): seq<Rec> {
    if t.None? then [] else [Rec(k, t.value)]
  }

  function Num(k: Key, v: i32): Rec {
    Rec(k, Fmt(v))
  }

  function Options(os: seq<bytes>): seq<Rec> {
    if os == [] then [] else [Rec(KOption, os[0])] + Options(os[1..])
  }

  const ONE: bytes := [49]

  function Marker(k: Key, on: bool): seq<Rec> {
    if on then [Rec(k, ONE)] else []
  }

  predicate Ranged(f: Field) {
    f.kind == INTEGER && f.nums.min != f.nums.max
  }

  // The field's own error, or the first given for its name.
  function ErrorOf(f: Field, errs: seq<Err>): text {
    if f.texts.error.Some? then f.texts.error else Lookup(f.texts.name, errs)
  }

  function Lookup(name: text, errs: seq<Err>): text
    decreases |errs|
  {
    if errs == [] then None
    else if name.Some? && errs[0].name == name then errs[0].message
    else Lookup(name, errs[1..])
  }

  function NumRecs(f: Field): seq<Rec> {
    (if f.nums.size != 0 then [Num(KSize, f.nums.size)] else [])
    + (if f.nums.maxlen != 0 then [Num(KMaxLen, f.nums.maxlen)] else [])
    + (if Ranged(f) then [Num(KMin, f.nums.min), Num(KMax, f.nums.max)] else [])
  }

  function TextRecs(f: Field): seq<Rec> {
    Maybe(KName, f.texts.name) + Maybe(KLabel, f.texts.label_) + Maybe(KValue, f.texts.value) + Maybe(KPattern, f.texts.pattern)
  }

  function TailRecs(f: Field, errs: seq<Err>): seq<Rec> {
    (if |f.options| <= MAX_OPTIONS then Options(f.options) else [])
    + (Marker(KRequired, f.required) + (Marker(KMulti, f.multi) + Maybe(KError, ErrorOf(f, errs))))
  }

  function FieldRecs(f: Field, errs: seq<Err>): seq<Rec>
    requires TypeName(f.kind).Some?
  {
    [Rec(KType, TypeName(f.kind).value)] + (TextRecs(f) + (NumRecs(f) + TailRecs(f, errs)))
  }

  predicate Typed(fs: seq<Field>) {
    forall i :: 0 <= i < |fs| ==> TypeName(fs[i].kind).Some?
  }

  function AllRecs(fs: seq<Field>, errs: seq<Err>): seq<Rec>
    requires Typed(fs)
    decreases |fs|
  {
    if fs == [] then [] else FieldRecs(fs[0], errs) + AllRecs(fs[1..], errs)
  }

  // The field run as it is filled; full once a record did not fit.
  datatype Sink = Sink(used: bytes, full: bool)

  function Put(k: Sink, r: Rec): Sink {
    var s := RecText(r);
    if k.full || |s| > 0xffff || |k.used| + 2 + |s| > MAX_MSG then k.(full := true)
    else k.(used := k.used + Le16(|s|) + s)
  }

  function PutAll(k: Sink, rs: seq<Rec>): Sink
    decreases |rs|
  {
    if rs == [] then k else PutAll(Put(k, rs[0]), rs[1..])
  }

  // A title or note, its length cut to sixteen bits.
  function Cut(t: text): text {
    if t.None? then t else Some(t.value[..Low16(|t.value|)])
  }

  function Low16(n: nat): (r: nat)
    ensures r <= n && r < 0x1_0000
  {
    n % 0x1_0000
  }

  function MaybeField(f: field, t: text): bytes
    requires t.Some? ==> |t.value| < 0x1_0000
  {
    if t.None? then [] else FieldBytes(f, t.value)
  }

  // The message, or nothing: too many fields, an unknown type, or too long.
  function Encode(f: Form): text {
    if |f.fields| > MAX_FIELDS || !Typed(f.fields) then None
    else
      var k := PutAll(Sink([], false), AllRecs(f.fields, f.errors));
      if k.full || |k.used| >= 0x1_0000 then None
      else
        var msg := [MSG_FORM] + MaybeField(F_TITLE, Cut(f.title)) + MaybeField(F_NOTE, Cut(f.note)) + FieldBytes(F_FIELDS, k.used);
        if |msg| > MAX_MSG then None else Some(msg)
  }

  // ----- decoding -----

  // The three parts of a message, each the last of its kind.
  datatype Parts = Parts(title: text, note: text, run: text)

  function SetPart(p: Parts, f: field, data: bytes): Parts {
    if f == F_TITLE then p.(title := Some(data))
    else if f == F_NOTE then p.(note := Some(data))
    else if f == F_FIELDS then p.(run := Some(data))
    else p
  }

  function Split(p: Parts, d: bytes): Option<Parts>
    decreases |d|
  {
    if d == [] then Some(p)
    else
      var wire, rest := WireOf(d[0]), d[1..];
      var n := Extent(rest, wire);
      if n == -1 then None
      else Split(if wire == WBYTES then SetPart(p, FieldOf(d[0]), Payload(rest)) else p, rest[n..])
  }

  // The strings of a run, as they lie between length prefixes.
  function Unpack(d: bytes): Option<seq<bytes>>
    decreases |d|
  {
    if d == [] then Some([])
    else if |d| < 2 || |d| < 2 + Get16(d) then None
    else
      match Unpack(d[2 + Get16(d)..])
      case None => None
      case Some(rest) => Some([d[2..2 + Get16(d)]] + rest)
  }

  // As seen by a reader of NUL-terminated strings: a NUL inside ends one and starts another.
  function Cuts(s: bytes, i: nat): seq<bytes>
    requires i <= |s|
    decreases |s| - i, |s|
  {
    if i == |s| then [s]
    else if s[i] == 0 then [s[..i]] + CutsAfter(s, i)
    else Cuts(s, i + 1)
  }

  function CutsAfter(s: bytes, i: nat): seq<bytes>
    requires i < |s|
    decreases |s| - i, 0
  {
    Cuts(s[i + 1..], 0)
  }

  function AllCuts(ss: seq<bytes>): seq<bytes>
    decreases |ss|
  {
    if ss == [] then [] else Cuts(ss[0], 0) + AllCuts(ss[1..])
  }

  // What the counting pass finds.
  datatype Counts = Counts(fields: nat, errors: nat, options: nat)

  function Count(ss: seq<bytes>): Counts
    decreases |ss|
  {
    if ss == [] then Counts(0, 0, 0)
    else
      var c := Count(ss[1..]);
      if KeyIs(ss[0], KType) then c.(fields := c.fields + 1)
      else if KeyIs(ss[0], KError) then c.(errors := c.errors + 1)
      else if KeyIs(ss[0], KOption) then c.(options := c.options + 1)
      else c
  }

  // What the filling pass has built.
  datatype Filled = Filled(fields: seq<Field>, errors: seq<Err>, options: nat, bad: bool)

  const NO_TEXTS := Texts(None, None, None, None, None)
  const NO_NUMS := Nums(0, 0, 0, 0)

  function NewField(kind: byte): Field {
    Field(kind, false, false, NO_TEXTS, NO_NUMS, [])
  }

  function Last(w: Filled): Field
    requires w.fields != []
  {
    w.fields[|w.fields| - 1]
  }

  function WithLast(w: Filled, f: Field): Filled
    requires w.fields != []
  {
    w.(fields := w.fields[|w.fields| - 1 := f])
  }

  // (uint16_t) of a parsed number.
  function U16(v: int): u16 {
    v % 0x1_0000
  }

  function SetNum(n: Nums, k: Key, p: Parsed): Nums {
    if !p.Number? || p.v < -0x8000_0000 || p.v > 0x7fff_ffff then n
    else if k == KSize then n.(size := U16(p.v))
    else if k == KMaxLen then n.(maxlen := U16(p.v))
    else if k == KMin then n.(min := p.v)
    else if k == KMax then n.(max := p.v)
    else n
  }

  function SetText(t: Texts, k: Key, v: bytes): Texts {
    if k == KName then t.(name := Some(v))
    else if k == KLabel then t.(label_ := Some(v))
    else if k == KValue then t.(value := Some(v))
    else if k == KPattern then t.(pattern := Some(v))
    else if k == KError then t.(error := Some(v))
    else t
  }

  // One record taken into the form. An attribute before any type is ignored.
  function Apply(w: Filled, r: Rec): Filled {
    if w.bad then w
    else if r.key == KType then
      if TypeFrom(r.val, 1) == 0 then w.(bad := true)
      else w.(fields := w.fields + [NewField(TypeFrom(r.val, 1))])
    else if w.fields == [] then w
    else
      var f := Last(w);
      match r.key
      case KSize | KMaxLen | KMin | KMax => WithLast(w, f.(nums := SetNum(f.nums, r.key, Parse(r.val))))
      case KRequired => WithLast(w, f.(required := true))
      case KMulti => WithLast(w, f.(multi := true))
      case KOption =>
        if |f.options| >= MAX_OPTIONS then w.(bad := true)
        else WithLast(w, f.(options := f.options + [r.val])).(options := w.options + 1)
      case KError =>
        WithLast(w, f.(texts := SetText(f.texts, KError, r.val))).(errors := w.errors + [Err(f.texts.name, Some(r.val))])
      case _ => WithLast(w, f.(texts := SetText(f.texts, r.key, r.val)))
  }

  function Fill(w: Filled, ss: seq<bytes>): Filled
    decreases |ss|
  {
    if ss == [] then w
    else
      match Read(ss[0])
      case None => Fill(w, ss[1..])
      case Some(r) => Fill(Apply(w, r), ss[1..])
  }

  // ----- the receiving buffer -----

  // The buffer and the sizes the program's own structures have in it.
  datatype Room = Room(cap: nat, align: nat, field_: nat, error: nat, pointer: nat)

  function Aligned(n: nat, align: nat): nat {
    if align == 0 || n % align == 0 then n else n + (align - n % align)
  }

  // An array behind what is used; nothing for no elements.
  function Carve(used: nat, n: nat, size: nat, room: Room): Option<nat> {
    if n == 0 then Some(used)
    else if Aligned(used, room.align) + n * size > room.cap then None
    else Some(Aligned(used, room.align) + n * size)
  }

  function TextSize(t: text): nat {
    if t.None? then 0 else |t.value| + 1
  }

  function StringsSize(ss: seq<bytes>): nat
    decreases |ss|
  {
    if ss == [] then 0 else |ss[0]| + 1 + StringsSize(ss[1..])
  }

  // Whether the strings and then the three arrays fit.
  predicate Fits(strings: nat, c: Counts, room: Room) {
    strings <= room.cap
    && match Carve(strings, c.fields, room.field_, room)
       case None => false
       case Some(a) =>
         match Carve(a, c.errors, room.error, room)
         case None => false
         case Some(b) => Carve(b, c.options, room.pointer, room).Some?
  }

  const NOTHING := Filled([], [], 0, false)

  function Decode(msg: bytes, room: Room): Option<Form>
    requires msg != []
  {
    match Split(Parts(None, None, None), msg[1..])
    case None => None
    case Some(p) =>
      match Unpack(if p.run.Some? then p.run.value else [])
      case None => None
      case Some(raw) =>
        var ss := AllCuts(raw);
        var c := Count(ss);
        if c.fields > MAX_FIELDS || !Fits(TextSize(p.title) + TextSize(p.note) + StringsSize(raw), c, room) then None
        else
          var w := Fill(NOTHING, ss);
          if w.bad then None
          else Some(Form(p.title, p.note, w.fields, w.errors[..|w.errors| % 0x100]))
  }
}
