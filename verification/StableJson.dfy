/** The canonical JSON printer behind idempotency fingerprints:
    `backend/src/idempotency.ts`, lines 263-289.

    Strings are sequences of UTF-16 code units, lone surrogates included. A number
    is represented by the text ECMAScript gives it, which is the same for two
    numbers exactly when they are equal.
 */
module StableJson {
  import opened Checked

  type Unit = u: int | 0 <= u < 0x1_0000

  type Text = seq<Unit>

  datatype Json =
    | Null
    | Bool(b: bool)
    | Num(literal: Text)
    | Str(text: Text)
    | Arr(items: seq<Json>)
    | Obj(fields: seq<Field>)

  datatype Field = Field(key: Text, value: Json)

  const TAB: Unit := 9
  const QUOTE: Unit := 34
  const COMMA: Unit := 44
  const COLON: Unit := 58
  const OPEN_BRACKET: Unit := 91
  const BACKSLASH: Unit := 92
  const CLOSE_BRACKET: Unit := 93
  const LETTER_U: Unit := 117
  const OPEN_BRACE: Unit := 123
  const CLOSE_BRACE: Unit := 125
  const NULL_TEXT: Text := [110, 117, 108, 108]
  const TRUE_TEXT: Text := [116, 114, 117, 101]
  const FALSE_TEXT: Text := [102, 97, 108, 115, 101]

  /** Digits, sign, point and exponent. */
  predicate InNumber(u: Unit) {
    48 <= u <= 57 || u == 43 || u == 45 || u == 46 || u == 101
  }

  predicate DistinctKeys(fields: seq<Field>) {
    forall i, j :: 0 <= i < j < |fields| ==> fields[i].key != fields[j].key
  }

  predicate WellFormed(v: Json) {
    match v
    case Num(literal) => literal != [] && forall u <- literal :: InNumber(u)
    case Arr(items) => forall i :: 0 <= i < |items| ==> WellFormed(items[i])
    case Obj(fields) => DistinctKeys(fields) && forall i :: 0 <= i < |fields| ==> WellFormed(fields[i].value)
    case _ => true
  }

  // ---- Strings ----

  predicate IsLead(u: Unit) { 0xD800 <= u <= 0xDBFF }

  predicate IsTrail(u: Unit) { 0xDC00 <= u <= 0xDFFF }

  function Hex(d: int): Unit
    requires 0 <= d < 16
  {
    if d < 10 then 48 + d else 87 + d
  }

  /** The letter of a two-unit escape, if the unit has one. */
  function ShortEscape(u: Unit): Option<Unit> {
    if u == 8 then Some(98)
    else if u == TAB then Some(116)
    else if u == 10 then Some(110)
    else if u == 12 then Some(102)
    else if u == 13 then Some(114)
    else if u == QUOTE || u == BACKSLASH then Some(u)
    else None
  }

  function EscapeUnit(u: Unit): Text {
    if ShortEscape(u).Some? then [BACKSLASH, ShortEscape(u).value]
    else if u < 32 || IsLead(u) || IsTrail(u) then
      [BACKSLASH, LETTER_U, Hex(u / 4096), Hex(u / 256 % 16), Hex(u / 16 % 16), Hex(u % 16)]
    else [u]
  }

  /** A surrogate pair stays as it is; a lone surrogate is escaped. */
  function Escape(s: Text): Text {
    if s == [] then []
    else if |s| > 1 && IsLead(s[0]) && IsTrail(s[1]) then [s[0], s[1]] + Escape(s[2..])
    else EscapeUnit(s[0]) + Escape(s[1..])
  }

  function Quoted(s: Text): Text {
    [QUOTE] + Escape(s) + [QUOTE]
  }

  // ---- Keys in code unit order ----

  predicate Less(a: Text, b: Text) {
    b != [] && (a == [] || a[0] < b[0] || (a[0] == b[0] && Less(a[1..], b[1..])))
  }

  ghost predicate Sorted(fields: seq<Field>) {
    forall i, j :: 0 <= i < j < |fields| ==> Less(fields[i].key, fields[j].key)
  }

  ghost function Size(v: Json): nat {
    match v
    case Arr(items) => 1 + ItemsSize(items)
    case Obj(fields) => 1 + FieldsSize(fields)
    case _ => 1
  }

  ghost function ItemsSize(items: seq<Json>): nat {
    if items == [] then 0 else 1 + Size(items[0]) + ItemsSize(items[1..])
  }

  ghost function FieldsSize(fields: seq<Field>): nat {
    if fields == [] then 0 else 1 + Size(fields[0].value) + FieldsSize(fields[1..])
  }

  function Insert(f: Field, fields: seq<Field>): (r: seq<Field>)
    ensures FieldsSize(r) == 1 + Size(f.value) + FieldsSize(fields)
    ensures multiset(r) == multiset(fields) + multiset{f}
  {
    if fields == [] then [f]
    else if Less(f.key, fields[0].key) then
      assert ([f] + fields)[1..] == fields;
      [f] + fields
    else
      assert fields == [fields[0]] + fields[1..];
      var rest := Insert(f, fields[1..]);
      assert ([fields[0]] + rest)[1..] == rest;
      [fields[0]] + rest
  }

  function SortByKey(fields: seq<Field>): (r: seq<Field>)
    ensures FieldsSize(r) == FieldsSize(fields)
    ensures multiset(r) == multiset(fields)
  {
    if fields == [] then []
    else
      assert fields == [fields[0]] + fields[1..];
      Insert(fields[0], SortByKey(fields[1..]))
  }

  // ---- The printer ----

  function Print(v: Json): Text
    decreases Size(v), 0
  {
    match v
    case Null => NULL_TEXT
    case Bool(b) => if b then TRUE_TEXT else FALSE_TEXT
    case Num(literal) => literal
    case Str(text) => Quoted(text)
    case Arr(items) => [OPEN_BRACKET] + PrintItems(items) + [CLOSE_BRACKET]
    case Obj(fields) => [OPEN_BRACE] + PrintFields(SortByKey(fields)) + [CLOSE_BRACE]
  }

  function PrintItems(items: seq<Json>): Text
    decreases ItemsSize(items), 1
  {
    if items == [] then []
    else if |items| == 1 then Print(items[0])
    else Print(items[0]) + [COMMA] + PrintItems(items[1..])
  }

  function PrintField(f: Field): Text
    decreases Size(f.value), 1
  {
    Quoted(f.key) + [COLON] + Print(f.value)
  }

  function PrintFields(fields: seq<Field>): Text
    decreases FieldsSize(fields), 1
  {
    if fields == [] then []
    else if |fields| == 1 then PrintField(fields[0])
    else PrintField(fields[0]) + [COMMA] + PrintFields(fields[1..])
  }

  // ---- Equality up to key order ----

  ghost predicate Equiv(v: Json, w: Json)
    decreases v
  {
    match v
    case Arr(a) => w.Arr? && |a| == |w.items| && forall i :: 0 <= i < |a| ==> Equiv(a[i], w.items[i])
    case Obj(f) =>
      && w.Obj?
      && SameKeys(f, w.fields)
      && forall i, j :: 0 <= i < |f| && 0 <= j < |w.fields| && f[i].key == w.fields[j].key ==>
           Equiv(f[i].value, w.fields[j].value)
    case _ => v == w
  }

  predicate HasKey(fields: seq<Field>, key: Text) {
    exists f <- fields :: f.key == key
  }

  ghost predicate SameKeys(f: seq<Field>, g: seq<Field>) {
    forall key: Text :: HasKey(f, key) <==> HasKey(g, key)
  }

  /** The same value with the keys of every object in order. */
  function Norm(v: Json): Json
    decreases Size(v), 0
  {
    match v
    case Arr(items) => Arr(NormItems(items))
    case Obj(fields) => Obj(NormFields(SortByKey(fields)))
    case _ => v
  }

  function NormItems(items: seq<Json>): seq<Json>
    decreases ItemsSize(items), 1
  {
    if items == [] then [] else [Norm(items[0])] + NormItems(items[1..])
  }

  function NormFields(fields: seq<Field>): seq<Field>
    decreases FieldsSize(fields), 1
  {
    if fields == [] then [] else [Field(fields[0].key, Norm(fields[0].value))] + NormFields(fields[1..])
  }

  // ---- A reader of RFC 8259 texts without white space ----

  type Parsed<T> = Option<(T, Text)>

  function Unhex(u: Unit): Option<int> {
    if 48 <= u <= 57 then Some(u - 48) else if 97 <= u <= 102 then Some(u - 87) else None
  }

  function FourHex(t: Text): Option<Unit>
    requires |t| >= 4
  {
    if Unhex(t[0]).Some? && Unhex(t[1]).Some? && Unhex(t[2]).Some? && Unhex(t[3]).Some? then
      Some(Unhex(t[0]).value * 4096 + Unhex(t[1]).value * 256 + Unhex(t[2]).value * 16 + Unhex(t[3]).value)
    else None
  }

  function Unescaped(letter: Unit): Option<Unit> {
    if letter == 98 then Some(8)
    else if letter == 116 then Some(TAB)
    else if letter == 110 then Some(10)
    else if letter == 102 then Some(12)
    else if letter == 114 then Some(13)
    else if letter == QUOTE || letter == BACKSLASH then Some(letter)
    else None
  }

  /** One unit in front of what is read next. */
  function After(u: Unit, p: Parsed<Text>): Parsed<Text> {
    if p.Some? then Some(([u] + p.value.0, p.value.1)) else None
  }

  /** The rest of a string, up to its closing quote. */
  function ReadString(t: Text): (r: Parsed<Text>)
    ensures r.Some? ==> |r.value.1| < |t|
  {
    if t == [] then None
    else if t[0] == QUOTE then Some(([], t[1..]))
    else if t[0] != BACKSLASH then (if t[0] < 32 then None else After(t[0], ReadString(t[1..])))
    else if |t| < 2 then None
    else if t[1] != LETTER_U then
      (if Unescaped(t[1]).None? then None else After(Unescaped(t[1]).value, ReadString(t[2..])))
    else if |t| < 6 || FourHex(t[2..]).None? then None
    else After(FourHex(t[2..]).value, ReadString(t[6..]))
  }

  function ReadNumber(t: Text): (Text, Text) {
    if t == [] || !InNumber(t[0]) then ([], t)
    else
      var (literal, rest) := ReadNumber(t[1..]);
      ([t[0]] + literal, rest)
  }

  lemma {:induction false} ReadNumberShortens(t: Text)
    ensures |ReadNumber(t).0| + |ReadNumber(t).1| == |t|
  {
    if t != [] && InNumber(t[0]) {
      ReadNumberShortens(t[1..]);
    }
  }

  function Read(t: Text): (r: Parsed<Json>)
    ensures r.Some? ==> |r.value.1| < |t|
    decreases |t|, 0
  {
    if t == [] then None
    else if NULL_TEXT <= t then Some((Null, t[4..]))
    else if TRUE_TEXT <= t then Some((Bool(true), t[4..]))
    else if FALSE_TEXT <= t then Some((Bool(false), t[5..]))
    else if InNumber(t[0]) then
      ReadNumberShortens(t);
      var (literal, rest) := ReadNumber(t);
      Some((Num(literal), rest))
    else if t[0] == QUOTE then
      var s := ReadString(t[1..]);
      if s.None? then None else Some((Str(s.value.0), s.value.1))
    else if t[0] == OPEN_BRACKET then
      if |t| > 1 && t[1] == CLOSE_BRACKET then Some((Arr([]), t[2..]))
      else
        var items := ReadItems(t[1..]);
        if items.None? then None else Some((Arr(items.value.0), items.value.1))
    else if t[0] == OPEN_BRACE then
      if |t| > 1 && t[1] == CLOSE_BRACE then Some((Obj([]), t[2..]))
      else
        var fields := ReadFields(t[1..]);
        if fields.None? then None else Some((Obj(fields.value.0), fields.value.1))
    else None
  }

  /** One or more items and the closing bracket. */
  function ReadItems(t: Text): (r: Parsed<seq<Json>>)
    ensures r.Some? ==> |r.value.1| < |t|
    decreases |t|, 1
  {
    var first := Read(t);
    if first.None? || first.value.1 == [] then None
    else
      var (item, rest) := first.value;
      if rest[0] == CLOSE_BRACKET then Some(([item], rest[1..]))
      else if rest[0] != COMMA then None
      else
        var more := ReadItems(rest[1..]);
        if more.None? then None else Some(([item] + more.value.0, more.value.1))
  }

  function ReadField(t: Text): (r: Parsed<Field>)
    ensures r.Some? ==> |r.value.1| < |t|
    decreases |t|, 1
  {
    if t == [] || t[0] != QUOTE then None
    else
      var key := ReadString(t[1..]);
      if key.None? || key.value.1 == [] || key.value.1[0] != COLON then None
      else
        var value := Read(key.value.1[1..]);
        if value.None? then None else Some((Field(key.value.0, value.value.0), value.value.1))
  }

  /** One or more fields and the closing brace. */
  function ReadFields(t: Text): (r: Parsed<seq<Field>>)
    ensures r.Some? ==> |r.value.1| < |t|
    decreases |t|, 2
  {
    var first := ReadField(t);
    if first.None? || first.value.1 == [] then None
    else
      var (field, rest) := first.value;
      if rest[0] == CLOSE_BRACE then Some(([field], rest[1..]))
      else if rest[0] != COMMA then None
      else
        var more := ReadFields(rest[1..]);
        if more.None? then None else Some(([field] + more.value.0, more.value.1))
  }

  // ---- Reading back a string ----

  lemma FourHexOfDigits(a: int, b: int, c: int, d: int, rest: Text)
    requires 0 <= a < 16 && 0 <= b < 16 && 0 <= c < 16 && 0 <= d < 16
    ensures FourHex([Hex(a), Hex(b), Hex(c), Hex(d)] + rest) == Some(4096 * a + 256 * b + 16 * c + d)
  {
    var t := [Hex(a), Hex(b), Hex(c), Hex(d)] + rest;
    assert t[0] == Hex(a) && t[1] == Hex(b) && t[2] == Hex(c) && t[3] == Hex(d);
  }

  lemma DigitsOf(u: Unit)
    ensures 4096 * (u / 4096) + 256 * (u / 256 % 16) + 16 * (u / 16 % 16) + u % 16 == u
  {
    var x, y := u / 16, u / 256;
    assert y == x / 16 && u / 4096 == y / 16;
  }

  lemma FourHexOfUnit(u: Unit, rest: Text)
    ensures FourHex([Hex(u / 4096), Hex(u / 256 % 16), Hex(u / 16 % 16), Hex(u % 16)] + rest) == Some(u)
  {
    FourHexOfDigits(u / 4096, u / 256 % 16, u / 16 % 16, u % 16, rest);
    DigitsOf(u);
    hide FourHex, Hex;
  }

  lemma ReadHexEscape(u: Unit, rest: Text)
    ensures ReadString([BACKSLASH, LETTER_U, Hex(u / 4096), Hex(u / 256 % 16), Hex(u / 16 % 16), Hex(u % 16)] + rest)
            == After(u, ReadString(rest))
  {
    FourHexOfUnit(u, rest);
    var digits := [Hex(u / 4096), Hex(u / 256 % 16), Hex(u / 16 % 16), Hex(u % 16)];
    var t := [BACKSLASH, LETTER_U] + (digits + rest);
    hide FourHex, Hex, After, Unescaped;
    assert t[2..] == digits + rest && t[6..] == rest;
    assert [BACKSLASH, LETTER_U, digits[0], digits[1], digits[2], digits[3]] + rest == t;
  }

  lemma ReadShortEscape(u: Unit, rest: Text)
    requires ShortEscape(u).Some?
    ensures ReadString([BACKSLASH, ShortEscape(u).value] + rest) == After(u, ReadString(rest))
  {
    var t := [BACKSLASH, ShortEscape(u).value] + rest;
    hide FourHex, After;
    assert Unescaped(ShortEscape(u).value) == Some(u);
    assert t[2..] == rest;
  }

  lemma ReadPlainUnit(u: Unit, rest: Text)
    requires u >= 32 && u != QUOTE && u != BACKSLASH
    ensures ReadString([u] + rest) == After(u, ReadString(rest))
  {
    hide FourHex, Unescaped, After;
    assert ([u] + rest)[1..] == rest;
  }

  lemma ReadEscapedUnit(u: Unit, rest: Text)
    ensures ReadString(EscapeUnit(u) + rest) == After(u, ReadString(rest))
  {
    hide ReadString, After;
    if ShortEscape(u).Some? {
      ReadShortEscape(u, rest);
    } else if u < 32 || IsLead(u) || IsTrail(u) {
      ReadHexEscape(u, rest);
    } else {
      ReadPlainUnit(u, rest);
    }
  }

  lemma {:induction false} ReadEscaped(s: Text, rest: Text)
    ensures ReadString(Escape(s) + [QUOTE] + rest) == Some((s, rest))
  {
    hide ReadString, EscapeUnit, After;
    EscapeUnfolds(s, rest);
    if s == [] {
      ReadQuote(rest);
    } else if |s| > 1 && IsLead(s[0]) && IsTrail(s[1]) {
      ReadEscaped(s[2..], rest);
      var t := Escape(s[2..]) + [QUOTE] + rest;
      ReadPlainUnit(s[1], t);
      ReadPlainUnit(s[0], [s[1]] + t);
      AfterPrepends(s[1], s[2..], rest);
      AfterPrepends(s[0], [s[1]] + s[2..], rest);
      assert s == [s[0]] + ([s[1]] + s[2..]);
    } else {
      ReadEscaped(s[1..], rest);
      ReadEscapedUnit(s[0], Escape(s[1..]) + [QUOTE] + rest);
      AfterPrepends(s[0], s[1..], rest);
      assert s == [s[0]] + s[1..];
    }
  }

  lemma EscapeUnfolds(s: Text, rest: Text)
    ensures Escape(s) + [QUOTE] + rest ==
            if s == [] then [QUOTE] + rest
            else if |s| > 1 && IsLead(s[0]) && IsTrail(s[1]) then
              [s[0]] + ([s[1]] + (Escape(s[2..]) + [QUOTE] + rest))
            else EscapeUnit(s[0]) + (Escape(s[1..]) + [QUOTE] + rest)
  {
    hide EscapeUnit, IsLead, IsTrail;
    if s == [] {
      assert Escape(s) + [QUOTE] == [QUOTE];
    } else if |s| > 1 && IsLead(s[0]) && IsTrail(s[1]) {
      var tail := Escape(s[2..]);
      assert Escape(s) == [s[0], s[1]] + tail;
      hide Escape;
      Prefixed([s[0], s[1]], tail, rest);
      PairSplits(s[0], s[1], tail + [QUOTE] + rest);
    } else {
      var tail := Escape(s[1..]);
      assert Escape(s) == EscapeUnit(s[0]) + tail;
      hide Escape;
      Prefixed(EscapeUnit(s[0]), tail, rest);
    }
  }

  lemma PairSplits(u: Unit, v: Unit, t: Text)
    ensures [u, v] + t == [u] + ([v] + t)
  {
  }

  lemma Prefixed(prefix: Text, body: Text, rest: Text)
    ensures prefix + body + [QUOTE] + rest == prefix + (body + [QUOTE] + rest)
  {
  }

  lemma ReadQuote(rest: Text)
    ensures ReadString([QUOTE] + rest) == Some(([], rest))
  {
    assert ([QUOTE] + rest)[1..] == rest;
  }

  lemma AfterPrepends(u: Unit, s: Text, rest: Text)
    ensures After(u, Some((s, rest))) == Some(([u] + s, rest))
  {
  }

  /** A quoted string is read back unchanged, whatever follows it. */
  lemma QuotedReadsBack(s: Text, rest: Text)
    ensures Quoted(s) + rest == [QUOTE] + (Escape(s) + [QUOTE] + rest)
    ensures (Quoted(s) + rest)[1..] == Escape(s) + [QUOTE] + rest
    ensures ReadString((Quoted(s) + rest)[1..]) == Some((s, rest))
  {
    ReadEscaped(s, rest);
    hide Escape, ReadString;
    Prefixed([QUOTE], Escape(s), rest);
    assert ([QUOTE] + (Escape(s) + [QUOTE] + rest))[1..] == Escape(s) + [QUOTE] + rest;
  }

  // ---- Reading back a value ----

  /** What may follow a value: not more of a number. */
  predicate Delimited(rest: Text) {
    rest == [] || !InNumber(rest[0])
  }

  lemma {:induction false} NumberReadsBack(literal: Text, rest: Text)
    requires Delimited(rest) && forall u <- literal :: InNumber(u)
    ensures ReadNumber(literal + rest) == (literal, rest)
  {
    if literal == [] {
      assert literal + rest == rest;
    } else {
      assert (literal + rest)[1..] == literal[1..] + rest && literal == [literal[0]] + literal[1..];
      NumberReadsBack(literal[1..], rest);
    }
  }

  /** No value starts like a closing bracket, a comma or the letter h. */
  lemma ValueStarts(v: Json)
    requires WellFormed(v)
    ensures Print(v) != [] && Print(v)[0] !in {CLOSE_BRACKET, CLOSE_BRACE, COMMA, 104}
  {
    if v.Num? {
      assert v.literal[0] in v.literal;
    }
  }

  ghost predicate FieldsWellFormed(fields: seq<Field>) {
    forall f <- fields :: WellFormed(f.value)
  }

  lemma SortKeepsFields(fields: seq<Field>)
    ensures forall f :: f in SortByKey(fields) <==> f in fields
    ensures |SortByKey(fields)| == |fields|
    ensures (forall f <- fields :: WellFormed(f.value)) ==> FieldsWellFormed(SortByKey(fields))
  {
    var r := SortByKey(fields);
    assert forall f :: f in r <==> f in multiset(r);
    assert |multiset(r)| == |r|;
  }

  lemma LiteralReadsBack(v: Json, rest: Text)
    requires WellFormed(v) && (v.Null? || v.Bool? || v.Num?) && Delimited(rest)
    ensures Read(Print(v) + rest) == Some((Norm(v), rest))
  {
    var t := Print(v) + rest;
    if v.Num? {
      assert t[0] == v.literal[0] && v.literal[0] in v.literal;
      NumberReadsBack(v.literal, rest);
    } else {
      assert Print(v) <= t && t[|Print(v)|..] == rest;
    }
  }

  /** Which branch the reader takes on a quote or an opening bracket. */
  lemma ReadBranches(t: Text)
    requires t != [] && t[0] in {QUOTE, OPEN_BRACKET, OPEN_BRACE}
    ensures !(NULL_TEXT <= t) && !(TRUE_TEXT <= t) && !(FALSE_TEXT <= t) && !InNumber(t[0])
  {
  }

  lemma StringReadsBack(text: Text, rest: Text)
    ensures Read(Quoted(text) + rest) == Some((Str(text), rest))
  {
    QuotedReadsBack(text, rest);
    ReadBranches(Quoted(text) + rest);
    hide Quoted, Escape, ReadString;
  }

  lemma ArrayReadsBack(items: seq<Json>, body: Text, rest: Text)
    requires items != [] ==> body != [] && body[0] != CLOSE_BRACKET
    requires items != [] ==> ReadItems(body + [CLOSE_BRACKET] + rest) == Some((items, rest))
    requires items == [] ==> body == []
    ensures Read([OPEN_BRACKET] + body + [CLOSE_BRACKET] + rest) == Some((Arr(items), rest))
  {
    var t := [OPEN_BRACKET] + body + [CLOSE_BRACKET] + rest;
    ReadBranches(t);
    hide ReadItems, ReadFields, ReadNumber, ReadString, InNumber;
    assert t == [OPEN_BRACKET] + (body + [CLOSE_BRACKET] + rest);
    assert t[1..] == body + [CLOSE_BRACKET] + rest;
    if items == [] {
      assert t[2..] == rest;
    } else {
      assert t[1] == body[0];
    }
  }

  lemma ObjectReadsBack(fields: seq<Field>, body: Text, rest: Text)
    requires fields != [] ==> body != [] && body[0] != CLOSE_BRACE
    requires fields != [] ==> ReadFields(body + [CLOSE_BRACE] + rest) == Some((fields, rest))
    requires fields == [] ==> body == []
    ensures Read([OPEN_BRACE] + body + [CLOSE_BRACE] + rest) == Some((Obj(fields), rest))
  {
    var t := [OPEN_BRACE] + body + [CLOSE_BRACE] + rest;
    ReadBranches(t);
    hide ReadItems, ReadFields, ReadNumber, ReadString, InNumber;
    assert t == [OPEN_BRACE] + (body + [CLOSE_BRACE] + rest);
    assert t[1..] == body + [CLOSE_BRACE] + rest;
    if fields == [] {
      assert t[2..] == rest;
    } else {
      assert t[1] == body[0];
    }
  }

  /** The printed text determines the value up to key order: reading it back gives
      the value with its keys sorted, and leaves what follows untouched. */
  lemma {:induction false} ReadsBack(v: Json, rest: Text)
    requires WellFormed(v) && Delimited(rest)
    ensures Read(Print(v) + rest) == Some((Norm(v), rest))
    decreases Size(v), 0
  {
    match v
    case Str(text) => StringReadsBack(text, rest);
    case Arr(items) =>
      if items != [] {
        ItemsReadBack(items, rest);
        ItemsStart(items);
      }
      ArrayReadsBack(NormItems(items), PrintItems(items), rest);
    case Obj(fields) =>
      SortKeepsFields(fields);
      var sorted := SortByKey(fields);
      assert forall f <- fields :: WellFormed(f.value);
      if sorted != [] {
        FieldsReadBack(sorted, rest);
        FieldsStart(sorted);
      }
      ObjectReadsBack(NormFields(sorted), PrintFields(sorted), rest);
    case _ => LiteralReadsBack(v, rest);
  }

  lemma ItemsStart(items: seq<Json>)
    requires items != [] && forall v <- items :: WellFormed(v)
    ensures PrintItems(items) != [] && PrintItems(items)[0] != CLOSE_BRACKET
    ensures NormItems(items) != []
  {
    ValueStarts(items[0]);
    hide Print, WellFormed;
  }

  lemma FieldsStart(fields: seq<Field>)
    requires fields != []
    ensures PrintFields(fields) != [] && PrintFields(fields)[0] != CLOSE_BRACE
    ensures NormFields(fields) != []
  {
    hide Print, Escape;
  }

  lemma LastItem(t: Text, item: Json, rest: Text)
    requires Read(t) == Some((item, [CLOSE_BRACKET] + rest))
    ensures ReadItems(t) == Some(([item], rest))
  {
    hide Read;
    assert ([CLOSE_BRACKET] + rest)[1..] == rest;
  }

  lemma NextItem(t: Text, item: Json, more: Text, items: seq<Json>, rest: Text)
    requires Read(t) == Some((item, [COMMA] + more)) && ReadItems(more) == Some((items, rest))
    ensures ReadItems(t) == Some(([item] + items, rest))
  {
    hide Read;
    assert ([COMMA] + more)[1..] == more;
  }

  lemma LastField(t: Text, field: Field, rest: Text)
    requires ReadField(t) == Some((field, [CLOSE_BRACE] + rest))
    ensures ReadFields(t) == Some(([field], rest))
  {
    hide ReadField;
    assert ([CLOSE_BRACE] + rest)[1..] == rest;
  }

  lemma NextField(t: Text, field: Field, more: Text, fields: seq<Field>, rest: Text)
    requires ReadField(t) == Some((field, [COMMA] + more)) && ReadFields(more) == Some((fields, rest))
    ensures ReadFields(t) == Some(([field] + fields, rest))
  {
    hide ReadField;
    assert ([COMMA] + more)[1..] == more;
  }

  lemma OneField(key: Text, body: Text, value: Json, rest: Text)
    requires Read(body) == Some((value, rest))
    ensures ReadField(Quoted(key) + ([COLON] + body)) == Some((Field(key, value), rest))
  {
    QuotedReadsBack(key, [COLON] + body);
    assert ([COLON] + body)[1..] == body;
    hide Read, ReadString, Quoted, Escape;
  }

  lemma {:induction false} ItemsReadBack(items: seq<Json>, rest: Text)
    requires items != [] && forall v <- items :: WellFormed(v)
    ensures ReadItems(PrintItems(items) + [CLOSE_BRACKET] + rest) == Some((NormItems(items), rest))
    decreases ItemsSize(items), 1
  {
    hide Read, ReadItems, Print, Norm, WellFormed;
    var head, tail := items[0], items[1..];
    var t := PrintItems(items) + [CLOSE_BRACKET] + rest;
    if |items| == 1 {
      ReadsBack(head, [CLOSE_BRACKET] + rest);
      assert t == Print(head) + ([CLOSE_BRACKET] + rest);
      LastItem(t, Norm(head), rest);
      assert NormItems(tail) == [] && NormItems(items) == [Norm(head)];
    } else {
      var more := PrintItems(tail) + [CLOSE_BRACKET] + rest;
      ReadsBack(head, [COMMA] + more);
      ItemsReadBack(tail, rest);
      assert t == Print(head) + ([COMMA] + more);
      NextItem(t, Norm(head), more, NormItems(tail), rest);
    }
  }

  lemma FieldReadsBack(f: Field, rest: Text)
    requires WellFormed(f.value) && Delimited(rest)
    ensures ReadField(PrintField(f) + rest) == Some((Field(f.key, Norm(f.value)), rest))
    decreases Size(f.value), 1
  {
    hide Read, ReadField, Print, Quoted, Norm, WellFormed;
    ReadsBack(f.value, rest);
    OneField(f.key, Print(f.value) + rest, Norm(f.value), rest);
    assert PrintField(f) + rest == Quoted(f.key) + ([COLON] + (Print(f.value) + rest));
  }

  lemma {:induction false} FieldsReadBack(fields: seq<Field>, rest: Text)
    requires fields != [] && FieldsWellFormed(fields)
    ensures ReadFields(PrintFields(fields) + [CLOSE_BRACE] + rest) == Some((NormFields(fields), rest))
    decreases FieldsSize(fields), 1
  {
    hide ReadField, ReadFields, PrintField, Norm, WellFormed;
    var head, tail := fields[0], fields[1..];
    var t := PrintFields(fields) + [CLOSE_BRACE] + rest;
    if |fields| == 1 {
      FieldReadsBack(head, [CLOSE_BRACE] + rest);
      assert t == PrintField(head) + ([CLOSE_BRACE] + rest);
      LastField(t, Field(head.key, Norm(head.value)), rest);
      assert NormFields(tail) == [] && NormFields(fields) == [Field(head.key, Norm(head.value))];
    } else {
      var more := PrintFields(tail) + [CLOSE_BRACE] + rest;
      FieldReadsBack(head, [COMMA] + more);
      FieldsReadBack(tail, rest);
      assert t == PrintField(head) + ([COMMA] + more);
      NextField(t, Field(head.key, Norm(head.value)), more, NormFields(tail), rest);
    }
  }

  // ---- Canonical: the same text exactly for equal values ----

  lemma {:induction false} LessIsStrict(a: Text, b: Text)
    ensures !(Less(a, b) && Less(b, a)) && (a != b ==> Less(a, b) || Less(b, a)) && !Less(a, a)
  {
    if a != [] && b != [] && a[0] == b[0] {
      LessIsStrict(a[1..], b[1..]);
      assert a == [a[0]] + a[1..] && b == [b[0]] + b[1..];
    }
    if a != [] {
      LessIsStrict(a[1..], a[1..]);
    }
  }

  lemma {:induction false} LessIsTransitive(a: Text, b: Text, c: Text)
    requires Less(a, b) && Less(b, c)
    ensures Less(a, c)
  {
    if a != [] && a[0] == b[0] == c[0] {
      LessIsTransitive(a[1..], b[1..], c[1..]);
    }
  }

  lemma {:induction false} InsertSorts(f: Field, fields: seq<Field>)
    requires Sorted(fields) && forall g <- fields :: g.key != f.key
    ensures Sorted(Insert(f, fields))
  {
    if fields != [] {
      LessIsStrict(f.key, fields[0].key);
      assert Sorted(fields[1..]);
      if Less(f.key, fields[0].key) {
        forall g | g in fields
          ensures Less(f.key, g.key)
        {
          if g != fields[0] {
            var i :| 0 < i < |fields| && fields[i] == g;
            LessIsTransitive(f.key, fields[0].key, g.key);
          }
        }
        SortedBehind(f, fields);
      } else {
        var rest := Insert(f, fields[1..]);
        InsertSorts(f, fields[1..]);
        forall g | g in rest
          ensures Less(fields[0].key, g.key)
        {
          assert g in multiset(rest);
        }
        SortedBehind(fields[0], rest);
      }
    }
  }

  lemma SortedBehind(f: Field, fields: seq<Field>)
    requires Sorted(fields) && forall g <- fields :: Less(f.key, g.key)
    ensures Sorted([f] + fields)
  {
  }

  lemma {:induction false} SortSorts(fields: seq<Field>)
    requires DistinctKeys(fields)
    ensures Sorted(SortByKey(fields))
  {
    if fields != [] {
      SortSorts(fields[1..]);
      SortKeepsFields(fields[1..]);
      InsertSorts(fields[0], SortByKey(fields[1..]));
    }
  }

  /** Sorted field lists with the same keys have them in the same places. */
  lemma {:induction false} SortedAlike(f: seq<Field>, g: seq<Field>)
    requires Sorted(f) && Sorted(g) && SameKeys(f, g)
    ensures |f| == |g| && forall i :: 0 <= i < |f| ==> f[i].key == g[i].key
  {
    if f != [] && g != [] {
      FirstKeysAgree(f, g);
      TailsHaveSameKeys(f, g);
      SortedAlike(f[1..], g[1..]);
      forall i | 0 <= i < |f|
        ensures f[i].key == g[i].key
      {
        if i > 0 {
          assert f[i] == f[1..][i - 1] && g[i] == g[1..][i - 1];
        }
      }
    } else if f != [] {
      assert f[0] in f && HasKey(f, f[0].key);
    } else if g != [] {
      assert g[0] in g && HasKey(g, g[0].key);
    }
  }

  lemma FirstIsLeast(f: seq<Field>, key: Text)
    requires Sorted(f) && HasKey(f, key)
    ensures f[0].key == key || Less(f[0].key, key)
  {
    var x :| x in f && x.key == key;
    var i :| 0 <= i < |f| && f[i] == x;
  }

  lemma FirstKeysAgree(f: seq<Field>, g: seq<Field>)
    requires Sorted(f) && Sorted(g) && SameKeys(f, g) && f != [] && g != []
    ensures f[0].key == g[0].key
  {
    assert HasKey(f, f[0].key) && HasKey(g, g[0].key);
    FirstIsLeast(f, g[0].key);
    FirstIsLeast(g, f[0].key);
    LessIsStrict(f[0].key, g[0].key);
  }

  lemma TailKeys(f: seq<Field>, key: Text)
    requires Sorted(f) && f != []
    ensures HasKey(f[1..], key) <==> HasKey(f, key) && key != f[0].key
  {
    LessIsStrict(f[0].key, key);
    assert f == [f[0]] + f[1..];
    if HasKey(f[1..], key) {
      var x :| x in f[1..] && x.key == key;
      var i :| 0 <= i < |f[1..]| && f[1..][i] == x;
      assert f[i + 1] == x && Less(f[0].key, f[i + 1].key);
      assert x in f;
    }
    if HasKey(f, key) && key != f[0].key {
      var x :| x in f && x.key == key;
      assert x in f[1..];
    }
  }

  lemma TailsHaveSameKeys(f: seq<Field>, g: seq<Field>)
    requires Sorted(f) && Sorted(g) && SameKeys(f, g) && f != [] && g != [] && f[0].key == g[0].key
    ensures SameKeys(f[1..], g[1..])
  {
    forall key: Text
      ensures HasKey(f[1..], key) <==> HasKey(g[1..], key)
    {
      TailKeys(f, key);
      TailKeys(g, key);
    }
  }

  lemma SortKeepsKeys(fields: seq<Field>, key: Text)
    ensures HasKey(SortByKey(fields), key) <==> HasKey(fields, key)
  {
    SortKeepsFields(fields);
    if HasKey(fields, key) {
      var f :| f in fields && f.key == key;
      assert f in SortByKey(fields);
    }
    if HasKey(SortByKey(fields), key) {
      var f :| f in SortByKey(fields) && f.key == key;
      assert f in fields;
    }
  }

  lemma SortedSameKeys(f: seq<Field>, g: seq<Field>)
    requires DistinctKeys(f) && DistinctKeys(g) && SameKeys(f, g)
    ensures var x, y := SortByKey(f), SortByKey(g);
            |x| == |y| && forall i :: 0 <= i < |x| ==> x[i].key == y[i].key
  {
    SortSorts(f);
    SortSorts(g);
    hide SortByKey, HasKey, Sorted, DistinctKeys;
    forall key: Text
      ensures HasKey(SortByKey(f), key) <==> HasKey(SortByKey(g), key)
    {
      SortKeepsKeys(f, key);
      SortKeepsKeys(g, key);
    }
    SortedAlike(SortByKey(f), SortByKey(g));
  }

  // equal values print the same

  ghost predicate EqualWhereKeysAre(f: seq<Field>, g: seq<Field>) {
    forall x <- f, y <- g :: x.key == y.key ==> Equiv(x.value, y.value)
  }

  lemma EqualObjects(f: seq<Field>, g: seq<Field>)
    ensures Equiv(Obj(f), Obj(g)) <==> SameKeys(f, g) && EqualWhereKeysAre(f, g)
  {
    if Equiv(Obj(f), Obj(g)) {
      forall x, y | x in f && y in g && x.key == y.key
        ensures Equiv(x.value, y.value)
      {
        var i :| 0 <= i < |f| && f[i] == x;
        var j :| 0 <= j < |g| && g[j] == y;
      }
    }
  }

  lemma SortedFieldsAlign(f: seq<Field>, g: seq<Field>)
    requires DistinctKeys(f) && DistinctKeys(g) && SameKeys(f, g) && EqualWhereKeysAre(f, g)
    ensures var x, y := SortByKey(f), SortByKey(g);
            |x| == |y| && forall i :: 0 <= i < |x| ==> x[i].key == y[i].key && Equiv(x[i].value, y[i].value)
  {
    SortedSameKeys(f, g);
    SortKeepsFields(f);
    SortKeepsFields(g);
    hide SortByKey, Equiv, SameKeys, WellFormed;
  }

  lemma WellFormedFields(fields: seq<Field>)
    requires WellFormed(Obj(fields))
    ensures DistinctKeys(fields) && FieldsWellFormed(fields) && FieldsWellFormed(SortByKey(fields))
  {
    SortKeepsFields(fields);
  }

  lemma EqualValuesPrintAlike(v: Json, w: Json)
    requires WellFormed(v) && WellFormed(w) && Equiv(v, w)
    ensures Print(v) == Print(w)
    decreases Size(v), 0
  {
    match v
    case Arr(items) => EqualItemsPrintAlike(items, w.items);
    case Obj(fields) =>
      assert w == Obj(w.fields);
      EqualObjects(fields, w.fields);
      WellFormedFields(fields);
      WellFormedFields(w.fields);
      hide SortByKey, Equiv, WellFormed, SameKeys, EqualWhereKeysAre, FieldsWellFormed, DistinctKeys;
      SortedFieldsAlign(fields, w.fields);
      EqualFieldsPrintAlike(SortByKey(fields), SortByKey(w.fields));
    case _ =>
  }

  lemma {:induction false} EqualItemsPrintAlike(a: seq<Json>, b: seq<Json>)
    requires |a| == |b| && forall i :: 0 <= i < |a| ==> Equiv(a[i], b[i]) && WellFormed(a[i]) && WellFormed(b[i])
    ensures PrintItems(a) == PrintItems(b)
    decreases ItemsSize(a), 1
  {
    if a != [] {
      hide Equiv, WellFormed, Print;
      EqualValuesPrintAlike(a[0], b[0]);
      EqualItemsPrintAlike(a[1..], b[1..]);
    }
  }

  lemma {:induction false} EqualFieldsPrintAlike(f: seq<Field>, g: seq<Field>)
    requires |f| == |g| && FieldsWellFormed(f) && FieldsWellFormed(g)
    requires forall i :: 0 <= i < |f| ==> f[i].key == g[i].key && Equiv(f[i].value, g[i].value)
    ensures PrintFields(f) == PrintFields(g)
    decreases FieldsSize(f), 1
  {
    if f != [] {
      hide Equiv, WellFormed, Print, Quoted;
      EqualValuesPrintAlike(f[0].value, g[0].value);
      EqualFieldsPrintAlike(f[1..], g[1..]);
    }
  }

  // values with the same normal form are equal

  lemma {:induction false} NormItemsAt(items: seq<Json>)
    ensures |NormItems(items)| == |items|
    ensures forall i :: 0 <= i < |items| ==> NormItems(items)[i] == Norm(items[i])
  {
    if items != [] {
      hide Norm;
      NormItemsAt(items[1..]);
    }
  }

  lemma {:induction false} NormFieldsAt(fields: seq<Field>)
    ensures |NormFields(fields)| == |fields|
    ensures forall i :: 0 <= i < |fields| ==> NormFields(fields)[i] == Field(fields[i].key, Norm(fields[i].value))
  {
    if fields != [] {
      hide Norm;
      NormFieldsAt(fields[1..]);
    }
  }

  lemma SameNormIsEqual(v: Json, w: Json)
    requires WellFormed(v) && WellFormed(w) && Norm(v) == Norm(w)
    ensures Equiv(v, w)
    decreases v
  {
    match v
    case Arr(items) =>
      NormItemsAt(items);
      NormItemsAt(w.items);
      forall i | 0 <= i < |items|
        ensures Equiv(items[i], w.items[i])
      {
        SameNormIsEqual(items[i], w.items[i]);
      }
    case Obj(fields) =>
      assert w == Obj(w.fields);
      WellFormedFields(fields);
      WellFormedFields(w.fields);
      SameNormAligns(fields, w.fields);
      forall i, j | 0 <= i < |fields| && 0 <= j < |w.fields| && fields[i].key == w.fields[j].key
        ensures Equiv(fields[i].value, w.fields[j].value)
      {
        assert fields[i] in fields && w.fields[j] in w.fields;
        SameNormIsEqual(fields[i].value, w.fields[j].value);
      }
    case _ =>
  }

  ghost predicate Aligned(x: seq<Field>, y: seq<Field>) {
    |x| == |y| && forall i :: 0 <= i < |x| ==> x[i].key == y[i].key && Norm(x[i].value) == Norm(y[i].value)
  }

  lemma SameNormAligned(x: seq<Field>, y: seq<Field>)
    requires NormFields(x) == NormFields(y)
    ensures Aligned(x, y)
  {
    NormFieldsAt(x);
    NormFieldsAt(y);
    hide Norm, NormFields;
    forall i | 0 <= i < |x|
      ensures x[i].key == y[i].key && Norm(x[i].value) == Norm(y[i].value)
    {
      assert NormFields(x)[i] == NormFields(y)[i];
    }
  }

  lemma SortedKeyOnce(x: seq<Field>, i: nat, j: nat)
    requires Sorted(x) && i < |x| && j < |x| && x[i].key == x[j].key
    ensures i == j
  {
    LessIsStrict(x[i].key, x[j].key);
  }

  lemma AlignedValues(x: seq<Field>, y: seq<Field>, a: Field, b: Field)
    requires Sorted(x) && Sorted(y) && Aligned(x, y) && a in x && b in y && a.key == b.key
    ensures Norm(a.value) == Norm(b.value)
  {
    hide Norm;
    var i :| 0 <= i < |x| && x[i] == a;
    var j :| 0 <= j < |y| && y[j] == b;
    SortedKeyOnce(y, i, j);
  }

  lemma SameNormAligns(f: seq<Field>, g: seq<Field>)
    requires DistinctKeys(f) && DistinctKeys(g)
    requires NormFields(SortByKey(f)) == NormFields(SortByKey(g))
    ensures SameKeys(f, g)
    ensures forall x <- f, y <- g :: x.key == y.key ==> Norm(x.value) == Norm(y.value)
  {
    var x, y := SortByKey(f), SortByKey(g);
    SameNormAligned(x, y);
    SortKeepsFields(f);
    SortKeepsFields(g);
    SortSorts(f);
    SortSorts(g);
    hide SortByKey, Norm, NormFields, DistinctKeys, Sorted, HasKey;
    forall a, b | a in f && b in g && a.key == b.key
      ensures Norm(a.value) == Norm(b.value)
    {
      AlignedValues(x, y, a, b);
    }
    forall key: Text
      ensures HasKey(f, key) <==> HasKey(g, key)
    {
      AlignedKeys(x, y, key);
      SortKeepsKeys(f, key);
      SortKeepsKeys(g, key);
    }
  }

  lemma AlignedKeys(x: seq<Field>, y: seq<Field>, key: Text)
    requires |x| == |y| && forall i :: 0 <= i < |x| ==> x[i].key == y[i].key
    ensures HasKey(x, key) <==> HasKey(y, key)
  {
    if HasKey(x, key) {
      var f :| f in x && f.key == key;
      var i :| 0 <= i < |x| && x[i] == f;
      assert y[i] in y;
    }
    if HasKey(y, key) {
      var f :| f in y && f.key == key;
      var i :| 0 <= i < |y| && y[i] == f;
      assert x[i] in x;
    }
  }

  /** Two values print the same exactly when they are equal up to key order. */
  lemma PrintIsCanonical(v: Json, w: Json)
    requires WellFormed(v) && WellFormed(w)
    ensures Print(v) == Print(w) <==> Equiv(v, w)
  {
    if Print(v) == Print(w) {
      ReadsBack(v, []);
      ReadsBack(w, []);
      assert Print(v) + [] == Print(w) + [];
      SameNormIsEqual(v, w);
    }
    if Equiv(v, w) {
      EqualValuesPrintAlike(v, w);
    }
  }

  // ---- Fingerprints ----

  /** Bytes of the UTF-8 encoding. */
  function Utf8Length(t: Text): nat {
    if t == [] then 0
    else if |t| > 1 && IsLead(t[0]) && IsTrail(t[1]) then 4 + Utf8Length(t[2..])
    else (if t[0] < 0x80 then 1 else if t[0] < 0x800 then 2 else 3) + Utf8Length(t[1..])
  }

  /** "hashv1:" */
  const HASH_TAG: Text := [104, 97, 115, 104, 118, 49, 58]

  function Fingerprint(v: Json, threshold: int, hash: Text -> Text): Text {
    var stable := Print(v);
    if Utf8Length(stable) > threshold then HASH_TAG + hash(stable) else stable
  }

  /** Fingerprints agree exactly for payloads equal up to key order, as long as the
      hash of the two printed payloads does not collide; a hashed fingerprint is
      never mistaken for a printed one. */
  lemma FingerprintsIdentifyPayloads(v: Json, w: Json, threshold: int, hash: Text -> Text)
    requires WellFormed(v) && WellFormed(w)
    requires hash(Print(v)) == hash(Print(w)) ==> Print(v) == Print(w)
    ensures Fingerprint(v, threshold, hash) == Fingerprint(w, threshold, hash) <==> Equiv(v, w)
  {
    PrintIsCanonical(v, w);
    ValueStarts(v);
    ValueStarts(w);
    hide Print, Equiv, WellFormed, Utf8Length;
    var x, y := HASH_TAG + hash(Print(v)), HASH_TAG + hash(Print(w));
    assert x[0] == 104 && y[0] == 104 && x[7..] == hash(Print(v)) && y[7..] == hash(Print(w));
  }
}
