/** The canonical JSON that requests to Hermes are signed over. Text is a sequence of UTF-16 code units. */
module CanonicalJson {
  import opened Sorting

  type Unit = u: int | 0 <= u < 0x1_0000

  type Text = seq<Unit>

  /** A number is kept as the text that the host prints for it. */
  datatype Json =
    | Null | Bool(truth: bool) | Num(text: Text) | Str(text: Text) | Arr(items: seq<Json>) | Obj(fields: seq<Field>)

  datatype Field = Field(key: Text, value: Json)

  /** What a JSON value means: its objects have no key order. */
  datatype Value =
    | VNull | VBool(truth: bool) | VNum(text: Text) | VStr(text: Text)
    | VArr(items: seq<Value>) | VObj(fields: map<Text, Value>)

  // ----- keys

  function Keys(fields: seq<Field>): set<Text> {
    set f <- fields :: f.key
  }

  predicate Distinct(fields: seq<Field>) {
    forall i, j :: 0 <= i < j < |fields| ==> fields[i].key != fields[j].key
  }

  /** Comparison of strings by code units, as the host's `<` does it. */
  predicate Less(a: Text, b: Text) {
    b != [] && (a == [] || a[0] < b[0] || (a[0] == b[0] && Less(a[1..], b[1..])))
  }

  predicate IsDigit(u: Unit) {
    0x30 <= u <= 0x39
  }

  function IndexValue(key: Text): int {
    if key == [] then 0 else IndexValue(key[..|key| - 1]) * 10 + (key[|key| - 1] as int - 0x30)
  }

  /**
   An array index in the host's sense: a decimal without leading zeros, at most 2^32 - 2. Objects list such keys first,
   by value.
   */
  predicate IsIndex(key: Text) {
    && key != [] && (forall u <- key :: IsDigit(u))
    && (key[0] == 0x30 ==> |key| == 1)
    && IndexValue(key) <= 0xFFFF_FFFE
  }

  // ----- normalisation

  predicate Precedes(byValue: bool, a: Text, b: Text) {
    if byValue then IndexValue(a) < IndexValue(b) else Less(a, b)
  }

  function ByKey(byValue: bool): (Field, Field) -> bool {
    (a: Field, b: Field) => Precedes(byValue, a.key, b.key)
  }

  function Select(fields: seq<Field>, index: bool): seq<Field> {
    if fields == [] then []
    else (if IsIndex(fields[0].key) == index then [fields[0]] else []) + Select(fields[1..], index)
  }

  /** The order in which an object lists its own keys: array indices by value, then the others as they were added. */
  function Listed(fields: seq<Field>): seq<Field> {
    Sort(ByKey(true), Select(fields, true)) + Select(fields, false)
  }

  /** Sorting compares keys only, so that it does not matter whether the values are normalized before or after it. */
  function Normalize(v: Json): Json
    decreases v
  {
    match v
    case Arr(items) => Arr(NormalizeItems(items))
    case Obj(fields) => Obj(Listed(Sort(ByKey(false), NormalizeFields(fields))))
    case _ => v
  }

  function NormalizeItems(items: seq<Json>): seq<Json>
    decreases items
  {
    if items == [] then [] else [Normalize(items[0])] + NormalizeItems(items[1..])
  }

  function NormalizeFields(fields: seq<Field>): seq<Field>
    decreases fields
  {
    if fields == [] then [] else [Field(fields[0].key, Normalize(fields[0].value))] + NormalizeFields(fields[1..])
  }

  // ----- meaning

  function Meaning(v: Json): Value
    decreases v
  {
    match v
    case Null => VNull
    case Bool(truth) => VBool(truth)
    case Num(text) => VNum(text)
    case Str(text) => VStr(text)
    case Arr(items) => VArr(ItemMeanings(items))
    case Obj(fields) => VObj(FieldMeanings(fields))
  }

  function ItemMeanings(items: seq<Json>): seq<Value>
    decreases items
  {
    if items == [] then [] else [Meaning(items[0])] + ItemMeanings(items[1..])
  }

  function FieldMeanings(fields: seq<Field>): map<Text, Value>
    decreases fields
  {
    if fields == [] then map[] else FieldMeanings(fields[1..])[fields[0].key := Meaning(fields[0].value)]
  }

  predicate IsNumberUnit(u: Unit) {
    IsDigit(u) || u == 0x2B || u == 0x2D || u == 0x2E || u == 0x45 || u == 0x65
  }

  /** Keys are distinct at every depth, and numbers are printed as numbers. */
  predicate WellFormed(v: Json)
    decreases v
  {
    match v
    case Num(text) => text != [] && (IsDigit(text[0]) || text[0] == 0x2D) && forall u <- text :: IsNumberUnit(u)
    case Arr(items) => forall i :: 0 <= i < |items| ==> WellFormed(items[i])
    case Obj(fields) => Distinct(fields) && forall i :: 0 <= i < |fields| ==> WellFormed(fields[i].value)
    case _ => true
  }

  // ----- the printer

  function Hex(n: int): Unit
    requires 0 <= n < 16
  {
    if n < 10 then 0x30 + n else 0x61 + (n - 10)
  }

  function Escaped(u: Unit): Text {
    [0x5C, 0x75, Hex(u / 16 / 16 / 16), Hex(u / 16 / 16 % 16), Hex(u / 16 % 16), Hex(u % 16)]
  }

  predicate IsHigh(u: Unit) {
    0xD800 <= u <= 0xDBFF
  }

  predicate IsLow(u: Unit) {
    0xDC00 <= u <= 0xDFFF
  }

  /** How many units the printer takes at once: a surrogate pair, or one. */
  function Head(s: Text): nat
    requires s != []
  {
    if |s| > 1 && IsHigh(s[0]) && IsLow(s[1]) then 2 else 1
  }

  function Shown(s: Text): Text
    requires s != []
  {
    if Head(s) == 2 then s[..2]
    else if s[0] == 0x22 then [0x5C, 0x22]
    else if s[0] == 0x5C then [0x5C, 0x5C]
    else if s[0] == 0x08 then [0x5C, 0x62]
    else if s[0] == 0x0C then [0x5C, 0x66]
    else if s[0] == 0x0A then [0x5C, 0x6E]
    else if s[0] == 0x0D then [0x5C, 0x72]
    else if s[0] == 0x09 then [0x5C, 0x74]
    else if s[0] < 0x20 || IsHigh(s[0]) || IsLow(s[0]) then Escaped(s[0])
    else [s[0]]
  }

  function Inside(s: Text): Text {
    if s == [] then [0x22] else Shown(s) + Inside(s[Head(s)..])
  }

  function Quote(s: Text): Text {
    [0x22] + Inside(s)
  }

  function Print(v: Json): Text
    decreases v
  {
    match v
    case Null => [0x6E, 0x75, 0x6C, 0x6C]
    case Bool(true) => [0x74, 0x72, 0x75, 0x65]
    case Bool(false) => [0x66, 0x61, 0x6C, 0x73, 0x65]
    case Num(text) => text
    case Str(text) => Quote(text)
    case Arr(items) => [0x5B] + PrintItems(items)
    case Obj(fields) => [0x7B] + PrintFields(fields)
  }

  /** The items with their commas and the closing bracket. */
  function PrintItems(items: seq<Json>): Text
    decreases items
  {
    if items == [] then [0x5D]
    else if |items| == 1 then Print(items[0]) + [0x5D]
    else Print(items[0]) + ([0x2C] + PrintItems(items[1..]))
  }

  function PrintFields(fields: seq<Field>): Text
    decreases fields
  {
    if fields == [] then [0x7D]
    else if |fields| == 1 then Quote(fields[0].key) + ([0x3A] + (Print(fields[0].value) + [0x7D]))
    else Quote(fields[0].key) + ([0x3A] + (Print(fields[0].value) + ([0x2C] + PrintFields(fields[1..]))))
  }

  function Canonical(v: Json): Text {
    Print(Normalize(v))
  }

  // ----- the printed text can be read back in one way only

  predicate Delimited(x: Text) {
    x == [] || x[0] == 0x2C || x[0] == 0x5D || x[0] == 0x7D
  }

  lemma EscapedDecodes(u: Unit, v: Unit)
    requires Escaped(u) == Escaped(v)
    ensures u == v
  {
  }

  /** The length of a shown token can be told from its first two units. */
  lemma ShownLength(s: Text, t: Text, x: Text, y: Text)
    requires s != [] && t != [] && Shown(s) + x == Shown(t) + y
    ensures |Shown(s)| == |Shown(t)|
  {
    var z := Shown(s) + x;
    assert z[0] == Shown(s)[0] == Shown(t)[0];
    if z[0] == 0x5C {
      assert z[1] == Shown(s)[1] == Shown(t)[1];
    }
  }

  lemma ShownDecodes(s: Text, t: Text, x: Text, y: Text)
    requires s != [] && t != [] && Shown(s) + x == Shown(t) + y
    ensures Head(s) == Head(t) && s[..Head(s)] == t[..Head(t)] && x == y
  {
    ShownLength(s, t, x, y);
    var n := |Shown(s)|;
    assert Shown(s) == (Shown(s) + x)[..n] == Shown(t);
    assert x == (Shown(s) + x)[n..] == y;
    if n == 6 {
      EscapedDecodes(s[0], t[0]);
    } else {
      assert Shown(s)[0] == Shown(t)[0] && Shown(s)[n - 1] == Shown(t)[n - 1];
    }
  }

  predicate StartsWith(z: Text, u: Unit) {
    z != [] && z[0] == u
  }

  /** Only the end of a string shows a bare quotation mark. */
  lemma InsideStarts(s: Text, x: Text)
    ensures StartsWith(Inside(s) + x, 0x22) <==> s == []
  {
  }

  lemma InsideSplit(s: Text, x: Text)
    requires s != []
    ensures Inside(s) + x == Shown(s) + (Inside(s[Head(s)..]) + x)
  {
  }

  lemma {:induction false} InsideDecodes(s: Text, t: Text, x: Text, y: Text)
    requires Inside(s) + x == Inside(t) + y
    ensures s == t && x == y
    decreases |s|
  {
    InsideStarts(s, x);
    InsideStarts(t, y);
    if s == [] {
      assert x == (Inside(s) + x)[1..] == y;
    } else {
      InsideSplit(s, x);
      InsideSplit(t, y);
      var a, b := s[Head(s)..], t[Head(t)..];
      ShownDecodes(s, t, Inside(a) + x, Inside(b) + y);
      InsideDecodes(a, b, x, y);
      assert s == s[..Head(s)] + a && t == t[..Head(t)] + b;
    }
  }

  lemma QuoteDecodes(s: Text, t: Text, x: Text, y: Text)
    requires Quote(s) + x == Quote(t) + y
    ensures s == t && x == y
  {
    assert (Quote(s) + x)[1..] == Inside(s) + x && (Quote(t) + y)[1..] == Inside(t) + y;
    InsideDecodes(s, t, x, y);
  }

  predicate StartsNumber(z: Text) {
    z != [] && IsNumberUnit(z[0])
  }

  lemma NumberStarts(s: Text, x: Text)
    requires (forall u <- s :: IsNumberUnit(u)) && Delimited(x)
    ensures StartsNumber(s + x) <==> s != []
  {
  }

  lemma {:induction false} NumberDecodes(s: Text, t: Text, x: Text, y: Text)
    requires (forall u <- s :: IsNumberUnit(u)) && (forall u <- t :: IsNumberUnit(u))
    requires Delimited(x) && Delimited(y) && s + x == t + y
    ensures s == t && x == y
    decreases |s|
  {
    var z := s + x;
    NumberStarts(s, x);
    NumberStarts(t, y);
    if s == [] {
      assert z == x && z == y;
    } else {
      assert z[0] == s[0] == t[0];
      assert z[1..] == s[1..] + x == t[1..] + y;
      NumberDecodes(s[1..], t[1..], x, y);
      assert s == [s[0]] + s[1..] && t == [t[0]] + t[1..];
    }
  }

  /** Which constructor a printed value starts like. */
  function Kind(v: Json): nat {
    match v
    case Null => 0
    case Bool(true) => 1
    case Bool(false) => 2
    case Num(_) => 3
    case Str(_) => 4
    case Arr(_) => 5
    case Obj(_) => 6
  }

  lemma PrintStarts(v: Json)
    requires WellFormed(v)
    ensures Print(v) != []
    ensures Print(v)[0] == (match v
      case Null => 0x6E
      case Bool(true) => 0x74
      case Bool(false) => 0x66
      case Num(text) => text[0]
      case Str(_) => 0x22
      case Arr(_) => 0x5B
      case Obj(_) => 0x7B)
  {
  }

  lemma SameKind(a: Json, b: Json, x: Text, y: Text)
    requires WellFormed(a) && WellFormed(b) && Print(a) + x == Print(b) + y
    ensures Kind(a) == Kind(b)
  {
    PrintStarts(a);
    PrintStarts(b);
    assert (Print(a) + x)[0] == Print(a)[0] == Print(b)[0];
  }

  lemma LeafDecodes(a: Json, b: Json, x: Text, y: Text)
    requires WellFormed(a) && WellFormed(b) && Delimited(x) && Delimited(y) && Print(a) + x == Print(b) + y
    requires Kind(a) == Kind(b) && !a.Arr? && !a.Obj?
    ensures a == b && x == y
  {
    if a.Num? {
      NumberDecodes(a.text, b.text, x, y);
    } else if a.Str? {
      QuoteDecodes(a.text, b.text, x, y);
    } else {
      assert a == b;
      assert x == (Print(a) + x)[|Print(a)|..] == y;
    }
  }

  lemma OpenedDecodes(open: Unit, a: Text, b: Text, x: Text, y: Text)
    requires ([open] + a) + x == ([open] + b) + y
    ensures a + x == b + y
  {
    assert (([open] + a) + x)[1..] == a + x && (([open] + b) + y)[1..] == b + y;
  }

  /** A printed value followed by a delimiter determines the value and what follows it. */
  lemma {:induction false} PrintDecodes(a: Json, b: Json, x: Text, y: Text)
    requires WellFormed(a) && WellFormed(b) && Delimited(x) && Delimited(y) && Print(a) + x == Print(b) + y
    ensures a == b && x == y
    decreases a
  {
    SameKind(a, b, x, y);
    if a.Arr? {
      OpenedDecodes(0x5B, PrintItems(a.items), PrintItems(b.items), x, y);
      ItemsDecode(a.items, b.items, x, y);
    } else if a.Obj? {
      OpenedDecodes(0x7B, PrintFields(a.fields), PrintFields(b.fields), x, y);
      FieldsDecode(a.fields, b.fields, x, y);
    } else {
      LeafDecodes(a, b, x, y);
    }
  }

  /** After an item comes a comma with the rest, or the bracket. */
  function ItemsTail(items: seq<Json>, x: Text): Text
    requires items != []
  {
    if |items| == 1 then [0x5D] + x else [0x2C] + (PrintItems(items[1..]) + x)
  }

  lemma ItemsSplit(items: seq<Json>, x: Text)
    requires items != []
    ensures PrintItems(items) + x == Print(items[0]) + ItemsTail(items, x)
  {
  }

  lemma {:induction false} ItemsDecode(a: seq<Json>, b: seq<Json>, x: Text, y: Text)
    requires forall i :: 0 <= i < |a| ==> WellFormed(a[i])
    requires forall i :: 0 <= i < |b| ==> WellFormed(b[i])
    requires PrintItems(a) + x == PrintItems(b) + y
    ensures a == b && x == y
    decreases a
  {
    ItemsStart(a, x);
    ItemsStart(b, y);
    if a == [] {
      assert x == (PrintItems(a) + x)[1..] == y;
    } else {
      ItemsSplit(a, x);
      ItemsSplit(b, y);
      var u, v := ItemsTail(a, x), ItemsTail(b, y);
      PrintDecodes(a[0], b[0], u, v);
      assert u[0] == v[0] && u[1..] == v[1..];
      if |a| == 1 {
        assert u[1..] == x && v[1..] == y;
        assert a == [a[0]] && b == [b[0]];
      } else {
        assert u[1..] == PrintItems(a[1..]) + x && v[1..] == PrintItems(b[1..]) + y;
        ItemsDecode(a[1..], b[1..], x, y);
        assert a == [a[0]] + a[1..] && b == [b[0]] + b[1..];
      }
    }
  }

  lemma ItemsStart(a: seq<Json>, x: Text)
    requires forall i :: 0 <= i < |a| ==> WellFormed(a[i])
    ensures StartsWith(PrintItems(a) + x, 0x5D) <==> a == []
  {
    if a != [] {
      ItemsSplit(a, x);
      PrintStarts(a[0]);
      assert (PrintItems(a) + x)[0] == Print(a[0])[0];
    }
  }

  lemma FieldsStart(a: seq<Field>, x: Text)
    ensures StartsWith(PrintFields(a) + x, 0x7D) <==> a == []
  {
  }

  function FieldsTail(fields: seq<Field>, x: Text): Text
    requires fields != []
  {
    if |fields| == 1 then [0x7D] + x else [0x2C] + (PrintFields(fields[1..]) + x)
  }

  lemma FieldsSplit(fields: seq<Field>, x: Text)
    requires fields != []
    ensures PrintFields(fields) + x ==
        Quote(fields[0].key) + ([0x3A] + (Print(fields[0].value) + FieldsTail(fields, x)))
  {
  }

  lemma {:induction false} FieldsDecode(a: seq<Field>, b: seq<Field>, x: Text, y: Text)
    requires forall i :: 0 <= i < |a| ==> WellFormed(a[i].value)
    requires forall i :: 0 <= i < |b| ==> WellFormed(b[i].value)
    requires PrintFields(a) + x == PrintFields(b) + y
    ensures a == b && x == y
    decreases a
  {
    FieldsStart(a, x);
    FieldsStart(b, y);
    if a == [] {
      assert x == (PrintFields(a) + x)[1..] == y;
    } else {
      FieldsSplit(a, x);
      FieldsSplit(b, y);
      var u, v := FieldsTail(a, x), FieldsTail(b, y);
      FieldDecodes(a[0], b[0], u, v);
      FieldsTailDecodes(a, b, x, y);
      if |a| > 1 {
        FieldsDecode(a[1..], b[1..], x, y);
        assert a == [a[0]] + a[1..] && b == [b[0]] + b[1..];
      }
    }
  }

  lemma FieldsTailDecodes(a: seq<Field>, b: seq<Field>, x: Text, y: Text)
    requires a != [] && b != [] && FieldsTail(a, x) == FieldsTail(b, y)
    ensures |a| == 1 <==> |b| == 1
    ensures |a| == 1 ==> x == y
    ensures |a| > 1 ==> PrintFields(a[1..]) + x == PrintFields(b[1..]) + y
  {
    var u, v := FieldsTail(a, x), FieldsTail(b, y);
    assert u[0] == v[0] && u[1..] == v[1..];
    assert u[1..] == (if |a| == 1 then x else PrintFields(a[1..]) + x);
    assert v[1..] == (if |b| == 1 then y else PrintFields(b[1..]) + y);
  }

  lemma {:induction false} FieldDecodes(f: Field, g: Field, u: Text, v: Text)
    requires WellFormed(f.value) && WellFormed(g.value) && Delimited(u) && Delimited(v)
    requires Quote(f.key) + ([0x3A] + (Print(f.value) + u)) == Quote(g.key) + ([0x3A] + (Print(g.value) + v))
    ensures f == g && u == v
    decreases f, 0
  {
    var p, q := Print(f.value) + u, Print(g.value) + v;
    QuoteDecodes(f.key, g.key, [0x3A] + p, [0x3A] + q);
    assert p == ([0x3A] + p)[1..] == ([0x3A] + q)[1..] == q;
    PrintDecodes(f.value, g.value, u, v);
  }

  // ----- sorting

  lemma {:induction false} LessIsTotal(a: Text, b: Text)
    ensures (Less(a, b) && !Less(b, a) && a != b) || (Less(b, a) && !Less(a, b) && a != b) || (a == b && !Less(a, b))
    decreases |a|
  {
    if a != [] && b != [] && a[0] == b[0] {
      LessIsTotal(a[1..], b[1..]);
      assert a == [a[0]] + a[1..] && b == [b[0]] + b[1..];
    }
  }

  lemma {:induction false} LessIsTransitive(a: Text, b: Text, c: Text)
    requires Less(a, b) && Less(b, c)
    ensures Less(a, c)
    decreases |a|
  {
    if a != [] && a[0] == b[0] == c[0] {
      LessIsTransitive(a[1..], b[1..], c[1..]);
    }
  }

  lemma {:induction false} SelectPermutes(s: seq<Field>)
    ensures multiset(Select(s, true)) + multiset(Select(s, false)) == multiset(s)
    decreases |s|
  {
    if s != [] {
      SelectPermutes(s[1..]);
      assert s == [s[0]] + s[1..];
    }
  }

  lemma ListedPermutes(s: seq<Field>)
    ensures multiset(Listed(s)) == multiset(s)
  {
    SortPermutes(ByKey(true), Select(s, true));
    SelectPermutes(s);
  }

  lemma KeysAreAnOrder(byValue: bool)
    ensures IsOrder(ByKey(byValue))
  {
    var before := ByKey(byValue);
    forall f: Field, g: Field | before(f, g) ensures !before(g, f) {
      LessIsTotal(f.key, g.key);
    }
    forall f: Field, g: Field, h: Field | !before(g, f) && !before(h, g) ensures !before(h, f) {
      PrecedesIsTransitive(byValue, f.key, g.key, h.key);
    }
  }

  lemma PrecedesIsTransitive(byValue: bool, a: Text, b: Text, c: Text)
    requires !Precedes(byValue, b, a) && !Precedes(byValue, c, b)
    ensures !Precedes(byValue, c, a)
  {
    if !byValue && Less(c, a) {
      LessIsTotal(a, b);
      LessIsTotal(b, c);
      LessIsTotal(a, c);
      if a != b && b != c {
        LessIsTransitive(a, b, c);
      }
    }
  }

  lemma DistinctPermutes(a: seq<Field>, b: seq<Field>)
    requires Distinct(a) && multiset(a) == multiset(b)
    ensures Distinct(b) && SameElements(a, b)
  {
    PermutationKeepsDistinct((f: Field) => f.key, a, b);
  }

  ghost predicate KeySorted(fields: seq<Field>) {
    forall i, j :: 0 <= i < j < |fields| ==> Less(fields[i].key, fields[j].key)
  }

  lemma DistinctIsAscending(s: seq<Field>)
    requires Distinct(s) && Sorted(ByKey(false), s)
    ensures KeySorted(s) && Ascending(ByKey(false), s)
  {
    forall i, j | 0 <= i < j < |s| ensures Less(s[i].key, s[j].key) {
      assert !ByKey(false)(s[j], s[i]);
      LessIsTotal(s[i].key, s[j].key);
    }
  }

  // ----- normalisation and meaning

  lemma {:induction false} FieldMeaningsAt(s: seq<Field>)
    requires Distinct(s)
    ensures forall f :: f in s ==> f.key in FieldMeanings(s) && FieldMeanings(s)[f.key] == Meaning(f.value)
    ensures forall k :: k in FieldMeanings(s) ==> exists f :: f in s && f.key == k
    decreases |s|
  {
    if s != [] {
      var rest := s[1..];
      FieldMeaningsAt(rest);
      assert s == [s[0]] + rest;
      forall f | f in rest ensures f.key != s[0].key {
      }
      forall k | k in FieldMeanings(s) ensures exists f :: f in s && f.key == k {
        if k == s[0].key {
          assert s[0] in s;
        } else {
          var f :| f in rest && f.key == k;
          assert f in s;
        }
      }
    }
  }

  lemma MeaningOfElements(a: seq<Field>, b: seq<Field>)
    requires Distinct(a) && Distinct(b) && SameElements(a, b)
    ensures FieldMeanings(a) == FieldMeanings(b)
  {
    FieldMeaningsAt(a);
    FieldMeaningsAt(b);
    forall k ensures k in FieldMeanings(a) <==> k in FieldMeanings(b) {
      if k in FieldMeanings(a) {
        var f :| f in a && f.key == k;
        assert f in b;
      }
      if k in FieldMeanings(b) {
        var f :| f in b && f.key == k;
        assert f in a;
      }
    }
    forall k | k in FieldMeanings(a) ensures FieldMeanings(a)[k] == FieldMeanings(b)[k] {
      var f :| f in a && f.key == k;
      assert f in b;
    }
  }

  lemma {:induction false} NormalizeFieldsAt(s: seq<Field>)
    ensures |NormalizeFields(s)| == |s|
    ensures forall i :: 0 <= i < |s| ==> NormalizeFields(s)[i] == Field(s[i].key, Normalize(s[i].value))
    decreases |s|
  {
    if s != [] {
      NormalizeFieldsAt(s[1..]);
      forall i | 1 <= i < |s| ensures NormalizeFields(s)[i] == Field(s[i].key, Normalize(s[i].value)) {
        assert NormalizeFields(s)[i] == NormalizeFields(s[1..])[i - 1];
      }
    }
  }

  lemma {:induction false} NormalizeItemsAt(s: seq<Json>)
    ensures |NormalizeItems(s)| == |s|
    ensures forall i :: 0 <= i < |s| ==> NormalizeItems(s)[i] == Normalize(s[i])
    decreases |s|
  {
    if s != [] {
      NormalizeItemsAt(s[1..]);
      forall i | 1 <= i < |s| ensures NormalizeItems(s)[i] == Normalize(s[i]) {
        assert NormalizeItems(s)[i] == NormalizeItems(s[1..])[i - 1];
      }
    }
  }

  /** The fields of a normalized object are its normalized fields, listed in another order. */
  lemma NormalFields(fields: seq<Field>)
    requires Distinct(fields)
    ensures var plain := NormalizeFields(fields);
      && Distinct(plain) && Distinct(Normalize(Obj(fields)).fields)
      && SameElements(plain, Normalize(Obj(fields)).fields)
  {
    NormalizeFieldsAt(fields);
    var plain := NormalizeFields(fields);
    SortPermutes(ByKey(false), plain);
    ListedPermutes(Sort(ByKey(false), plain));
    DistinctPermutes(plain, Listed(Sort(ByKey(false), plain)));
  }

  /** Normalisation changes neither the meaning nor the good form of a value. */
  lemma {:induction false} NormalizeKeepsMeaning(v: Json)
    requires WellFormed(v)
    ensures WellFormed(Normalize(v)) && Meaning(Normalize(v)) == Meaning(v)
    decreases v
  {
    match v
    case Arr(items) =>
      NormalizeItemsAt(items);
      ItemsKeepMeaning(items);
    case Obj(fields) =>
      NormalFields(fields);
      NormalizeFieldsAt(fields);
      FieldsKeepMeaning(fields);
      MeaningOfElements(NormalizeFields(fields), Normalize(v).fields);
      forall i | 0 <= i < |Normalize(v).fields| ensures WellFormed(Normalize(v).fields[i].value) {
        assert Normalize(v).fields[i] in NormalizeFields(fields);
      }
    case _ =>
  }

  lemma {:induction false} ItemsKeepMeaning(items: seq<Json>)
    requires forall i :: 0 <= i < |items| ==> WellFormed(items[i])
    ensures ItemMeanings(NormalizeItems(items)) == ItemMeanings(items)
    ensures forall i :: 0 <= i < |items| ==> WellFormed(Normalize(items[i]))
    decreases items
  {
    if items != [] {
      NormalizeKeepsMeaning(items[0]);
      ItemsKeepMeaning(items[1..]);
      assert NormalizeItems(items)[1..] == NormalizeItems(items[1..]);
      forall i | 0 <= i < |items| ensures WellFormed(Normalize(items[i])) {
        assert i > 0 ==> items[i] == items[1..][i - 1];
      }
    }
  }

  lemma {:induction false} FieldsKeepMeaning(fields: seq<Field>)
    requires forall i :: 0 <= i < |fields| ==> WellFormed(fields[i].value)
    ensures FieldMeanings(NormalizeFields(fields)) == FieldMeanings(fields)
    ensures forall i :: 0 <= i < |fields| ==> WellFormed(Normalize(fields[i].value))
    decreases fields
  {
    if fields != [] {
      NormalizeKeepsMeaning(fields[0].value);
      FieldsKeepMeaning(fields[1..]);
      assert NormalizeFields(fields)[1..] == NormalizeFields(fields[1..]);
      forall i | 0 <= i < |fields| ensures WellFormed(Normalize(fields[i].value)) {
        assert i > 0 ==> fields[i] == fields[1..][i - 1];
      }
    }
  }

  lemma {:induction false} ItemMeaningsAt(s: seq<Json>)
    ensures |ItemMeanings(s)| == |s| && forall i :: 0 <= i < |s| ==> ItemMeanings(s)[i] == Meaning(s[i])
    decreases |s|
  {
    if s != [] {
      ItemMeaningsAt(s[1..]);
      forall i | 1 <= i < |s| ensures ItemMeanings(s)[i] == Meaning(s[i]) {
        assert ItemMeanings(s)[i] == ItemMeanings(s[1..])[i - 1];
      }
    }
  }

  /** Values that mean the same have the same normal form. */
  lemma {:induction false} SameMeaningSameNormal(a: Json, b: Json)
    requires WellFormed(a) && WellFormed(b) && Meaning(a) == Meaning(b)
    ensures Normalize(a) == Normalize(b)
    decreases a
  {
    if a.Arr? {
      ItemsAgree(a.items, b.items);
    } else if a.Obj? {
      NormalizeFieldsAt(a.fields);
      NormalizeFieldsAt(b.fields);
      FieldsCovered(a.fields, b.fields);
      FieldsCover(a.fields, b.fields);
      SortedListsAgree(NormalizeFields(a.fields), NormalizeFields(b.fields));
    }
  }

  lemma {:induction false} ItemsAgree(a: seq<Json>, b: seq<Json>)
    requires forall i :: 0 <= i < |a| ==> WellFormed(a[i])
    requires forall i :: 0 <= i < |b| ==> WellFormed(b[i])
    requires ItemMeanings(a) == ItemMeanings(b)
    ensures NormalizeItems(a) == NormalizeItems(b)
    decreases a
  {
    ItemMeaningsAt(a);
    ItemMeaningsAt(b);
    if a != [] {
      SameMeaningSameNormal(a[0], b[0]);
      assert ItemMeanings(a)[1..] == ItemMeanings(a[1..]) && ItemMeanings(b)[1..] == ItemMeanings(b[1..]);
      ItemsAgree(a[1..], b[1..]);
    }
  }

  ghost predicate SameFieldMeanings(a: seq<Field>, b: seq<Field>) {
    && Distinct(a) && Distinct(b) && FieldMeanings(a) == FieldMeanings(b)
    && (forall i :: 0 <= i < |a| ==> WellFormed(a[i].value))
    && (forall i :: 0 <= i < |b| ==> WellFormed(b[i].value))
  }

  lemma {:induction false} FieldsCovered(a: seq<Field>, b: seq<Field>)
    requires SameFieldMeanings(a, b)
    ensures forall f :: f in NormalizeFields(a) ==> f in NormalizeFields(b)
    decreases a, 0
  {
    FieldMeaningsAt(a);
    FieldMeaningsAt(b);
    NormalizeFieldsAt(a);
    NormalizeFieldsAt(b);
    forall i | 0 <= i < |a| ensures NormalizeFields(a)[i] in NormalizeFields(b) {
      assert a[i] in a && a[i].key in FieldMeanings(b);
      var g :| g in b && g.key == a[i].key;
      var j :| 0 <= j < |b| && b[j] == g;
      SameMeaningSameNormal(a[i].value, b[j].value);
      assert NormalizeFields(a)[i] == NormalizeFields(b)[j];
    }
  }

  lemma {:induction false} FieldsCover(a: seq<Field>, b: seq<Field>)
    requires SameFieldMeanings(a, b)
    ensures forall f :: f in NormalizeFields(b) ==> f in NormalizeFields(a)
    decreases a, 0
  {
    FieldMeaningsAt(a);
    FieldMeaningsAt(b);
    NormalizeFieldsAt(a);
    NormalizeFieldsAt(b);
    forall j | 0 <= j < |b| ensures NormalizeFields(b)[j] in NormalizeFields(a) {
      assert b[j] in b && b[j].key in FieldMeanings(a);
      var g :| g in a && g.key == b[j].key;
      var i :| 0 <= i < |a| && a[i] == g;
      SameMeaningSameNormal(a[i].value, b[j].value);
      assert NormalizeFields(a)[i] == NormalizeFields(b)[j];
    }
  }

  lemma SortedListsAgree(x: seq<Field>, y: seq<Field>)
    requires Distinct(x) && Distinct(y) && SameElements(x, y)
    ensures Sort(ByKey(false), x) == Sort(ByKey(false), y)
  {
    var before := ByKey(false);
    KeysAreAnOrder(false);
    SortPermutes(before, x);
    SortPermutes(before, y);
    DistinctPermutes(x, Sort(before, x));
    DistinctPermutes(y, Sort(before, y));
    SortSorts(before, x);
    SortSorts(before, y);
    DistinctIsAscending(Sort(before, x));
    DistinctIsAscending(Sort(before, y));
    AscendingIsUnique(before, Sort(before, x), Sort(before, y));
  }

  /**
   Two values have the same canonical text exactly when they differ at most in the order of their keys, at any depth.
   */
  lemma CanonicalIffSameMeaning(a: Json, b: Json)
    requires WellFormed(a) && WellFormed(b)
    ensures Canonical(a) == Canonical(b) <==> Meaning(a) == Meaning(b)
  {
    NormalizeKeepsMeaning(a);
    NormalizeKeepsMeaning(b);
    if Canonical(a) == Canonical(b) {
      PrintDecodes(Normalize(a), Normalize(b), [], []);
    }
    if Meaning(a) == Meaning(b) {
      SameMeaningSameNormal(a, b);
    }
  }

  lemma NormalizeIsIdempotent(v: Json)
    requires WellFormed(v)
    ensures Normalize(Normalize(v)) == Normalize(v) && Canonical(Normalize(v)) == Canonical(v)
  {
    NormalizeKeepsMeaning(v);
    SameMeaningSameNormal(Normalize(v), v);
  }

  // ----- the key order of section 3.2.3 of RFC 8785

  /** Every object lists its keys in the order of their code units. */
  ghost predicate KeysOrdered(v: Json)
    decreases v
  {
    match v
    case Arr(items) => forall i :: 0 <= i < |items| ==> KeysOrdered(items[i])
    case Obj(fields) => KeySorted(fields) && forall i :: 0 <= i < |fields| ==> KeysOrdered(fields[i].value)
    case _ => true
  }

  /** Array indices among the keys come by code units as they come by value, and before all other keys. */
  ghost predicate IndicesAgree(keys: set<Text>) {
    forall x, y :: x in keys && y in keys && IsIndex(x) ==>
      if IsIndex(y) then IndexValue(x) < IndexValue(y) ==> Less(x, y) else Less(x, y)
  }

  ghost predicate AllIndicesAgree(v: Json)
    decreases v
  {
    match v
    case Arr(items) => forall i :: 0 <= i < |items| ==> AllIndicesAgree(items[i])
    case Obj(fields) => IndicesAgree(Keys(fields)) && forall i :: 0 <= i < |fields| ==> AllIndicesAgree(fields[i].value)
    case _ => true
  }

  lemma {:induction false} IndexValueBounds(key: Text)
    requires key != [] && (forall u <- key :: IsDigit(u))
    ensures 0 <= IndexValue(key)
    ensures key[0] != 0x30 ==> IndexValue(key) >= 1
    ensures key[0] != 0x30 && |key| > 1 ==> IndexValue(key) >= 10
    ensures |key| == 1 ==> IndexValue(key) < 10
    decreases |key|
  {
    var front := key[..|key| - 1];
    assert key[|key| - 1] in key;
    if front != [] {
      assert forall u <- front :: u in key;
      IndexValueBounds(front);
    }
  }

  /** Different array indices have different values, for they have no leading zeros. */
  lemma {:induction false} IndexValueIsInjective(a: Text, b: Text)
    requires a != [] && b != [] && (forall u <- a :: IsDigit(u)) && (forall u <- b :: IsDigit(u))
    requires (a[0] == 0x30 ==> |a| == 1) && (b[0] == 0x30 ==> |b| == 1)
    requires IndexValue(a) == IndexValue(b)
    ensures a == b
    decreases |a|
  {
    IndexValueBounds(a);
    IndexValueBounds(b);
    var x, y := a[..|a| - 1], b[..|b| - 1];
    assert a[|a| - 1] in a && b[|b| - 1] in b;
    assert (forall u <- x :: u in a) && (forall u <- y :: u in b);
    if x != [] && y != [] {
      assert IndexValue(x) == IndexValue(a) / 10 && IndexValue(y) == IndexValue(b) / 10;
      IndexValueIsInjective(x, y);
    }
    assert a == x + [a[|a| - 1]] && b == y + [b[|b| - 1]];
  }

  lemma {:induction false} SelectIs(s: seq<Field>, index: bool)
    ensures forall f :: f in Select(s, index) <==> f in s && IsIndex(f.key) == index
    ensures |Select(s, index)| <= |s|
    decreases |s|
  {
    if s != [] {
      SelectIs(s[1..], index);
      assert forall f :: f in s <==> f == s[0] || f in s[1..];
    }
  }

  lemma {:induction false} SelectKeepsOrder(s: seq<Field>, index: bool)
    requires KeySorted(s)
    ensures KeySorted(Select(s, index))
    decreases |s|
  {
    if s != [] {
      SelectKeepsOrder(s[1..], index);
      SelectIs(s[1..], index);
      forall f | f in Select(s[1..], index) ensures Less(s[0].key, f.key) {
        assert f in s[1..];
      }
    }
  }

  /** One object: its normal key order is the code unit order exactly when its array indices agree with it. */
  lemma ListedIsKeySortedIff(s: seq<Field>)
    requires Distinct(s) && KeySorted(s)
    ensures KeySorted(Listed(s)) <==> IndicesAgree(Keys(s))
  {
    var indices, others := Sort(ByKey(true), Select(s, true)), Select(s, false);
    SelectIs(s, true);
    SelectIs(s, false);
    KeysAreAnOrder(true);
    SortPermutes(ByKey(true), Select(s, true));
    SortSorts(ByKey(true), Select(s, true));
    ListedPermutes(s);
    DistinctPermutes(s, Listed(s));
    PermutationHasSameElements(Select(s, true), indices);
    assert Listed(s) == indices + others;
    if KeySorted(Listed(s)) {
      ListedMakesIndicesAgree(s, indices, others);
    }
    if IndicesAgree(Keys(s)) {
      SelectKeepsOrder(s, false);
      AgreementSorts(s, indices, others);
    }
  }

  lemma ListedMakesIndicesAgree(s: seq<Field>, indices: seq<Field>, others: seq<Field>)
    requires KeySorted(indices + others) && Sorted(ByKey(true), indices)
    requires forall f :: f in indices <==> f in s && IsIndex(f.key)
    requires forall f :: f in others <==> f in s && !IsIndex(f.key)
    ensures IndicesAgree(Keys(s))
  {
    forall x, y | x in Keys(s) && y in Keys(s) && IsIndex(x)
      ensures if IsIndex(y) then IndexValue(x) < IndexValue(y) ==> Less(x, y) else Less(x, y)
    {
      var f :| f in s && f.key == x;
      var g :| g in s && g.key == y;
      var i :| 0 <= i < |indices| && indices[i] == f;
      assert (indices + others)[i] == f;
      if IsIndex(g.key) {
        var j :| 0 <= j < |indices| && indices[j] == g;
        assert (indices + others)[j] == g;
      } else {
        var j :| 0 <= j < |others| && others[j] == g;
        assert (indices + others)[|indices| + j] == g;
      }
    }
  }

  lemma AgreementSorts(s: seq<Field>, indices: seq<Field>, others: seq<Field>)
    requires IndicesAgree(Keys(s)) && Distinct(indices + others) && Sorted(ByKey(true), indices) && KeySorted(others)
    requires forall f :: f in indices <==> f in s && IsIndex(f.key)
    requires forall f :: f in others <==> f in s && !IsIndex(f.key)
    ensures KeySorted(indices + others)
  {
    var all := indices + others;
    forall i, j | 0 <= i < j < |all| ensures Less(all[i].key, all[j].key) {
      if j < |indices| {
        assert indices[i] in s && indices[j] in s && all[i].key != all[j].key;
        if IndexValue(indices[i].key) == IndexValue(indices[j].key) {
          IndexValueIsInjective(indices[i].key, indices[j].key);
        }
      } else if i < |indices| {
        assert indices[i] in s && others[j - |indices|] in s;
      }
    }
  }

  /**
   The normal form orders keys as RFC 8785 asks exactly when, in every object, the array indices among the keys agree
   with that order.
   */
  lemma {:induction false} NormalOrderIsRfc8785Iff(v: Json)
    requires WellFormed(v)
    ensures KeysOrdered(Normalize(v)) <==> AllIndicesAgree(v)
    decreases v
  {
    match v
    case Arr(items) =>
      NormalizeItemsAt(items);
      forall i | 0 <= i < |items| ensures KeysOrdered(Normalize(items[i])) <==> AllIndicesAgree(items[i]) {
        NormalOrderIsRfc8785Iff(items[i]);
      }
      assert forall i :: 0 <= i < |items| ==> Normalize(v).items[i] == Normalize(items[i]);
    case Obj(fields) =>
      forall i | 0 <= i < |fields| ensures KeysOrdered(Normalize(fields[i].value)) <==>
          AllIndicesAgree(fields[i].value) {
        NormalOrderIsRfc8785Iff(fields[i].value);
      }
      ObjectOrder(fields);
    case _ =>
  }

  lemma ObjectOrder(fields: seq<Field>)
    requires Distinct(fields)
    requires forall i ::
        0 <= i < |fields| ==> (KeysOrdered(Normalize(fields[i].value)) <==> AllIndicesAgree(fields[i].value))
    ensures KeysOrdered(Normalize(Obj(fields))) <==> AllIndicesAgree(Obj(fields))
  {
    var plain := NormalizeFields(fields);
    var sorted := Sort(ByKey(false), plain);
    var listed := Listed(sorted);
    NormalizeFieldsAt(fields);
    NormalFields(fields);
    SortPermutes(ByKey(false), plain);
    DistinctPermutes(plain, sorted);
    KeysAreAnOrder(false);
    SortSorts(ByKey(false), plain);
    DistinctIsAscending(sorted);
    ListedIsKeySortedIff(sorted);
    SameKeys(fields, sorted);
    ValuesOrder(fields, listed);
  }

  lemma SameKeys(fields: seq<Field>, sorted: seq<Field>)
    requires SameElements(NormalizeFields(fields), sorted)
    ensures Keys(sorted) == Keys(fields)
  {
    var plain := NormalizeFields(fields);
    NormalizeFieldsAt(fields);
    forall k ensures k in Keys(fields) <==> k in Keys(sorted) {
      if k in Keys(fields) {
        var i :| 0 <= i < |fields| && fields[i].key == k;
        assert plain[i] in plain && plain[i] in sorted;
      }
      if k in Keys(sorted) {
        var g :| g in sorted && g.key == k;
        assert g in plain;
        var i :| 0 <= i < |plain| && plain[i] == g;
        assert fields[i] in fields;
      }
    }
  }

  lemma ValuesOrder(fields: seq<Field>, listed: seq<Field>)
    requires |NormalizeFields(fields)| == |fields|
        && forall i :: 0 <= i < |fields| ==>
        NormalizeFields(fields)[i] == Field(fields[i].key, Normalize(fields[i].value))
    requires SameElements(NormalizeFields(fields), listed)
    requires forall i ::
        0 <= i < |fields| ==> (KeysOrdered(Normalize(fields[i].value)) <==> AllIndicesAgree(fields[i].value))
    ensures (forall i :: 0 <= i < |listed| ==> KeysOrdered(listed[i].value)) <==>
        (forall i :: 0 <= i < |fields| ==> AllIndicesAgree(fields[i].value))
  {
    var plain := NormalizeFields(fields);
    if forall i :: 0 <= i < |listed| ==> KeysOrdered(listed[i].value) {
      forall i | 0 <= i < |fields| ensures AllIndicesAgree(fields[i].value) {
        assert plain[i] in listed;
        var j :| 0 <= j < |listed| && listed[j] == plain[i];
      }
    } else {
      var j :| 0 <= j < |listed| && !KeysOrdered(listed[j].value);
      assert listed[j] in plain;
      var i :| 0 <= i < |plain| && plain[i] == listed[j];
      assert !AllIndicesAgree(fields[i].value);
    }
  }

  /** The family where they do not agree is not empty: the host lists "9" before "10". */
  lemma NineBeforeTen()
    ensures var v := Obj([Field([0x31, 0x30], Null), Field([0x39], Null)]);
      WellFormed(v) && !KeysOrdered(Normalize(v))
  {
    var ten, nine := Field([0x31, 0x30], Null), Field([0x39], Null);
    TenAndNine();
    assert ten in [ten, nine] && nine in [ten, nine];
    assert ten.key in Keys([ten, nine]) && nine.key in Keys([ten, nine]);
    NormalOrderIsRfc8785Iff(Obj([ten, nine]));
  }

  lemma TenAndNine()
    ensures IsIndex([0x31, 0x30]) && IndexValue([0x31, 0x30]) == 10
    ensures IsIndex([0x39]) && IndexValue([0x39]) == 9
    ensures !Less([0x39], [0x31, 0x30])
  {
  }
}
