/**
 * The canonical printer for JSON arguments. Strings are sequences of UTF-16 code units; a number is
 * identified with the text JSON.stringify prints for it; an object is its entries in insertion order.
 */
module StableStringify {
  newtype Unit = u: int | 0 <= u < 0x1_0000

  type Text = seq<Unit>

  const QUOTE: Unit := 34
  const COMMA: Unit := 44
  const COLON: Unit := 58
  const OPEN_BRACKET: Unit := 91
  const BACKSLASH: Unit := 92
  const CLOSE_BRACKET: Unit := 93
  const OPEN_BRACE: Unit := 123
  const CLOSE_BRACE: Unit := 125

  const NULL_TEXT: Text := [110, 117, 108, 108]
  const TRUE_TEXT: Text := [116, 114, 117, 101]
  const FALSE_TEXT: Text := [102, 97, 108, 115, 101]

  predicate IsDigit(u: Unit) {
    48 <= u <= 57
  }

  /** Digits, sign, point and exponent mark. */
  predicate IsNumeralUnit(u: Unit) {
    IsDigit(u) || u == 43 || u == 45 || u == 46 || u == 101
  }

  predicate IsNumeral(t: Text) {
    t != [] && (IsDigit(t[0]) || t[0] == 45) && forall i :: 0 <= i < |t| ==> IsNumeralUnit(t[i])
  }

  type Numeral = t: Text | IsNumeral(t) witness [48]

  datatype Json =
    | Null
    | Bool(b: bool)
    | Num(numeral: Numeral)
    | Str(s: Text)
    | Arr(items: seq<Json>)
    | Obj(entries: seq<Entry>)

  datatype Entry = Entry(key: Text, value: Json)

  // ------------------------------------------------------------ objects as key-value tables

  predicate HasKey(entries: seq<Entry>, key: Text) {
    entries != [] && (entries[0].key == key || HasKey(entries[1..], key))
  }

  lemma {:induction false} HasKeyAt(entries: seq<Entry>, i: nat)
    requires i < |entries|
    ensures HasKey(entries, entries[i].key)
  {
    if i > 0 {
      HasKeyAt(entries[1..], i - 1);
    }
  }

  lemma {:induction false} NoKey(entries: seq<Entry>, key: Text)
    requires forall i :: 0 <= i < |entries| ==> entries[i].key != key
    ensures !HasKey(entries, key)
  {
    if entries != [] {
      NoKey(entries[1..], key);
    }
  }

  predicate KeysOf(entries: seq<Entry>, keys: seq<Text>) {
    forall key :: key in keys ==> HasKey(entries, key)
  }

  function Find(entries: seq<Entry>, key: Text): (i: nat)
    requires HasKey(entries, key)
    ensures i < |entries| && entries[i].key == key
  {
    if entries[0].key == key then 0 else 1 + Find(entries[1..], key)
  }

  predicate DistinctKeys(entries: seq<Entry>) {
    forall i, j :: 0 <= i < j < |entries| ==> entries[i].key != entries[j].key
  }

  predicate WellFormed(j: Json) {
    match j
    case Arr(items) => forall i :: 0 <= i < |items| ==> WellFormed(items[i])
    case Obj(entries) =>
      DistinctKeys(entries) && forall i :: 0 <= i < |entries| ==> WellFormed(entries[i].value)
    case _ => true
  }

  /** Equal up to the order of object keys, at every depth. */
  predicate Equiv(a: Json, b: Json) {
    match (a, b)
    case (Null, Null) => true
    case (Bool(x), Bool(y)) => x == y
    case (Num(x), Num(y)) => x == y
    case (Str(x), Str(y)) => x == y
    case (Arr(xs), Arr(ys)) =>
      |xs| == |ys| && forall i :: 0 <= i < |xs| ==> Equiv(xs[i], ys[i])
    case (Obj(xs), Obj(ys)) =>
      && (forall i :: 0 <= i < |xs| ==>
            HasKey(ys, xs[i].key) && Equiv(xs[i].value, ys[Find(ys, xs[i].key)].value))
      && (forall i :: 0 <= i < |ys| ==> HasKey(xs, ys[i].key))
    case _ => false
  }

  // ------------------------------------------------------------ sorting the keys

  /** Lexicographic order by code unit, the default order of Array.sort on strings. */
  predicate Less(a: Text, b: Text) {
    b != [] && (a == [] || a[0] < b[0] || (a[0] == b[0] && Less(a[1..], b[1..])))
  }

  function Insert(key: Text, sorted: seq<Text>): seq<Text> {
    if sorted == [] then [key]
    else if Less(key, sorted[0]) then [key] + sorted
    else [sorted[0]] + Insert(key, sorted[1..])
  }

  function SortedKeys(entries: seq<Entry>): seq<Text> {
    if entries == [] then [] else Insert(entries[0].key, SortedKeys(entries[1..]))
  }

  predicate Ascending(keys: seq<Text>) {
    forall i, j :: 0 <= i < j < |keys| ==> Less(keys[i], keys[j])
  }

  lemma {:induction false} LessIrreflexive(a: Text)
    ensures !Less(a, a)
  {
    if a != [] {
      LessIrreflexive(a[1..]);
    }
  }

  lemma {:induction false} LessTransitive(a: Text, b: Text, c: Text)
    requires Less(a, b) && Less(b, c)
    ensures Less(a, c)
  {
    if a != [] && a[0] == b[0] && b[0] == c[0] {
      LessTransitive(a[1..], b[1..], c[1..]);
    }
  }

  lemma {:induction false} LessTotal(a: Text, b: Text)
    requires a != b
    ensures Less(a, b) || Less(b, a)
  {
    if a != [] && b != [] && a[0] == b[0] {
      assert a == [a[0]] + a[1..] && b == [b[0]] + b[1..];
      LessTotal(a[1..], b[1..]);
    }
  }

  lemma {:induction false} InsertElements(key: Text, sorted: seq<Text>)
    ensures forall k :: k in Insert(key, sorted) <==> k == key || k in sorted
  {
    if sorted != [] && !Less(key, sorted[0]) {
      InsertElements(key, sorted[1..]);
      assert sorted == [sorted[0]] + sorted[1..];
    }
  }

  lemma {:induction false} InsertAscending(key: Text, sorted: seq<Text>)
    requires Ascending(sorted) && key !in sorted
    ensures Ascending(Insert(key, sorted))
  {
    if sorted != [] {
      var rest := sorted[1..];
      assert sorted == [sorted[0]] + rest;
      if Less(key, sorted[0]) {
        forall j | 0 <= j < |sorted| ensures Less(key, sorted[j]) {
          if j > 0 { LessTransitive(key, sorted[0], sorted[j]); }
        }
      } else {
        InsertAscending(key, rest);
        InsertElements(key, rest);
        LessTotal(key, sorted[0]);
        var tail := Insert(key, rest);
        forall j | 0 <= j < |tail| ensures Less(sorted[0], tail[j]) {
          assert tail[j] in tail;
          if tail[j] != key {
            var i :| 0 <= i < |rest| && rest[i] == tail[j];
            assert sorted[i + 1] == tail[j];
          }
        }
      }
    }
  }

  lemma {:induction false} SortedKeysElements(entries: seq<Entry>)
    ensures forall k :: k in SortedKeys(entries) <==> HasKey(entries, k)
  {
    if entries != [] {
      var rest := entries[1..];
      SortedKeysElements(rest);
      InsertElements(entries[0].key, SortedKeys(rest));
    }
  }

  lemma {:induction false} SortedKeysAscending(entries: seq<Entry>)
    requires DistinctKeys(entries)
    ensures Ascending(SortedKeys(entries))
  {
    if entries != [] {
      var rest := entries[1..];
      SortedKeysAscending(rest);
      SortedKeysElements(rest);
      NoKey(rest, entries[0].key);
      InsertAscending(entries[0].key, SortedKeys(rest));
    }
  }

  lemma HeadIsNew(a: seq<Text>)
    requires Ascending(a) && a != []
    ensures a[0] !in a[1..]
  {
    forall i | 0 <= i < |a[1..]| ensures a[1..][i] != a[0] {
      assert Less(a[0], a[i + 1]);
      LessIrreflexive(a[0]);
    }
  }

  /** An ascending sequence is determined by its elements. */
  lemma {:induction false} AscendingUnique(a: seq<Text>, b: seq<Text>)
    requires Ascending(a) && Ascending(b)
    requires forall k :: k in a <==> k in b
    ensures a == b
  {
    assert b != [] ==> b[0] in b;
    if a != [] {
      assert a[0] in a;
      assert a[0] in b && b[0] in b && b[0] in a;
      if a[0] != b[0] {
        var i :| 0 <= i < |b| && b[i] == a[0];
        var j :| 0 <= j < |a| && a[j] == b[0];
        LessTransitive(a[0], a[j], a[0]);
        LessIrreflexive(a[0]);
      }
      assert a == [a[0]] + a[1..] && b == [b[0]] + b[1..];
      HeadIsNew(a);
      HeadIsNew(b);
      forall k ensures k in a[1..] <==> k in b[1..] {
        assert k in a <==> k == a[0] || k in a[1..];
        assert k in b <==> k == b[0] || k in b[1..];
      }
      AscendingUnique(a[1..], b[1..]);
    }
  }

  // ------------------------------------------------------------ printing

  predicate IsLead(u: Unit) {
    0xD800 <= u <= 0xDBFF
  }

  predicate IsTrail(u: Unit) {
    0xDC00 <= u <= 0xDFFF
  }

  function HexDigit(d: Unit): Unit
    requires d < 16
  {
    if d < 10 then 48 + d else 87 + d
  }

  function Hex4(u: Unit): Text {
    [HexDigit(u / 4096), HexDigit(u / 256 % 16), HexDigit(u / 16 % 16), HexDigit(u % 16)]
  }

  function EscapeUnit(u: Unit): Text {
    if u == QUOTE then [BACKSLASH, QUOTE]
    else if u == BACKSLASH then [BACKSLASH, BACKSLASH]
    else if u == 8 then [BACKSLASH, 98]
    else if u == 9 then [BACKSLASH, 116]
    else if u == 10 then [BACKSLASH, 110]
    else if u == 12 then [BACKSLASH, 102]
    else if u == 13 then [BACKSLASH, 114]
    else if u < 32 || IsLead(u) || IsTrail(u) then [BACKSLASH, 117] + Hex4(u)
    else [u]
  }

  /** A surrogate pair is printed as it is, a lone surrogate is escaped. */
  function Escape(s: Text): Text {
    if s == [] then []
    else if |s| >= 2 && IsLead(s[0]) && IsTrail(s[1]) then [s[0], s[1]] + Escape(s[2..])
    else EscapeUnit(s[0]) + Escape(s[1..])
  }

  function Quoted(s: Text): Text {
    [QUOTE] + Escape(s) + [QUOTE]
  }

  function Separator(k: nat): Text {
    if k == 0 then [] else [COMMA]
  }

  function Print(j: Json): Text
    decreases j, 1
  {
    match j
    case Null => NULL_TEXT
    case Bool(b) => if b then TRUE_TEXT else FALSE_TEXT
    case Num(numeral) => numeral
    case Str(s) => Quoted(s)
    case Arr(items) => [OPEN_BRACKET] + PrintItems(items, 0)
    case Obj(entries) =>
      SortedKeysElements(entries);
      [OPEN_BRACE] + PrintMembers(entries, SortedKeys(entries), 0)
  }

  /** The items from the `k`-th on, comma separated, and the closing bracket. */
  function PrintItems(items: seq<Json>, k: nat): Text
    requires k <= |items|
    decreases items, 0, |items| - k
  {
    if k == |items| then [CLOSE_BRACKET]
    else Separator(k) + Print(items[k]) + PrintItems(items, k + 1)
  }

  /** The members from the `k`-th key on, comma separated, and the closing brace. */
  function PrintMembers(entries: seq<Entry>, keys: seq<Text>, k: nat): Text
    requires k <= |keys| && KeysOf(entries, keys)
    decreases entries, 0, |keys| - k
  {
    if k == |keys| then [CLOSE_BRACE]
    else
      assert keys[k] in keys;
      Separator(k) + Quoted(keys[k]) + [COLON] + Print(entries[Find(entries, keys[k])].value)
      + PrintMembers(entries, keys, k + 1)
  }
}
