/** Two JSON trees print alike exactly when they are equal up to key order: unique readability. */
module CanonicalArguments {
  import opened StableStringify

  /** What may follow a printed value: nothing, a comma or a closing bracket. */
  predicate Delimited(x: Text) {
    x == [] || x[0] == COMMA || x[0] == CLOSE_BRACKET || x[0] == CLOSE_BRACE
  }

  // ------------------------------------------------------------ strings

  lemma HexDigitUnique(d: Unit, e: Unit)
    requires d < 16 && e < 16 && HexDigit(d) == HexDigit(e)
    ensures d == e
  {
  }

  lemma Hex4Unique(p: Unit, q: Unit)
    requires Hex4(p) == Hex4(q)
    ensures p == q
  {
    assert Hex4(p)[0] == Hex4(q)[0] && Hex4(p)[1] == Hex4(q)[1];
    assert Hex4(p)[2] == Hex4(q)[2] && Hex4(p)[3] == Hex4(q)[3];
    HexDigitUnique(p / 4096, q / 4096);
    HexDigitUnique(p / 256 % 16, q / 256 % 16);
    HexDigitUnique(p / 16 % 16, q / 16 % 16);
    HexDigitUnique(p % 16, q % 16);
    FourDigits(p as int);
    FourDigits(q as int);
  }

  lemma FourDigits(u: int)
    requires 0 <= u < 0x1_0000
    ensures u == 4096 * (u / 4096) + 256 * (u / 256 % 16) + 16 * (u / 16 % 16) + u % 16
  {
    assert u / 16 / 16 == u / 256 && u / 256 / 16 == u / 4096;
  }

  /** The printed form of the first character, which takes one or two code units of `s`. */
  function Taken(s: Text): (n: nat)
    requires s != []
    ensures 1 <= n <= |s|
  {
    if |s| >= 2 && IsLead(s[0]) && IsTrail(s[1]) then 2 else 1
  }

  function Chunk(s: Text): Text
    requires s != []
  {
    if Taken(s) == 2 then [s[0], s[1]] else EscapeUnit(s[0])
  }

  lemma EscapeUnitUnique(p: Unit, q: Unit, x: Text, y: Text)
    requires EscapeUnit(p) + x == EscapeUnit(q) + y
    ensures p == q && x == y
  {
    var a := EscapeUnit(p) + x;
    var b := EscapeUnit(q) + y;
    assert a[0] == b[0];
    if EscapeUnit(p)[0] == BACKSLASH {
      assert a[1] == EscapeUnit(p)[1] && b[1] == EscapeUnit(q)[1];
      if a[1] == 117 {
        assert a[2..6] == Hex4(p) && b[2..6] == Hex4(q);
        Hex4Unique(p, q);
      }
    }
    assert a[|EscapeUnit(p)|..] == x && b[|EscapeUnit(q)|..] == y;
  }

  lemma ChunkUnique(s: Text, t: Text, x: Text, y: Text)
    requires s != [] && t != [] && Chunk(s) + x == Chunk(t) + y
    ensures Taken(s) == Taken(t) && s[..Taken(s)] == t[..Taken(t)] && x == y
  {
    assert (Chunk(s) + x)[0] == (Chunk(t) + y)[0];
    if Taken(s) == 1 && Taken(t) == 1 {
      EscapeUnitUnique(s[0], t[0], x, y);
    } else {
      assert Taken(s) == 2 && Taken(t) == 2;
      assert (Chunk(s) + x)[1] == (Chunk(t) + y)[1];
      assert (Chunk(s) + x)[2..] == x && (Chunk(t) + y)[2..] == y;
    }
  }

  lemma EscapeStep(s: Text, x: Text)
    requires s != []
    ensures Escape(s) + [QUOTE] + x == Chunk(s) + (Escape(s[Taken(s)..]) + [QUOTE] + x)
  {
    assert Escape(s) == Chunk(s) + Escape(s[Taken(s)..]);
  }

  lemma ChunkFirst(s: Text, x: Text)
    requires s != []
    ensures (Escape(s) + [QUOTE] + x)[0] != QUOTE
  {
    EscapeStep(s, x);
    assert Chunk(s)[0] != QUOTE;
  }

  lemma {:induction false} EscapeUnique(s: Text, t: Text, x: Text, y: Text)
    requires Escape(s) + [QUOTE] + x == Escape(t) + [QUOTE] + y
    ensures s == t && x == y
    decreases |s|
  {
    if s == [] || t == [] {
      if s != [] { ChunkFirst(s, x); }
      if t != [] { ChunkFirst(t, y); }
      assert ([QUOTE] + x)[1..] == x && ([QUOTE] + y)[1..] == y;
      assert Escape([]) + [QUOTE] == [QUOTE];
    } else {
      var rs, rt := s[Taken(s)..], t[Taken(t)..];
      EscapeStep(s, x);
      EscapeStep(t, y);
      ChunkUnique(s, t, Escape(rs) + [QUOTE] + x, Escape(rt) + [QUOTE] + y);
      EscapeUnique(rs, rt, x, y);
      assert s == s[..Taken(s)] + rs && t == t[..Taken(t)] + rt;
    }
  }

  lemma QuotedUnique(s: Text, t: Text, x: Text, y: Text)
    requires Quoted(s) + x == Quoted(t) + y
    ensures s == t && x == y
  {
    assert (Quoted(s) + x)[1..] == Escape(s) + [QUOTE] + x;
    assert (Quoted(t) + y)[1..] == Escape(t) + [QUOTE] + y;
    EscapeUnique(s, t, x, y);
  }

  // ------------------------------------------------------------ numbers

  /** Where a shorter first part ends, the longer one goes on with what follows the shorter. */
  lemma Overhang(s: Text, t: Text, x: Text, y: Text)
    requires s + x == t + y && |s| < |t|
    ensures x != [] && x[0] == t[|s|]
  {
    assert |s + x| == |t + y|;
    assert (s + x)[|s|] == x[0] && (t + y)[|s|] == t[|s|];
  }

  lemma NumeralUnique(s: Text, t: Text, x: Text, y: Text)
    requires IsNumeral(s) && IsNumeral(t) && Delimited(x) && Delimited(y) && s + x == t + y
    ensures s == t && x == y
  {
    if |s| < |t| { Overhang(s, t, x, y); }
    if |t| < |s| { Overhang(t, s, y, x); }
    assert |s| == |t|;
    assert (s + x)[..|s|] == s && (t + y)[..|t|] == t;
    assert (s + x)[|s|..] == x && (t + y)[|t|..] == y;
  }

  // ------------------------------------------------------------ trees

  lemma FirstUnit(j: Json)
    ensures Print(j) != []
    ensures match j
            case Null => Print(j)[0] == 110
            case Bool(b) => Print(j)[0] == if b then 116 else 102
            case Num(_) => IsDigit(Print(j)[0]) || Print(j)[0] == 45
            case Str(_) => Print(j)[0] == QUOTE
            case Arr(_) => Print(j)[0] == OPEN_BRACKET
            case Obj(_) => Print(j)[0] == OPEN_BRACE
  {
  }

  lemma DropFirst(u: Unit, a: Text, x: Text, b: Text, y: Text)
    requires [u] + a + x == [u] + b + y
    ensures a + x == b + y
  {
    assert [u] + a + x == [u] + (a + x);
    assert [u] + b + y == [u] + (b + y);
    assert ([u] + (a + x))[1..] == ([u] + (b + y))[1..];
  }

  /** Unique readability: a printed value followed by a delimiter can be read in one way only. */
  lemma {:induction false} PrintUnique(a: Json, b: Json, x: Text, y: Text)
    requires WellFormed(a) && WellFormed(b) && Delimited(x) && Delimited(y)
    requires Print(a) + x == Print(b) + y
    ensures Equiv(a, b) && x == y
    decreases a, 1
  {
    FirstUnit(a);
    FirstUnit(b);
    assert (Print(a) + x)[0] == Print(a)[0] && (Print(b) + y)[0] == Print(b)[0];
    assert (Print(a) + x)[|Print(a)|..] == x && (Print(b) + y)[|Print(b)|..] == y;
    match a
    case Num(n) => NumeralUnique(n, b.numeral, x, y);
    case Str(s) => QuotedUnique(s, b.s, x, y);
    case Arr(items) =>
      DropFirst(OPEN_BRACKET, PrintItems(items, 0), x, PrintItems(b.items, 0), y);
      ItemsUnique(items, b.items, 0, x, y);
    case Obj(entries) => ObjectUnique(entries, b.entries, x, y);
    case Null =>
    case Bool(_) =>
  }

  /** What follows the `k`-th item. */
  lemma ItemsSplit(xs: seq<Json>, k: nat, x: Text)
    requires k < |xs|
    ensures var rest := PrintItems(xs, k + 1) + x;
            && Delimited(rest)
            && (PrintItems(xs, k) + x)[|Separator(k)|..] == Print(xs[k]) + rest
  {
    var rest := PrintItems(xs, k + 1) + x;
    assert PrintItems(xs, k) + x == Separator(k) + (Print(xs[k]) + rest);
  }

  lemma ItemsFirst(xs: seq<Json>, k: nat, x: Text)
    requires k <= |xs|
    ensures PrintItems(xs, k) + x != []
    ensures (PrintItems(xs, k) + x)[0] == CLOSE_BRACKET <==> k == |xs|
  {
    if k < |xs| {
      FirstUnit(xs[k]);
    }
  }

  lemma {:induction false} ItemsUnique(xs: seq<Json>, ys: seq<Json>, k: nat, x: Text, y: Text)
    requires k <= |xs| && k <= |ys|
    requires forall i :: 0 <= i < |xs| ==> WellFormed(xs[i])
    requires forall i :: 0 <= i < |ys| ==> WellFormed(ys[i])
    requires PrintItems(xs, k) + x == PrintItems(ys, k) + y
    ensures |xs| == |ys| && (forall i :: k <= i < |xs| ==> Equiv(xs[i], ys[i])) && x == y
    decreases xs, 0, |xs| - k
  {
    ItemsFirst(xs, k, x);
    ItemsFirst(ys, k, y);
    if k < |xs| {
      ItemsSplit(xs, k, x);
      ItemsSplit(ys, k, y);
      PrintUnique(xs[k], ys[k], PrintItems(xs, k + 1) + x, PrintItems(ys, k + 1) + y);
      ItemsUnique(xs, ys, k + 1, x, y);
    } else {
      assert ([CLOSE_BRACKET] + x)[1..] == x && ([CLOSE_BRACKET] + y)[1..] == y;
    }
  }

  lemma ObjectUnique(xs: seq<Entry>, ys: seq<Entry>, x: Text, y: Text)
    requires WellFormed(Obj(xs)) && WellFormed(Obj(ys)) && Print(Obj(xs)) + x == Print(Obj(ys)) + y
    ensures Equiv(Obj(xs), Obj(ys)) && x == y
    decreases xs, 2
  {
    SortedKeysElements(xs);
    SortedKeysElements(ys);
    var ka, kb := SortedKeys(xs), SortedKeys(ys);
    DropFirst(OPEN_BRACE, PrintMembers(xs, ka, 0), x, PrintMembers(ys, kb, 0), y);
    MembersUnique(xs, ys, ka, kb, 0, x, y);
    assert ka == ka[0..] && kb == kb[0..];
    SameMembers(xs, ys, ka);
  }

  lemma SameMembers(xs: seq<Entry>, ys: seq<Entry>, keys: seq<Text>)
    requires WellFormed(Obj(xs)) && WellFormed(Obj(ys))
    requires forall key :: HasKey(xs, key) || HasKey(ys, key) ==> key in keys
    requires forall key :: key in keys ==> SameValue(xs, ys, key)
    ensures Equiv(Obj(xs), Obj(ys))
  {
    forall i | 0 <= i < |xs|
      ensures HasKey(ys, xs[i].key) && Equiv(xs[i].value, ys[Find(ys, xs[i].key)].value)
    {
      HasKeyAt(xs, i);
      assert SameValue(xs, ys, xs[i].key);
      assert Find(xs, xs[i].key) == i;
    }
    forall i | 0 <= i < |ys| ensures HasKey(xs, ys[i].key) {
      HasKeyAt(ys, i);
      assert SameValue(xs, ys, ys[i].key);
    }
  }

  function ValueOf(entries: seq<Entry>, key: Text): Json
    requires HasKey(entries, key)
  {
    entries[Find(entries, key)].value
  }

  predicate SameValue(xs: seq<Entry>, ys: seq<Entry>, key: Text) {
    HasKey(xs, key) && HasKey(ys, key) && Equiv(ValueOf(xs, key), ValueOf(ys, key))
  }

  /** What follows the separator before the `k`-th member, and what follows its key. */
  lemma MembersSplit(xs: seq<Entry>, keys: seq<Text>, k: nat, x: Text)
    requires k < |keys| && KeysOf(xs, keys)
    ensures keys[k] in keys
    ensures var rest := PrintMembers(xs, keys, k + 1) + x;
            && Delimited(rest)
            && (PrintMembers(xs, keys, k) + x)[|Separator(k)|..]
               == Quoted(keys[k]) + ([COLON] + (Print(ValueOf(xs, keys[k])) + rest))
  {
    assert keys[k] in keys;
    var rest := PrintMembers(xs, keys, k + 1) + x;
    assert PrintMembers(xs, keys, k) + x
        == Separator(k) + (Quoted(keys[k]) + ([COLON] + (Print(ValueOf(xs, keys[k])) + rest)));
  }

  lemma MembersFirst(xs: seq<Entry>, keys: seq<Text>, k: nat, x: Text)
    requires k <= |keys| && KeysOf(xs, keys)
    ensures PrintMembers(xs, keys, k) + x != []
    ensures (PrintMembers(xs, keys, k) + x)[0] == CLOSE_BRACE <==> k == |keys|
  {
    if k < |keys| {
      assert keys[k] in keys;
    }
  }

  lemma MemberUnique(p: Text, q: Text, va: Json, vb: Json, x: Text, y: Text)
    requires WellFormed(va) && WellFormed(vb) && Delimited(x) && Delimited(y)
    requires Quoted(p) + ([COLON] + (Print(va) + x)) == Quoted(q) + ([COLON] + (Print(vb) + y))
    ensures p == q && Equiv(va, vb) && x == y
    decreases va, 2
  {
    QuotedUnique(p, q, [COLON] + (Print(va) + x), [COLON] + (Print(vb) + y));
    assert ([COLON] + (Print(va) + x))[1..] == Print(va) + x;
    assert ([COLON] + (Print(vb) + y))[1..] == Print(vb) + y;
    PrintUnique(va, vb, x, y);
  }

  /** The `k`-th members agree, and so does what follows them. */
  lemma KthUnique(
      xs: seq<Entry>, ys: seq<Entry>, ka: seq<Text>, kb: seq<Text>, k: nat, x: Text, y: Text)
    requires WellFormed(Obj(xs)) && WellFormed(Obj(ys))
    requires KeysOf(xs, ka) && KeysOf(ys, kb)
    requires k < |ka| && k < |kb|
    requires PrintMembers(xs, ka, k) + x == PrintMembers(ys, kb, k) + y
    ensures ka[k] == kb[k] && SameValue(xs, ys, ka[k])
    ensures PrintMembers(xs, ka, k + 1) + x == PrintMembers(ys, kb, k + 1) + y
    decreases xs, 0
  {
    MembersSplit(xs, ka, k, x);
    MembersSplit(ys, kb, k, y);
    MemberUnique(ka[k], kb[k], ValueOf(xs, ka[k]), ValueOf(ys, kb[k]),
                 PrintMembers(xs, ka, k + 1) + x, PrintMembers(ys, kb, k + 1) + y);
  }

  lemma {:induction false} MembersUnique(
      xs: seq<Entry>, ys: seq<Entry>, ka: seq<Text>, kb: seq<Text>, k: nat, x: Text, y: Text)
    requires WellFormed(Obj(xs)) && WellFormed(Obj(ys))
    requires KeysOf(xs, ka) && KeysOf(ys, kb)
    requires k <= |ka| && k <= |kb|
    requires PrintMembers(xs, ka, k) + x == PrintMembers(ys, kb, k) + y
    ensures ka[k..] == kb[k..] && x == y
    ensures forall key :: key in ka[k..] ==> SameValue(xs, ys, key)
    decreases xs, 1, |ka| - k
  {
    MembersFirst(xs, ka, k, x);
    MembersFirst(ys, kb, k, y);
    if k < |ka| {
      KthUnique(xs, ys, ka, kb, k, x, y);
      MembersUnique(xs, ys, ka, kb, k + 1, x, y);
      assert ka[k..] == [ka[k]] + ka[k + 1..] && kb[k..] == [kb[k]] + kb[k + 1..];
    } else {
      assert ([CLOSE_BRACE] + x)[1..] == x && ([CLOSE_BRACE] + y)[1..] == y;
    }
  }

  // ------------------------------------------------------------ key order does not matter

  lemma {:induction false} PrintInvariant(a: Json, b: Json)
    requires WellFormed(a) && WellFormed(b) && Equiv(a, b)
    ensures Print(a) == Print(b)
    decreases a, 1
  {
    match a
    case Arr(items) => ItemsInvariant(items, b.items, 0);
    case Obj(entries) =>
      var xs, ys := entries, b.entries;
      SortedKeysElements(xs);
      SortedKeysElements(ys);
      SortedKeysAscending(xs);
      SortedKeysAscending(ys);
      forall key ensures key in SortedKeys(xs) <==> key in SortedKeys(ys) {
        if HasKey(xs, key) {
          assert HasKey(ys, xs[Find(xs, key)].key);
        }
        if HasKey(ys, key) {
          assert HasKey(xs, ys[Find(ys, key)].key);
        }
      }
      AscendingUnique(SortedKeys(xs), SortedKeys(ys));
      MembersInvariant(xs, ys, SortedKeys(xs), 0);
    case _ =>
  }

  lemma {:induction false} ItemsInvariant(xs: seq<Json>, ys: seq<Json>, k: nat)
    requires k <= |xs| == |ys|
    requires forall i :: 0 <= i < |xs| ==> WellFormed(xs[i]) && WellFormed(ys[i]) && Equiv(xs[i], ys[i])
    ensures PrintItems(xs, k) == PrintItems(ys, k)
    decreases xs, 0, |xs| - k
  {
    if k < |xs| {
      PrintInvariant(xs[k], ys[k]);
      ItemsInvariant(xs, ys, k + 1);
    }
  }

  lemma {:induction false} MembersInvariant(xs: seq<Entry>, ys: seq<Entry>, keys: seq<Text>, k: nat)
    requires WellFormed(Obj(xs)) && WellFormed(Obj(ys)) && Equiv(Obj(xs), Obj(ys))
    requires k <= |keys| && KeysOf(xs, keys) && KeysOf(ys, keys)
    ensures PrintMembers(xs, keys, k) == PrintMembers(ys, keys, k)
    decreases xs, 1, |keys| - k
  {
    if k < |keys| {
      assert keys[k] in keys && HasKey(xs, keys[k]) && HasKey(ys, keys[k]);
      MemberInvariant(xs, ys, keys[k]);
      MembersInvariant(xs, ys, keys, k + 1);
      MembersJoin(xs, ys, keys, k);
    }
  }

  lemma MemberInvariant(xs: seq<Entry>, ys: seq<Entry>, key: Text)
    requires WellFormed(Obj(xs)) && WellFormed(Obj(ys)) && Equiv(Obj(xs), Obj(ys))
    requires HasKey(xs, key) && HasKey(ys, key)
    ensures Print(ValueOf(xs, key)) == Print(ValueOf(ys, key))
    decreases xs, 0
  {
    ValuesAgree(xs, ys, key);
    PrintInvariant(ValueOf(xs, key), ValueOf(ys, key));
  }

  lemma MembersJoin(xs: seq<Entry>, ys: seq<Entry>, keys: seq<Text>, k: nat)
    requires k < |keys| && KeysOf(xs, keys) && KeysOf(ys, keys)
    requires keys[k] in keys && Print(ValueOf(xs, keys[k])) == Print(ValueOf(ys, keys[k]))
    requires PrintMembers(xs, keys, k + 1) == PrintMembers(ys, keys, k + 1)
    ensures PrintMembers(xs, keys, k) == PrintMembers(ys, keys, k)
  {
    MembersUnfold(xs, keys, k);
    MembersUnfold(ys, keys, k);
  }

  lemma MembersUnfold(xs: seq<Entry>, keys: seq<Text>, k: nat)
    requires k < |keys| && KeysOf(xs, keys)
    ensures keys[k] in keys
    ensures PrintMembers(xs, keys, k)
         == Separator(k) + Quoted(keys[k]) + [COLON] + Print(ValueOf(xs, keys[k]))
          + PrintMembers(xs, keys, k + 1)
  {
    assert keys[k] in keys;
  }

  lemma ValuesAgree(xs: seq<Entry>, ys: seq<Entry>, key: Text)
    requires WellFormed(Obj(xs)) && WellFormed(Obj(ys)) && Equiv(Obj(xs), Obj(ys))
    requires HasKey(xs, key) && HasKey(ys, key)
    ensures var a, b := ValueOf(xs, key), ValueOf(ys, key);
            WellFormed(a) && WellFormed(b) && Equiv(a, b)
  {
    var i := Find(xs, key);
    assert Equiv(xs[i].value, ys[Find(ys, xs[i].key)].value);
  }

  /** Two argument trees have the same canonical text exactly when they are equal up to key order. */
  lemma CanonicalText(a: Json, b: Json)
    requires WellFormed(a) && WellFormed(b)
    ensures Print(a) == Print(b) <==> Equiv(a, b)
  {
    if Print(a) == Print(b) {
      assert Print(a) + [] == Print(b) + [];
      PrintUnique(a, b, [], []);
    }
    if Equiv(a, b) {
      PrintInvariant(a, b);
    }
  }
}
