/** The guard that stops a run after three identical failing tool calls in a row. */
module ToolLoopGuardModel {
  import opened Util
  import opened StableStringify
  import opened CanonicalArguments

  const TOOL_LOOP_THRESHOLD := 3

  datatype Call = Call(tool: Text, args: Json, isError: bool)

  /** The canonical form of a call: the tool name, a colon, the canonical arguments. */
  function Canonical(tool: Text, args: Json): Text {
    tool + [COLON] + Print(args)
  }

  // ------------------------------------------------------------ a scanner for printed JSON

  /** Outside a string at some bracket depth, inside a string, after a backslash, or not JSON. */
  datatype Scan = Out(depth: int) | In(depth: int) | Esc(depth: int) | Bad

  function Advance(s: Scan, u: Unit): Scan {
    match s
    case Out(d) =>
      if u == QUOTE then In(d)
      else if u == BACKSLASH then Bad
      else if u == OPEN_BRACKET || u == OPEN_BRACE then Out(d + 1)
      else if u == CLOSE_BRACKET || u == CLOSE_BRACE then Out(d - 1)
      else Out(d)
    case In(d) => if u == QUOTE then Out(d) else if u == BACKSLASH then Esc(d) else In(d)
    case Esc(d) => In(d)
    case Bad => Bad
  }

  function ScanAll(s: Scan, t: Text): Scan
    decreases |t|
  {
    if t == [] then s else ScanAll(Advance(s, t[0]), t[1..])
  }

  /** Every colon of `t` is met inside a string or inside brackets. */
  predicate ColonsInside(s: Scan, t: Text)
    decreases |t|
  {
    t != [] ==>
      && (t[0] == COLON ==> s.In? || (s.Out? && s.depth >= 1))
      && ColonsInside(Advance(s, t[0]), t[1..])
  }

  lemma {:induction false} ScanConcat(s: Scan, a: Text, b: Text)
    ensures ScanAll(s, a + b) == ScanAll(ScanAll(s, a), b)
    ensures ColonsInside(s, a + b) <==> ColonsInside(s, a) && ColonsInside(ScanAll(s, a), b)
    decreases |a|
  {
    if a == [] {
      assert a + b == b;
    } else {
      assert (a + b)[1..] == a[1..] + b;
      ScanConcat(Advance(s, a[0]), a[1..], b);
    }
  }

  /** Units that change nothing outside a string and are no colon. */
  predicate Plain(t: Text) {
    forall i :: 0 <= i < |t| ==>
      t[i] !in [QUOTE, BACKSLASH, OPEN_BRACKET, CLOSE_BRACKET, OPEN_BRACE, CLOSE_BRACE, COLON]
  }

  lemma {:induction false} ScanPlain(d: int, t: Text)
    requires Plain(t)
    ensures ScanAll(Out(d), t) == Out(d) && ColonsInside(Out(d), t) && ScanAll(In(d), t) == In(d)
  {
    if t != [] {
      ScanPlain(d, t[1..]);
    }
  }

  lemma ScanOne(s: Scan, u: Unit)
    ensures ScanAll(s, [u]) == Advance(s, u)
    ensures ColonsInside(s, [u]) <==> (u == COLON ==> s.In? || (s.Out? && s.depth >= 1))
  {
    assert [u][1..] == [];
    assert ScanAll(Advance(s, u), []) == Advance(s, u);
  }

  lemma {:induction false} ScanBad(t: Text)
    ensures ScanAll(Bad, t) == Bad
  {
    if t != [] {
      ScanBad(t[1..]);
    }
  }

  lemma ScanChunk(d: int, s: Text)
    requires s != []
    ensures ScanAll(In(d), Chunk(s)) == In(d) && ColonsInside(In(d), Chunk(s))
    ensures ScanAll(Out(d), Chunk(s)) == Bad || ScanAll(Out(d), Chunk(s)).Out?
  {
    var c := Chunk(s);
    if c[0] == BACKSLASH {
      ScanBad(c[1..]);
      assert c[1..] == [c[1]] + c[2..];
      ScanConcat(Esc(d), [c[1]], c[2..]);
      ScanOne(Esc(d), c[1]);
      assert Plain(c[2..]);
      ScanInside(d, c[2..]);
    } else {
      ScanInside(d, c);
      if |c| == 1 {
        ScanOne(Out(d), c[0]);
        assert c == [c[0]];
      } else {
        assert Plain(c);
        ScanPlain(d, c);
      }
    }
  }

  lemma {:induction false} ScanInside(d: int, t: Text)
    requires forall i :: 0 <= i < |t| ==> t[i] != QUOTE && t[i] != BACKSLASH
    ensures ScanAll(In(d), t) == In(d) && ColonsInside(In(d), t)
  {
    if t != [] {
      ScanInside(d, t[1..]);
    }
  }

  lemma {:induction false} ScanEscape(d: int, s: Text)
    ensures ScanAll(In(d), Escape(s)) == In(d) && ColonsInside(In(d), Escape(s))
    ensures ScanAll(Out(d), Escape(s)) == Bad || ScanAll(Out(d), Escape(s)).Out?
    decreases |s|
  {
    if s != [] {
      var rest := Escape(s[Taken(s)..]);
      assert Escape(s) == Chunk(s) + rest;
      ScanChunk(d, s);
      ScanEscape(d, s[Taken(s)..]);
      ScanConcat(In(d), Chunk(s), rest);
      ScanConcat(Out(d), Chunk(s), rest);
      var mid := ScanAll(Out(d), Chunk(s));
      if mid == Bad {
        ScanBad(rest);
      } else {
        ScanEscape(mid.depth, s[Taken(s)..]);
      }
    }
  }

  /** Read from inside a string, the text ends inside a string or is no JSON. */
  predicate StaysIn(s: Scan) {
    s.In? || s.Bad?
  }

  /** `t` is neutral outside strings at depth `d`, and read from inside a string it stays inside. */
  ghost predicate Balanced(t: Text, d: int) {
    && ScanAll(Out(d), t) == Out(d)
    && ColonsInside(Out(d), t)
    && (forall e :: StaysIn(ScanAll(In(e), t)))
  }

  lemma BalancedConcat(a: Text, b: Text, d: int)
    requires Balanced(a, d) && Balanced(b, d)
    ensures Balanced(a + b, d)
  {
    ScanConcat(Out(d), a, b);
    forall e ensures StaysIn(ScanAll(In(e), a + b)) {
      ScanConcat(In(e), a, b);
      var mid := ScanAll(In(e), a);
      assert StaysIn(mid);
      if mid == Bad {
        ScanBad(b);
      } else {
        assert StaysIn(ScanAll(In(mid.depth), b));
      }
    }
  }

  lemma BalancedPlain(t: Text, d: int)
    requires Plain(t)
    ensures Balanced(t, d)
  {
    ScanPlain(d, t);
    forall e ensures StaysIn(ScanAll(In(e), t)) {
      ScanPlain(e, t);
    }
  }

  lemma BalancedQuoted(s: Text, d: int)
    ensures Balanced(Quoted(s), d)
  {
    var t := Escape(s) + [QUOTE];
    assert Quoted(s) == [QUOTE] + t;
    ScanConcat(Out(d), [QUOTE], t);
    ScanOne(Out(d), QUOTE);
    ScanConcat(In(d), Escape(s), [QUOTE]);
    ScanEscape(d, s);
    ScanOne(In(d), QUOTE);
    forall e ensures StaysIn(ScanAll(In(e), Quoted(s))) {
      ScanConcat(In(e), [QUOTE], t);
      ScanOne(In(e), QUOTE);
      ScanConcat(Out(e), Escape(s), [QUOTE]);
      ScanEscape(e, s);
      ScanOne(ScanAll(Out(e), Escape(s)), QUOTE);
    }
  }

  /** A colon is harmless inside brackets. */
  lemma BalancedColon(d: int)
    requires d >= 1
    ensures Balanced([COLON], d)
  {
    ScanOne(Out(d), COLON);
    forall e ensures StaysIn(ScanAll(In(e), [COLON])) {
      ScanOne(In(e), COLON);
    }
  }

  lemma {:induction false} BalancedPrint(j: Json, d: int)
    requires d >= 0
    ensures Balanced(Print(j), d)
    decreases j, 1
  {
    match j
    case Null => BalancedPlain(NULL_TEXT, d);
    case Bool(b) => BalancedPlain(if b then TRUE_TEXT else FALSE_TEXT, d);
    case Num(numeral) =>
      forall i | 0 <= i < |numeral| ensures IsNumeralUnit(numeral[i]) {
      }
      BalancedPlain(numeral, d);
    case Str(s) => BalancedQuoted(s, d);
    case Arr(items) =>
      BalancedItems(items, 0, d + 1);
      Enclose(OPEN_BRACKET, PrintItems(items, 0), d);
    case Obj(entries) =>
      SortedKeysElements(entries);
      BalancedMembers(entries, SortedKeys(entries), 0, d + 1);
      Enclose(OPEN_BRACE, PrintMembers(entries, SortedKeys(entries), 0), d);
  }

  /** A tail that closes one bracket: from depth `d` it ends at `d - 1`. */
  ghost predicate Closes(t: Text, d: int) {
    && ScanAll(Out(d), t) == Out(d - 1)
    && ColonsInside(Out(d), t)
    && (forall e :: StaysIn(ScanAll(In(e), t)))
  }

  lemma ClosesConcat(a: Text, b: Text, d: int)
    requires Balanced(a, d) && Closes(b, d)
    ensures Closes(a + b, d)
  {
    ScanConcat(Out(d), a, b);
    forall e ensures StaysIn(ScanAll(In(e), a + b)) {
      ScanConcat(In(e), a, b);
      var mid := ScanAll(In(e), a);
      assert StaysIn(mid);
      if mid == Bad {
        ScanBad(b);
      } else {
        assert StaysIn(ScanAll(In(mid.depth), b));
      }
    }
  }

  lemma ClosesBracket(u: Unit, d: int)
    requires u == CLOSE_BRACKET || u == CLOSE_BRACE
    ensures Closes([u], d)
  {
    ScanOne(Out(d), u);
    forall e ensures StaysIn(ScanAll(In(e), [u])) {
      ScanOne(In(e), u);
    }
  }

  lemma Enclose(u: Unit, t: Text, d: int)
    requires (u == OPEN_BRACKET || u == OPEN_BRACE) && Closes(t, d + 1)
    ensures Balanced([u] + t, d)
  {
    ScanConcat(Out(d), [u], t);
    ScanOne(Out(d), u);
    forall e ensures StaysIn(ScanAll(In(e), [u] + t)) {
      ScanConcat(In(e), [u], t);
      ScanOne(In(e), u);
    }
  }

  lemma BalancedItem(items: seq<Json>, k: nat, d: int)
    requires k < |items| && d >= 1 && Balanced(Print(items[k]), d)
    ensures Balanced(Separator(k) + Print(items[k]), d)
  {
    BalancedPlain(Separator(k), d);
    BalancedConcat(Separator(k), Print(items[k]), d);
  }

  lemma {:induction false} BalancedItems(items: seq<Json>, k: nat, d: int)
    requires k <= |items| && d >= 1
    ensures Closes(PrintItems(items, k), d)
    decreases items, 0, |items| - k
  {
    if k == |items| {
      ClosesBracket(CLOSE_BRACKET, d);
    } else {
      BalancedPrint(items[k], d);
      BalancedItem(items, k, d);
      BalancedItems(items, k + 1, d);
      ClosesConcat(Separator(k) + Print(items[k]), PrintItems(items, k + 1), d);
    }
  }

  lemma {:induction false} BalancedMembers(entries: seq<Entry>, keys: seq<Text>, k: nat, d: int)
    requires k <= |keys| && KeysOf(entries, keys) && d >= 1
    ensures Closes(PrintMembers(entries, keys, k), d)
    decreases entries, 0, |keys| - k
  {
    if k == |keys| {
      ClosesBracket(CLOSE_BRACE, d);
    } else {
      MembersUnfold(entries, keys, k);
      var value := Print(ValueOf(entries, keys[k]));
      BalancedPrint(ValueOf(entries, keys[k]), d);
      BalancedMember(k, keys[k], value, d);
      BalancedMembers(entries, keys, k + 1, d);
      ClosesConcat(Separator(k) + Quoted(keys[k]) + [COLON] + value,
                   PrintMembers(entries, keys, k + 1), d);
    }
  }

  lemma BalancedMember(k: nat, key: Text, value: Text, d: int)
    requires d >= 1 && Balanced(value, d)
    ensures Balanced(Separator(k) + Quoted(key) + [COLON] + value, d)
  {
    BalancedPlain(Separator(k), d);
    BalancedQuoted(key, d);
    BalancedConcat(Separator(k), Quoted(key), d);
    BalancedColon(d);
    BalancedConcat(Separator(k) + Quoted(key), [COLON], d);
    BalancedConcat(Separator(k) + Quoted(key) + [COLON], value, d);
  }

  // ------------------------------------------------------------ the canonical form is unambiguous

  /** From inside a string or inside brackets, a printed value does not lead to the outermost level. */
  lemma EndsInside(mid: Scan, b: Json)
    requires mid.In? || (mid.Out? && mid.depth >= 1)
    ensures ScanAll(mid, Print(b)) != Out(0)
  {
    if mid.In? {
      BalancedPrint(b, 0);
      assert StaysIn(ScanAll(In(mid.depth), Print(b)));
    } else {
      BalancedPrint(b, mid.depth);
    }
  }

  /** No colon of a printed value is followed by a complete printed value up to its end. */
  lemma NoInnerCall(a: Json, m: Text, b: Json)
    ensures Print(a) != m + ([COLON] + Print(b))
  {
    if Print(a) == m + ([COLON] + Print(b)) {
      var mid := ScanAll(Out(0), m);
      assert ScanAll(Out(0), Print(a)) == Out(0) && ColonsInside(Out(0), Print(a)) by {
        BalancedPrint(a, 0);
      }
      ScanConcat(Out(0), m, [COLON] + Print(b));
      ScanConcat(mid, [COLON], Print(b));
      ScanOne(mid, COLON);
      EndsInside(mid, b);
    }
  }

  lemma NoLongerName(s: Text, a: Json, t: Text, b: Json)
    requires |s| < |t|
    ensures Canonical(s, a) != Canonical(t, b)
  {
    if Canonical(s, a) == Canonical(t, b) {
      var x, y := Canonical(s, a), Canonical(t, b);
      var m := t[|s| + 1..];
      assert x[|s| + 1..] == Print(a);
      assert y[|s| + 1..] == m + ([COLON] + Print(b));
      NoInnerCall(a, m, b);
    }
  }

  /**
   * Two calls have the same canonical form exactly when they name the same tool and their arguments
   * are equal up to key order; this holds for every tool name, with or without colons.
   */
  lemma SameCanonical(s: Text, a: Json, t: Text, b: Json)
    requires WellFormed(a) && WellFormed(b)
    ensures Canonical(s, a) == Canonical(t, b) <==> s == t && Equiv(a, b)
  {
    CanonicalText(a, b);
    if Canonical(s, a) == Canonical(t, b) {
      if |s| < |t| { NoLongerName(s, a, t, b); }
      if |t| < |s| { NoLongerName(t, b, s, a); }
      assert s == Canonical(s, a)[..|s|] == t;
      assert Print(a) == Canonical(s, a)[|s| + 1..] == Print(b);
    }
  }

  // ------------------------------------------------------------ the guard

  /** Both calls failed, on the same tool, with the same arguments up to key order. */
  predicate SameFailure(a: Call, b: Call) {
    a.isError && b.isError && a.tool == b.tool && Equiv(a.args, b.args)
  }

  /** How many calls at the end of `calls` are the same failure as the last one. */
  function FailureRun(calls: seq<Call>): nat {
    if calls == [] || !calls[|calls| - 1].isError then 0
    else
      var init := calls[..|calls| - 1];
      if init != [] && SameFailure(init[|init| - 1], calls[|calls| - 1]) then FailureRun(init) + 1 else 1
  }

  lemma {:induction false} FailureRunBounded(calls: seq<Call>)
    ensures FailureRun(calls) <= |calls|
  {
    if calls != [] {
      FailureRunBounded(calls[..|calls| - 1]);
    }
  }

  lemma FailureRunOfTwo(calls: seq<Call>)
    ensures var n := |calls|;
            FailureRun(calls) >= 2 <==> n >= 2 && SameFailure(calls[n - 2], calls[n - 1])
  {
    if calls != [] {
      var init := calls[..|calls| - 1];
      assert init != [] && init[|init| - 1].isError ==> FailureRun(init) >= 1;
    }
  }

  /** A run of three or more is two runs of two that overlap. */
  lemma FailureRunByPairs(calls: seq<Call>)
    ensures var n := |calls|;
            FailureRun(calls) >= 3 <==>
              n >= 3 && SameFailure(calls[n - 3], calls[n - 2]) && SameFailure(calls[n - 2], calls[n - 1])
  {
    FailureRunBounded(calls);
    if |calls| >= 3 {
      var init := calls[..|calls| - 1];
      FailureRunOfTwo(init);
      assert init[|init| - 1] == calls[|calls| - 2] && init[|init| - 2] == calls[|calls| - 3];
    }
  }

  /** The call at the end and the two before it failed alike. */
  predicate ThirdFailure(calls: seq<Call>) {
    var n := |calls|;
    n >= 3 && SameFailure(calls[n - 3], calls[n - 1]) && SameFailure(calls[n - 2], calls[n - 1])
  }

  lemma FailureRunOfThree(calls: seq<Call>)
    requires forall i :: 0 <= i < |calls| ==> WellFormed(calls[i].args)
    ensures FailureRun(calls) >= 3 <==> ThirdFailure(calls)
  {
    FailureRunByPairs(calls);
    if |calls| >= 3 {
      EquivByText(calls[|calls| - 3], calls[|calls| - 2], calls[|calls| - 1]);
    }
  }

  /** Being the same failure is transitive, because it is equality of canonical texts. */
  lemma EquivByText(a: Call, b: Call, c: Call)
    requires WellFormed(a.args) && WellFormed(b.args) && WellFormed(c.args)
    ensures SameFailure(b, c) ==> (SameFailure(a, b) <==> SameFailure(a, c))
  {
    CanonicalText(a.args, b.args);
    CanonicalText(b.args, c.args);
    CanonicalText(a.args, c.args);
  }

  /** The run after one more call, told from the canonical texts. */
  lemma FailureRunStep(calls: seq<Call>, call: Call)
    requires WellFormed(call.args) && forall i :: 0 <= i < |calls| ==> WellFormed(calls[i].args)
    ensures FailureRun(calls + [call])
         == if !call.isError then 0
            else if FailureRun(calls) > 0 && SameText(calls[|calls| - 1], call) then FailureRun(calls) + 1
            else 1
  {
    assert (calls + [call])[..|calls|] == calls;
    if calls != [] {
      var last := calls[|calls| - 1];
      SameCanonical(last.tool, last.args, call.tool, call.args);
    }
  }

  predicate SameText(a: Call, b: Call) {
    Canonical(a.tool, a.args) == Canonical(b.tool, b.args)
  }

  class ToolLoopGuard {
    var lastFailing: Option<Text>
    var consecutiveFailures: nat
    ghost var calls: seq<Call>

    ghost predicate Valid()
      reads this
    {
      && (forall i :: 0 <= i < |calls| ==> WellFormed(calls[i].args))
      && consecutiveFailures == FailureRun(calls)
      && (if consecutiveFailures == 0 then lastFailing == None
          else
            var last := calls[|calls| - 1];
            lastFailing == Some(Canonical(last.tool, last.args)))
    }

    constructor ()
      ensures Valid() && calls == []
    {
      lastFailing, consecutiveFailures, calls := None, 0, [];
    }

    /**
     * Record one tool result. It throws on a call exactly when this call and the two before it all
     * failed with the same tool and the same arguments up to key order.
     */
    method Record(tool: Text, args: Json, isError: bool) returns (threw: bool)
      requires Valid() && WellFormed(args)
      modifies this
      ensures Valid() && calls == old(calls) + [Call(tool, args, isError)]
      ensures threw <==> ThirdFailure(calls)
    {
      var hash := Canonical(tool, args);
      FailureRunStep(calls, Call(tool, args, isError));
      calls := calls + [Call(tool, args, isError)];
      FailureRunOfThree(calls);
      if isError && lastFailing == Some(hash) {
        consecutiveFailures := consecutiveFailures + 1;
        return consecutiveFailures >= TOOL_LOOP_THRESHOLD;
      }
      if isError {
        lastFailing := Some(hash);
        consecutiveFailures := 1;
      } else {
        lastFailing := None;
        consecutiveFailures := 0;
      }
      return false;
    }
  }
}
