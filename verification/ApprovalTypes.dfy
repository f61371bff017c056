/** The closed tables of the approval flow: choices, what may be offered, and memory keys. */
module ApprovalTypes {
  import opened Util

  datatype ScopeKind = RunScope | ResourceScope | CallScope

  datatype Decision = Allow | Deny

  datatype Scope = Once | ThisSession | Always

  datatype Choice = AllowOnce | AllowSession | AllowAlways | DenyOnce | DenySession | DenyAlways

  function Direction(c: Choice): Decision {
    if c == AllowOnce || c == AllowSession || c == AllowAlways then Allow else Deny
  }

  function ScopeOf(c: Choice): Scope {
    match c
    case AllowOnce | DenyOnce => Once
    case AllowSession | DenySession => ThisSession
    case AllowAlways | DenyAlways => Always
  }

  function Strength(c: Choice): nat {
    match ScopeOf(c)
    case Once => 0
    case ThisSession => 1
    case Always => 2
  }

  function OfferedScopes(kind: ScopeKind, extractorFailed: bool): seq<Choice> {
    if extractorFailed then [AllowOnce, DenyOnce]
    else if kind == CallScope then [AllowOnce, AllowSession, DenyOnce, DenySession]
    else [AllowOnce, AllowSession, AllowAlways, DenyOnce, DenySession, DenyAlways]
  }

  function Ladder(c: Choice): seq<Choice> {
    match c
    case AllowAlways => [AllowSession, AllowOnce]
    case AllowSession => [AllowOnce]
    case AllowOnce => []
    case DenyAlways => [DenySession, DenyOnce]
    case DenySession => [DenyOnce]
    case DenyOnce => []
  }

  function FirstOffered(ladder: seq<Choice>, offered: seq<Choice>): Option<Choice> {
    if ladder == [] then None
    else if ladder[0] in offered then Some(ladder[0])
    else FirstOffered(ladder[1..], offered)
  }

  datatype Downgraded = Downgraded(choice: Choice, downgraded: bool)

  function DowngradeChoice(choice: Choice, offered: seq<Choice>): Downgraded {
    if choice in offered then Downgraded(choice, false)
    else
      match FirstOffered(Ladder(choice), offered)
      case Some(next) => Downgraded(next, true)
      case None =>
        var fallback := if Direction(choice) == Allow then AllowOnce else DenyOnce;
        Downgraded(fallback, choice != fallback)
  }

  /** The weakest choice in the direction of `c`. */
  function OnceLike(c: Choice): Choice {
    if Direction(c) == Allow then AllowOnce else DenyOnce
  }

  /**
   * A downgrade never changes direction and never gains strength; where the weakest choice of that
   * direction is on offer, it is the strongest offered choice that the user's choice covers.
   */
  lemma DowngradeIsStrongestOffered(choice: Choice, offered: seq<Choice>)
    ensures var d := DowngradeChoice(choice, offered);
            && Direction(d.choice) == Direction(choice)
            && Strength(d.choice) <= Strength(choice)
            && (d.downgraded <==> d.choice != choice)
            && (OnceLike(choice) in offered ==>
                  && d.choice in offered
                  && forall c :: c in offered && Direction(c) == Direction(choice) && Strength(c) <= Strength(choice)
                       ==> Strength(c) <= Strength(d.choice))
  {
    FirstOfferedIsFirst(Ladder(choice), offered);
    match choice
    case AllowAlways => assert Ladder(choice)[1] == AllowOnce;
    case AllowSession => assert Ladder(choice)[0] == AllowOnce;
    case AllowOnce =>
    case DenyAlways => assert Ladder(choice)[1] == DenyOnce;
    case DenySession => assert Ladder(choice)[0] == DenyOnce;
    case DenyOnce =>
  }

  /** On a ladder of at most two steps: the first step on offer. */
  lemma FirstOfferedIsFirst(ladder: seq<Choice>, offered: seq<Choice>)
    requires |ladder| <= 2
    ensures FirstOffered(ladder, offered)
         == if |ladder| > 0 && ladder[0] in offered then Some(ladder[0])
            else if |ladder| > 1 && ladder[1] in offered then Some(ladder[1])
            else None
  {
    if |ladder| == 2 {
      assert ladder[1..] == [ladder[1]];
      assert [ladder[1]][1..] == [];
    } else if |ladder| == 1 {
      assert ladder[1..] == [];
    }
  }

  /** Nothing less than the extractor failure or the call scope demands is taken away. */
  lemma OffersAreBounded(kind: ScopeKind, extractorFailed: bool, requested: Choice)
    ensures var c := DowngradeChoice(requested, OfferedScopes(kind, extractorFailed)).choice;
            && c in OfferedScopes(kind, extractorFailed)
            && (extractorFailed ==> ScopeOf(c) == Once)
            && (kind == CallScope ==> ScopeOf(c) != Always)
            && (!extractorFailed && (kind == CallScope ==> ScopeOf(requested) != Always) ==> c == requested)
  {
    DowngradeIsStrongestOffered(requested, OfferedScopes(kind, extractorFailed));
  }

  // ------------------------------------------------------------ memory keys

  function MemoryKey(tool: string, resource: string): string {
    tool + ":" + resource
  }

  /** The index of the first colon, or -1. */
  function FirstColon(s: string): (i: int)
    ensures -1 <= i < |s|
    ensures i == -1 <==> ':' !in s
    ensures i >= 0 ==> s[i] == ':' && ':' !in s[..i]
  {
    if s == [] then -1
    else if s[0] == ':' then 0
    else
      var i := FirstColon(s[1..]);
      assert i >= 0 ==> s[..i + 1] == [s[0]] + s[1..][..i];
      assert s == [s[0]] + s[1..];
      if i == -1 then -1 else i + 1
  }

  /** How revocation takes a stored key apart; without a colon the cut is one before the end. */
  function SplitKey(key: string): (string, string) {
    var sep := FirstColon(key);
    if sep >= 0 then (key[..sep], key[sep + 1..])
    else (if key == [] then key else key[..|key| - 1], key)
  }

  lemma {:induction false} FirstColonIs(s: string, i: nat)
    requires i < |s| && s[i] == ':' && ':' !in s[..i]
    ensures FirstColon(s) == i
  {
    if i > 0 {
      assert s[..i][0] == s[0];
      assert s[1..][..i - 1] == s[..i][1..];
      FirstColonIs(s[1..], i - 1);
    }
  }

  /** Revocation recovers the tool and the resource of a stored key iff the tool name has no colon. */
  lemma SplitInvertsExactly(tool: string, resource: string)
    ensures SplitKey(MemoryKey(tool, resource)) == (tool, resource) <==> ':' !in tool
  {
    var key := MemoryKey(tool, resource);
    assert key[|tool|] == ':' && key[..|tool|] == tool && key[|tool| + 1..] == resource;
    if ':' !in tool {
      FirstColonIs(key, |tool|);
    }
  }

  /** Keys of different (tool, resource) pairs differ when the tool names have no colon. */
  lemma KeysDiffer(tool: string, resource: string, tool': string, resource': string)
    requires ':' !in tool && ':' !in tool'
    ensures MemoryKey(tool, resource) == MemoryKey(tool', resource') <==> tool == tool' && resource == resource'
  {
    SplitInvertsExactly(tool, resource);
    SplitInvertsExactly(tool', resource');
  }

  /** With a colon in a tool name two tools can share a key, and revoking one addresses the other. */
  lemma ColonNamesCollide()
    ensures MemoryKey("a:b", "c") == MemoryKey("a", "b:c")
    ensures SplitKey(MemoryKey("a:b", "c")) == ("a", "b:c")
  {
    assert MemoryKey("a:b", "c") == MemoryKey("a", "b:c");
    SplitInvertsExactly("a", "b:c");
  }
}
