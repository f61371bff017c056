/**
 * One token budget shared by several reasoning loops. An event is one JavaScript turn of one loop:
 * the check at the top together with the start of the provider call, the recording of a returned
 * call, and the check after it together with the grace message. `injections` is history.
 */
module Budget {
  import opened Util

  type LoopId = nat

  /** Both limits are absent when nothing is enforced; `graceLimit` is given, not computed. */
  datatype Limits = Limits(budget: Option<int>, graceLimit: Option<int>)

  datatype Phase = Top | Calling | Returned | Acting | Stopped

  datatype Swarm = Swarm(
    used: int,
    graceInjected: bool,
    loops: map<LoopId, Phase>,
    injections: nat)

  datatype Turn =
    | Join(id: LoopId)
    | Begin(id: LoopId, wants: bool)          // top of the loop: abort or last iteration, or go on
    | Returns(id: LoopId, tokens: nat)        // the call returned and its usage is recorded
    | Fails(id: LoopId)                       // the call or a tool threw
    | Check(id: LoopId, acts: bool)           // after the call: stop, or run tools
    | Acted(id: LoopId)                       // all tool calls are answered

  function InitialSwarm(initialUsed: int): Swarm {
    Swarm(initialUsed, false, map[], 0)
  }

  predicate OverGrace(limits: Limits, used: int) {
    limits.graceLimit.Some? && used >= limits.graceLimit.value
  }

  predicate InjectsGrace(limits: Limits, used: int, injected: bool) {
    limits.budget.Some? && !injected && used >= limits.budget.value && !OverGrace(limits, used)
  }

  predicate InPhase(s: Swarm, id: LoopId, p: Phase) {
    id in s.loops && s.loops[id] == p
  }

  function Move(s: Swarm, id: LoopId, p: Phase): Swarm {
    s.(loops := s.loops[id := p])
  }

  function Apply(limits: Limits, s: Swarm, t: Turn): Swarm {
    match t
    case Join(id) => if id in s.loops then s else Move(s, id, Top)
    case Begin(id, wants) =>
      if !InPhase(s, id, Top) then s
      else Move(s, id, if wants && !OverGrace(limits, s.used) then Calling else Stopped)
    case Returns(id, tokens) =>
      if !InPhase(s, id, Calling) then s
      else Move(s.(used := s.used + tokens), id, Returned)
    case Fails(id) =>
      if InPhase(s, id, Calling) || InPhase(s, id, Acting) || InPhase(s, id, Returned)
      then Move(s, id, Stopped) else s
    case Check(id, acts) =>
      if !InPhase(s, id, Returned) then s
      else if OverGrace(limits, s.used) then Move(s, id, Stopped)
      else if InjectsGrace(limits, s.used, s.graceInjected) then
        Move(s.(graceInjected := true, injections := s.injections + 1), id, if acts then Acting else Stopped)
      else Move(s, id, if acts then Acting else Stopped)
    case Acted(id) => if InPhase(s, id, Acting) then Move(s, id, Top) else s
  }

  function Run(limits: Limits, s: Swarm, turns: seq<Turn>): Swarm
    decreases |turns|
  {
    if turns == [] then s else Run(limits, Apply(limits, s, turns[0]), turns[1..])
  }

  lemma {:induction false} RunSnoc(limits: Limits, s: Swarm, turns: seq<Turn>, t: Turn)
    ensures Run(limits, s, turns + [t]) == Apply(limits, Run(limits, s, turns), t)
    decreases |turns|
  {
    if turns == [] {
      assert ([] + [t])[1..] == [];
    } else {
      assert (turns + [t])[1..] == turns[1..] + [t];
      RunSnoc(limits, Apply(limits, s, turns[0]), turns[1..], t);
    }
  }

  /** The tokens the turns record for one loop. */
  function Spent(turns: seq<Turn>, id: LoopId): nat {
    if turns == [] then 0
    else
      var last := turns[|turns| - 1];
      Spent(turns[..|turns| - 1], id) + if last.Returns? && last.id == id then last.tokens else 0
  }

  // ------------------------------------------------------------ calls in flight

  ghost function InFlight(s: Swarm): set<LoopId> {
    set id | id in s.loops && s.loops[id] == Calling
  }

  /** At every point of the run at most `k` provider calls are in flight. */
  ghost predicate AtMost(limits: Limits, s: Swarm, turns: seq<Turn>, k: nat)
    decreases |turns|
  {
    && |InFlight(s)| <= k
    && (turns != [] ==> AtMost(limits, Apply(limits, s, turns[0]), turns[1..], k))
  }

  predicate CallsCostAtMost(turns: seq<Turn>, m: nat) {
    forall t :: t in turns && t.Returns? ==> t.tokens <= m
  }

  lemma InFlightMove(s: Swarm, id: LoopId, p: Phase)
    ensures |InFlight(Move(s, id, p))|
         == |InFlight(s)| - (if InPhase(s, id, Calling) then 1 else 0) + if p == Calling then 1 else 0
  {
    var rest := InFlight(s) - {id};
    InFlightOthers(s, id, p);
    OneMore(rest, id);
    if InPhase(s, id, Calling) {
      assert InFlight(s) == rest + {id};
    } else {
      assert InFlight(s) == rest;
    }
  }

  lemma OneMore(ids: set<LoopId>, id: LoopId)
    requires id !in ids
    ensures |ids + {id}| == |ids| + 1 && ids + {} == ids
  {
  }

  lemma InFlightOthers(s: Swarm, id: LoopId, p: Phase)
    ensures InFlight(Move(s, id, p)) == (InFlight(s) - {id}) + if p == Calling then {id} else {}
  {
  }

  // ------------------------------------------------------------ the overshoot

  /** Each call still in flight may add `m`; the others of the `k` have no claim left. */
  ghost predicate Covered(limits: Limits, s: Swarm, k: nat, m: nat) {
    && |InFlight(s)| <= k
    && (limits.graceLimit.Some? ==> s.used <= limits.graceLimit.value - 1 + (k - |InFlight(s)|) * m)
  }

  lemma OneLess(k: nat, c: nat, m: nat)
    requires 1 <= c <= k
    ensures (k - (c - 1)) * m == (k - c) * m + m
  {
  }

  lemma NonNegative(k: nat, c: nat, m: nat)
    requires c <= k
    ensures (k - c) * m >= 0
  {
  }

  lemma ApplyCovered(limits: Limits, s: Swarm, t: Turn, k: nat, m: nat)
    requires Covered(limits, s, k, m) && |InFlight(Apply(limits, s, t))| <= k
    requires t.Returns? ==> t.tokens <= m
    ensures Covered(limits, Apply(limits, s, t), k, m)
  {
    var s' := Apply(limits, s, t);
    if t.id in s'.loops {
      InFlightMove(s, t.id, s'.loops[t.id]);
    }
    NonNegative(k, |InFlight(s')|, m);
    match t
    case Returns(id, tokens) =>
      if InPhase(s, id, Calling) {
        assert id in InFlight(s);
        assert InFlight(s') == InFlight(Move(s, id, Returned));
        OneLess(k, |InFlight(s)|, m);
      }
    case Fails(id) =>
      if InPhase(s, id, Calling) {
        assert id in InFlight(s);
        OneLess(k, |InFlight(s)|, m);
      }
    case Check(id, acts) =>
      assert InFlight(s') == InFlight(s);
    case Begin(id, wants) =>
    case Join(_) =>
    case Acted(_) =>
  }

  lemma {:induction false} RunCovered(limits: Limits, s: Swarm, turns: seq<Turn>, k: nat, m: nat)
    requires Covered(limits, s, k, m) && AtMost(limits, s, turns, k) && CallsCostAtMost(turns, m)
    ensures Covered(limits, Run(limits, s, turns), k, m)
    decreases |turns|
  {
    if turns != [] {
      assert turns[0] in turns;
      ApplyCovered(limits, s, turns[0], k, m);
      RunCovered(limits, Apply(limits, s, turns[0]), turns[1..], k, m);
    }
  }

  lemma FewerThanLoops(s: Swarm)
    ensures |InFlight(s)| <= |s.loops|
  {
    assert InFlight(s) <= s.loops.Keys;
    SubsetSize(InFlight(s), s.loops.Keys);
  }

  lemma {:induction false} SubsetSize(a: set<LoopId>, b: set<LoopId>)
    requires a <= b
    ensures |a| <= |b|
  {
    if a != {} {
      var x :| x in a;
      SubsetSize(a - {x}, b - {x});
    }
  }

  /**
   * Shared overshoot: when a tracker starts below its grace limit, at most `k` calls are ever in
   * flight at once and no call costs more than `m`, the total never exceeds graceLimit - 1 + k*m.
   */
  lemma OvershootBound(limits: Limits, initialUsed: int, turns: seq<Turn>, k: nat, m: nat)
    requires limits.graceLimit.Some? && initialUsed < limits.graceLimit.value
    requires AtMost(limits, InitialSwarm(initialUsed), turns, k) && CallsCostAtMost(turns, m)
    ensures Run(limits, InitialSwarm(initialUsed), turns).used <= limits.graceLimit.value - 1 + k * m
  {
    var s0 := InitialSwarm(initialUsed);
    assert InFlight(s0) == {};
    NonNegative(k, 0, m);
    RunCovered(limits, s0, turns, k, m);
    var s := Run(limits, s0, turns);
    Product(k - |InFlight(s)|, k, m);
  }

  lemma Product(a: nat, b: nat, m: nat)
    requires a <= b
    ensures a * m <= b * m
  {
  }

  lemma {:induction false} LoopsOnlyJoin(limits: Limits, s: Swarm, turns: seq<Turn>, k: nat)
    requires |Run(limits, s, turns).loops| <= k
    ensures AtMost(limits, s, turns, k) && |s.loops| <= k
    decreases |turns|
  {
    if turns != [] {
      var s1 := Apply(limits, s, turns[0]);
      LoopsOnlyJoin(limits, s1, turns[1..], k);
      assert s.loops.Keys <= s1.loops.Keys;
      SubsetSize(s.loops.Keys, s1.loops.Keys);
    }
    FewerThanLoops(s);
  }

  /** In particular with `k` loops sharing the tracker. */
  lemma OvershootBoundPerLoop(limits: Limits, initialUsed: int, turns: seq<Turn>, m: nat)
    requires limits.graceLimit.Some? && initialUsed < limits.graceLimit.value
    requires CallsCostAtMost(turns, m)
    ensures var s := Run(limits, InitialSwarm(initialUsed), turns);
            s.used <= limits.graceLimit.value - 1 + |s.loops| * m
  {
    var k := |Run(limits, InitialSwarm(initialUsed), turns).loops|;
    LoopsOnlyJoin(limits, InitialSwarm(initialUsed), turns, k);
    OvershootBound(limits, initialUsed, turns, k, m);
  }

  // ------------------------------------------------------------ after the limit

  /** Once the limit is reached it stays reached and no loop starts another call. */
  lemma {:induction false} NoCallAfterLimit(limits: Limits, s: Swarm, turns: seq<Turn>)
    requires OverGrace(limits, s.used)
    ensures var s' := Run(limits, s, turns);
            && OverGrace(limits, s'.used)
            && InFlight(s') <= InFlight(s)
    decreases |turns|
  {
    if turns != [] {
      var s1 := Apply(limits, s, turns[0]);
      assert InFlight(s1) <= InFlight(s);
      NoCallAfterLimit(limits, s1, turns[1..]);
    }
  }

  /** What the calls that return along the run have cost, all loops together. */
  function Paid(limits: Limits, s: Swarm, turns: seq<Turn>): nat
    decreases |turns|
  {
    if turns == [] then 0
    else
      var t := turns[0];
      (if t.Returns? && t.id in s.loops && s.loops[t.id] == Calling then t.tokens else 0)
      + Paid(limits, Apply(limits, s, t), turns[1..])
  }

  /** A loop checks after a call of its own, and the total is at the budget but not at the grace limit. */
  predicate WarnsAt(limits: Limits, s: Swarm, t: Turn) {
    && t.Check? && t.id in s.loops && s.loops[t.id] == Returned
    && limits.budget.Some? && limits.budget.value <= s.used
    && (limits.graceLimit.Some? ==> s.used < limits.graceLimit.value)
  }

  predicate EverWarns(limits: Limits, s: Swarm, turns: seq<Turn>)
    decreases |turns|
  {
    turns != [] && (WarnsAt(limits, s, turns[0]) || EverWarns(limits, Apply(limits, s, turns[0]), turns[1..]))
  }

  /** A turn injects the message if it is the first to find the total there, and no other turn does. */
  lemma InjectsExactly(limits: Limits, s: Swarm, t: Turn)
    ensures var s' := Apply(limits, s, t);
            && s'.injections == s.injections + (if WarnsAt(limits, s, t) && !s.graceInjected then 1 else 0)
            && (s'.graceInjected <==> s.graceInjected || WarnsAt(limits, s, t))
  {
  }

  /**
   * The counter is the initial value plus what the returned calls cost. The grace message is injected
   * once if some check finds the total at the budget but not at the grace limit, and never if none does.
   */
  lemma {:induction false} CounterAndGrace(limits: Limits, s: Swarm, turns: seq<Turn>)
    requires s.injections == (if s.graceInjected then 1 else 0)
    ensures var s' := Run(limits, s, turns);
            && s'.used == s.used + Paid(limits, s, turns)
            && s'.injections == (if s'.graceInjected then 1 else 0)
            && (s'.graceInjected <==> s.graceInjected || EverWarns(limits, s, turns))
    decreases |turns|
  {
    if turns != [] {
      InjectsExactly(limits, s, turns[0]);
      CounterAndGrace(limits, Apply(limits, s, turns[0]), turns[1..]);
    }
  }

  // ------------------------------------------------------------ the bound is reached

  /** `k` loops that all start their call below the limit. */
  function Starts(k: nat): seq<Turn> {
    if k == 0 then [] else Starts(k - 1) + [Join(k - 1), Begin(k - 1, true)]
  }

  function Finishes(k: nat, m: nat): seq<Turn> {
    if k == 0 then [] else Finishes(k - 1, m) + [Returns(k - 1, m)]
  }

  lemma {:induction false} RunConcat(limits: Limits, s: Swarm, a: seq<Turn>, b: seq<Turn>)
    ensures Run(limits, s, a + b) == Run(limits, Run(limits, s, a), b)
    decreases |a|
  {
    if a == [] {
      assert a + b == b;
    } else {
      assert (a + b)[1..] == a[1..] + b;
      RunConcat(limits, Apply(limits, s, a[0]), a[1..], b);
    }
  }

  lemma {:induction false} AllStarted(limits: Limits, used: int, k: nat)
    requires limits.graceLimit.Some? && used < limits.graceLimit.value
    ensures var s := Run(limits, InitialSwarm(used), Starts(k));
            && s.used == used && (forall id :: id in s.loops <==> 0 <= id < k)
            && (forall id :: id in s.loops ==> s.loops[id] == Calling)
  {
    if k > 0 {
      AllStarted(limits, used, k - 1);
      var started := Starts(k - 1);
      assert Starts(k) == (started + [Join(k - 1)]) + [Begin(k - 1, true)];
      RunSnoc(limits, InitialSwarm(used), started, Join(k - 1));
      RunSnoc(limits, InitialSwarm(used), started + [Join(k - 1)], Begin(k - 1, true));
    }
  }

  lemma {:induction false} AllFinished(limits: Limits, s: Swarm, k: nat, m: nat)
    requires forall id :: 0 <= id < k ==> InPhase(s, id, Calling)
    ensures var s' := Run(limits, s, Finishes(k, m));
            && s'.used == s.used + k * m
            && (forall id :: id in s.loops && id >= k ==> InPhase(s', id, s.loops[id]))
  {
    if k > 0 {
      AllFinished(limits, s, k - 1, m);
      RunSnoc(limits, s, Finishes(k - 1, m), Returns(k - 1, m));
      assert InPhase(s, k - 1, Calling);
      assert k * m == (k - 1) * m + m;
    }
  }

  lemma {:induction false} FinishesCost(k: nat, m: nat)
    ensures CallsCostAtMost(Finishes(k, m), m)
  {
    if k > 0 {
      FinishesCost(k - 1, m);
    }
  }

  lemma {:induction false} StartsCost(k: nat, m: nat)
    ensures CallsCostAtMost(Starts(k), m)
  {
    if k > 0 {
      StartsCost(k - 1, m);
    }
  }

  /** The bound is exact: for every `k` and `m` a run with `k` loops and calls of cost `m` meets it. */
  lemma OvershootBoundIsTight(limits: Limits, k: nat, m: nat)
    requires limits.graceLimit.Some?
    ensures exists turns ::
              && CallsCostAtMost(turns, m)
              && var s := Run(limits, InitialSwarm(limits.graceLimit.value - 1), turns);
              && |s.loops| <= k
              && s.used == limits.graceLimit.value - 1 + k * m
  {
    var used := limits.graceLimit.value - 1;
    var turns := Starts(k) + Finishes(k, m);
    RunConcat(limits, InitialSwarm(used), Starts(k), Finishes(k, m));
    AllStarted(limits, used, k);
    var s := Run(limits, InitialSwarm(used), Starts(k));
    AllFinished(limits, s, k, m);
    StartsCost(k, m);
    FinishesCost(k, m);
    KeepsLoops(limits, s, k, m);
    RangeSize(s.loops.Keys, k);
    assert CallsCostAtMost(turns, m);
  }

  lemma {:induction false} KeepsLoops(limits: Limits, s: Swarm, k: nat, m: nat)
    ensures Run(limits, s, Finishes(k, m)).loops.Keys == s.loops.Keys
  {
    if k > 0 {
      KeepsLoops(limits, s, k - 1, m);
      RunSnoc(limits, s, Finishes(k - 1, m), Returns(k - 1, m));
    }
  }

  lemma {:induction false} RangeSize(keys: set<LoopId>, k: nat)
    requires forall id :: id in keys <==> 0 <= id < k
    ensures |keys| == k
  {
    if k > 0 {
      var rest := keys - {k - 1};
      assert keys == rest + {k - 1};
      RangeSize(rest, k - 1);
    } else {
      assert keys == {};
    }
  }
}
