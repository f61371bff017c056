/** The tracker object the loops share; every method is one JavaScript turn of one loop. */
module BudgetTracking {
  import opened Util
  import opened Transcript
  import opened Budget

  class BudgetTracker {
    const limits: Limits
    ghost const initialUsed: int
    var used: int
    var graceInjected: bool
    /** Where each loop holding the tracker stands. */
    var loops: map<LoopId, Phase>
    ghost var injections: nat
    ghost var turns: seq<Turn>

    ghost function View(): Swarm
      reads this
    {
      Swarm(used, graceInjected, loops, injections)
    }

    /** The fields are what the turns taken so far make of a fresh tracker. */
    ghost predicate Valid()
      reads this
    {
      View() == Run(limits, InitialSwarm(initialUsed), turns)
    }

    constructor (budget: Option<int>, graceLimit: Option<int>, initialUsed: int)
      ensures Valid() && turns == [] && limits == Limits(budget, graceLimit)
      ensures View() == InitialSwarm(initialUsed) && this.initialUsed == initialUsed
    {
      limits, this.initialUsed := Limits(budget, graceLimit), initialUsed;
      used, graceInjected, loops := initialUsed, false, map[];
      injections, turns := 0, [];
    }

    predicate Stands(id: LoopId, p: Phase)
      reads this
    {
      id in loops && loops[id] == p
    }

    predicate IsOverGrace()
      reads this
    {
      limits.graceLimit.Some? && used >= limits.graceLimit.value
    }

    predicate ShouldInjectGrace()
      reads this
    {
      limits.budget.Some? && !graceInjected && used >= limits.budget.value && !IsOverGrace()
    }

    ghost method Took(t: Turn, before: Swarm)
      requires before == Run(limits, InitialSwarm(initialUsed), turns)
      requires View() == Apply(limits, before, t)
      modifies this`turns
      ensures Valid() && turns == old(turns) + [t]
    {
      RunSnoc(limits, InitialSwarm(initialUsed), turns, t);
      turns := turns + [t];
    }

    method Enter(id: LoopId)
      requires Valid() && id !in loops
      modifies this
      ensures Valid() && turns == old(turns) + [Join(id)]
      ensures View() == Apply(limits, old(View()), Join(id))
    {
      loops := loops[id := Top];
      Took(Join(id), old(View()));
    }

    /** The check before a call; `wants` is false on the last iteration or after an abort. */
    method BeforeCall(id: LoopId, wants: bool) returns (go: bool)
      requires Valid() && Stands(id, Top)
      modifies this
      ensures Valid() && turns == old(turns) + [Begin(id, wants)]
      ensures View() == Apply(limits, old(View()), Begin(id, wants))
      ensures go <==> wants && (limits.graceLimit.Some? ==> used < limits.graceLimit.value)
      ensures used == old(used) && Stands(id, if go then Calling else Stopped)
    {
      go := wants && !IsOverGrace();
      loops := loops[id := if go then Calling else Stopped];
      Took(Begin(id, wants), old(View()));
    }

    method Record(id: LoopId, usage: Usage)
      requires Valid() && Stands(id, Calling)
      modifies this
      ensures Valid() && turns == old(turns) + [Returns(id, usage.inputTokens + usage.outputTokens)]
      ensures View() == Apply(limits, old(View()), Returns(id, usage.inputTokens + usage.outputTokens))
    {
      used := used + usage.inputTokens + usage.outputTokens;
      loops := loops[id := Returned];
      Took(Returns(id, usage.inputTokens + usage.outputTokens), old(View()));
    }

    method Fail(id: LoopId)
      requires Valid() && (Stands(id, Calling) || Stands(id, Returned) || Stands(id, Acting))
      modifies this
      ensures Valid() && turns == old(turns) + [Fails(id)]
      ensures View() == Apply(limits, old(View()), Fails(id))
    {
      loops := loops[id := Stopped];
      Took(Fails(id), old(View()));
    }

    method MarkGraceInjected()
      modifies this`graceInjected, this`injections
      ensures graceInjected && injections == old(injections) + 1
    {
      graceInjected := true;
      injections := injections + 1;
    }

    /** The checks after a recorded call; `acts` says whether there are tools to run. */
    method AfterCall(id: LoopId, acts: bool) returns (over: bool, inject: bool)
      requires Valid() && Stands(id, Returned)
      modifies this
      ensures Valid() && turns == old(turns) + [Check(id, acts)]
      ensures View() == Apply(limits, old(View()), Check(id, acts))
      ensures over <==> limits.graceLimit.Some? && limits.graceLimit.value <= used
      ensures inject <==> limits.budget.Some? && limits.budget.value <= used && !over && !old(graceInjected)
      ensures graceInjected <==> old(graceInjected) || inject
    {
      over := IsOverGrace();
      inject := false;
      if over {
        loops := loops[id := Stopped];
      } else {
        inject := ShouldInjectGrace();
        if inject {
          MarkGraceInjected();
        }
        loops := loops[id := if acts then Acting else Stopped];
      }
      Took(Check(id, acts), old(View()));
    }

    method ToolsDone(id: LoopId)
      requires Valid() && Stands(id, Acting)
      modifies this
      ensures Valid() && turns == old(turns) + [Acted(id)]
      ensures View() == Apply(limits, old(View()), Acted(id))
    {
      loops := loops[id := Top];
      Took(Acted(id), old(View()));
    }

    /** One turn of some loop, if it is that loop's turn to take it. */
    method Take(t: Turn)
      requires Valid()
      modifies this
      ensures Valid() && turns == old(turns) + [t] && View() == Apply(limits, old(View()), t)
    {
      match t
      case Join(id) =>
        if id !in loops { Enter(id); } else { Took(t, old(View())); }
      case Begin(id, wants) =>
        if Stands(id, Top) { var go := BeforeCall(id, wants); } else { Took(t, old(View())); }
      case Returns(id, tokens) =>
        if Stands(id, Calling) { Record(id, Usage(tokens, 0, tokens, None, None)); } else { Took(t, old(View())); }
      case Fails(id) =>
        if Stands(id, Calling) || Stands(id, Returned) || Stands(id, Acting) {
          Fail(id);
        } else {
          Took(t, old(View()));
        }
      case Check(id, acts) =>
        if Stands(id, Returned) { var over, inject := AfterCall(id, acts); } else { Took(t, old(View())); }
      case Acted(id) =>
        if Stands(id, Acting) { ToolsDone(id); } else { Took(t, old(View())); }
    }

    /** While `me` awaits, the other loops take any turns they like. */
    method Await(me: LoopId)
      requires Valid() && me in loops
      modifies this
      ensures Valid() && old(turns) <= turns && OthersOnly(turns[|old(turns)|..], me)
      ensures me in loops && loops[me] == old(loops[me])
      ensures old(graceInjected) ==> graceInjected
      ensures old(IsOverGrace()) ==> IsOverGrace()
    {
      var n: nat :| n >= 0;
      for i := 0 to n
        invariant Valid() && old(turns) <= turns && OthersOnly(turns[|old(turns)|..], me)
        invariant me in loops && loops[me] == old(loops[me])
        invariant old(graceInjected) ==> graceInjected
        invariant old(IsOverGrace()) ==> IsOverGrace()
      {
        assert IsOther(Acted(me + 1), me);
        var t: Turn :| IsOther(t, me);
        assert IsOther(t, me);
        ghost var before := turns;
        ghost var was := View();
        OtherKeepsMe(limits, was, t, me);
        Take(t);
        assert turns[|old(turns)|..] == before[|old(turns)|..] + [t];
      }
    }

    /** Every run of the tracker obeys the shared overshoot bound. */
    lemma Overshoot(m: nat)
      requires Valid() && limits.graceLimit.Some? && initialUsed < limits.graceLimit.value
      requires CallsCostAtMost(turns, m)
      ensures used <= limits.graceLimit.value - 1 + |loops| * m
    {
      OvershootBoundPerLoop(limits, initialUsed, turns, m);
    }

    /** What is used is what was used before plus what the calls cost; one grace message, if ever due. */
    lemma Accounted()
      requires Valid()
      ensures used == initialUsed + Paid(limits, InitialSwarm(initialUsed), turns)
      ensures injections == if EverWarns(limits, InitialSwarm(initialUsed), turns) then 1 else 0
      ensures graceInjected <==> injections == 1
    {
      CounterAndGrace(limits, InitialSwarm(initialUsed), turns);
    }
  }

  predicate IsOther(t: Turn, me: LoopId) {
    t.id != me
  }

  /** A turn of another loop leaves `me` where it stands, and never lowers the counter. */
  lemma OtherKeepsMe(limits: Limits, s: Swarm, t: Turn, me: LoopId)
    requires me in s.loops && t.id != me
    ensures var s' := Apply(limits, s, t);
            && me in s'.loops && s'.loops[me] == s.loops[me]
            && (s.graceInjected ==> s'.graceInjected) && s.used <= s'.used
  {
  }

  predicate OthersOnly(turns: seq<Turn>, me: LoopId) {
    forall i :: 0 <= i < |turns| ==> turns[i].id != me
  }

  /** The turns of other loops record nothing for `me`. */
  lemma {:induction false} OthersSpendNothing(before: seq<Turn>, after: seq<Turn>, me: LoopId)
    requires before <= after && OthersOnly(after[|before|..], me)
    ensures Spent(after, me) == Spent(before, me)
    decreases |after|
  {
    if |before| < |after| {
      var init := after[..|after| - 1];
      assert init[|before|..] == after[|before|..][..|after| - 1 - |before|];
      assert after[|before|..][|after| - 1 - |before|] == after[|after| - 1];
      OthersSpendNothing(before, init, me);
    } else {
      assert before == after;
    }
  }
}
