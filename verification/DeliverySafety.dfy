/** No published result is lost, whatever the interleaving, the crashes and the failed commands. */
module DeliverySafety {
  import opened Delivery
  import opened DeliveryWaves

  // ------------------------------------------------------------ the balance

  /** A deliverer owes one removal of `r` between pushing a copy and removing the old one. */
  predicate Owes(p: Proc, r: Result) {
    (p.CapRem? || p.FixRem?) && p.todo != [] && Carries(p.todo[0], r)
  }

  function OweBit(p: Proc, r: Result): nat {
    if Owes(p, r) then 1 else 0
  }

  /** The command that `p` awaits pushes a copy of `r`. */
  function PushBit(p: Proc, r: Result): nat {
    if p.CapPush? && p.todo != [] && Carries(p.todo[0], r) then 1
    else if p.Fix? && p.todo != [] && Carries(p.todo[0], r) && !LastAttempt(p.todo[0]) then 1
    else 0
  }

  ghost function Debtors(procs: map<Pid, Proc>, r: Result): set<Pid> {
    set pid | pid in procs && Owes(procs[pid], r)
  }

  function Total(s: Sys, r: Result): nat {
    Copies(s.queue, r) + Copies(s.processing, r)
  }

  /** A reinvocation carrying `r` succeeded, or one of the two named drop rules fired for it. */
  predicate Settled(s: Sys, r: Result) {
    WavesWith(s.succeeded, r) > 0 || r in s.dropped || r in s.orphaned
  }

  /** Copies in both lists minus removals still owed: at least one until the result is settled. */
  ghost predicate Balanced(s: Sys, r: Result) {
    Settled(s, r) || Total(s, r) >= |Debtors(s.procs, r)| + if r in s.pushed then 1 else 0
  }

  /** Whoever removes a delivered wave holds items of a wave whose reinvocation succeeded. */
  predicate DoneOk(s: Sys, p: Proc, r: Result) {
    && (p.Announce? && InWave(p.items, r) ==> WavesWith(s.succeeded, r) > 0)
    && (p.DoneRem? && (InWave(p.items, r) || InWave(p.todo, r)) ==> WavesWith(s.succeeded, r) > 0)
  }

  ghost predicate AllDoneOk(s: Sys, r: Result) {
    forall pid :: pid in s.procs ==> DoneOk(s, s.procs[pid], r)
  }

  // ------------------------------------------------------------ debtors

  lemma SplitOff(procs: map<Pid, Proc>, pid: Pid, r: Result)
    ensures |Debtors(procs, r)|
         == |Debtors(procs - {pid}, r)| + if pid in procs then OweBit(procs[pid], r) else 0
  {
    var all := Debtors(procs, r);
    DebtorsWithout(procs, pid, r);
    if pid in all {
      assert all == (all - {pid}) + {pid};
    } else {
      assert all - {pid} == all;
    }
  }

  lemma DebtorsWithout(procs: map<Pid, Proc>, pid: Pid, r: Result)
    ensures Debtors(procs - {pid}, r) == Debtors(procs, r) - {pid}
  {
  }

  lemma DebtorsUpdate(procs: map<Pid, Proc>, pid: Pid, p: Proc, r: Result)
    ensures |Debtors(procs[pid := p], r)|
         == |Debtors(procs, r)| - (if pid in procs then OweBit(procs[pid], r) else 0) + OweBit(p, r)
  {
    SplitOff(procs, pid, r);
    SplitOff(procs[pid := p], pid, r);
    assert procs[pid := p] - {pid} == procs - {pid};
  }

  lemma DebtorsCrash(procs: map<Pid, Proc>, pid: Pid, r: Result)
    ensures |Debtors(procs - {pid}, r)| <= |Debtors(procs, r)|
  {
    SplitOff(procs, pid, r);
  }

  // ------------------------------------------------------------ one command

  lemma InWaveHead(todo: seq<Raw>, r: Result)
    requires todo != []
    ensures Carries(todo[0], r) ==> InWave(todo, r)
    ensures InWave(todo[1..], r) ==> InWave(todo, r)
  {
    if InWave(todo[1..], r) {
      var i :| 0 <= i < |todo[1..]| && Carries(todo[1..][i], r);
      assert Carries(todo[i + 1], r);
    }
  }

  /** The effect of a command that adds a copy, or moves one from list to list. */
  lemma AddingBalance(s: Sys, p: Proc, r: Result)
    requires p.Draining? || p.CapPush? || p.Fix?
    ensures var s' := Effect(s, p);
            Settled(s', r) || Total(s', r) + OweBit(p, r) >= Total(s, r) + PushBit(p, r)
  {
    match p
    case Draining(_) =>
      if s.queue != [] {
        CopiesPop(s.queue, r);
        CopiesPush(s.processing, Tail(s.queue), r);
      }
    case CapPush(todo) =>
      if todo != [] { CopiesPush(s.queue, todo[0], r); }
    case Fix(todo) =>
      if todo != [] {
        CopiesRem(s.processing, todo[0], r);
        if todo[0].Good? { CopiesPush(s.processing, Bump(todo[0]), r); }
      }
    case _ =>
  }

  lemma EffectBalance(s: Sys, p: Proc, r: Result)
    requires DoneOk(s, p, r)
    ensures var s' := Effect(s, p);
            && s'.procs == s.procs && s'.pushed == s.pushed && s'.succeeded == s.succeeded
            && (Settled(s, r) ==> Settled(s', r))
            && (Settled(s', r) || Total(s', r) + OweBit(p, r) >= Total(s, r) + PushBit(p, r))
  {
    match p
    case DropJunk(todo, _) =>
      if todo != [] { CopiesRem(s.processing, todo[0], r); }
    case OrphanRem(_, todo) =>
      if todo != [] { CopiesRem(s.processing, todo[0], r); }
    case DoneRem(_, todo) =>
      if todo != [] {
        CopiesRem(s.processing, todo[0], r);
        InWaveHead(todo, r);
      }
    case CapRem(todo) =>
      if todo != [] { CopiesRem(s.processing, todo[0], r); }
    case FixRem(todo) =>
      if todo != [] { CopiesRem(s.processing, todo[0], r); }
    case _ =>
      if p.Draining? || p.CapPush? || p.Fix? { AddingBalance(s, p, r); }
  }

  /** The state after `Fine` differs from the effect in its control and its count of waves only. */
  lemma FineOwes(max: nat, s: Sys, pid: Pid, p: Proc, r: Result)
    requires AwaitsCommand(p)
    ensures var s' := OnFine(max, s, pid, p);
            var e := Effect(s, p);
            && pid in s'.procs && s'.procs == s.procs[pid := s'.procs[pid]]
            && s' == e.(procs := s'.procs, completed := s'.completed)
            && OweBit(s'.procs[pid], r) <= PushBit(p, r)
            && (DoneOk(s, p, r) ==> DoneOk(s', s'.procs[pid], r))
  {
    if p.DoneRem? && p.todo != [] {
      InWaveHead(p.todo, r);
    }
  }

  lemma ThrowOwes(s: Sys, pid: Pid, p: Proc, r: Result)
    ensures var s' := OnThrow(s, pid, p);
            && pid in s'.procs && s'.procs == s.procs[pid := s'.procs[pid]]
            && s' == s.(procs := s'.procs, failed := s'.failed)
            && OweBit(s'.procs[pid], r) == 0
            && DoneOk(s', s'.procs[pid], r)
  {
  }

  lemma ReplyKeepsBalance(max: nat, s: Sys, pid: Pid, reply: Reply, r: Result)
    requires Balanced(s, r) && AllDoneOk(s, r)
    requires pid in s.procs && AwaitsCommand(s.procs[pid])
    ensures var s' := OnReply(max, s, pid, s.procs[pid], reply);
            Balanced(s', r) && AllDoneOk(s', r)
  {
    var p := s.procs[pid];
    var s' := OnReply(max, s, pid, p, reply);
    EffectBalance(s, p, r);
    match reply {
      case Fine => FineOwes(max, s, pid, p, r);
      case FailedBefore => ThrowOwes(s, pid, p, r);
      case FailedAfter => ThrowOwes(Effect(s, p), pid, p, r);
    }
    DebtorsUpdate(s.procs, pid, s'.procs[pid], r);
    forall q | q in s'.procs ensures DoneOk(s', s'.procs[q], r) {
      if q != pid { assert DoneOk(s, s.procs[q], r); }
    }
  }

  // ------------------------------------------------------------ every event

  lemma LookupKeepsBalance(s: Sys, pid: Pid, lookup: ParentLookup, r: Result)
    requires Balanced(s, r) && AllDoneOk(s, r) && pid in s.procs && s.procs[pid].Lookup?
    ensures var s' := OnLookup(s, pid, s.procs[pid].items, lookup);
            Balanced(s', r) && AllDoneOk(s', r)
  {
    var s' := OnLookup(s, pid, s.procs[pid].items, lookup);
    DebtorsUpdate(s.procs, pid, s'.procs[pid], r);
    forall q | q in s'.procs ensures DoneOk(s', s'.procs[q], r) {
      if q != pid { assert DoneOk(s, s.procs[q], r); }
    }
  }

  lemma RunEndOwes(s: Sys, pid: Pid, items: seq<Raw>, ok: bool, output: bool, r: Result)
    ensures var s' := OnRunEnd(s, pid, items, ok, output);
            && pid in s'.procs && s'.procs == s.procs[pid := s'.procs[pid]]
            && s'.queue == s.queue && s'.processing == s.processing && s'.pushed == s.pushed
            && s'.dropped == s.dropped && s'.orphaned == s.orphaned
            && WavesWith(s'.succeeded, r) >= WavesWith(s.succeeded, r)
            && OweBit(s'.procs[pid], r) == 0
            && DoneOk(s', s'.procs[pid], r)
  {
    WavesAppend(s.succeeded, items, r);
  }

  lemma RunEndKeepsBalance(s: Sys, pid: Pid, ok: bool, output: bool, r: Result)
    requires Balanced(s, r) && AllDoneOk(s, r) && pid in s.procs && s.procs[pid].Running?
    ensures var s' := OnRunEnd(s, pid, s.procs[pid].items, ok, output);
            Balanced(s', r) && AllDoneOk(s', r)
  {
    var s' := OnRunEnd(s, pid, s.procs[pid].items, ok, output);
    RunEndOwes(s, pid, s.procs[pid].items, ok, output, r);
    DebtorsUpdate(s.procs, pid, s'.procs[pid], r);
    forall q | q in s'.procs ensures DoneOk(s', s'.procs[q], r) {
      if q != pid { assert DoneOk(s, s.procs[q], r); }
    }
  }

  lemma ApplyKeepsBalance(max: nat, s: Sys, ev: Event, r: Result)
    requires Balanced(s, r) && AllDoneOk(s, r)
    ensures Balanced(Apply(max, s, ev), r) && AllDoneOk(Apply(max, s, ev), r)
  {
    match ev
    case Publish(x) => CopiesPush(s.queue, Good(x, 0), r);
    case Spawn(pid) =>
      if !(pid in s.procs && s.procs[pid] != Exited) {
        DebtorsUpdate(s.procs, pid, Draining([]), r);
      }
    case Crash(pid) => DebtorsCrash(s.procs, pid, r);
    case Sweep =>
      if s.processing != [] {
        CopiesPop(s.processing, r);
        CopiesPush(s.queue, Tail(s.processing), r);
      }
    case Command(pid, reply) =>
      if pid in s.procs && AwaitsCommand(s.procs[pid]) {
        ReplyKeepsBalance(max, s, pid, reply, r);
      }
    case LookedUp(pid, lookup) =>
      if pid in s.procs && s.procs[pid].Lookup? {
        LookupKeepsBalance(s, pid, lookup, r);
      }
    case RunEnded(pid, ok, output) =>
      if pid in s.procs && s.procs[pid].Running? {
        RunEndKeepsBalance(s, pid, ok, output, r);
      }
  }

  lemma {:induction false} RunKeepsBalance(max: nat, s: Sys, events: seq<Event>, r: Result)
    requires Balanced(s, r) && AllDoneOk(s, r)
    ensures Balanced(Run(max, s, events), r)
    decreases |events|
  {
    if events != [] {
      ApplyKeepsBalance(max, s, events[0], r);
      RunKeepsBalance(max, Apply(max, s, events[0]), events[1..], r);
    }
  }

  /**
   * No result is lost: under every interleaving of publishers, deliverers, sweeps, crashes and
   * failed commands, a published result has a copy in one of the two lists, with one to spare for
   * every removal still owed, until a parent run with a wave carrying it succeeded or a drop rule fired.
   */
  lemma NoResultLost(max: nat, events: seq<Event>, r: Result)
    requires Publish(r) in events
    ensures
      var s := Run(max, INITIAL, events);
      || Copies(s.queue, r) + Copies(s.processing, r) >= 1 + |Debtors(s.procs, r)|
      || Met(max, events, Delivered, r)
      || r in s.dropped
      || r in s.orphaned
  {
    assert Debtors(INITIAL.procs, r) == {};
    RunKeepsBalance(max, INITIAL, events, r);
    PushedIsPublished(max, events, r);
    HistoryIsTrue(max, events, Delivered);
    MetIsRecorded(max, events, Delivered, r);
  }

  // ------------------------------------------------------------ the drop rules are earned

  /** The items a deliverer holds. */
  function Held(p: Proc): seq<Raw> {
    match p
    case Draining(batch) => batch
    case DropJunk(todo, items) => todo + items
    case OrphanRem(items, todo) => items + todo
    case DoneRem(items, todo) => items + todo
    case CapPush(todo) => todo
    case CapRem(todo) => todo
    case Fix(todo) => todo
    case FixRem(todo) => todo
    case Incr(items) => items
    case Expire(items) => items
    case CapDecr(items) => items
    case Lookup(items) => items
    case OrphanDecr(items) => items
    case Running(items) => items
    case Announce(items) => items
    case CatchDecr(items) => items
    case Exited => []
  }

  predicate InCatch(p: Proc) {
    p.CatchDecr? || p.Fix? || p.FixRem?
  }

  /** The attempt counter of `x` is below the cap and paid for by failed waves. */
  predicate Paid(failed: seq<seq<Raw>>, x: Raw, extra: nat) {
    x.Good? ==> x.attempts < MAX_DELIVERY_ATTEMPTS
                && x.attempts + extra <= WavesWith(failed, x.result)
  }

  predicate AllPaid(failed: seq<seq<Raw>>, xs: seq<Raw>, extra: nat) {
    forall x :: x in xs ==> Paid(failed, x, extra)
  }

  predicate ProcPaid(s: Sys, p: Proc) {
    && AllPaid(s.failed, Held(p), if InCatch(p) then 1 else 0)
    && (p.OrphanRem? ==> forall x :: x in p.todo && x.Good? ==> WavesWith(s.sessionless, x.result) > 0)
  }

  ghost predicate Earned(s: Sys) {
    && AllPaid(s.failed, s.queue, 0)
    && AllPaid(s.failed, s.processing, 0)
    && (forall pid :: pid in s.procs ==> ProcPaid(s, s.procs[pid]))
    && (forall r :: r in s.dropped ==> WavesWith(s.failed, r) >= MAX_DELIVERY_ATTEMPTS)
    && (forall r :: r in s.orphaned ==> WavesWith(s.sessionless, r) > 0)
  }

  lemma PaidGrows(failed: seq<seq<Raw>>, items: seq<Raw>, xs: seq<Raw>, extra: nat)
    requires AllPaid(failed, xs, extra)
    ensures AllPaid(failed + [items], xs, extra)
  {
    forall x | x in xs ensures Paid(failed + [items], x, extra) {
      if x.Good? { WavesAppend(failed, items, x.result); }
    }
  }

  lemma PaidAfterFailure(failed: seq<seq<Raw>>, items: seq<Raw>)
    requires AllPaid(failed, items, 0)
    ensures AllPaid(failed + [items], items, 1)
  {
    forall x | x in items ensures Paid(failed + [items], x, 1) {
      if x.Good? {
        WavesAppend(failed, items, x.result);
        var i :| 0 <= i < |items| && items[i] == x;
        assert Carries(items[i], x.result);
      }
    }
  }

  lemma {:induction false} NextJunkHolds(todo: seq<Raw>, items: seq<Raw>)
    ensures forall x :: x in Held(NextJunk(todo, items)) ==> x in todo || x in items
  {
    if todo != [] && todo[0].Good? {
      NextJunkHolds(todo[1..], items + [todo[0]]);
    }
  }

  ghost predicate StillEarned(s: Sys, s': Sys, p: Proc) {
    && Earned(s') && s'.failed == s.failed && s'.sessionless == s.sessionless
    && s'.procs == s.procs && ProcPaid(s', p)
  }

  /** The effect of a command that takes an item out of the processing list for good. */
  lemma RemovalEarned(s: Sys, p: Proc)
    requires Earned(s) && ProcPaid(s, p)
    requires p.DropJunk? || p.CapRem? || p.OrphanRem? || p.DoneRem? || p.FixRem?
    ensures StillEarned(s, Effect(s, p), p)
  {
    if p.todo != [] {
      RemPaid(s, p.todo[0]);
    }
  }

  lemma FixEarned(s: Sys, p: Proc)
    requires Earned(s) && ProcPaid(s, p) && p.Fix?
    ensures StillEarned(s, Effect(s, p), p)
  {
    if p.todo != [] {
      RemPaid(s, p.todo[0]);
      assert p.todo[0] in Held(p) && Paid(s.failed, p.todo[0], 1);
    }
  }

  lemma EffectEarned(s: Sys, p: Proc)
    requires Earned(s) && ProcPaid(s, p)
    ensures StillEarned(s, Effect(s, p), p)
  {
    if p.Fix? {
      FixEarned(s, p);
    } else if p.DropJunk? || p.CapRem? || p.OrphanRem? || p.DoneRem? || p.FixRem? {
      RemovalEarned(s, p);
    }
  }

  lemma RemPaid(s: Sys, x: Raw)
    requires AllPaid(s.failed, s.processing, 0)
    ensures AllPaid(s.failed, LRem(s.processing, x), 0)
  {
    CopiesRem(s.processing, x, Result("", "", ""));
  }

  lemma FineEarned(max: nat, s: Sys, pid: Pid, p: Proc)
    requires Earned(s) && ProcPaid(s, p) && AwaitsCommand(p)
    ensures Earned(OnFine(max, s, pid, p))
  {
    EffectEarned(s, p);
    FineHolds(max, s, pid, p);
    FineOrphans(max, s, pid, p);
    var e := Effect(s, p);
    var s' := OnFine(max, s, pid, p);
    FineOwes(max, s, pid, p, Result("", "", ""));
    forall x | x in Held(s'.procs[pid])
      ensures Paid(e.failed, x, if InCatch(s'.procs[pid]) then 1 else 0)
    {
      assert x in Held(p) || (p.Draining? && s.queue != [] && x == Tail(s.queue));
    }
    assert ProcPaid(e, s'.procs[pid]);
    MoveEarned(e, s', pid);
  }

  lemma MoveEarned(e: Sys, s': Sys, pid: Pid)
    requires Earned(e) && pid in s'.procs && ProcPaid(e, s'.procs[pid])
    requires s' == e.(procs := e.procs[pid := s'.procs[pid]], completed := s'.completed)
    ensures Earned(s')
  {
    forall q | q in s'.procs ensures ProcPaid(s', s'.procs[q]) {
      if q != pid { assert ProcPaid(e, e.procs[q]); }
    }
  }

  /** A command that came back fine adds nothing to what is held but the item LMOVE returned. */
  lemma FineOrphans(max: nat, s: Sys, pid: Pid, p: Proc)
    requires AwaitsCommand(p)
    ensures
      var p' := OnFine(max, s, pid, p).procs[pid];
      p'.OrphanRem? ==> p.OrphanRem? && forall x :: x in p'.todo ==> x in p.todo
  {
  }

  lemma FineHolds(max: nat, s: Sys, pid: Pid, p: Proc)
    requires AwaitsCommand(p)
    ensures
      var p' := OnFine(max, s, pid, p).procs[pid];
      && (forall x :: x in Held(p') ==>
            x in Held(p) || (p.Draining? && s.queue != [] && x == Tail(s.queue)))
      && (InCatch(p') ==> InCatch(p))
  {
    match p
    case Draining(batch) =>
      NextJunkHolds(batch, []);
      if s.queue != [] {
        NextJunkHolds(batch + [Tail(s.queue)], []);
      }
    case DropJunk(todo, items) => if todo != [] { NextJunkHolds(todo[1..], items); }
    case _ =>
      if p.CatchDecr? || p.Fix? || p.FixRem? || p.DoneRem? || p.Announce? {
        LateHolds(max, s, pid, p);
      } else {
        EarlyHolds(max, s, pid, p);
      }
  }

  lemma EarlyHolds(max: nat, s: Sys, pid: Pid, p: Proc)
    requires AwaitsCommand(p) && !p.Draining? && !p.DropJunk?
    requires !p.CatchDecr? && !p.Fix? && !p.FixRem? && !p.DoneRem? && !p.Announce?
    ensures
      var p' := OnFine(max, s, pid, p).procs[pid];
      (forall x :: x in Held(p') ==> x in Held(p)) && (InCatch(p') ==> InCatch(p))
  {
  }

  lemma LateHolds(max: nat, s: Sys, pid: Pid, p: Proc)
    requires p.CatchDecr? || p.Fix? || p.FixRem? || p.DoneRem? || p.Announce?
    ensures
      var p' := OnFine(max, s, pid, p).procs[pid];
      (forall x :: x in Held(p') ==> x in Held(p)) && (InCatch(p') ==> InCatch(p))
  {
  }

  lemma CatchEarned(s: Sys, pid: Pid, items: seq<Raw>)
    requires Earned(s) && AllPaid(s.failed, items, 0)
    ensures Earned(EnterCatch(s, pid, items))
  {
    var s' := EnterCatch(s, pid, items);
    PaidGrows(s.failed, items, s.queue, 0);
    PaidGrows(s.failed, items, s.processing, 0);
    PaidAfterFailure(s.failed, items);
    forall q | q in s'.procs ensures ProcPaid(s', s'.procs[q]) {
      if q != pid {
        assert ProcPaid(s, s.procs[q]);
        PaidGrows(s.failed, items, Held(s.procs[q]), if InCatch(s.procs[q]) then 1 else 0);
      }
    }
    forall r | r in s'.dropped ensures WavesWith(s'.failed, r) >= MAX_DELIVERY_ATTEMPTS {
      WavesAppend(s.failed, items, r);
    }
  }

  lemma ThrowEarned(s: Sys, pid: Pid, p: Proc)
    requires Earned(s) && ProcPaid(s, p)
    ensures Earned(OnThrow(s, pid, p))
  {
    match p
    case OrphanRem(items, _) => CatchEarned(s, pid, items);
    case OrphanDecr(items) => CatchEarned(s, pid, items);
    case Announce(items) => CatchEarned(s, pid, items);
    case DoneRem(items, _) => CatchEarned(s, pid, items);
    case _ => PlainThrowEarned(s, pid, p);
  }

  lemma PlainThrowEarned(s: Sys, pid: Pid, p: Proc)
    requires Earned(s) && ProcPaid(s, p)
    requires !p.OrphanRem? && !p.OrphanDecr? && !p.Announce? && !p.DoneRem?
    ensures Earned(OnThrow(s, pid, p))
  {
    var s' := OnThrow(s, pid, p);
    assert ProcPaid(s', s'.procs[pid]);
    forall q | q in s'.procs && q != pid ensures ProcPaid(s', s'.procs[q]) {
      assert ProcPaid(s, s.procs[q]);
    }
  }

  lemma LookupEarned(s: Sys, pid: Pid, items: seq<Raw>, lookup: ParentLookup)
    requires Earned(s) && AllPaid(s.failed, items, 0)
    ensures Earned(OnLookup(s, pid, items, lookup))
  {
    match lookup
    case Found =>
    case Throws => CatchEarned(s, pid, items);
    case NoSession =>
      var s' := OnLookup(s, pid, items, lookup);
      forall r ensures WavesWith(s'.sessionless, r)
                    == WavesWith(s.sessionless, r) + if InWave(items, r) then 1 else 0 {
        WavesAppend(s.sessionless, items, r);
      }
      forall x | x in items && x.Good? ensures InWave(items, x.result) {
        var i :| 0 <= i < |items| && items[i] == x;
        assert Carries(items[i], x.result);
      }
  }

  lemma ApplyEarned(max: nat, s: Sys, ev: Event)
    requires Earned(s)
    ensures Earned(Apply(max, s, ev))
  {
    match ev
    case Publish(x) =>
    case Spawn(pid) =>
    case Crash(pid) =>
    case Sweep =>
      if s.processing != [] { assert Tail(s.processing) in s.processing; }
    case Command(pid, reply) =>
      if pid in s.procs && AwaitsCommand(s.procs[pid]) {
        var p := s.procs[pid];
        EffectEarned(s, p);
        match reply {
          case Fine => FineEarned(max, s, pid, p);
          case FailedBefore => ThrowEarned(s, pid, p);
          case FailedAfter => ThrowEarned(Effect(s, p), pid, p);
        }
      }
    case LookedUp(pid, lookup) =>
      if pid in s.procs && s.procs[pid].Lookup? {
        assert ProcPaid(s, s.procs[pid]);
        LookupEarned(s, pid, s.procs[pid].items, lookup);
      }
    case RunEnded(pid, ok, output) =>
      if pid in s.procs && s.procs[pid].Running? {
        assert ProcPaid(s, s.procs[pid]);
        if !ok { CatchEarned(s, pid, s.procs[pid].items); }
      }
  }

  lemma {:induction false} RunEarned(max: nat, s: Sys, events: seq<Event>)
    requires Earned(s)
    ensures Earned(Run(max, s, events))
    decreases |events|
  {
    if events != [] {
      ApplyEarned(max, s, events[0]);
      RunEarned(max, Apply(max, s, events[0]), events[1..]);
    }
  }

  /**
   * The drop rules are earned under every interleaving: a result is dropped by the attempt cap only
   * after at least MAX_DELIVERY_ATTEMPTS waves carrying it failed, and as sessionless only after a
   * lookup for a wave carrying it found no session.
   */
  lemma DropsAreEarned(max: nat, events: seq<Event>, r: Result)
    ensures
      var s := Run(max, INITIAL, events);
      && (r in s.dropped ==> WavesWith(Waves(max, events, Caught), r) >= MAX_DELIVERY_ATTEMPTS)
      && (r in s.orphaned ==> Met(max, events, Sessionless, r))
  {
    RunEarned(max, INITIAL, events);
    HistoryIsTrue(max, events, Caught);
    HistoryIsTrue(max, events, Sessionless);
    MetIsRecorded(max, events, Sessionless, r);
  }

  /**
   * So a published result of which no copy is left was carried by a wave whose parent run succeeded,
   * or failed in at least MAX_DELIVERY_ATTEMPTS waves, or was found to have no session.
   */
  lemma GoneMeansSettled(max: nat, events: seq<Event>, r: Result)
    requires Publish(r) in events
    requires var s := Run(max, INITIAL, events); Copies(s.queue, r) == 0 && Copies(s.processing, r) == 0
    ensures
      || Met(max, events, Delivered, r)
      || WavesWith(Waves(max, events, Caught), r) >= MAX_DELIVERY_ATTEMPTS
      || Met(max, events, Sessionless, r)
  {
    NoResultLost(max, events, r);
    DropsAreEarned(max, events, r);
  }
}
