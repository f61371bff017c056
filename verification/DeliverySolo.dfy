/**
 * What holds when deliverers take turns and no Redis command fails: the wave counter counts exactly
 * the completed waves, and no result is dispatched more often than the attempt cap allows.
 */
module DeliverySolo {
  import opened Delivery
  import opened DeliveryWaves
  import opened DeliverySafety

  // ------------------------------------------------------------ the discipline

  ghost predicate Idle(s: Sys) {
    forall pid :: pid in s.procs ==> s.procs[pid] == Exited
  }

  /**
   * One deliverer at a time and no crash; every result is published once; the sweep runs between
   * deliveries; no Redis command fails. Lookups, parent runs and the announcement may fail.
   */
  ghost predicate Calm(s: Sys, ev: Event) {
    match ev
    case Publish(r) => r !in s.pushed
    case Spawn(_) => Idle(s)
    case Crash(_) => false
    case Sweep => Idle(s)
    case Command(pid, reply) => reply == Fine || (pid in s.procs && s.procs[pid].Announce?)
    case _ => true
  }

  ghost predicate CalmRun(max: nat, s: Sys, events: seq<Event>)
    decreases |events|
  {
    events != [] ==> Calm(s, events[0]) && CalmRun(max, Apply(max, s, events[0]), events[1..])
  }

  // ------------------------------------------------------------ the invariant

  /** The wave of `p` has been counted and neither rolled back nor completed. */
  predicate Counted(p: Proc) {
    p.Expire? || p.CapDecr? || p.Lookup? || p.OrphanRem? || p.OrphanDecr? || p.Running?
    || p.Announce? || p.DoneRem? || p.CatchDecr?
  }

  predicate CounterOk(max: nat, s: Sys, p: Proc) {
    && s.counter == s.completed + (if Counted(p) then 1 else 0)
    && s.completed <= max
    && (p.Expire? ==> s.completed == 0)
    && (Counted(p) && !p.Expire? && !p.CapDecr? ==> s.completed < max)
    && (p.CapDecr? ==> s.completed == max)
  }

  /** The held items that are still to be taken out of the processing list. */
  function Claimed(p: Proc): seq<Raw> {
    match p
    case Draining(batch) => batch
    case DropJunk(todo, items) => items + todo
    case OrphanRem(_, todo) => todo
    case OrphanDecr(_) => []
    case DoneRem(_, todo) => todo
    case CapPush(todo) => todo
    case CapRem(todo) => todo
    case Fix(todo) => todo
    case FixRem(todo) => todo
    case Incr(items) => items
    case Expire(items) => items
    case CapDecr(items) => items
    case Lookup(items) => items
    case Running(items) => items
    case Announce(items) => items
    case CatchDecr(items) => items
    case Exited => []
  }

  predicate Post(p: Proc) {
    p.Running? || p.Announce? || p.DoneRem? || p.CatchDecr? || p.Fix? || p.FixRem?
  }

  predicate DistinctResults(xs: seq<Raw>) {
    forall i, j :: 0 <= i < j < |xs| && xs[i].Good? && xs[j].Good? ==> xs[i].result != xs[j].result
  }

  predicate Claims(s: Sys, p: Proc) {
    && DistinctResults(Claimed(p))
    && (forall x :: x in Claimed(p) && x.Good? ==> x in s.processing)
    && (!p.Draining? && !p.DropJunk? ==> forall x :: x in Claimed(p) ==> x.Good?)
    && (p.DropJunk? ==> p.todo != [] && p.todo[0].Junk? && forall x :: x in p.items ==> x.Good?)
    && (p.CapRem? ==> p.todo != [] && p.todo[0] in s.queue)
    && (p.CapPush? || p.OrphanRem? || p.DoneRem? || p.Fix? ==> p.todo != [])
    && (p.FixRem? ==> p.todo != [] && p.todo[0].Good? && !LastAttempt(p.todo[0])
                      && Bump(p.todo[0]) in s.processing)
  }

  predicate Tidy(s: Sys, p: Proc, r: Result) {
    && Total(s, r) <= 1 + OweBit(p, r)
    && (Total(s, r) > 0 ==> r in s.pushed)
    && (r !in s.pushed ==> WavesWith(s.dispatched, r) == 0)
    && WavesWith(s.dispatched, r) <= MAX_DELIVERY_ATTEMPTS
  }

  predicate Listed(s: Sys, x: Raw) {
    x in s.queue || x in s.processing
  }

  /** A listed item has not been dispatched more often than its counter says, one wave in flight aside. */
  predicate Bounded(s: Sys, p: Proc, x: Raw) {
    x.Good? && Listed(s, x) ==>
      && x.attempts < MAX_DELIVERY_ATTEMPTS
      && WavesWith(s.dispatched, x.result) <= x.attempts + if Post(p) && x in Claimed(p) then 1 else 0
  }

  /** The invariant without the counter. */
  ghost predicate Ledger(s: Sys, p: Proc) {
    && Claims(s, p)
    && (forall r :: Tidy(s, p, r))
    && (forall x :: Bounded(s, p, x))
  }

  function ProcOf(s: Sys, pid: Pid): Proc {
    if pid in s.procs then s.procs[pid] else Exited
  }

  ghost predicate SoloInv(max: nat, s: Sys, pid: Pid) {
    && (forall q :: q in s.procs && q != pid ==> s.procs[q] == Exited)
    && CounterOk(max, s, ProcOf(s, pid)) && Ledger(s, ProcOf(s, pid))
  }

  // ------------------------------------------------------------ list facts

  lemma {:induction false} InCopies(list: RedisList, x: Raw, r: Result)
    requires x in list && Carries(x, r)
    ensures Copies(list, r) >= 1
  {
    if list[0] != x {
      InCopies(list[1..], x, r);
    }
  }

  lemma {:induction false} TwoCopies(list: RedisList, x: Raw, y: Raw, r: Result)
    requires x in list && y in list && x != y && Carries(x, r) && Carries(y, r)
    ensures Copies(list, r) >= 2
  {
    if list[0] == x {
      InCopies(list[1..], y, r);
    } else if list[0] == y {
      InCopies(list[1..], x, r);
    } else {
      TwoCopies(list[1..], x, y, r);
    }
  }

  lemma {:induction false} RemKeepsOthers(list: RedisList, x: Raw)
    ensures forall y :: y in list && y != x ==> y in LRem(list, x)
  {
    if list != [] && list[0] != x {
      RemKeepsOthers(list[1..], x);
    }
  }

  /** Two listed copies of one result are the same item in the same list, unless a removal is owed. */
  lemma OneListed(s: Sys, x: Raw, y: Raw)
    requires x.Good? && y.Good? && x.result == y.result && Total(s, x.result) <= 1
    requires Listed(s, x) && Listed(s, y)
    ensures x == y && !(x in s.queue && x in s.processing)
  {
    var r := x.result;
    if x in s.queue { InCopies(s.queue, x, r); }
    if x in s.processing { InCopies(s.processing, x, r); }
    if y in s.queue { InCopies(s.queue, y, r); }
    if y in s.processing { InCopies(s.processing, y, r); }
    if x != y && x in s.queue && y in s.queue { TwoCopies(s.queue, x, y, r); }
    if x != y && x in s.processing && y in s.processing { TwoCopies(s.processing, x, y, r); }
  }

  lemma {:induction false} NextJunkClaims(todo: seq<Raw>, items: seq<Raw>)
    requires forall x :: x in items ==> x.Good?
    ensures var p := NextJunk(todo, items);
            && Claimed(p) == items + todo
            && (p.Incr? ==> forall x :: x in p.items ==> x.Good?)
            && (p.DropJunk? ==> p.todo != [] && p.todo[0].Junk? && forall x :: x in p.items ==> x.Good?)
            && (p.Draining? || p.Incr? || p.DropJunk?)
  {
    if todo == [] {
      assert items + todo == items;
    } else if todo[0].Good? {
      NextJunkClaims(todo[1..], items + [todo[0]]);
      assert items + [todo[0]] + todo[1..] == items + todo;
    }
  }

  // ------------------------------------------------------------ one step of the ledger

  ghost predicate SameLists(s: Sys, s': Sys) {
    && s'.queue == s.queue && s'.processing == s.processing
    && s'.pushed == s.pushed && s'.dispatched == s.dispatched
  }

  /** A step that moves no item and keeps what is claimed in flight. */
  lemma Relabel(s: Sys, p: Proc, s': Sys, p': Proc)
    requires Ledger(s, p) && SameLists(s, s') && Claims(s', p')
    requires !p.CapRem? && !p.FixRem? && !p'.CapRem? && !p'.FixRem?
    requires Post(p) ==> Post(p') && Claimed(p') == Claimed(p)
    ensures Ledger(s', p')
  {
    forall r ensures Tidy(s', p', r) {
      assert Tidy(s, p, r);
    }
    forall x ensures Bounded(s', p', x) {
      assert Bounded(s, p, x);
    }
  }

  lemma DistinctAppend(batch: seq<Raw>, t: Raw)
    requires DistinctResults(batch)
    requires t.Good? ==> forall x :: x in batch && x.Good? ==> x.result != t.result
    ensures DistinctResults(batch + [t])
  {
    forall i, j | 0 <= i < j < |batch + [t]| && (batch + [t])[i].Good? && (batch + [t])[j].Good?
      ensures (batch + [t])[i].result != (batch + [t])[j].result
    {
      assert (batch + [t])[i] == batch[i] && batch[i] in batch;
    }
  }

  /** The tail of the queue is no copy of anything already claimed. */
  lemma TailIsNew(s: Sys, batch: seq<Raw>)
    requires Ledger(s, Draining(batch)) && s.queue != [] && Tail(s.queue).Good?
    ensures forall x :: x in batch && x.Good? ==> x.result != Tail(s.queue).result
  {
    var t := Tail(s.queue);
    assert t in s.queue;
    assert Tidy(s, Draining(batch), t.result);
    forall x | x in batch && x.Good? ensures x.result != t.result {
      if x.result == t.result {
        assert x in Claimed(Draining(batch));
        OneListed(s, x, t);
      }
    }
  }

  lemma MovedClaims(drawn: seq<Raw>, p: Proc)
    requires drawn != [] && (p == Draining(drawn) || p == AfterDrain(drawn))
    ensures Claimed(p) == drawn
  {
    NextJunkClaims(drawn, []);
    assert [] + drawn == drawn;
  }

  lemma MoveInClaims(s: Sys, batch: seq<Raw>, s': Sys, p': Proc)
    requires Ledger(s, Draining(batch)) && s.queue != []
    requires s'.processing == LPush(s.processing, Tail(s.queue))
    requires p' == Draining(batch + [Tail(s.queue)]) || p' == AfterDrain(batch + [Tail(s.queue)])
    ensures Claims(s', p')
  {
    var t := Tail(s.queue);
    if t.Good? { TailIsNew(s, batch); }
    DistinctAppend(batch, t);
    NextJunkClaims(batch + [t], []);
    MovedClaims(batch + [t], p');
    forall x | x in Claimed(p') && x.Good? ensures x in s'.processing {
      assert x == t || x in Claimed(Draining(batch));
    }
  }

  /** LMOVE: the tail of the queue becomes the head of the processing list and joins the batch. */
  lemma MoveIn(s: Sys, batch: seq<Raw>, s': Sys, p': Proc)
    requires Ledger(s, Draining(batch)) && s.queue != []
    requires s'.queue == Init(s.queue) && s'.processing == LPush(s.processing, Tail(s.queue))
    requires s'.pushed == s.pushed && s'.dispatched == s.dispatched
    requires p' == Draining(batch + [Tail(s.queue)]) || p' == AfterDrain(batch + [Tail(s.queue)])
    ensures Ledger(s', p')
  {
    MoveInClaims(s, batch, s', p');
    assert s.queue == Init(s.queue) + [Tail(s.queue)];
    forall r ensures Tidy(s', p', r) {
      assert Tidy(s, Draining(batch), r);
      CopiesPop(s.queue, r);
      CopiesPush(s.processing, Tail(s.queue), r);
    }
    forall x ensures Bounded(s', p', x) {
      assert Bounded(s, Draining(batch), x);
      assert Listed(s', x) ==> Listed(s, x);
    }
  }

  /** The next command of `p` removes `todo[0]`, its first claimed item, for good. */
  predicate Removes(p: Proc, todo: seq<Raw>) {
    && (p.OrphanRem? || p.DoneRem? || p.CapRem? || p.FixRem? || p.Fix?)
    && Claimed(p) == todo && todo != [] && todo[0].Good?
  }

  lemma TakeOutClaims(s: Sys, todo: seq<Raw>, processing': RedisList)
    requires DistinctResults(todo) && todo != []
    requires forall x :: x in todo ==> x.Good? && x in s.processing
    requires processing' == LRem(s.processing, todo[0])
    ensures DistinctResults(todo[1..])
    ensures forall y :: y in todo[1..] ==> y.Good? && y in processing'
  {
    var rest := todo[1..];
    assert forall j | 0 <= j < |rest| :: rest[j] == todo[j + 1];
    RemKeepsOthers(s.processing, todo[0]);
    forall y | y in rest ensures y.Good? && y in processing' {
      assert y in todo && y.result != todo[0].result;
    }
  }

  /** Removing the first claimed item from the processing list. */
  lemma TakeOut(s: Sys, p: Proc, todo: seq<Raw>, s': Sys, p': Proc)
    requires Ledger(s, p) && Removes(p, todo) && (p.Fix? ==> LastAttempt(todo[0]))
    requires s'.queue == s.queue && s'.processing == LRem(s.processing, todo[0])
    requires s'.pushed == s.pushed && s'.dispatched == s.dispatched
    requires Claimed(p') == todo[1..] && !p'.CapRem? && !p'.FixRem? && !p'.DropJunk?
    requires p'.CapPush? || p'.OrphanRem? || p'.DoneRem? || p'.Fix? ==> p'.todo != []
    requires Post(p) ==> Post(p') || todo[1..] == []
    ensures Ledger(s', p')
  {
    TakeOutClaims(s, todo, s'.processing);
    forall r ensures Tidy(s', p', r) {
      assert Tidy(s, p, r);
      CopiesRem(s.processing, todo[0], r);
      assert todo[0] in Claimed(p);
    }
    forall y ensures Bounded(s', p', y) {
      if y.Good? && Listed(s', y) {
        assert Bounded(s, p, y);
        LeftListed(s, p, todo, s', y);
      }
    }
  }

  /** An item still listed after `TakeOut` is bounded as before, and if it was claimed it still is. */
  lemma LeftListed(s: Sys, p: Proc, todo: seq<Raw>, s': Sys, y: Raw)
    requires Claims(s, p) && Removes(p, todo) && Tidy(s, p, todo[0].result)
    requires p.Fix? ==> LastAttempt(todo[0])
    requires s'.queue == s.queue && s'.processing == LRem(s.processing, todo[0])
    requires y.Good? && Listed(s', y)
    ensures Listed(s, y)
    ensures !Post(p) || y !in todo || y in todo[1..]
  {
    var x := todo[0];
    assert todo == [x] + todo[1..];
    CopiesRem(s.processing, x, x.result);
    if Post(p) && y == x {
      assert x in Claimed(p) && x in s.processing;
      StillThere(s', x);
      if p.FixRem? {
        RemKeepsOthers(s.processing, x);
        OneListed(s', x, Bump(x));
      }
    }
  }

  lemma StillThere(s: Sys, x: Raw)
    requires x.Good? && Listed(s, x)
    ensures Total(s, x.result) >= 1
  {
    if x in s.queue { InCopies(s.queue, x, x.result); }
    if x in s.processing { InCopies(s.processing, x, x.result); }
  }

  /** Leaving out one item keeps the others, and keeps them distinct. */
  lemma DropOne(items: seq<Raw>, todo: seq<Raw>)
    requires todo != []
    ensures forall x :: x in items + todo[1..] ==> x in items + todo
    ensures DistinctResults(items + todo) ==> DistinctResults(items + todo[1..])
  {
    var before := items + todo;
    var after := items + todo[1..];
    assert forall i | 0 <= i < |after| :: after[i] == before[if i < |items| then i else i + 1];
  }

  lemma DropJunkOut(s: Sys, todo: seq<Raw>, items: seq<Raw>, s': Sys, p': Proc)
    requires Ledger(s, DropJunk(todo, items))
    requires s'.queue == s.queue && s'.processing == LRem(s.processing, todo[0])
    requires s'.pushed == s.pushed && s'.dispatched == s.dispatched
    requires p' == NextJunk(todo[1..], items)
    ensures Ledger(s', p')
  {
    var p := DropJunk(todo, items);
    NextJunkClaims(todo[1..], items);
    RemKeepsOthers(s.processing, todo[0]);
    DropOne(items, todo);
    forall r ensures Tidy(s', p', r) {
      assert Tidy(s, p, r);
      CopiesRem(s.processing, todo[0], r);
    }
    forall x ensures Bounded(s', p', x) {
      assert Bounded(s, p, x);
      CopiesRem(s.processing, todo[0], Result("", "", ""));
    }
  }

  /** The capped wave goes back to the queue: one copy more, one removal owed. */
  lemma PutBack(s: Sys, todo: seq<Raw>, s': Sys)
    requires Ledger(s, CapPush(todo))
    requires s'.queue == LPush(s.queue, todo[0]) && s'.processing == s.processing
    requires s'.pushed == s.pushed && s'.dispatched == s.dispatched
    ensures Ledger(s', CapRem(todo))
  {
    var p := CapPush(todo);
    assert todo[0] in Claimed(p);
    forall r ensures Tidy(s', CapRem(todo), r) {
      assert Tidy(s, p, r);
      CopiesPush(s.queue, todo[0], r);
      if Carries(todo[0], r) { InCopies(s.processing, todo[0], r); }
    }
    forall x ensures Bounded(s', CapRem(todo), x) {
      assert Bounded(s, p, x);
      assert Listed(s', x) ==> Listed(s, x);
    }
  }

  lemma RewrittenClaims(s: Sys, todo: seq<Raw>, s': Sys)
    requires DistinctResults(todo) && todo != [] && todo[0].Good? && !LastAttempt(todo[0])
    requires forall x :: x in todo ==> x.Good? && x in s.processing
    requires s'.processing == [Bump(todo[0])] + s.processing
    ensures Claims(s', FixRem(todo))
  {
    assert s'.processing[0] == Bump(todo[0]);
    assert s'.processing[1..] == s.processing;
    assert Claimed(FixRem(todo)) == todo;
  }

  lemma RewrittenTidy(s: Sys, todo: seq<Raw>, s': Sys, r: Result)
    requires todo != [] && todo[0].Good? && todo[0] in s.processing
    requires Tidy(s, Fix(todo), r)
    requires s'.queue == s.queue && s'.processing == LPush(s.processing, Bump(todo[0]))
    requires s'.pushed == s.pushed && s'.dispatched == s.dispatched
    ensures Tidy(s', FixRem(todo), r)
  {
    CopiesPush(s.processing, Bump(todo[0]), r);
    if Carries(todo[0], r) {
      InCopies(s.processing, todo[0], r);
    }
  }

  lemma RewrittenBound(s: Sys, todo: seq<Raw>, s': Sys, y: Raw)
    requires todo != [] && todo[0].Good? && todo[0] in s.processing && !LastAttempt(todo[0])
    requires Bounded(s, Fix(todo), y) && Bounded(s, Fix(todo), todo[0])
    requires s'.queue == s.queue && s'.processing == [Bump(todo[0])] + s.processing && s'.dispatched == s.dispatched
    ensures Bounded(s', FixRem(todo), y)
  {
    if y == Bump(todo[0]) {
      assert WavesWith(s.dispatched, y.result) <= y.attempts;
    }
  }

  /** A failed item is rewritten: the copy with the raised counter, one removal owed. */
  lemma Rewrite(s: Sys, todo: seq<Raw>, s': Sys)
    requires Ledger(s, Fix(todo)) && !LastAttempt(todo[0])
    requires s'.queue == s.queue && s'.processing == LPush(s.processing, Bump(todo[0]))
    requires s'.pushed == s.pushed && s'.dispatched == s.dispatched
    ensures Ledger(s', FixRem(todo))
  {
    var p := Fix(todo);
    assert todo[0] in Claimed(p);
    forall r ensures Tidy(s', FixRem(todo), r) {
      assert Tidy(s, p, r);
      RewrittenTidy(s, todo, s', r);
    }
    forall y ensures Bounded(s', FixRem(todo), y) {
      assert Bounded(s, p, y) && Bounded(s, p, todo[0]);
      RewrittenBound(s, todo, s', y);
    }
    assert Claimed(p) == todo;
    RewrittenClaims(s, todo, s');
  }

  /** A wave is dispatched: every carried item had been dispatched at most as often as it says. */
  lemma Dispatch(s: Sys, items: seq<Raw>, s': Sys)
    requires Ledger(s, Lookup(items))
    requires s'.queue == s.queue && s'.processing == s.processing && s'.pushed == s.pushed
    requires s'.dispatched == s.dispatched + [items]
    ensures Ledger(s', Running(items))
  {
    var p := Lookup(items);
    forall r ensures Tidy(s', Running(items), r) {
      assert Tidy(s, p, r);
      WavesAppend(s.dispatched, items, r);
      if InWave(items, r) {
        var i :| 0 <= i < |items| && Carries(items[i], r);
        assert items[i] in Claimed(p);
        InCopies(s.processing, items[i], r);
        assert Bounded(s, p, items[i]);
      }
    }
    forall x ensures Bounded(s', Running(items), x) {
      if x.Good? && Listed(s', x) {
        assert Bounded(s, p, x) && Tidy(s, p, x.result);
        WavesAppend(s.dispatched, items, x.result);
        if InWave(items, x.result) {
          var i :| 0 <= i < |items| && Carries(items[i], x.result);
          assert items[i] in Claimed(p);
          OneListed(s, items[i], x);
        }
      }
    }
  }

  lemma PublishLedger(s: Sys, r0: Result, s': Sys, p: Proc)
    requires Ledger(s, p) && r0 !in s.pushed
    requires s'.queue == LPush(s.queue, Good(r0, 0)) && s'.processing == s.processing
    requires s'.pushed == s.pushed + {r0} && s'.dispatched == s.dispatched
    ensures Ledger(s', p)
  {
    assert Tidy(s, p, r0);
    forall r ensures Tidy(s', p, r) {
      assert Tidy(s, p, r);
      CopiesPush(s.queue, Good(r0, 0), r);
    }
    forall x ensures Bounded(s', p, x) {
      assert Bounded(s, p, x);
      assert Listed(s', x) ==> Listed(s, x) || x == Good(r0, 0);
    }
  }

  lemma SweepLedger(s: Sys, s': Sys)
    requires Ledger(s, Exited) && s.processing != []
    requires s'.processing == Init(s.processing) && s'.queue == LPush(s.queue, Tail(s.processing))
    requires s'.pushed == s.pushed && s'.dispatched == s.dispatched
    ensures Ledger(s', Exited)
  {
    var t := Tail(s.processing);
    assert s.processing == Init(s.processing) + [t];
    forall r ensures Tidy(s', Exited, r) {
      assert Tidy(s, Exited, r);
      CopiesPop(s.processing, r);
      CopiesPush(s.queue, t, r);
    }
    forall x ensures Bounded(s', Exited, x) {
      assert Bounded(s, Exited, x);
      assert Listed(s', x) ==> Listed(s, x);
    }
  }

  // ------------------------------------------------------------ one event

  lemma DrainLedger(max: nat, s: Sys, pid: Pid, batch: seq<Raw>)
    requires Ledger(s, Draining(batch))
    ensures var s' := OnFine(max, s, pid, Draining(batch)); Ledger(s', s'.procs[pid])
  {
    var s' := OnFine(max, s, pid, Draining(batch));
    if s.queue == [] {
      NextJunkClaims(batch, []);
      assert [] + batch == batch;
      Relabel(s, Draining(batch), s', s'.procs[pid]);
    } else {
      MoveIn(s, batch, s', s'.procs[pid]);
    }
  }

  /** Commands that move no item. */
  lemma CountLedger(max: nat, s: Sys, pid: Pid, p: Proc)
    requires Ledger(s, p)
    requires p.Incr? || p.Expire? || p.CapDecr? || p.OrphanDecr?
    ensures var s' := OnFine(max, s, pid, p); Ledger(s', s'.procs[pid])
  {
    var s' := OnFine(max, s, pid, p);
    Relabel(s, p, s', s'.procs[pid]);
  }

  lemma WaveLedger(max: nat, s: Sys, pid: Pid, p: Proc)
    requires Ledger(s, p) && (p.Announce? || p.CatchDecr?)
    ensures var s' := OnFine(max, s, pid, p); Ledger(s', s'.procs[pid])
  {
    if p.Announce? {
      AnnounceLedger(max, s, pid, p.items);
    } else {
      CatchLedger(max, s, pid, p.items);
    }
  }

  lemma AnnounceLedger(max: nat, s: Sys, pid: Pid, items: seq<Raw>)
    requires Ledger(s, Announce(items))
    ensures var s' := OnFine(max, s, pid, Announce(items)); Ledger(s', s'.procs[pid])
  {
    var s' := OnFine(max, s, pid, Announce(items));
    if items == [] {
      LedgerDone(s, Announce(items), s');
    } else {
      Relabel(s, Announce(items), s', s'.procs[pid]);
    }
  }

  lemma CatchLedger(max: nat, s: Sys, pid: Pid, items: seq<Raw>)
    requires Ledger(s, CatchDecr(items))
    ensures var s' := OnFine(max, s, pid, CatchDecr(items)); Ledger(s', s'.procs[pid])
  {
    var s' := OnFine(max, s, pid, CatchDecr(items));
    if items == [] {
      LedgerDone(s, CatchDecr(items), s');
    } else {
      Relabel(s, CatchDecr(items), s', s'.procs[pid]);
    }
  }

  /** Commands that take the first claimed item out, or push a copy of it. */
  lemma ItemLedger(max: nat, s: Sys, pid: Pid, p: Proc)
    requires Ledger(s, p)
    requires p.CapPush? || p.CapRem? || p.OrphanRem? || p.DoneRem? || p.Fix? || p.FixRem?
    ensures var s' := OnFine(max, s, pid, p); Ledger(s', s'.procs[pid])
  {
    var s' := OnFine(max, s, pid, p);
    assert p.todo[0] in Claimed(p);
    if p.CapPush? {
      PutBack(s, p.todo, s');
    } else if p.Fix? && !LastAttempt(p.todo[0]) {
      Rewrite(s, p.todo, s');
    } else {
      match p
      case Fix(todo) => FixDropLedger(max, s, pid, todo);
      case FixRem(todo) => FixRemLedger(max, s, pid, todo);
      case CapRem(todo) => CapRemLedger(max, s, pid, todo);
      case OrphanRem(items, todo) => OrphanRemLedger(max, s, pid, items, todo);
      case DoneRem(items, todo) => DoneRemLedger(max, s, pid, items, todo);
    }
  }

  lemma FixDropLedger(max: nat, s: Sys, pid: Pid, todo: seq<Raw>)
    requires Ledger(s, Fix(todo)) && LastAttempt(todo[0])
    ensures var s' := OnFine(max, s, pid, Fix(todo)); Ledger(s', s'.procs[pid])
  {
    var s' := OnFine(max, s, pid, Fix(todo));
    TakeOut(s, Fix(todo), todo, s', s'.procs[pid]);
  }

  lemma FixRemLedger(max: nat, s: Sys, pid: Pid, todo: seq<Raw>)
    requires Ledger(s, FixRem(todo))
    ensures var s' := OnFine(max, s, pid, FixRem(todo)); Ledger(s', s'.procs[pid])
  {
    var s' := OnFine(max, s, pid, FixRem(todo));
    TakeOut(s, FixRem(todo), todo, s', s'.procs[pid]);
  }

  lemma CapRemLedger(max: nat, s: Sys, pid: Pid, todo: seq<Raw>)
    requires Ledger(s, CapRem(todo))
    ensures var s' := OnFine(max, s, pid, CapRem(todo)); Ledger(s', s'.procs[pid])
  {
    var s' := OnFine(max, s, pid, CapRem(todo));
    TakeOut(s, CapRem(todo), todo, s', s'.procs[pid]);
  }

  lemma OrphanRemLedger(max: nat, s: Sys, pid: Pid, items: seq<Raw>, todo: seq<Raw>)
    requires Ledger(s, OrphanRem(items, todo))
    ensures var s' := OnFine(max, s, pid, OrphanRem(items, todo)); Ledger(s', s'.procs[pid])
  {
    var s' := OnFine(max, s, pid, OrphanRem(items, todo));
    TakeOut(s, OrphanRem(items, todo), todo, s', s'.procs[pid]);
  }

  lemma DoneRemLedger(max: nat, s: Sys, pid: Pid, items: seq<Raw>, todo: seq<Raw>)
    requires Ledger(s, DoneRem(items, todo))
    ensures var s' := OnFine(max, s, pid, DoneRem(items, todo)); Ledger(s', s'.procs[pid])
  {
    var s' := OnFine(max, s, pid, DoneRem(items, todo));
    TakeOut(s, DoneRem(items, todo), todo, s', s'.procs[pid]);
  }

  lemma FineLedger(max: nat, s: Sys, pid: Pid, p: Proc)
    requires Ledger(s, p) && AwaitsCommand(p)
    ensures var s' := OnFine(max, s, pid, p); Ledger(s', s'.procs[pid])
  {
    match p
    case Draining(batch) => DrainLedger(max, s, pid, batch);
    case DropJunk(todo, items) =>
      var s' := OnFine(max, s, pid, p);
      DropJunkOut(s, todo, items, s', s'.procs[pid]);
    case Incr(_) => CountLedger(max, s, pid, p);
    case Expire(_) => CountLedger(max, s, pid, p);
    case CapDecr(_) => CountLedger(max, s, pid, p);
    case OrphanDecr(_) => CountLedger(max, s, pid, p);
    case Announce(_) => WaveLedger(max, s, pid, p);
    case CatchDecr(_) => WaveLedger(max, s, pid, p);
    case _ => ItemLedger(max, s, pid, p);
  }

  /** With nothing claimed, the wave is over. */
  lemma LedgerDone(s: Sys, p: Proc, s': Sys)
    requires Ledger(s, p) && SameLists(s, s') && Claimed(p) == [] && !p.CapRem? && !p.FixRem?
    ensures Ledger(s', Draining([])) && Ledger(s', Exited)
  {
    forall r ensures Tidy(s', Exited, r) && Tidy(s', Draining([]), r) {
      assert Tidy(s, p, r);
    }
    forall x ensures Bounded(s', Exited, x) && Bounded(s', Draining([]), x) {
      assert Bounded(s, p, x);
    }
  }

  lemma FineCounter(max: nat, s: Sys, pid: Pid, p: Proc)
    requires CounterOk(max, s, p) && Claims(s, p) && AwaitsCommand(p)
    ensures var s' := OnFine(max, s, pid, p); CounterOk(max, s', s'.procs[pid])
  {
    match p
    case Draining(batch) =>
    case DropJunk(todo, items) =>
    case Incr(items) =>
    case _ =>
  }

  lemma CatchKeeps(max: nat, s: Sys, pid: Pid, p: Proc, items: seq<Raw>)
    requires CounterOk(max, s, p) && Ledger(s, p)
    requires p == Announce(items) || p == Lookup(items) || p == Running(items)
    ensures var s' := EnterCatch(s, pid, items);
            CounterOk(max, s', s'.procs[pid]) && Ledger(s', s'.procs[pid])
  {
    Relabel(s, p, EnterCatch(s, pid, items), CatchDecr(items));
  }

  lemma LookupKeeps(max: nat, s: Sys, pid: Pid, items: seq<Raw>, lookup: ParentLookup)
    requires CounterOk(max, s, Lookup(items)) && Ledger(s, Lookup(items))
    ensures var s' := OnLookup(s, pid, items, lookup);
            CounterOk(max, s', s'.procs[pid]) && Ledger(s', s'.procs[pid])
  {
    var s' := OnLookup(s, pid, items, lookup);
    match lookup
    case Found => Dispatch(s, items, s');
    case NoSession => Relabel(s, Lookup(items), s', s'.procs[pid]);
    case Throws => CatchKeeps(max, s, pid, Lookup(items), items);
  }

  lemma RunEndKeeps(max: nat, s: Sys, pid: Pid, items: seq<Raw>, ok: bool, output: bool)
    requires CounterOk(max, s, Running(items)) && Ledger(s, Running(items))
    ensures var s' := OnRunEnd(s, pid, items, ok, output);
            CounterOk(max, s', s'.procs[pid]) && Ledger(s', s'.procs[pid])
  {
    if !ok {
      CatchKeeps(max, s, pid, Running(items), items);
    } else {
      RunEndLedger(s, pid, items, output);
    }
  }

  lemma RunEndLedger(s: Sys, pid: Pid, items: seq<Raw>, output: bool)
    requires Ledger(s, Running(items))
    ensures var s' := OnRunEnd(s, pid, items, true, output); Ledger(s', s'.procs[pid])
  {
    var s' := OnRunEnd(s, pid, items, true, output);
    if !output && items == [] {
      LedgerDone(s, Running(items), s');
    } else {
      AfterRunClaims(s, items, s', output);
      Relabel(s, Running(items), s', if output then Announce(items) else DoneRem(items, items));
    }
  }

  lemma AfterRunClaims(s: Sys, items: seq<Raw>, s': Sys, output: bool)
    requires Claims(s, Running(items)) && SameLists(s, s') && (output || items != [])
    ensures Claims(s', if output then Announce(items) else DoneRem(items, items))
  {
  }

  ghost predicate Solo(max: nat, s: Sys) {
    exists pid :: SoloInv(max, s, pid)
  }

  lemma CommandKeepsSolo(max: nat, s: Sys, pid: Pid, reply: Reply)
    requires SoloInv(max, s, pid) && pid in s.procs && AwaitsCommand(s.procs[pid])
    requires reply == Fine || s.procs[pid].Announce?
    ensures SoloInv(max, OnReply(max, s, pid, s.procs[pid], reply), pid)
  {
    var p := s.procs[pid];
    if reply == Fine {
      FineLedger(max, s, pid, p);
      FineCounter(max, s, pid, p);
      FineOwes(max, s, pid, p, Result("", "", ""));
    } else {
      CatchKeeps(max, s, pid, p, p.items);
    }
  }

  lemma OutsideKeepsSolo(max: nat, s: Sys, pid: Pid, ev: Event)
    requires SoloInv(max, s, pid) && Calm(s, ev) && (ev.Publish? || ev.Sweep?)
    ensures SoloInv(max, Apply(max, s, ev), pid)
  {
    var s' := Apply(max, s, ev);
    if ev.Publish? {
      PublishLedger(s, ev.result, s', ProcOf(s, pid));
    } else if s.processing != [] {
      SweepLedger(s, s');
    }
  }

  lemma SpawnKeepsSolo(max: nat, s: Sys, pid: Pid, q: Pid)
    requires SoloInv(max, s, pid) && Idle(s)
    ensures SoloInv(max, Apply(max, s, Spawn(q)), q)
  {
    Relabel(s, Exited, Apply(max, s, Spawn(q)), Draining([]));
  }

  lemma AnswerKeepsSolo(max: nat, s: Sys, pid: Pid, ev: Event)
    requires SoloInv(max, s, pid) && (ev.LookedUp? || ev.RunEnded?)
    ensures SoloInv(max, Apply(max, s, ev), pid)
  {
    if ev.LookedUp? && ev.pid in s.procs && s.procs[ev.pid].Lookup? {
      LookupKeeps(max, s, pid, s.procs[pid].items, ev.lookup);
    }
    if ev.RunEnded? && ev.pid in s.procs && s.procs[ev.pid].Running? {
      RunEndKeeps(max, s, pid, s.procs[pid].items, ev.ok, ev.output);
    }
  }

  lemma ApplyKeepsSolo(max: nat, s: Sys, ev: Event)
    requires Solo(max, s) && Calm(s, ev)
    ensures Solo(max, Apply(max, s, ev))
  {
    var pid :| SoloInv(max, s, pid);
    match ev
    case Publish(_) => OutsideKeepsSolo(max, s, pid, ev);
    case Sweep => OutsideKeepsSolo(max, s, pid, ev);
    case Spawn(q) => SpawnKeepsSolo(max, s, pid, q);
    case Command(q, reply) =>
      if q in s.procs && AwaitsCommand(s.procs[q]) {
        CommandKeepsSolo(max, s, pid, reply);
      }
    case LookedUp(_, _) => AnswerKeepsSolo(max, s, pid, ev);
    case RunEnded(_, _, _) => AnswerKeepsSolo(max, s, pid, ev);
  }

  lemma {:induction false} RunKeepsSolo(max: nat, s: Sys, events: seq<Event>)
    requires Solo(max, s) && CalmRun(max, s, events)
    ensures Solo(max, Run(max, s, events))
    decreases |events|
  {
    if events != [] {
      ApplyKeepsSolo(max, s, events[0]);
      RunKeepsSolo(max, Apply(max, s, events[0]), events[1..]);
    }
  }

  lemma InitialSolo(max: nat)
    ensures Solo(max, INITIAL)
  {
    assert SoloInv(max, INITIAL, 0);
  }

  // ------------------------------------------------------------ the theorems

  /**
   * Bounded delivery: in a calm run no result is dispatched in more than five waves over all
   * deliveries and sweeps, and no list ever holds two copies of it between calls.
   */
  lemma BoundedDispatch(max: nat, events: seq<Event>, r: Result)
    requires CalmRun(max, INITIAL, events)
    ensures var s := Run(max, INITIAL, events);
            && WavesWith(Waves(max, events, Sent), r) <= 5
            && (Idle(s) ==> Copies(s.queue, r) + Copies(s.processing, r) <= 1)
  {
    InitialSolo(max);
    RunKeepsSolo(max, INITIAL, events);
    var s := Run(max, INITIAL, events);
    var pid :| SoloInv(max, s, pid);
    assert Tidy(s, ProcOf(s, pid), r);
    HistoryIsTrue(max, events, Sent);
  }

  /**
   * Conservation of the wave counter: between calls of a calm run the session counter is exactly
   * the number of completed waves, so capped, sessionless and failed waves are net zero, and it
   * never exceeds the cap; inside a call it is above that number by the one wave in flight.
   */
  lemma CounterCountsCompletedWaves(max: nat, events: seq<Event>)
    requires CalmRun(max, INITIAL, events)
    ensures var s := Run(max, INITIAL, events);
            var completed := Completions(max, events);
            && (Idle(s) ==> s.counter == completed)
            && completed <= max
            && completed <= s.counter <= completed + 1
  {
    CompletedIsTrue(max, events);
    InitialSolo(max);
    RunKeepsSolo(max, INITIAL, events);
  }
}
