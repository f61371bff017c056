/**
 * The result delivery protocol of one parent session as a state machine.
 *
 * One event is one Redis command, one database or provider answer, or a crash. Any number of
 * deliverers run `deliverResults` at once (the session lock may have been lost), the sweep and the
 * start-up recovery move items back at any moment, and a command may fail with or without having
 * taken effect. `pushed`, `succeeded`, `failed`, `sessionless`, `dispatched`, `dropped`, `orphaned`
 * and `completed` are history: no decision reads them.
 */
module Delivery {
  const MAX_RESULTS_PER_WAVE := 20
  const MAX_DELIVERY_ATTEMPTS := 5

  /** What a payload says about one finished sub-agent, without the attempt counter. */
  datatype Result = Result(runId: string, parentRunId: string, body: string)

  /** A list element. Equal elements are equal strings in Redis; `Junk` does not parse. */
  datatype Raw = Good(result: Result, attempts: nat) | Junk(text: string)

  /** Head first: LPUSH adds at index 0, LMOVE RIGHT LEFT takes the last element. */
  type RedisList = seq<Raw>

  /** Where a deliverer stands inside `deliverResults`; each state awaits one command. */
  datatype Proc =
    | Draining(batch: seq<Raw>)
    | DropJunk(todo: seq<Raw>, items: seq<Raw>)
    | Incr(items: seq<Raw>)
    | Expire(items: seq<Raw>)
    | CapDecr(items: seq<Raw>)
    | CapPush(todo: seq<Raw>)
    | CapRem(todo: seq<Raw>)
    | Lookup(items: seq<Raw>)
    | OrphanRem(items: seq<Raw>, todo: seq<Raw>)
    | OrphanDecr(items: seq<Raw>)
    | Running(items: seq<Raw>)
    | Announce(items: seq<Raw>)
    | DoneRem(items: seq<Raw>, todo: seq<Raw>)
    | CatchDecr(items: seq<Raw>)
    | Fix(todo: seq<Raw>)
    | FixRem(todo: seq<Raw>)
    | Exited

  type Pid = nat

  datatype Sys = Sys(
    queue: RedisList,
    processing: RedisList,
    counter: int,
    procs: map<Pid, Proc>,
    pushed: set<Result>,
    dispatched: seq<seq<Raw>>,
    succeeded: seq<seq<Raw>>,
    failed: seq<seq<Raw>>,
    sessionless: seq<seq<Raw>>,
    dropped: set<Result>,
    orphaned: set<Result>,
    completed: nat)

  datatype Reply = Fine | FailedBefore | FailedAfter

  datatype ParentLookup = Found | NoSession | Throws

  datatype Event =
    | Publish(result: Result)
    | Spawn(pid: Pid)
    | Crash(pid: Pid)
    | Sweep
    | Command(pid: Pid, reply: Reply)
    | LookedUp(pid: Pid, lookup: ParentLookup)
    | RunEnded(pid: Pid, ok: bool, output: bool)

  const INITIAL: Sys := Sys([], [], 0, map[], {}, [], [], [], [], {}, {}, 0)

  // ------------------------------------------------------------ Redis lists

  function LPush(list: RedisList, x: Raw): RedisList {
    [x] + list
  }

  /** LREM key 1 x: drop the first occurrence of `x`, if any. */
  function LRem(list: RedisList, x: Raw): RedisList {
    if list == [] then []
    else if list[0] == x then list[1..]
    else [list[0]] + LRem(list[1..], x)
  }

  function Tail(list: RedisList): Raw
    requires list != []
  {
    list[|list| - 1]
  }

  function Init(list: RedisList): RedisList
    requires list != []
  {
    list[..|list| - 1]
  }

  // ------------------------------------------------------------ control flow between commands

  function NextJunk(todo: seq<Raw>, items: seq<Raw>): (p: Proc)
    ensures p == Draining([]) || p.Incr? || p.DropJunk?
  {
    if todo == [] then if items == [] then Draining([]) else Incr(items)
    else if todo[0].Good? then NextJunk(todo[1..], items + [todo[0]])
    else DropJunk(todo, items)
  }

  function AfterDrain(batch: seq<Raw>): Proc {
    if batch == [] then Exited else NextJunk(batch, [])
  }

  function AfterCount(max: nat, count: int, items: seq<Raw>): Proc {
    if count > max then CapDecr(items) else Lookup(items)
  }

  function NextCap(todo: seq<Raw>): Proc {
    if todo == [] then Exited else CapPush(todo)
  }

  function NextOrphan(items: seq<Raw>, todo: seq<Raw>): Proc {
    if todo == [] then OrphanDecr(items) else OrphanRem(items, todo)
  }

  function NextFix(todo: seq<Raw>): Proc {
    if todo == [] then Exited else Fix(todo)
  }

  function Goto(s: Sys, pid: Pid, p: Proc): Sys {
    s.(procs := s.procs[pid := p])
  }

  /** An exception inside the try block: the wave counts as failed. */
  function EnterCatch(s: Sys, pid: Pid, items: seq<Raw>): Sys {
    Goto(s.(failed := s.failed + [items]), pid, CatchDecr(items))
  }

  /** Continue removing a delivered wave. */
  function NextDone(items: seq<Raw>, todo: seq<Raw>): Proc {
    if todo == [] then Draining([]) else DoneRem(items, todo)
  }

  function Rest(todo: seq<Raw>): seq<Raw> {
    if todo == [] then [] else todo[1..]
  }

  // ------------------------------------------------------------ the effect of one command

  /** The Redis effect of the command that `p` awaits. */
  function Effect(s: Sys, p: Proc): Sys {
    match p
    case Draining(_) =>
      if s.queue == [] then s
      else s.(queue := Init(s.queue), processing := LPush(s.processing, Tail(s.queue)))
    case DropJunk(todo, _) =>
      if todo == [] || todo[0].Good? then s else s.(processing := LRem(s.processing, todo[0]))
    case Incr(_) => s.(counter := s.counter + 1)
    case CapDecr(_) => s.(counter := s.counter - 1)
    case CapPush(todo) => if todo == [] then s else s.(queue := LPush(s.queue, todo[0]))
    case CapRem(todo) => if todo == [] then s else s.(processing := LRem(s.processing, todo[0]))
    case OrphanRem(_, todo) =>
      if todo == [] || todo[0].Junk? then s
      else s.(processing := LRem(s.processing, todo[0]), orphaned := s.orphaned + {todo[0].result})
    case OrphanDecr(_) => s.(counter := s.counter - 1)
    case DoneRem(_, todo) => if todo == [] then s else s.(processing := LRem(s.processing, todo[0]))
    case CatchDecr(_) => s.(counter := s.counter - 1)
    case Fix(todo) =>
      if todo == [] then s
      else if todo[0].Junk? then s.(processing := LRem(s.processing, todo[0]))
      else if LastAttempt(todo[0]) then
        s.(processing := LRem(s.processing, todo[0]), dropped := s.dropped + {todo[0].result})
      else s.(processing := LPush(s.processing, Bump(todo[0])))
    case FixRem(todo) => if todo == [] then s else s.(processing := LRem(s.processing, todo[0]))
    case _ => s
  }

  predicate LastAttempt(x: Raw)
    requires x.Good?
  {
    x.attempts + 1 >= MAX_DELIVERY_ATTEMPTS
  }

  function Bump(x: Raw): Raw
    requires x.Good?
  {
    x.(attempts := x.attempts + 1)
  }

  /** Where `p` goes when its command came back without an error; `s` is the state before it. */
  function Next(max: nat, s: Sys, p: Proc): Proc {
    match p
    case Draining(batch) =>
      if s.queue == [] then AfterDrain(batch)
      else if |batch| + 1 >= MAX_RESULTS_PER_WAVE then AfterDrain(batch + [Tail(s.queue)])
      else Draining(batch + [Tail(s.queue)])
    case DropJunk(todo, items) => NextJunk(Rest(todo), items)
    case Incr(items) =>
      if s.counter + 1 == 1 then Expire(items) else AfterCount(max, s.counter + 1, items)
    case Expire(items) => AfterCount(max, 1, items)
    case CapDecr(items) => NextCap(items)
    case CapPush(todo) => CapRem(todo)
    case CapRem(todo) => NextCap(Rest(todo))
    case OrphanRem(items, todo) => NextOrphan(items, Rest(todo))
    case OrphanDecr(_) => Draining([])
    case Announce(items) => NextDone(items, items)
    case DoneRem(items, todo) => NextDone(items, Rest(todo))
    case CatchDecr(items) => NextFix(items)
    case Fix(todo) =>
      if todo == [] || todo[0].Junk? || LastAttempt(todo[0]) then NextFix(Rest(todo)) else FixRem(todo)
    case FixRem(todo) => NextFix(Rest(todo))
    case _ => p
  }

  /** The command of `p` is the last one of a delivered wave. */
  predicate Completes(p: Proc) {
    (p.Announce? && p.items == []) || (p.DoneRem? && |p.todo| <= 1)
  }

  function OnFine(max: nat, s: Sys, pid: Pid, p: Proc): Sys {
    Effect(s, p).(procs := s.procs[pid := Next(max, s, p)],
                  completed := s.completed + if Completes(p) then 1 else 0)
  }

  /**
   * After the command of `p` threw; `s` already shows whether it took effect. Inside the try block
   * the catch runs; inside `handleDeliveryError` the next item follows; elsewhere the call ends.
   */
  function OnThrow(s: Sys, pid: Pid, p: Proc): Sys {
    match p
    case OrphanRem(items, _) => EnterCatch(s, pid, items)
    case OrphanDecr(items) => EnterCatch(s, pid, items)
    case Announce(items) => EnterCatch(s, pid, items)
    case DoneRem(items, _) => EnterCatch(s, pid, items)
    case Fix(todo) => Goto(s, pid, if todo == [] then Exited else NextFix(todo[1..]))
    case FixRem(todo) => Goto(s, pid, if todo == [] then Exited else NextFix(todo[1..]))
    case _ => Goto(s, pid, Exited)
  }

  /** Lookups and parent runs do not answer to a Redis reply. */
  predicate AwaitsCommand(p: Proc) {
    !p.Lookup? && !p.Running? && !p.Exited?
  }

  function OnReply(max: nat, s: Sys, pid: Pid, p: Proc, reply: Reply): Sys {
    match reply
    case Fine => OnFine(max, s, pid, p)
    case FailedBefore => OnThrow(s, pid, p)
    case FailedAfter => OnThrow(Effect(s, p), pid, p)
  }

  function OnLookup(s: Sys, pid: Pid, items: seq<Raw>, lookup: ParentLookup): Sys {
    match lookup
    case Found => Goto(s.(dispatched := s.dispatched + [items]), pid, Running(items))
    case NoSession => Goto(s.(sessionless := s.sessionless + [items]), pid, NextOrphan(items, items))
    case Throws => EnterCatch(s, pid, items)
  }

  function OnRunEnd(s: Sys, pid: Pid, items: seq<Raw>, ok: bool, output: bool): Sys {
    if !ok then EnterCatch(s, pid, items)
    else
      var s' := s.(succeeded := s.succeeded + [items]);
      if output then Goto(s', pid, Announce(items))
      else
        Goto(s'.(completed := s.completed + if items == [] then 1 else 0), pid, NextDone(items, items))
  }

  /** One event; an event that cannot happen in `s` changes nothing. */
  function Apply(max: nat, s: Sys, ev: Event): Sys {
    match ev
    case Publish(r) =>
      s.(queue := LPush(s.queue, Good(r, 0)), pushed := s.pushed + {r})
    case Spawn(pid) =>
      if pid in s.procs && s.procs[pid] != Exited then s else Goto(s, pid, Draining([]))
    case Crash(pid) => s.(procs := s.procs - {pid})
    case Sweep =>
      if s.processing == [] then s
      else s.(processing := Init(s.processing), queue := LPush(s.queue, Tail(s.processing)))
    case Command(pid, reply) =>
      if pid in s.procs && AwaitsCommand(s.procs[pid])
      then OnReply(max, s, pid, s.procs[pid], reply)
      else s
    case LookedUp(pid, lookup) =>
      if pid in s.procs && s.procs[pid].Lookup?
      then OnLookup(s, pid, s.procs[pid].items, lookup)
      else s
    case RunEnded(pid, ok, output) =>
      if pid in s.procs && s.procs[pid].Running?
      then OnRunEnd(s, pid, s.procs[pid].items, ok, output)
      else s
  }

  function Run(max: nat, s: Sys, events: seq<Event>): Sys
    decreases |events|
  {
    if events == [] then s else Run(max, Apply(max, s, events[0]), events[1..])
  }

  lemma {:induction false} RunSnoc(max: nat, s: Sys, events: seq<Event>, ev: Event)
    ensures Run(max, s, events + [ev]) == Apply(max, Run(max, s, events), ev)
    decreases |events|
  {
    if events == [] {
      assert ([] + [ev])[1..] == [];
    } else {
      assert (events + [ev])[1..] == events[1..] + [ev];
      RunSnoc(max, Apply(max, s, events[0]), events[1..], ev);
    }
  }

  // ------------------------------------------------------------ counting

  predicate Carries(x: Raw, r: Result) {
    x.Good? && x.result == r
  }

  /** Copies of result `r` in a list, whatever their attempt counters. */
  function Copies(list: RedisList, r: Result): nat {
    if list == [] then 0
    else (if Carries(list[0], r) then 1 else 0) + Copies(list[1..], r)
  }

  predicate InWave(items: seq<Raw>, r: Result) {
    exists i :: 0 <= i < |items| && Carries(items[i], r)
  }

  /** How many of the recorded waves carry `r`. */
  function WavesWith(waves: seq<seq<Raw>>, r: Result): nat {
    if waves == [] then 0
    else WavesWith(waves[..|waves| - 1], r) + if InWave(waves[|waves| - 1], r) then 1 else 0
  }

  lemma WavesAppend(waves: seq<seq<Raw>>, items: seq<Raw>, r: Result)
    ensures WavesWith(waves + [items], r) == WavesWith(waves, r) + if InWave(items, r) then 1 else 0
  {
    assert (waves + [items])[..|waves|] == waves;
  }

  lemma {:induction false} CopiesConcat(a: RedisList, b: RedisList, r: Result)
    ensures Copies(a + b, r) == Copies(a, r) + Copies(b, r)
  {
    if a == [] {
      assert a + b == b;
    } else {
      assert (a + b)[1..] == a[1..] + b;
      CopiesConcat(a[1..], b, r);
    }
  }

  lemma CopiesPush(list: RedisList, x: Raw, r: Result)
    ensures Copies(LPush(list, x), r) == Copies(list, r) + if Carries(x, r) then 1 else 0
  {
    assert LPush(list, x)[1..] == list;
  }

  lemma CopiesPop(list: RedisList, r: Result)
    requires list != []
    ensures Copies(list, r) == Copies(Init(list), r) + if Carries(Tail(list), r) then 1 else 0
  {
    assert list == Init(list) + [Tail(list)];
    CopiesConcat(Init(list), [Tail(list)], r);
  }

  lemma {:induction false} CopiesRem(list: RedisList, x: Raw, r: Result)
    ensures Copies(LRem(list, x), r)
         == Copies(list, r) - if x in list && Carries(x, r) then 1 else 0
    ensures forall y :: y in LRem(list, x) ==> y in list
  {
    if list != [] && list[0] != x {
      CopiesRem(list[1..], x, r);
      var rest := LRem(list[1..], x);
      assert ([list[0]] + rest)[1..] == rest;
    }
  }
}
