/**
 * The delivery code itself, in the loops the service has, over the two lists and the counter of one
 * parent session. Every Redis command also takes the step of the machine in `Delivery` that awaits
 * exactly this command, so every history of calls, with any failures, is a run of that machine.
 */
module SessionDeliveryService {
  import opened Util
  import opened Delivery
  import opened DeliveryWaves
  import opened DeliverySafety
  import opened DeliverySolo

  const ME: Pid := 0

  datatype PublishEnd = NotAChild | NoParentSession | LookupFailed | DeadLetter | Enqueued

  const PUBLISH_MAX_ATTEMPTS := 3

  function Reverse(xs: seq<Raw>): (ys: seq<Raw>)
    ensures |ys| == |xs|
  {
    if xs == [] then [] else [xs[|xs| - 1]] + Reverse(xs[..|xs| - 1])
  }

  lemma ReverseAppend(xs: seq<Raw>, x: Raw)
    ensures Reverse(xs + [x]) == [x] + Reverse(xs)
  {
    assert (xs + [x])[..|xs|] == xs;
  }

  function RemAll(list: RedisList, xs: seq<Raw>): RedisList {
    if xs == [] then list else LRem(RemAll(list, xs[..|xs| - 1]), xs[|xs| - 1])
  }

  lemma RemAllAppend(list: RedisList, xs: seq<Raw>, x: Raw)
    ensures RemAll(list, xs + [x]) == LRem(RemAll(list, xs), x)
  {
    assert (xs + [x])[..|xs|] == xs;
  }

  lemma RemAllStep(list: RedisList, xs: seq<Raw>, i: nat)
    requires i < |xs|
    ensures RemAll(list, xs[..i + 1]) == LRem(RemAll(list, xs[..i]), xs[i])
  {
    assert xs[..i + 1][..i] == xs[..i];
  }

  /** How one pass of the drain loop ended; all but the first two leave the loop for good. */
  datatype Pass = Again | Emptied | Capped | WaveFailed | Thrown

  /** What the database and the parent run make of one wave. */
  datatype Parent = Parent(lookup: ParentLookup, ok: bool, output: bool)

  /** What becomes of the wave unless a Redis command fails. */
  function FateOf(parent: Parent): Fate {
    match parent.lookup
    case Throws => Caught
    case NoSession => Sessionless
    case Found => if parent.ok then Delivered else Caught
  }

  // ------------------------------------------------------------ what the loops compute

  function Goods(batch: seq<Raw>): seq<Raw> {
    if batch == [] then []
    else
      var last := batch[|batch| - 1];
      Goods(batch[..|batch| - 1]) + if last.Good? then [last] else []
  }

  function Junks(batch: seq<Raw>): seq<Raw> {
    if batch == [] then []
    else
      var last := batch[|batch| - 1];
      Junks(batch[..|batch| - 1]) + if last.Good? then [] else [last]
  }

  lemma PartsAppend(batch: seq<Raw>, x: Raw)
    ensures Goods(batch + [x]) == Goods(batch) + if x.Good? then [x] else []
    ensures Junks(batch + [x]) == Junks(batch) + if x.Good? then [] else [x]
  {
    assert (batch + [x])[..|batch|] == batch;
  }

  /** Every item of a batch is in one of its two parts, as often as in the batch. */
  lemma {:induction false} PartsAreAll(batch: seq<Raw>)
    ensures multiset(Goods(batch)) + multiset(Junks(batch)) == multiset(batch)
  {
    if batch != [] {
      assert batch == batch[..|batch| - 1] + [batch[|batch| - 1]];
      PartsAreAll(batch[..|batch| - 1]);
    }
  }

  lemma {:induction false} GoodsAreGood(batch: seq<Raw>)
    ensures AllGood(Goods(batch)) && (AllGood(batch) ==> Goods(batch) == batch && Junks(batch) == [])
  {
    if batch != [] {
      var init := batch[..|batch| - 1];
      assert batch == init + [batch[|batch| - 1]];
      GoodsAreGood(init);
      assert AllGood(batch) <==> AllGood(init) && batch[|batch| - 1].Good?;
    }
  }

  lemma {:induction false} JunksAreJunk(batch: seq<Raw>)
    ensures forall x :: x in Junks(batch) ==> x.Junk?
  {
    if batch != [] {
      JunksAreJunk(batch[..|batch| - 1]);
    }
  }

  /** An item of a failed wave: gone at the attempt cap, else replaced by its rewritten copy. */
  function Reworked(list: RedisList, x: Raw): RedisList
    requires x.Good?
  {
    if LastAttempt(x) then LRem(list, x) else LPush(LRem(list, x), Bump(x))
  }

  function ReworkedAll(list: RedisList, items: seq<Raw>): RedisList
    requires AllGood(items)
  {
    if items == [] then list
    else
      var init := items[..|items| - 1];
      assert forall x :: x in init ==> x in items;
      Reworked(ReworkedAll(list, init), items[|items| - 1])
  }

  ghost predicate NoFewer(before: RedisList, after: RedisList) {
    forall r :: Copies(after, r) >= Copies(before, r)
  }

  lemma RewriteKeepsCopies(list: RedisList, x: Raw)
    requires x.Good?
    ensures LRem(LPush(list, Bump(x)), x) == LPush(LRem(list, x), Bump(x))
    ensures NoFewer(list, list) && NoFewer(list, LPush(list, Bump(x))) && NoFewer(list, LRem(LPush(list, Bump(x)), x))
  {
    assert LPush(list, Bump(x))[1..] == list;
    forall r
      ensures Copies(LPush(list, Bump(x)), r) >= Copies(list, r)
      ensures Copies(LRem(LPush(list, Bump(x)), x), r) >= Copies(list, r)
    {
      CopiesPush(list, Bump(x), r);
      CopiesRem(LPush(list, Bump(x)), x, r);
    }
  }

  lemma ReworkedAppend(list: RedisList, items: seq<Raw>, i: nat)
    requires i < |items| && AllGood(items)
    ensures AllGood(items[..i]) && AllGood(items[..i + 1]) && items[i].Good?
    ensures ReworkedAll(list, items[..i + 1]) == Reworked(ReworkedAll(list, items[..i]), items[i])
  {
    assert items[i] in items && forall x :: x in items[..i + 1] ==> x in items;
    assert items[..i + 1][..i] == items[..i];
  }

  function BatchSize(queue: RedisList): nat {
    if |queue| < MAX_RESULTS_PER_WAVE then |queue| else MAX_RESULTS_PER_WAVE
  }

  /** The queue with its oldest batch, at the right end, moved behind the newer items. */
  function Rotated(queue: RedisList): RedisList {
    queue[|queue| - BatchSize(queue)..] + queue[..|queue| - BatchSize(queue)]
  }

  /** The same with the unparseable items of the batch dropped. */
  function Recycled(queue: RedisList): RedisList {
    Goods(queue[|queue| - BatchSize(queue)..]) + queue[..|queue| - BatchSize(queue)]
  }

  /**
   * What a delivery leaves of the queue: at the cap a front part of it with its last batch recycled,
   * otherwise a front part as it was.
   */
  predicate Leaves(pass: Pass, before: RedisList, after: RedisList) {
    match pass
    case Capped => exists m :: 0 <= m <= |before| && after == Recycled(before[..m])
    case Thrown => true
    case _ => after <= before
  }

  lemma {:induction false} GoodsConcat(xs: seq<Raw>, ys: seq<Raw>)
    ensures Goods(xs + ys) == Goods(xs) + Goods(ys)
  {
    if ys == [] {
      assert xs + ys == xs;
    } else {
      var init, last := ys[..|ys| - 1], ys[|ys| - 1];
      assert xs + ys == (xs + init) + [last];
      PartsAppend(xs + init, last);
      GoodsConcat(xs, init);
    }
  }

  lemma {:induction false} GoodsOfReverse(xs: seq<Raw>)
    ensures Goods(Reverse(xs)) == Reverse(Goods(xs))
  {
    if xs != [] {
      var init, last := xs[..|xs| - 1], xs[|xs| - 1];
      GoodsOfReverse(init);
      GoodsConcat([last], Reverse(init));
      PartsAppend([], last);
      assert [] + [last] == [last];
      if last.Good? {
        ReverseAppend(Goods(init), last);
      } else {
        assert Goods(xs) == Goods(init);
      }
    }
  }

  /** A batch taken off the queue and given back without its unparseable items. */
  lemma GivenBack(queue: RedisList, rest: RedisList, batch: seq<Raw>)
    requires queue == rest + Reverse(batch) && |batch| == BatchSize(queue)
    ensures Reverse(Goods(batch)) + rest == Recycled(queue)
    ensures AllGood(queue[|queue| - BatchSize(queue)..]) ==> Recycled(queue) == Rotated(queue) && Goods(batch) == batch
  {
    GoodsOfReverse(batch);
    assert queue[|rest|..] == Reverse(batch) && queue[..|rest|] == rest;
    GoodsAreGood(Reverse(batch));
    GoodsAreGood(batch);
    ReverseGood(batch);
  }

  /** What is known of a batch drawn off `queue0`: its sound items, given back, recycle the queue. */
  predicate Drawn(queue0: RedisList, queue: RedisList, items: seq<Raw>, empty: bool) {
    && queue <= queue0 && AllGood(items) && (empty <==> queue0 == [])
    && (!empty ==> |queue| < |queue0|)
    && Reverse(items) + queue == Recycled(queue0)
    && (!empty && AllGood(queue0[|queue0| - BatchSize(queue0)..]) ==>
          items != [] && Recycled(queue0) == Rotated(queue0))
  }

  lemma BatchIsDrawn(queue0: RedisList, queue: RedisList, batch: seq<Raw>)
    requires queue0 == queue + Reverse(batch) && |batch| == BatchSize(queue0)
    ensures Drawn(queue0, queue, Goods(batch), batch == [])
  {
    GivenBack(queue0, queue, batch);
    GoodsAreGood(batch);
  }

  lemma {:induction false} ReverseGood(xs: seq<Raw>)
    ensures AllGood(Reverse(xs)) <==> AllGood(xs)
  {
    if xs != [] {
      var init := xs[..|xs| - 1];
      assert xs == init + [xs[|xs| - 1]];
      ReverseGood(init);
      assert Reverse(xs)[0] == xs[|xs| - 1] && Reverse(xs)[1..] == Reverse(init);
      assert AllGood(Reverse(xs)) <==> xs[|xs| - 1].Good? && AllGood(Reverse(init)) by {
        assert forall x :: x in Reverse(xs) <==> x == xs[|xs| - 1] || x in Reverse(init);
      }
      assert forall x :: x in xs <==> x == xs[|xs| - 1] || x in init;
    }
  }

  lemma GiveBackStep(items: seq<Raw>, i: nat, queue: RedisList, processing: RedisList)
    requires i < |items|
    ensures Reverse(items[..i + 1]) + queue == [items[i]] + (Reverse(items[..i]) + queue)
    ensures RemAll(processing, items[..i + 1]) == LRem(RemAll(processing, items[..i]), items[i])
  {
    assert items[..i + 1] == items[..i] + [items[i]];
    ReverseAppend(items[..i], items[i]);
    RemAllAppend(processing, items[..i], items[i]);
  }

  lemma {:induction false} JunksOfPrefix(batch: seq<Raw>, i: nat)
    requires i <= |batch|
    ensures Junks(batch[..i]) <= Junks(batch)
  {
    if i == |batch| {
      assert batch[..i] == batch;
    } else {
      assert batch[..|batch| - 1][..i] == batch[..i];
      JunksOfPrefix(batch[..|batch| - 1], i);
    }
  }

  lemma PartsStep(batch: seq<Raw>, i: nat)
    requires i < |batch|
    ensures Goods(batch[..i + 1]) == Goods(batch[..i]) + if batch[i].Good? then [batch[i]] else []
    ensures Junks(batch[..i + 1]) == Junks(batch[..i]) + if batch[i].Good? then [] else [batch[i]]
  {
    assert batch[..i + 1] == batch[..i] + [batch[i]];
    PartsAppend(batch[..i], batch[i]);
  }

  /** Parsing is done with the first `i` of a batch. */
  predicate Parsed(batch: seq<Raw>, i: nat, items: seq<Raw>, processing0: RedisList, processing: RedisList)
    requires i <= |batch|
  {
    items == Goods(batch[..i]) && processing == RemAll(processing0, Junks(batch[..i]))
  }

  /** The first few unparseable items of a batch have left the processing list. */
  predicate PartlyParsed(batch: seq<Raw>, processing0: RedisList, processing: RedisList) {
    exists n :: 0 <= n <= |Junks(batch)| && processing == RemAll(processing0, Junks(batch)[..n])
  }

  lemma ParsedStep(batch: seq<Raw>, i: nat, items: seq<Raw>, processing0: RedisList, processing: RedisList)
    requires i < |batch| && Parsed(batch, i, items, processing0, processing)
    ensures batch[i].Good? ==> Parsed(batch, i + 1, items + [batch[i]], processing0, processing)
    ensures batch[i].Junk? ==> Parsed(batch, i + 1, items, processing0, LRem(processing, batch[i]))
  {
    PartsStep(batch, i);
    assert batch[i].Good? ==> Junks(batch[..i + 1]) == Junks(batch[..i]);
    RemAllAppend(processing0, Junks(batch[..i]), batch[i]);
  }

  lemma ParsedPartly(batch: seq<Raw>, i: nat, items: seq<Raw>, processing0: RedisList, processing: RedisList)
    requires i <= |batch| && Parsed(batch, i, items, processing0, processing)
    ensures PartlyParsed(batch, processing0, processing)
  {
    JunksOfPrefix(batch, i);
    assert Junks(batch)[..|Junks(batch[..i])|] == Junks(batch[..i]);
  }

  lemma ParsedAll(batch: seq<Raw>, items: seq<Raw>, processing0: RedisList, processing: RedisList)
    requires Parsed(batch, |batch|, items, processing0, processing)
    ensures items == Goods(batch) && processing == RemAll(processing0, Junks(batch))
  {
    assert batch[..|batch|] == batch;
  }

  predicate AllGood(xs: seq<Raw>) {
    forall x :: x in xs ==> x.Good?
  }

  /** How many of the commands with these replies took effect. */
  function Landed(replies: seq<Reply>): nat {
    if replies == [] then 0
    else Landed(replies[..|replies| - 1]) + if replies[|replies| - 1] == FailedBefore then 0 else 1
  }

  lemma LandedAppend(replies: seq<Reply>, reply: Reply)
    ensures Landed(replies + [reply]) == Landed(replies) + if reply == FailedBefore then 0 else 1
  {
    assert (replies + [reply])[..|replies|] == replies;
  }

  predicate NoneLanded(replies: seq<Reply>) {
    forall i :: 0 <= i < |replies| ==> replies[i] == FailedBefore
  }

  predicate AtMostOneLanded(replies: seq<Reply>) {
    forall i, j :: 0 <= i < j < |replies| ==> replies[i] == FailedBefore || replies[j] == FailedBefore
  }

  /** A push that failed may have landed: there is at most one copy iff at most one push did. */
  lemma {:induction false} AtMostOneCopy(replies: seq<Reply>)
    ensures Landed(replies) == 0 <==> NoneLanded(replies)
    ensures Landed(replies) <= 1 <==> AtMostOneLanded(replies)
  {
    if replies != [] {
      var n := |replies| - 1;
      AtMostOneCopy(replies[..n]);
      assert NoneLanded(replies) <==> NoneLanded(replies[..n]) && replies[n] == FailedBefore by {
        assert replies == replies[..n] + [replies[n]];
      }
      assert AtMostOneLanded(replies) <==>
             AtMostOneLanded(replies[..n]) && (NoneLanded(replies[..n]) || replies[n] == FailedBefore) by {
        assert forall i :: 0 <= i < n ==> replies[..n][i] == replies[i];
      }
    }
  }

  function Repeat(x: Raw, n: nat): (xs: seq<Raw>)
    ensures |xs| == n && forall i :: 0 <= i < n ==> xs[i] == x
  {
    if n == 0 then [] else [x] + Repeat(x, n - 1)
  }

  predicate LastFine(replies: seq<Reply>) {
    replies != [] && replies[|replies| - 1] == Fine
  }

  /** Redis's answers from the `from`-th on, up to the first that reports success. */
  predicate Tried(answers: nat -> Reply, from: nat, replies: seq<Reply>) {
    && |replies| <= PUBLISH_MAX_ATTEMPTS
    && (forall i :: 0 <= i < |replies| ==> replies[i] == answers(from + i))
    && (forall i :: 0 <= i < |replies| - 1 ==> replies[i] != Fine)
  }

  /** One copy is on the queue for each push that landed. */
  predicate OnQueue(queue0: RedisList, queue: RedisList, pushed: set<Result>, result: Result, replies: seq<Reply>) {
    queue == Repeat(Good(result, 0), Landed(replies)) + queue0 && (LastFine(replies) ==> result in pushed)
  }

  lemma OnceMore(
      answers: nat -> Reply, from: nat, replies: seq<Reply>, reply: Reply,
      queue0: RedisList, queue: RedisList, pushed: set<Result>, result: Result)
    requires Tried(answers, from, replies) && |replies| < PUBLISH_MAX_ATTEMPTS && !LastFine(replies)
    requires reply == answers(from + |replies|) && OnQueue(queue0, queue, pushed, result, replies)
    ensures Tried(answers, from, replies + [reply]) && (LastFine(replies + [reply]) <==> reply == Fine)
    ensures OnQueue(queue0, (if reply == FailedBefore then [] else [Good(result, 0)]) + queue,
                    pushed + (if reply == FailedBefore then {} else {result}), result, replies + [reply])
  {
    LandedAppend(replies, reply);
  }

  lemma {:induction false} CalmSnoc(max: nat, s: Sys, events: seq<Event>, ev: Event)
    requires CalmRun(max, s, events) && Calm(Run(max, s, events), ev)
    ensures CalmRun(max, s, events + [ev])
    decreases |events|
  {
    if events != [] {
      assert (events + [ev])[1..] == events[1..] + [ev];
      CalmSnoc(max, Apply(max, s, events[0]), events[1..], ev);
    } else {
      assert (events + [ev])[1..] == [];
    }
  }

  lemma CommandApplies(max: nat, s: Sys, p: Proc, reply: Reply)
    requires s.procs == map[ME := p] && AwaitsCommand(p)
    ensures Apply(max, s, Command(ME, reply)) == OnReply(max, s, ME, p, reply)
    ensures Calm(s, Command(ME, reply)) <==> reply == Fine || p.Announce?
  {
  }

  lemma ReplyShows(max: nat, s: Sys, p: Proc, reply: Reply)
    ensures var t := OnReply(max, s, ME, p, reply);
            var e := if reply == FailedBefore then s else Effect(s, p);
            t.queue == e.queue && t.processing == e.processing && t.counter == e.counter
  {
  }

  predicate FineFrom(answers: nat -> Reply, from: nat, to: nat) {
    forall i :: from <= i < to ==> answers(i) == Fine
  }

  /** A sweep ends with the processing list empty, or at the first answer that is not fine. */
  predicate SweepEnded(answers: nat -> Reply, from: nat, to: nat, processing: RedisList) {
    if from < to && answers(to - 1) != Fine then FineFrom(answers, from, to - 1)
    else FineFrom(answers, from, to) && processing == []
  }

  /** The commands of a sweep that took effect: all but possibly the last. */
  function Took(answers: nat -> Reply, from: nat, to: nat): int {
    to - from - if from < to && answers(to - 1) == FailedBefore then 1 else 0
  }

  /** The last `moved` items of a processing list are in front of the queue. */
  predicate MovedBack(
      processing0: RedisList, queue0: RedisList, processing: RedisList, queue: RedisList, moved: nat)
  {
    && moved <= |processing0| && processing == processing0[..|processing0| - moved]
    && queue == processing0[|processing0| - moved..] + queue0
  }

  lemma OneMoreBack(processing0: RedisList, queue0: RedisList, processing: RedisList, queue: RedisList, moved: nat)
    requires MovedBack(processing0, queue0, processing, queue, moved) && processing != []
    ensures MovedBack(processing0, queue0, Init(processing), [Tail(processing)] + queue, moved + 1)
  {
  }

  class SessionDelivery {
    const max: nat               // maxReinvocations
    const answers: nat -> Reply  // what Redis answers to the n-th command
    const parents: nat -> Parent // what becomes of the n-th wave
    var asked: nat
    var waves: nat
    var queue: RedisList
    var processing: RedisList
    var counter: int

    ghost var sys: Sys
    ghost var trace: seq<Event>
    ghost var calm: bool         // no Redis command failed and no call broke the turn-taking

    ghost predicate Mirrored()
      reads this
    {
      sys.queue == queue && sys.processing == processing && sys.counter == counter
    }

    ghost predicate Recorded()
      reads this
    {
      sys == Run(max, INITIAL, trace) && (calm ==> CalmRun(max, INITIAL, trace))
    }

    ghost predicate Valid()
      reads this
    {
      Mirrored() && Recorded()
    }

    /** This deliverer stands at `p`, and it is the only one. */
    ghost predicate At(p: Proc)
      reads this
    {
      sys.procs == map[ME := p]
    }

    ghost predicate Resting()
      reads this
    {
      sys.procs == map[] || At(Exited)
    }

    constructor (max: nat, answers: nat -> Reply, parents: nat -> Parent)
      ensures Valid() && Resting() && calm && this.max == max
      ensures this.answers == answers && asked == 0 && this.parents == parents && waves == 0
      ensures queue == [] && processing == [] && counter == 0
    {
      this.max, this.answers, this.parents, asked, waves := max, answers, parents, 0, 0;
      queue, processing, counter := [], [], 0;
      sys, trace, calm := INITIAL, [], true;
    }

    ghost method Step(ev: Event)
      requires Recorded()
      modifies this`sys, this`trace, this`calm
      ensures Recorded()
      ensures sys == Apply(max, old(sys), ev) && trace == old(trace) + [ev]
      ensures calm == (old(calm) && Calm(old(sys), ev))
      ensures calm ==> old(calm)
    {
      RunSnoc(max, INITIAL, trace, ev);
      if calm && Calm(sys, ev) {
        CalmSnoc(max, INITIAL, trace, ev);
      }
      calm := calm && Calm(sys, ev);
      sys := Apply(max, sys, ev);
      trace := trace + [ev];
    }

    /** What Redis answers next: it worked, or it failed without or with its effect. */
    method NextReply() returns (reply: Reply)
      modifies this`asked
      ensures asked == old(asked) + 1 && reply == answers(old(asked))
    {
      reply := answers(asked);
      asked := asked + 1;
    }

    /** What only the try block changes: how many waves entered it, and what became of them. */
    ghost function Tally(): (nat, seq<seq<Raw>>, seq<seq<Raw>>, seq<seq<Raw>>, nat)
      reads this
    {
      (waves, sys.succeeded, sys.failed, sys.sessionless, sys.completed)
    }

    /** Every answer of Redis from the `from`-th on was fine. */
    ghost predicate AllFine(from: nat)
      reads this
    {
      FineFrom(answers, from, asked)
    }

    /** Redis was asked on from the `from`-th command, and only a failing answer ends a calm history. */
    ghost predicate Heard(from: nat, calm0: bool)
      reads this
    {
      from <= asked && (calm0 && AllFine(from) ==> calm)
    }

    // ---------------------------------------------------------- Redis commands

    /** The machine awaits a command of this deliverer with this effect on the session's keys. */
    ghost predicate Awaits(p: Proc, queue': RedisList, processing': RedisList, counter': int)
      reads this
    {
      && At(p) && AwaitsCommand(p)
      && var e := Effect(sys, p);
      && e.queue == queue' && e.processing == processing' && e.counter == counter'
    }

    /** The machine takes the step of the awaited command. */
    ghost method Advance(p: Proc, reply: Reply)
      requires Recorded() && At(p) && AwaitsCommand(p)
      modifies this`sys, this`trace, this`calm
      ensures Recorded() && sys == OnReply(max, old(sys), ME, p, reply)
      ensures calm == (old(calm) && (reply == Fine || p.Announce?))
    {
      CommandApplies(max, sys, p, reply);
      Step(Command(ME, reply));
    }

    /** Issue the awaited command. */
    method Issue(ghost p: Proc, queue': RedisList, processing': RedisList, counter': int)
      returns (reply: Reply)
      requires Valid() && Awaits(p, queue', processing', counter')
      modifies this
      ensures Valid()
      ensures sys == OnReply(max, old(sys), ME, p, reply)
      ensures calm == (old(calm) && (reply == Fine || p.Announce?))
      ensures calm ==> old(calm)
      ensures asked == old(asked) + 1 && reply == answers(old(asked)) && waves == old(waves)
      ensures if reply == FailedBefore
              then queue == old(queue) && processing == old(processing) && counter == old(counter)
              else queue == queue' && processing == processing' && counter == counter'
    {
      reply := NextReply();
      if reply != FailedBefore {
        queue, processing, counter := queue', processing', counter';
      }
      ReplyShows(max, sys, p, reply);
      Advance(p, reply);
    }

    // ---------------------------------------------------------- deliverResults

    /** LMOVE from the queue to the processing list. */
    method PullOne(ghost batch: seq<Raw>) returns (threw: bool, raw: Option<Raw>)
      requires Valid() && At(Draining(batch))
      modifies this
      ensures Heard(old(asked), old(calm)) && (threw ==> !AllFine(old(asked)))
      ensures Valid() && counter == old(counter) && Tally() == old(Tally())
      ensures threw ==> At(Exited) && !calm
      ensures !threw ==> calm == old(calm)
      ensures !threw && raw == None ==>
                old(queue) == [] && queue == [] && processing == old(processing) && At(AfterDrain(batch))
      ensures !threw && raw.Some? ==>
                && old(queue) == queue + [raw.value]
                && processing == [raw.value] + old(processing)
                && At(if |batch| + 1 >= MAX_RESULTS_PER_WAVE then AfterDrain(batch + [raw.value])
                      else Draining(batch + [raw.value]))
    {
      if queue == [] {
        var reply := Issue(Draining(batch), queue, processing, counter);
        return reply != Fine, None;
      }
      var x := Tail(queue);
      assert queue == Init(queue) + [x];
      var reply := Issue(Draining(batch), Init(queue), LPush(processing, x), counter);
      return reply != Fine, Some(x);
    }

    /** Drain the queue, bounded per wave, into the processing list. */
    method DrainBatch() returns (threw: bool, batch: seq<Raw>)
      requires Valid() && At(Draining([]))
      modifies this
      ensures Heard(old(asked), old(calm)) && (threw ==> !AllFine(old(asked)))
      ensures Valid() && counter == old(counter) && Tally() == old(Tally())
      ensures threw ==> At(Exited) && !calm
      ensures !threw ==>
                && At(AfterDrain(batch)) && calm == old(calm)
                && |batch| == Min(MAX_RESULTS_PER_WAVE, |old(queue)|)
                && queue + Reverse(batch) == old(queue)
                && processing == Reverse(batch) + old(processing)
    {
      batch := [];
      while |batch| < MAX_RESULTS_PER_WAVE
        invariant Heard(old(asked), old(calm))
        invariant Valid() && counter == old(counter) && calm == old(calm) && Tally() == old(Tally())
        invariant |batch| <= MAX_RESULTS_PER_WAVE
        invariant At(if |batch| >= MAX_RESULTS_PER_WAVE then AfterDrain(batch) else Draining(batch))
        invariant queue + Reverse(batch) == old(queue)
        invariant processing == Reverse(batch) + old(processing)
      {
        var raw;
        threw, raw := PullOne(batch);
        if threw || raw == None {
          return threw, batch;
        }
        ReverseAppend(batch, raw.value);
        batch := batch + [raw.value];
      }
      return false, batch;
    }

    /** Parse up front; unparseable items are dropped, not retried. */
    method ParseBatch(batch: seq<Raw>) returns (threw: bool, items: seq<Raw>)
      requires Valid() && At(NextJunk(batch, []))
      modifies this
      ensures Heard(old(asked), old(calm)) && (threw ==> !AllFine(old(asked)))
      ensures Valid() && counter == old(counter) && queue == old(queue) && Tally() == old(Tally())
      ensures threw ==> At(Exited) && !calm && PartlyParsed(batch, old(processing), processing)
      ensures !threw ==> At(NextJunk([], items)) && calm == old(calm)
      ensures !threw ==> items == Goods(batch) && processing == RemAll(old(processing), Junks(batch))
    {
      items := [];
      assert batch[..0] == [];
      for i := 0 to |batch|
        invariant Heard(old(asked), old(calm))
        invariant Valid() && counter == old(counter) && queue == old(queue) && calm == old(calm)
        invariant Tally() == old(Tally()) && At(NextJunk(batch[i..], items))
        invariant Parsed(batch, i, items, old(processing), processing)
      {
        assert batch[i..][1..] == batch[i + 1..];
        ParsedStep(batch, i, items, old(processing), processing);
        if batch[i].Good? {
          items := items + [batch[i]];
        } else {
          ParsedPartly(batch, i, items, old(processing), processing);
          ghost var before := processing;
          threw := DropUnparseable(batch[i], batch[i..], items);
          if threw {
            if processing != before {
              ParsedPartly(batch, i + 1, items, old(processing), processing);
            }
            return;
          }
        }
      }
      ParsedAll(batch, items, old(processing), processing);
      return false, items;
    }

    method DropUnparseable(raw: Raw, ghost todo: seq<Raw>, ghost items: seq<Raw>) returns (threw: bool)
      requires Valid() && todo != [] && todo[0] == raw && raw.Junk? && At(DropJunk(todo, items))
      modifies this
      ensures Heard(old(asked), old(calm)) && (threw ==> !AllFine(old(asked)))
      ensures Valid() && counter == old(counter) && queue == old(queue) && Tally() == old(Tally())
      ensures threw ==> At(Exited) && !calm
      ensures threw ==> processing == old(processing) || processing == LRem(old(processing), raw)
      ensures !threw ==>
                At(NextJunk(todo[1..], items)) && calm == old(calm) && processing == LRem(old(processing), raw)
    {
      var reply := Issue(DropJunk(todo, items), queue, LRem(processing, raw), counter);
      return reply != Fine;
    }

    /** The cap is reached: undo the count and put the wave back, oldest first. */
    method GiveBack(items: seq<Raw>) returns (threw: bool)
      requires Valid() && At(CapDecr(items))
      modifies this
      ensures Heard(old(asked), old(calm)) && (threw ==> !AllFine(old(asked)))
      ensures Valid() && At(Exited) && Tally() == old(Tally())
      ensures threw ==> !calm
      ensures !threw ==>
                && calm == old(calm) && counter == old(counter) - 1
                && queue == Reverse(items) + old(queue)
                && processing == RemAll(old(processing), items)
    {
      var reply := Issue(CapDecr(items), queue, processing, counter - 1);
      if reply != Fine {
        return true;
      }
      for i := 0 to |items|
        invariant Heard(old(asked), old(calm))
        invariant Valid() && At(NextCap(items[i..])) && Tally() == old(Tally())
        invariant calm == old(calm) && counter == old(counter) - 1
        invariant queue == Reverse(items[..i]) + old(queue)
        invariant processing == RemAll(old(processing), items[..i])
      {
        assert items[i..] == [items[i]] + items[i + 1..];
        threw := PutBackOne(items[i], items[i + 1..]);
        if threw {
          return true;
        }
        GiveBackStep(items, i, old(queue), old(processing));
      }
      assert items[..|items|] == items;
      return false;
    }

    /** Push the copy to the queue before removing the one in the processing list. */
    method PutBackOne(raw: Raw, ghost rest: seq<Raw>) returns (threw: bool)
      requires Valid() && At(CapPush([raw] + rest))
      modifies this
      ensures Heard(old(asked), old(calm)) && (threw ==> !AllFine(old(asked)))
      ensures Valid() && Tally() == old(Tally())
      ensures threw ==> At(Exited) && !calm
      ensures !threw ==>
                && At(NextCap(rest)) && calm == old(calm) && counter == old(counter)
                && queue == [raw] + old(queue) && processing == LRem(old(processing), raw)
    {
      ghost var todo := [raw] + rest;
      assert todo[1..] == rest;
      var reply := Issue(CapPush(todo), LPush(queue, raw), processing, counter);
      if reply != Fine {
        return true;
      }
      reply := Issue(CapRem(todo), queue, LRem(processing, raw), counter);
      return reply != Fine;
    }

    /** The wave counts as failed; up to `n` of its items have left the processing list. */
    ghost predicate WaveCaught(items: seq<Raw>, processing0: RedisList, counter0: int, failed0: seq<seq<Raw>>)
      reads this
    {
      && At(CatchDecr(items)) && sys.failed == failed0 + [items]
      && (counter == counter0 || counter == counter0 - 1)
      && exists n :: 0 <= n <= |items| && processing == RemAll(processing0, items[..n])
    }

    /** No session to deliver to: drop the wave and undo the count. */
    method DropOrphans(items: seq<Raw>) returns (caught: bool)
      requires Valid() && AllGood(items) && At(NextOrphan(items, items))
      modifies this
      ensures Heard(old(asked), old(calm)) && waves == old(waves) && (caught ==> !AllFine(old(asked)))
      ensures Valid() && queue == old(queue) && (calm ==> old(calm))
      ensures caught ==> WaveCaught(items, old(processing), old(counter), old(sys.failed))
      ensures !caught ==>
                && At(Draining([])) && Tally() == old(Tally())
                && processing == RemAll(old(processing), items) && counter == old(counter) - 1
    {
      for i := 0 to |items|
        invariant Heard(old(asked), old(calm)) && waves == old(waves)
        invariant Valid() && At(NextOrphan(items, items[i..])) && Tally() == old(Tally())
        invariant queue == old(queue) && calm == old(calm) && counter == old(counter)
        invariant processing == RemAll(old(processing), items[..i])
      {
        RemAllStep(old(processing), items, i);
        caught := DropOrphan(items, i);
        if caught {
          ghost var n := if processing == RemAll(old(processing), items[..i]) then i else i + 1;
          assert processing == RemAll(old(processing), items[..n]);
          return;
        }
      }
      assert items[..|items|] == items;
      var reply := Issue(OrphanDecr(items), queue, processing, counter - 1);
      assert processing == RemAll(old(processing), items[..|items|]);
      return reply != Fine;
    }

    method DropOrphan(items: seq<Raw>, i: nat) returns (caught: bool)
      requires Valid() && i < |items| && AllGood(items) && At(OrphanRem(items, items[i..]))
      modifies this
      ensures Heard(old(asked), old(calm)) && waves == old(waves) && (caught ==> !AllFine(old(asked)))
      ensures Valid() && queue == old(queue) && counter == old(counter)
      ensures caught ==> At(CatchDecr(items)) && !calm && sys.failed == old(sys.failed) + [items]
      ensures caught ==> processing == old(processing) || processing == LRem(old(processing), items[i])
      ensures !caught ==>
                && At(NextOrphan(items, items[i + 1..])) && Tally() == old(Tally()) && calm == old(calm)
                && processing == LRem(old(processing), items[i])
    {
      ghost var todo := items[i..];
      assert todo[1..] == items[i + 1..] && items[i] in items;
      var reply := Issue(OrphanRem(items, todo), queue, LRem(processing, items[i]), counter);
      return reply != Fine;
    }

    /** The reinvocation succeeded: remove the whole wave from the processing list. */
    method RemoveDelivered(items: seq<Raw>) returns (caught: bool)
      requires Valid() && items != [] && At(DoneRem(items, items))
      modifies this
      ensures Heard(old(asked), old(calm)) && waves == old(waves) && (caught ==> !AllFine(old(asked)))
      ensures Valid() && queue == old(queue) && counter == old(counter) && (calm ==> old(calm))
      ensures caught ==> WaveCaught(items, old(processing), old(counter), old(sys.failed))
      ensures !caught ==>
                && At(Draining([])) && sys.completed == old(sys.completed) + 1
                && sys.succeeded == old(sys.succeeded) && sys.failed == old(sys.failed)
                && sys.sessionless == old(sys.sessionless)
                && processing == RemAll(old(processing), items)
    {
      for i := 0 to |items|
        invariant Heard(old(asked), old(calm)) && waves == old(waves)
        invariant Valid() && At(NextDone(items, items[i..]))
        invariant queue == old(queue) && calm == old(calm) && counter == old(counter)
        invariant sys.completed == old(sys.completed) + if i == |items| then 1 else 0
        invariant sys.succeeded == old(sys.succeeded) && sys.failed == old(sys.failed)
        invariant sys.sessionless == old(sys.sessionless)
        invariant processing == RemAll(old(processing), items[..i])
      {
        RemAllStep(old(processing), items, i);
        caught := RemoveOneDelivered(items, i);
        if caught {
          ghost var n := if processing == RemAll(old(processing), items[..i]) then i else i + 1;
          assert processing == RemAll(old(processing), items[..n]);
          return;
        }
      }
      assert items[..|items|] == items;
      return false;
    }

    method RemoveOneDelivered(items: seq<Raw>, i: nat) returns (caught: bool)
      requires Valid() && i < |items| && At(DoneRem(items, items[i..]))
      modifies this
      ensures Heard(old(asked), old(calm)) && waves == old(waves) && (caught ==> !AllFine(old(asked)))
      ensures Valid() && queue == old(queue) && counter == old(counter)
      ensures caught ==> At(CatchDecr(items)) && !calm && sys.failed == old(sys.failed) + [items]
      ensures caught ==> processing == old(processing) || processing == LRem(old(processing), items[i])
      ensures !caught ==>
                && At(NextDone(items, items[i + 1..])) && calm == old(calm)
                && sys.completed == old(sys.completed) + (if i + 1 == |items| then 1 else 0)
                && sys.succeeded == old(sys.succeeded) && sys.failed == old(sys.failed)
                && sys.sessionless == old(sys.sessionless) && processing == LRem(old(processing), items[i])
    {
      ghost var todo := items[i..];
      assert todo[1..] == items[i + 1..];
      var reply := Issue(DoneRem(items, todo), queue, LRem(processing, items[i]), counter);
      return reply != Fine;
    }

    /**
     * The try block of one wave. A wave that was delivered or had no session is out of the processing
     * list; a delivered one keeps its count and is completed, one without a session gives it back.
     * `caught` says that the block threw: the wave counts as failed.
     */
    method TryWave(items: seq<Raw>) returns (caught: bool, ghost end: Fate)
      requires Valid() && items != [] && AllGood(items) && At(Lookup(items))
      modifies this
      ensures Heard(old(asked), old(calm)) && waves == old(waves) + 1
      ensures Explains(parents(old(waves)), end, old(asked))
      ensures Valid() && queue == old(queue) && (calm ==> old(calm)) && (caught <==> end == Caught)
      ensures end == Caught ==> WaveCaught(items, old(processing), old(counter), old(sys.failed))
      ensures !caught ==> At(Draining([])) && processing == RemAll(old(processing), items)
      ensures end == Delivered ==>
                && counter == old(counter) && sys.completed == old(sys.completed) + 1
                && sys.succeeded == old(sys.succeeded) + [items] && sys.failed == old(sys.failed)
      ensures end == Sessionless ==>
                && counter == old(counter) - 1 && sys.completed == old(sys.completed)
                && sys.sessionless == old(sys.sessionless) + [items] && sys.failed == old(sys.failed)
    {
      assert RemAll(processing, items[..0]) == processing;
      var parent := parents(waves);
      waves := waves + 1;
      Step(LookedUp(ME, parent.lookup));
      if parent.lookup == Throws {
        return true, Caught;
      }
      if parent.lookup == NoSession {
        caught := DropOrphans(items);
        return caught, if caught then Caught else Sessionless;
      }
      caught := Reinvoke(items, parent);
      return caught, if caught then Caught else Delivered;
    }

    /**
     * How a wave ended is what the lookup and the parent run make of it, unless a Redis command failed
     * since the `from`-th; and then it counts as failed. Whatever fails, only a wave whose parent run
     * succeeded is delivered.
     */
    ghost predicate Explains(parent: Parent, end: Fate, from: nat)
      reads this
    {
      && (end == Delivered ==> parent.lookup == Found && parent.ok)
      && (end == Sessionless ==> parent.lookup == NoSession)
      && (end == FateOf(parent) || (end == Caught && !AllFine(from)))
    }

    /** Run the parent again with the wave, announce its output, and remove the wave. */
    method Reinvoke(items: seq<Raw>, parent: Parent) returns (caught: bool)
      requires Valid() && items != [] && At(Running(items))
      modifies this
      ensures Heard(old(asked), old(calm)) && waves == old(waves)
      ensures if parent.ok then caught ==> !AllFine(old(asked)) else caught
      ensures Valid() && queue == old(queue) && (calm ==> old(calm))
      ensures caught ==> WaveCaught(items, old(processing), old(counter), old(sys.failed))
      ensures !caught ==>
                && At(Draining([])) && processing == RemAll(old(processing), items)
                && counter == old(counter) && sys.completed == old(sys.completed) + 1
                && sys.succeeded == old(sys.succeeded) + [items] && sys.failed == old(sys.failed)
    {
      assert RemAll(processing, items[..0]) == processing;
      Step(RunEnded(ME, parent.ok, parent.output));
      if !parent.ok {
        return true;
      }
      if parent.output {
        var reply := Issue(Announce(items), queue, processing, counter);
        if reply != Fine {
          return true;
        }
      }
      caught := RemoveDelivered(items);
    }

    /**
     * One item of a failed wave: drop it at the attempt cap, else push the rewritten copy before
     * removing the old one. A Redis error leaves it to the sweep. Whatever fails, under the cap no
     * result loses a copy.
     */
    method HandleDeliveryError(raw: Raw, ghost rest: seq<Raw>)
      requires Valid() && raw.Good? && At(Fix([raw] + rest))
      modifies this
      ensures Heard(old(asked), old(calm))
      ensures Valid() && At(NextFix(rest)) && Tally() == old(Tally())
      ensures queue == old(queue) && counter == old(counter) && (calm ==> old(calm))
      ensures old(asked) < asked <= old(asked) + 2
      ensures calm ==> answers(old(asked)) == answers(asked - 1) == Fine
      ensures answers(old(asked)) == answers(asked - 1) == Fine ==> processing == Reworked(old(processing), raw)
      ensures !LastAttempt(raw) ==> NoFewer(old(processing), processing)
    {
      var attempts := raw.attempts + 1;
      if attempts >= MAX_DELIVERY_ATTEMPTS {
        DropAtCap(raw, rest);
      } else {
        Rewrite(raw, raw.(attempts := attempts), rest);
      }
    }

    method DropAtCap(raw: Raw, ghost rest: seq<Raw>)
      requires Valid() && raw.Good? && LastAttempt(raw) && At(Fix([raw] + rest))
      modifies this
      ensures Heard(old(asked), old(calm))
      ensures Valid() && At(NextFix(rest)) && Tally() == old(Tally())
      ensures queue == old(queue) && counter == old(counter) && (calm ==> old(calm))
      ensures asked == old(asked) + 1 && (calm ==> answers(old(asked)) == Fine)
      ensures processing == if answers(old(asked)) == FailedBefore then old(processing) else LRem(old(processing), raw)
    {
      ghost var todo := [raw] + rest;
      assert todo[1..] == rest;
      var _ := Issue(Fix(todo), queue, LRem(processing, raw), counter);
    }

    method Rewrite(raw: Raw, updated: Raw, ghost rest: seq<Raw>)
      requires Valid() && raw.Good? && !LastAttempt(raw) && updated == Bump(raw) && At(Fix([raw] + rest))
      modifies this
      ensures Heard(old(asked), old(calm))
      ensures Valid() && At(NextFix(rest)) && Tally() == old(Tally())
      ensures queue == old(queue) && counter == old(counter) && (calm ==> old(calm))
      ensures old(asked) < asked <= old(asked) + 2
      ensures calm ==> answers(old(asked)) == answers(asked - 1) == Fine
      ensures answers(old(asked)) == answers(asked - 1) == Fine ==> processing == Reworked(old(processing), raw)
      ensures NoFewer(old(processing), processing)
    {
      ghost var todo := [raw] + rest;
      assert todo[1..] == rest;
      RewriteKeepsCopies(processing, raw);
      var reply := Issue(Fix(todo), queue, LPush(processing, updated), counter);
      if reply == Fine {
        RemoveOld(raw, todo, rest);
      }
    }

    method RemoveOld(raw: Raw, ghost todo: seq<Raw>, ghost rest: seq<Raw>)
      requires Valid() && todo == [raw] + rest && At(FixRem(todo))
      modifies this
      ensures Heard(old(asked), old(calm))
      ensures Valid() && At(NextFix(rest)) && Tally() == old(Tally())
      ensures queue == old(queue) && counter == old(counter) && (calm ==> old(calm))
      ensures asked == old(asked) + 1 && (calm ==> answers(old(asked)) == Fine)
      ensures processing == if answers(old(asked)) == FailedBefore then old(processing) else LRem(old(processing), raw)
    {
      assert todo[1..] == rest;
      var _ := Issue(FixRem(todo), queue, LRem(processing, raw), counter);
    }

    /** The catch block: undo the count, then treat every item of the wave. */
    method HandleFailedWave(items: seq<Raw>) returns (threw: bool)
      requires Valid() && AllGood(items) && At(CatchDecr(items))
      modifies this
      ensures Heard(old(asked), old(calm)) && (threw ==> !AllFine(old(asked)))
      ensures Valid() && At(Exited) && queue == old(queue) && Tally() == old(Tally())
      ensures calm ==> old(calm) && !threw
      ensures !threw ==> counter == old(counter) - 1
      ensures calm ==> processing == ReworkedAll(old(processing), items)
    {
      var reply := Issue(CatchDecr(items), queue, processing, counter - 1);
      if reply != Fine {
        return true;
      }
      assert items[..0] == [];
      for i := 0 to |items|
        invariant Heard(old(asked), old(calm))
        invariant Valid() && At(NextFix(items[i..])) && queue == old(queue) && Tally() == old(Tally())
        invariant (calm ==> old(calm)) && counter == old(counter) - 1
        invariant AllGood(items[..i]) && (calm ==> processing == ReworkedAll(old(processing), items[..i]))
      {
        assert items[i..] == [items[i]] + items[i + 1..] && items[i] in items;
        ReworkedAppend(old(processing), items, i);
        HandleDeliveryError(items[i], items[i + 1..]);
      }
      assert items[..|items|] == items;
      return false;
    }

    /** Count the wave; `admitted` says that it is within the cap. */
    method CountWave(items: seq<Raw>) returns (threw: bool, admitted: bool)
      requires Valid() && At(Incr(items))
      modifies this
      ensures Heard(old(asked), old(calm)) && (threw ==> !AllFine(old(asked)))
      ensures Valid() && queue == old(queue) && processing == old(processing) && Tally() == old(Tally())
      ensures threw ==> At(Exited) && !calm
      ensures !threw ==>
                && calm == old(calm) && counter == old(counter) + 1
                && admitted == (counter <= max)
                && At(if admitted then Lookup(items) else CapDecr(items))
    {
      var reply := Issue(Incr(items), queue, processing, counter + 1);
      if reply != Fine {
        return true, false;
      }
      var count := counter;
      if count == 1 {
        reply := Issue(Expire(items), queue, processing, counter);
        if reply != Fine {
          return true, false;
        }
      }
      return false, count <= max;
    }

    /** One pass of the drain loop. */
    method OnePass() returns (pass: Pass)
      requires Valid() && At(Draining([]))
      modifies this
      ensures Heard(old(asked), old(calm)) && (pass == Thrown ==> !AllFine(old(asked)))
      ensures old(waves) <= waves && (pass == WaveFailed ==> HadReason(old(asked), old(waves)))
      ensures Valid() && (calm ==> old(calm))
      ensures pass == Again ==> At(Draining([])) && |queue| < |old(queue)|
      ensures pass != Again ==> At(Exited)
      ensures Shows(pass, old(|sys.failed|)) && Leaves(pass, old(queue), queue)
      ensures pass == Capped ==> queue == Recycled(old(queue))
      ensures calm && Rotates(old(queue), old(counter)) ==>
                && pass == Capped && counter == old(counter)
                && queue == Rotated(old(queue))
    {
      var failed, empty, items := Draw();
      if failed {
        return Thrown;
      }
      if empty {
        return Emptied;
      }
      if items == [] {
        return Again;
      }
      pass := Send(items);
      assert old(queue)[..|old(queue)|] == old(queue);
    }

    /** Draw a batch and parse it; `empty` says that there was none. */
    method Draw() returns (failed: bool, empty: bool, items: seq<Raw>)
      requires Valid() && At(Draining([]))
      modifies this
      ensures Heard(old(asked), old(calm)) && (failed ==> !AllFine(old(asked)))
      ensures Valid() && counter == old(counter) && Tally() == old(Tally())
      ensures failed ==> At(Exited) && !calm
      ensures !failed ==>
                && calm == old(calm) && Drawn(old(queue), queue, items, empty)
                && At(if empty then Exited else NextJunk([], items))
    {
      var batch;
      failed, batch := DrainBatch();
      empty, items := !failed && batch == [], [];
      if !failed && !empty {
        failed, items := ParseBatch(batch);
      }
      if !failed {
        BatchIsDrawn(old(queue), queue, batch);
      }
    }

    /** Count a wave; deliver it if it is within the cap, else give it back. */
    method Send(items: seq<Raw>) returns (pass: Pass)
      requires Valid() && items != [] && AllGood(items) && At(Incr(items))
      modifies this
      ensures Heard(old(asked), old(calm)) && (pass == Thrown ==> !AllFine(old(asked)))
      ensures old(waves) <= waves && (pass == WaveFailed ==> HadReason(old(asked), old(waves)))
      ensures Valid() && (calm ==> old(calm)) && pass != Emptied
      ensures At(if pass == Again then Draining([]) else Exited)
      ensures Shows(pass, old(|sys.failed|))
      ensures pass == Capped ==> queue == Reverse(items) + old(queue) && counter == old(counter)
      ensures pass != Capped && pass != Thrown ==> queue == old(queue)
      ensures calm && old(counter) == max ==> pass == Capped
    {
      var failed, admitted := CountWave(items);
      if failed {
        return Thrown;
      }
      if !admitted {
        failed := GiveBack(items);
        return if failed then Thrown else Capped;
      }
      pass := Dispatch(items);
    }

    /** Deliver an admitted wave, or treat it as failed. */
    method Dispatch(items: seq<Raw>) returns (pass: Pass)
      requires Valid() && items != [] && AllGood(items) && At(Lookup(items))
      modifies this
      ensures Heard(old(asked), old(calm)) && (pass == Thrown ==> !AllFine(old(asked)))
      ensures old(waves) <= waves && (pass == WaveFailed ==> HadReason(old(asked), old(waves)))
      ensures Valid() && queue == old(queue) && (calm ==> old(calm))
      ensures pass == Again || pass == WaveFailed || pass == Thrown
      ensures At(if pass == Again then Draining([]) else Exited)
      ensures Shows(pass, old(|sys.failed|))
    {
      var caught, end := TryWave(items);
      if caught {
        var failed := HandleFailedWave(items);
        return if failed then Thrown else WaveFailed;
      }
      return Again;
    }

    /** A Redis command failed, or the lookup or the parent run of some wave. */
    ghost predicate HadReason(from: nat, wave: nat)
      reads this
    {
      !AllFine(from) || exists n :: wave <= n < waves && FateOf(parents(n)) == Caught
    }

    /** What each way of leaving the loop shows; `failed` is the number of failed waves before. */
    ghost predicate Shows(pass: Pass, failed: nat)
      reads this
    {
      && |sys.failed| >= failed + (if pass == WaveFailed then 1 else 0)
      && (pass == Emptied ==> queue == [])
      && (pass == Capped ==> counter >= max)
      && (pass == Thrown ==> !calm)
    }

    /**
     * Batch drain. It ends whenever nobody pushes meanwhile, since every pass shortens the queue: with
     * the queue empty, at the cap, after a failed wave, or by a Redis error. Without Redis errors it
     * raises the counter by exactly the waves it completed and leaves it within the cap. What it leaves
     * of the queue keeps its relative order: at the cap the last batch it drew is back without its
     * unparseable items, so when the cap was already reached it only turns a sound queue by one batch.
     */
    method DeliverResults() returns (threw: bool, ghost pass: Pass)
      requires Valid() && Resting()
      modifies this
      ensures Heard(old(asked), old(calm)) && (threw ==> !AllFine(old(asked)))
      ensures old(waves) <= waves && (pass == WaveFailed ==> HadReason(old(asked), old(waves)))
      ensures Valid() && At(Exited) && pass != Again && Shows(pass, old(|sys.failed|))
      ensures Leaves(pass, old(queue), queue)
      ensures threw <==> pass == Thrown
      ensures calm ==>
                && old(calm)
                && counter == old(counter) + (sys.completed - old(sys.completed))
                && 0 <= counter <= max
      ensures calm && Rotates(old(queue), old(counter)) ==>
                pass == Capped && queue == Rotated(old(queue)) && counter == old(counter)
    {
      if calm { Account(); }
      Step(Spawn(ME));
      ghost var first := true;
      while true
        invariant Heard(old(asked), old(calm)) && old(waves) <= waves
        invariant Valid() && At(Draining([])) && (calm ==> old(calm)) && |sys.failed| >= old(|sys.failed|)
        invariant queue <= old(queue)
        invariant if first then queue == old(queue) && counter == old(counter)
                  else calm ==> !Rotates(old(queue), old(counter))
        decreases |queue|
      {
        ghost var before := queue;
        var last := OnePass();
        assert last == Capped ==> before == old(queue)[..|before|];
        if last != Again {
          if calm { Account(); }
          return last == Thrown, last;
        }
        first := false;
      }
    }

    /** The cap is reached, and the batch to be drained holds nothing unparseable. */
    ghost predicate Rotates(queue0: RedisList, counter0: int) {
      queue0 != [] && counter0 == max && AllGood(queue0[|queue0| - BatchSize(queue0)..])
    }

    /** Between calls of a calm history the counter is the number of completed waves. */
    lemma Account()
      requires Valid() && Resting() && calm
      ensures counter == sys.completed && 0 <= counter <= max
    {
      CounterCountsCompletedWaves(max, trace);
      CompletedIsTrue(max, trace);
    }

    /** Whatever was called and whatever failed: a published result is in a list or was settled. */
    lemma NothingLost(r: Result)
      requires Valid() && Publish(r) in trace
      ensures
        || Copies(queue, r) + Copies(processing, r) >= 1
        || Met(max, trace, Delivered, r)
        || WavesWith(Waves(max, trace, Caught), r) >= MAX_DELIVERY_ATTEMPTS
        || Met(max, trace, Sessionless, r)
    {
      if Copies(queue, r) == 0 && Copies(processing, r) == 0 {
        GoneMeansSettled(max, trace, r);
      }
    }

    // ---------------------------------------------------------- callers, sweep and publisher

    /**
     * The guards around a delivery: a live parent run or a held lock skips it; else results are
     * delivered, and once more unless the first delivery threw or left the queue empty. `passes` says
     * how each delivery ended.
     */
    method TryDeliverResults(parentActive: bool, lockFree: bool) returns (threw: bool, ghost passes: seq<Pass>)
      requires Valid() && Resting()
      modifies this
      ensures Heard(old(asked), old(calm)) && (threw ==> !AllFine(old(asked)))
      ensures Valid() && Resting() && (calm ==> old(calm))
      ensures parentActive || !lockFree ==>
                passes == [] && trace == old(trace) && queue == old(queue) && processing == old(processing) && !threw
      ensures !parentActive && lockFree ==>
                && 1 <= |passes| <= 2 && Again !in passes
                && At(Exited) && Shows(passes[|passes| - 1], old(|sys.failed|))
                && (threw <==> passes[|passes| - 1] == Thrown)
                && (|passes| == 1 ==> threw || queue == [])
                && (|passes| == 2 ==> passes[0] == Capped || passes[0] == WaveFailed)
                && (passes == [WaveFailed, WaveFailed] ==> |sys.failed| >= old(|sys.failed|) + 2)
      ensures !parentActive && lockFree && calm && Full(old(queue), old(counter)) ==>
                passes == [Capped, Capped] && queue == Rotated(Rotated(old(queue))) && counter == old(counter)
    {
      if parentActive || !lockFree {
        return false, [];
      }
      if Full(queue, counter) {
        RotatesFull(queue, counter);
      }
      ghost var pass;
      threw, pass := DeliverResults();
      passes := [pass];
      if !threw && queue != [] {
        threw, pass := DeliverResults();
        passes := passes + [pass];
      }
    }

    /** The cap is reached, and there are results, all of them sound. */
    ghost predicate Full(queue0: RedisList, counter0: int) {
      queue0 != [] && counter0 == max && AllGood(queue0)
    }

    lemma RotatesFull(queue0: RedisList, counter0: int)
      requires Full(queue0, counter0)
      ensures Rotates(queue0, counter0) && Rotates(Rotated(queue0), counter0)
    {
      assert forall x :: x in Rotated(queue0) ==> x in queue0;
    }

    /**
     * Move everything back to the queue; the periodic sweep skips a session whose lock is held, and
     * a Redis error ends the sweep where it is. Without one nothing stays behind.
     */
    method RequeueProcessing(skipLocked: bool, locked: bool) returns (moved: nat)
      requires Valid() && Resting()
      modifies this
      ensures Valid() && Resting() && counter == old(counter) && calm == old(calm) && old(asked) <= asked
      ensures skipLocked && locked ==> asked == old(asked)
      ensures !(skipLocked && locked) ==> SweepEnded(answers, old(asked), asked, processing)
      ensures moved == Took(answers, old(asked), asked)
      ensures MovedBack(old(processing), old(queue), processing, queue, moved)
    {
      moved := 0;
      if skipLocked && locked {
        return;
      }
      moved := MoveAllBack();
    }

    method MoveAllBack() returns (moved: nat)
      requires Valid() && Resting()
      modifies this
      ensures Valid() && Resting() && counter == old(counter) && calm == old(calm) && old(asked) <= asked
      ensures SweepEnded(answers, old(asked), asked, processing)
      ensures moved == Took(answers, old(asked), asked)
      ensures MovedBack(old(processing), old(queue), processing, queue, moved)
    {
      moved := 0;
      while processing != []
        invariant Valid() && Resting() && counter == old(counter) && calm == old(calm) && old(asked) <= asked
        invariant moved == asked - old(asked) && FineFrom(answers, old(asked), asked)
        invariant MovedBack(old(processing), old(queue), processing, queue, moved)
        decreases |processing|
      {
        OneMoreBack(old(processing), old(queue), processing, queue, moved);
        var reply := MoveBackOne();
        moved := moved + if reply == FailedBefore then 0 else 1;
        if reply != Fine {
          return;
        }
      }
    }

    /** LMOVE from the processing list to the queue. */
    method MoveBackOne() returns (reply: Reply)
      requires Valid() && Resting() && processing != []
      modifies this
      ensures Valid() && Resting() && counter == old(counter) && calm == old(calm)
      ensures asked == old(asked) + 1 && reply == answers(old(asked))
      ensures if reply == FailedBefore then queue == old(queue) && processing == old(processing)
              else processing == Init(old(processing)) && queue == [Tail(old(processing))] + old(queue)
    {
      reply := NextReply();
      if reply != FailedBefore {
        processing, queue := Init(processing), LPush(queue, Tail(processing));
        Step(Sweep);
      }
    }

    method PushOutcome(result: Result) returns (reply: Reply)
      requires Valid()
      modifies this
      ensures Valid() && sys.procs == old(sys.procs)
      ensures processing == old(processing) && counter == old(counter)
      ensures asked == old(asked) + 1 && reply == answers(old(asked))
      ensures queue == (if reply == FailedBefore then [] else [Good(result, 0)]) + old(queue)
      ensures sys.pushed == old(sys.pushed) + if reply == FailedBefore then {} else {result}
    {
      reply := NextReply();
      if reply != FailedBefore {
        queue := LPush(queue, Good(result, 0));
        Step(Publish(result));
      }
    }

    /**
     * Publish the outcome of a run. It always returns; it pushes at most PUBLISH_MAX_ATTEMPTS
     * times and stops at the first push that succeeds; the outcome is on the queue unless the run
     * has no parent session, a lookup failed, or every push failed. A push that failed may have
     * landed: there is one copy for each that did.
     */
    method PublishOutcome(result: Result, isChild: bool, hasSession: bool, lookupsWork: bool)
      returns (end: PublishEnd, ghost replies: seq<Reply>)
      requires Valid()
      modifies this
      ensures Valid() && sys.procs == old(sys.procs)
      ensures queue == Repeat(Good(result, 0), Landed(replies)) + old(queue)
      ensures processing == old(processing) && counter == old(counter)
      ensures asked == old(asked) + |replies| && Tried(answers, old(asked), replies)
      ensures end == Enqueued <==> LastFine(replies)
      ensures end == DeadLetter <==> |replies| == PUBLISH_MAX_ATTEMPTS && !LastFine(replies)
      ensures lookupsWork && isChild && hasSession <==> end == Enqueued || end == DeadLetter
      ensures end == Enqueued ==> Publish(result) in trace
      ensures Landed(replies) <= 1 <==> AtMostOneLanded(replies)
    {
      replies := [];
      AtMostOneCopy(replies);
      if !lookupsWork {
        return LookupFailed, replies;
      }
      if !isChild {
        return NotAChild, replies;
      }
      if !hasSession {
        return NoParentSession, replies;
      }
      var enqueued;
      enqueued, replies := PushUntilFine(result);
      AtMostOneCopy(replies);
      PushedIsPublished(max, trace, result);
      return if enqueued then Enqueued else DeadLetter, replies;
    }

    method PushUntilFine(result: Result) returns (enqueued: bool, ghost replies: seq<Reply>)
      requires Valid()
      modifies this
      ensures Valid() && sys.procs == old(sys.procs)
      ensures OnQueue(old(queue), queue, sys.pushed, result, replies)
      ensures processing == old(processing) && counter == old(counter)
      ensures asked == old(asked) + |replies| && Tried(answers, old(asked), replies)
      ensures enqueued <==> LastFine(replies)
      ensures enqueued || |replies| == PUBLISH_MAX_ATTEMPTS
    {
      replies, enqueued := [], false;
      var attempt := 1;
      while attempt <= PUBLISH_MAX_ATTEMPTS && !enqueued
        invariant 1 <= attempt <= PUBLISH_MAX_ATTEMPTS + 1 && |replies| == attempt - 1
        invariant Valid() && sys.procs == old(sys.procs)
        invariant processing == old(processing) && counter == old(counter)
        invariant OnQueue(old(queue), queue, sys.pushed, result, replies)
        invariant asked == old(asked) + |replies| && Tried(answers, old(asked), replies)
        invariant enqueued <==> LastFine(replies)
      {
        ghost var before, known := queue, sys.pushed;
        var reply := PushOutcome(result);
        OnceMore(answers, old(asked), replies, reply, old(queue), before, known, result);
        replies := replies + [reply];
        enqueued := reply == Fine;
        attempt := attempt + 1;
      }
    }
  }

  lemma ThreeLanded(replies: seq<Reply>)
    requires |replies| == 3 && forall i :: 0 <= i < 3 ==> replies[i] == FailedAfter
    ensures Landed(replies) == 3
  {
    LandedAppend([], FailedAfter);
    LandedAppend([FailedAfter], FailedAfter);
    LandedAppend([FailedAfter, FailedAfter], FailedAfter);
    assert [] + [FailedAfter] == [FailedAfter];
    assert replies == [FailedAfter, FailedAfter] + [FailedAfter];
    assert [FailedAfter] + [FailedAfter] == [FailedAfter, FailedAfter];
  }

  lemma ThreeCopies(x: Raw)
    ensures Repeat(x, 3) + [] == [x, x, x]
  {
    assert Repeat(x, 3)[0] == x && Repeat(x, 3)[1] == x && Repeat(x, 3)[2] == x;
  }

  /** Every push lands but reports a failure: three copies, and the outcome counts as lost. */
  method PublishThrice(max: nat, result: Result)
    returns (d: SessionDelivery, end: PublishEnd)
    ensures fresh(d) && end == DeadLetter && d.queue == [Good(result, 0), Good(result, 0), Good(result, 0)]
  {
    d := new SessionDelivery(max, (n: nat) => FailedAfter, (n: nat) => Parent(Found, true, true));
    ghost var replies;
    end, replies := d.PublishOutcome(result, true, true, true);
    ThreeLanded(replies);
    ThreeCopies(Good(result, 0));
  }
}
