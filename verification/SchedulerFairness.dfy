/** Work conservation and bounded bypass of the round-robin drain. */
module SchedulerFairness {
  import opened Util
  import opened Scheduler
  import opened SchedulerSlots

  // ------------------------------------------------------------ the modular scan

  /** How many rotation positions the scan passes before it reaches position `p`. */
  function Dist(s: State, p: nat): (d: nat)
    requires p < |s.rotation| && s.idx < |s.rotation|
    ensures d < |s.rotation|
  {
    if s.idx <= p then p - s.idx else p + |s.rotation| - s.idx
  }

  lemma ScanPosition(s: State, i: nat)
    requires i < |s.rotation| && s.idx < |s.rotation|
    ensures var p := (s.idx + i) % |s.rotation|; p < |s.rotation| && Dist(s, p) == i
  {
    var n := |s.rotation|;
    if s.idx + i < n {
      assert (s.idx + i) % n == s.idx + i;
    } else {
      assert (s.idx + i) % n == s.idx + i - n;
    }
  }

  lemma {:induction false} ScanFindsNearest(cfg: Config, s: State, i: nat, p: nat)
    requires p < |s.rotation| && s.idx < |s.rotation|
    requires Eligible(cfg, s, s.rotation[p]) && i <= Dist(s, p)
    ensures ScanFrom(cfg, s, i).Some? && Dist(s, ScanFrom(cfg, s, i).value) <= Dist(s, p)
    decreases |s.rotation| - i
  {
    ScanPosition(s, i);
    if !Eligible(cfg, s, s.rotation[(s.idx + i) % |s.rotation|]) {
      ScanFindsNearest(cfg, s, i + 1, p);
    }
  }

  /** The scan reaches every position, and the eligible position it returns is the nearest one. */
  lemma PickIsNearestEligible(cfg: Config, s: State, p: nat)
    requires Wf(s) && p < |s.rotation| && Eligible(cfg, s, s.rotation[p])
    ensures Pick(cfg, s).Some? && Dist(s, Pick(cfg, s).value) <= Dist(s, p)
  {
    ScanFindsNearest(cfg, s, 0, p);
  }

  // ------------------------------------------------------------ work conservation

  /** All slots are taken, or no queued task could be started. */
  ghost predicate Conserved(cfg: Config, s: State) {
    s.count >= cfg.maxConcurrent || forall u :: u in s.queues ==> !Eligible(cfg, s, u)
  }

  lemma {:induction false} DrainConserves(cfg: Config, s: State)
    requires Inv(cfg, s)
    ensures Conserved(cfg, Drain(cfg, s))
    decreases cfg.maxConcurrent - s.count
  {
    if s.count < cfg.maxConcurrent {
      match Pick(cfg, s)
      case Some(p) =>
        StartKeepsInv(cfg, s, p);
        DrainConserves(cfg, Start(s, p));
      case None =>
        forall u | u in s.queues
          ensures !Eligible(cfg, s, u)
        {
          assert u in s.rotation;
          var p :| 0 <= p < |s.rotation| && s.rotation[p] == u;
          if Eligible(cfg, s, u) {
            PickIsNearestEligible(cfg, s, p);
          }
        }
    }
  }

  /** Every turn except a cancellation keeps the scheduler work-conserving, whatever the quotas are. */
  lemma ApplyConserves(cfg: Config, s: State, ev: Event)
    requires Inv(cfg, s) && Conserved(cfg, s) && !ev.Cancel?
    ensures Conserved(cfg, Apply(cfg, s, ev))
  {
    match ev
    case Submit(item) =>
      SubmitConserves(cfg, s, item);
    case RunSettles(h, end) =>
      SameQueues(cfg, s, Apply(cfg, s, ev));
    case PublishReturns(h) =>
      PublishConserves(cfg, s, h);
    case WatchdogFires(h) =>
      WatchdogConserves(cfg, s, h);
  }

  lemma PublishConserves(cfg: Config, s: State, h: nat)
    requires Inv(cfg, s) && Conserved(cfg, s)
    ensures Conserved(cfg, Apply(cfg, s, PublishReturns(h)))
  {
    if h < |s.execs| && s.execs[h].publishing {
      FinalizeConserves(cfg, s, h, s.execs[h].(publishing := false));
    }
  }

  lemma WatchdogConserves(cfg: Config, s: State, h: nat)
    requires Inv(cfg, s) && Conserved(cfg, s)
    ensures Conserved(cfg, Apply(cfg, s, WatchdogFires(h)))
  {
    if h < |s.execs| && s.execs[h].timerArmed {
      FinalizeConserves(cfg, s, h, s.execs[h].(timerArmed := false, settled := true,
                                               outcomes := s.execs[h].outcomes + [Failed]));
    }
  }

  lemma SubmitConserves(cfg: Config, s: State, item: Item)
    requires Inv(cfg, s) && Conserved(cfg, s)
    ensures Conserved(cfg, Apply(cfg, s, Submit(item)))
  {
    if Accepts(cfg, s, item) {
      EnqueueKeepsInv(cfg, s, item);
      DrainConserves(cfg, Enqueue(s, item));
    } else {
      SameQueues(cfg, s, Apply(cfg, s, Submit(item)));
    }
  }

  lemma FinalizeConserves(cfg: Config, s: State, h: nat, e: Exec)
    requires Inv(cfg, s) && h < |s.execs| && s.execs[h].releases == 0
    requires e.item == s.execs[h].item && e.releases == 0 && ExecOk(e.(releases := 1))
    ensures Conserved(cfg, Finalize(cfg, s.(execs := s.execs[h := e]), h))
  {
    ReleaseKeepsInv(cfg, s, h, e);
    DrainConserves(cfg, Release(s.(execs := s.execs[h := e]), h));
  }

  lemma SameQueues(cfg: Config, s: State, s': State)
    requires Conserved(cfg, s)
    requires s'.queues == s.queues && s'.active == s.active && s'.count == s.count
    ensures Conserved(cfg, s')
  {
    forall u | u in s.queues ensures Eligible(cfg, s', u) == Eligible(cfg, s, u) {
    }
  }

  /**
   * A cancellation does not drain. It keeps the scheduler work-conserving exactly when it does not
   * uncover a startable task: all slots are taken, or it did not take the head, or nothing is left
   * behind it, or the task behind it is at its own quota.
   */
  lemma CancelConservesExactly(cfg: Config, s: State, runId: RunId)
    requires Inv(cfg, s) && Conserved(cfg, s) && IsQueued(s, runId)
    ensures
      var u := s.rotation[Holder(s, runId, 0)];
      var queue := QueueOf(s, u);
      Conserved(cfg, Apply(cfg, s, Cancel(runId))) <==>
        || s.count >= cfg.maxConcurrent
        || IndexOf(queue, runId) > 0
        || |queue| == 1
        || ActiveOf(s, u) >= QuotaFor(cfg, queue[1]).maxConcurrent
  {
    var u := s.rotation[Holder(s, runId, 0)];
    var s' := RemoveQueued(s, runId);
    RemoveTouchesOneQueue(s, runId);
    HeadAfterRemove(cfg, s, runId);
    assert u in s'.queues;
    forall v | v != u ensures Eligible(cfg, s', v) == Eligible(cfg, s, v) {
      SameHead(cfg, s, s', v);
    }
  }

  lemma SameHead(cfg: Config, s: State, s': State, v: UserId)
    requires QueueOf(s', v) == QueueOf(s, v) && ActiveOf(s', v) == ActiveOf(s, v)
    ensures Eligible(cfg, s', v) == Eligible(cfg, s, v)
  {
  }

  lemma RemoveTouchesOneQueue(s: State, runId: RunId)
    requires IsQueued(s, runId)
    ensures
      var u := s.rotation[Holder(s, runId, 0)];
      var queue := QueueOf(s, u);
      var i := IndexOf(queue, runId);
      var s' := RemoveQueued(s, runId);
      && u in s.queues && s'.queues.Keys == s.queues.Keys
      && i < |queue| && QueueOf(s', u) == queue[..i] + queue[i + 1..]
      && (forall v :: v != u ==> QueueOf(s', v) == QueueOf(s, v))
      && (forall v :: ActiveOf(s', v) == ActiveOf(s, v))
      && s'.count == s.count && s'.execs == s.execs && s'.rotation == s.rotation
  {
  }

  lemma HeadAfterRemove(cfg: Config, s: State, runId: RunId)
    requires IsQueued(s, runId)
    ensures
      var u := s.rotation[Holder(s, runId, 0)];
      var queue := QueueOf(s, u);
      Eligible(cfg, RemoveQueued(s, runId), u) ==
        if IndexOf(queue, runId) > 0 then Eligible(cfg, s, u)
        else |queue| > 1 && ActiveOf(s, u) < QuotaFor(cfg, queue[1]).maxConcurrent
  {
    RemoveTouchesOneQueue(s, runId);
    var u := s.rotation[Holder(s, runId, 0)];
    var queue := QueueOf(s, u);
    if IndexOf(queue, runId) == 0 {
      assert QueueOf(RemoveQueued(s, runId), u) == queue[1..];
    }
  }

  /** The failing case is reachable: three submissions of one user with two different quotas. */
  lemma CancelCanStrandATask()
    ensures exists cfg, events, runId ::
              Conserved(cfg, Run(cfg, INITIAL, events))
              && !Conserved(cfg, Run(cfg, INITIAL, events + [Cancel(runId)]))
  {
    var cfg := Config(2, 10, Quota(3, 20));
    var a := Item("a", "u", Some(Quota(1, 5)));
    var b := Item("b", "u", Some(Quota(1, 5)));
    var c := Item("c", "u", Some(Quota(2, 5)));
    var s1 := FirstSubmit(cfg, a);
    StuckBehindQuota(cfg, s1, b);
    var s2 := Enqueue(s1, b);
    StuckBehindQuota(cfg, s2, c);
    var s3 := Enqueue(s2, c);
    var events := [Submit(a)] + [Submit(b)] + [Submit(c)];
    RunSnoc(cfg, INITIAL, [], Submit(a));
    assert [] + [Submit(a)] == [Submit(a)];
    RunSnoc(cfg, INITIAL, [Submit(a)], Submit(b));
    RunSnoc(cfg, INITIAL, [Submit(a)] + [Submit(b)], Submit(c));
    assert Run(cfg, INITIAL, events) == s3;
    StrandedBy(cfg, events, s3, b, c);
  }

  lemma StrandedBy(cfg: Config, events: seq<Event>, s: State, b: Item, c: Item)
    requires Run(cfg, INITIAL, events) == s
    requires s.rotation == ["u"] && s.queues.Keys == {"u"} && s.queues["u"] == [b] + [c] && b.runId == "b"
    requires s.count == 1 < cfg.maxConcurrent && ActiveOf(s, "u") == 1
    requires QuotaFor(cfg, b).maxConcurrent == 1 && QuotaFor(cfg, c).maxConcurrent == 2
    ensures Conserved(cfg, Run(cfg, INITIAL, events))
    ensures !Conserved(cfg, Run(cfg, INITIAL, events + [Cancel("b")]))
  {
    RunSnoc(cfg, INITIAL, events, Cancel("b"));
    assert [b] + [c] == [b, c];
    StrandedByCancel(cfg, s, b, c);
  }

  lemma FirstSubmit(cfg: Config, item: Item) returns (s: State)
    requires cfg.maxConcurrent >= 1 && cfg.maxPending >= 1
    requires item.userId == "u" && QuotaFor(cfg, item).maxConcurrent >= 1 && QuotaFor(cfg, item).maxPending >= 1
    ensures s == State(map["u" := []], map["u" := 1], ["u"], 0, 1, [NewExec(item)], [item], [], [])
    ensures s == Apply(cfg, INITIAL, Submit(item))
  {
    var q := Enqueue(INITIAL, item);
    s := Start(q, 0);
    assert q.rotation == ["u"] && ScanFrom(cfg, q, 0) == Some(0);
    assert ScanFrom(cfg, s, 1) == None && ScanFrom(cfg, s, 0) == None;
    assert Drain(cfg, s) == s;
  }

  lemma StrandedByCancel(cfg: Config, s: State, b: Item, c: Item)
    requires s.rotation == ["u"] && s.queues.Keys == {"u"} && s.queues["u"] == [b, c] && b.runId == "b"
    requires s.count == 1 < cfg.maxConcurrent && ActiveOf(s, "u") == 1
    requires QuotaFor(cfg, b).maxConcurrent == 1 && QuotaFor(cfg, c).maxConcurrent == 2
    ensures Conserved(cfg, s) && !Conserved(cfg, Apply(cfg, s, Cancel("b")))
  {
    assert Holder(s, "b", 0) == 0;
    var s' := RemoveQueued(s, "b");
    assert s'.queues["u"] == [c];
    assert Eligible(cfg, s', "u");
  }

  /** With one user whose head is at its quota, an accepted submission only queues. */
  lemma StuckBehindQuota(cfg: Config, s: State, item: Item)
    requires s.rotation == ["u"] && s.queues.Keys == {"u"} && item.userId == "u" && s.idx == 0
    requires Accepts(cfg, s, item)
    requires var queue := s.queues["u"] + [item];
             ActiveOf(s, "u") >= QuotaFor(cfg, queue[0]).maxConcurrent
    ensures Apply(cfg, s, Submit(item)) == Enqueue(s, item)
  {
    var s' := Enqueue(s, item);
    assert s'.rotation == ["u"];
    assert ScanFrom(cfg, s', 1) == None;
    assert ScanFrom(cfg, s', 0) == None;
  }

  lemma {:induction false} RunSnoc(cfg: Config, s: State, events: seq<Event>, ev: Event)
    ensures Run(cfg, s, events + [ev]) == Apply(cfg, Run(cfg, s, events), ev)
    decreases |events|
  {
    if events == [] {
      assert ([] + [ev])[1..] == [];
    } else {
      assert (events + [ev])[1..] == events[1..] + [ev];
      RunSnoc(cfg, Apply(cfg, s, events[0]), events[1..], ev);
    }
  }

  // ------------------------------------------------------------ one quota per user

  /** Every submission of a user carries that user's one concurrency quota. */
  ghost predicate OneQuota(cfg: Config, events: seq<Event>, quota: map<UserId, int>) {
    forall ev :: ev in events && ev.Submit? ==>
      Obeys(cfg, ev.item, quota)
  }

  predicate Obeys(cfg: Config, item: Item, quota: map<UserId, int>) {
    && item.userId in quota
    && quota[item.userId] == match item.userQuota
                             case Some(own) => own.maxConcurrent
                             case None => cfg.userDefault.maxConcurrent
  }

  ghost predicate QueuesObey(cfg: Config, s: State, quota: map<UserId, int>) {
    && (forall u, item :: item in QueueOf(s, u) ==> Obeys(cfg, item, quota))
    && (forall h :: 0 <= h < |s.execs| ==> Obeys(cfg, s.execs[h].item, quota))
  }

  lemma StartObeys(cfg: Config, s: State, quota: map<UserId, int>, p: nat)
    requires QueuesObey(cfg, s, quota)
    requires p < |s.rotation| && QueueOf(s, s.rotation[p]) != []
    ensures QueuesObey(cfg, Start(s, p), quota)
  {
    var s' := Start(s, p);
    forall u, item | item in QueueOf(s', u) ensures Obeys(cfg, item, quota) {
      assert item in QueueOf(s, u);
    }
    assert s.queues[s.rotation[p]][0] in QueueOf(s, s.rotation[p]);
  }

  lemma EnqueueObeys(cfg: Config, s: State, quota: map<UserId, int>, item: Item)
    requires QueuesObey(cfg, s, quota) && Obeys(cfg, item, quota)
    ensures QueuesObey(cfg, Enqueue(s, item), quota)
  {
    var s' := Enqueue(s, item);
    forall u, x | x in QueueOf(s', u) ensures Obeys(cfg, x, quota) {
      assert x == item || x in QueueOf(s, u);
    }
  }

  lemma RemoveObeys(cfg: Config, s: State, quota: map<UserId, int>, runId: RunId)
    requires QueuesObey(cfg, s, quota) && IsQueued(s, runId)
    ensures QueuesObey(cfg, RemoveQueued(s, runId), quota)
  {
    var s' := RemoveQueued(s, runId);
    RemoveTouchesOneQueue(s, runId);
    forall u, item | item in QueueOf(s', u) ensures Obeys(cfg, item, quota) {
      assert item in QueueOf(s, u);
    }
  }

  /** Turns that leave the queues and the started items alone. */
  lemma SameItemsObey(cfg: Config, s: State, s': State, quota: map<UserId, int>)
    requires QueuesObey(cfg, s, quota)
    requires s'.queues == s.queues && |s'.execs| == |s.execs|
    requires forall h :: 0 <= h < |s.execs| ==> s'.execs[h].item == s.execs[h].item
    ensures QueuesObey(cfg, s', quota)
  {
    forall u, item | item in QueueOf(s', u) ensures Obeys(cfg, item, quota) {
      assert item in QueueOf(s, u);
    }
  }

  lemma {:induction false} DrainObeys(cfg: Config, s: State, quota: map<UserId, int>)
    requires Inv(cfg, s) && QueuesObey(cfg, s, quota)
    ensures QueuesObey(cfg, Drain(cfg, s), quota)
    decreases cfg.maxConcurrent - s.count
  {
    if s.count < cfg.maxConcurrent && Pick(cfg, s).Some? {
      var p := Pick(cfg, s).value;
      StartKeepsInv(cfg, s, p);
      StartObeys(cfg, s, quota, p);
      DrainObeys(cfg, Start(s, p), quota);
    }
  }

  lemma ApplyObeys(cfg: Config, s: State, ev: Event, quota: map<UserId, int>)
    requires Inv(cfg, s) && QueuesObey(cfg, s, quota)
    requires ev.Submit? ==> Obeys(cfg, ev.item, quota)
    ensures QueuesObey(cfg, Apply(cfg, s, ev), quota)
  {
    match ev
    case Submit(item) =>
      if Accepts(cfg, s, item) {
        EnqueueKeepsInv(cfg, s, item);
        EnqueueObeys(cfg, s, quota, item);
        DrainObeys(cfg, Enqueue(s, item), quota);
      } else {
        SameItemsObey(cfg, s, Apply(cfg, s, ev), quota);
      }
    case Cancel(runId) =>
      if IsQueued(s, runId) {
        RemoveObeys(cfg, s, quota, runId);
      }
    case RunSettles(h, end) =>
      SameItemsObey(cfg, s, Apply(cfg, s, ev), quota);
    case PublishReturns(h) =>
      if h < |s.execs| && s.execs[h].publishing {
        FinalizeObeys(cfg, s, quota, h, s.execs[h].(publishing := false));
      }
    case WatchdogFires(h) =>
      if h < |s.execs| && s.execs[h].timerArmed {
        FinalizeObeys(cfg, s, quota, h, s.execs[h].(timerArmed := false, settled := true,
                                                    outcomes := s.execs[h].outcomes + [Failed]));
      }
  }

  lemma FinalizeObeys(cfg: Config, s: State, quota: map<UserId, int>, h: nat, e: Exec)
    requires Inv(cfg, s) && QueuesObey(cfg, s, quota)
    requires h < |s.execs| && s.execs[h].releases == 0
    requires e.item == s.execs[h].item && e.releases == 0 && ExecOk(e.(releases := 1))
    ensures QueuesObey(cfg, Finalize(cfg, s.(execs := s.execs[h := e]), h), quota)
  {
    var s1 := Release(s.(execs := s.execs[h := e]), h);
    ReleaseKeepsInv(cfg, s, h, e);
    SameItemsObey(cfg, s, s1, quota);
    DrainObeys(cfg, s1, quota);
  }

  lemma CancelConservesUnderOneQuota(cfg: Config, s: State, runId: RunId, quota: map<UserId, int>)
    requires Inv(cfg, s) && Conserved(cfg, s) && QueuesObey(cfg, s, quota)
    ensures Conserved(cfg, Apply(cfg, s, Cancel(runId)))
  {
    if IsQueued(s, runId) {
      CancelConservesExactly(cfg, s, runId);
      var u := s.rotation[Holder(s, runId, 0)];
      var queue := QueueOf(s, u);
      if |queue| > 1 && s.count < cfg.maxConcurrent {
        assert queue == s.queues[u] && !Eligible(cfg, s, u);
        assert Obeys(cfg, queue[0], quota) && Obeys(cfg, queue[1], quota);
      }
    }
  }

  lemma {:induction false} RunConserves(cfg: Config, s: State, events: seq<Event>, quota: map<UserId, int>)
    requires Inv(cfg, s) && Conserved(cfg, s) && QueuesObey(cfg, s, quota)
    requires OneQuota(cfg, events, quota)
    ensures Conserved(cfg, Run(cfg, s, events)) && QueuesObey(cfg, Run(cfg, s, events), quota)
    decreases |events|
  {
    if events != [] {
      var ev := events[0];
      ApplyKeepsInv(cfg, s, ev);
      ApplyObeys(cfg, s, ev, quota);
      if ev.Cancel? {
        CancelConservesUnderOneQuota(cfg, s, ev.runId, quota);
      } else {
        ApplyConserves(cfg, s, ev);
      }
      RunConserves(cfg, Apply(cfg, s, ev), events[1..], quota);
    }
  }

  lemma {:induction false} LastQuotaObeys(cfg: Config, execs: seq<Exec>, quota: map<UserId, int>, u: UserId)
    requires forall h :: 0 <= h < |execs| ==> Obeys(cfg, execs[h].item, quota)
    ensures LastQuota(cfg, execs, u) == 0 || (u in quota && LastQuota(cfg, execs, u) == Max(0, quota[u]))
  {
    if execs != [] {
      LastQuotaObeys(cfg, execs[..|execs| - 1], quota, u);
    }
  }

  /**
   * With one quota per user, in every reachable state either all global slots are taken or every
   * user with a non-empty queue is at its own cap; and no user ever exceeds its cap.
   */
  lemma WorkConservation(cfg: Config, events: seq<Event>, quota: map<UserId, int>)
    requires OneQuota(cfg, events, quota)
    ensures
      var s := Run(cfg, INITIAL, events);
      && (s.count >= cfg.maxConcurrent
          || forall u :: QueueOf(s, u) != [] ==> u in quota && ActiveOf(s, u) >= quota[u])
      && (forall u :: u in quota ==> ActiveOf(s, u) <= Max(0, quota[u]))
  {
    var s := Run(cfg, INITIAL, events);
    RunKeepsInv(cfg, INITIAL, events);
    RunConserves(cfg, INITIAL, events, quota);
    forall u | u in quota ensures ActiveOf(s, u) <= Max(0, quota[u]) {
      LastQuotaObeys(cfg, s.execs, quota, u);
      assert ActiveOf(s, u) == OpenOf(s.execs, u) <= LastQuota(cfg, s.execs, u);
    }
    if s.count < cfg.maxConcurrent {
      forall u | QueueOf(s, u) != [] ensures u in quota && ActiveOf(s, u) >= quota[u] {
        assert u in s.queues && !Eligible(cfg, s, u);
        assert QueueOf(s, u)[0] in QueueOf(s, u);
        assert Obeys(cfg, QueueOf(s, u)[0], quota) && QueueOf(s, u)[0].userId == u;
      }
    }
  }

  // ------------------------------------------------------------ bounded bypass

  /**
   * The tasks started since the first `k` bypassed the user at position `p` fairly: their users are
   * distinct, each of them now comes after `p` in the scan, and their number plus the distance still
   * to go is within `budget`.
   */
  ghost predicate Bypassed(s: State, k: nat, p: nat, budget: int)
    requires p < |s.rotation| && s.idx < |s.rotation| && k <= |s.execs|
  {
    && (forall i, r | k <= i < |s.execs| && 0 <= r < |s.rotation| ::
          s.rotation[r] == s.execs[i].item.userId ==> Dist(s, r) > Dist(s, p))
    && (forall i, j :: k <= i < j < |s.execs| ==> s.execs[i].item.userId != s.execs[j].item.userId)
    && |s.execs| - k + Dist(s, p) <= budget
  }

  /** The user at position `p` waits with task `head`, ready to be started. */
  ghost predicate Waiting(cfg: Config, s: State, p: nat, head: Item) {
    && p < |s.rotation|
    && Eligible(cfg, s, s.rotation[p])
    && QueueOf(s, s.rotation[p])[0] == head
  }

  /** No task after the first `k` belongs to `u`. */
  ghost predicate NoneOf(execs: seq<Exec>, k: nat, u: UserId) {
    forall i :: k <= i < |execs| ==> execs[i].item.userId != u
  }

  /** The tasks of `s` are the first tasks of `s'`. */
  ghost predicate Grows(s: State, s': State) {
    && |s.execs| <= |s'.execs| && |s.rotation| <= |s'.rotation|
    && (forall h :: 0 <= h < |s.execs| ==> s'.execs[h].item == s.execs[h].item)
    && (forall r :: 0 <= r < |s.rotation| ==> s'.rotation[r] == s.rotation[r])
  }

  lemma {:induction false} DrainGrows(cfg: Config, s: State)
    ensures Grows(s, Drain(cfg, s)) && Drain(cfg, s).rotation == s.rotation
    decreases cfg.maxConcurrent - s.count
  {
    if s.count < cfg.maxConcurrent && Pick(cfg, s).Some? {
      DrainGrows(cfg, Start(s, Pick(cfg, s).value));
    }
  }

  lemma ApplyGrows(cfg: Config, s: State, ev: Event)
    ensures Grows(s, Apply(cfg, s, ev))
  {
    match ev
    case Submit(item) =>
      DrainGrows(cfg, Enqueue(s, item));
    case Cancel(runId) =>
    case RunSettles(h, end) =>
    case PublishReturns(h) =>
      if h < |s.execs| && s.execs[h].publishing {
        var e := s.execs[h].(publishing := false);
        DrainGrows(cfg, Release(s.(execs := s.execs[h := e]), h));
      }
    case WatchdogFires(h) =>
      if h < |s.execs| && s.execs[h].timerArmed {
        var e := s.execs[h].(timerArmed := false, settled := true,
                             outcomes := s.execs[h].outcomes + [Failed]);
        DrainGrows(cfg, Release(s.(execs := s.execs[h := e]), h));
      }
  }

  lemma {:induction false} RunGrows(cfg: Config, s: State, events: seq<Event>)
    ensures Grows(s, Run(cfg, s, events))
    decreases |events|
  {
    if events != [] {
      ApplyGrows(cfg, s, events[0]);
      RunGrows(cfg, Apply(cfg, s, events[0]), events[1..]);
    }
  }

  lemma DistAfterStart(s: State, q: nat, r: nat)
    requires Wf(s) && q < |s.rotation| && r < |s.rotation| && QueueOf(s, s.rotation[q]) != []
    ensures var s' := Start(s, q);
            && s'.rotation == s.rotation && s'.idx < |s.rotation|
            && Dist(s', r) == if Dist(s, r) > Dist(s, q) then Dist(s, r) - Dist(s, q) - 1
                              else Dist(s, r) + |s.rotation| - Dist(s, q) - 1
  {
    NextPosition(|s.rotation|, q);
  }

  lemma NextPosition(n: nat, q: nat)
    requires q < n
    ensures (q + 1) % n == if q + 1 < n then q + 1 else 0
  {
  }

  /** One pick of somebody else: the distance falls strictly, and that user goes to the far end. */
  lemma StartBypasses(cfg: Config, s: State, k: nat, p: nat, budget: int, head: Item)
    requires Inv(cfg, s) && Waiting(cfg, s, p, head) && k <= |s.execs|
    requires Bypassed(s, k, p, budget) && Pick(cfg, s).Some?
    requires NoneOf(Start(s, Pick(cfg, s).value).execs, |s.execs|, s.rotation[p])
    ensures var s' := Start(s, Pick(cfg, s).value);
            && Waiting(cfg, s', p, head) && s'.idx < |s'.rotation| && Bypassed(s', k, p, budget)
            && Dist(s', p) < Dist(s, p)
  {
    var q := Pick(cfg, s).value;
    var s' := Start(s, q);
    var n := |s.execs|;
    assert s.rotation[q] in s.queues;
    assert s'.execs[n].item.userId == s.rotation[q];
    assert q != p;
    PickIsNearestEligible(cfg, s, p);
    assert Dist(s, q) < Dist(s, p);
    DistAfterStart(s, q, p);
    forall i, r | k <= i < |s'.execs| && 0 <= r < |s'.rotation|
                  && s'.rotation[r] == s'.execs[i].item.userId
      ensures Dist(s', r) > Dist(s', p)
    {
      DistAfterStart(s, q, r);
      if i == n {
        assert r == q;
      } else {
        assert s.execs[i] == s'.execs[i];
      }
    }
    assert forall i | k <= i < n :: s.execs[i].item.userId != s.rotation[q];
    forall i, j | k <= i < j < |s'.execs|
      ensures s'.execs[i].item.userId != s'.execs[j].item.userId
    {
      assert s.execs[i] == s'.execs[i];
      if j < n {
        assert s.execs[j] == s'.execs[j];
      }
    }
  }

  lemma {:induction false} DrainBypasses(cfg: Config, s: State, k: nat, p: nat, budget: int, head: Item)
    requires Inv(cfg, s) && Waiting(cfg, s, p, head) && k <= |s.execs|
    requires Bypassed(s, k, p, budget)
    requires NoneOf(Drain(cfg, s).execs, |s.execs|, s.rotation[p])
    ensures var s' := Drain(cfg, s);
            && Waiting(cfg, s', p, head) && s'.idx < |s'.rotation| && k <= |s'.execs|
            && Bypassed(s', k, p, budget)
    decreases cfg.maxConcurrent - s.count
  {
    if s.count < cfg.maxConcurrent && Pick(cfg, s).Some? {
      var s1 := Start(s, Pick(cfg, s).value);
      DrainGrows(cfg, s1);
      StartKeepsInv(cfg, s, Pick(cfg, s).value);
      forall i | |s.execs| <= i < |s1.execs| ensures s1.execs[i].item.userId != s.rotation[p] {
        assert Drain(cfg, s).execs[i].item == s1.execs[i].item;
      }
      StartBypasses(cfg, s, k, p, budget, head);
      DrainBypasses(cfg, s1, k, p, budget, head);
    }
  }

  /** Giving a slot back moves nobody. */
  lemma ReleaseBypasses(cfg: Config, s: State, k: nat, p: nat, budget: int, head: Item, h: nat, e: Exec)
    requires Inv(cfg, s) && Waiting(cfg, s, p, head) && k <= |s.execs| && Bypassed(s, k, p, budget)
    requires h < |s.execs| && e.item == s.execs[h].item
    ensures var s' := Release(s.(execs := s.execs[h := e]), h);
            Waiting(cfg, s', p, head) && s'.idx < |s'.rotation| && Bypassed(s', k, p, budget)
  {
    var s' := Release(s.(execs := s.execs[h := e]), h);
    assert ActiveOf(s, s.rotation[p]) == OpenOf(s.execs, s.rotation[p]);
    forall i | 0 <= i < |s.execs| ensures s'.execs[i].item == s.execs[i].item {
    }
    forall r | 0 <= r < |s.rotation| ensures Dist(s', r) == Dist(s, r) {
    }
  }

  /** A newly appended user adds at most one to the distance, and a known user adds nothing. */
  lemma EnqueueBypasses(cfg: Config, s: State, k: nat, p: nat, budget: int, head: Item, item: Item)
    requires Inv(cfg, s) && Waiting(cfg, s, p, head) && k <= |s.execs| && Bypassed(s, k, p, budget)
    ensures var s' := Enqueue(s, item);
            && Waiting(cfg, s', p, head) && s'.idx < |s'.rotation|
            && Bypassed(s', k, p, budget + |s'.rotation| - |s.rotation|)
  {
    var s' := Enqueue(s, item);
    assert s.rotation[p] in s.queues;
    forall i, r | k <= i < |s'.execs| && 0 <= r < |s'.rotation|
                  && s'.rotation[r] == s'.execs[i].item.userId
      ensures Dist(s', r) > Dist(s', p)
    {
      assert s.execs[i].item.userId in s.queues;
      assert r < |s.rotation| && s.rotation[r] == s.execs[i].item.userId;
      assert Dist(s, r) > Dist(s, p);
    }
  }

  /** The event cancels the task with which the user at `p` waits. */
  predicate CancelsHead(s: State, p: nat, ev: Event)
    requires p < |s.rotation|
  {
    && ev.Cancel? && IsQueued(s, ev.runId)
    && s.rotation[Holder(s, ev.runId, 0)] == s.rotation[p]
    && IndexOf(QueueOf(s, s.rotation[p]), ev.runId) == 0
  }

  /** It does, and leaves no task that could be started in its place: none at all, or one at its own quota. */
  predicate LosesTurn(cfg: Config, s: State, p: nat, ev: Event)
    requires p < |s.rotation|
  {
    && CancelsHead(s, p, ev)
    && var queue := QueueOf(s, s.rotation[p]);
    |queue| <= 1 || ActiveOf(s, s.rotation[p]) >= QuotaFor(cfg, queue[1]).maxConcurrent
  }

  /** From `s` to `s'` the user at `p` kept waiting and the budget grew by the new users only. */
  ghost predicate StillBypassed(
      cfg: Config, s: State, s': State, k: nat, p: nat, budget: int, head: Item)
  {
    && Waiting(cfg, s', p, head) && s'.idx < |s'.rotation| && k <= |s'.execs|
    && |s.rotation| <= |s'.rotation|
    && Bypassed(s', k, p, budget + |s'.rotation| - |s.rotation|)
  }

  lemma ApplyBypasses(cfg: Config, s: State, k: nat, p: nat, budget: int, head: Item, ev: Event)
    requires Inv(cfg, s) && Waiting(cfg, s, p, head) && k <= |s.execs| && Bypassed(s, k, p, budget)
    requires !CancelsHead(s, p, ev)
    requires NoneOf(Apply(cfg, s, ev).execs, |s.execs|, s.rotation[p])
    ensures StillBypassed(cfg, s, Apply(cfg, s, ev), k, p, budget, head)
  {
    match ev
    case Submit(item) => SubmitBypasses(cfg, s, k, p, budget, head, item);
    case Cancel(runId) => CancelBypasses(cfg, s, k, p, budget, head, runId);
    case RunSettles(h, end) => SettleBypasses(cfg, s, k, p, budget, head, h, end);
    case PublishReturns(h) =>
      if h < |s.execs| && s.execs[h].publishing {
        FinalizeBypasses(cfg, s, k, p, budget, head, h, s.execs[h].(publishing := false));
      }
    case WatchdogFires(h) =>
      if h < |s.execs| && s.execs[h].timerArmed {
        FinalizeBypasses(cfg, s, k, p, budget, head, h,
                         s.execs[h].(timerArmed := false, settled := true,
                                     outcomes := s.execs[h].outcomes + [Failed]));
      }
  }

  lemma CancelBypasses(
      cfg: Config, s: State, k: nat, p: nat, budget: int, head: Item, runId: RunId)
    requires Inv(cfg, s) && Waiting(cfg, s, p, head) && k <= |s.execs| && Bypassed(s, k, p, budget)
    requires !CancelsHead(s, p, Cancel(runId))
    ensures StillBypassed(cfg, s, Apply(cfg, s, Cancel(runId)), k, p, budget, head)
  {
    if IsQueued(s, runId) {
      CancelLeavesHead(cfg, s, p, head, runId);
      SameOrder(s, RemoveQueued(s, runId), k, p, budget);
    }
  }

  lemma SettleBypasses(
      cfg: Config, s: State, k: nat, p: nat, budget: int, head: Item, h: nat, end: RunEnd)
    requires Inv(cfg, s) && Waiting(cfg, s, p, head) && k <= |s.execs| && Bypassed(s, k, p, budget)
    ensures StillBypassed(cfg, s, Apply(cfg, s, RunSettles(h, end)), k, p, budget, head)
  {
    SameOrder(s, Apply(cfg, s, RunSettles(h, end)), k, p, budget);
  }

  lemma SubmitBypasses(cfg: Config, s: State, k: nat, p: nat, budget: int, head: Item, item: Item)
    requires Inv(cfg, s) && Waiting(cfg, s, p, head) && k <= |s.execs| && Bypassed(s, k, p, budget)
    requires NoneOf(Apply(cfg, s, Submit(item)).execs, |s.execs|, s.rotation[p])
    ensures StillBypassed(cfg, s, Apply(cfg, s, Submit(item)), k, p, budget, head)
  {
    if Accepts(cfg, s, item) {
      var s1 := Enqueue(s, item);
      EnqueueKeepsInv(cfg, s, item);
      EnqueueBypasses(cfg, s, k, p, budget, head, item);
      DrainGrows(cfg, s1);
      DrainBypasses(cfg, s1, k, p, budget + |s1.rotation| - |s.rotation|, head);
    } else {
      SameOrder(s, Apply(cfg, s, Submit(item)), k, p, budget);
    }
  }

  lemma FinalizeBypasses(cfg: Config, s: State, k: nat, p: nat, budget: int, head: Item, h: nat, e: Exec)
    requires Inv(cfg, s) && Waiting(cfg, s, p, head) && k <= |s.execs| && Bypassed(s, k, p, budget)
    requires h < |s.execs| && s.execs[h].releases == 0
    requires e.item == s.execs[h].item && e.releases == 0 && ExecOk(e.(releases := 1))
    requires NoneOf(Finalize(cfg, s.(execs := s.execs[h := e]), h).execs, |s.execs|, s.rotation[p])
    ensures StillBypassed(cfg, s, Finalize(cfg, s.(execs := s.execs[h := e]), h), k, p, budget, head)
  {
    var s1 := Release(s.(execs := s.execs[h := e]), h);
    ReleaseKeepsInv(cfg, s, h, e);
    ReleaseBypasses(cfg, s, k, p, budget, head, h, e);
    DrainGrows(cfg, s1);
    DrainBypasses(cfg, s1, k, p, budget, head);
  }

  lemma SameOrder(s: State, s': State, k: nat, p: nat, budget: int)
    requires s.idx < |s.rotation| && p < |s.rotation| && k <= |s.execs| && Bypassed(s, k, p, budget)
    requires s'.rotation == s.rotation && s'.idx == s.idx && |s'.execs| == |s.execs|
    requires forall h :: 0 <= h < |s.execs| ==> s'.execs[h].item == s.execs[h].item
    ensures Bypassed(s', k, p, budget)
  {
    forall r | 0 <= r < |s.rotation| ensures Dist(s', r) == Dist(s, r) {
    }
  }

  lemma CancelLeavesHead(cfg: Config, s: State, p: nat, head: Item, runId: RunId)
    requires Waiting(cfg, s, p, head) && IsQueued(s, runId) && !CancelsHead(s, p, Cancel(runId))
    ensures Waiting(cfg, RemoveQueued(s, runId), p, head)
  {
    RemoveTouchesOneQueue(s, runId);
  }

  /** The user at `p` waits, and was bypassed fairly so far. */
  ghost predicate InLine(cfg: Config, s: State, k: nat, p: nat, budget: int) {
    && p < |s.rotation| && s.idx < |s.rotation| && k <= |s.execs|
    && Eligible(cfg, s, s.rotation[p]) && Bypassed(s, k, p, budget)
  }

  /** One event that does not start a task of the waiting user: it keeps its turn unless `LosesTurn`. */
  lemma ApplyKeepsTurn(cfg: Config, s: State, k: nat, p: nat, budget: int, ev: Event)
    requires Inv(cfg, s) && InLine(cfg, s, k, p, budget)
    requires NoneOf(Apply(cfg, s, ev).execs, |s.execs|, s.rotation[p])
    ensures var s' := Apply(cfg, s, ev);
            && Grows(s, s')
            && (Eligible(cfg, s', s.rotation[p]) <==> !LosesTurn(cfg, s, p, ev))
            && (!LosesTurn(cfg, s, p, ev) ==> InLine(cfg, s', k, p, budget + |s'.rotation| - |s.rotation|))
            && (!CancelsHead(s, p, ev) ==> QueueOf(s', s.rotation[p])[..1] == QueueOf(s, s.rotation[p])[..1])
  {
    ApplyGrows(cfg, s, ev);
    if CancelsHead(s, p, ev) {
      CancelledHead(cfg, s, k, p, budget, ev.runId);
    } else {
      HeadStays(cfg, s, k, p, budget, ev);
    }
  }

  lemma HeadStays(cfg: Config, s: State, k: nat, p: nat, budget: int, ev: Event)
    requires Inv(cfg, s) && InLine(cfg, s, k, p, budget) && !CancelsHead(s, p, ev)
    requires NoneOf(Apply(cfg, s, ev).execs, |s.execs|, s.rotation[p])
    requires Grows(s, Apply(cfg, s, ev))
    ensures var s' := Apply(cfg, s, ev);
            && Eligible(cfg, s', s.rotation[p])
            && InLine(cfg, s', k, p, budget + |s'.rotation| - |s.rotation|)
            && QueueOf(s', s.rotation[p])[..1] == QueueOf(s, s.rotation[p])[..1]
  {
    var head := QueueOf(s, s.rotation[p])[0];
    ApplyBypasses(cfg, s, k, p, budget, head, ev);
    StillInLine(cfg, s, Apply(cfg, s, ev), k, p, budget, head);
  }

  lemma CancelledHead(cfg: Config, s: State, k: nat, p: nat, budget: int, runId: RunId)
    requires InLine(cfg, s, k, p, budget) && CancelsHead(s, p, Cancel(runId))
    ensures var s' := RemoveQueued(s, runId);
            && (Eligible(cfg, s', s.rotation[p]) <==> !LosesTurn(cfg, s, p, Cancel(runId)))
            && s'.rotation == s.rotation && s'.idx == s.idx && k <= |s'.execs| && Bypassed(s', k, p, budget)
  {
    RemoveTouchesOneQueue(s, runId);
    HeadAfterRemove(cfg, s, runId);
    SameOrder(s, RemoveQueued(s, runId), k, p, budget);
  }

  lemma StillInLine(cfg: Config, s: State, s': State, k: nat, p: nat, budget: int, head: Item)
    requires StillBypassed(cfg, s, s', k, p, budget, head)
    ensures InLine(cfg, s', k, p, budget + |s'.rotation| - |s.rotation|)
    ensures QueueOf(s', s'.rotation[p])[..1] == [head]
  {
  }

  /** No event of the run takes the waiting user's turn away. */
  ghost predicate KeepsTurn(cfg: Config, s: State, p: nat, events: seq<Event>)
    decreases |events|
  {
    events != [] ==>
      && p < |s.rotation| && !LosesTurn(cfg, s, p, events[0])
      && KeepsTurn(cfg, Apply(cfg, s, events[0]), p, events[1..])
  }

  /** After every event of the run the user at `p` is under its cap with a task to start. */
  ghost predicate WaitsThroughout(cfg: Config, s: State, p: nat, events: seq<Event>)
    decreases |events|
  {
    && p < |s.rotation| && Eligible(cfg, s, s.rotation[p])
    && (events != [] ==> WaitsThroughout(cfg, Apply(cfg, s, events[0]), p, events[1..]))
  }

  /** After every event of the run the user at `p` has a queued task. */
  ghost predicate QueuedThroughout(cfg: Config, s: State, p: nat, events: seq<Event>)
    decreases |events|
  {
    && p < |s.rotation| && QueueOf(s, s.rotation[p]) != []
    && (events != [] ==> QueuedThroughout(cfg, Apply(cfg, s, events[0]), p, events[1..]))
  }

  lemma NoneOfParts(cfg: Config, s: State, events: seq<Event>, u: UserId)
    requires events != [] && NoneOf(Run(cfg, s, events).execs, |s.execs|, u)
    ensures var s1 := Apply(cfg, s, events[0]);
            && NoneOf(s1.execs, |s.execs|, u)
            && NoneOf(Run(cfg, s1, events[1..]).execs, |s1.execs|, u)
  {
    var s1 := Apply(cfg, s, events[0]);
    var s' := Run(cfg, s1, events[1..]);
    ApplyGrows(cfg, s, events[0]);
    RunGrows(cfg, s1, events[1..]);
    forall i | |s.execs| <= i < |s1.execs| ensures s1.execs[i].item.userId != u {
      assert s'.execs[i].item == s1.execs[i].item;
    }
  }

  /** The first event of a run in which the waiting user is not picked. */
  lemma FirstTurn(cfg: Config, s: State, k: nat, p: nat, budget: int, events: seq<Event>)
    requires Inv(cfg, s) && InLine(cfg, s, k, p, budget) && events != []
    requires NoneOf(Run(cfg, s, events).execs, |s.execs|, s.rotation[p])
    ensures var s1 := Apply(cfg, s, events[0]);
            && Inv(cfg, s1) && |s.rotation| <= |s1.rotation| && s1.rotation[p] == s.rotation[p]
            && NoneOf(Run(cfg, s1, events[1..]).execs, |s1.execs|, s.rotation[p])
            && (Eligible(cfg, s1, s.rotation[p]) <==> !LosesTurn(cfg, s, p, events[0]))
            && (!LosesTurn(cfg, s, p, events[0]) ==>
                  InLine(cfg, s1, k, p, budget + |s1.rotation| - |s.rotation|))
  {
    NoneOfParts(cfg, s, events, s.rotation[p]);
    ApplyKeepsInv(cfg, s, events[0]);
    ApplyKeepsTurn(cfg, s, k, p, budget, events[0]);
  }

  lemma {:induction false} WaitsExactly(
      cfg: Config, s: State, k: nat, p: nat, budget: int, events: seq<Event>)
    requires Inv(cfg, s) && InLine(cfg, s, k, p, budget)
    requires NoneOf(Run(cfg, s, events).execs, |s.execs|, s.rotation[p])
    ensures WaitsThroughout(cfg, s, p, events) <==> KeepsTurn(cfg, s, p, events)
    decreases |events|
  {
    if events != [] {
      var s1 := Apply(cfg, s, events[0]);
      FirstTurn(cfg, s, k, p, budget, events);
      if !LosesTurn(cfg, s, p, events[0]) {
        WaitsExactly(cfg, s1, k, p, budget + |s1.rotation| - |s.rotation|, events[1..]);
      }
    }
  }

  lemma {:induction false} RunBypasses(cfg: Config, s: State, k: nat, p: nat, budget: int, events: seq<Event>)
    requires Inv(cfg, s) && InLine(cfg, s, k, p, budget) && KeepsTurn(cfg, s, p, events)
    requires NoneOf(Run(cfg, s, events).execs, |s.execs|, s.rotation[p])
    ensures var s' := Run(cfg, s, events);
            InLine(cfg, s', k, p, budget + |s'.rotation| - |s.rotation|)
    decreases |events|
  {
    if events != [] {
      var s1 := Apply(cfg, s, events[0]);
      FirstTurn(cfg, s, k, p, budget, events);
      RunBypasses(cfg, s1, k, p, budget + |s1.rotation| - |s.rotation|, events[1..]);
    }
  }

  /** While the user at `p` waited: everybody else was picked at most once, and not more often than allowed. */
  ghost predicate FairlyBypassed(s: State, s': State, p: nat)
    requires p < |s.rotation| && s.idx < |s.rotation|
  {
    && (forall i, j :: |s.execs| <= i < j < |s'.execs| ==>
          s'.execs[i].item.userId != s'.execs[j].item.userId)
    && |s'.execs| - |s.execs| <= Dist(s, p) + |s'.rotation| - |s.rotation| < |s'.rotation|
  }

  /**
   * Bounded bypass over every run, whatever the quotas: a user that waits under its cap and is not
   * picked stays so after every event iff no cancellation takes its head and leaves no task it could
   * start instead. As long as it does, every other user is picked at most once, and the number of
   * picks is at most the distance of the scan to `p` plus the number of users that appeared meanwhile.
   */
  lemma BoundedBypass(cfg: Config, s: State, p: nat, events: seq<Event>)
    requires Inv(cfg, s) && p < |s.rotation| && Eligible(cfg, s, s.rotation[p])
    requires NoneOf(Run(cfg, s, events).execs, |s.execs|, s.rotation[p])
    ensures WaitsThroughout(cfg, s, p, events) <==> KeepsTurn(cfg, s, p, events)
    ensures KeepsTurn(cfg, s, p, events) ==>
              Eligible(cfg, Run(cfg, s, events), s.rotation[p]) && FairlyBypassed(s, Run(cfg, s, events), p)
  {
    WaitsExactly(cfg, s, |s.execs|, p, Dist(s, p), events);
    RunGrows(cfg, s, events);
    if KeepsTurn(cfg, s, p, events) {
      RunBypasses(cfg, s, |s.execs|, p, Dist(s, p), events);
    }
  }

  /** With one quota the task behind the head can be started whenever the head can. */
  lemma TurnUnderOneQuota(cfg: Config, s: State, p: nat, ev: Event, quota: map<UserId, int>)
    requires p < |s.rotation| && Eligible(cfg, s, s.rotation[p]) && QueuesObey(cfg, s, quota)
    requires forall item :: item in QueueOf(s, s.rotation[p]) ==> item.userId == s.rotation[p]
    ensures LosesTurn(cfg, s, p, ev) <==> CancelsHead(s, p, ev) && |QueueOf(s, s.rotation[p])| == 1
  {
    var queue := QueueOf(s, s.rotation[p]);
    if |queue| > 1 {
      assert queue[0] in queue && queue[1] in queue;
      assert Obeys(cfg, queue[0], quota) && Obeys(cfg, queue[1], quota);
    }
  }

  lemma {:induction false} TurnsUnderOneQuota(
      cfg: Config, s: State, k: nat, p: nat, budget: int, events: seq<Event>, quota: map<UserId, int>)
    requires Inv(cfg, s) && InLine(cfg, s, k, p, budget) && QueuesObey(cfg, s, quota)
    requires OneQuota(cfg, events, quota)
    requires NoneOf(Run(cfg, s, events).execs, |s.execs|, s.rotation[p])
    ensures KeepsTurn(cfg, s, p, events) <==> QueuedThroughout(cfg, s, p, events)
    decreases |events|
  {
    if events != [] {
      var s1 := Apply(cfg, s, events[0]);
      FirstTurn(cfg, s, k, p, budget, events);
      ApplyObeys(cfg, s, events[0], quota);
      OwnQueue(cfg, s, p);
      TurnUnderOneQuota(cfg, s, p, events[0], quota);
      if LosesTurn(cfg, s, p, events[0]) {
        RemoveTouchesOneQueue(s, events[0].runId);
      } else {
        TurnsUnderOneQuota(cfg, s1, k, p, budget + |s1.rotation| - |s.rotation|, events[1..], quota);
      }
    }
  }

  lemma OwnQueue(cfg: Config, s: State, p: nat)
    requires Inv(cfg, s) && p < |s.rotation|
    ensures forall item :: item in QueueOf(s, s.rotation[p]) ==> item.userId == s.rotation[p]
  {
  }

  /**
   * With one quota per user, a waiting user keeps its turn until it is picked or its queue is emptied
   * by cancellations, whichever of its tasks they take: after every event it is under its cap iff it
   * has a queued task. Meanwhile it is bypassed fairly.
   */
  lemma BoundedBypassUnderOneQuota(cfg: Config, s: State, p: nat, events: seq<Event>, quota: map<UserId, int>)
    requires Inv(cfg, s) && p < |s.rotation| && Eligible(cfg, s, s.rotation[p])
    requires QueuesObey(cfg, s, quota) && OneQuota(cfg, events, quota)
    requires NoneOf(Run(cfg, s, events).execs, |s.execs|, s.rotation[p])
    ensures WaitsThroughout(cfg, s, p, events) <==> QueuedThroughout(cfg, s, p, events)
    ensures QueuedThroughout(cfg, s, p, events) ==>
              Eligible(cfg, Run(cfg, s, events), s.rotation[p]) && FairlyBypassed(s, Run(cfg, s, events), p)
  {
    BoundedBypass(cfg, s, p, events);
    TurnsUnderOneQuota(cfg, s, |s.execs|, p, Dist(s, p), events, quota);
  }

  /** A submission that finds all slots taken only queues. */
  lemma FullQueues(cfg: Config, s: State, item: Item)
    requires s.count >= cfg.maxConcurrent && Accepts(cfg, s, item)
    ensures Apply(cfg, s, Submit(item)) == Enqueue(s, item)
  {
  }

  /**
   * With two quotas a user can lose its turn and still have a task: cancelling its head uncovers a task
   * at its own quota. Reached by three submissions of one user to a scheduler with one slot.
   */
  lemma CancelCanLoseATurn(cfg: Config, events: seq<Event>)
    requires cfg == Config(1, 10, Quota(3, 20))
    requires events == [Submit(Item("a", "u", Some(Quota(2, 5))))] + [Submit(Item("b", "u", Some(Quota(2, 5))))]
                       + [Submit(Item("c", "u", Some(Quota(1, 5))))]
    ensures var s := Run(cfg, INITIAL, events);
            && s.rotation == ["u"] && Eligible(cfg, s, "u") && LosesTurn(cfg, s, 0, Cancel("b"))
            && QueueOf(Apply(cfg, s, Cancel("b")), "u") == [Item("c", "u", Some(Quota(1, 5)))]
            && !Eligible(cfg, Apply(cfg, s, Cancel("b")), "u")
  {
    var a := Item("a", "u", Some(Quota(2, 5)));
    var b := Item("b", "u", Some(Quota(2, 5)));
    var c := Item("c", "u", Some(Quota(1, 5)));
    var s1 := FirstSubmit(cfg, a);
    FullQueues(cfg, s1, b);
    var s2 := Enqueue(s1, b);
    FullQueues(cfg, s2, c);
    RunSnoc(cfg, INITIAL, [], Submit(a));
    assert [] + [Submit(a)] == [Submit(a)];
    RunSnoc(cfg, INITIAL, [Submit(a)], Submit(b));
    RunSnoc(cfg, INITIAL, [Submit(a)] + [Submit(b)], Submit(c));
    assert [] + [b] == [b] && [b] + [c] == [b, c];
    TurnLostByCancel(cfg, Enqueue(s2, c), b, c);
  }

  lemma TurnLostByCancel(cfg: Config, s: State, b: Item, c: Item)
    requires s.rotation == ["u"] && s.queues.Keys == {"u"} && s.queues["u"] == [b, c] && b.runId == "b"
    requires ActiveOf(s, "u") == 1
    requires QuotaFor(cfg, b).maxConcurrent == 2 && QuotaFor(cfg, c).maxConcurrent == 1
    ensures Eligible(cfg, s, "u") && LosesTurn(cfg, s, 0, Cancel("b"))
    ensures QueueOf(Apply(cfg, s, Cancel("b")), "u") == [c] && !Eligible(cfg, Apply(cfg, s, Cancel("b")), "u")
  {
    assert Holder(s, "b", 0) == 0;
    assert RemoveQueued(s, "b").queues["u"] == [c];
  }
}
