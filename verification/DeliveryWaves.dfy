/**
 * What the history fields of the protocol stand for: which events made a wave dispatched, delivered,
 * sessionless or failed, and which results were published. The laws are stated on those events.
 */
module DeliveryWaves {
  import opened Delivery

  datatype Fate = Sent | Delivered | Sessionless | Caught

  /** The deliverer stands inside the try block of a wave and awaits a command. */
  predicate InTry(p: Proc) {
    p.OrphanRem? || p.OrphanDecr? || p.Announce? || p.DoneRem?
  }

  /**
   * The event sends the wave `items` to its parent run, or ends it: delivered when the run succeeds,
   * sessionless when the lookup finds no session, and caught when the lookup, the run or a command of
   * the try block fails.
   */
  predicate Meets(s: Sys, ev: Event, items: seq<Raw>, fate: Fate) {
    match ev
    case LookedUp(pid, lookup) =>
      && pid in s.procs && s.procs[pid] == Lookup(items)
      && fate == (match lookup case Found => Sent case NoSession => Sessionless case Throws => Caught)
    case RunEnded(pid, ok, _) =>
      && pid in s.procs && s.procs[pid] == Running(items)
      && fate == if ok then Delivered else Caught
    case Command(pid, reply) =>
      && pid in s.procs && InTry(s.procs[pid]) && s.procs[pid].items == items
      && reply != Fine && fate == Caught
    case _ => false
  }

  /** The wave an event may be about. */
  function Subject(s: Sys, ev: Event): seq<Raw> {
    match ev
    case LookedUp(pid, _) => if pid in s.procs && s.procs[pid].Lookup? then s.procs[pid].items else []
    case RunEnded(pid, _, _) => if pid in s.procs && s.procs[pid].Running? then s.procs[pid].items else []
    case Command(pid, _) => if pid in s.procs && InTry(s.procs[pid]) then s.procs[pid].items else []
    case _ => []
  }

  /** The waves that met `fate` during the run, in order. */
  function Waves(max: nat, events: seq<Event>, fate: Fate): seq<seq<Raw>> {
    if events == [] then []
    else
      var s, ev := Run(max, INITIAL, events[..|events| - 1]), events[|events| - 1];
      Waves(max, events[..|events| - 1], fate)
      + if Meets(s, ev, Subject(s, ev), fate) then [Subject(s, ev)] else []
  }

  /** At the i-th event of the run a wave carrying `r` met `fate`. */
  ghost predicate MetAt(max: nat, events: seq<Event>, i: nat, fate: Fate, r: Result)
    requires i < |events|
  {
    exists items :: Meets(Run(max, INITIAL, events[..i]), events[i], items, fate) && InWave(items, r)
  }

  ghost predicate Met(max: nat, events: seq<Event>, fate: Fate, r: Result) {
    exists i :: 0 <= i < |events| && MetAt(max, events, i, fate, r)
  }

  lemma SubjectMeets(s: Sys, ev: Event, items: seq<Raw>, fate: Fate)
    requires Meets(s, ev, items, fate)
    ensures items == Subject(s, ev)
  {
  }

  lemma MetNow(max: nat, events: seq<Event>, i: nat, fate: Fate, r: Result)
    requires i < |events|
    ensures var s, ev := Run(max, INITIAL, events[..i]), events[i];
            MetAt(max, events, i, fate, r) <==> Meets(s, ev, Subject(s, ev), fate) && InWave(Subject(s, ev), r)
  {
    var s, ev := Run(max, INITIAL, events[..i]), events[i];
    if items :| Meets(s, ev, items, fate) && InWave(items, r) {
      SubjectMeets(s, ev, items, fate);
    }
  }

  lemma MetBefore(max: nat, events: seq<Event>, i: nat, n: nat, fate: Fate, r: Result)
    requires i < n <= |events|
    ensures MetAt(max, events[..n], i, fate, r) == MetAt(max, events, i, fate, r)
  {
    assert events[..n][..i] == events[..i];
  }

  lemma MetNext(max: nat, events: seq<Event>, fate: Fate, r: Result)
    requires events != []
    ensures var n := |events| - 1;
            Met(max, events, fate, r) <==> Met(max, events[..n], fate, r) || MetAt(max, events, n, fate, r)
  {
    var n := |events| - 1;
    forall i | 0 <= i < n ensures MetAt(max, events[..n], i, fate, r) == MetAt(max, events, i, fate, r) {
      MetBefore(max, events, i, n, fate, r);
    }
  }

  /** The recorded waves carry `r` iff such an event happened. */
  lemma {:induction false} MetIsRecorded(max: nat, events: seq<Event>, fate: Fate, r: Result)
    ensures WavesWith(Waves(max, events, fate), r) > 0 <==> Met(max, events, fate, r)
  {
    if events != [] {
      var n := |events| - 1;
      var s, ev := Run(max, INITIAL, events[..n]), events[n];
      var before := Waves(max, events[..n], fate);
      MetIsRecorded(max, events[..n], fate, r);
      MetNext(max, events, fate, r);
      MetNow(max, events, n, fate, r);
      WavesAppend(before, Subject(s, ev), r);
      assert before + [] == before;
    }
  }

  // ------------------------------------------------------------ the history fields record just that

  function History(s: Sys, fate: Fate): seq<seq<Raw>> {
    match fate
    case Sent => s.dispatched
    case Delivered => s.succeeded
    case Sessionless => s.sessionless
    case Caught => s.failed
  }

  /** One event adds the wave to the history of its fate, and to no other. */
  predicate Records(s: Sys, ev: Event, s': Sys, fate: Fate) {
    History(s', fate)
    == History(s, fate) + if Meets(s, ev, Subject(s, ev), fate) then [Subject(s, ev)] else []
  }

  lemma EffectRecordsNothing(s: Sys, p: Proc, fate: Fate)
    ensures History(Effect(s, p), fate) == History(s, fate) && Effect(s, p).pushed == s.pushed
  {
  }

  lemma CommandRecords(max: nat, s: Sys, pid: Pid, reply: Reply, fate: Fate)
    requires pid in s.procs && AwaitsCommand(s.procs[pid])
    ensures Records(s, Command(pid, reply), OnReply(max, s, pid, s.procs[pid], reply), fate)
  {
    EffectRecordsNothing(s, s.procs[pid], fate);
  }

  lemma ApplyRecords(max: nat, s: Sys, ev: Event, fate: Fate)
    ensures Records(s, ev, Apply(max, s, ev), fate)
  {
    if ev.Command? && ev.pid in s.procs && AwaitsCommand(s.procs[ev.pid]) {
      CommandRecords(max, s, ev.pid, ev.reply, fate);
    }
  }

  /** Over every run the four histories are exactly the waves that met these fates. */
  lemma {:induction false} HistoryIsTrue(max: nat, events: seq<Event>, fate: Fate)
    ensures History(Run(max, INITIAL, events), fate) == Waves(max, events, fate)
  {
    if events != [] {
      var n := |events| - 1;
      HistoryIsTrue(max, events[..n], fate);
      assert events == events[..n] + [events[n]];
      RunSnoc(max, INITIAL, events[..n], events[n]);
      ApplyRecords(max, Run(max, INITIAL, events[..n]), events[n], fate);
    }
  }

  /** The last item of a delivered wave leaves the processing list. */
  predicate Completion(s: Sys, ev: Event) {
    match ev
    case Command(pid, reply) =>
      && pid in s.procs && reply == Fine
      && ((s.procs[pid].DoneRem? && |s.procs[pid].todo| <= 1) || s.procs[pid] == Announce([]))
    case RunEnded(pid, ok, output) => ok && !output && pid in s.procs && s.procs[pid] == Running([])
    case _ => false
  }

  function Completions(max: nat, events: seq<Event>): nat {
    if events == [] then 0
    else
      var n := |events| - 1;
      Completions(max, events[..n]) + if Completion(Run(max, INITIAL, events[..n]), events[n]) then 1 else 0
  }

  lemma ApplyCompletes(max: nat, s: Sys, ev: Event)
    ensures Apply(max, s, ev).completed == s.completed + if Completion(s, ev) then 1 else 0
  {
  }

  lemma {:induction false} CompletedIsTrue(max: nat, events: seq<Event>)
    ensures Run(max, INITIAL, events).completed == Completions(max, events)
  {
    if events != [] {
      var n := |events| - 1;
      CompletedIsTrue(max, events[..n]);
      assert events == events[..n] + [events[n]];
      RunSnoc(max, INITIAL, events[..n], events[n]);
      ApplyCompletes(max, Run(max, INITIAL, events[..n]), events[n]);
    }
  }

  lemma ApplyPushes(max: nat, s: Sys, ev: Event)
    ensures Apply(max, s, ev).pushed == s.pushed + if ev.Publish? then {ev.result} else {}
  {
    if ev.Command? && ev.pid in s.procs {
      EffectRecordsNothing(s, s.procs[ev.pid], Sent);
    }
  }

  /** The pushed results are the published ones. */
  lemma {:induction false} PushedIsPublished(max: nat, events: seq<Event>, r: Result)
    ensures r in Run(max, INITIAL, events).pushed <==> Publish(r) in events
  {
    if events != [] {
      var n := |events| - 1;
      PushedIsPublished(max, events[..n], r);
      assert events == events[..n] + [events[n]];
      RunSnoc(max, INITIAL, events[..n], events[n]);
      ApplyPushes(max, Run(max, INITIAL, events[..n]), events[n]);
    }
  }
}
