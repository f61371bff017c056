/** What becomes of request rows and of remembered decisions over a run. */
module ApprovalDecisions {
  import opened Util
  import opened ApprovalTypes
  import opened ApprovalMemory
  import opened Approval
  import opened ApprovalSafety

  // ------------------------------------------------------------ request rows

  predicate IsClosed(s: State, row: RowId) {
    row in s.rows && s.rows[row].status != PENDING
  }

  lemma ApplyKeepsClosedRow(s: State, e: Event, row: RowId)
    requires IsClosed(s, row)
    ensures IsClosed(Apply(s, e), row) && Apply(s, e).rows[row] == s.rows[row]
  {
    if Quiet(e) {
      QuietKeepsBooks(s, e);
    } else {
      LoudKeepsClosedRow(s, e, row);
    }
  }

  lemma LoudKeepsClosedRow(s: State, e: Event, row: RowId)
    requires IsClosed(s, row) && !Quiet(e)
    ensures IsClosed(Apply(s, e), row) && Apply(s, e).rows[row] == s.rows[row]
  {
    if e.Restart? {
      assert RestartStep(s).rows[row] == Swept(s.rows[row]);
    }
  }

  /** A row leaves PENDING at most once: closed, it keeps its status and what it remembers for good. */
  lemma {:induction false} ClosedForGood(s: State, events: seq<Event>, row: RowId)
    requires IsClosed(s, row)
    ensures IsClosed(Run(s, events), row) && Run(s, events).rows[row] == s.rows[row]
  {
    if events != [] {
      ClosedForGood(s, events[..|events| - 1], row);
      ApplyKeepsClosedRow(Run(s, events[..|events| - 1]), events[|events| - 1], row);
    }
  }

  // ------------------------------------------------------------ standing decisions

  /** A step that stores an answer for exactly this subject, or revokes it. */
  predicate ChangesStanding(s: State, e: Event, subject: Subject) {
    || (e.Keep? && IsGated(s, e.id) && s.gates[e.id].phase.Storing? && SubjectOf(s.gates[e.id].input) == subject)
    || (e.Revoke? && e.row in s.rows && s.rows[e.row].store == Some(PersistentStore)
        && Subject(e.user, SplitKey(s.rows[e.row].key).0, SplitKey(s.rows[e.row].key).1) == subject)
  }

  lemma StandingStep(s: State, e: Event, subject: Subject)
    requires !ChangesStanding(s, e, subject)
    ensures StandingIn(Apply(s, e).standing, subject) == StandingIn(s.standing, subject)
  {
    if !e.Keep? && !e.Revoke? {
      StandingKept(s, e);
    }
  }

  predicate LeavesStanding(s: State, events: seq<Event>, subject: Subject) {
    forall i :: 0 <= i < |events| ==> !ChangesStanding(Run(s, events[..i]), events[i], subject)
  }

  lemma {:induction false} StandingStays(s: State, events: seq<Event>, subject: Subject)
    requires LeavesStanding(s, events, subject)
    ensures StandingIn(Run(s, events).standing, subject) == StandingIn(s.standing, subject)
  {
    if events != [] {
      var n := |events| - 1;
      LeavesPrefix(s, events, subject);
      StandingStays(s, events[..n], subject);
      assert !ChangesStanding(Run(s, events[..n]), events[n], subject);
      StandingStep(Run(s, events[..n]), events[n], subject);
    }
  }

  lemma LeavesPrefix(s: State, events: seq<Event>, subject: Subject)
    requires LeavesStanding(s, events, subject) && events != []
    ensures LeavesStanding(s, events[..|events| - 1], subject)
  {
    var init := events[..|events| - 1];
    forall i | 0 <= i < |init| ensures !ChangesStanding(Run(s, init[..i]), init[i], subject) {
      assert init[..i] == events[..i];
    }
  }

  /** A call waits to decide only after its own fetch, and nothing else changes what it fetched. */
  lemma DecidingWasFetched(s: State, e: Event, id: GateId)
    requires IsGated(Apply(s, e), id) && Apply(s, e).gates[id].phase.Deciding?
    ensures IsGated(s, id)
    ensures s.gates[id] == Apply(s, e).gates[id] || (e == Fetch(id) && s.gates[id].phase.Fetching?)
  {
    if !IsGated(s, id) {
      OpenIsFetching(s, e, id);
    } else if e.Restart? {
      RestartSteps(s, id);
    } else {
      ApplySteps(s, e, id);
      if Mover(s, e) == Some(id) {
        OwnStepDecides(s, e, id);
      }
    }
  }

  lemma OpenIsFetching(s: State, e: Event, id: GateId)
    requires !IsGated(s, id) && IsGated(Apply(s, e), id)
    ensures Apply(s, e).gates[id].phase == Fetching
  {
    if !e.Open? {
      KindStays(s, e, id);
    }
  }

  lemma OwnStepDecides(s: State, e: Event, id: GateId)
    requires IsGated(s, id) && Mover(s, e) == Some(id)
    requires IsGated(Apply(s, e), id) && Apply(s, e).gates[id].phase.Deciding?
    ensures s.gates[id] == Apply(s, e).gates[id] || (e == Fetch(id) && s.gates[id].phase.Fetching?)
  {
    if e.Settle? || e.Keep? || e.Close? || e.Throws? || e.Execute? {
      LateStepsLeaveDeciding(s, e, id);
    } else {
      EarlyStepsLeaveDeciding(s, e, id);
    }
  }

  lemma LateStepsLeaveDeciding(s: State, e: Event, id: GateId)
    requires IsGated(s, id) && Mover(s, e) == Some(id)
    requires e.Settle? || e.Keep? || e.Close? || e.Throws? || e.Execute?
    requires IsGated(Apply(s, e), id) && Apply(s, e).gates[id].phase.Deciding?
    ensures s.gates[id] == Apply(s, e).gates[id]
  {
  }

  lemma EarlyStepsLeaveDeciding(s: State, e: Event, id: GateId)
    requires IsGated(s, id) && Mover(s, e) == Some(id)
    requires !e.Settle? && !e.Keep? && !e.Close? && !e.Throws? && !e.Execute?
    requires IsGated(Apply(s, e), id) && Apply(s, e).gates[id].phase.Deciding?
    ensures s.gates[id] == Apply(s, e).gates[id] || (e == Fetch(id) && s.gates[id].phase.Fetching?)
  {
  }

  /** The decision is about the call: its own resource, or the tool whatever the resource. */
  predicate Covers(subject: Subject, input: Input) {
    subject.user == input.user && subject.tool == input.tool && subject.resource in Levels(input.resource)
  }

  /** What a call opened during the run has fetched is the standing decision. */
  lemma {:induction false} FetchSeesStanding(s: State, events: seq<Event>, subject: Subject, id: GateId)
    requires LeavesStanding(s, events, subject) && id !in s.gates
    requires var s' := Run(s, events);
             IsGated(s', id) && s'.gates[id].phase.Deciding? && Covers(subject, s'.gates[id].input)
    ensures RowAt(Run(s, events).gates[id].phase.rows, subject.resource) == StandingIn(s.standing, subject)
  {
    if events != [] {
      var n := |events| - 1;
      var before := Run(s, events[..n]);
      LeavesPrefix(s, events, subject);
      DecidingWasFetched(before, events[n], id);
      if before.gates[id] == Run(s, events).gates[id] {
        FetchSeesStanding(s, events[..n], subject, id);
      } else {
        StandingStays(s, events[..n], subject);
      }
    }
  }

  /** The verdict on the call's own resource, where it overrides one at the more general `level`. */
  function Overridden(
      memory: SessionMemory, rows: Rows, input: Input, level: string, now: int): Option<Decision>
  {
    if level == input.resource then None
    else Verdict(memory, rows, input.session, input.tool, input.resource, now)
  }

  /** Where a verdict at one of the call's levels leads: to that answer, unless a more specific one overrides it. */
  lemma LevelAnswers(memory: SessionMemory, rows: Rows, input: Input, level: string, now: int)
    requires !input.extractorFailed && level in Levels(input.resource)
    requires Verdict(memory, rows, input.session, input.tool, level, now).Some?
    ensures var result := Lookup(memory, rows, input, now).0;
            var over := Overridden(memory, rows, input, level, now);
            && result.Found?
            && Some(result.hit.decision)
               == if over.Some? then over else Verdict(memory, rows, input.session, input.tool, level, now)
  {
    LookupFollowsPrecedence(memory, rows, input.session, input.tool, input.resource, now);
    assert level == input.resource || level == "";
  }

  /**
   * A standing decision, on the call's own resource or on the tool in general, answers every later
   * call it covers until a step stores or revokes it: in its own direction, unless the session has a
   * live denial under the same key, or the call's own resource has a verdict that is more specific.
   */
  lemma StandingDecisionAnswers(s: State, events: seq<Event>, subject: Subject, id: GateId, now: int)
    requires LeavesStanding(s, events, subject) && id !in s.gates && subject in s.standing
    requires var s' := Run(s, events);
             IsGated(s', id) && s'.gates[id].phase.Deciding? && Covers(subject, s'.gates[id].input)
    requires !Run(s, events).gates[id].input.extractorFailed
    ensures var s' := Run(s, events);
            var input, rows := s'.gates[id].input, s'.gates[id].phase.rows;
            var denied := Visible(s'.memory, input.session, MemoryKey(input.tool, subject.resource), now) == Some(Deny);
            var over := Overridden(s'.memory, rows, input, subject.resource, now);
            var result := Lookup(s'.memory, rows, input, now).0;
            && result.Found?
            && result.hit.decision == if over.Some? then over.value else if denied then Deny else s.standing[subject]
  {
    var s' := Run(s, events);
    var input := s'.gates[id].input;
    var rows := s'.gates[id].phase.rows;
    FetchSeesStanding(s, events, subject, id);
    FetchedVerdict(s'.memory, rows, input, subject.resource, now, s.standing[subject]);
    LevelAnswers(s'.memory, rows, input, subject.resource, now);
  }

  // ------------------------------------------------------------ session decisions

  /** The step writes, removes or finds expired the entry of `sid` under `key`. */
  predicate DisturbsSession(s: State, e: Event, sid: SessionId, key: Key) {
    match e
    case Settle(id, _) =>
      && IsGated(s, id) && s.gates[id].phase.Settling? && WritesSession(s.gates[id].input, s.gates[id].phase.answer)
      && s.gates[id].input.session == sid && KeyOf(s.gates[id].input) == key
    case Revoke(row, _) => row in s.rows && s.rows[row].session == sid && s.rows[row].key == key
    case Clear(session) => session == sid
    case Restart => true
    case Look(id, now) =>
      && IsGated(s, id) && s.gates[id].input.session == sid
      && EntryAt(s.memory, sid, key).Some? && Expired(EntryAt(s.memory, sid, key).value, now)
    case _ => false
  }

  function DecisionAt(memory: SessionMemory, sid: SessionId, key: Key): Option<Decision> {
    match EntryAt(memory, sid, key)
    case None => None
    case Some(e) => Some(e.decision)
  }

  lemma LookKeepsDecision(s: State, id: GateId, now: int, sid: SessionId, key: Key)
    requires !DisturbsSession(s, Look(id, now), sid, key)
    ensures DecisionAt(LookStep(s, id, now).memory, sid, key) == DecisionAt(s.memory, sid, key)
  {
    if IsGated(s, id) && s.gates[id].phase.Deciding? {
      var input := s.gates[id].input;
      LookupSlides(s.memory, s.gates[id].phase.rows, input.session, input.tool, input.resource, now, sid, key);
    }
  }

  lemma WrittenElsewhere(memory: SessionMemory, sid: SessionId, key: Key, e: SessionEntry, sid': SessionId, key': Key)
    requires sid != sid' || key != key'
    ensures EntryAt(WithEntry(memory, sid, key, e), sid', key') == EntryAt(memory, sid', key')
    ensures EntryAt(WithoutEntry(memory, sid, key), sid', key') == EntryAt(memory, sid', key')
  {
  }

  lemma SessionStep(s: State, e: Event, sid: SessionId, key: Key)
    requires !DisturbsSession(s, e, sid, key)
    ensures DecisionAt(Apply(s, e).memory, sid, key) == DecisionAt(s.memory, sid, key)
  {
    match e
    case Look(id, now) => LookKeepsDecision(s, id, now, sid, key);
    case Settle(id, now) => SettleElsewhere(s, id, now, sid, key);
    case Revoke(row, user) =>
      if row in s.rows {
        WrittenElsewhere(s.memory, s.rows[row].session, s.rows[row].key, SessionEntry(Deny, 0), sid, key);
      }
    case _ => OtherKeepsMemory(s, e, sid, key);
  }

  lemma OtherKeepsMemory(s: State, e: Event, sid: SessionId, key: Key)
    requires !DisturbsSession(s, e, sid, key) && !e.Look? && !e.Settle? && !e.Revoke?
    ensures DecisionAt(Apply(s, e).memory, sid, key) == DecisionAt(s.memory, sid, key)
  {
    if Quiet(e) {
      QuietKeepsBooks(s, e);
    }
  }

  lemma SettleElsewhere(s: State, id: GateId, now: int, sid: SessionId, key: Key)
    requires !DisturbsSession(s, Settle(id, now), sid, key)
    ensures EntryAt(SettleStep(s, id, now).memory, sid, key) == EntryAt(s.memory, sid, key)
  {
    if IsGated(s, id) && s.gates[id].phase.Settling? {
      var input, answer := s.gates[id].input, s.gates[id].phase.answer;
      if WritesSession(input, answer) {
        WrittenElsewhere(s.memory, input.session, KeyOf(input), SessionEntry(Direction(answer.choice), now), sid, key);
      }
    }
  }

  predicate LeavesSession(s: State, events: seq<Event>, sid: SessionId, key: Key) {
    forall i :: 0 <= i < |events| ==> !DisturbsSession(Run(s, events[..i]), events[i], sid, key)
  }

  lemma {:induction false} SessionStays(s: State, events: seq<Event>, sid: SessionId, key: Key)
    requires LeavesSession(s, events, sid, key)
    ensures DecisionAt(Run(s, events).memory, sid, key) == DecisionAt(s.memory, sid, key)
  {
    if events != [] {
      var n := |events| - 1;
      forall i | 0 <= i < n ensures !DisturbsSession(Run(s, events[..n][..i]), events[..n][i], sid, key) {
        assert events[..n][..i] == events[..i];
      }
      SessionStays(s, events[..n], sid, key);
      SessionStep(Run(s, events[..n]), events[n], sid, key);
    }
  }

  /**
   * A session decision, on the call's own resource or on the tool in general, answers every later call
   * of its session that it covers, as long as its entry has not expired and until a step writes,
   * revokes or clears it: in its own direction, unless a standing denial was fetched for the same
   * level, or the call's own resource has a verdict that is more specific.
   */
  lemma SessionDecisionAnswers(s: State, events: seq<Event>, sid: SessionId, level: string, id: GateId, now: int)
    requires IsGated(Run(s, events), id)
    requires var g := Run(s, events).gates[id];
             var key := MemoryKey(g.input.tool, level);
             && g.phase.Deciding? && g.input.session == sid && sid != "" && !g.input.extractorFailed
             && level in Levels(g.input.resource)
             && LeavesSession(s, events, sid, key)
             && EntryAt(s.memory, sid, key).Some?
             && EntryAt(Run(s, events).memory, sid, key).Some?
             && !Expired(EntryAt(Run(s, events).memory, sid, key).value, now)
    ensures var s' := Run(s, events);
            var g := s'.gates[id];
            var d := EntryAt(s.memory, sid, MemoryKey(g.input.tool, level)).value.decision;
            var over := Overridden(s'.memory, g.phase.rows, g.input, level, now);
            var result := Lookup(s'.memory, g.phase.rows, g.input, now).0;
            && result.Found?
            && result.hit.decision
               == if over.Some? then over.value else if RowAt(g.phase.rows, level) == Some(Deny) then Deny else d
  {
    var s' := Run(s, events);
    var g := s'.gates[id];
    SessionStays(s, events, sid, MemoryKey(g.input.tool, level));
    LiveEntryVerdict(s'.memory, g.phase.rows, g.input, level, now);
    LevelAnswers(s'.memory, g.phase.rows, g.input, level, now);
  }

  lemma LiveEntryVerdict(memory: SessionMemory, rows: Rows, input: Input, level: string, now: int)
    requires input.session != "" && EntryAt(memory, input.session, MemoryKey(input.tool, level)).Some?
    requires !Expired(EntryAt(memory, input.session, MemoryKey(input.tool, level)).value, now)
    ensures Verdict(memory, rows, input.session, input.tool, level, now)
         == Some(if RowAt(rows, level) == Some(Deny) then Deny
                 else EntryAt(memory, input.session, MemoryKey(input.tool, level)).value.decision)
  {
    var e := EntryAt(memory, input.session, MemoryKey(input.tool, level)).value;
    assert Visible(memory, input.session, MemoryKey(input.tool, level), now) == Some(e.decision);
    assert e.decision == Allow || e.decision == Deny;
  }

  lemma FetchedVerdict(memory: SessionMemory, rows: Rows, input: Input, level: string, now: int, d: Decision)
    requires RowAt(rows, level) == Some(d)
    ensures Verdict(memory, rows, input.session, input.tool, level, now)
         == Some(if Visible(memory, input.session, MemoryKey(input.tool, level), now) == Some(Deny) then Deny else d)
  {
    assert d == Allow || d == Deny;
  }

  /** Session memory gains or changes a decision only by a settled `session` choice that was on offer. */
  lemma SessionWritesAreEarned(s: State, e: Event, sid: SessionId, key: Key)
    requires Inv(s) && DecisionAt(Apply(s, e).memory, sid, key).Some?
    requires DecisionAt(Apply(s, e).memory, sid, key) != DecisionAt(s.memory, sid, key)
    ensures e.Settle? && IsGated(s, e.id) && s.gates[e.id].phase.Settling?
    ensures var g := s.gates[e.id];
            && WritesSession(g.input, g.phase.answer) && g.input.session == sid && KeyOf(g.input) == key
            && !g.input.extractorFailed && CanAsk(g.input)
            && DecisionAt(Apply(s, e).memory, sid, key) == Some(Direction(g.phase.answer.choice))
  {
    GainMeansSettle(s, e, sid, key);
    var g := s.gates[e.id];
    assert GateOk(s, e.id, g.input, g.phase);
    OffersAreBounded(g.input.kind, g.input.extractorFailed, g.phase.answer.choice);
    OfferedStays(g.input, g.phase.answer.choice);
  }

  lemma GainMeansSettle(s: State, e: Event, sid: SessionId, key: Key)
    requires DecisionAt(Apply(s, e).memory, sid, key).Some?
    requires DecisionAt(Apply(s, e).memory, sid, key) != DecisionAt(s.memory, sid, key)
    ensures e.Settle? && DisturbsSession(s, e, sid, key)
  {
    if !DisturbsSession(s, e, sid, key) {
      SessionStep(s, e, sid, key);
    } else if !e.Settle? {
      RemovalsAddNothing(s, e, sid, key);
    }
  }

  lemma OfferedStays(input: Input, choice: Choice)
    requires choice in Offered(input)
    ensures DowngradeChoice(choice, Offered(input)).choice == choice
  {
  }

  /** Steps that revoke, clear, restart or find an entry expired add no decision. */
  lemma RemovalsAddNothing(s: State, e: Event, sid: SessionId, key: Key)
    requires !e.Settle? && DisturbsSession(s, e, sid, key) && DecisionAt(Apply(s, e).memory, sid, key).Some?
    ensures DecisionAt(Apply(s, e).memory, sid, key) == DecisionAt(s.memory, sid, key)
  {
    match e
    case Look(id, now) =>
      if s.gates[id].phase.Deciding? {
        var input := s.gates[id].input;
        LookupSlides(s.memory, s.gates[id].phase.rows, input.session, input.tool, input.resource, now, sid, key);
      }
    case _ =>
  }
}
