/**
 * Where everything a run decides comes from: the input of a gated call from the call that was opened,
 * the answer of a gate and the status of its row from the event that answered it, and a remembered
 * decision from both.
 */
module ApprovalOrigins {
  import opened Util
  import opened ApprovalTypes
  import opened ApprovalMemory
  import opened Approval
  import opened ApprovalSafety
  import opened ApprovalDecisions

  // ------------------------------------------------------------ the call behind an input

  /**
   * What a gated call asks for is what its tool declares: a tool without a scope is asked about call by
   * call, and only the resource scope looks at what the extractor made of the parameters.
   */
  predicate StemsFrom(input: Input, call: Call, ctx: Context) {
    && call.requiresApproval && call.consulted != ReturnedFalse
    && ctx == Context(input.user, input.session, input.isSubAgent)
    && input.tool == call.tool
    && (match call.scope
        case None => input.kind == CallScope
        case Some(declared) => input.kind == declared)
    && (if call.scope == Some(ResourceScope) && call.extracted.Some? then input.resource == call.extracted.value
        else input.resource == "")
    && (input.extractorFailed <==> call.scope == Some(ResourceScope) && input.resource == "")
  }

  predicate OpensAs(e: Event, id: GateId, input: Input) {
    e.Open? && e.id == id && e.ctx.Some? && StemsFrom(input, e.call, e.ctx.value)
  }

  /** Event `j` is the first to open the call, and its input stems from there. */
  predicate OpenedAs(events: seq<Event>, j: int, id: GateId, input: Input) {
    && 0 <= j < |events| && OpensAs(events[j], id, input)
    && forall i :: 0 <= i < j ==> !(events[i].Open? && events[i].id == id)
  }

  lemma {:induction false} OpenedIsThere(events: seq<Event>, i: nat, id: GateId)
    requires i < |events| && events[i].Open? && events[i].id == id
    ensures id in Run(INITIAL, events).gates
  {
    var n := |events| - 1;
    if i < n {
      OpenedIsThere(events[..n], i, id);
      KindStays(Run(INITIAL, events[..n]), events[n], id);
    }
  }

  lemma OpenedNow(events: seq<Event>, id: GateId)
    requires events != [] && IsGated(Run(INITIAL, events), id)
    requires !IsGated(Run(INITIAL, events[..|events| - 1]), id)
    ensures OpenedAs(events, |events| - 1, id, Run(INITIAL, events).gates[id].input)
  {
    var n := |events| - 1;
    var before := Run(INITIAL, events[..n]);
    if !events[n].Open? || id in before.gates {
      KindStays(before, events[n], id);
    }
    forall i | 0 <= i < n ensures !(events[i].Open? && events[i].id == id) {
      if events[i].Open? && events[i].id == id {
        OpenedIsThere(events[..n], i, id);
      }
    }
  }

  /** Every gated call was opened with a context, and its input is what that call declared. */
  lemma {:induction false} InputStems(events: seq<Event>, id: GateId)
    requires IsGated(Run(INITIAL, events), id)
    ensures exists j :: OpenedAs(events, j, id, Run(INITIAL, events).gates[id].input)
  {
    if events != [] {
      var n := |events| - 1;
      var before := Run(INITIAL, events[..n]);
      if IsGated(before, id) {
        InputStems(events[..n], id);
        ApplyKeepsCall(before, events[n], id);
        var j :| OpenedAs(events[..n], j, id, before.gates[id].input);
        assert OpenedAs(events, j, id, before.gates[id].input);
      } else {
        OpenedNow(events, id);
      }
    }
  }

  // ------------------------------------------------------------ the answer behind a decision

  predicate IsAllow(c: Choice) {
    c == AllowOnce || c == AllowSession || c == AllowAlways
  }

  predicate IsForSession(c: Choice) {
    c == AllowSession || c == DenySession
  }

  predicate IsForever(c: Choice) {
    c == AllowAlways || c == DenyAlways
  }

  /** What an answer makes of the row and of the call. */
  predicate Reflected(input: Input, answer: Answer, status: Status, store: Option<Store>, allowed: bool) {
    match answer
    case TimedOut => status == EXPIRED && store == None && !allowed
    case RunAborted => status == CANCELLED && store == None && !allowed
    case Chosen(c) =>
      && status == (if IsAllow(c) then APPROVED else DENIED)
      && (allowed <==> IsAllow(c))
      && store == if IsForever(c) then Some(PersistentStore)
                  else if IsForSession(c) && input.session != "" then Some(SessionStore)
                  else None
  }

  /** The call acts on this answer. */
  predicate ActsOn(input: Input, p: Phase, answer: Answer) {
    match p
    case Settling(_, a) => a == answer
    case Storing(_, c) => answer == Chosen(c) && IsForever(c)
    case Closing(_, status, store, allowed) => Reflected(input, answer, status, store, allowed)
    case _ => false
  }

  predicate IsAnswered(p: Phase) {
    p.Settling? || p.Storing? || p.Closing?
  }

  /** The event answers the call while its prompt is out, or while nobody has answered yet. */
  predicate Lands(s: State, e: Event, id: GateId, row: RowId, answer: Answer) {
    && IsGated(s, id)
    && match answer
       case TimedOut => e == Timeout(id) && s.gates[id].phase == Waiting(row)
       case RunAborted =>
         || (e == Abort(id) && s.gates[id].phase == Waiting(row))
         || (e == Delivered(id, true, true) && s.gates[id].phase == Prompting(row))
       case Chosen(c) =>
         && e.Fire? && e.k < |s.resolvers| && s.resolvers[e.k] == Resolver(id, c)
         && s.gates[id].phase == Waiting(row)
  }

  /** From one acting phase to the next the answer is kept. */
  ghost predicate CarriesOn(input: Input, p: Phase, p': Phase) {
    && IsAnswered(p) && IsAnswered(p') && p'.row == p.row
    && forall answer :: ActsOn(input, p, answer) ==> ActsOn(input, p', answer)
  }

  lemma SettledCarriesOn(input: Input, row: RowId, answer: Answer)
    ensures ActsOn(input, SettledPhase(input, row, answer), answer)
    ensures IsAnswered(SettledPhase(input, row, answer)) && SettledPhase(input, row, answer).row == row
  {
  }

  lemma SettleCarriesOn(s: State, id: GateId, now: int)
    requires IsGated(s, id) && IsAnswered(SettleStep(s, id, now).gates[id].phase)
    ensures CarriesOn(s.gates[id].input, s.gates[id].phase, SettleStep(s, id, now).gates[id].phase)
  {
    if s.gates[id].phase.Settling? {
      SettledCarriesOn(s.gates[id].input, s.gates[id].phase.row, s.gates[id].phase.answer);
    }
  }

  lemma KeepCarriesOn(s: State, id: GateId)
    requires IsGated(s, id) && IsAnswered(KeepStep(s, id).gates[id].phase)
    ensures CarriesOn(s.gates[id].input, s.gates[id].phase, KeepStep(s, id).gates[id].phase)
  {
  }

  lemma EarlyCarriesOn(s: State, e: Event, id: GateId)
    requires IsGated(s, id) && Mover(s, e) == Some(id)
    requires e.Open? || e.Fetch? || e.Look? || e.CreateRow?
    requires IsGated(Apply(s, e), id) && IsAnswered(Apply(s, e).gates[id].phase)
    ensures CarriesOn(s.gates[id].input, s.gates[id].phase, Apply(s, e).gates[id].phase)
  {
  }

  lemma LateCarriesOn(s: State, e: Event, id: GateId)
    requires IsGated(s, id) && Mover(s, e) == Some(id)
    requires e.FailRow? || e.Close? || e.Throws? || e.Execute?
    requires IsGated(Apply(s, e), id) && IsAnswered(Apply(s, e).gates[id].phase)
    ensures CarriesOn(s.gates[id].input, s.gates[id].phase, Apply(s, e).gates[id].phase)
  {
  }

  /** The answer an event brings, if it can bring one. */
  function AnswerIn(s: State, e: Event): Answer {
    match e
    case Timeout(_) => TimedOut
    case Fire(k) => if k < |s.resolvers| then Chosen(s.resolvers[k].choice) else RunAborted
    case _ => RunAborted
  }

  /** The answer that lands with this event is the one the call acts on. */
  predicate LandsNow(s: State, e: Event, id: GateId, p': Phase)
    requires IsGated(s, id) && IsAnswered(p')
  {
    Lands(s, e, id, p'.row, AnswerIn(s, e)) && ActsOn(s.gates[id].input, p', AnswerIn(s, e))
  }

  lemma DeliveredLands(s: State, e: Event, id: GateId)
    requires IsGated(s, id) && e.Delivered? && e.id == id
    requires IsGated(Apply(s, e), id) && IsAnswered(Apply(s, e).gates[id].phase)
    ensures var p' := Apply(s, e).gates[id].phase;
            CarriesOn(s.gates[id].input, s.gates[id].phase, p') || LandsNow(s, e, id, p')
  {
  }

  lemma LatchLands(s: State, e: Event, id: GateId)
    requires IsGated(s, id) && (e.Timeout? || e.Abort?) && e.id == id
    requires IsGated(Apply(s, e), id) && IsAnswered(Apply(s, e).gates[id].phase)
    ensures var p' := Apply(s, e).gates[id].phase;
            CarriesOn(s.gates[id].input, s.gates[id].phase, p') || LandsNow(s, e, id, p')
  {
  }

  lemma FireLands(s: State, e: Event, id: GateId)
    requires IsGated(s, id) && e.Fire? && Mover(s, e) == Some(id)
    requires IsGated(Apply(s, e), id) && IsAnswered(Apply(s, e).gates[id].phase)
    ensures var p' := Apply(s, e).gates[id].phase;
            CarriesOn(s.gates[id].input, s.gates[id].phase, p') || LandsNow(s, e, id, p')
  {
  }

  /** A call acts on the answer it acted on before, or on the one that lands now. */
  lemma StepLands(s: State, e: Event, id: GateId)
    requires IsGated(Apply(s, e), id) && IsAnswered(Apply(s, e).gates[id].phase)
    ensures IsGated(s, id) && s.gates[id].input == Apply(s, e).gates[id].input
    ensures var p' := Apply(s, e).gates[id].phase;
            CarriesOn(s.gates[id].input, s.gates[id].phase, p') || LandsNow(s, e, id, p')
  {
    if !IsGated(s, id) {
      OpenIsFetching(s, e, id);
    } else if e.Restart? {
      RestartSteps(s, id);
    } else {
      ApplySteps(s, e, id);
      OwnStepLands(s, e, id);
    }
  }

  lemma OwnStepLands(s: State, e: Event, id: GateId)
    requires IsGated(s, id) && !e.Restart? && Stepped(s, Apply(s, e), id, Mover(s, e))
    requires IsGated(Apply(s, e), id) && IsAnswered(Apply(s, e).gates[id].phase)
    ensures var p' := Apply(s, e).gates[id].phase;
            CarriesOn(s.gates[id].input, s.gates[id].phase, p') || LandsNow(s, e, id, p')
  {
    if Mover(s, e) == Some(id) {
      if e.Settle? {
        SettleCarriesOn(s, id, e.now);
      } else if e.Keep? {
        KeepCarriesOn(s, id);
      } else if e.Delivered? {
        DeliveredLands(s, e, id);
      } else if e.Timeout? || e.Abort? {
        LatchLands(s, e, id);
      } else if e.Fire? {
        FireLands(s, e, id);
      } else if e.FailRow? || e.Close? || e.Throws? || e.Execute? {
        LateCarriesOn(s, e, id);
      } else {
        EarlyCarriesOn(s, e, id);
      }
    }
  }

  /** Event `j` brought the answer that the call acts on in phase `p`. */
  predicate LandedAs(events: seq<Event>, j: int, id: GateId, row: RowId, answer: Answer) {
    0 <= j < |events| && Lands(Run(INITIAL, events[..j]), events[j], id, row, answer)
  }

  lemma LandedStill(events: seq<Event>, n: nat, j: int, id: GateId, row: RowId, answer: Answer)
    requires n <= |events| && LandedAs(events[..n], j, id, row, answer)
    ensures LandedAs(events, j, id, row, answer)
  {
    assert events[..n][..j] == events[..j];
  }

  ghost predicate Landed(events: seq<Event>, id: GateId, input: Input, p: Phase)
    requires IsAnswered(p)
  {
    exists j, answer :: LandedAs(events, j, id, p.row, answer) && ActsOn(input, p, answer)
  }

  lemma LandedOnward(events: seq<Event>, n: nat, id: GateId, input: Input, p: Phase, p': Phase)
    requires n <= |events| && IsAnswered(p) && Landed(events[..n], id, input, p) && CarriesOn(input, p, p')
    ensures Landed(events, id, input, p')
  {
    var j, answer :| LandedAs(events[..n], j, id, p.row, answer) && ActsOn(input, p, answer);
    LandedStill(events, n, j, id, p.row, answer);
  }

  lemma LandedNow(events: seq<Event>, id: GateId, input: Input, p: Phase)
    requires events != [] && IsAnswered(p)
    requires var n := |events| - 1;
             var before := Run(INITIAL, events[..n]);
             IsGated(before, id) && before.gates[id].input == input && LandsNow(before, events[n], id, p)
    ensures Landed(events, id, input, p)
  {
    var n := |events| - 1;
    assert LandedAs(events, n, id, p.row, AnswerIn(Run(INITIAL, events[..n]), events[n]));
  }

  /** An answered call acts on an answer that reached it, and on no other. */
  lemma {:induction false} AnswerLanded(events: seq<Event>, id: GateId)
    requires IsGated(Run(INITIAL, events), id) && IsAnswered(Run(INITIAL, events).gates[id].phase)
    ensures var g := Run(INITIAL, events).gates[id]; Landed(events, id, g.input, g.phase)
  {
    if events != [] {
      var n := |events| - 1;
      var before := Run(INITIAL, events[..n]);
      var input, p := Run(INITIAL, events).gates[id].input, Run(INITIAL, events).gates[id].phase;
      StepLands(before, events[n], id);
      if CarriesOn(input, before.gates[id].phase, p) {
        AnswerLanded(events[..n], id);
        LandedOnward(events, n, id, input, before.gates[id].phase, p);
      } else {
        LandedNow(events, id, input, p);
      }
    }
  }

  // ------------------------------------------------------------ request rows

  /** The row was closed by memory, because nobody could be asked, or because the prompt did not go out. */
  predicate DeniedUnasked(s: State, e: Event, row: RowId, r: Row) {
    && IsGated(s, r.gate) && r.status == DENIED
    && ((e == CreateRow(r.gate, row) && s.gates[r.gate].phase.AutoDenying?)
        || (e == FailRow(r.gate) && s.gates[r.gate].phase == Failing(row)))
  }

  /** Status, store and key of a row follow from the answer to its call. */
  predicate Answers(input: Input, answer: Answer, r: Row) {
    && Reflected(input, answer, r.status, r.store, answer.Chosen? && IsAllow(answer.choice))
    && r.key == if r.store == None then "" else input.tool + ":" + input.resource
  }

  ghost predicate Explained(events: seq<Event>, row: RowId, r: Row) {
    || r.status == PENDING
    || (r.status == EXPIRED && exists j :: 0 <= j < |events| && events[j] == Restart)
    || (exists j :: 0 <= j < |events| && DeniedUnasked(Run(INITIAL, events[..j]), events[j], row, r))
    || (&& IsGated(Run(INITIAL, events), r.gate)
        && exists j, answer ::
             LandedAs(events, j, r.gate, row, answer) && Answers(Run(INITIAL, events).gates[r.gate].input, answer, r))
  }

  lemma ExplainedStill(events: seq<Event>, row: RowId, r: Row)
    requires events != [] && Explained(events[..|events| - 1], row, r)
    ensures Explained(events, row, r)
  {
    var n := |events| - 1;
    if r.status == EXPIRED && exists j :: 0 <= j < n && events[..n][j] == Restart {
      var j :| 0 <= j < n && events[..n][j] == Restart;
      assert events[j] == Restart;
    } else if exists j :: 0 <= j < n && DeniedUnasked(Run(INITIAL, events[..n][..j]), events[..n][j], row, r) {
      var j :| 0 <= j < n && DeniedUnasked(Run(INITIAL, events[..n][..j]), events[..n][j], row, r);
      assert events[..n][..j] == events[..j] && events[..n][j] == events[j];
    } else if r.status != PENDING {
      ApplyKeepsCall(Run(INITIAL, events[..n]), events[n], r.gate);
      var input := Run(INITIAL, events[..n]).gates[r.gate].input;
      var j, answer :| LandedAs(events[..n], j, r.gate, row, answer) && Answers(input, answer, r);
      LandedStill(events, n, j, r.gate, row, answer);
    }
  }

  /** A row that a step closes is closed by the end of its own call, unasked, or by a restart. */
  lemma StepCloses(s: State, e: Event, row: RowId)
    requires Inv(s) && IsClosed(Apply(s, e), row) && !IsClosed(s, row)
    ensures var r := Apply(s, e).rows[row];
            || e == Restart
            || DeniedUnasked(s, e, row, r)
            || (&& e == Close(r.gate) && IsGated(s, r.gate) && s.gates[r.gate].phase.Closing?
                && var p := s.gates[r.gate].phase;
                   p.row == row && r.status == p.status && r.store == p.store
                   && r.key == if p.store == None then "" else KeyOf(s.gates[r.gate].input))
  {
    if Quiet(e) {
      QuietKeepsBooks(s, e);
    } else if (e.Close? || e.FailRow?) && IsGated(s, e.id) {
      assert GateOk(s, e.id, s.gates[e.id].input, s.gates[e.id].phase);
    }
  }

  lemma RestartExpires(s: State, row: RowId)
    requires IsClosed(RestartStep(s), row) && !IsClosed(s, row)
    ensures RestartStep(s).rows[row].status == EXPIRED
  {
    assert RestartStep(s).rows[row] == Swept(s.rows[row]);
  }

  lemma ClosedNow(events: seq<Event>, row: RowId)
    requires events != [] && IsClosed(Run(INITIAL, events), row)
    requires !IsClosed(Run(INITIAL, events[..|events| - 1]), row)
    ensures Explained(events, row, Run(INITIAL, events).rows[row])
  {
    var n := |events| - 1;
    var before, r := Run(INITIAL, events[..n]), Run(INITIAL, events).rows[row];
    RunKeepsInv(INITIAL, events[..n]);
    StepCloses(before, events[n], row);
    if events[n] == Restart {
      RestartExpires(before, row);
    } else if !DeniedUnasked(before, events[n], row, r) {
      AnswerLanded(events[..n], r.gate);
      ApplyKeepsCall(before, events[n], r.gate);
      ClosedAsAnswered(events, n, before.gates[r.gate].input, before.gates[r.gate].phase, row, r);
    }
  }

  lemma ClosedAsAnswered(events: seq<Event>, n: nat, input: Input, p: Phase, row: RowId, r: Row)
    requires n <= |events| && p.Closing? && p.row == row && Landed(events[..n], r.gate, input, p)
    requires r.status == p.status && r.store == p.store && r.key == (if p.store == None then "" else KeyOf(input))
    ensures exists j, answer :: LandedAs(events, j, r.gate, row, answer) && Answers(input, answer, r)
  {
    var j, answer :| LandedAs(events[..n], j, r.gate, row, answer) && ActsOn(input, p, answer);
    LandedStill(events, n, j, r.gate, row, answer);
    assert Answers(input, answer, r);
  }

  /**
   * Every closed row tells what happened: its status, and where the decision is remembered, follow from
   * an answer that reached its own call, unless the call was denied unasked or a restart expired it.
   */
  lemma {:induction false} RowTellsTheAnswer(events: seq<Event>, row: RowId)
    requires IsClosed(Run(INITIAL, events), row)
    ensures Explained(events, row, Run(INITIAL, events).rows[row])
  {
    if events != [] {
      var n := |events| - 1;
      if IsClosed(Run(INITIAL, events[..n]), row) {
        ApplyKeepsClosedRow(Run(INITIAL, events[..n]), events[n], row);
        RowTellsTheAnswer(events[..n], row);
        ExplainedStill(events, row, Run(INITIAL, events).rows[row]);
      } else {
        ClosedNow(events, row);
      }
    }
  }

  /** The owner of the call asked for `choice`, which was on offer or was taken down to what was. */
  predicate ChoseAt(events: seq<Event>, i: int, id: GateId, choice: Choice) {
    0 <= i < |events| && UserChooses(Run(INITIAL, events[..i]), events[i], id, choice)
  }

  lemma LandedFromResolver(s: State, e: Event, id: GateId, row: RowId, choice: Choice)
    requires Lands(s, e, id, row, Chosen(choice))
    ensures e.Fire? && e.k < |s.resolvers| && s.resolvers[e.k] == Resolver(id, choice)
    ensures IsGated(s, id) && s.gates[id].phase == Waiting(row)
  {
  }

  lemma LandsAllowing(s: State, e: Event, id: GateId, row: RowId, choice: Choice)
    requires Inv(s) && Lands(s, e, id, row, Chosen(choice)) && IsAllow(choice)
    ensures AllowLands(s, e, id, choice)
  {
    assert GateOk(s, id, s.gates[id].input, s.gates[id].phase);
  }

  lemma LandedWasAsked(events: seq<Event>, j: int, id: GateId, row: RowId, choice: Choice)
    requires LandedAs(events, j, id, row, Chosen(choice))
    ensures exists i :: i < j && ChoseAt(events, i, id, choice)
  {
    LandedFromResolver(Run(INITIAL, events[..j]), events[j], id, row, choice);
    ResolverWasAsked(events[..j], Resolver(id, choice));
    var i :| 0 <= i < j && UserChooses(Run(INITIAL, events[..j][..i]), events[..j][i], id, choice);
    assert events[..j][..i] == events[..i];
    assert ChoseAt(events, i, id, choice);
  }

  lemma AllowedInTime(events: seq<Event>, j: int, id: GateId, row: RowId, choice: Choice)
    requires LandedAs(events, j, id, row, Chosen(choice)) && IsAllow(choice)
    ensures exists i :: UserAllowed(events, id, i, j, choice)
  {
    LandedWasAsked(events, j, id, row, choice);
    var i :| i < j && ChoseAt(events, i, id, choice);
    RunKeepsInv(INITIAL, events[..j]);
    LandsAllowing(Run(INITIAL, events[..j]), events[j], id, row, choice);
    assert UserAllowed(events, id, i, j, choice);
  }

  /** A row says APPROVED only if its own call's user allowed it, and in time. */
  lemma ApprovedWasAllowed(events: seq<Event>, row: RowId)
    requires row in Run(INITIAL, events).rows && Run(INITIAL, events).rows[row].status == APPROVED
    ensures exists i, j, choice :: UserAllowed(events, Run(INITIAL, events).rows[row].gate, i, j, choice)
  {
    RowTellsTheAnswer(events, row);
    var r := Run(INITIAL, events).rows[row];
    var j, answer :| LandedAs(events, j, r.gate, row, answer)
                     && Answers(Run(INITIAL, events).gates[r.gate].input, answer, r);
    AllowedInTime(events, j, r.gate, row, answer.choice);
  }

  // ------------------------------------------------------------ an answer is carried out

  /** The turns after an answer, when nothing throws and no restart comes between. */
  function CarriedOut(s: State, id: GateId, now: int): State {
    CloseStep(KeepStep(SettleStep(s, id, now), id), id)
  }

  lemma SettleRemembers(s: State, id: GateId, now: int)
    requires IsGated(s, id) && s.gates[id].phase.Settling?
    ensures var s1, input, p := SettleStep(s, id, now), s.gates[id].input, s.gates[id].phase;
            && IsGated(s1, id) && s1.gates[id].input == input
            && s1.gates[id].phase == SettledPhase(input, p.row, p.answer)
            && s1.rows == s.rows && s1.standing == s.standing
            && (if p.answer.Chosen? && IsForSession(p.answer.choice) && input.session != ""
                then EntryAt(s1.memory, input.session, input.tool + ":" + input.resource)
                     == Some(SessionEntry(if IsAllow(p.answer.choice) then Allow else Deny, now))
                else s1.memory == s.memory)
  {
  }

  lemma KeepRemembers(s: State, id: GateId)
    requires IsGated(s, id) && (s.gates[id].phase.Storing? || s.gates[id].phase.Closing?)
    ensures var s1, input, p := KeepStep(s, id), s.gates[id].input, s.gates[id].phase;
            && IsGated(s1, id) && s1.gates[id].input == input && s1.gates[id].phase.Closing? && s1.memory == s.memory
            && s1.gates[id].phase.row == p.row && s1.rows == s.rows
            && (forall answer :: ActsOn(input, p, answer) ==> ActsOn(input, s1.gates[id].phase, answer))
            && s1.standing
               == if p.Storing?
                  then s.standing[Subject(input.user, input.tool, input.resource)
                                  := if IsAllow(p.choice) then Allow else Deny]
                  else s.standing
  {
  }

  /**
   * Once a call is answered, and nothing fails, it ends as answered: it is allowed iff the choice
   * allows; its pending row gets the status, the store and the key of that answer; and the decision is
   * remembered where the choice says, for the call's own user, session, tool and resource only.
   */
  lemma AnswerIsCarriedOut(s: State, id: GateId, now: int)
    requires Inv(s) && IsGated(s, id) && s.gates[id].phase.Settling?
    requires s.rows[s.gates[id].phase.row].status == PENDING
    ensures var s', input, answer, row := CarriedOut(s, id, now), s.gates[id].input, s.gates[id].phase.answer,
                                          s.gates[id].phase.row;
            && IsGated(s', id) && s'.gates[id].phase == Done(answer.Chosen? && IsAllow(answer.choice))
            && row in s'.rows && Answers(input, answer, s'.rows[row])
            && (if answer.Chosen? && IsForSession(answer.choice) && input.session != ""
                then EntryAt(s'.memory, input.session, input.tool + ":" + input.resource)
                     == Some(SessionEntry(if IsAllow(answer.choice) then Allow else Deny, now))
                else s'.memory == s.memory)
            && s'.standing
               == if answer.Chosen? && IsForever(answer.choice)
                  then s.standing[Subject(input.user, input.tool, input.resource)
                                  := if IsAllow(answer.choice) then Allow else Deny]
                  else s.standing
  {
    var input, p := s.gates[id].input, s.gates[id].phase;
    assert GateOk(s, id, input, p);
    SettleRemembers(s, id, now);
    SettledCarriesOn(input, p.row, p.answer);
    var s1 := SettleStep(s, id, now);
    KeepRemembers(s1, id);
    CloseAnswers(KeepStep(s1, id), id, p.answer);
    SettledStores(input, p.row, p.answer);
  }

  lemma SettledStores(input: Input, row: RowId, answer: Answer)
    ensures var p := SettledPhase(input, row, answer);
            && (p.Storing? <==> answer.Chosen? && IsForever(answer.choice))
            && (p.Storing? ==> answer == Chosen(p.choice))
            && (p.Storing? || p.Closing?)
  {
  }

  lemma CloseAnswers(s: State, id: GateId, answer: Answer)
    requires IsGated(s, id) && s.gates[id].phase.Closing? && ActsOn(s.gates[id].input, s.gates[id].phase, answer)
    requires s.gates[id].phase.row in s.rows && s.rows[s.gates[id].phase.row].status == PENDING
    ensures var s', row := CloseStep(s, id), s.gates[id].phase.row;
            && IsGated(s', id) && s'.gates[id].phase == Done(answer.Chosen? && IsAllow(answer.choice))
            && row in s'.rows && Answers(s.gates[id].input, answer, s'.rows[row])
            && s'.memory == s.memory && s'.standing == s.standing
  {
  }

  // ------------------------------------------------------------ what is remembered, and why

  /** Event `j` opened the call as one that may leave a decision about `subject` for good. */
  predicate OpenedFor(events: seq<Event>, j: int, id: GateId, subject: Subject) {
    && 0 <= j < |events| && events[j].Open? && events[j].id == id
    && events[j].call.tool == subject.tool && events[j].ctx.Some? && events[j].ctx.value.user == subject.user
    && if events[j].call.scope == Some(ResourceScope)
       then subject.resource != "" && events[j].call.extracted == Some(subject.resource)
       else events[j].call.scope == Some(RunScope) && subject.resource == ""
  }

  /** At event `i` the user asked for this very choice on the prompt of the call. */
  predicate AskedFor(events: seq<Event>, i: int, id: GateId, user: UserId, choice: Choice) {
    ChoseAt(events, i, id, choice) && events[i].user == user && events[i].choice == choice
  }

  lemma InputOpenedFor(events: seq<Event>, id: GateId)
    requires IsGated(Run(INITIAL, events), id)
    requires var input := Run(INITIAL, events).gates[id].input; !input.extractorFailed && input.kind != CallScope
    ensures exists j :: OpenedFor(events, j, id, SubjectOf(Run(INITIAL, events).gates[id].input))
  {
    InputStems(events, id);
    var input := Run(INITIAL, events).gates[id].input;
    var j :| OpenedAs(events, j, id, input);
    assert OpenedFor(events, j, id, SubjectOf(input));
  }

  /** What a call acts on was chosen by its own user. */
  lemma ActedOnWasChosen(events: seq<Event>, id: GateId, choice: Choice)
    requires IsGated(Run(INITIAL, events), id)
    requires var p := Run(INITIAL, events).gates[id].phase;
             (p.Settling? && p.answer == Chosen(choice)) || (p.Storing? && p.choice == choice)
    ensures exists i :: ChoseAt(events, i, id, choice) && events[i].user == Run(INITIAL, events).gates[id].input.user
  {
    AnswerLanded(events, id);
    var g := Run(INITIAL, events).gates[id];
    var k, answer :| LandedAs(events, k, id, g.phase.row, answer) && ActsOn(g.input, g.phase, answer);
    LandedWasAsked(events, k, id, g.phase.row, choice);
    var i :| i < k && ChoseAt(events, i, id, choice);
    InputFixed(events, id, i);
  }

  /** Only an `always` choice is taken to be one. */
  lemma AlwaysWasAsked(choice: Choice, offered: seq<Choice>)
    requires IsForever(DowngradeChoice(choice, offered).choice)
    ensures DowngradeChoice(choice, offered).choice == choice
  {
    DowngradeIsStrongestOffered(choice, offered);
  }

  lemma StoredWasAsked(events: seq<Event>, id: GateId)
    requires IsGated(Run(INITIAL, events), id) && Run(INITIAL, events).gates[id].phase.Storing?
    requires IsForever(Run(INITIAL, events).gates[id].phase.choice)
    ensures var g := Run(INITIAL, events).gates[id];
            exists i :: AskedFor(events, i, id, g.input.user, g.phase.choice)
  {
    var g := Run(INITIAL, events).gates[id];
    ActedOnWasChosen(events, id, g.phase.choice);
    var i :| ChoseAt(events, i, id, g.phase.choice) && events[i].user == g.input.user;
    AlwaysWasAsked(events[i].choice, Offered(Run(INITIAL, events[..i]).gates[id].input));
    assert AskedFor(events, i, id, g.input.user, g.phase.choice);
  }

  lemma StoredForever(events: seq<Event>, id: GateId)
    requires IsGated(Run(INITIAL, events), id) && Run(INITIAL, events).gates[id].phase.Storing?
    ensures IsForever(Run(INITIAL, events).gates[id].phase.choice)
  {
    RunKeepsInv(INITIAL, events);
    var s := Run(INITIAL, events);
    assert GateOk(s, id, s.gates[id].input, s.gates[id].phase);
  }

  /** The next event gives a standing decision about `subject`, or changes it. */
  predicate GainsStanding(events: seq<Event>, e: Event, subject: Subject) {
    && subject in Apply(Run(INITIAL, events), e).standing
    && StandingIn(Apply(Run(INITIAL, events), e).standing, subject)
       != StandingIn(Run(INITIAL, events).standing, subject)
  }

  /**
   * A standing decision that a run gains was chosen as an `always` by the user it belongs to, on the
   * prompt of a call whose tool declares the run or the resource scope; a tool that declares the call
   * scope or none, and a call whose extractor failed, never leave one.
   */
  lemma StandingStems(events: seq<Event>, e: Event, subject: Subject)
    requires GainsStanding(events, e, subject)
    ensures e.Keep? && exists j :: OpenedFor(events, j, e.id, subject)
    ensures exists i, choice ::
              && AskedFor(events, i, e.id, subject.user, choice) && (choice == AllowAlways || choice == DenyAlways)
              && Apply(Run(INITIAL, events), e).standing[subject] == if choice == AllowAlways then Allow else Deny
  {
    var s := Run(INITIAL, events);
    RunKeepsInv(INITIAL, events);
    StandingWritesAreEarned(s, e, subject);
    InputOpenedFor(events, e.id);
    StoredForever(events, e.id);
    StoredWasAsked(events, e.id);
  }

  predicate GainsSession(events: seq<Event>, e: Event, sid: SessionId, key: Key) {
    var before, after := Run(INITIAL, events).memory, Apply(Run(INITIAL, events), e).memory;
    DecisionAt(after, sid, key).Some? && DecisionAt(after, sid, key) != DecisionAt(before, sid, key)
  }

  /** A session decision was chosen by the user of a call of that session, under that call's own key. */
  lemma SessionStems(events: seq<Event>, e: Event, sid: SessionId, key: Key)
    requires GainsSession(events, e, sid, key)
    ensures e.Settle? && IsGated(Run(INITIAL, events), e.id)
    ensures var input := Run(INITIAL, events).gates[e.id].input;
            && input.session == sid && key == input.tool + ":" + input.resource
            && !input.extractorFailed && !input.isSubAgent
            && exists j :: OpenedAs(events, j, e.id, input)
    ensures exists i, choice ::
              && ChoseAt(events, i, e.id, choice) && (choice == AllowSession || choice == DenySession)
              && DecisionAt(Apply(Run(INITIAL, events), e).memory, sid, key)
                 == Some(if choice == AllowSession then Allow else Deny)
  {
    var s := Run(INITIAL, events);
    RunKeepsInv(INITIAL, events);
    SessionWritesAreEarned(s, e, sid, key);
    InputStems(events, e.id);
    ActedOnWasChosen(events, e.id, s.gates[e.id].phase.answer.choice);
  }

  // ------------------------------------------------------------ what memory decides

  /**
   * A lookup lets the call through, denies it, or asks: through iff the precedence rule allows, denied
   * iff it denies or nobody can be asked, asked in all other cases, and always after an extractor failure
   * if someone can be.
   */
  lemma LookDecides(s: State, id: GateId, now: int)
    requires IsGated(s, id) && s.gates[id].phase.Deciding?
    ensures var input, rows := s.gates[id].input, s.gates[id].phase.rows;
            var verdict := if input.extractorFailed then None
                           else Precedence(s.memory, rows, input.session, input.tool, input.resource, now);
            var p' := LookStep(s, id, now).gates[id].phase;
            match verdict
            case Some(Allow) => p' == Done(true)
            case Some(Deny) => p'.AutoDenying? && p'.hit.Some? && p'.hit.value.decision == Deny
            case None => p' == if !input.isSubAgent && input.session != "" then Requesting else AutoDenying(None)
  {
    var input := s.gates[id].input;
    LookupFollowsPrecedence(s.memory, s.gates[id].phase.rows, input.session, input.tool, input.resource, now);
  }
}
