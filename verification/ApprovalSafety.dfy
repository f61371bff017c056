/** Fail-closed over whole runs, and what each decision may write. */
module ApprovalSafety {
  import opened Util
  import opened ApprovalTypes
  import opened ApprovalMemory
  import opened Approval

  // ------------------------------------------------------------ the invariant

  /** The phases a call reaches only by asking a human. */
  predicate Asked(p: Phase) {
    p.Requesting? || p.Prompting? || p.Failing? || p.Waiting? || p.Settling? || p.Storing? || p.Closing?
  }

  predicate CanAsk(input: Input) {
    !input.isSubAgent && input.session != ""
  }

  /** The row of a call that has one. */
  function RowOf(p: Phase): Option<RowId> {
    match p
    case Prompting(row) => Some(row)
    case Failing(row) => Some(row)
    case Waiting(row) => Some(row)
    case Settling(row, _) => Some(row)
    case Storing(row, _) => Some(row)
    case Closing(row, _, _, _) => Some(row)
    case _ => None
  }

  /** The choice a call is acting on is one that was on offer. */
  predicate ChoiceOffered(input: Input, p: Phase) {
    match p
    case Settling(_, Chosen(c)) => c in Offered(input)
    case Storing(_, c) => c in Offered(input) && ScopeOf(c) == Always
    case _ => true
  }

  predicate GateOk(s: State, id: GateId, input: Input, p: Phase) {
    && (Asked(p) ==> CanAsk(input))
    && ChoiceOffered(input, p)
    && (RowOf(p).Some? ==>
          var row := RowOf(p).value;
          row in s.rows && s.rows[row].gate == id && s.rows[row].user == input.user)
    && (p.Waiting? ==> p.row in s.pending && s.pending[p.row] == PendingEntry(id, input.user, Offered(input)))
  }

  predicate GatesOk(s: State) {
    forall id :: id in s.gates && s.gates[id].Gated? ==> GateOk(s, id, s.gates[id].input, s.gates[id].phase)
  }

  /** The map of open rendezvous holds exactly the waiting calls. */
  predicate PendingOk(s: State) {
    forall row :: row in s.pending ==>
      var id := s.pending[row].gate;
      IsGated(s, id) && s.gates[id].phase == Waiting(row)
  }

  predicate ResolverOk(s: State, r: Resolver) {
    IsGated(s, r.gate) && r.choice in Offered(s.gates[r.gate].input)
  }

  predicate ResolversOk(s: State) {
    forall i :: 0 <= i < |s.resolvers| ==> ResolverOk(s, s.resolvers[i])
  }

  predicate Inv(s: State) {
    GatesOk(s) && PendingOk(s) && ResolversOk(s)
  }

  // ------------------------------------------------------------ one call moves

  /** Only call `id` moved, and it kept its input. */
  predicate OnlyMoved(s: State, s': State, id: GateId) {
    && IsGated(s, id) && IsGated(s', id) && s'.gates[id].input == s.gates[id].input
    && s'.gates.Keys == s.gates.Keys
    && forall g :: g in s.gates && g != id ==> s'.gates[g] == s.gates[g]
  }

  predicate OwnersKept(rows: map<RowId, Row>, rows': map<RowId, Row>) {
    forall row :: row in rows ==> row in rows' && rows'[row].gate == rows[row].gate && rows'[row].user == rows[row].user
  }

  /** The rendezvous of other calls are as before, and one of `id` is its own. */
  predicate PendingFramed(s: State, s': State, id: GateId)
    requires IsGated(s', id)
  {
    && (forall row :: row in s.pending && s.pending[row].gate != id ==>
          row in s'.pending && s'.pending[row] == s.pending[row])
    && (forall row :: row in s'.pending ==>
          if s'.pending[row].gate == id then s'.gates[id].phase == Waiting(row)
          else row in s.pending && s.pending[row] == s'.pending[row])
  }

  lemma OtherGateOk(s: State, s': State, id: GateId, g: GateId)
    requires Inv(s) && OnlyMoved(s, s', id) && OwnersKept(s.rows, s'.rows) && PendingFramed(s, s', id)
    requires g != id && IsGated(s', g)
    ensures GateOk(s', g, s'.gates[g].input, s'.gates[g].phase)
  {
    assert GateOk(s, g, s.gates[g].input, s.gates[g].phase);
  }

  lemma Framed(s: State, s': State, id: GateId)
    requires Inv(s) && OnlyMoved(s, s', id) && OwnersKept(s.rows, s'.rows) && PendingFramed(s, s', id)
    requires s'.resolvers == s.resolvers
    requires GateOk(s', id, s'.gates[id].input, s'.gates[id].phase)
    ensures Inv(s')
  {
    forall g | IsGated(s', g) ensures GateOk(s', g, s'.gates[g].input, s'.gates[g].phase) {
      if g != id {
        OtherGateOk(s, s', id, g);
      }
    }
    forall row | row in s'.pending
      ensures IsGated(s', s'.pending[row].gate) && s'.gates[s'.pending[row].gate].phase == Waiting(row)
    {
      if s'.pending[row].gate != id {
        assert IsGated(s, s.pending[row].gate);
      }
    }
    forall i | 0 <= i < |s'.resolvers| ensures ResolverOk(s', s'.resolvers[i]) {
      assert ResolverOk(s, s.resolvers[i]);
    }
  }

  lemma NoRendezvous(s: State, id: GateId)
    requires Inv(s) && IsGated(s, id) && !s.gates[id].phase.Waiting?
    ensures forall row :: row in s.pending ==> s.pending[row].gate != id
  {
    forall row | row in s.pending ensures s.pending[row].gate != id {
      assert s.gates[s.pending[row].gate].phase == Waiting(row);
    }
  }

  /** Moving one call to a phase that needs nothing new. */
  lemma MoveKeepsInv(s: State, id: GateId, p: Phase)
    requires Inv(s) && IsGated(s, id) && !s.gates[id].phase.Waiting? && !p.Waiting?
    requires GateOk(s, id, s.gates[id].input, p)
    ensures Inv(Move(s, id, p))
  {
    NoRendezvous(s, id);
    Framed(s, Move(s, id, p), id);
  }

  lemma OneRendezvous(s: State, id: GateId, row: RowId)
    requires Inv(s) && IsGated(s, id) && s.gates[id].phase == Waiting(row)
    ensures forall r :: r in s.pending && s.pending[r].gate == id ==> r == row
  {
    forall r | r in s.pending && s.pending[r].gate == id ensures r == row {
      assert s.gates[s.pending[r].gate].phase == Waiting(r);
    }
  }

  lemma LatchKeepsInv(s: State, id: GateId, answer: Answer)
    requires Inv(s)
    requires answer.Chosen? ==> IsGated(s, id) && answer.choice in Offered(s.gates[id].input)
    ensures Inv(Latch(s, id, answer))
  {
    if IsGated(s, id) && s.gates[id].phase.Waiting? {
      SettlingKeepsInv(s, id, s.gates[id].phase.row, answer);
    }
  }

  lemma SettlingKeepsInv(s: State, id: GateId, row: RowId, answer: Answer)
    requires Inv(s) && IsGated(s, id) && s.gates[id].phase == Waiting(row)
    requires answer.Chosen? ==> answer.choice in Offered(s.gates[id].input)
    ensures Inv(Move(s, id, Settling(row, answer)).(pending := s.pending - {row}))
  {
    assert GateOk(s, id, s.gates[id].input, s.gates[id].phase);
    OneRendezvous(s, id, row);
    Framed(s, Move(s, id, Settling(row, answer)).(pending := s.pending - {row}), id);
  }

  /** A call creates its row and moves on. */
  lemma NewRowKeepsInv(s: State, id: GateId, row: RowId, r: Row, p: Phase)
    requires Inv(s) && IsGated(s, id) && !s.gates[id].phase.Waiting? && row !in s.rows
    requires r.gate == id && r.user == s.gates[id].input.user
    requires p == Done(false) || (p == Prompting(row) && CanAsk(s.gates[id].input))
    ensures Inv(Move(s, id, p).(rows := s.rows[row := r]))
  {
    NoRendezvous(s, id);
    Framed(s, Move(s, id, p).(rows := s.rows[row := r]), id);
  }

  lemma CreateRowKeepsInv(s: State, id: GateId, row: RowId)
    requires Inv(s)
    ensures Inv(CreateRowStep(s, id, row))
  {
    if IsGated(s, id) && row !in s.rows {
      var s' := CreateRowStep(s, id, row);
      var p := s.gates[id].phase;
      if p.AutoDenying? {
        NewRowKeepsInv(s, id, row, s'.rows[row], Done(false));
      } else if p.Requesting? {
        assert GateOk(s, id, s.gates[id].input, p);
        NewRowKeepsInv(s, id, row, s'.rows[row], Prompting(row));
      }
    }
  }

  /** A rendezvous is kept under the row of its call. */
  lemma PendingOwner(s: State, row: RowId)
    requires Inv(s) && row in s.pending
    ensures row in s.rows && s.rows[row].gate == s.pending[row].gate
  {
    var g := s.pending[row].gate;
    assert GateOk(s, g, s.gates[g].input, s.gates[g].phase);
  }

  /** No rendezvous is open for a row whose prompt is still being delivered. */
  lemma RowIsFree(s: State, id: GateId, row: RowId)
    requires Inv(s) && IsGated(s, id) && s.gates[id].phase == Prompting(row)
    ensures row !in s.pending
  {
    NoRendezvous(s, id);
    assert GateOk(s, id, s.gates[id].input, s.gates[id].phase);
    forall r | r in s.pending ensures r in s.rows && s.rows[r].gate == s.pending[r].gate {
      PendingOwner(s, r);
    }
  }

  lemma WaitKeepsInv(s: State, id: GateId, row: RowId)
    requires Inv(s) && IsGated(s, id) && s.gates[id].phase == Prompting(row)
    ensures var input := s.gates[id].input;
            Inv(Move(s, id, Waiting(row)).(pending := s.pending[row := PendingEntry(id, input.user, Offered(input))]))
  {
    var input := s.gates[id].input;
    assert GateOk(s, id, input, s.gates[id].phase);
    NoRendezvous(s, id);
    RowIsFree(s, id, row);
    var entry := PendingEntry(id, input.user, Offered(input));
    Framed(s, Move(s, id, Waiting(row)).(pending := s.pending[row := entry]), id);
  }

  lemma DeliveredKeepsInv(s: State, id: GateId, ok: bool, aborted: bool)
    requires Inv(s)
    ensures Inv(DeliveredStep(s, id, ok, aborted))
  {
    if IsGated(s, id) && s.gates[id].phase.Prompting? {
      var row := s.gates[id].phase.row;
      assert GateOk(s, id, s.gates[id].input, s.gates[id].phase);
      if !ok {
        MoveKeepsInv(s, id, Failing(row));
      } else if aborted {
        RowIsFree(s, id, row);
        assert s.pending - {row} == s.pending;
        MoveKeepsInv(s, id, Settling(row, RunAborted));
      } else {
        WaitKeepsInv(s, id, row);
      }
    }
  }

  lemma ResolveKeepsInv(s: State, row: RowId, user: UserId, choice: Choice)
    requires Inv(s)
    ensures Inv(ResolveStep(s, row, user, choice))
  {
    if row in s.pending && s.pending[row].user == user {
      var id := s.pending[row].gate;
      assert GateOk(s, id, s.gates[id].input, s.gates[id].phase);
      OffersAreBounded(s.gates[id].input.kind, s.gates[id].input.extractorFailed, choice);
    }
  }

  lemma FireKeepsInv(s: State, k: nat)
    requires Inv(s)
    ensures Inv(FireStep(s, k))
  {
    if k < |s.resolvers| {
      var r := s.resolvers[k];
      var s1 := s.(resolvers := s.resolvers[..k] + s.resolvers[k + 1..]);
      assert ResolverOk(s, r);
      forall i | 0 <= i < |s1.resolvers| ensures ResolverOk(s1, s1.resolvers[i]) {
        assert s1.resolvers[i] == s.resolvers[if i < k then i else i + 1];
      }
      LatchKeepsInv(s1, r.gate, Chosen(r.choice));
    }
  }

  /** The rows may change as long as their owners stay. */
  lemma RowsKeepInv(s: State, rows: map<RowId, Row>)
    requires Inv(s)
    requires OwnersKept(s.rows, rows)
    ensures Inv(s.(rows := rows))
  {
  }

  lemma TransitionKeepsOwners(rows: map<RowId, Row>, row: RowId, status: Status, store: Option<Store>, key: Key)
    ensures var rows' := Transition(rows, row, status, store, key);
            rows'.Keys == rows.Keys && OwnersKept(rows, rows')
  {
  }

  lemma CloseKeepsInv(s: State, id: GateId)
    requires Inv(s)
    ensures Inv(CloseStep(s, id)) && Inv(FailRowStep(s, id))
  {
    if IsGated(s, id) && s.gates[id].phase.Closing? {
      var p := s.gates[id].phase;
      var key := if p.store == None then "" else KeyOf(s.gates[id].input);
      TransitionKeepsOwners(s.rows, p.row, p.status, p.store, key);
      MoveKeepsInv(s, id, Done(p.allowed));
      RowsKeepInv(Move(s, id, Done(p.allowed)), Transition(s.rows, p.row, p.status, p.store, key));
    }
    if IsGated(s, id) && s.gates[id].phase.Failing? {
      var row := s.gates[id].phase.row;
      TransitionKeepsOwners(s.rows, row, DENIED, None, "");
      MoveKeepsInv(s, id, Done(false));
      RowsKeepInv(Move(s, id, Done(false)), Transition(s.rows, row, DENIED, None, ""));
    }
  }

  lemma RestartKeepsInv(s: State)
    requires Inv(s)
    ensures Inv(RestartStep(s))
  {
    var s' := RestartStep(s);
    forall g | IsGated(s', g) ensures GateOk(s', g, s'.gates[g].input, s'.gates[g].phase) {
      assert s'.gates[g] == Halted(s.gates[g]);
    }
  }

  /** Memories are no part of the invariant. */
  lemma MemoriesKeepInv(s: State, memory: SessionMemory, standing: Standing)
    requires Inv(s)
    ensures Inv(s.(memory := memory)) && Inv(s.(standing := standing))
  {
  }

  lemma SettledIsOk(s: State, id: GateId, input: Input, row: RowId, answer: Answer)
    requires GateOk(s, id, input, Settling(row, answer))
    ensures GateOk(s, id, input, SettledPhase(input, row, answer))
  {
  }

  lemma SettleKeepsInv(s: State, id: GateId, now: int)
    requires Inv(s)
    ensures Inv(SettleStep(s, id, now))
  {
    if IsGated(s, id) && s.gates[id].phase.Settling? {
      var input := s.gates[id].input;
      var p := s.gates[id].phase;
      var next := SettledPhase(input, p.row, p.answer);
      SettledIsOk(s, id, input, p.row, p.answer);
      MoveKeepsInv(s, id, next);
      MemoriesKeepInv(Move(s, id, next), SettledMemory(s.memory, input, p.answer, now), s.standing);
    }
  }

  lemma KeepKeepsInv(s: State, id: GateId)
    requires Inv(s)
    ensures Inv(KeepStep(s, id))
  {
    var s' := KeepStep(s, id);
    if IsGated(s, id) && s.gates[id].phase.Storing? {
      assert GateOk(s, id, s.gates[id].input, s.gates[id].phase);
      var p := s'.gates[id].phase;
      MoveKeepsInv(s, id, p);
      MemoriesKeepInv(Move(s, id, p), s.memory, s'.standing);
    }
  }

  lemma LookKeepsInv(s: State, id: GateId, now: int)
    requires Inv(s)
    ensures Inv(LookStep(s, id, now))
  {
    var s' := LookStep(s, id, now);
    if IsGated(s, id) && s.gates[id].phase.Deciding? {
      var p := s'.gates[id].phase;
      MoveKeepsInv(s, id, p);
      MemoriesKeepInv(Move(s, id, p), s'.memory, s.standing);
    }
  }

  lemma OpenKeepsInv(s: State, id: GateId, call: Call, ctx: Option<Context>)
    requires Inv(s)
    ensures Inv(OpenStep(s, id, call, ctx))
  {
    if id !in s.gates {
      if NeedsApproval(call) && ctx.Some? {
        AddedKeepsInv(s, id, Gated(InputFor(ctx.value, call), Fetching));
      } else {
        AddedKeepsInv(s, id, OpenStep(s, id, call, ctx).gates[id]);
      }
    }
  }

  lemma AddedKeepsInv(s: State, id: GateId, gate: Gate)
    requires Inv(s) && id !in s.gates && (gate.Gated? ==> gate.phase == Fetching)
    ensures Inv(s.(gates := s.gates[id := gate]))
  {
    var s' := s.(gates := s.gates[id := gate]);
    forall g | IsGated(s', g) ensures GateOk(s', g, s'.gates[g].input, s'.gates[g].phase) {
      if g != id {
        assert GateOk(s, g, s.gates[g].input, s.gates[g].phase);
      }
    }
    forall i | 0 <= i < |s'.resolvers| ensures ResolverOk(s', s'.resolvers[i]) {
      assert ResolverOk(s, s.resolvers[i]);
    }
  }

  lemma FetchKeepsInv(s: State, id: GateId)
    requires Inv(s)
    ensures Inv(FetchStep(s, id))
  {
    if IsGated(s, id) && s.gates[id].phase.Fetching? {
      var input := s.gates[id].input;
      MoveKeepsInv(s, id, Deciding(RowsFor(s.standing, input.user, input.tool, Levels(input.resource))));
    }
  }

  lemma ThrowsKeepsInv(s: State, id: GateId)
    requires Inv(s)
    ensures Inv(ThrowsStep(s, id))
  {
    if IsGated(s, id) && !s.gates[id].phase.Waiting? {
      MoveKeepsInv(s, id, Done(false));
    }
  }

  lemma ExecuteKeepsInv(s: State, id: GateId)
    requires Inv(s)
    ensures Inv(ExecuteStep(s, id))
  {
    if id in s.gates && s.gates[id] == Exempt(false) {
      ExemptKeepsInv(s, id);
    } else if IsGated(s, id) && s.gates[id].phase == Done(true) {
      MoveKeepsInv(s, id, Ran);
    }
  }

  lemma ExemptKeepsInv(s: State, id: GateId)
    requires Inv(s) && id in s.gates && s.gates[id].Exempt?
    ensures Inv(s.(gates := s.gates[id := Exempt(true)]))
  {
    var s' := s.(gates := s.gates[id := Exempt(true)]);
    forall g | IsGated(s', g) ensures GateOk(s', g, s'.gates[g].input, s'.gates[g].phase) {
      assert GateOk(s, g, s.gates[g].input, s.gates[g].phase);
    }
    forall i | 0 <= i < |s'.resolvers| ensures ResolverOk(s', s'.resolvers[i]) {
      assert ResolverOk(s, s.resolvers[i]);
    }
  }

  /** The steps of a call up to its rendezvous. */
  lemma AskingKeepsInv(s: State, e: Event)
    requires Inv(s) && (e.Open? || e.Fetch? || e.Look? || e.CreateRow? || e.Delivered? || e.FailRow?)
    ensures Inv(Apply(s, e))
  {
    match e
    case Open(id, call, ctx) => OpenKeepsInv(s, id, call, ctx);
    case Fetch(id) => FetchKeepsInv(s, id);
    case Look(id, now) => LookKeepsInv(s, id, now);
    case CreateRow(id, row) => CreateRowKeepsInv(s, id, row);
    case Delivered(id, ok, aborted) => DeliveredKeepsInv(s, id, ok, aborted);
    case FailRow(id) => CloseKeepsInv(s, id);
  }

  lemma AnswerKeepsInv(s: State, e: Event)
    requires Inv(s) && (e.Timeout? || e.Abort? || e.Resolve? || e.Fire?)
    ensures Inv(Apply(s, e))
  {
    match e
    case Timeout(id) => LatchKeepsInv(s, id, TimedOut);
    case Abort(id) => LatchKeepsInv(s, id, RunAborted);
    case Resolve(row, user, choice) => ResolveKeepsInv(s, row, user, choice);
    case Fire(k) => FireKeepsInv(s, k);
  }

  lemma ApplyKeepsInv(s: State, e: Event)
    requires Inv(s)
    ensures Inv(Apply(s, e))
  {
    match e
    case Settle(id, now) => SettleKeepsInv(s, id, now);
    case Keep(id) => KeepKeepsInv(s, id);
    case Close(id) => CloseKeepsInv(s, id);
    case Throws(id) => ThrowsKeepsInv(s, id);
    case Execute(id) => ExecuteKeepsInv(s, id);
    case Revoke(row, user) => MemoriesKeepInv(s, RevokeStep(s, row, user).memory, RevokeStep(s, row, user).standing);
    case Clear(session) => MemoriesKeepInv(s, s.memory - {session}, s.standing);
    case Restart => RestartKeepsInv(s);
    case _ =>
      if e.Timeout? || e.Abort? || e.Resolve? || e.Fire? {
        AnswerKeepsInv(s, e);
      } else {
        AskingKeepsInv(s, e);
      }
  }

  lemma {:induction false} RunKeepsInv(s: State, events: seq<Event>)
    requires Inv(s)
    ensures Inv(Run(s, events))
  {
    if events != [] {
      RunKeepsInv(s, events[..|events| - 1]);
      ApplyKeepsInv(Run(s, events[..|events| - 1]), events[|events| - 1]);
    }
  }

  // ------------------------------------------------------------ which call a step moves

  /** The only call a step may move; a restart moves them all. */
  function Mover(s: State, e: Event): Option<GateId> {
    match e
    case Fire(k) => if k < |s.resolvers| then Some(s.resolvers[k].gate) else None
    case Resolve(_, _, _) => None
    case Revoke(_, _) => None
    case Clear(_) => None
    case Restart => None
    case Open(id, _, _) => Some(id)
    case Fetch(id) => Some(id)
    case Look(id, _) => Some(id)
    case CreateRow(id, _) => Some(id)
    case Delivered(id, _, _) => Some(id)
    case FailRow(id) => Some(id)
    case Timeout(id) => Some(id)
    case Abort(id) => Some(id)
    case Settle(id, _) => Some(id)
    case Keep(id) => Some(id)
    case Close(id) => Some(id)
    case Throws(id) => Some(id)
    case Execute(id) => Some(id)
  }

  /** What a step may do to `id`: only its mover changes, within its kind and its input, and only `Open` adds. */
  predicate Stepped(s: State, s': State, id: GateId, mover: Option<GateId>) {
    if id !in s.gates then id !in s'.gates
    else
      && id in s'.gates && SameKind(s.gates[id], s'.gates[id])
      && (mover != Some(id) ==> s'.gates[id] == s.gates[id])
  }

  predicate SameKind(g: Gate, g': Gate) {
    match g
    case Exempt(_) => g'.Exempt?
    case Unwired => g'.Unwired?
    case Gated(input, _) => g'.Gated? && g'.input == input
  }

  lemma DecidingStepped(s: State, e: Event, id: GateId)
    requires e.Fetch? || e.Look?
    ensures Stepped(s, Apply(s, e), id, Mover(s, e))
  {
  }

  lemma AskingStepped(s: State, e: Event, id: GateId)
    requires e.Delivered? || e.FailRow?
    ensures Stepped(s, Apply(s, e), id, Mover(s, e))
  {
  }

  lemma CreationStepped(s: State, g: GateId, row: RowId, id: GateId)
    ensures Stepped(s, CreateRowStep(s, g, row), id, Some(g))
  {
  }

  lemma LatchStepped(s: State, g: GateId, answer: Answer, id: GateId)
    ensures Stepped(s, Latch(s, g, answer), id, Some(g))
  {
  }

  lemma AnswerStepped(s: State, e: Event, id: GateId)
    requires e.Timeout? || e.Abort? || e.Fire? || e.Resolve?
    ensures Stepped(s, Apply(s, e), id, Mover(s, e))
  {
    if e.Fire? && e.k < |s.resolvers| {
      var s1 := s.(resolvers := s.resolvers[..e.k] + s.resolvers[e.k + 1..]);
      LatchStepped(s1, s.resolvers[e.k].gate, Chosen(s.resolvers[e.k].choice), id);
    } else if e.Timeout? || e.Abort? {
      LatchStepped(s, e.id, if e.Timeout? then TimedOut else RunAborted, id);
    }
  }

  lemma SettlingStepped(s: State, e: Event, id: GateId)
    requires e.Settle? || e.Keep? || e.Close?
    ensures Stepped(s, Apply(s, e), id, Mover(s, e))
  {
  }

  lemma LateStepped(s: State, e: Event, id: GateId)
    requires e.Throws? || e.Execute? || e.Revoke? || e.Clear?
    ensures Stepped(s, Apply(s, e), id, Mover(s, e))
  {
  }

  lemma ApplySteps(s: State, e: Event, id: GateId)
    requires !e.Restart? && (e.Open? ==> id in s.gates)
    ensures Stepped(s, Apply(s, e), id, Mover(s, e))
  {
    if e.Fetch? || e.Look? {
      DecidingStepped(s, e, id);
    } else if e.CreateRow? {
      CreationStepped(s, e.id, e.row, id);
    } else if e.Delivered? || e.FailRow? {
      AskingStepped(s, e, id);
    } else if e.Timeout? || e.Abort? || e.Fire? || e.Resolve? {
      AnswerStepped(s, e, id);
    } else if e.Settle? || e.Keep? || e.Close? {
      SettlingStepped(s, e, id);
    } else if !e.Open? {
      LateStepped(s, e, id);
    }
  }

  /** A restart adds no call either, and changes none in kind. */
  lemma KindStays(s: State, e: Event, id: GateId)
    requires e.Open? ==> id in s.gates
    ensures var s' := Apply(s, e);
            if id in s.gates then id in s'.gates && SameKind(s.gates[id], s'.gates[id]) else id !in s'.gates
  {
    if e.Restart? {
      assert id in s.gates ==> RestartStep(s).gates[id] == Halted(s.gates[id]);
    } else {
      ApplySteps(s, e, id);
    }
  }

  /** Steps that touch neither a row nor a memory. */
  predicate Quiet(e: Event) {
    || e.Open? || e.Fetch? || e.Delivered? || e.Timeout? || e.Abort?
    || e.Resolve? || e.Fire? || e.Throws? || e.Execute?
  }

  predicate SameBooks(s: State, s': State) {
    s'.rows == s.rows && s'.memory == s.memory && s'.standing == s.standing
  }

  lemma LatchIsQuiet(s: State, id: GateId, answer: Answer)
    ensures SameBooks(s, Latch(s, id, answer))
  {
  }

  lemma EarlyIsQuiet(s: State, e: Event)
    requires e.Open? || e.Fetch? || e.Delivered? || e.Resolve? || e.Throws? || e.Execute?
    ensures SameBooks(s, Apply(s, e))
  {
  }

  lemma QuietKeepsBooks(s: State, e: Event)
    requires Quiet(e)
    ensures SameBooks(s, Apply(s, e))
  {
    if e.Fire? && e.k < |s.resolvers| {
      var r := s.resolvers[e.k];
      LatchIsQuiet(s.(resolvers := s.resolvers[..e.k] + s.resolvers[e.k + 1..]), r.gate, Chosen(r.choice));
    } else if e.Timeout? || e.Abort? {
      LatchIsQuiet(s, e.id, if e.Timeout? then TimedOut else RunAborted);
    } else if !e.Fire? {
      EarlyIsQuiet(s, e);
    }
  }

  lemma LoudKeepsStanding(s: State, e: Event)
    requires !Quiet(e) && !e.Keep? && !e.Revoke?
    ensures Apply(s, e).standing == s.standing
  {
  }

  /** Standing decisions change by storing and by revoking only. */
  lemma StandingKept(s: State, e: Event)
    requires !e.Keep? && !e.Revoke?
    ensures Apply(s, e).standing == s.standing
  {
    if Quiet(e) {
      QuietKeepsBooks(s, e);
    } else {
      LoudKeepsStanding(s, e);
    }
  }

  lemma RestartSteps(s: State, id: GateId)
    requires IsGated(s, id)
    ensures var s' := RestartStep(s);
            && IsGated(s', id) && s'.gates[id].input == s.gates[id].input
            && s'.gates[id].phase == (if s.gates[id].phase == Ran then Ran else Done(false))
  {
    assert RestartStep(s).gates[id] == Halted(s.gates[id]);
  }

  /** A call keeps its input for life. */
  lemma ApplyKeepsCall(s: State, e: Event, id: GateId)
    requires IsGated(s, id)
    ensures IsGated(Apply(s, e), id) && Apply(s, e).gates[id].input == s.gates[id].input
  {
    if e.Restart? {
      RestartSteps(s, id);
    } else {
      ApplySteps(s, e, id);
    }
  }

  // ------------------------------------------------------------ consent

  /** The call is through, or on its way to being let through. */
  predicate Cleared(p: Phase) {
    match p
    case Settling(_, Chosen(c)) => Direction(c) == Allow
    case Storing(_, c) => Direction(c) == Allow
    case Closing(_, _, _, allowed) => allowed
    case Done(allowed) => allowed
    case Ran => true
    case _ => false
  }

  predicate IsCleared(s: State, id: GateId) {
    IsGated(s, id) && Cleared(s.gates[id].phase)
  }

  /** Memory says allow: this lookup of the call finds an allowing verdict. */
  predicate MemoryAllows(s: State, e: Event, id: GateId) {
    && e.Look? && e.id == id && IsGated(s, id) && s.gates[id].phase.Deciding?
    && var input := s.gates[id].input;
    && !input.extractorFailed
    && Precedence(s.memory, s.gates[id].phase.rows, input.session, input.tool, input.resource, e.now) == Some(Allow)
  }

  /** A user who owns the call answers its open rendezvous with `choice`, taken down to what was on offer. */
  predicate UserChooses(s: State, e: Event, id: GateId, choice: Choice) {
    && e.Resolve? && IsGated(s, id) && s.gates[id].phase == Waiting(e.row)
    && e.user == s.gates[id].input.user
    && choice == DowngradeChoice(e.choice, Offered(s.gates[id].input)).choice
  }

  /** An allowing resolution reaches the rendezvous while it is still open: no timeout, no abort came first. */
  predicate AllowLands(s: State, e: Event, id: GateId, choice: Choice) {
    && e.Fire? && e.k < |s.resolvers| && s.resolvers[e.k] == Resolver(id, choice)
    && IsGated(s, id) && s.gates[id].phase.Waiting? && CanAsk(s.gates[id].input)
    && Direction(choice) == Allow
  }

  lemma LookConsents(s: State, id: GateId, now: int)
    requires IsGated(s, id) && s.gates[id].phase.Deciding?
    requires Cleared(LookStep(s, id, now).gates[id].phase)
    ensures MemoryAllows(s, Look(id, now), id)
  {
    var input := s.gates[id].input;
    LookupFollowsPrecedence(s.memory, s.gates[id].phase.rows, input.session, input.tool, input.resource, now);
  }

  lemma FireConsents(s: State, k: nat, id: GateId)
    requires Inv(s) && !IsCleared(s, id) && IsCleared(FireStep(s, k), id)
    ensures k < |s.resolvers| && AllowLands(s, Fire(k), id, s.resolvers[k].choice)
  {
    assert GateOk(s, id, s.gates[id].input, s.gates[id].phase);
  }

  predicate Consents(s: State, e: Event, id: GateId) {
    MemoryAllows(s, e, id) || (e.Fire? && e.k < |s.resolvers| && AllowLands(s, e, id, s.resolvers[e.k].choice))
  }

  lemma NewCallNotCleared(s: State, e: Event, id: GateId)
    requires !IsGated(s, id)
    ensures !IsCleared(Apply(s, e), id)
  {
    if !e.Open? || id in s.gates {
      KindStays(s, e, id);
    }
  }

  /** No other step of the call itself clears it. */
  lemma OwnStepsDoNotClear(s: State, e: Event, id: GateId)
    requires IsGated(s, id) && !Cleared(s.gates[id].phase) && Mover(s, e) == Some(id)
    requires !e.Look? && !e.Fire?
    ensures !IsCleared(Apply(s, e), id)
  {
    if e.Settle? {
      SettlesUncleared(s, id, e.now);
    } else {
      OtherStepsDoNotClear(s, e, id);
    }
  }

  lemma SettlesUncleared(s: State, id: GateId, now: int)
    requires IsGated(s, id) && !Cleared(s.gates[id].phase)
    ensures !IsCleared(SettleStep(s, id, now), id)
  {
  }

  lemma OtherStepsDoNotClear(s: State, e: Event, id: GateId)
    requires IsGated(s, id) && !Cleared(s.gates[id].phase) && Mover(s, e) == Some(id)
    requires !e.Look? && !e.Fire? && !e.Settle?
    ensures !IsCleared(Apply(s, e), id)
  {
  }

  /** Only two kinds of step clear a call that was not cleared. */
  lemma StepConsents(s: State, e: Event, id: GateId)
    requires Inv(s) && !IsCleared(s, id) && IsCleared(Apply(s, e), id)
    ensures Consents(s, e, id)
  {
    if !IsGated(s, id) {
      NewCallNotCleared(s, e, id);
    } else if e.Restart? {
      RestartSteps(s, id);
    } else {
      ApplySteps(s, e, id);
      if e.Look? {
        LookConsents(s, id, e.now);
      } else if e.Fire? {
        FireConsents(s, e.k, id);
      } else {
        OwnStepsDoNotClear(s, e, id);
      }
    }
  }

  // ------------------------------------------------------------ whole runs

  lemma Prefix(events: seq<Event>, e: Event, i: nat)
    requires i <= |events|
    ensures (events + [e])[..i] == events[..i]
  {
  }

  lemma {:induction false} ClearedWasAllowed(events: seq<Event>, id: GateId)
    requires IsCleared(Run(INITIAL, events), id)
    ensures exists j :: 0 <= j < |events| && Consents(Run(INITIAL, events[..j]), events[j], id)
  {
    if events != [] {
      var n := |events| - 1;
      var before := Run(INITIAL, events[..n]);
      RunKeepsInv(INITIAL, events[..n]);
      if IsCleared(before, id) {
        ClearedWasAllowed(events[..n], id);
        var j :| 0 <= j < n && Consents(Run(INITIAL, events[..n][..j]), events[..n][j], id);
        assert events[..n][..j] == events[..j];
      } else {
        StepConsents(before, events[n], id);
      }
    }
  }

  lemma StepAsks(s: State, e: Event, r: Resolver)
    requires Inv(s) && r !in s.resolvers && r in Apply(s, e).resolvers
    ensures UserChooses(s, e, r.gate, r.choice)
  {
    OnlyResolveAdds(s, e, r);
    var g := s.pending[e.row].gate;
    assert GateOk(s, g, s.gates[g].input, s.gates[g].phase);
  }

  lemma OnlyResolveAdds(s: State, e: Event, r: Resolver)
    requires r !in s.resolvers && r in Apply(s, e).resolvers
    ensures e.Resolve? && e.row in s.pending && s.pending[e.row].user == e.user
    ensures var entry := s.pending[e.row];
            r == Resolver(entry.gate, DowngradeChoice(e.choice, entry.offered).choice)
  {
    if e.Fire? {
      FireOnlyRemoves(s, e.k);
    }
  }

  lemma FireOnlyRemoves(s: State, k: nat)
    ensures forall r :: r in FireStep(s, k).resolvers ==> r in s.resolvers
  {
  }

  /** Every resolution under way was made by the owner of the call while its rendezvous was open. */
  lemma {:induction false} ResolverWasAsked(events: seq<Event>, r: Resolver)
    requires r in Run(INITIAL, events).resolvers
    ensures exists i :: 0 <= i < |events| && UserChooses(Run(INITIAL, events[..i]), events[i], r.gate, r.choice)
  {
    if events != [] {
      var n := |events| - 1;
      var before := Run(INITIAL, events[..n]);
      RunKeepsInv(INITIAL, events[..n]);
      if r in before.resolvers {
        ResolverWasAsked(events[..n], r);
        var i :| 0 <= i < n && UserChooses(Run(INITIAL, events[..n][..i]), events[..n][i], r.gate, r.choice);
        assert events[..n][..i] == events[..i];
        assert UserChooses(Run(INITIAL, events[..i]), events[i], r.gate, r.choice);
      } else {
        StepAsks(before, events[n], r);
        assert UserChooses(Run(INITIAL, events[..n]), events[n], r.gate, r.choice);
      }
    }
  }

  /** At step `i` the owner chose to allow, and at the later step `j` that reached the open rendezvous. */
  predicate UserAllowed(events: seq<Event>, id: GateId, i: nat, j: nat, choice: Choice) {
    && i < j < |events|
    && UserChooses(Run(INITIAL, events[..i]), events[i], id, choice)
    && AllowLands(Run(INITIAL, events[..j]), events[j], id, choice)
  }

  lemma LandedWasChosen(events: seq<Event>, id: GateId, j: nat)
    requires j < |events|
    requires var s := Run(INITIAL, events[..j]);
             && events[j].Fire? && events[j].k < |s.resolvers|
             && AllowLands(s, events[j], id, s.resolvers[events[j].k].choice)
    ensures exists i, choice :: UserAllowed(events, id, i, j, choice)
  {
    var r := Run(INITIAL, events[..j]).resolvers[events[j].k];
    ResolverWasAsked(events[..j], r);
    var i :| 0 <= i < j && UserChooses(Run(INITIAL, events[..j][..i]), events[..j][i], r.gate, r.choice);
    assert events[..j][..i] == events[..i];
    assert UserAllowed(events, id, i, j, r.choice);
  }

  /**
   * Fail-closed. A gated tool that ran was let through by memory at some lookup, or by an allowing
   * choice its own user made on that very rendezvous and that arrived before any timeout or abort.
   */
  lemma RanOnlyWithConsent(events: seq<Event>, id: GateId)
    requires IsGated(Run(INITIAL, events), id) && Run(INITIAL, events).gates[id].phase == Ran
    ensures (exists j :: 0 <= j < |events| && MemoryAllows(Run(INITIAL, events[..j]), events[j], id))
         || (exists i, j, choice :: UserAllowed(events, id, i, j, choice))
  {
    ClearedWasAllowed(events, id);
    var j :| 0 <= j < |events| && Consents(Run(INITIAL, events[..j]), events[j], id);
    if !MemoryAllows(Run(INITIAL, events[..j]), events[j], id) {
      LandedWasChosen(events, id, j);
    }
  }

  lemma {:induction false} InputFixed(events: seq<Event>, id: GateId, j: nat)
    requires j <= |events| && IsGated(Run(INITIAL, events[..j]), id)
    ensures IsGated(Run(INITIAL, events), id)
    ensures Run(INITIAL, events).gates[id].input == Run(INITIAL, events[..j]).gates[id].input
    decreases |events|
  {
    if j < |events| {
      var n := |events| - 1;
      assert events[..n][..j] == events[..j];
      InputFixed(events[..n], id, j);
      ApplyKeepsCall(Run(INITIAL, events[..n]), events[n], id);
    } else {
      assert events[..j] == events;
    }
  }

  /** Sub-agents and runs without a session are let through by memory only. */
  lemma NoHumanNoAsking(events: seq<Event>, id: GateId)
    requires IsGated(Run(INITIAL, events), id) && Run(INITIAL, events).gates[id].phase == Ran
    requires !CanAsk(Run(INITIAL, events).gates[id].input)
    ensures exists j :: 0 <= j < |events| && MemoryAllows(Run(INITIAL, events[..j]), events[j], id)
  {
    ClearedWasAllowed(events, id);
    var j :| 0 <= j < |events| && Consents(Run(INITIAL, events[..j]), events[j], id);
    InputFixed(events, id, j);
  }

  /** The call is denied, or on its way to being denied. */
  predicate Doomed(p: Phase) {
    match p
    case AutoDenying(_) => true
    case Failing(_) => true
    case Settling(_, answer) => answer.Chosen? ==> Direction(answer.choice) == Deny
    case Storing(_, c) => Direction(c) == Deny
    case Closing(_, _, _, allowed) => !allowed
    case Done(allowed) => !allowed
    case _ => false
  }

  predicate IsDoomed(s: State, id: GateId) {
    IsGated(s, id) && Doomed(s.gates[id].phase)
  }

  lemma WaitingOnly(s: State, e: Event, id: GateId)
    requires IsDoomed(s, id) && Mover(s, e) == Some(id)
    requires e.Timeout? || e.Abort? || e.Fire? || e.Open? || e.Fetch? || e.Look? || e.Delivered?
    ensures id in Apply(s, e).gates && Apply(s, e).gates[id] == s.gates[id]
  {
  }

  lemma DenialGoesOn(s: State, e: Event, id: GateId)
    requires IsDoomed(s, id) && Mover(s, e) == Some(id)
    requires e.CreateRow? || e.FailRow? || e.Keep?
    ensures IsDoomed(Apply(s, e), id)
  {
  }

  lemma DenialEnds(s: State, e: Event, id: GateId)
    requires IsDoomed(s, id) && Mover(s, e) == Some(id)
    requires e.Close? || e.Throws? || e.Execute?
    ensures IsDoomed(Apply(s, e), id)
  {
  }

  lemma SettlesDoomed(s: State, id: GateId, now: int)
    requires IsDoomed(s, id)
    ensures IsDoomed(SettleStep(s, id, now), id)
  {
  }

  lemma OwnStepStaysDoomed(s: State, e: Event, id: GateId)
    requires IsDoomed(s, id) && Mover(s, e) == Some(id)
    ensures IsDoomed(Apply(s, e), id)
  {
    if e.Settle? {
      SettlesDoomed(s, id, e.now);
    } else if e.CreateRow? || e.FailRow? || e.Keep? {
      DenialGoesOn(s, e, id);
    } else if e.Close? || e.Throws? || e.Execute? {
      DenialEnds(s, e, id);
    } else {
      WaitingOnly(s, e, id);
    }
  }

  lemma StepStaysDoomed(s: State, e: Event, id: GateId)
    requires IsDoomed(s, id)
    ensures IsDoomed(Apply(s, e), id)
  {
    if e.Restart? {
      RestartSteps(s, id);
    } else {
      ApplySteps(s, e, id);
      if Mover(s, e) == Some(id) {
        OwnStepStaysDoomed(s, e, id);
      }
    }
  }

  /**
   * No second answer, late resolution, database error or restart turns a denial round: once a call is
   * denied or on its way there, it is so for good, and its tool never runs.
   */
  lemma {:induction false} DenialIsFinal(s: State, events: seq<Event>, id: GateId)
    requires IsDoomed(s, id)
    ensures IsDoomed(Run(s, events), id) && Run(s, events).gates[id].phase != Ran
    ensures Run(s, events).gates[id].input == s.gates[id].input
  {
    if events != [] {
      var n := |events| - 1;
      DenialIsFinal(s, events[..n], id);
      StepStaysDoomed(Run(s, events[..n]), events[n], id);
      ApplyKeepsCall(Run(s, events[..n]), events[n], id);
    }
  }

  predicate IsUnwired(s: State, id: GateId) {
    id in s.gates && s.gates[id].Unwired?
  }

  /** A call that needed approval and had no context stays blocked, so it never runs. */
  lemma {:induction false} UnwiredNeverRuns(s: State, events: seq<Event>, id: GateId)
    requires IsUnwired(s, id)
    ensures IsUnwired(Run(s, events), id)
  {
    if events != [] {
      UnwiredNeverRuns(s, events[..|events| - 1], id);
      KindStays(Run(s, events[..|events| - 1]), events[|events| - 1], id);
    }
  }

  predicate IsExempt(s: State, id: GateId) {
    id in s.gates && s.gates[id].Exempt?
  }

  /** The call was opened as one that needs no approval. */
  predicate OpensExempt(e: Event, id: GateId) {
    e.Open? && e.id == id && (!e.call.requiresApproval || e.call.consulted == ReturnedFalse)
  }

  lemma ExemptStep(s: State, e: Event, id: GateId)
    requires IsExempt(Apply(s, e), id)
    ensures IsExempt(s, id) || OpensExempt(e, id)
  {
    if !e.Open? || id in s.gates {
      KindStays(s, e, id);
    }
  }

  /** A call skips the gate only if it was opened for a tool without approval or with an explicit false. */
  lemma {:induction false} ExemptionIsExplicit(events: seq<Event>, id: GateId)
    requires IsExempt(Run(INITIAL, events), id)
    ensures exists j :: 0 <= j < |events| && OpensExempt(events[j], id)
  {
    if events != [] {
      var n := |events| - 1;
      ExemptStep(Run(INITIAL, events[..n]), events[n], id);
      if IsExempt(Run(INITIAL, events[..n]), id) {
        ExemptionIsExplicit(events[..n], id);
        var j :| 0 <= j < n && OpensExempt(events[..n][j], id);
        assert events[j] == events[..n][j];
      }
    }
  }

  // ------------------------------------------------------------ what a decision writes

  /**
   * A standing decision is written only for the call's own user, tool and resource, as an `always`
   * choice; never after an extractor failure and never for a tool whose scope is one call.
   */
  lemma StandingWritesAreEarned(s: State, e: Event, subject: Subject)
    requires Inv(s) && subject in Apply(s, e).standing
    requires subject !in s.standing || Apply(s, e).standing[subject] != s.standing[subject]
    ensures e.Keep? && IsGated(s, e.id) && s.gates[e.id].phase.Storing?
    ensures var input := s.gates[e.id].input;
            && subject == SubjectOf(input) && CanAsk(input)
            && !input.extractorFailed && input.kind != CallScope
            && Apply(s, e).standing[subject] == Direction(s.gates[e.id].phase.choice)
  {
    StandingChangesByKeep(s, e, subject);
    var input := s.gates[e.id].input;
    assert GateOk(s, e.id, input, s.gates[e.id].phase);
    OffersAreBounded(input.kind, input.extractorFailed, s.gates[e.id].phase.choice);
  }

  lemma StandingChangesByKeep(s: State, e: Event, subject: Subject)
    requires subject in Apply(s, e).standing
    requires subject !in s.standing || Apply(s, e).standing[subject] != s.standing[subject]
    ensures e.Keep? && IsGated(s, e.id) && s.gates[e.id].phase.Storing? && subject == SubjectOf(s.gates[e.id].input)
  {
    if !e.Keep? && !e.Revoke? {
      StandingKept(s, e);
    }
  }

  /** Every open rendezvous offers the weakest choice in either direction. */
  lemma WeakestIsOffered(s: State, row: RowId, choice: Choice)
    requires Inv(s) && row in s.pending
    ensures OnceLike(choice) in s.pending[row].offered
  {
    var g := s.pending[row].gate;
    assert GateOk(s, g, s.gates[g].input, s.gates[g].phase);
  }
}
