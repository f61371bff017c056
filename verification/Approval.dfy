/**
 * The approval flow as a state machine. An event is one JavaScript turn: of a suspended tool call, of
 * a human resolution, of a timer or an abort signal, or of an operator action.
 */
module Approval {
  import opened Util
  import opened ApprovalTypes
  import opened ApprovalMemory

  type GateId = nat
  type RowId = string

  // ------------------------------------------------------------ what the registry asks for

  /** What a tool's own predicate on the parameters did; only an explicit false exempts. */
  datatype Consulted = NoPredicate | ReturnedFalse | ReturnedOther | PredicateThrew

  /** `extracted` is the resource key the tool derives from the parameters; None: it threw. */
  datatype Call = Call(
    tool: string,
    requiresApproval: bool,
    consulted: Consulted,
    scope: Option<ScopeKind>,
    extracted: Option<string>)

  /** The empty session id stands for no session. */
  datatype Context = Context(user: UserId, session: SessionId, isSubAgent: bool)

  datatype Input = Input(
    user: UserId,
    session: SessionId,
    isSubAgent: bool,
    tool: string,
    kind: ScopeKind,
    resource: string,
    extractorFailed: bool)

  predicate NeedsApproval(call: Call) {
    call.requiresApproval && call.consulted != ReturnedFalse
  }

  function InputFor(ctx: Context, call: Call): Input {
    var kind := if call.scope == None then CallScope else call.scope.value;
    var extracted := if call.extracted == None then "" else call.extracted.value;
    Input(
      ctx.user, ctx.session, ctx.isSubAgent, call.tool, kind,
      if kind == ResourceScope then extracted else "",
      kind == ResourceScope && extracted == "")
  }

  function SubjectOf(input: Input): Subject {
    Subject(input.user, input.tool, input.resource)
  }

  function KeyOf(input: Input): Key {
    MemoryKey(input.tool, input.resource)
  }

  function Offered(input: Input): seq<Choice> {
    OfferedScopes(input.kind, input.extractorFailed)
  }

  // ------------------------------------------------------------ state

  datatype Status = PENDING | APPROVED | DENIED | EXPIRED | CANCELLED

  /** `gate` says which call created the row; `store` and `key` where a decision was remembered. */
  datatype Row = Row(
    gate: GateId,
    user: UserId,
    session: SessionId,
    status: Status,
    store: Option<Store>,
    key: Key)

  datatype Answer = Chosen(choice: Choice) | TimedOut | RunAborted

  /** Where a gated call is suspended. */
  datatype Phase =
    | Fetching
    | Deciding(rows: Rows)
    | AutoDenying(hit: Option<Hit>)
    | Requesting
    | Prompting(row: RowId)
    | Failing(row: RowId)
    | Waiting(row: RowId)
    | Settling(row: RowId, answer: Answer)
    | Storing(row: RowId, choice: Choice)
    | Closing(row: RowId, status: Status, store: Option<Store>, allowed: bool)
    | Done(allowed: bool)
    | Ran

  datatype Gate =
    | Exempt(ran: bool)
    | Unwired                                  // approval needed, no context: blocked for good
    | Gated(input: Input, phase: Phase)

  datatype PendingEntry = PendingEntry(gate: GateId, user: UserId, offered: seq<Choice>)

  /** A resolution on its way to the rendezvous. */
  datatype Resolver = Resolver(gate: GateId, choice: Choice)

  datatype State = State(
    gates: map<GateId, Gate>,
    rows: map<RowId, Row>,
    pending: map<RowId, PendingEntry>,
    resolvers: seq<Resolver>,
    memory: SessionMemory,
    standing: Standing)

  const INITIAL := State(map[], map[], map[], [], map[], map[])

  datatype Event =
    | Open(id: GateId, call: Call, ctx: Option<Context>)
    | Fetch(id: GateId)
    | Look(id: GateId, now: int)
    | CreateRow(id: GateId, row: RowId)
    | Delivered(id: GateId, ok: bool, aborted: bool)
    | FailRow(id: GateId)
    | Timeout(id: GateId)
    | Abort(id: GateId)
    | Resolve(row: RowId, user: UserId, choice: Choice)
    | Fire(k: nat)
    | Settle(id: GateId, now: int)
    | Keep(id: GateId)
    | Close(id: GateId)
    | Throws(id: GateId)
    | Execute(id: GateId)
    | Revoke(row: RowId, user: UserId)
    | Clear(session: SessionId)
    | Restart

  // ------------------------------------------------------------ steps

  predicate IsGated(s: State, id: GateId) {
    id in s.gates && s.gates[id].Gated?
  }

  function Move(s: State, id: GateId, p: Phase): State
    requires IsGated(s, id)
  {
    s.(gates := s.gates[id := Gated(s.gates[id].input, p)])
  }

  function OpenStep(s: State, id: GateId, call: Call, ctx: Option<Context>): State {
    if id in s.gates then s
    else
      var gate :=
        if !NeedsApproval(call) then Exempt(false)
        else if ctx == None then Unwired
        else Gated(InputFor(ctx.value, call), Fetching);
      s.(gates := s.gates[id := gate])
  }

  function FetchStep(s: State, id: GateId): State {
    if !IsGated(s, id) || !s.gates[id].phase.Fetching? then s
    else
      var input := s.gates[id].input;
      Move(s, id, Deciding(RowsFor(s.standing, input.user, input.tool, Levels(input.resource))))
  }

  function Lookup(memory: SessionMemory, rows: Rows, input: Input, now: int): (LookupResult, SessionMemory) {
    if input.extractorFailed then (Prompt(ExtractorError), memory)
    else Scan(memory, rows, input.session, input.tool, Levels(input.resource), now)
  }

  /** Where a lookup sends the call: memory decides, or a human is asked if one can be. */
  function AfterLookup(input: Input, result: LookupResult): Phase {
    match result
    case Found(hit) => if hit.decision == Allow then Done(true) else AutoDenying(Some(hit))
    case Prompt(_) => if input.isSubAgent || input.session == "" then AutoDenying(None) else Requesting
  }

  function LookStep(s: State, id: GateId, now: int): State {
    if !IsGated(s, id) || !s.gates[id].phase.Deciding? then s
    else
      var input := s.gates[id].input;
      var found := Lookup(s.memory, s.gates[id].phase.rows, input, now);
      Move(s, id, AfterLookup(input, found.0)).(memory := found.1)
  }

  function CreateRowStep(s: State, id: GateId, row: RowId): State {
    if !IsGated(s, id) || row in s.rows then s
    else
      var input := s.gates[id].input;
      match s.gates[id].phase
      case AutoDenying(hit) =>
        var store := if hit == None then None else Some(hit.value.store);
        var key := if hit == None then "" else hit.value.key;
        Move(s, id, Done(false)).(rows := s.rows[row := Row(id, input.user, input.session, DENIED, store, key)])
      case Requesting =>
        Move(s, id, Prompting(row)).(rows := s.rows[row := Row(id, input.user, input.session, PENDING, None, "")])
      case _ => s
  }

  function DeliveredStep(s: State, id: GateId, ok: bool, aborted: bool): State {
    if !IsGated(s, id) || !s.gates[id].phase.Prompting? then s
    else
      var row := s.gates[id].phase.row;
      if !ok then Move(s, id, Failing(row))
      else if aborted then Move(s, id, Settling(row, RunAborted)).(pending := s.pending - {row})
      else
        var input := s.gates[id].input;
        Move(s, id, Waiting(row)).(pending := s.pending[row := PendingEntry(id, input.user, Offered(input))])
  }

  /** The guarded update: only a PENDING row is patched. */
  function Transition(
      rows: map<RowId, Row>, row: RowId, status: Status, store: Option<Store>, key: Key): map<RowId, Row>
  {
    if row in rows && rows[row].status == PENDING then
      rows[row := rows[row].(status := status, store := store, key := key)]
    else rows
  }

  function FailRowStep(s: State, id: GateId): State {
    if !IsGated(s, id) || !s.gates[id].phase.Failing? then s
    else Move(s, id, Done(false)).(rows := Transition(s.rows, s.gates[id].phase.row, DENIED, None, ""))
  }

  /** The latch: the first answer settles the rendezvous, later ones find it closed. */
  function Latch(s: State, id: GateId, answer: Answer): State {
    if !IsGated(s, id) || !s.gates[id].phase.Waiting? then s
    else
      var row := s.gates[id].phase.row;
      Move(s, id, Settling(row, answer)).(pending := s.pending - {row})
  }

  function ResolveStep(s: State, row: RowId, user: UserId, choice: Choice): State {
    if row !in s.pending || s.pending[row].user != user then s
    else
      var entry := s.pending[row];
      s.(resolvers := s.resolvers + [Resolver(entry.gate, DowngradeChoice(choice, entry.offered).choice)])
  }

  function FireStep(s: State, k: nat): State {
    if k >= |s.resolvers| then s
    else
      var r := s.resolvers[k];
      Latch(s.(resolvers := s.resolvers[..k] + s.resolvers[k + 1..]), r.gate, Chosen(r.choice))
  }

  function StatusFor(choice: Choice): Status {
    if Direction(choice) == Allow then APPROVED else DENIED
  }

  /** A session decision is written at once; a standing one still has to be stored. */
  predicate WritesSession(input: Input, answer: Answer) {
    answer.Chosen? && ScopeOf(answer.choice) == ThisSession && input.session != ""
  }

  function SettledPhase(input: Input, row: RowId, answer: Answer): Phase {
    match answer
    case TimedOut => Closing(row, EXPIRED, None, false)
    case RunAborted => Closing(row, CANCELLED, None, false)
    case Chosen(choice) =>
      if WritesSession(input, answer)
      then Closing(row, StatusFor(choice), Some(SessionStore), Direction(choice) == Allow)
      else if ScopeOf(choice) == Always then Storing(row, choice)
      else Closing(row, StatusFor(choice), None, Direction(choice) == Allow)
  }

  function SettledMemory(memory: SessionMemory, input: Input, answer: Answer, now: int): SessionMemory {
    if WritesSession(input, answer)
    then WithEntry(memory, input.session, KeyOf(input), SessionEntry(Direction(answer.choice), now))
    else memory
  }

  function SettleStep(s: State, id: GateId, now: int): State {
    if !IsGated(s, id) || !s.gates[id].phase.Settling? then s
    else
      var input := s.gates[id].input;
      var p := s.gates[id].phase;
      Move(s, id, SettledPhase(input, p.row, p.answer)).(memory := SettledMemory(s.memory, input, p.answer, now))
  }

  function KeepStep(s: State, id: GateId): State {
    if !IsGated(s, id) || !s.gates[id].phase.Storing? then s
    else
      var input := s.gates[id].input;
      var choice := s.gates[id].phase.choice;
      var row := s.gates[id].phase.row;
      Move(s, id, Closing(row, StatusFor(choice), Some(PersistentStore), Direction(choice) == Allow))
        .(standing := s.standing[SubjectOf(input) := Direction(choice)])
  }

  function CloseStep(s: State, id: GateId): State {
    if !IsGated(s, id) || !s.gates[id].phase.Closing? then s
    else
      var p := s.gates[id].phase;
      var key := if p.store == None then "" else KeyOf(s.gates[id].input);
      Move(s, id, Done(p.allowed)).(rows := Transition(s.rows, p.row, p.status, p.store, key))
  }

  /** A database call that throws ends the gate, and the tool is not executed. */
  function ThrowsStep(s: State, id: GateId): State {
    if !IsGated(s, id) then s
    else
      match s.gates[id].phase
      case Fetching | AutoDenying(_) | Requesting | Failing(_) | Storing(_, _) | Closing(_, _, _, _) =>
        Move(s, id, Done(false))
      case _ => s
  }

  function ExecuteStep(s: State, id: GateId): State {
    if id in s.gates && s.gates[id] == Exempt(false) then s.(gates := s.gates[id := Exempt(true)])
    else if IsGated(s, id) && s.gates[id].phase == Done(true) then Move(s, id, Ran)
    else s
  }

  /** Reading the row and deleting the decision are one step: a closed row never changes again. */
  function RevokeStep(s: State, row: RowId, user: UserId): State {
    if row !in s.rows || s.rows[row].user != user || s.rows[row].store == None || s.rows[row].key == "" then s
    else
      var r := s.rows[row];
      if r.store == Some(PersistentStore) then
        var (tool, resource) := SplitKey(r.key);
        s.(standing := s.standing - {Subject(user, tool, resource)})
      else if r.session != "" then s.(memory := WithoutEntry(s.memory, r.session, r.key))
      else s
  }

  /** A restarted process forgets its calls; a call that had not run never will. */
  function Halted(gate: Gate): Gate {
    match gate
    case Exempt(_) => gate
    case Unwired => gate
    case Gated(input, phase) => Gated(input, if phase == Ran then Ran else Done(false))
  }

  function Swept(row: Row): Row {
    if row.status == PENDING then row.(status := EXPIRED) else row
  }

  function RestartStep(s: State): State {
    State(
      map id | id in s.gates :: Halted(s.gates[id]),
      map row | row in s.rows :: Swept(s.rows[row]),
      map[], [], map[], s.standing)
  }

  function Apply(s: State, e: Event): State {
    match e
    case Open(id, call, ctx) => OpenStep(s, id, call, ctx)
    case Fetch(id) => FetchStep(s, id)
    case Look(id, now) => LookStep(s, id, now)
    case CreateRow(id, row) => CreateRowStep(s, id, row)
    case Delivered(id, ok, aborted) => DeliveredStep(s, id, ok, aborted)
    case FailRow(id) => FailRowStep(s, id)
    case Timeout(id) => Latch(s, id, TimedOut)
    case Abort(id) => Latch(s, id, RunAborted)
    case Resolve(row, user, choice) => ResolveStep(s, row, user, choice)
    case Fire(k) => FireStep(s, k)
    case Settle(id, now) => SettleStep(s, id, now)
    case Keep(id) => KeepStep(s, id)
    case Close(id) => CloseStep(s, id)
    case Throws(id) => ThrowsStep(s, id)
    case Execute(id) => ExecuteStep(s, id)
    case Revoke(row, user) => RevokeStep(s, row, user)
    case Clear(session) => s.(memory := s.memory - {session})
    case Restart => RestartStep(s)
  }

  function Run(s: State, events: seq<Event>): State {
    if events == [] then s
    else Apply(Run(s, events[..|events| - 1]), events[|events| - 1])
  }
}
