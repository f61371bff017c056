/** The approval service over its two repositories; every method is one JavaScript turn. */
module ToolApprovalService {
  import opened Util
  import opened ApprovalTypes
  import opened ApprovalMemory
  import opened Approval
  import ApprovalSafety
  import ApprovalOrigins

  function PendingIn(rows: map<RowId, Row>): set<RowId> {
    set r | r in rows && rows[r].status == PENDING
  }

  lemma SweptRows(before: map<RowId, Row>, after: map<RowId, Row>)
    requires after.Keys == before.Keys
    requires forall r :: r in after && before[r].status != PENDING ==> after[r] == before[r]
    requires forall r :: r in after && before[r].status == PENDING ==> after[r] == before[r].(status := EXPIRED)
    ensures after == map r | r in before :: Swept(before[r])
  {
  }

  predicate Allows(answer: Answer) {
    answer.Chosen? && Direction(answer.choice) == Allow
  }

  /** The session remembers a session choice under the call's own key, and nothing else changes. */
  ghost predicate Remembers(input: Input, answer: Answer, now: int, before: SessionMemory, after: SessionMemory) {
    var key := MemoryKey(input.tool, input.resource);
    if answer.Chosen? && ScopeOf(answer.choice) == ThisSession && input.session != "" then
      && EntryAt(after, input.session, key) == Some(SessionEntry(Direction(answer.choice), now))
      && SameSessionBut(after, before, input.session, key)
    else after == before
  }

  lemma SettlesAsAnswered(input: Input, row: RowId, answer: Answer)
    ensures ApprovalSafety.Doomed(SettledPhase(input, row, answer)) <==> !Allows(answer)
  {
  }

  /** What the verdict of memory makes of a call; without one a human is asked if one can be. */
  ghost predicate DecidedAs(verdict: Option<Decision>, input: Input, p: Phase) {
    match verdict
    case Some(Allow) => p == Done(true)
    case Some(Deny) => p.AutoDenying? && p.hit.Some? && p.hit.value.decision == Deny
    case None => p == if input.isSubAgent || input.session == "" then AutoDenying(None) else Requesting
  }

  /** The row of a new request: closed if memory denied it or nobody can be asked, else open. */
  function FirstRow(id: GateId, input: Input, p: Phase): Row
    requires p.AutoDenying? || p.Requesting?
  {
    if p.Requesting? then Row(id, input.user, input.session, PENDING, None, "")
    else if p.hit == None then Row(id, input.user, input.session, DENIED, None, "")
    else Row(id, input.user, input.session, DENIED, Some(p.hit.value.store), p.hit.value.key)
  }

  /** A decision was lifted, the one that `key` names in the standing memory of `user`. */
  ghost predicate StandingLifted(user: UserId, key: Key, removed: bool, before: Standing, after: Standing) {
    var (tool, resource) := SplitKey(key);
    var subject := Subject(user, tool, resource);
    && (removed <==> subject in before) && (removed <==> after != before)
    && subject !in after && SameStandingBut(after, before, subject)
  }

  /** The same for the memory of a session. */
  ghost predicate SessionLifted(sid: SessionId, key: Key, removed: bool, before: SessionMemory, after: SessionMemory) {
    if sid == "" then !removed && after == before
    else
      && (removed <==> EntryAt(before, sid, key).Some?) && (removed <==> after != before)
      && EntryAt(after, sid, key) == None && SameSessionBut(after, before, sid, key)
  }

  /** The request rows; `TransitionStatus` is the guarded update. */
  class ApprovalRequestRepository {
    var rows: map<RowId, Row>

    constructor ()
      ensures rows == map[]
    {
      rows := map[];
    }

    method Create(id: RowId, row: Row)
      requires id !in rows
      modifies this
      ensures rows == old(rows)[id := row]
    {
      rows := rows[id := row];
    }

    /** True iff the row exists and was in status `from`; any other row is left alone. */
    method TransitionStatus(id: RowId, from: Status, status: Status, store: Option<Store>, key: Key)
      returns (moved: bool)
      modifies this
      ensures moved <==> id in old(rows) && old(rows)[id].status == from
      ensures rows.Keys == old(rows).Keys
      ensures forall r :: r in rows && r != id ==> rows[r] == old(rows)[r]
      ensures id in rows ==>
                rows[id] == if moved then old(rows)[id].(status := status, store := store, key := key)
                            else old(rows)[id]
    {
      moved := id in rows && rows[id].status == from;
      if moved {
        rows := rows[id := rows[id].(status := status, store := store, key := key)];
      }
    }

    /** Expire every pending row, and no other: none is pending afterwards. */
    method ExpireAllPending() returns (count: nat)
      modifies this
      ensures rows.Keys == old(rows).Keys && forall r :: r in rows ==> rows[r].status != PENDING
      ensures forall r :: r in rows && old(rows)[r].status != PENDING ==> rows[r] == old(rows)[r]
      ensures forall r :: r in rows && old(rows)[r].status == PENDING ==> rows[r] == old(rows)[r].(status := EXPIRED)
      ensures count == |PendingIn(old(rows))| && (count == 0 <==> rows == old(rows))
    {
      count := |PendingIn(rows)|;
      assert forall r :: r in PendingIn(rows) ==> Swept(rows[r]) != rows[r];
      assert count == 0 ==> forall r :: r in rows ==> r !in PendingIn(rows);
      rows := map r | r in rows :: Swept(rows[r]);
    }
  }

  /** The standing decisions, one per user, tool and resource. */
  class UserToolApprovalRepository {
    var standing: Standing

    constructor ()
      ensures standing == map[]
    {
      standing := map[];
    }

    method Upsert(user: UserId, tool: string, resource: string, decision: Decision)
      modifies this
      ensures standing == old(standing)[Subject(user, tool, resource) := decision]
    {
      standing := standing[Subject(user, tool, resource) := decision];
    }

    method FindForKeys(user: UserId, tool: string, resources: seq<string>) returns (rows: Rows)
      ensures rows == RowsFor(standing, user, tool, resources)
    {
      rows := map[];
      for i := 0 to |resources|
        invariant rows == RowsFor(standing, user, tool, resources[..i])
      {
        if Subject(user, tool, resources[i]) in standing {
          rows := rows[resources[i] := standing[Subject(user, tool, resources[i])]];
        }
        assert resources[..i + 1] == resources[..i] + [resources[i]];
      }
      assert resources[..|resources|] == resources;
    }

    /** Forget the decision about one subject; `deleted` says whether that changed anything. */
    method DeleteByKey(user: UserId, tool: string, resource: string) returns (deleted: bool)
      modifies this
      ensures StandingIn(standing, Subject(user, tool, resource)) == None
      ensures SameStandingBut(standing, old(standing), Subject(user, tool, resource))
      ensures deleted <==> standing != old(standing)
      ensures standing.Keys == old(standing).Keys - {Subject(user, tool, resource)}
    {
      deleted := Subject(user, tool, resource) in standing;
      standing := standing - {Subject(user, tool, resource)};
    }
  }

  class ToolApprovalService {
    const session: SessionDecisions
    const requests: ApprovalRequestRepository
    const approvals: UserToolApprovalRepository
    var pending: map<RowId, PendingEntry>
    /** The suspended calls and the resolutions on their way. */
    var gates: map<GateId, Gate>
    var resolvers: seq<Resolver>
    ghost var events: seq<Event>

    ghost function View(): State
      reads this, session, requests, approvals
    {
      State(gates, requests.rows, pending, resolvers, session.memory, approvals.standing)
    }

    /** The fields are what the turns taken so far make of a fresh service. */
    ghost predicate Valid()
      reads this, session, requests, approvals
    {
      View() == Run(INITIAL, events)
    }

    constructor ()
      ensures Valid() && events == [] && fresh(session) && fresh(requests) && fresh(approvals)
    {
      session := new SessionDecisions();
      requests := new ApprovalRequestRepository();
      approvals := new UserToolApprovalRepository();
      pending, gates, resolvers, events := map[], map[], [], [];
    }

    /** The turn `e` was taken. */
    ghost predicate Took(before: State, turns: seq<Event>, e: Event)
      reads this, session, requests, approvals
    {
      Valid() && events == turns + [e] && View() == Apply(before, e)
    }

    ghost method Record(e: Event, before: State)
      requires before == Run(INITIAL, events) && View() == Apply(before, e)
      modifies this`events
      ensures Took(before, old(events), e)
    {
      assert (events + [e])[..|events|] == events;
      events := events + [e];
    }

    /** The call is denied, and no further turn of anyone will change that. */
    ghost predicate DeniedForGood(id: GateId)
      reads this, session, requests, approvals
    {
      forall later :: ApprovalSafety.IsDoomed(Run(View(), later), id)
    }

    lemma DenialHolds(id: GateId)
      requires ApprovalSafety.IsDoomed(View(), id)
      ensures DeniedForGood(id)
    {
      forall later ensures ApprovalSafety.IsDoomed(Run(View(), later), id) {
        ApprovalSafety.DenialIsFinal(View(), later, id);
      }
    }

    /** No rendezvous of the call is open: no human can answer it. */
    predicate NobodyAsked(id: GateId)
      reads this
    {
      forall row :: row in pending ==> pending[row].gate != id
    }

    lemma NotWaitingNotAsked(id: GateId)
      requires Valid() && Stands(id) && !gates[id].phase.Waiting?
      ensures NobodyAsked(id)
    {
      ApprovalSafety.RunKeepsInv(INITIAL, events);
      ApprovalSafety.NoRendezvous(View(), id);
    }

    /**
     * The registry decides whether a call has to pass the gate at all. It need not iff the tool wants
     * no approval or its own predicate says false outright; with nobody to ask on whose behalf it is
     * blocked; else it waits on behalf of the user and the session of its context.
     */
    method OpenCall(id: GateId, call: Call, ctx: Option<Context>)
      requires Valid() && id !in gates
      modifies this
      ensures Took(old(View()), old(events), Open(id, call, ctx))
      ensures id in gates && (gates[id].Exempt? <==> !call.requiresApproval || call.consulted == ReturnedFalse)
      ensures gates[id].Unwired? <==> !gates[id].Exempt? && ctx == None
      ensures Stands(id) ==>
                var input := gates[id].input;
                && gates[id].phase == Fetching && input.tool == call.tool
                && ctx == Some(Context(input.user, input.session, input.isSubAgent))
                && input.kind == (if call.scope == None then CallScope else call.scope.value)
                && ApprovalOrigins.StemsFrom(input, call, ctx.value)
      ensures pending == old(pending) && forall g :: g in old(gates) ==> g in gates && gates[g] == old(gates)[g]
    {
      var needsApproval := call.requiresApproval;
      if needsApproval && call.consulted == ReturnedFalse {
        needsApproval := false;
      }
      if !needsApproval {
        gates := gates[id := Exempt(false)];
      } else if ctx == None {
        gates := gates[id := Unwired];
      } else {
        gates := gates[id := Gated(InputFor(ctx.value, call), Fetching)];
      }
      Record(Open(id, call, ctx), old(View()));
    }

    predicate Stands(id: GateId)
      reads this
    {
      id in gates && gates[id].Gated?
    }

    method FetchRows(id: GateId)
      requires Valid() && Stands(id) && gates[id].phase.Fetching?
      modifies this
      ensures Took(old(View()), old(events), Fetch(id))
      ensures Stands(id) && gates[id].phase.Deciding? && gates[id].input == old(gates)[id].input
      ensures var input := gates[id].input;
              forall level :: level == input.resource || level == "" ==>
                RowAt(gates[id].phase.rows, level)
                == StandingIn(approvals.standing, Subject(input.user, input.tool, level))
    {
      var input := gates[id].input;
      var rows := approvals.FindForKeys(input.user, input.tool, Levels(input.resource));
      gates := gates[id := Gated(input, Deciding(rows))];
      Record(Fetch(id), old(View()));
    }

    /** Memory allows, memory denies, or a human is asked if one can be. */
    method Decide(id: GateId, now: int)
      requires Valid() && Stands(id) && gates[id].phase.Deciding?
      modifies this, session
      ensures Took(old(View()), old(events), Look(id, now))
      ensures var g := old(gates)[id];
              var verdict := if g.input.extractorFailed then None
                             else Precedence(
                                    old(session.memory), g.phase.rows, g.input.session, g.input.tool,
                                    g.input.resource, now);
              Stands(id) && DecidedAs(verdict, g.input, gates[id].phase)
    {
      ApprovalOrigins.LookDecides(View(), id, now);
      LookUp(id, now);
    }

    method LookUp(id: GateId, now: int)
      requires Valid() && Stands(id) && gates[id].phase.Deciding?
      modifies this, session
      ensures Took(old(View()), old(events), Look(id, now))
    {
      var input := gates[id].input;
      var result := Prompt(ExtractorError);
      if !input.extractorFailed {
        result := session.Lookup(gates[id].phase.rows, input.session, input.tool, input.resource, now);
      }
      var next: Phase;
      if result.Found? && result.hit.decision == Allow {
        next := Done(true);
      } else if result.Found? {
        next := AutoDenying(Some(result.hit));
      } else if input.isSubAgent || input.session == "" {
        next := AutoDenying(None);
      } else {
        next := Requesting;
      }
      gates := gates[id := Gated(input, next)];
      Record(Look(id, now), old(View()));
    }

    /** A denial is written as a closed row and is final; a prompt is written as a pending one. */
    method WriteRow(id: GateId, row: RowId)
      requires Valid() && Stands(id) && (gates[id].phase.AutoDenying? || gates[id].phase.Requesting?)
      requires row !in requests.rows
      modifies this, requests
      ensures Took(old(View()), old(events), CreateRow(id, row))
      ensures requests.rows == old(requests.rows)[row := FirstRow(id, old(gates)[id].input, old(gates)[id].phase)]
      ensures old(gates)[id].phase.AutoDenying? ==> DeniedForGood(id) && NobodyAsked(id)
    {
      var input := gates[id].input;
      if gates[id].phase.AutoDenying? {
        var hit := gates[id].phase.hit;
        var store := if hit == None then None else Some(hit.value.store);
        var key := if hit == None then "" else hit.value.key;
        requests.Create(row, Row(id, input.user, input.session, DENIED, store, key));
        gates := gates[id := Gated(input, Done(false))];
      } else {
        requests.Create(row, Row(id, input.user, input.session, PENDING, None, ""));
        gates := gates[id := Gated(input, Prompting(row))];
      }
      Record(CreateRow(id, row), old(View()));
      NotWaitingNotAsked(id);
      if ApprovalSafety.IsDoomed(View(), id) {
        DenialHolds(id);
      }
    }

    /**
     * The prompt went out or not. If not, or if the run is aborted already, the call is denied for good
     * and no human can answer it; else the one rendezvous that opens is under its own row, for its own
     * user, and offers what its scope allows.
     */
    method PromptDelivered(id: GateId, ok: bool, aborted: bool)
      requires Valid() && Stands(id) && gates[id].phase.Prompting?
      modifies this
      ensures Took(old(View()), old(events), Delivered(id, ok, aborted))
      ensures !ok || aborted ==> DeniedForGood(id) && NobodyAsked(id) && pending == old(pending)
      ensures ok && !aborted ==>
                var input, row := old(gates)[id].input, old(gates)[id].phase.row;
                && gates[id] == Gated(input, Waiting(row)) && row !in old(pending)
                && pending
                   == old(pending)[row := PendingEntry(id, input.user, Offered(input))]
                && row in requests.rows && requests.rows[row].gate == id && requests.rows[row].user == input.user
    {
      var input := gates[id].input;
      var row := gates[id].phase.row;
      RowIsMine(id);
      if !ok {
        gates := gates[id := Gated(input, Failing(row))];
      } else if aborted {
        pending := pending - {row};
        gates := gates[id := Gated(input, Settling(row, RunAborted))];
      } else {
        pending := pending[row := PendingEntry(id, input.user, OfferedScopes(input.kind, input.extractorFailed))];
        gates := gates[id := Gated(input, Waiting(row))];
      }
      Record(Delivered(id, ok, aborted), old(View()));
      if !ok || aborted {
        NotWaitingNotAsked(id);
        DenialHolds(id);
      }
    }

    lemma RowIsMine(id: GateId)
      requires Valid() && Stands(id) && gates[id].phase.Prompting?
      ensures var row := gates[id].phase.row;
              && row !in pending && row in requests.rows
              && requests.rows[row].gate == id && requests.rows[row].user == gates[id].input.user
    {
      ApprovalSafety.RunKeepsInv(INITIAL, events);
      ApprovalSafety.RowIsFree(View(), id, gates[id].phase.row);
      assert ApprovalSafety.GateOk(View(), id, gates[id].input, gates[id].phase);
    }

    method DenyUndelivered(id: GateId)
      requires Valid() && Stands(id) && gates[id].phase.Failing?
      modifies this, requests
      ensures Took(old(View()), old(events), FailRow(id))
      ensures DeniedForGood(id) && pending == old(pending)
      ensures var row := old(gates)[id].phase.row;
              row in old(requests.rows) ==>
                && row in requests.rows
                && requests.rows[row] ==
                   if old(requests.rows)[row].status != PENDING then old(requests.rows)[row]
                   else old(requests.rows)[row].(status := DENIED, store := None, key := "")
    {
      var moved := requests.TransitionStatus(gates[id].phase.row, PENDING, DENIED, None, "");
      gates := gates[id := Gated(gates[id].input, Done(false))];
      assert requests.rows == Transition(old(requests.rows), old(gates)[id].phase.row, DENIED, None, "");
      Record(FailRow(id), old(View()));
      DenialHolds(id);
    }

    predicate Waits(id: GateId)
      reads this
    {
      Stands(id) && gates[id].phase.Waiting?
    }

    /**
     * The latch: whoever comes first closes the rendezvous, and any second answer changes nothing. An
     * answer that does not allow, be it a denial, a timeout or an abort, denies the call for good.
     */
    method Finish(id: GateId, answer: Answer)
      modifies this`gates, this`pending
      ensures View() == Latch(old(View()), id, answer)
      ensures forall second :: Latch(View(), id, second) == View()
      ensures !Waits(id) && (!old(Waits(id)) ==> gates == old(gates) && pending == old(pending))
      ensures old(Waits(id)) ==>
                && Stands(id) && gates[id].phase == Settling(old(gates)[id].phase.row, answer)
                && pending == old(pending) - {old(gates)[id].phase.row}
                && (answer != Chosen(AllowOnce) && answer != Chosen(AllowSession) && answer != Chosen(AllowAlways)
                    <==> DeniedForGood(id))
    {
      if id !in gates || !gates[id].Gated? || !gates[id].phase.Waiting? {
        return;
      }
      var row := gates[id].phase.row;
      pending := pending - {row};
      gates := gates[id := Gated(gates[id].input, Settling(row, answer))];
      if ApprovalSafety.IsDoomed(View(), id) {
        DenialHolds(id);
      } else {
        assert !ApprovalSafety.IsDoomed(Run(View(), []), id);
      }
    }

    method OnTimeout(id: GateId)
      requires Valid()
      modifies this
      ensures Took(old(View()), old(events), Timeout(id))
      ensures old(Waits(id)) ==> DeniedForGood(id)
      ensures !old(Waits(id)) ==> gates == old(gates) && pending == old(pending)
    {
      Finish(id, TimedOut);
      Record(Timeout(id), old(View()));
      if ApprovalSafety.IsDoomed(View(), id) {
        DenialHolds(id);
      }
    }

    method OnAbort(id: GateId)
      requires Valid()
      modifies this
      ensures Took(old(View()), old(events), Abort(id))
      ensures old(Waits(id)) ==> DeniedForGood(id)
      ensures !old(Waits(id)) ==> gates == old(gates) && pending == old(pending)
    {
      Finish(id, RunAborted);
      Record(Abort(id), old(View()));
      if ApprovalSafety.IsDoomed(View(), id) {
        DenialHolds(id);
      }
    }

    /**
     * Accept a resolution from the owner while the rendezvous is open, taken down to the strongest
     * offered choice it covers; `downgraded` says that the choice asked for was not on offer.
     */
    method OnResolve(row: RowId, user: UserId, requested: Choice) returns (ok: bool, downgraded: bool)
      requires Valid()
      modifies this
      ensures Took(old(View()), old(events), Resolve(row, user, requested))
      ensures ok <==> row in pending && pending[row].user == user
      ensures !ok ==> resolvers == old(resolvers)
      ensures downgraded <==> ok && requested !in old(pending)[row].offered
      ensures ok ==>
                && resolvers == old(resolvers) + [resolvers[|resolvers| - 1]]
                && var r, offered := resolvers[|resolvers| - 1], old(pending)[row].offered;
                && r.gate == old(pending)[row].gate && r.choice in offered
                && Direction(r.choice) == Direction(requested)
                && (downgraded <==> r.choice != requested)
                && forall c ::
                     c in offered && Direction(c) == Direction(requested) && Strength(c) <= Strength(requested)
                     ==> Strength(c) <= Strength(r.choice) <= Strength(requested)
    {
      ok := row in pending && pending[row].user == user;
      downgraded := false;
      if ok {
        var d := DowngradeChoice(requested, pending[row].offered);
        OffersWeakest(row, requested);
        DowngradeIsStrongestOffered(requested, pending[row].offered);
        downgraded := d.downgraded;
        resolvers := resolvers + [Resolver(pending[row].gate, d.choice)];
      }
      Record(Resolve(row, user, requested), old(View()));
    }

    lemma OffersWeakest(row: RowId, choice: Choice)
      requires Valid() && row in pending
      ensures OnceLike(choice) in pending[row].offered
    {
      ApprovalSafety.RunKeepsInv(INITIAL, events);
      ApprovalSafety.WeakestIsOffered(View(), row, choice);
    }

    /** The audit entry is written; the resolution reaches the latch. */
    method OnAudited(k: nat)
      requires Valid() && k < |resolvers|
      modifies this
      ensures Took(old(View()), old(events), Fire(k))
    {
      var r := resolvers[k];
      resolvers := resolvers[..k] + resolvers[k + 1..];
      Finish(r.gate, Chosen(r.choice));
      Record(Fire(k), old(View()));
    }

    /**
     * The first turn after the rendezvous. A session choice of a call with a session is remembered at
     * once, under the call's own key and nowhere else; any other answer leaves the session memory as it
     * is. Unless the choice allows, the call is denied for good.
     */
    method SettleCall(id: GateId, now: int)
      requires Valid() && Stands(id) && gates[id].phase.Settling?
      modifies this, session
      ensures Took(old(View()), old(events), Settle(id, now))
      ensures Remembers(old(gates)[id].input, old(gates)[id].phase.answer, now, old(session.memory), session.memory)
      ensures !Allows(old(gates)[id].phase.answer) <==> DeniedForGood(id)
      ensures Stands(id) && ApprovalOrigins.ActsOn(old(gates)[id].input, gates[id].phase, old(gates)[id].phase.answer)
    {
      var next := Answered(gates[id].input, gates[id].phase.row, gates[id].phase.answer, now);
      SettlesAsAnswered(gates[id].input, gates[id].phase.row, gates[id].phase.answer);
      ApprovalOrigins.SettledCarriesOn(gates[id].input, gates[id].phase.row, gates[id].phase.answer);
      gates := gates[id := Gated(gates[id].input, next)];
      Record(Settle(id, now), old(View()));
      if ApprovalSafety.IsDoomed(View(), id) {
        DenialHolds(id);
      } else {
        assert !ApprovalSafety.IsDoomed(Run(View(), []), id);
      }
    }

    /** Remember a session choice, and say what the call does next. */
    method Answered(input: Input, row: RowId, answer: Answer, now: int) returns (next: Phase)
      modifies session
      ensures next == SettledPhase(input, row, answer)
      ensures session.memory == SettledMemory(old(session.memory), input, answer, now)
      ensures Remembers(input, answer, now, old(session.memory), session.memory)
    {
      OneEntryChanged(
        session.memory, input.session, MemoryKey(input.tool, input.resource),
        SessionEntry(if answer.Chosen? then Direction(answer.choice) else Deny, now));
      match answer {
        case TimedOut => next := Closing(row, EXPIRED, None, false);
        case RunAborted => next := Closing(row, CANCELLED, None, false);
        case Chosen(choice) =>
          var isAllow := Direction(choice) == Allow;
          if ScopeOf(choice) == ThisSession && input.session != "" {
            session.Write(input.session, input.tool, input.resource, if isAllow then Allow else Deny, now);
            next := Closing(row, StatusFor(choice), Some(SessionStore), isAllow);
          } else if ScopeOf(choice) == Always {
            next := Storing(row, choice);
          } else {
            next := Closing(row, StatusFor(choice), None, isAllow);
          }
      }
    }

    method StoreDecision(id: GateId)
      requires Valid() && Stands(id) && gates[id].phase.Storing?
      modifies this, approvals
      ensures Took(old(View()), old(events), Keep(id))
      ensures var input := old(gates)[id].input;
              var subject := Subject(input.user, input.tool, input.resource);
              && StandingIn(approvals.standing, subject) == Some(Direction(old(gates)[id].phase.choice))
              && SameStandingBut(approvals.standing, old(approvals.standing), subject)
      ensures Stands(id) && gates[id].phase.Closing? && gates[id].phase.store == Some(PersistentStore)
      ensures gates[id].phase.allowed <==> Direction(old(gates)[id].phase.choice) == Allow
      ensures gates[id].phase.status == if gates[id].phase.allowed then APPROVED else DENIED
    {
      var input := gates[id].input;
      var choice := gates[id].phase.choice;
      approvals.Upsert(input.user, input.tool, input.resource, Direction(choice));
      var next := Closing(gates[id].phase.row, StatusFor(choice), Some(PersistentStore), Direction(choice) == Allow);
      gates := gates[id := Gated(input, next)];
      Record(Keep(id), old(View()));
    }

    /** The row is closed, if it is still pending, and the gate answers. */
    method CloseCall(id: GateId) returns (allowed: bool)
      requires Valid() && Stands(id) && gates[id].phase.Closing?
      modifies this, requests
      ensures Took(old(View()), old(events), Close(id))
      ensures allowed == old(gates)[id].phase.allowed
      ensures Stands(id) && gates[id].phase == Done(allowed) && (!allowed ==> DeniedForGood(id))
      ensures var p, input := old(gates)[id].phase, old(gates)[id].input;
              p.row in old(requests.rows) && old(requests.rows)[p.row].status == PENDING ==>
                && p.row in requests.rows
                && requests.rows[p.row]
                   == old(requests.rows)[p.row].(
                        status := p.status, store := p.store,
                        key := if p.store == None then "" else input.tool + ":" + input.resource)
    {
      var p := gates[id].phase;
      var key := if p.store == None then "" else KeyOf(gates[id].input);
      var moved := requests.TransitionStatus(p.row, PENDING, p.status, p.store, key);
      allowed := p.allowed;
      gates := gates[id := Gated(gates[id].input, Done(allowed))];
      assert requests.rows == Transition(old(requests.rows), p.row, p.status, p.store, key);
      Record(Close(id), old(View()));
      if !allowed {
        DenialHolds(id);
      }
    }

    /** The registry runs the tool only for an exempt call or an allowing gate. */
    method ExecuteTool(id: GateId) returns (ran: bool)
      requires Valid() && id in gates
      modifies this
      ensures Took(old(View()), old(events), Execute(id))
      ensures ran <==> old(gates)[id] == Exempt(false) || (old(gates)[id].Gated? && old(gates)[id].phase == Done(true))
      ensures id in gates && (ran ==> gates[id].Exempt? || gates[id] == Gated(old(gates)[id].input, Ran))
    {
      ran := gates[id] == Exempt(false) || (gates[id].Gated? && gates[id].phase == Done(true));
      if ran {
        gates := gates[id := if gates[id].Exempt? then Exempt(true) else Gated(gates[id].input, Ran)];
      }
      Record(Execute(id), old(View()));
    }

    /**
     * Lift the decision a row remembers, for its own user only: the one decision its key names, in the
     * store it names, and no other. `removed` says whether a decision was there to lift.
     */
    method RevokeDecision(row: RowId, user: UserId) returns (removed: bool)
      requires Valid()
      modifies this, session, approvals
      ensures Took(old(View()), old(events), Revoke(row, user))
      ensures Lifts(row, user, PersistentStore) ==>
                && StandingLifted(user, requests.rows[row].key, removed, old(approvals.standing), approvals.standing)
                && session.memory == old(session.memory)
      ensures Lifts(row, user, SessionStore) ==>
                && SessionLifted(
                     requests.rows[row].session, requests.rows[row].key, removed, old(session.memory), session.memory)
                && approvals.standing == old(approvals.standing)
      ensures !Lifts(row, user, PersistentStore) && !Lifts(row, user, SessionStore) ==>
                !removed && session.memory == old(session.memory) && approvals.standing == old(approvals.standing)
    {
      removed := false;
      if row in requests.rows {
        var r := requests.rows[row];
        if r.user == user && r.store != None && r.key != "" {
          assert r.store.value == PersistentStore || r.store.value == SessionStore;
          if r.store == Some(PersistentStore) {
            removed := LiftStanding(user, r.key);
          } else if r.session != "" {
            removed := LiftSession(r.session, r.key);
          }
        }
      }
      Record(Revoke(row, user), old(View()));
    }

    method LiftStanding(user: UserId, key: Key) returns (removed: bool)
      modifies approvals
      ensures StandingLifted(user, key, removed, old(approvals.standing), approvals.standing)
      ensures approvals.standing == old(approvals.standing) - {Subject(user, SplitKey(key).0, SplitKey(key).1)}
    {
      var (tool, resource) := SplitKey(key);
      removed := approvals.DeleteByKey(user, tool, resource);
      SameBut(approvals.standing, old(approvals.standing), Subject(user, tool, resource));
    }

    method LiftSession(sid: SessionId, key: Key) returns (removed: bool)
      requires sid != ""
      modifies session
      ensures SessionLifted(sid, key, removed, old(session.memory), session.memory)
      ensures session.memory == WithoutEntry(old(session.memory), sid, key)
    {
      OneEntryChanged(session.memory, sid, key, SessionEntry(Deny, 0));
      removed := session.Remove(sid, key);
    }

    /** The row belongs to the user and remembers a decision in that store. */
    predicate Lifts(row: RowId, user: UserId, store: Store)
      reads requests
    {
      && row in requests.rows && requests.rows[row].user == user
      && requests.rows[row].store == Some(store) && requests.rows[row].key != ""
    }

    method ClearSession(sid: SessionId)
      requires Valid()
      modifies this, session
      ensures Took(old(View()), old(events), Clear(sid))
      ensures forall key :: EntryAt(session.memory, sid, key) == None
      ensures forall sid', key ::
                sid' != sid ==> EntryAt(session.memory, sid', key) == EntryAt(old(session.memory), sid', key)
    {
      session.Clear(sid);
      Record(Clear(sid), old(View()));
    }

    method SweepPending() returns (swept: nat)
      modifies requests
      ensures requests.rows == map r | r in old(requests.rows) :: Swept(old(requests.rows)[r])
      ensures swept == |PendingIn(old(requests.rows))|
      ensures forall r :: r in requests.rows ==> requests.rows[r].status != PENDING
    {
      swept := requests.ExpireAllPending();
      SweptRows(old(requests.rows), requests.rows);
    }

    /** A restarted process: its calls and its session memory are gone, pending rows expire. */
    method OnModuleInit() returns (swept: nat)
      requires Valid()
      modifies this, session, requests
      ensures Took(old(View()), old(events), Restart)
      ensures swept == |PendingIn(old(requests.rows))|
      ensures session.memory == map[] && pending == map[] && resolvers == []
      ensures forall r :: r in requests.rows ==> requests.rows[r].status != PENDING
      ensures forall id :: Stands(id) && gates[id].phase != Ran ==> DeniedForGood(id)
    {
      gates := map id | id in gates :: Halted(gates[id]);
      pending, resolvers := map[], [];
      session.memory := map[];
      swept := SweepPending();
      Record(Restart, old(View()));
      Forgotten(old(View()));
    }

    lemma Forgotten(before: State)
      requires View() == RestartStep(before)
      ensures forall id :: Stands(id) && gates[id].phase != Ran ==> DeniedForGood(id)
    {
      forall id | Stands(id) && gates[id].phase != Ran ensures DeniedForGood(id) {
        assert gates[id] == Halted(before.gates[id]);
        DenialHolds(id);
      }
    }

    /** Whatever turns are taken, a gated tool that ran had consent. */
    lemma RanWithConsent(id: GateId)
      requires Valid() && Stands(id) && gates[id].phase == Ran
      ensures (exists j :: 0 <= j < |events| && ApprovalSafety.MemoryAllows(Run(INITIAL, events[..j]), events[j], id))
           || (exists i, j, choice :: ApprovalSafety.UserAllowed(events, id, i, j, choice))
    {
      ApprovalSafety.RanOnlyWithConsent(events, id);
    }
  }
}
