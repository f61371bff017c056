/** The two decision memories and the lookup that combines them. */
module ApprovalMemory {
  import opened Util
  import opened ApprovalTypes

  type UserId = string
  type SessionId = string
  type Key = string

  const SESSION_ENTRY_TTL_MS := 24 * 60 * 60 * 1000

  datatype SessionEntry = SessionEntry(decision: Decision, touchedAt: int)

  /** Per session, per memory key. */
  type SessionMemory = map<SessionId, map<Key, SessionEntry>>

  datatype Subject = Subject(user: UserId, tool: string, resource: string)

  /** Standing decisions, one per user, tool and resource. */
  type Standing = map<Subject, Decision>

  datatype Store = SessionStore | PersistentStore

  datatype Hit = Hit(decision: Decision, store: Store, key: Key)

  datatype PromptReason = NoMemory | ExtractorError

  datatype LookupResult = Found(hit: Hit) | Prompt(reason: PromptReason)

  function EntryAt(memory: SessionMemory, sid: SessionId, key: Key): Option<SessionEntry> {
    if sid in memory && key in memory[sid] then Some(memory[sid][key]) else None
  }

  function WithEntry(memory: SessionMemory, sid: SessionId, key: Key, e: SessionEntry): SessionMemory {
    memory[sid := (if sid in memory then memory[sid] else map[])[key := e]]
  }

  function WithoutEntry(memory: SessionMemory, sid: SessionId, key: Key): SessionMemory {
    if sid in memory then memory[sid := memory[sid] - {key}] else memory
  }

  function StandingIn(standing: Standing, subject: Subject): Option<Decision> {
    if subject in standing then Some(standing[subject]) else None
  }

  /** The two memories agree except on the decision about `subject`. */
  ghost predicate SameStandingBut(a: Standing, b: Standing, subject: Subject) {
    forall s :: s != subject ==> StandingIn(a, s) == StandingIn(b, s)
  }

  /** The two memories agree except on the entry of `sid` under `key`. */
  ghost predicate SameSessionBut(a: SessionMemory, b: SessionMemory, sid: SessionId, key: Key) {
    forall sid', key' :: sid' != sid || key' != key ==> EntryAt(a, sid', key') == EntryAt(b, sid', key')
  }

  lemma OneEntryChanged(memory: SessionMemory, sid: SessionId, key: Key, e: SessionEntry)
    ensures SameSessionBut(WithEntry(memory, sid, key, e), memory, sid, key)
    ensures SameSessionBut(WithoutEntry(memory, sid, key), memory, sid, key)
    ensures EntryAt(WithEntry(memory, sid, key, e), sid, key) == Some(e)
    ensures EntryAt(WithoutEntry(memory, sid, key), sid, key) == None
    ensures EntryAt(memory, sid, key) == None <==> WithoutEntry(memory, sid, key) == memory
  {
    if EntryAt(memory, sid, key) == None && sid in memory {
      assert memory[sid] - {key} == memory[sid];
      assert WithoutEntry(memory, sid, key) == memory;
    }
  }

  lemma SameBut(a: Standing, b: Standing, subject: Subject)
    requires SameStandingBut(a, b, subject) && subject !in a
    ensures a == b - {subject}
  {
    assert forall s :: s in a <==> StandingIn(a, s).Some?;
    assert forall s :: s in b <==> StandingIn(b, s).Some?;
    assert a.Keys == b.Keys - {subject};
  }

  predicate Expired(e: SessionEntry, now: int) {
    now - e.touchedAt > SESSION_ENTRY_TTL_MS
  }

  /** What the session remembers under `key`; an expired entry counts for nothing. */
  function Visible(memory: SessionMemory, sid: SessionId, key: Key, now: int): Option<Decision> {
    match EntryAt(memory, sid, key)
    case None => None
    case Some(e) => if sid == "" || Expired(e, now) then None else Some(e.decision)
  }

  /** Reading slides the lifetime of a live entry and drops an expired one. */
  function Touched(memory: SessionMemory, sid: SessionId, key: Key, now: int): SessionMemory {
    match EntryAt(memory, sid, key)
    case None => memory
    case Some(e) =>
      if sid == "" then memory
      else if Expired(e, now) then WithoutEntry(memory, sid, key)
      else WithEntry(memory, sid, key, e.(touchedAt := now))
  }

  function Levels(resource: string): seq<string> {
    if resource != "" then [resource, ""] else [""]
  }

  /** The stored decisions of one user for one tool, by resource. */
  type Rows = map<string, Decision>

  function RowsFor(standing: Standing, user: UserId, tool: string, levels: seq<string>): Rows {
    map level | level in levels && Subject(user, tool, level) in standing :: standing[Subject(user, tool, level)]
  }

  function RowAt(rows: Rows, level: string): Option<Decision> {
    if level in rows then Some(rows[level]) else None
  }

  // ------------------------------------------------------------ the precedence rule

  /** At one level: deny from either store, else allow from either store, else nothing. */
  function AtLevel(session: Option<Decision>, persistent: Option<Decision>): Option<Decision> {
    if session == Some(Deny) || persistent == Some(Deny) then Some(Deny)
    else if session == Some(Allow) || persistent == Some(Allow) then Some(Allow)
    else None
  }

  /** The same at `level` for a tool, given both memories. */
  function Verdict(
      memory: SessionMemory, rows: Rows, sid: SessionId, tool: string, level: string, now: int): Option<Decision>
  {
    AtLevel(Visible(memory, sid, MemoryKey(tool, level), now), RowAt(rows, level))
  }

  /** Of two verdicts the more specific one counts, whichever way it goes. */
  function Precedence(
      memory: SessionMemory, rows: Rows, sid: SessionId, tool: string, resource: string, now: int): Option<Decision>
  {
    var specific := Verdict(memory, rows, sid, tool, resource, now);
    if specific != None || resource == "" then specific else Verdict(memory, rows, sid, tool, "", now)
  }

  /** The levels a lookup visits: all up to the first with a verdict. */
  predicate Visited(
      memory: SessionMemory, rows: Rows, sid: SessionId, tool: string, resource: string, now: int, level: string)
  {
    level == resource || (level == "" && Verdict(memory, rows, sid, tool, resource, now) == None)
  }

  // ------------------------------------------------------------ the code

  /** The answer of one level, session before persistent within the same decision. */
  function LevelHit(session: Option<Decision>, persistent: Option<Decision>, key: Key): Option<Hit> {
    if session == Some(Deny) then Some(Hit(Deny, SessionStore, key))
    else if persistent == Some(Deny) then Some(Hit(Deny, PersistentStore, key))
    else if session == Some(Allow) then Some(Hit(Allow, SessionStore, key))
    else if persistent == Some(Allow) then Some(Hit(Allow, PersistentStore, key))
    else None
  }

  /** What a lookup answers and leaves behind when it scans `levels`. */
  function Scan(
      memory: SessionMemory, rows: Rows, sid: SessionId, tool: string, levels: seq<string>, now: int)
    : (LookupResult, SessionMemory)
  {
    if levels == [] then (Prompt(NoMemory), memory)
    else
      var key := MemoryKey(tool, levels[0]);
      var after := Touched(memory, sid, key, now);
      match LevelHit(Visible(memory, sid, key, now), RowAt(rows, levels[0]), key)
      case Some(hit) => (Found(hit), after)
      case None => Scan(after, rows, sid, tool, levels[1..], now)
  }

  /** The session memory as an object: read with a sliding lifetime, write, remove, clear. */
  class SessionDecisions {
    var memory: SessionMemory

    constructor ()
      ensures memory == map[]
    {
      memory := map[];
    }

    method Write(sid: SessionId, tool: string, resource: string, decision: Decision, now: int)
      modifies this
      ensures memory == WithEntry(old(memory), sid, MemoryKey(tool, resource), SessionEntry(decision, now))
    {
      var bucket := if sid in memory then memory[sid] else map[];
      bucket := bucket[MemoryKey(tool, resource) := SessionEntry(decision, now)];
      memory := memory[sid := bucket];
    }

    method Remove(sid: SessionId, key: Key) returns (removed: bool)
      modifies this
      ensures removed == EntryAt(old(memory), sid, key).Some?
      ensures memory == WithoutEntry(old(memory), sid, key)
    {
      removed := sid in memory && key in memory[sid];
      if sid in memory {
        memory := memory[sid := memory[sid] - {key}];
      }
    }

    method Clear(sid: SessionId)
      modifies this
      ensures memory == old(memory) - {sid}
    {
      memory := memory - {sid};
    }

    method Read(sid: SessionId, key: Key, now: int) returns (decision: Option<Decision>)
      modifies this
      ensures decision == Visible(old(memory), sid, key, now)
      ensures decision.Some? <==>
                && sid != "" && EntryAt(old(memory), sid, key).Some?
                && now - EntryAt(old(memory), sid, key).value.touchedAt <= 86400000
      ensures decision.Some? ==>
                && decision.value == EntryAt(old(memory), sid, key).value.decision
                && EntryAt(memory, sid, key) == Some(SessionEntry(decision.value, now))
      ensures decision == None && sid != "" ==> EntryAt(memory, sid, key) == None
      ensures memory == Touched(old(memory), sid, key, now)
    {
      if sid == "" || sid !in memory || key !in memory[sid] {
        return None;
      }
      var entry := memory[sid][key];
      if now - entry.touchedAt > SESSION_ENTRY_TTL_MS {
        var removed := Remove(sid, key);
        return None;
      }
      memory := memory[sid := memory[sid][key := entry.(touchedAt := now)]];
      return Some(entry.decision);
    }

    /** Scan the levels from the most specific one, reading both memories. */
    method Lookup(rows: Rows, sid: SessionId, tool: string, resource: string, now: int) returns (result: LookupResult)
      modifies this
      ensures (result, memory) == Scan(old(memory), rows, sid, tool, Levels(resource), now)
    {
      var specificities := Levels(resource);
      for i := 0 to |specificities|
        invariant Scan(memory, rows, sid, tool, specificities[i..], now)
               == Scan(old(memory), rows, sid, tool, Levels(resource), now)
      {
        var level := specificities[i];
        var key := MemoryKey(tool, level);
        assert specificities[i..][0] == level && specificities[i..][1..] == specificities[i + 1..];
        var session := Read(sid, key, now);
        var persistent := RowAt(rows, level);
        if session == Some(Deny) || persistent == Some(Deny) {
          return Found(Hit(Deny, if session == Some(Deny) then SessionStore else PersistentStore, key));
        }
        if session == Some(Allow) || persistent == Some(Allow) {
          return Found(Hit(Allow, if session == Some(Allow) then SessionStore else PersistentStore, key));
        }
      }
      return Prompt(NoMemory);
    }
  }

  // ------------------------------------------------------------ lookup refines the rule

  lemma TouchedElsewhere(memory: SessionMemory, sid: SessionId, key: Key, now: int, sid': SessionId, key': Key)
    ensures EntryAt(Touched(memory, sid, key, now), sid', key')
         == if sid' != sid || key' != key || sid == "" then EntryAt(memory, sid', key')
            else match EntryAt(memory, sid, key)
                 case None => None
                 case Some(e) => if Expired(e, now) then None else Some(e.(touchedAt := now))
  {
  }

  lemma LevelKeysDiffer(tool: string, resource: string)
    requires resource != ""
    ensures MemoryKey(tool, resource) != MemoryKey(tool, "")
  {
    assert |MemoryKey(tool, resource)| != |MemoryKey(tool, "")|;
  }

  lemma ScanUnfolds(memory: SessionMemory, rows: Rows, sid: SessionId, tool: string, resource: string, now: int)
    ensures var key := MemoryKey(tool, resource);
            var after := Touched(memory, sid, key, now);
            var hit := LevelHit(Visible(memory, sid, key, now), RowAt(rows, resource), key);
            var root := MemoryKey(tool, "");
            var rootHit := LevelHit(Visible(after, sid, root, now), RowAt(rows, ""), root);
            Scan(memory, rows, sid, tool, Levels(resource), now)
            == if hit != None then (Found(hit.value), after)
               else if resource == "" then (Prompt(NoMemory), after)
               else if rootHit != None then (Found(rootHit.value), Touched(after, sid, root, now))
               else (Prompt(NoMemory), Touched(after, sid, root, now))
  {
    if resource != "" {
      assert Levels(resource)[1..] == [""];
      ScanOne(Touched(memory, sid, MemoryKey(tool, resource), now), rows, sid, tool, "", now);
    } else {
      ScanOne(memory, rows, sid, tool, resource, now);
    }
  }

  lemma ScanOne(memory: SessionMemory, rows: Rows, sid: SessionId, tool: string, level: string, now: int)
    ensures var key := MemoryKey(tool, level);
            var hit := LevelHit(Visible(memory, sid, key, now), RowAt(rows, level), key);
            Scan(memory, rows, sid, tool, [level], now)
            == (if hit != None then Found(hit.value) else Prompt(NoMemory), Touched(memory, sid, key, now))
  {
    assert [level][1..] == [];
  }

  /**
   * The lookup answers what the rule says: the verdict of the most specific level that has one, deny
   * over allow within a level, and a prompt exactly when no level has a verdict.
   */
  lemma LookupFollowsPrecedence(
      memory: SessionMemory, rows: Rows, sid: SessionId, tool: string, resource: string, now: int)
    ensures var result := Scan(memory, rows, sid, tool, Levels(resource), now).0;
            match Precedence(memory, rows, sid, tool, resource, now)
            case None => result == Prompt(NoMemory)
            case Some(d) =>
              && result.Found? && result.hit.decision == d
              && (result.hit.key == MemoryKey(tool, resource) || result.hit.key == MemoryKey(tool, ""))
  {
    ScanUnfolds(memory, rows, sid, tool, resource, now);
    if resource != "" {
      LevelKeysDiffer(tool, resource);
      TouchedElsewhere(memory, sid, MemoryKey(tool, resource), now, sid, MemoryKey(tool, ""));
    }
  }

  /** The hit names a store and a key that hold this decision. */
  lemma LookupHitIsStored(memory: SessionMemory, rows: Rows, sid: SessionId, tool: string, resource: string, now: int)
    ensures var result := Scan(memory, rows, sid, tool, Levels(resource), now).0;
            result.Found? ==>
              exists level ::
                && (level == resource || level == "") && result.hit.key == MemoryKey(tool, level)
                && match result.hit.store
                   case SessionStore => Visible(memory, sid, result.hit.key, now) == Some(result.hit.decision)
                   case PersistentStore => RowAt(rows, level) == Some(result.hit.decision)
  {
    ScanUnfolds(memory, rows, sid, tool, resource, now);
    if resource != "" {
      LevelKeysDiffer(tool, resource);
      TouchedElsewhere(memory, sid, MemoryKey(tool, resource), now, sid, MemoryKey(tool, ""));
    }
    var level0 := resource;
    assert level0 == resource || level0 == "";
  }

  /** A lookup changes the entries of the levels it visits, and no others: live ones slide, dead ones go. */
  lemma LookupSlides(
      memory: SessionMemory, rows: Rows, sid: SessionId, tool: string, resource: string, now: int,
      sid': SessionId, key': Key)
    ensures var after := Scan(memory, rows, sid, tool, Levels(resource), now).1;
            var visited := exists level ::
                             Visited(memory, rows, sid, tool, resource, now, level) && key' == MemoryKey(tool, level);
            EntryAt(after, sid', key')
            == if sid' != sid || sid == "" || !visited then EntryAt(memory, sid', key')
               else match EntryAt(memory, sid, key')
                    case None => None
                    case Some(e) => if Expired(e, now) then None else Some(e.(touchedAt := now))
  {
    ScanUnfolds(memory, rows, sid, tool, resource, now);
    var key, root := MemoryKey(tool, resource), MemoryKey(tool, "");
    var after := Touched(memory, sid, key, now);
    TouchedElsewhere(memory, sid, key, now, sid', key');
    TouchedElsewhere(after, sid, root, now, sid', key');
    assert Visited(memory, rows, sid, tool, resource, now, resource);
    if resource != "" {
      LevelKeysDiffer(tool, resource);
      TouchedElsewhere(memory, sid, key, now, sid, root);
      assert Visited(memory, rows, sid, tool, resource, now, "")
        <==> Verdict(memory, rows, sid, tool, resource, now) == None;
    }
  }
}
