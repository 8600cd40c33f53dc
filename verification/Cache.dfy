/**
 The presence cache (internal/presence/cache.go): results live for a while, and
 concurrent callers that miss share one probe.

 `Cache` holds the critical sections.  `State` adds the callers of Resolve, each
 somewhere between its first lookup and its answer; `calls` and `stores` remember
 every probe that was started and every result that was stored.
 */
module Cache {

  type Key = string

  datatype Option<T> = None | Some(value: T)

  datatype Result = Result(body: int, cached: bool, expiresAt: int)

  datatype Entry = Entry(result: Result, expiresAt: int)

  const DEFAULT_TTL := 30_000_000_000

  function Ttl(ttl: int): int { if ttl <= 0 then DEFAULT_TTL else ttl }

  // ---------------------------------------------------------------- the critical sections

  predicate Fresh(entries: map<Key, Entry>, key: Key, now: int) { key in entries && now < entries[key].expiresAt }

  /** What Get answers, */
  function Lookup(entries: map<Key, Entry>, key: Key, force: bool, now: int): Option<Result> {
    if key == "" || force || !Fresh(entries, key, now) then None else
    Some(entries[key].result.(cached := true, expiresAt := entries[key].expiresAt))
  }

  /** and what it leaves: an expired entry is dropped. */
  function Looked(entries: map<Key, Entry>, key: Key, force: bool, now: int): map<Key, Entry> {
    if key == "" || force || Fresh(entries, key, now) then entries else entries - {key}
  }

  function Stamped(result: Result, expiresAt: int): Result { result.(cached := false, expiresAt := expiresAt) }

  function SetResult(key: Key, result: Result, expiresAt: int): Result {
    if key == "" then result else Stamped(result, expiresAt)
  }

  function SetEntries(entries: map<Key, Entry>, key: Key, result: Result, expiresAt: int): map<Key, Entry> {
    if key == "" then entries else entries[key := Entry(Stamped(result, expiresAt), expiresAt)]
  }

  class Cache {
    const ttl: int
    var entries: map<Key, Entry>
    var inFlight: map<Key, nat>

    constructor (ttl: int)
      ensures this.ttl == Ttl(ttl) > 0 && entries == map[] && inFlight == map[]
    {
      this.ttl, entries, inFlight := Ttl(ttl), map[], map[];
    }

    method Get(key: Key, force: bool, now: int) returns (hit: Option<Result>)
      modifies this`entries
      ensures hit == Lookup(old(entries), key, force, now) && entries == Looked(old(entries), key, force, now)
      ensures key == "" || force ==> hit == None && entries == old(entries)
      ensures key != "" && !force && key in old(entries) && now < old(entries)[key].expiresAt ==>
                && hit == Some(Result(old(entries)[key].result.body, true, old(entries)[key].expiresAt))
                && entries == old(entries)
      ensures key != "" && !force && !(key in old(entries) && now < old(entries)[key].expiresAt) ==>
                hit == None && entries == old(entries) - {key}
    {
      if key == "" || force {
        return None;
      }
      if key !in entries || !(now < entries[key].expiresAt) {
        if key in entries {
          entries := entries - {key};
        }
        assert entries == old(entries) - {key};
        return None;
      }
      var entry := entries[key];
      hit := Some(entry.result.(cached := true, expiresAt := entry.expiresAt));
    }

    method Set(key: Key, result: Result, now: int) returns (stored: Result)
      modifies this`entries
      ensures stored == SetResult(key, result, now + ttl) && entries == SetEntries(old(entries), key, result, now + ttl)
      ensures key == "" ==> stored == result && entries == old(entries)
      ensures key != "" ==>
                && stored == Result(result.body, false, now + ttl)
                && entries == old(entries)[key := Entry(stored, now + ttl)]
    {
      if key == "" {
        return result;
      }
      stored := result.(cached := false, expiresAt := now + ttl);
      entries := entries[key := Entry(stored, now + ttl)];
    }

    method Invalidate(key: Key)
      modifies this`entries
      ensures entries == if key == "" then old(entries) else old(entries) - {key}
    {
      if key != "" {
        entries := entries - {key};
      }
    }

    /** Join the call in flight, or start one under the given number. */
    method Join(key: Key, number: nat) returns (call: nat, owner: bool)
      modifies this`inFlight
      ensures owner <==> key !in old(inFlight)
      ensures call == (if owner then number else old(inFlight)[key]) && inFlight == old(inFlight)[key := call]
    {
      if key in inFlight {
        assert inFlight[key := inFlight[key]] == inFlight;
        return inFlight[key], false;
      }
      inFlight := inFlight[key := number];
      return number, true;
    }

    method Finish(key: Key)
      modifies this`inFlight
      ensures inFlight == old(inFlight) - {key}
    {
      inFlight := inFlight - {key};
    }
  }

  // ---------------------------------------------------------------- callers of Resolve

  datatype Answer =
    | Hit(hit: Result, at: int)
    | Own(call: nat, own: Result)
    | OwnCancelled(call: nat)
    | Shared(call: nat, result: Result, cancelled: bool)   // what the owner published
    | GaveUp

  datatype Phase =
    | Asking
    | Missed(seen: nat)                         // before the second lock; `seen` results had been stored at the lookup
    | Waiting(call: nat)
    | Probing(call: nat)
    | Probed(call: nat, raw: Result)
    | Storing(call: nat, raw: Result)           // found its context live
    | Leaving(call: nat, result: Result, cancelled: bool)
    | Done(answer: Answer)

  datatype Caller = Caller(key: Key, force: bool, cancelled: bool, phase: Phase)

  /**
   A started probe: its owner, what it returned, whether the owner's context was found cancelled
   after it, and what waiters are told.
   */
  datatype Call = Call(key: Key, owner: nat, raw: Option<Result>, late: Option<bool>, told: Option<(Result, bool)>)

  datatype Stored = Stored(key: Key, call: nat, result: Result, at: int)

  datatype State = State(ttl: int, now: int, entries: map<Key, Entry>, inFlight: map<Key, nat>, callers: seq<Caller>,
      calls: seq<Call>, stores: seq<Stored>)

  datatype Move = Look | Join | Return(raw: Result) | Check | Store | Finish | Wake | Quit

  datatype Action = Arrive(key: Key, force: bool) | Cancel(c: nat) | Tick(n: nat) | Invalidate(key: Key)
      | Work(c: nat, move: Move)

  predicate CanMove(s: State, caller: Caller, m: Move) {
    match m
    case Look => caller.phase.Asking?
    case Join => caller.phase.Missed?
    case Return(_) => caller.phase.Probing? && caller.phase.call < |s.calls|
    case Check => caller.phase.Probed? && caller.phase.call < |s.calls|
    case Store => caller.phase.Storing?
    case Finish => caller.phase.Leaving? && caller.phase.call < |s.calls|
    case Wake => caller.phase.Waiting? && caller.phase.call < |s.calls| && s.calls[caller.phase.call].told.Some?
    case Quit => caller.phase.Waiting? && caller.cancelled
  }

  predicate Enabled(s: State, a: Action) {
    match a
    case Cancel(c) => c < |s.callers|
    case Work(c, m) => c < |s.callers| && CanMove(s, s.callers[c], m)
    case _ => true
  }

  function NextPhase(s: State, caller: Caller, m: Move): Phase
    requires CanMove(s, caller, m)
  {
    var p := caller.phase;
    match m
    case Look =>
      var hit := Lookup(s.entries, caller.key, caller.force, s.now);
      if hit.Some? then Done(Hit(hit.value, s.now)) else Missed(|s.stores|)
    case Join => if caller.key in s.inFlight then Waiting(s.inFlight[caller.key]) else Probing(|s.calls|)
    case Return(raw) => Probed(p.call, raw)
    case Check => if caller.cancelled then Leaving(p.call, p.raw, true) else Storing(p.call, p.raw)
    case Store => Leaving(p.call, SetResult(caller.key, p.raw, s.now + s.ttl), false)
    case Finish => Done(if p.cancelled then OwnCancelled(p.call) else Own(p.call, p.result))
    case Wake => Done(Shared(p.call, s.calls[p.call].told.value.0, s.calls[p.call].told.value.1))
    case Quit => Done(GaveUp)
  }

  function NextCalls(s: State, c: nat, caller: Caller, m: Move): seq<Call>
    requires CanMove(s, caller, m)
  {
    var p := caller.phase;
    if m.Join? && caller.key !in s.inFlight then s.calls + [Call(caller.key, c, None, None, None)] else
    if m.Return? then s.calls[p.call := s.calls[p.call].(raw := Some(m.raw))] else
    if m.Check? then s.calls[p.call := s.calls[p.call].(late := Some(caller.cancelled))] else
    if m.Finish? then s.calls[p.call := s.calls[p.call].(told := Some((p.result, p.cancelled)))] else s.calls
  }

  function Moved(s: State, c: nat, m: Move): State
    requires Enabled(s, Work(c, m))
  {
    var caller := s.callers[c];
    var p := caller.phase;
    s.(callers := s.callers[c := caller.(phase := NextPhase(s, caller, m))],
       calls := NextCalls(s, c, caller, m),
       entries := if m.Look? then Looked(s.entries, caller.key, caller.force, s.now)
                  else if m.Store? then SetEntries(s.entries, caller.key, p.raw, s.now + s.ttl) else s.entries,
       inFlight := if m.Join? && caller.key !in s.inFlight then s.inFlight[caller.key := |s.calls|]
                   else if m.Finish? then s.inFlight - {caller.key} else s.inFlight,
       stores := if m.Store? && caller.key != "" then
         s.stores + [Stored(caller.key, p.call, Stamped(p.raw, s.now + s.ttl), s.now)] else s.stores)
  }

  function Step(s: State, a: Action): State
    requires Enabled(s, a)
  {
    match a
    case Arrive(key, force) => s.(callers := s.callers + [Caller(key, force, false, Asking)])
    case Cancel(c) => s.(callers := s.callers[c := s.callers[c].(cancelled := true)])
    case Tick(n) => s.(now := s.now + n)
    case Invalidate(key) => s.(entries := if key == "" then s.entries else s.entries - {key})
    case Work(c, m) => Moved(s, c, m)
  }

  ghost predicate Legal(s: State, acts: seq<Action>)
    decreases |acts|
  {
    acts == [] || (Enabled(s, acts[0]) && Legal(Step(s, acts[0]), acts[1..]))
  }

  ghost function Exec(s: State, acts: seq<Action>): State
    requires Legal(s, acts)
    decreases |acts|
  {
    if acts == [] then s else Exec(Step(s, acts[0]), acts[1..])
  }

  function Boot(ttl: int, now: int): State { State(Ttl(ttl), now, map[], map[], [], [], []) }

  // ---------------------------------------------------------------- the invariant

  predicate Owning(p: Phase) { p.Probing? || p.Probed? || p.Storing? || p.Leaving? }

  /** An owner's call is the one in flight for its key, and it is still untold. */
  ghost predicate OwnerFits(s: State, i: nat, c: Caller)
    requires Owning(c.phase)
  {
    var id := c.phase.call;
    && c.key in s.inFlight && s.inFlight[c.key] == id && id < |s.calls|
    && s.calls[id].key == c.key && s.calls[id].owner == i && s.calls[id].told.None?
    && (c.phase.Probing? <==> s.calls[id].raw.None?)
    && (c.phase.Probed? || c.phase.Storing? ==> s.calls[id].raw == Some(c.phase.raw))
    && (c.phase.Probing? || c.phase.Probed? ==> s.calls[id].late.None?)
    && (c.phase.Storing? ==> s.calls[id].late == Some(false))
    && (c.phase.Leaving? ==>
        s.calls[id].late == Some(c.phase.cancelled)
        && ToldFits(c.key, s.calls[id].raw, c.phase.result, c.phase.cancelled))
  }

  /** Waiters get the probe's own result, stamped if it was stored, raw if the owner was cancelled. */
  predicate ToldFits(key: Key, raw: Option<Result>, result: Result, cancelled: bool) {
    && raw.Some?
    && (cancelled ==> result == raw.value)
    && (!cancelled ==> result == SetResult(key, raw.value, if key == "" then 0 else result.expiresAt))
  }

  ghost predicate AnswerFits(s: State, key: Key, a: Answer) {
    match a
    case Hit(hit, at) => exists j :: 0 <= j < |s.stores| && HitFits(s, key, hit, at, s.stores[j])
    case Shared(id, result, cancelled) => id < |s.calls| && s.calls[id].key == key
      && s.calls[id].told == Some((result, cancelled))
    case Own(id, own) => id < |s.calls| && s.calls[id].key == key && s.calls[id].told == Some((own, false))
    case _ => true
  }

  /** The hit is a stored result, and was stored less than a TTL before. */
  ghost predicate HitFits(s: State, key: Key, hit: Result, at: int, from: Stored) {
    from.key == key && hit == from.result.(cached := true) && from.at <= at < from.at + s.ttl
  }

  /** The entry under the key is the result that store j put there. */
  ghost predicate IsFrom(s: State, key: Key, j: nat)
    requires key in s.entries
  {
    j < |s.stores| && s.stores[j].key == key && s.entries[key] == Entry(s.stores[j].result, s.stores[j].at + s.ttl)
  }

  ghost predicate StoredSince(s: State, key: Key, seen: nat)
    requires key in s.entries
  {
    exists j: nat :: seen <= j && IsFrom(s, key, j)
  }

  ghost predicate CallerFits(s: State, i: nat, c: Caller) {
    && (Owning(c.phase) ==> OwnerFits(s, i, c))
    && (c.phase.Waiting? ==> c.phase.call < |s.calls| && s.calls[c.phase.call].key == c.key)
    && (c.phase.Missed? ==> c.phase.seen <= |s.stores|)
    && (c.phase.Missed? && !c.force && c.key != "" && c.key in s.entries ==> StoredSince(s, c.key, c.phase.seen))
    && (c.phase.Done? ==> AnswerFits(s, c.key, c.phase.answer))
  }

  ghost predicate CallFits(s: State, id: nat, call: Call) {
    && call.owner < |s.callers| && s.callers[call.owner].key == call.key
    && (call.told.None? ==>
        call.key in s.inFlight && s.inFlight[call.key] == id && Owning(s.callers[call.owner].phase)
        && s.callers[call.owner].phase.call == id)
    && (call.told.Some? ==>
        call.late == Some(call.told.value.1) && ToldFits(call.key, call.raw, call.told.value.0, call.told.value.1)
        && s.callers[call.owner].phase ==
           Done(if call.told.value.1 then OwnCancelled(id) else Own(id, call.told.value.0)))
  }

  ghost predicate FlightFits(s: State, key: Key)
    requires key in s.inFlight
  {
    var id := s.inFlight[key];
    id < |s.calls| && s.calls[id].key == key && s.calls[id].told.None?
  }

  ghost predicate EntryFits(s: State, key: Key)
    requires key in s.entries
  {
    StoredSince(s, key, 0)
  }

  ghost predicate StoreFits(s: State, st: Stored) {
    && st.at <= s.now && st.call < |s.calls| && s.calls[st.call].key == st.key && s.calls[st.call].raw.Some?
    && s.calls[st.call].late == Some(false)
    && st.result == Stamped(s.calls[st.call].raw.value, st.at + s.ttl)
  }

  ghost predicate CallersFit(s: State) { forall i :: 0 <= i < |s.callers| ==> CallerFits(s, i, s.callers[i]) }
  ghost predicate CallsFit(s: State) { forall id :: 0 <= id < |s.calls| ==> CallFits(s, id, s.calls[id]) }
  ghost predicate FlightsFit(s: State) { forall key :: key in s.inFlight ==> FlightFits(s, key) }
  ghost predicate EntriesFit(s: State) { forall key :: key in s.entries ==> EntryFits(s, key) }
  ghost predicate StoresFit(s: State) { forall j :: 0 <= j < |s.stores| ==> StoreFits(s, s.stores[j]) }

  ghost predicate Inv(s: State) {
    s.ttl > 0 && CallersFit(s) && CallsFit(s) && FlightsFit(s) && EntriesFit(s) && StoresFit(s)
  }

  // ---------------------------------------------------------------- every step keeps it

  /** An entry that stays, or is stored anew, is still from a store at least as late. */
  lemma StillStoredSince(s: State, c: nat, m: Move, key: Key, seen: nat)
    requires Enabled(s, Work(c, m)) && key in Moved(s, c, m).entries && seen <= |s.stores|
    requires key in s.entries ==> StoredSince(s, key, seen)
    ensures StoredSince(Moved(s, c, m), key, seen)
  {
    var s' := Moved(s, c, m);
    if m.Store? && key == s.callers[c].key && key != "" {
      assert IsFrom(s', key, |s.stores|);
    } else {
      var j: nat :| seen <= j && IsFrom(s, key, j);
      assert IsFrom(s', key, j);
    }
  }

  lemma OtherCallerFits(s: State, c: nat, m: Move, i: nat)
    requires CallersFit(s) && Enabled(s, Work(c, m)) && i < |s.callers| && i != c
    ensures CallerFits(Moved(s, c, m), i, s.callers[i])
  {
    var other := s.callers[i];
    assert CallerFits(s, i, other) && CallerFits(s, c, s.callers[c]);
    if other.phase.Missed? && !other.force && other.key != "" && other.key in Moved(s, c, m).entries {
      StillStoredSince(s, c, m, other.key, other.phase.seen);
    }
  }

  lemma LookerFits(s: State, c: nat)
    requires EntriesFit(s) && StoresFit(s) && Enabled(s, Work(c, Look))
    ensures CallerFits(Moved(s, c, Look), c, Moved(s, c, Look).callers[c])
  {
    var caller := s.callers[c];
    if Lookup(s.entries, caller.key, caller.force, s.now).Some? {
      assert EntryFits(s, caller.key);
      var j: nat :| IsFrom(s, caller.key, j);
      assert StoreFits(s, s.stores[j]);
      assert HitFits(Moved(s, c, Look), caller.key, Lookup(s.entries, caller.key, caller.force, s.now).value, s.now,
             s.stores[j]);
    }
  }

  lemma MoverFits(s: State, c: nat, m: Move)
    requires CallersFit(s) && FlightsFit(s) && EntriesFit(s) && StoresFit(s) && Enabled(s, Work(c, m))
    ensures CallerFits(Moved(s, c, m), c, Moved(s, c, m).callers[c])
  {
    if m.Look? {
      LookerFits(s, c);
    } else {
      OwnerOrWaiterFits(s, c, m);
    }
  }

  lemma OwnerOrWaiterFits(s: State, c: nat, m: Move)
    requires CallersFit(s) && FlightsFit(s) && Enabled(s, Work(c, m)) && !m.Look?
    ensures CallerFits(Moved(s, c, m), c, Moved(s, c, m).callers[c])
  {
    assert CallerFits(s, c, s.callers[c]);
  }

  lemma CallStaysFit(s: State, c: nat, m: Move, id: nat)
    requires CallersFit(s) && CallsFit(s) && FlightsFit(s) && Enabled(s, Work(c, m)) && id < |s.calls|
    ensures CallFits(Moved(s, c, m), id, Moved(s, c, m).calls[id])
  {
    assert CallerFits(s, c, s.callers[c]);
    assert CallFits(s, id, s.calls[id]);
  }

  lemma NewCallFits(s: State, c: nat, m: Move)
    requires Enabled(s, Work(c, m)) && |s.calls| < |Moved(s, c, m).calls|
    ensures CallFits(Moved(s, c, m), |s.calls|, Moved(s, c, m).calls[|s.calls|])
  {
  }

  lemma FlightStaysFit(s: State, c: nat, m: Move, key: Key)
    requires CallersFit(s) && FlightsFit(s) && Enabled(s, Work(c, m)) && key in Moved(s, c, m).inFlight
    ensures FlightFits(Moved(s, c, m), key)
  {
    assert CallerFits(s, c, s.callers[c]);
  }

  lemma EntryStaysFit(s: State, c: nat, m: Move, key: Key)
    requires EntriesFit(s) && Enabled(s, Work(c, m)) && key in Moved(s, c, m).entries
    ensures EntryFits(Moved(s, c, m), key)
  {
    assert key in s.entries ==> EntryFits(s, key);
    StillStoredSince(s, c, m, key, 0);
  }

  lemma StoreStaysFit(s: State, c: nat, m: Move, j: nat)
    requires CallersFit(s) && StoresFit(s) && Enabled(s, Work(c, m)) && j < |Moved(s, c, m).stores|
    ensures StoreFits(Moved(s, c, m), Moved(s, c, m).stores[j])
  {
    assert CallerFits(s, c, s.callers[c]);
    assert j < |s.stores| ==> StoreFits(s, s.stores[j]);
  }

  lemma MoveKeepsInv(s: State, c: nat, m: Move)
    requires Inv(s) && Enabled(s, Work(c, m))
    ensures Inv(Moved(s, c, m))
  {
    var s' := Moved(s, c, m);
    forall i | 0 <= i < |s'.callers| ensures CallerFits(s', i, s'.callers[i]) {
      if i == c { MoverFits(s, c, m); } else { OtherCallerFits(s, c, m, i); }
    }
    forall id | 0 <= id < |s'.calls| ensures CallFits(s', id, s'.calls[id]) {
      if id < |s.calls| { CallStaysFit(s, c, m, id); } else { NewCallFits(s, c, m); }
    }
    forall key | key in s'.inFlight ensures FlightFits(s', key) { FlightStaysFit(s, c, m, key); }
    forall key | key in s'.entries ensures EntryFits(s', key) { EntryStaysFit(s, c, m, key); }
    forall j | 0 <= j < |s'.stores| ensures StoreFits(s', s'.stores[j]) { StoreStaysFit(s, c, m, j); }
  }

  lemma OutsideEntryFits(s: State, a: Action, key: Key, seen: nat)
    requires Enabled(s, a) && !a.Work? && key in Step(s, a).entries && (key in s.entries ==> StoredSince(s, key, seen))
    ensures StoredSince(Step(s, a), key, seen)
  {
    var j: nat :| seen <= j && IsFrom(s, key, j);
    assert IsFrom(Step(s, a), key, j);
  }

  lemma OutsideCallerFits(s: State, a: Action, i: nat)
    requires CallersFit(s) && Enabled(s, a) && !a.Work? && i < |s.callers|
    ensures CallerFits(Step(s, a), i, Step(s, a).callers[i])
  {
    var c := s.callers[i];
    assert CallerFits(s, i, c);
    if c.phase.Missed? && c.key in Step(s, a).entries && !c.force && c.key != "" {
      OutsideEntryFits(s, a, c.key, c.phase.seen);
    }
  }

  /** Arrivals, cancellations, the clock and invalidations. */
  lemma OutsideKeepsInv(s: State, a: Action)
    requires Inv(s) && Enabled(s, a) && !a.Work?
    ensures Inv(Step(s, a))
  {
    var s' := Step(s, a);
    forall i | 0 <= i < |s'.callers| ensures CallerFits(s', i, s'.callers[i]) {
      if i < |s.callers| { OutsideCallerFits(s, a, i); }
    }
    forall key | key in s'.entries ensures EntryFits(s', key) { OutsideEntryFits(s, a, key, 0); }
  }

  lemma {:induction false} RunKeepsInv(s: State, acts: seq<Action>)
    requires Inv(s) && Legal(s, acts)
    ensures Inv(Exec(s, acts))
    decreases |acts|
  {
    if acts != [] {
      if acts[0].Work? { MoveKeepsInv(s, acts[0].c, acts[0].move); } else { OutsideKeepsInv(s, acts[0]); }
      RunKeepsInv(Step(s, acts[0]), acts[1..]);
    }
  }

  // ---------------------------------------------------------------- theorems

  /** The caller runs the call's probe, or stores or publishes its result. */
  predicate Runs(c: Caller, key: Key, call: nat) { Owning(c.phase) && c.key == key && c.phase.call == call }

  /** At most one probe per key is running; inFlight names exactly the running ones. */
  lemma SingleFlight(ttl: int, now: int, acts: seq<Action>)
    requires Legal(Boot(ttl, now), acts)
    ensures var s := Exec(Boot(ttl, now), acts);
            && (forall i, j :: 0 <= i < |s.callers| && 0 <= j < |s.callers| ==>
                  Owning(s.callers[i].phase) && Owning(s.callers[j].phase) && s.callers[i].key == s.callers[j].key ==>
                    i == j)
            && (forall i :: 0 <= i < |s.callers| && Owning(s.callers[i].phase) ==>
                s.callers[i].key in s.inFlight && s.inFlight[s.callers[i].key] == s.callers[i].phase.call)
            && (forall key :: key in s.inFlight ==>
                exists i :: 0 <= i < |s.callers| && Runs(s.callers[i], key, s.inFlight[key]))
  {
    var s := Exec(Boot(ttl, now), acts);
    RunKeepsInv(Boot(ttl, now), acts);
    forall i | 0 <= i < |s.callers| && Owning(s.callers[i].phase) ensures OwnerFits(s, i, s.callers[i]) {
      assert CallerFits(s, i, s.callers[i]);
    }
    forall key | key in s.inFlight
      ensures exists i :: 0 <= i < |s.callers| && Runs(s.callers[i], key, s.inFlight[key])
    {
      assert FlightFits(s, key);
      var id := s.inFlight[key];
      assert CallFits(s, id, s.calls[id]);
      assert Runs(s.callers[s.calls[id].owner], key, id);
    }
  }

  /** A waiter that was answered got what its key's probe returned, together with what happened to the probe's owner. */
  lemma WaitersGetTheOwners(ttl: int, now: int, acts: seq<Action>, i: nat)
    requires Legal(Boot(ttl, now), acts)
    requires var s := Exec(Boot(ttl, now), acts);
             i < |s.callers| && s.callers[i].phase.Done? && s.callers[i].phase.answer.Shared?
    ensures var s := Exec(Boot(ttl, now), acts);
            var a := s.callers[i].phase.answer;
            && a.call < |s.calls| && s.calls[a.call].key == s.callers[i].key && s.calls[a.call].owner < |s.callers|
            && s.calls[a.call].raw.Some? && a.result.body == s.calls[a.call].raw.value.body
            && s.calls[a.call].late == Some(a.cancelled)
            && (a.cancelled || s.callers[i].key == "" ==> a.result == s.calls[a.call].raw.value)
            && (!a.cancelled && s.callers[i].key != "" ==> !a.result.cached)
            && s.callers[s.calls[a.call].owner].phase ==
               Done(if a.cancelled then OwnCancelled(a.call) else Own(a.call, a.result))
  {
    var s := Exec(Boot(ttl, now), acts);
    RunKeepsInv(Boot(ttl, now), acts);
    assert CallerFits(s, i, s.callers[i]);
    var id := s.callers[i].phase.answer.call;
    assert CallFits(s, id, s.calls[id]);
  }

  /** The owner found its context live: it is storing or publishing the result, or has returned it as its own. */
  predicate Uncancelled(p: Phase, call: nat) {
    || (p.Storing? && p.call == call)
    || (p.Leaving? && p.call == call && !p.cancelled)
    || (p.Done? && p.answer.Own? && p.answer.call == call)
  }

  /**
   A hit is the result of a probe for the same key that completed uncancelled and was stored less
   than a TTL before.
   */
  lemma HitsAreFresh(ttl: int, now: int, acts: seq<Action>, i: nat) returns (j: nat)
    requires Legal(Boot(ttl, now), acts)
    requires var s := Exec(Boot(ttl, now), acts);
             i < |s.callers| && s.callers[i].phase.Done? && s.callers[i].phase.answer.Hit?
    ensures var s := Exec(Boot(ttl, now), acts);
            var a := s.callers[i].phase.answer;
            && j < |s.stores| && s.stores[j].key == s.callers[i].key
               && s.stores[j].at <= a.at < s.stores[j].at + Ttl(ttl)
            && a.hit == s.stores[j].result.(cached := true) && a.hit.cached
            && a.hit.expiresAt == s.stores[j].at + (if ttl <= 0 then 30_000_000_000 else ttl)
            && s.stores[j].call < |s.calls| && s.calls[s.stores[j].call].key == s.callers[i].key
            && s.calls[s.stores[j].call].raw.Some? && a.hit.body == s.calls[s.stores[j].call].raw.value.body
            && s.calls[s.stores[j].call].late == Some(false)
            && s.calls[s.stores[j].call].owner < |s.callers|
               && Uncancelled(s.callers[s.calls[s.stores[j].call].owner].phase, s.stores[j].call)
  {
    var s := Exec(Boot(ttl, now), acts);
    RunKeepsInv(Boot(ttl, now), acts);
    TtlKept(Boot(ttl, now), acts);
    assert CallerFits(s, i, s.callers[i]);
    var a := s.callers[i].phase.answer;
    var k :| 0 <= k < |s.stores| && HitFits(s, s.callers[i].key, a.hit, a.at, s.stores[k]);
    assert StoreFits(s, s.stores[k]);
    j := k;
    var id := s.stores[j].call;
    assert CallFits(s, id, s.calls[id]);
    assert CallerFits(s, s.calls[id].owner, s.callers[s.calls[id].owner]);
  }

  /** An owner whose context was live gets the result of its own probe, stamped if it was stored. */
  lemma OwnersGetTheirs(ttl: int, now: int, acts: seq<Action>, i: nat)
    requires Legal(Boot(ttl, now), acts)
    requires var s := Exec(Boot(ttl, now), acts);
             i < |s.callers| && s.callers[i].phase.Done? && s.callers[i].phase.answer.Own?
    ensures var s := Exec(Boot(ttl, now), acts);
            var a := s.callers[i].phase.answer;
            && a.call < |s.calls| && s.calls[a.call].key == s.callers[i].key && s.calls[a.call].raw.Some?
            && s.calls[a.call].late == Some(false)
            && (s.callers[i].key == "" ==> a.own == s.calls[a.call].raw.value)
            && (s.callers[i].key != "" ==> a.own.body == s.calls[a.call].raw.value.body && !a.own.cached)
  {
    var s := Exec(Boot(ttl, now), acts);
    RunKeepsInv(Boot(ttl, now), acts);
    assert CallerFits(s, i, s.callers[i]);
    var id := s.callers[i].phase.answer.call;
    assert CallFits(s, id, s.calls[id]);
  }

  // ---------------------------------------------------------------- what was asked, and what the probes returned

  /** The callers as they arrived: their keys and whether they force a probe. */
  function Asked(acts: seq<Action>): seq<(Key, bool)> {
    if acts == [] then [] else (if acts[0].Arrive? then [(acts[0].key, acts[0].force)] else []) + Asked(acts[1..])
  }

  lemma {:induction false} CallersAsAsked(s: State, acts: seq<Action>)
    requires Legal(s, acts)
    ensures var t := Exec(s, acts);
            && |t.callers| == |s.callers| + |Asked(acts)|
            && (forall i :: 0 <= i < |s.callers| ==>
                t.callers[i].key == s.callers[i].key && t.callers[i].force == s.callers[i].force)
            && (forall i :: 0 <= i < |Asked(acts)| ==>
                var c := t.callers[|s.callers| + i]; (c.key, c.force) == Asked(acts)[i])
    decreases |acts|
  {
    if acts != [] {
      var s1 := Step(s, acts[0]);
      CallersAsAsked(s1, acts[1..]);
      if acts[0].Arrive? {
        assert s1.callers[|s.callers|] == Caller(acts[0].key, acts[0].force, false, Asking);
      }
    }
  }

  /** The caller's context is cancelled exactly if some step cancels it. */
  lemma {:induction false} CancelledAsAsked(s: State, acts: seq<Action>, i: nat)
    requires Legal(s, acts) && i < |Exec(s, acts).callers|
    ensures Exec(s, acts).callers[i].cancelled <==> (i < |s.callers| && s.callers[i].cancelled) || Cancel(i) in acts
    decreases |acts|
  {
    if acts != [] {
      CancelledAsAsked(Step(s, acts[0]), acts[1..], i);
      assert acts == [acts[0]] + acts[1..];
    }
  }

  /** What the steps say the probe with this number returned. */
  ghost function RawOf(s: State, acts: seq<Action>, id: nat, before: Option<Result>): Option<Result>
    requires Legal(s, acts)
    decreases |acts|
  {
    if acts == [] then before else
    var a := acts[0];
    RawOf(Step(s, a), acts[1..], id,
      if a.Work? && a.move.Return? && s.callers[a.c].phase == Probing(id) then Some(a.move.raw) else before)
  }

  lemma {:induction false} ProbesAsReturned(s: State, acts: seq<Action>, id: nat, before: Option<Result>)
    requires Legal(s, acts) && id < |Exec(s, acts).calls|
    requires before == if id < |s.calls| then s.calls[id].raw else None
    ensures |s.calls| <= |Exec(s, acts).calls| && Exec(s, acts).calls[id].raw == RawOf(s, acts, id, before)
    decreases |acts|
  {
    if acts != [] {
      var a := acts[0];
      ProbesAsReturned(Step(s, a), acts[1..], id,
        if a.Work? && a.move.Return? && s.callers[a.c].phase == Probing(id) then Some(a.move.raw) else before);
    }
  }

  // ---------------------------------------------------------------- forced looks and fresh ones

  ghost predicate NoForcedHit(s: State) {
    forall i :: 0 <= i < |s.callers| && (s.callers[i].force || s.callers[i].key == "") && s.callers[i].phase.Done? ==>
      !s.callers[i].phase.answer.Hit?
  }

  lemma {:induction false} StaysUnforced(s: State, acts: seq<Action>)
    requires Legal(s, acts) && NoForcedHit(s)
    ensures NoForcedHit(Exec(s, acts))
    decreases |acts|
  {
    if acts != [] {
      StaysUnforced(Step(s, acts[0]), acts[1..]);
    }
  }

  /** A caller that forces a probe, or has no key, is never answered from the cache, and its look changes no entry. */
  lemma ForcedNeverHits(ttl: int, now: int, acts: seq<Action>, i: nat)
    requires Legal(Boot(ttl, now), acts)
    requires var s := Exec(Boot(ttl, now), acts); i < |s.callers| && (s.callers[i].force || s.callers[i].key == "")
    ensures var s := Exec(Boot(ttl, now), acts);
            && (s.callers[i].phase.Done? ==> !s.callers[i].phase.answer.Hit?)
            && (s.callers[i].phase.Asking? ==> Step(s, Work(i, Look)).entries == s.entries)
  {
    StaysUnforced(Boot(ttl, now), acts);
  }

  /**
   Any other look is a hit exactly if the last result stored for the key is less than a TTL old and
   was not invalidated.
   */
  lemma LookHitsIff(ttl: int, now: int, acts: seq<Action>, i: nat)
    requires Legal(Boot(ttl, now), acts)
    requires var s := Exec(Boot(ttl, now), acts);
             i < |s.callers| && s.callers[i].phase.Asking? && !s.callers[i].force && s.callers[i].key != ""
    ensures var s := Exec(Boot(ttl, now), acts);
            var p := Step(s, Work(i, Look)).callers[i].phase;
            var age := Age(Boot(ttl, now), acts, s.callers[i].key, None);
            && (p.Done? <==> age.Some? && age.value < (if ttl <= 0 then 30_000_000_000 else ttl))
            && (p.Done? ==> p.answer.Hit? && p.answer.at == s.now)
            && (!p.Done? ==> p.Missed?)
  {
    AgeIsKept(Boot(ttl, now), acts, Exec(Boot(ttl, now), acts).callers[i].key, None);
  }

  /** The caller has turned away, or is about to, with a context error of its own. */
  predicate TurnedAway(p: Phase) {
    (p.Leaving? && p.cancelled) || (p.Done? && (p.answer.OwnCancelled? || p.answer.GaveUp?))
  }

  ghost predicate OnlyIfCancelled(s: State) {
    forall i :: 0 <= i < |s.callers| && TurnedAway(s.callers[i].phase) ==> s.callers[i].cancelled
  }

  lemma {:induction false} StaysOnlyIfCancelled(s: State, acts: seq<Action>)
    requires Legal(s, acts) && OnlyIfCancelled(s)
    ensures OnlyIfCancelled(Exec(s, acts))
    decreases |acts|
  {
    if acts != [] {
      StaysOnlyIfCancelled(Step(s, acts[0]), acts[1..]);
    }
  }

  /** A context error comes only to a caller that was cancelled, or that waited for one that was. */
  lemma ErrorsAreCancellations(ttl: int, now: int, acts: seq<Action>, i: nat)
    requires Legal(Boot(ttl, now), acts)
    requires var s := Exec(Boot(ttl, now), acts); i < |s.callers| && s.callers[i].phase.Done?
    ensures var s := Exec(Boot(ttl, now), acts);
            var a := s.callers[i].phase.answer;
            && (a.GaveUp? || a.OwnCancelled? ==> s.callers[i].cancelled)
            && (a.Shared? && a.cancelled ==>
                a.call < |s.calls| && s.calls[a.call].key == s.callers[i].key
                && s.calls[a.call].owner < |s.callers| && s.callers[s.calls[a.call].owner].cancelled)
  {
    StaysOnlyIfCancelled(Boot(ttl, now), acts);
    if Exec(Boot(ttl, now), acts).callers[i].phase.answer.Shared? {
      WaitersGetTheOwners(ttl, now, acts, i);
    }
  }

  lemma {:induction false} TtlKept(s: State, acts: seq<Action>)
    requires Legal(s, acts)
    ensures Exec(s, acts).ttl == s.ttl
    decreases |acts|
  {
    if acts != [] {
      TtlKept(Step(s, acts[0]), acts[1..]);
    }
  }

  /** A caller that has no answer can move, or waits for one that can: nobody waits for ever. */
  lemma NobodyStuck(s: State, i: nat) returns (c: nat, m: Move)
    requires Inv(s) && i < |s.callers| && !s.callers[i].phase.Done?
    ensures Enabled(s, Work(c, m))
    ensures c == i || (s.callers[i].phase.Waiting? && Owning(s.callers[c].phase)
            && s.callers[c].key == s.callers[i].key)
  {
    var caller := s.callers[i];
    assert CallerFits(s, i, caller);
    c := i;
    match caller.phase
    case Asking => m := Look;
    case Missed(_) => m := Join;
    case Waiting(id) =>
      assert CallFits(s, id, s.calls[id]);
      if s.calls[id].told.Some? {
        m := Wake;
      } else {
        c := s.calls[id].owner;
        assert CallerFits(s, c, s.callers[c]);
        m := OwnerMove(s.callers[c].phase);
      }
    case Probing(_) => m := OwnerMove(caller.phase);
    case Probed(_, _) => m := OwnerMove(caller.phase);
    case Storing(_, _) => m := OwnerMove(caller.phase);
    case Leaving(_, _, _) => m := OwnerMove(caller.phase);
  }

  function OwnerMove(p: Phase): Move
    requires Owning(p)
  {
    match p
    case Probing(_) => Return(Result(0, false, 0))
    case Probed(_, _) => Check
    case Storing(_, _) => Store
    case Leaving(_, _, _) => Finish
  }

  /** Every move brings its caller nearer to its answer. */
  function Left(p: Phase): nat {
    match p
    case Asking => 7
    case Missed(_) => 6
    case Waiting(_) => 1
    case Probing(_) => 5
    case Probed(_, _) => 4
    case Storing(_, _) => 3
    case Leaving(_, _, _) => 2
    case Done(_) => 0
  }

  function MovesOf(acts: seq<Action>, c: nat): nat {
    if acts == [] then 0 else MovesOf(acts[1..], c) + if acts[0].Work? && acts[0].c == c then 1 else 0
  }

  lemma {:induction false} MovesLead(s: State, acts: seq<Action>, c: nat)
    requires Legal(s, acts)
    ensures |s.callers| <= |Exec(s, acts).callers|
    ensures c < |s.callers| ==> MovesOf(acts, c) + Left(Exec(s, acts).callers[c].phase) <= Left(s.callers[c].phase)
    ensures MovesOf(acts, c) <= 7
    decreases |acts|
  {
    if acts != [] {
      MovesLead(Step(s, acts[0]), acts[1..], c);
    }
  }

  /** A caller of Resolve makes at most seven moves, and as long as one has no answer, some caller can make one. */
  lemma EveryoneIsAnswered(ttl: int, now: int, acts: seq<Action>, c: nat)
    requires Legal(Boot(ttl, now), acts)
    ensures MovesOf(acts, c) <= 7
    ensures var s := Exec(Boot(ttl, now), acts);
            (exists i :: 0 <= i < |s.callers| && !s.callers[i].phase.Done?) ==>
             exists k: nat, m: Move :: Enabled(s, Work(k, m))
  {
    MovesLead(Boot(ttl, now), acts, c);
    RunKeepsInv(Boot(ttl, now), acts);
    var s := Exec(Boot(ttl, now), acts);
    if i :| 0 <= i < |s.callers| && !s.callers[i].phase.Done? {
      var k, m := NobodyStuck(s, i);
    }
  }

  lemma Then(s: State, a: Action, rest: seq<Action>)
    requires Enabled(s, a) && Legal(Step(s, a), rest)
    ensures Legal(s, [a] + rest) && Exec(s, [a] + rest) == Exec(Step(s, a), rest)
  {
    assert ([a] + rest)[1..] == rest;
  }

  /** A fresh entry for a caller that missed is from a store after its lookup. */
  lemma StoredSinceLook(ttl: int, now: int, acts: seq<Action>, i: nat)
    requires Legal(Boot(ttl, now), acts)
    requires var s := Exec(Boot(ttl, now), acts);
             i < |s.callers| && s.callers[i].phase.Missed? && !s.callers[i].force && s.callers[i].key != ""
    ensures var s, key := Exec(Boot(ttl, now), acts), Exec(Boot(ttl, now), acts).callers[i].key;
            Fresh(s.entries, key, s.now) ==> StoredSince(s, key, s.callers[i].phase.seen)
  {
    RunKeepsInv(Boot(ttl, now), acts);
    var s := Exec(Boot(ttl, now), acts);
    assert CallerFits(s, i, s.callers[i]);
  }

  /** How long ago a result was stored under the key and not invalidated since, as far as this step shows. */
  function NextAge(s: State, a: Action, key: Key, age: Option<nat>): Option<nat>
    requires Enabled(s, a)
  {
    match a
    case Tick(n) => if age.Some? then Some(age.value + n) else None
    case Invalidate(k) => if k == key then None else age
    case Work(c, m) => if m.Store? && s.callers[c].key == key then Some(0) else age
    case _ => age
  }

  /** As far as these steps show. */
  ghost function Age(s: State, acts: seq<Action>, key: Key, age: Option<nat>): Option<nat>
    requires Legal(s, acts)
    decreases |acts|
  {
    if acts == [] then age else Age(Step(s, acts[0]), acts[1..], key, NextAge(s, acts[0], key, age))
  }

  predicate IsAge(s: State, key: Key, age: Option<nat>) {
    if age.Some? && age.value < s.ttl
    then key in s.entries && s.entries[key].expiresAt == s.now - age.value + s.ttl
    else !Fresh(s.entries, key, s.now)
  }

  lemma {:induction false} AgeIsKept(s: State, acts: seq<Action>, key: Key, age: Option<nat>)
    requires Legal(s, acts) && key != "" && IsAge(s, key, age)
    ensures IsAge(Exec(s, acts), key, Age(s, acts, key, age)) && Exec(s, acts).ttl == s.ttl
    decreases |acts|
  {
    if acts != [] {
      AgeIsKept(Step(s, acts[0]), acts[1..], key, NextAge(s, acts[0], key, age));
    }
  }

  /**
   In every run, after a caller has looked for its key and missed, the key is fresh exactly
   if since that look a result was stored for it, less than a TTL ago, that has not been
   invalidated.
   */
  lemma RepeatedProbeIff(ttl: int, now: int, before: seq<Action>, i: nat, after: seq<Action>)
    requires Legal(Boot(ttl, now), before) && Enabled(Exec(Boot(ttl, now), before), Work(i, Look))
    requires var s := Step(Exec(Boot(ttl, now), before), Work(i, Look));
             s.callers[i].phase.Missed? && !s.callers[i].force && s.callers[i].key != "" && Legal(s, after)
    ensures var s := Step(Exec(Boot(ttl, now), before), Work(i, Look));
            var t, key := Exec(s, after), s.callers[i].key;
            var age := Age(s, after, key, None);
            Fresh(t.entries, key, t.now) <==> age.Some? && age.value < Ttl(ttl)
  {
    var s := Step(Exec(Boot(ttl, now), before), Work(i, Look));
    TtlKept(Boot(ttl, now), before);
    AgeIsKept(s, after, s.callers[i].key, None);
  }

  /** From s to t, caller c has run one probe and left with its result, which is now cached. */
  predicate HasProbed(s: State, t: State, c: nat, raw: Result)
    requires c < |s.callers|
  {
    var stored := Stamped(raw, s.now + s.ttl);
    && t.calls == s.calls + [Call(s.callers[c].key, c, Some(raw), Some(false), Some((stored, false)))]
    && t.inFlight == s.inFlight && t.now == s.now && Fresh(t.entries, s.callers[c].key, t.now)
    && t.callers == s.callers[c := s.callers[c].(phase := Done(Own(|s.calls|, stored)))]
  }

  lemma StoreAndLeave(s: State, c: nat) returns (acts: seq<Action>)
    requires c < |s.callers| && s.callers[c].phase.Storing? && s.callers[c].phase.call < |s.calls|
    requires s.callers[c].key != "" && s.ttl > 0
    ensures Legal(s, acts)
    ensures var t, p, key := Exec(s, acts), s.callers[c].phase, s.callers[c].key;
            var stored := Stamped(p.raw, s.now + s.ttl);
            && t.calls == s.calls[p.call := s.calls[p.call].(told := Some((stored, false)))]
            && t.inFlight == s.inFlight - {key} && t.now == s.now && Fresh(t.entries, key, t.now)
            && t.callers == s.callers[c := s.callers[c].(phase := Done(Own(p.call, stored)))]
  {
    var s1 := Step(s, Work(c, Store));
    Then(s1, Work(c, Finish), []);
    acts := [Work(c, Finish)] + [];
    Then(s, Work(c, Store), acts);
    acts := [Work(c, Store)] + acts;
  }

  lemma JoinAndProbe(s: State, c: nat, raw: Result) returns (acts: seq<Action>)
    requires c < |s.callers| && s.callers[c].phase.Missed? && !s.callers[c].cancelled && s.callers[c].key !in s.inFlight
    ensures Legal(s, acts)
    ensures var caller := s.callers[c];
            Exec(s, acts) == s.(callers := s.callers[c := caller.(phase := Storing(|s.calls|, raw))],
                                calls := s.calls + [Call(caller.key, c, Some(raw), Some(false), None)],
                                inFlight := s.inFlight[caller.key := |s.calls|])
  {
    var s1 := Step(s, Work(c, Join));
    var s2 := Step(s1, Work(c, Return(raw)));
    Then(s2, Work(c, Check), []);
    acts := [Work(c, Check)] + [];
    Then(s1, Work(c, Return(raw)), acts);
    acts := [Work(c, Return(raw))] + acts;
    Then(s, Work(c, Join), acts);
    acts := [Work(c, Join)] + acts;
  }

  /** A caller that missed when nothing is in flight probes, stores and leaves. */
  lemma OneProbe(s: State, c: nat, raw: Result) returns (acts: seq<Action>)
    requires c < |s.callers| && s.callers[c].phase.Missed? && !s.callers[c].cancelled && s.callers[c].key !in s.inFlight
    requires s.callers[c].key != "" && s.ttl > 0
    ensures Legal(s, acts)
    ensures HasProbed(s, Exec(s, acts), c, raw)
  {
    var first := JoinAndProbe(s, c, raw);
    var second := StoreAndLeave(Exec(s, first), c);
    Joined(s, first, second);
    acts := first + second;
    assert s.inFlight[s.callers[c].key := |s.calls|] - {s.callers[c].key} == s.inFlight;
  }

  /**
   Two callers that both missed may still probe one after the other: the lookup is not repeated under
   the second lock.
   */
  lemma TwoProbesInSequence(s: State, i: nat, j: nat, raw: Result) returns (acts: seq<Action>)
    requires i < |s.callers| && j < |s.callers| && i != j && s.ttl > 0
    requires s.callers[i] == s.callers[j] == Caller(s.callers[i].key, false, false, s.callers[i].phase)
    requires s.callers[i].phase.Missed?
    requires s.callers[i].key !in s.inFlight && s.callers[i].key != ""
    ensures Legal(s, acts)
    ensures var t := Exec(s, acts);
            && |t.calls| == |s.calls| + 2 && t.calls[|s.calls|].owner == i && t.calls[|s.calls| + 1].owner == j
            && |t.callers| == |s.callers| && t.callers[i].phase.Done? && t.callers[j].phase == Probing(|s.calls| + 1)
               && Fresh(t.entries, s.callers[i].key, t.now)
  {
    var first := OneProbe(s, i, raw);
    var t := Exec(s, first);
    Then(t, Work(j, Join), []);
    Joined(s, first, [Work(j, Join)] + []);
    acts := first + ([Work(j, Join)] + []);
  }

  /** Such callers exist: two that arrive together and look before either joins. */
  lemma BothMiss(ttl: int, now: int, key: Key) returns (acts: seq<Action>)
    ensures Legal(Boot(ttl, now), acts)
    ensures var s := Exec(Boot(ttl, now), acts);
            s.ttl > 0 && s.inFlight == map[]
              && s.callers == [Caller(key, false, false, Missed(0)), Caller(key, false, false, Missed(0))]
  {
    var s0 := Boot(ttl, now);
    var s1 := Step(s0, Arrive(key, false));
    var s2 := Step(s1, Arrive(key, false));
    var s3 := Step(s2, Work(0, Look));
    Then(s3, Work(1, Look), []);
    Then(s2, Work(0, Look), [Work(1, Look)] + []);
    Then(s1, Arrive(key, false), [Work(0, Look)] + ([Work(1, Look)] + []));
    Then(s0, Arrive(key, false), [Arrive(key, false)] + ([Work(0, Look)] + ([Work(1, Look)] + [])));
    acts := [Arrive(key, false)] + ([Arrive(key, false)] + ([Work(0, Look)] + ([Work(1, Look)] + [])));
  }

  lemma {:induction false} Joined(s: State, acts: seq<Action>, more: seq<Action>)
    requires Legal(s, acts) && Legal(Exec(s, acts), more)
    ensures Legal(s, acts + more) && Exec(s, acts + more) == Exec(Exec(s, acts), more)
    decreases |acts|
  {
    if acts == [] {
      assert acts + more == more;
    } else {
      assert (acts + more)[1..] == acts[1..] + more;
      Joined(Step(s, acts[0]), acts[1..], more);
    }
  }
}
