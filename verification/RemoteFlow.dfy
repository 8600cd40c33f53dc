/**
 Ownership of remote sessions and streams (internal/remoteflow/flow.go:70-145,
 195-255): Open, Stop and Close interleave, and none of them may leak a session.

 `Manager` holds the parts that run under the mutex.  `State` adds the calls in
 progress; each of their steps is one of those parts, or starting a session, or
 closing one.  A handle is the number of the start that made it.
 */
module RemoteFlow {
  import opened Sums

  type Handle = nat

  datatype Kind = Browser | Moonlight

  /** What the mutex guards. */
  datatype Registry = Registry(closed: bool, sessions: map<string, Handle>, streams: map<string, Handle>)

  // ---------------------------------------------------------------- the critical sections

  function Entry(table: map<string, Handle>, id: string): seq<Handle> { if id in table then [table[id]] else [] }

  function Table(r: Registry, kind: Kind): map<string, Handle> { if kind.Browser? then r.sessions else r.streams }

  function WithTable(r: Registry, kind: Kind, table: map<string, Handle>): Registry {
    if kind.Browser? then r.(sessions := table) else r.(streams := table)
  }

  /** Registering handle h. */
  function Published(r: Registry, kind: Kind, id: string, h: Handle): Registry {
    if r.closed then r else WithTable(r, kind, Table(r, kind)[id := h])
  }

  /** What Open must close after it. */
  function Displaced(r: Registry, kind: Kind, id: string, h: Handle): seq<Handle> {
    if r.closed then [h] else Entry(Table(r, kind), id)
  }

  /** Taking a machine's handles out, */
  function Unregistered(r: Registry, id: string): Registry {
    r.(sessions := r.sessions - {id}, streams := r.streams - {id})
  }

  /** which Stop must close. */
  function Removed(r: Registry, id: string): seq<Handle> { Entry(r.streams, id) + Entry(r.sessions, id) }

  /** How often handle h is registered. */
  ghost function Count(m: map<string, Handle>, h: Handle): nat { |set id | id in m && m[id] == h| }

  function One(x: Handle, h: Handle): nat { if x == h then 1 else 0 }

  ghost function At(m: map<string, Handle>, k: string, h: Handle): nat { multiset(Entry(m, k))[h] }

  lemma CountDrop(m: map<string, Handle>, k: string, h: Handle)
    ensures Count(m - {k}, h) + At(m, k, h) == Count(m, h)
  {
    var all, rest := set id | id in m && m[id] == h, set id | id in m - {k} && (m - {k})[id] == h;
    if k in m && m[k] == h {
      assert all == rest + {k};
    } else {
      assert all == rest;
    }
  }

  lemma CountPut(m: map<string, Handle>, k: string, x: Handle, h: Handle)
    ensures Count(m[k := x], h) + At(m, k, h) == Count(m, h) + One(x, h)
  {
    CountDrop(m[k := x], k, h);
    CountDrop(m, k, h);
    assert m[k := x] - {k} == m - {k};
  }

  ghost function Kept(r: Registry, h: Handle): nat { Count(r.sessions, h) + Count(r.streams, h) }

  /** The list holds the values of the table, each as often as the table does. */
  ghost predicate ListsValues(list: seq<Handle>, m: map<string, Handle>) {
    |list| == |m| && forall h :: multiset(list)[h] == Count(m, h)
  }

  class Manager {
    var closed: bool
    var sessions: map<string, Handle>
    var streams: map<string, Handle>

    ghost function View(): Registry
      reads this
    {
      Registry(closed, sessions, streams)
    }

    constructor ()
      ensures View() == Registry(false, map[], map[])
    {
      closed, sessions, streams := false, map[], map[];
    }

    /** The end of Open. */
    method Publish(kind: Kind, id: string, h: Handle) returns (toClose: seq<Handle>)
      modifies this
      ensures View() == Published(old(View()), kind, id, h) && toClose == Displaced(old(View()), kind, id, h)
      ensures closed == old(closed)
      ensures closed ==> sessions == old(sessions) && streams == old(streams) && toClose == [h]
      ensures !closed && kind.Browser? ==>
                && sessions == old(sessions)[id := h] && streams == old(streams)
                && toClose == if id in old(sessions) then [old(sessions)[id]] else []
      ensures !closed && kind.Moonlight? ==>
                && streams == old(streams)[id := h] && sessions == old(sessions)
                && toClose == if id in old(streams) then [old(streams)[id]] else []
    {
      if closed {
        return [h];
      }
      if kind.Browser? {
        toClose := Entry(sessions, id);
        sessions := sessions[id := h];
      } else {
        toClose := Entry(streams, id);
        streams := streams[id := h];
      }
    }

    /** The start of Stop. */
    method Unregister(id: string) returns (toClose: seq<Handle>)
      modifies this
      ensures View() == Unregistered(old(View()), id) && toClose == Removed(old(View()), id)
      ensures closed == old(closed) && id !in sessions && id !in streams
      ensures forall k :: k != id ==>
                && (k in sessions <==> k in old(sessions)) && (k in sessions ==> sessions[k] == old(sessions)[k])
                && (k in streams <==> k in old(streams)) && (k in streams ==> streams[k] == old(streams)[k])
      ensures forall h :: h in toClose <==>
                (id in old(streams) && h == old(streams)[id]) || (id in old(sessions) && h == old(sessions)[id])
    {
      toClose := Entry(streams, id);
      streams := streams - {id};
      toClose := toClose + Entry(sessions, id);
      sessions := sessions - {id};
    }

    /** The first section of Close. */
    method Seal()
      modifies this
      ensures View() == old(View()).(closed := true)
    {
      closed := true;
    }

    /** The second: every registered handle, once, and empty tables. */
    method Drain() returns (toClose: seq<Handle>)
      modifies this
      ensures View() == Registry(old(closed), map[], map[])
      ensures exists i :: 0 <= i <= |toClose| &&
                          ListsValues(toClose[..i], old(sessions)) && ListsValues(toClose[i..], old(streams))
    {
      var first := Collect(sessions);
      sessions := map[];
      var second := Collect(streams);
      streams := map[];
      toClose := first + second;
      assert toClose[..|first|] == first && toClose[|first|..] == second;
    }
  }

  /** The values of a table, in whatever order it is ranged over. */
  method Collect(table: map<string, Handle>) returns (list: seq<Handle>)
    ensures ListsValues(list, table)
  {
    list := [];
    var left := table;
    while left.Keys != {}
      invariant |list| + |left| == |table|
      invariant forall h :: multiset(list)[h] + Count(left, h) == Count(table, h)
      decreases |left|
    {
      var id :| id in left.Keys;
      ListMore(table, list, left, id);
      list := list + [left[id]];
      left := left - {id};
    }
  }

  lemma ListMore(table: map<string, Handle>, list: seq<Handle>, left: map<string, Handle>, id: string)
    requires id in left && forall h :: multiset(list)[h] + Count(left, h) == Count(table, h)
    ensures forall h :: multiset(list + [left[id]])[h] + Count(left - {id}, h) == Count(table, h)
    ensures |left - {id}| == |left| - 1
  {
    forall h ensures multiset(list + [left[id]])[h] + Count(left - {id}, h) == Count(table, h) {
      CountDrop(left, id, h);
    }
    assert (left - {id}).Keys == left.Keys - {id};
  }

  // ---------------------------------------------------------------- calls in progress

  datatype Call = Open(kind: Kind, id: string) | Stop(id: string) | Close

  datatype Phase =
    | Ready
    | Holding(handle: Handle)     // Open, after start returned and before the lock
    | Sealed                      // Close, between its two critical sections
    | Ending(left: seq<Handle>)   // closing, one by one, what it took away
    | Returned

  datatype Task = Task(call: Call, phase: Phase)

  /** `made` handles have been started, and `ended` are those closed so far. */
  datatype State = State(registry: Registry, tasks: seq<Task>, made: nat, ended: multiset<Handle>)

  datatype Move =
    | Start                       // start returned a session
    | Fail                        // Open gives up before it has one
    | Publish
    | Unregister
    | Seal
    | Drain(sessions: seq<Handle>, streams: seq<Handle>)
    | End                         // close the next handle
    | Return

  datatype Action = Begin(call: Call) | Work(t: nat, move: Move)

  ghost predicate CanMove(s: State, task: Task, m: Move) {
    match m
    case Start => task.call.Open? && task.phase.Ready?
    case Fail => task.call.Open? && task.phase.Ready?
    case Publish => task.call.Open? && task.phase.Holding?
    case Unregister => task.call.Stop? && task.phase.Ready?
    case Seal => task.call.Close? && task.phase.Ready?
    case Drain(first, second) => task.call.Close? && task.phase.Sealed? && ListsValues(first, s.registry.sessions)
      && ListsValues(second, s.registry.streams)
    case End => task.phase.Ending? && task.phase.left != []
    case Return => task.phase.Ending? && task.phase.left == []
  }

  ghost predicate Enabled(s: State, a: Action) {
    a.Work? ==> a.t < |s.tasks| && CanMove(s, s.tasks[a.t], a.move)
  }

  /** What the move leaves of the registry, */
  ghost function NextRegistry(s: State, task: Task, m: Move): Registry
    requires CanMove(s, task, m)
  {
    match m
    case Publish => Published(s.registry, task.call.kind, task.call.id, task.phase.handle)
    case Unregister => Unregistered(s.registry, task.call.id)
    case Seal => s.registry.(closed := true)
    case Drain(_, _) => Registry(s.registry.closed, map[], map[])
    case _ => s.registry
  }

  /** where it leaves the call, */
  ghost function NextPhase(s: State, task: Task, m: Move): Phase
    requires CanMove(s, task, m)
  {
    match m
    case Start => Holding(s.made)
    case Fail => Returned
    case Publish => Ending(Displaced(s.registry, task.call.kind, task.call.id, task.phase.handle))
    case Unregister => Ending(Removed(s.registry, task.call.id))
    case Seal => Sealed
    case Drain(first, second) => Ending(first + second)
    case End => Ending(task.phase.left[1..])
    case Return => Returned
  }

  /** and what it closes. */
  ghost function Gone(s: State, task: Task, m: Move): seq<Handle>
    requires CanMove(s, task, m)
  {
    if m.End? then task.phase.left[..1] else []
  }

  ghost function Step(s: State, a: Action): State
    requires Enabled(s, a)
  {
    match a
    case Begin(call) => s.(tasks := s.tasks + [Task(call, Ready)])
    case Work(t, m) =>
      var task := s.tasks[t];
      State(NextRegistry(s, task, m), s.tasks[t := Task(task.call, NextPhase(s, task, m))],
        if m.Start? then s.made + 1 else s.made, s.ended + multiset(Gone(s, task, m)))
  }

  ghost predicate Legal(s: State, acts: seq<Action>)
    decreases |acts|
  {
    acts == [] || (Enabled(s, acts[0]) && Legal(Step(s, acts[0]), acts[1..]))
  }

  ghost function Exec(s: State, acts: seq<Action>): State
    requires Legal(s, acts)
    decreases |acts|
  {
    if acts == [] then s else Exec(Step(s, acts[0]), acts[1..])
  }

  function Boot(): State { State(Registry(false, map[], map[]), [], 0, multiset{}) }

  // ---------------------------------------------------------------- one owner for every handle

  ghost function PhaseOwns(p: Phase, h: Handle): nat {
    match p
    case Holding(x) => One(x, h)
    case Ending(left) => multiset(left)[h]
    case _ => 0
  }

  /** How often a call owns handle h. */
  ghost function Owns(h: Handle): Task -> nat { (t: Task) => PhaseOwns(t.phase, h) }

  /** Every started handle is in exactly one place: with a call, in a table, or closed. */
  ghost predicate Owned(s: State) { forall h: Handle :: OwnedOnce(s, h) }

  ghost predicate OwnedOnce(s: State, h: Handle) {
    Sum(s.tasks, Owns(h)) + Kept(s.registry, h) + s.ended[h] == if h < s.made then 1 else 0
  }

  ghost predicate TaskFits(t: Task, r: Registry) {
    && (t.phase.Holding? ==> t.call.Open?)
    && (t.phase.Sealed? ==> t.call.Close?)
    && (t.call.Close? && !t.phase.Ready? ==> r.closed)
    && (t.call.Close? && (t.phase.Ending? || t.phase.Returned?) ==> r.sessions == map[] && r.streams == map[])
  }

  ghost predicate Inv(s: State) {
    Owned(s) && forall i :: 0 <= i < |s.tasks| ==> TaskFits(s.tasks[i], s.registry)
  }

  /** A move passes on what it takes over; Start makes one handle. */
  ghost predicate Passes(s: State, task: Task, m: Move, h: Handle)
    requires CanMove(s, task, m)
  {
    PhaseOwns(NextPhase(s, task, m), h) + Kept(NextRegistry(s, task, m), h) + multiset(Gone(s, task, m))[h]
    == PhaseOwns(task.phase, h) + Kept(s.registry, h) + if m.Start? then One(s.made, h) else 0
  }

  lemma PublishedOwns(r: Registry, kind: Kind, id: string, x: Handle, h: Handle)
    ensures multiset(Displaced(r, kind, id, x))[h] + Kept(Published(r, kind, id, x), h) == One(x, h) + Kept(r, h)
  {
    if !r.closed {
      CountPut(Table(r, kind), id, x, h);
    }
  }

  lemma UnregisteredOwns(r: Registry, id: string, h: Handle)
    ensures multiset(Removed(r, id))[h] + Kept(Unregistered(r, id), h) == Kept(r, h)
  {
    CountDrop(r.sessions, id, h);
    CountDrop(r.streams, id, h);
    assert multiset(Entry(r.streams, id) + Entry(r.sessions, id)) ==
           multiset(Entry(r.streams, id)) + multiset(Entry(r.sessions, id));
  }

  lemma DrainedOwns(r: Registry, first: seq<Handle>, second: seq<Handle>, h: Handle)
    requires ListsValues(first, r.sessions) && ListsValues(second, r.streams)
    ensures multiset(first + second)[h] + Kept(Registry(r.closed, map[], map[]), h) == Kept(r, h)
  {
    assert multiset(first + second) == multiset(first) + multiset(second);
  }

  lemma EndOwns(left: seq<Handle>, h: Handle)
    requires left != []
    ensures multiset(left[1..])[h] + multiset(left[..1])[h] == multiset(left)[h]
  {
    assert left == left[..1] + left[1..];
  }

  lemma MovePasses(s: State, task: Task, m: Move, h: Handle)
    requires CanMove(s, task, m)
    ensures Passes(s, task, m, h)
  {
    match m
    case Start =>
    case Fail =>
    case Publish => PublishedOwns(s.registry, task.call.kind, task.call.id, task.phase.handle, h);
    case Unregister => UnregisteredOwns(s.registry, task.call.id, h);
    case Seal =>
    case Drain(first, second) => DrainedOwns(s.registry, first, second, h);
    case End => EndOwns(task.phase.left, h);
    case Return =>
  }

  lemma StepOwns(s: State, t: nat, m: Move, h: Handle)
    requires Enabled(s, Work(t, m)) && OwnedOnce(s, h)
    ensures OwnedOnce(Step(s, Work(t, m)), h)
  {
    MovePasses(s, s.tasks[t], m, h);
    SumUpdate(s.tasks, t, Step(s, Work(t, m)).tasks[t], Owns(h));
  }

  /** Once sealed a registry stays sealed, and once drained it stays empty. */
  lemma EffectFits(s: State, task: Task, m: Move, other: Task)
    requires CanMove(s, task, m) && TaskFits(task, s.registry) && TaskFits(other, s.registry)
    ensures TaskFits(Task(task.call, NextPhase(s, task, m)), NextRegistry(s, task, m))
    ensures TaskFits(other, NextRegistry(s, task, m))
  {
  }

  lemma StepFits(s: State, t: nat, m: Move)
    requires Enabled(s, Work(t, m)) && forall i :: 0 <= i < |s.tasks| ==> TaskFits(s.tasks[i], s.registry)
    ensures var s' := Step(s, Work(t, m)); forall i :: 0 <= i < |s'.tasks| ==> TaskFits(s'.tasks[i], s'.registry)
  {
    forall i | 0 <= i < |s.tasks| {
      EffectFits(s, s.tasks[t], m, s.tasks[i]);
    }
  }

  lemma StepKeepsInv(s: State, a: Action)
    requires Enabled(s, a) && Inv(s)
    ensures Inv(Step(s, a))
  {
    match a
    case Begin(call) =>
      forall h: Handle | true ensures OwnedOnce(Step(s, a), h) {
        assert OwnedOnce(s, h);
        SumAppend(s.tasks, Task(call, Ready), Owns(h));
      }
    case Work(t, m) =>
      forall h | true ensures OwnedOnce(Step(s, a), h) { StepOwns(s, t, m, h); }
      StepFits(s, t, m);
  }

  lemma {:induction false} RunKeepsInv(s: State, acts: seq<Action>)
    requires Inv(s) && Legal(s, acts)
    ensures Inv(Exec(s, acts))
    decreases |acts|
  {
    if acts != [] {
      StepKeepsInv(s, acts[0]);
      RunKeepsInv(Step(s, acts[0]), acts[1..]);
    }
  }

  /**
   In every interleaving each started handle has exactly one owner, a call or a table entry, or has
   been closed, once.
   */
  lemma OneOwner(acts: seq<Action>, h: Handle)
    requires Legal(Boot(), acts)
    ensures var s := Exec(Boot(), acts);
            Sum(s.tasks, Owns(h)) + Count(s.registry.sessions, h) + Count(s.registry.streams, h) + s.ended[h] ==
              if h < s.made then 1 else 0
  {
    RunKeepsInv(Boot(), acts);
    assert OwnedOnce(Exec(Boot(), acts), h);
  }

  ghost predicate AllReturned(s: State) { forall i :: 0 <= i < |s.tasks| ==> s.tasks[i].phase.Returned? }

  ghost predicate SomeClose(s: State) { exists i :: 0 <= i < |s.tasks| && s.tasks[i].call.Close? }

  /**
   Once every call has returned and one of them was Close, everything ever started has been closed
   and nothing is registered.
   */
  lemma NothingLeaks(acts: seq<Action>)
    requires Legal(Boot(), acts) && AllReturned(Exec(Boot(), acts)) && SomeClose(Exec(Boot(), acts))
    ensures var s := Exec(Boot(), acts);
            && (forall h: nat :: s.ended[h] == if h < s.made then 1 else 0)
            && s.registry == Registry(true, map[], map[])
  {
    var s := Exec(Boot(), acts);
    RunKeepsInv(Boot(), acts);
    var i :| 0 <= i < |s.tasks| && s.tasks[i].call.Close?;
    assert TaskFits(s.tasks[i], s.registry);
    forall h: nat ensures s.ended[h] == if h < s.made then 1 else 0 {
      assert OwnedOnce(s, h);
      SumConstant(s.tasks, Owns(h), 0);
    }
  }

  // ---------------------------------------------------------------- what a returned call has done

  lemma {:induction false} EndedGrows(s: State, acts: seq<Action>, h: Handle)
    requires Legal(s, acts)
    ensures s.ended[h] <= Exec(s, acts).ended[h] && |s.tasks| <= |Exec(s, acts).tasks|
    decreases |acts|
  {
    if acts != [] {
      EndedGrows(Step(s, acts[0]), acts[1..], h);
    }
  }

  lemma EndingMoves(s: State, a: Action, t: nat, h: Handle)
    requires Enabled(s, a) && t < |s.tasks| && s.tasks[t].phase.Ending? && (h in s.tasks[t].phase.left || h in s.ended)
    ensures var p := Step(s, a).tasks[t].phase;
            h in Step(s, a).ended || (p.Ending? && h in p.left)
  {
    if a.Work? && a.t == t && a.move.End? && h !in s.ended {
      var left := s.tasks[t].phase.left;
      assert left == left[..1] + left[1..];
    }
  }

  /** A call that has something to close has closed it when it returns. */
  lemma {:induction false} EndingEnds(s: State, acts: seq<Action>, t: nat, h: Handle)
    requires Legal(s, acts) && t < |s.tasks| && s.tasks[t].phase.Ending? && h in s.tasks[t].phase.left
    requires t < |Exec(s, acts).tasks| && Exec(s, acts).tasks[t].phase.Returned?
    ensures h in Exec(s, acts).ended
    decreases |acts|
  {
    if acts != [] {
      EndingMoves(s, acts[0], t, h);
      var s1 := Step(s, acts[0]);
      if h in s1.ended {
        EndedGrows(s1, acts[1..], h);
      } else {
        EndingEnds(s1, acts[1..], t, h);
      }
    }
  }

  predicate HasReturned(s: State, t: nat) { t < |s.tasks| && s.tasks[t].phase.Returned? }

  /** The handle is registered for the machine. */
  predicate RegisteredFor(r: Registry, id: string, h: Handle) {
    (id in r.sessions && r.sessions[id] == h) || (id in r.streams && r.streams[id] == h)
  }

  /** A step of Stop(id) leaves nothing registered for the machine, and once it has returned all that was is closed. */
  lemma StopStops(before: seq<Action>, t: nat, after: seq<Action>, h: Handle)
    requires Legal(Boot(), before) && Enabled(Exec(Boot(), before), Work(t, Unregister))
    requires Legal(Step(Exec(Boot(), before), Work(t, Unregister)), after)
    ensures var s, id := Exec(Boot(), before), Exec(Boot(), before).tasks[t].call.id;
            var s1 := Step(s, Work(t, Unregister));
            && s1.registry == Registry(s.registry.closed, s.registry.sessions - {id}, s.registry.streams - {id})
            && (RegisteredFor(s.registry, id, h) && HasReturned(Exec(s1, after), t) ==>
                h in Exec(s1, after).ended)
  {
    var s := Exec(Boot(), before);
    var s1 := Step(s, Work(t, Unregister));
    EndedGrows(s1, after, h);
    if RegisteredFor(s.registry, s.tasks[t].call.id, h) && HasReturned(Exec(s1, after), t) {
      assert h in s1.tasks[t].phase.left;
      EndingEnds(s1, after, t, h);
    }
  }

  /**
   A step of Open registers its handle for the machine in the table of its kind, unless the manager
   is closed; then that handle is closed once Open has returned, and so is the one it replaces.
   */
  lemma OpenOpens(before: seq<Action>, t: nat, after: seq<Action>)
    requires Legal(Boot(), before) && Enabled(Exec(Boot(), before), Work(t, Publish))
    requires Legal(Step(Exec(Boot(), before), Work(t, Publish)), after)
    ensures var s, task := Exec(Boot(), before), Exec(Boot(), before).tasks[t];
            var s1, id, x := Step(s, Work(t, Publish)), task.call.id, task.phase.handle;
            && (s.registry.closed ==> s1.registry == s.registry)
            && (!s.registry.closed && task.call.kind.Browser? ==>
                s1.registry == Registry(false, s.registry.sessions[id := x], s.registry.streams))
            && (!s.registry.closed && task.call.kind.Moonlight? ==>
                s1.registry == Registry(false, s.registry.sessions, s.registry.streams[id := x]))
            && (HasReturned(Exec(s1, after), t) ==>
                && (s.registry.closed ==> x in Exec(s1, after).ended)
                && (!s.registry.closed && task.call.kind.Browser? && id in s.registry.sessions ==>
                    s.registry.sessions[id] in Exec(s1, after).ended)
                && (!s.registry.closed && task.call.kind.Moonlight? && id in s.registry.streams ==>
                    s.registry.streams[id] in Exec(s1, after).ended))
  {
    var s, task := Exec(Boot(), before), Exec(Boot(), before).tasks[t];
    var s1 := Step(s, Work(t, Publish));
    EndedGrows(s1, after, 0);
    if HasReturned(Exec(s1, after), t) {
      forall h | h in s1.tasks[t].phase.left ensures h in Exec(s1, after).ended {
        EndingEnds(s1, after, t, h);
      }
    }
  }

  // ---------------------------------------------------------------- every call returns

  function PhaseWork(t: Task): nat {
    match t.phase
    case Ready => 4
    case Holding(_) => 3
    case Sealed => 2
    case Ending(left) => 1 + |left|
    case Returned => 0
  }

  function Registered(r: Registry): nat { |r.sessions| + |r.streams| }

  ghost function Measure(s: State): nat { Sum(s.tasks, PhaseWork) + Registered(s.registry) }

  lemma SizeDrop(m: map<string, Handle>, k: string)
    ensures |m - {k}| + |Entry(m, k)| == |m|
  {
    if k in m {
      assert (m - {k}).Keys == m.Keys - {k};
    } else {
      assert m - {k} == m;
    }
  }

  lemma SizePut(m: map<string, Handle>, k: string, x: Handle)
    ensures |m[k := x]| + |Entry(m, k)| == |m| + 1
  {
    SizeDrop(m[k := x], k);
    SizeDrop(m, k);
    assert m[k := x] - {k} == m - {k};
  }

  lemma EffectSize(s: State, task: Task, m: Move)
    requires CanMove(s, task, m)
    ensures PhaseWork(Task(task.call, NextPhase(s, task, m))) + Registered(NextRegistry(s, task, m)) < PhaseWork(task)
            + Registered(s.registry)
  {
    match m
    case Publish => SizePut(Table(s.registry, task.call.kind), task.call.id, task.phase.handle);
    case Unregister =>
      SizeDrop(s.registry.sessions, task.call.id);
      SizeDrop(s.registry.streams, task.call.id);
    case _ =>
  }

  /** Every step of a call brings all calls nearer to their end, so no interleaving keeps one from returning. */
  lemma WorkDecreases(s: State, t: nat, m: Move)
    requires Enabled(s, Work(t, m))
    ensures Measure(Step(s, Work(t, m))) < Measure(s)
  {
    var next := Step(s, Work(t, m));
    EffectSize(s, s.tasks[t], m);
    SumUpdate(s.tasks, t, next.tasks[t], PhaseWork);
  }

  /** A call that has not returned can move: nobody waits for anybody. */
  lemma CanAlwaysMove(s: State, t: nat) returns (m: Move)
    requires Inv(s) && t < |s.tasks| && !s.tasks[t].phase.Returned?
    ensures Enabled(s, Work(t, m))
  {
    var task := s.tasks[t];
    assert TaskFits(task, s.registry);
    match task.phase
    case Ready => m := if task.call.Open? then Start else if task.call.Stop? then Unregister else Seal;
    case Holding(_) => m := Publish;
    case Sealed =>
      var first := Listed(s.registry.sessions);
      var second := Listed(s.registry.streams);
      m := Drain(first, second);
    case Ending(left) => m := if left == [] then Return else End;
  }

  lemma {:induction false} Listed(m: map<string, Handle>) returns (list: seq<Handle>)
    ensures ListsValues(list, m)
    decreases |m|
  {
    if m.Keys == {} {
      list := [];
    } else {
      var id :| id in m.Keys;
      SizeDrop(m, id);
      list := Listed(m - {id});
      forall h ensures multiset(list + [m[id]])[h] == Count(m, h) {
        CountDrop(m, id, h);
      }
      list := list + [m[id]];
    }
  }

  predicate OnlyWork(acts: seq<Action>) { forall i :: 0 <= i < |acts| ==> acts[i].Work? }

  lemma {:induction false} CallsAreFinite(s: State, acts: seq<Action>)
    requires Legal(s, acts) && OnlyWork(acts)
    ensures |acts| + Measure(Exec(s, acts)) <= Measure(s)
    decreases |acts|
  {
    if acts != [] {
      assert acts[0].Work?;
      WorkDecreases(s, acts[0].t, acts[0].move);
      assert forall i :: 0 <= i < |acts[1..]| ==> acts[1..][i] == acts[i + 1];
      CallsAreFinite(Step(s, acts[0]), acts[1..]);
    }
  }
}
