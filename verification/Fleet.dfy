/**
 Bounded batch work over a fleet (internal/fleet/fleet.go).

 `Launch` is the sequential part of Run: clamp the limits, group the devices by
 site, fill one job queue per site and start that site's workers.  Everything
 after that is concurrent, so it is a transition system: an `Action` names one
 atomic step of one goroutine (a channel operation, a context check, a call or
 a return), and a run is any sequence of enabled actions.
 */
module Fleet {
  import opened Sums

  datatype Device = Device(id: string, name: string, siteId: string)

  datatype Site = Site(id: string, concurrency: int)

  datatype Result = Result(deviceId: string, name: string, siteId: string, status: string, detail: string)

  /** A result on its way to the channel: the loop variable it was made for, and whether the operation ran. */
  datatype Report = Report(device: Device, ran: bool, result: Result)

  /** Where a worker goroutine stands; a device it has taken stays with it until it is reported. */
  datatype Phase =
    | Idle                        // about to receive from its site's jobs channel
    | Took(device: Device)        // before the first context check
    | Selecting(device: Device)   // in the select
    | Slot(device: Device)        // holds a global slot, before the second context check
    | Cleared(device: Device)     // passed that check, operation not yet called
    | Running(device: Device)     // inside the operation
    | Leaving(report: Report)     // about to release the slot
    | Sending(report: Report)     // about to send on results
    | Exited

  datatype Worker = Worker(pool: nat, phase: Phase)

  /** `sent[read..]` is the content of the result channel; `started` records every operation ever called. */
  datatype State = State(
    queues: seq<seq<Device>>,
    workers: seq<Worker>,
    slots: nat,
    occupied: nat,
    capacity: nat,
    sent: seq<Report>,
    read: nat,
    cancelled: bool,
    closed: bool,
    started: multiset<Device>)

  /** One atomic step of a worker. */
  datatype Move =
    | Take          // receive a device
    | Exit          // the jobs channel is closed and drained
    | Check         // first context check
    | Acquire       // select: take a global slot
    | GiveUp        // select: the context is done
    | Recheck       // second context check
    | Call          // call the operation
    | Return(status: string, detail: string)
    | Release       // give the slot back
    | Send          // send the result

  datatype Action =
    | Work(w: nat, move: Move)
    | Close         // the closer goroutine, once every worker is gone
    | Cancel        // the caller cancels the context
    | Read          // the caller reads a result

  // ---------------------------------------------------------------- set-up

  function Clamp(value: int, fallback: nat, most: nat): nat {
    if value < 1 then fallback else if value > most then most else value
  }

  function Settings(sites: seq<Site>): map<string, Site> {
    if sites == [] then map[] else
    var last := sites[|sites| - 1];
    Settings(sites[..|sites| - 1])[last.id := last]
  }

  /** The devices of one site, in inventory order. */
  function Group(devices: seq<Device>, id: string): seq<Device> {
    if devices == [] then [] else
    var last := devices[|devices| - 1];
    var earlier := Group(devices[..|devices| - 1], id);
    if last.siteId == id then earlier + [last] else earlier
  }

  function PoolLimit(sites: seq<Site>, id: string, items: nat): nat {
    var settings := Settings(sites);
    var limit := Clamp(if id in settings then settings[id].concurrency else 0, 4, 16);
    if limit > items then items else limit
  }

  function Queues(devices: seq<Device>, order: seq<string>): seq<seq<Device>> {
    seq(|order|, k requires 0 <= k < |order| => Group(devices, order[k]))
  }

  function Crew(devices: seq<Device>, sites: seq<Site>, order: seq<string>): seq<Worker> {
    if order == [] then [] else
    var k := |order| - 1;
    Crew(devices, sites, order[..k]) + seq(PoolLimit(sites, order[k], |Group(devices, order[k])|), _ => Worker(k, Idle))
  }

  /** The order in which the grouped map happens to be ranged over. */
  ghost predicate RangesOver(order: seq<string>, devices: seq<Device>) {
    && (forall i, j :: 0 <= i < j < |order| ==> order[i] != order[j])
    && (forall d :: d in devices ==> d.siteId in order)
    && (forall id :: id in order ==> Group(devices, id) != [])
  }

  function Boot(devices: seq<Device>, sites: seq<Site>, concurrency: int, order: seq<string>): State {
    State(Queues(devices, order), Crew(devices, sites, order), Clamp(concurrency, 16, 32), 0, |devices|, [], 0, false,
      false, multiset{})
  }

  /** The grouped map: one entry per site that has a device, in inventory order. */
  method GroupBySite(devices: seq<Device>) returns (grouped: map<string, seq<Device>>)
    ensures forall id :: id in grouped ==> grouped[id] == Group(devices, id) != []
    ensures forall d :: d in devices ==> d.siteId in grouped
  {
    grouped := map[];
    for i := 0 to |devices|
      invariant forall id :: id in grouped <==> Group(devices[..i], id) != []
      invariant forall id :: id in grouped ==> grouped[id] == Group(devices[..i], id)
      invariant forall j :: 0 <= j < i ==> devices[j].siteId in grouped
    {
      assert devices[..i + 1][..i] == devices[..i];
      var d := devices[i];
      var earlier := if d.siteId in grouped then grouped[d.siteId] else [];
      grouped := grouped[d.siteId := earlier + [d]];
    }
    assert devices[..|devices|] == devices;
  }

  /** The workers of one pool. */
  method StartPool(pool: nat, concurrency: int, items: nat) returns (crew: seq<Worker>)
    ensures var limit := Clamp(concurrency, 4, 16);
            crew == seq(if limit > items then items else limit, _ => Worker(pool, Idle))
  {
    var limit := concurrency;
    if limit < 1 {
      limit := 4;
    }
    if limit > 16 {
      limit := 16;
    }
    if limit > items {
      limit := items;
    }
    crew := [];
    for i := 0 to limit
      invariant crew == seq(i, _ => Worker(pool, Idle))
    {
      crew := crew + [Worker(pool, Idle)];
    }
  }

  method Launch(devices: seq<Device>, sites: seq<Site>, concurrency: int) returns (order: seq<string>, s: State)
    ensures RangesOver(order, devices)
    ensures s == Boot(devices, sites, concurrency, order)
  {
    var slots := concurrency;
    if slots < 1 {
      slots := 16;
    }
    if slots > 32 {
      slots := 32;
    }
    var settings: map<string, Site> := map[];
    for i := 0 to |sites|
      invariant settings == Settings(sites[..i])
    {
      assert sites[..i + 1][..i] == sites[..i];
      settings := settings[sites[i].id := sites[i]];
    }
    assert sites[..|sites|] == sites;
    var grouped := GroupBySite(devices);
    order := [];
    var queues: seq<seq<Device>> := [];
    var workers: seq<Worker> := [];
    var left := grouped.Keys;
    while left != {}
      invariant left == grouped.Keys - (set id | id in order)
      invariant forall id :: id in order ==> id in grouped
      invariant forall i, j :: 0 <= i < j < |order| ==> order[i] != order[j]
      invariant queues == Queues(devices, order)
      invariant workers == Crew(devices, sites, order)
      decreases left
    {
      var id :| id in left;
      var items := grouped[id];
      var crew := StartPool(|order|, if id in settings then settings[id].concurrency else 0, |items|);
      assert (order + [id])[..|order|] == order;
      order, queues, workers, left := order + [id], queues + [items], workers + crew, left - {id};
    }
    assert forall id :: id in grouped ==> id in left || id in order;
    s := State(queues, workers, slots, 0, |devices|, [], 0, false, false, multiset{});
  }

  // ---------------------------------------------------------------- steps

  function Skipped(d: Device): Report {
    Report(d, false, Result(d.id, d.name, d.siteId, "cancelled", ""))
  }

  function Finished(d: Device, status: string, detail: string): Report {
    Report(d, true, Result(d.id, d.name, d.siteId, status, detail))
  }

  /** Whether a worker in phase p may make the move, as far as its own position decides it. */
  predicate Poised(p: Phase, m: Move) {
    match m
    case Take => p.Idle?
    case Exit => p.Idle?
    case Check => p.Took?
    case Acquire => p.Selecting?
    case GiveUp => p.Selecting?
    case Recheck => p.Slot?
    case Call => p.Cleared?
    case Return(_, _) => p.Running?
    case Release => p.Leaving?
    case Send => p.Sending?
  }

  /** Where the move leaves the worker; `next` is the head of its queue. */
  function Moved(p: Phase, m: Move, cancelled: bool, next: Phase): Phase
    requires Poised(p, m)
  {
    match m
    case Take => next
    case Exit => Exited
    case Check => if cancelled then Sending(Skipped(p.device)) else Selecting(p.device)
    case Acquire => Slot(p.device)
    case GiveUp => Sending(Skipped(p.device))
    case Recheck => if cancelled then Leaving(Skipped(p.device)) else Cleared(p.device)
    case Call => Running(p.device)
    case Return(status, detail) => Leaving(Finished(p.device, status, detail))
    case Release => Sending(p.report)
    case Send => Idle
  }

  predicate CanWork(s: State, w: nat, m: Move) {
    && w < |s.workers| && s.workers[w].pool < |s.queues|
    && Poised(s.workers[w].phase, m)
    && (m.Take? ==> s.queues[s.workers[w].pool] != [])
    && (m.Exit? ==> s.queues[s.workers[w].pool] == [])
    && (m.Acquire? ==> s.occupied < s.slots)
    && (m.GiveUp? ==> s.cancelled)
    && (m.Release? ==> s.occupied > 0)
    && (m.Send? ==> |s.sent| - s.read < s.capacity)
  }

  predicate Enabled(s: State, a: Action) {
    match a
    case Work(w, m) => CanWork(s, w, m)
    case Close => !s.closed && forall i :: 0 <= i < |s.workers| ==> s.workers[i].phase.Exited?
    case Cancel => !s.cancelled
    case Read => s.read < |s.sent|
  }

  function NextPhase(s: State, w: nat, m: Move): Phase
    requires CanWork(s, w, m)
  {
    var q := s.queues[s.workers[w].pool];
    Moved(s.workers[w].phase, m, s.cancelled, if q == [] then Idle else Took(q[0]))
  }

  function Step(s: State, a: Action): State
    requires Enabled(s, a)
  {
    match a
    case Work(w, m) =>
      var old', k := s.workers[w], s.workers[w].pool;
      s.(workers := s.workers[w := Worker(k, NextPhase(s, w, m))],
         queues := if m.Take? then s.queues[k := s.queues[k][1..]] else s.queues,
         occupied := if m.Acquire? then s.occupied + 1 else if m.Release? then s.occupied - 1 else s.occupied,
         started := if m.Call? then s.started + multiset{old'.phase.device} else s.started,
         sent := if m.Send? then s.sent + [old'.phase.report] else s.sent)
    case Close => s.(closed := true)
    case Cancel => s.(cancelled := true)
    case Read => s.(read := s.read + 1)
  }

  ghost predicate Legal(s: State, acts: seq<Action>)
    decreases |acts|
  {
    acts == [] || (Enabled(s, acts[0]) && Legal(Step(s, acts[0]), acts[1..]))
  }

  ghost function Exec(s: State, acts: seq<Action>): State
    requires Legal(s, acts)
    decreases |acts|
  {
    if acts == [] then s else Exec(Step(s, acts[0]), acts[1..])
  }

  // ---------------------------------------------------------------- what is counted

  function Waiting(q: seq<Device>): multiset<Device> { multiset(q) }

  datatype Maybe = Nothing | Just(device: Device)

  function Single(o: Maybe): multiset<Device> { if o.Just? then multiset{o.device} else multiset{} }

  function InHand(p: Phase): Maybe {
    match p
    case Idle => Nothing
    case Exited => Nothing
    case Leaving(r) => Just(r.device)
    case Sending(r) => Just(r.device)
    case _ => Just(p.device)
  }

  function CalledIn(p: Phase): Maybe {
    if p.Running? then Just(p.device)
    else if p.Leaving? || p.Sending? then Ran(p.report)
    else Nothing
  }

  function Ran(r: Report): Maybe { if r.ran then Just(r.device) else Nothing }

  function SlotIn(p: Phase): nat { if p.Slot? || p.Cleared? || p.Running? || p.Leaving? then 1 else 0 }

  function Held(w: Worker): multiset<Device> { Single(InHand(w.phase)) }

  function Origin(r: Report): multiset<Device> { multiset{r.device} }

  function CalledBy(w: Worker): multiset<Device> { Single(CalledIn(w.phase)) }

  function CalledFor(r: Report): multiset<Device> { Single(Ran(r)) }

  function ClearedBy(w: Worker): multiset<Device> { if w.phase.Cleared? then multiset{w.phase.device} else multiset{} }

  function HoldsSlot(w: Worker): nat { SlotIn(w.phase) }

  function InOperation(w: Worker): nat { if w.phase.Running? then 1 else 0 }

  function MemberOf(k: nat): Worker -> nat { (w: Worker) => if w.pool == k then 1 else 0 }

  function OperatingIn(k: nat): Worker -> nat { (w: Worker) => if w.pool == k && w.phase.Running? then 1 else 0 }

  ghost predicate WellLabelled(r: Report, cancelled: bool) {
    && r.result.deviceId == r.device.id && r.result.name == r.device.name && r.result.siteId == r.device.siteId
    && (!r.ran ==> cancelled && r.result.status == "cancelled" && r.result.detail == "")
  }

  ghost predicate PhaseLabelled(p: Phase, cancelled: bool) {
    (p.Leaving? || p.Sending?) ==> WellLabelled(p.report, cancelled)
  }

  /** Each device is in exactly one of: a queue, a worker's hands, the results sent. */
  ghost predicate Conserved(s: State, devices: seq<Device>) {
    Bag(s.queues, Waiting) + Bag(s.workers, Held) + Bag(s.sent, Origin) == multiset(devices)
  }

  ghost predicate Manned(s: State, limits: seq<nat>) {
    && |limits| == |s.queues|
    && (forall i :: 0 <= i < |s.workers| ==> s.workers[i].pool < |s.queues|)
    && (forall k :: 0 <= k < |limits| ==> limits[k] >= 1 && Sum(s.workers, MemberOf(k)) == limits[k])
    && (forall i :: 0 <= i < |s.workers| && s.workers[i].phase.Exited? ==> s.queues[s.workers[i].pool] == [])
    && (s.closed ==> forall i :: 0 <= i < |s.workers| ==> s.workers[i].phase.Exited?)
  }

  ghost predicate Accounted(s: State) {
    && s.slots >= 1
    && s.occupied == Sum(s.workers, HoldsSlot) <= s.slots
    && s.read <= |s.sent|
    && s.started == Bag(s.workers, CalledBy) + Bag(s.sent, CalledFor)
    && Labelled(s)
  }

  ghost predicate Labelled(s: State) {
    && (forall i :: 0 <= i < |s.workers| ==> PhaseLabelled(s.workers[i].phase, s.cancelled))
    && (forall i :: 0 <= i < |s.sent| ==> WellLabelled(s.sent[i], s.cancelled))
  }

  ghost predicate Inv(s: State, devices: seq<Device>, limits: seq<nat>) {
    Conserved(s, devices) && Manned(s, limits) && Accounted(s) && s.capacity == |devices|
  }

  // ---------------------------------------------------------------- the initial state

  ghost function Limits(devices: seq<Device>, sites: seq<Site>, order: seq<string>): seq<nat> {
    seq(|order|, k requires 0 <= k < |order| => PoolLimit(sites, order[k], |Group(devices, order[k])|))
  }

  lemma GroupingAdds(prev: seq<Device>, last: Device, order: seq<string>, k: nat)
    requires forall i, j :: 0 <= i < j < |order| ==> order[i] != order[j]
    requires k < |order| && order[k] == last.siteId
    ensures Bag(Queues(prev + [last], order), Waiting) == Bag(Queues(prev, order), Waiting) + multiset{last}
  {
    var before := Queues(prev, order);
    assert (prev + [last])[..|prev|] == prev;
    assert Queues(prev + [last], order) == before[k := before[k] + [last]];
    BagGain(before, k, before[k] + [last], Waiting, multiset{last});
  }

  /** Grouping by site puts every device in one queue and none in two. */
  lemma {:induction false} GroupingConserves(devices: seq<Device>, order: seq<string>)
    requires forall i, j :: 0 <= i < j < |order| ==> order[i] != order[j]
    requires forall d :: d in devices ==> d.siteId in order
    ensures Bag(Queues(devices, order), Waiting) == multiset(devices)
  {
    if devices == [] {
      BagEmpty(Queues(devices, order), Waiting);
    } else {
      var prev, last := devices[..|devices| - 1], devices[|devices| - 1];
      assert devices == prev + [last];
      GroupingConserves(prev, order);
      assert devices[|prev|] in devices;
      assert last.siteId in order;
      var k :| 0 <= k < |order| && order[k] == last.siteId;
      GroupingAdds(prev, last, order, k);
    }
  }

  lemma {:induction false} CrewSizes(devices: seq<Device>, sites: seq<Site>, order: seq<string>, k: nat)
    requires k < |order|
    ensures Sum(Crew(devices, sites, order), MemberOf(k)) == Limits(devices, sites, order)[k]
  {
    var n := |order| - 1;
    var earlier := Crew(devices, sites, order[..n]);
    var own := seq(PoolLimit(sites, order[n], |Group(devices, order[n])|), _ => Worker(n, Idle));
    SumConcat(earlier, own, MemberOf(k));
    CrewPools(devices, sites, order[..n]);
    if k == n {
      SumConstant(earlier, MemberOf(k), 0);
      SumConstant(own, MemberOf(k), 1);
    } else {
      CrewSizes(devices, sites, order[..n], k);
      SumConstant(own, MemberOf(k), 0);
    }
  }

  lemma {:induction false} CrewPools(devices: seq<Device>, sites: seq<Site>, order: seq<string>)
    ensures forall w :: w in Crew(devices, sites, order) ==> w.pool < |order| && w.phase == Idle
  {
    if order != [] {
      CrewPools(devices, sites, order[..|order| - 1]);
    }
  }

  lemma BootManned(devices: seq<Device>, sites: seq<Site>, concurrency: int, order: seq<string>)
    requires RangesOver(order, devices)
    ensures Manned(Boot(devices, sites, concurrency, order), Limits(devices, sites, order))
  {
    var s := Boot(devices, sites, concurrency, order);
    CrewPools(devices, sites, order);
    forall k | 0 <= k < |order|
      ensures Limits(devices, sites, order)[k] >= 1
      ensures Sum(s.workers, MemberOf(k)) == Limits(devices, sites, order)[k]
    {
      CrewSizes(devices, sites, order, k);
      assert order[k] in order;
    }
  }

  lemma IdleCrew(workers: seq<Worker>)
    requires forall w :: w in workers ==> w.phase == Idle
    ensures Bag(workers, Held) == multiset{} == Bag(workers, CalledBy)
    ensures Sum(workers, HoldsSlot) == 0
  {
    BagEmpty(workers, Held);
    BagEmpty(workers, CalledBy);
    SumConstant(workers, HoldsSlot, 0);
  }

  lemma BootAccounted(devices: seq<Device>, sites: seq<Site>, concurrency: int, order: seq<string>)
    ensures Accounted(Boot(devices, sites, concurrency, order))
    ensures Bag(Crew(devices, sites, order), Held) == multiset{}
  {
    CrewPools(devices, sites, order);
    IdleCrew(Crew(devices, sites, order));
  }

  lemma BootInv(devices: seq<Device>, sites: seq<Site>, concurrency: int, order: seq<string>)
    requires RangesOver(order, devices)
    ensures Inv(Boot(devices, sites, concurrency, order), devices, Limits(devices, sites, order))
  {
    BootManned(devices, sites, concurrency, order);
    BootAccounted(devices, sites, concurrency, order);
    GroupingConserves(devices, order);
  }

  // ---------------------------------------------------------------- every step keeps the invariant

  /** What one move does to everything counted per phase. */
  lemma MoveFacts(p: Phase, m: Move, cancelled: bool, next: Phase)
    requires Poised(p, m)
    ensures var q := Moved(p, m, cancelled, next);
            && (!m.Take? && !m.Send? ==> InHand(q) == InHand(p))
            && (m.Send? ==> InHand(q) == Nothing && InHand(p) == Just(p.report.device))
            && (!m.Take? && !m.Call? && !m.Send? ==> CalledIn(q) == CalledIn(p))
            && (m.Send? ==> CalledIn(q) == Nothing && CalledIn(p) == Ran(p.report))
            && (m.Call? ==> CalledIn(p) == Nothing && CalledIn(q) == Just(p.device))
            && (m.Acquire? ==> SlotIn(p) == 0 && SlotIn(q) == 1)
            && (m.Release? ==> SlotIn(p) == 1 && SlotIn(q) == 0)
            && (!m.Acquire? && !m.Release? && !m.Take? ==> SlotIn(q) == SlotIn(p))
            && !p.Exited?
            && (PhaseLabelled(p, cancelled) && (m.GiveUp? ==> cancelled) && (m.Take? ==> next.Took?) ==>
                PhaseLabelled(q, cancelled))
  {
  }

  lemma TakeConserves(s: State, w: nat, devices: seq<Device>)
    requires CanWork(s, w, Take) && Conserved(s, devices)
    ensures Conserved(Step(s, Work(w, Take)), devices)
  {
    var k := s.workers[w].pool;
    var d, rest := s.queues[k][0], s.queues[k][1..];
    assert s.queues[k] == [d] + rest;
    BagLose(s.queues, k, rest, Waiting, multiset{d});
    BagGain(s.workers, w, Worker(k, Took(d)), Held, multiset{d});
    var t := Step(s, Work(w, Take));
    Handed(Bag(s.queues, Waiting), Bag(s.workers, Held), Bag(t.queues, Waiting), Bag(t.workers, Held), multiset{d},
      multiset{});
  }

  lemma SendConserves(s: State, w: nat, devices: seq<Device>)
    requires CanWork(s, w, Send) && Conserved(s, devices)
    ensures Conserved(Step(s, Work(w, Send)), devices)
  {
    var p, k := s.workers[w].phase, s.workers[w].pool;
    BagLose(s.workers, w, Worker(k, Idle), Held, multiset{p.report.device});
    BagAppend(s.sent, p.report, Origin);
    var t := Step(s, Work(w, Send));
    Handed(Bag(s.workers, Held), Bag(s.sent, Origin), Bag(t.workers, Held), Bag(t.sent, Origin),
      multiset{p.report.device}, Bag(s.queues, Waiting));
  }

  lemma StepConserves(s: State, w: nat, m: Move, devices: seq<Device>)
    requires CanWork(s, w, m) && Conserved(s, devices)
    ensures Conserved(Step(s, Work(w, m)), devices)
  {
    if m.Take? {
      TakeConserves(s, w, devices);
    } else if m.Send? {
      SendConserves(s, w, devices);
    } else {
      MoveFacts(s.workers[w].phase, m, s.cancelled, Idle);
      BagSame(s.workers, w, Worker(s.workers[w].pool, NextPhase(s, w, m)), Held);
    }
  }

  lemma StepKeepsManned(s: State, a: Action, limits: seq<nat>)
    requires Enabled(s, a) && Manned(s, limits)
    ensures Manned(Step(s, a), limits)
  {
    if a.Work? {
      var t := Step(s, a);
      forall k | 0 <= k < |limits| ensures Sum(t.workers, MemberOf(k)) == limits[k] {
        SumUpdate(s.workers, a.w, t.workers[a.w], MemberOf(k));
      }
    }
  }

  lemma SendKeepsCalls(s: State, w: nat)
    requires CanWork(s, w, Send) && s.started == Bag(s.workers, CalledBy) + Bag(s.sent, CalledFor)
    ensures var t := Step(s, Work(w, Send)); t.started == Bag(t.workers, CalledBy) + Bag(t.sent, CalledFor)
  {
    var p, k := s.workers[w].phase, s.workers[w].pool;
    BagLose(s.workers, w, Worker(k, Idle), CalledBy, Single(Ran(p.report)));
    BagAppend(s.sent, p.report, CalledFor);
    var t := Step(s, Work(w, Send));
    Handed(Bag(s.workers, CalledBy), Bag(s.sent, CalledFor), Bag(t.workers, CalledBy), Bag(t.sent, CalledFor),
      Single(Ran(p.report)), multiset{});
  }

  lemma CallKeepsCalls(s: State, w: nat)
    requires CanWork(s, w, Call) && s.started == Bag(s.workers, CalledBy) + Bag(s.sent, CalledFor)
    ensures var t := Step(s, Work(w, Call)); t.started == Bag(t.workers, CalledBy) + Bag(t.sent, CalledFor)
  {
    var d, k := s.workers[w].phase.device, s.workers[w].pool;
    BagGain(s.workers, w, Worker(k, Running(d)), CalledBy, multiset{d});
    Swapped(Bag(s.workers, CalledBy), Bag(s.sent, CalledFor), multiset{d});
  }

  lemma StepKeepsCalls(s: State, w: nat, m: Move)
    requires CanWork(s, w, m) && s.started == Bag(s.workers, CalledBy) + Bag(s.sent, CalledFor)
    ensures var t := Step(s, Work(w, m)); t.started == Bag(t.workers, CalledBy) + Bag(t.sent, CalledFor)
  {
    if m.Send? {
      SendKeepsCalls(s, w);
    } else if m.Call? {
      CallKeepsCalls(s, w);
    } else {
      MoveFacts(s.workers[w].phase, m, s.cancelled, NextPhase(s, w, m));
      BagSame(s.workers, w, Worker(s.workers[w].pool, NextPhase(s, w, m)), CalledBy);
    }
  }

  lemma StepKeepsSlots(s: State, w: nat, m: Move)
    requires CanWork(s, w, m) && s.occupied == Sum(s.workers, HoldsSlot) <= s.slots
    ensures var t := Step(s, Work(w, m)); t.occupied == Sum(t.workers, HoldsSlot) <= t.slots
  {
    var new' := Worker(s.workers[w].pool, NextPhase(s, w, m));
    MoveFacts(s.workers[w].phase, m, s.cancelled, new'.phase);
    SumUpdate(s.workers, w, new', HoldsSlot);
  }

  lemma StepKeepsLabels(s: State, w: nat, m: Move)
    requires CanWork(s, w, m) && Labelled(s)
    ensures Labelled(Step(s, Work(w, m)))
  {
    assert PhaseLabelled(s.workers[w].phase, s.cancelled);
    MoveFacts(s.workers[w].phase, m, s.cancelled, NextPhase(s, w, m));
  }

  lemma StepKeepsAccounts(s: State, w: nat, m: Move)
    requires CanWork(s, w, m) && Accounted(s)
    ensures Accounted(Step(s, Work(w, m)))
  {
    StepKeepsLabels(s, w, m);
    StepKeepsSlots(s, w, m);
    StepKeepsCalls(s, w, m);
  }

  lemma StepInv(s: State, a: Action, devices: seq<Device>, limits: seq<nat>)
    requires Enabled(s, a) && Inv(s, devices, limits)
    ensures Inv(Step(s, a), devices, limits)
  {
    StepKeepsManned(s, a, limits);
    if a.Work? {
      StepConserves(s, a.w, a.move, devices);
      StepKeepsAccounts(s, a.w, a.move);
    }
  }

  // ---------------------------------------------------------------- theorems over whole runs

  lemma {:induction false} ExecInv(s: State, acts: seq<Action>, devices: seq<Device>, limits: seq<nat>)
    requires Inv(s, devices, limits) && Legal(s, acts)
    ensures Inv(Exec(s, acts), devices, limits)
    ensures Exec(s, acts).slots == s.slots
    decreases |acts|
  {
    if acts != [] {
      StepInv(s, acts[0], devices, limits);
      ExecInv(Step(s, acts[0]), acts[1..], devices, limits);
    }
  }

  /** In every interleaving every device is queued, held by one worker or reported: never lost, never doubled. */
  lemma RunConserves(devices: seq<Device>, sites: seq<Site>, concurrency: int, order: seq<string>, acts: seq<Action>)
    requires RangesOver(order, devices) && Legal(Boot(devices, sites, concurrency, order), acts)
    ensures Conserved(Exec(Boot(devices, sites, concurrency, order), acts), devices)
    ensures Exec(Boot(devices, sites, concurrency, order), acts).started <= multiset(devices)
  {
    var s0 := Boot(devices, sites, concurrency, order);
    BootInv(devices, sites, concurrency, order);
    ExecInv(s0, acts, devices, Limits(devices, sites, order));
    StartedOnce(Exec(s0, acts), devices);
  }

  lemma CalledIsHeld(p: Phase)
    ensures CalledIn(p) == InHand(p) || CalledIn(p) == Nothing
  {
  }

  lemma StartedOnce(s: State, devices: seq<Device>)
    requires Conserved(s, devices) && s.started == Bag(s.workers, CalledBy) + Bag(s.sent, CalledFor)
    ensures s.started <= multiset(devices)
  {
    var q, a, b, x, y := Bag(s.queues, Waiting), Bag(s.workers, Held), Bag(s.sent, Origin), Bag(s.workers, CalledBy),
        Bag(s.sent, CalledFor);
    assert x <= a by {
      forall i | 0 <= i < |s.workers| ensures CalledBy(s.workers[i]) <= Held(s.workers[i]) {
        CalledIsHeld(s.workers[i].phase);
      }
      BagMonotone(s.workers, CalledBy, Held);
    }
    assert y <= b by { BagMonotone(s.sent, CalledFor, Origin); }
    Under(q, a, b, x, y);
  }

  lemma Under(q: multiset<Device>, a: multiset<Device>, b: multiset<Device>, x: multiset<Device>, y: multiset<Device>)
    requires x <= a && y <= b
    ensures x + y <= q + a + b
  {
  }

  lemma BoundedState(s: State, devices: seq<Device>, limits: seq<nat>)
    requires Inv(s, devices, limits)
    ensures Sum(s.workers, InOperation) <= s.occupied
    ensures forall k :: 0 <= k < |limits| ==> Sum(s.workers, OperatingIn(k)) <= limits[k]
    ensures forall w :: 0 <= w < |s.workers| && s.workers[w].phase.Leaving? ==> s.occupied > 0
  {
    SumMonotone(s.workers, InOperation, HoldsSlot);
    forall k | 0 <= k < |limits| ensures Sum(s.workers, OperatingIn(k)) <= limits[k] {
      SumMonotone(s.workers, OperatingIn(k), MemberOf(k));
    }
    forall w | 0 <= w < |s.workers| && s.workers[w].phase.Leaving? ensures s.occupied > 0 {
      SumAtLeast(s.workers, w, HoldsSlot);
    }
  }

  /** Both bounds hold in every reachable state, and the semaphore counts exactly the slot holders. */
  lemma RunBounded(devices: seq<Device>, sites: seq<Site>, concurrency: int, order: seq<string>, acts: seq<Action>)
    requires RangesOver(order, devices) && Legal(Boot(devices, sites, concurrency, order), acts)
    ensures var s := Exec(Boot(devices, sites, concurrency, order), acts);
            && Sum(s.workers, InOperation) <= s.occupied == Sum(s.workers, HoldsSlot) <= Clamp(concurrency, 16, 32)
            && (forall k :: 0 <= k < |order| ==>
                Sum(s.workers, OperatingIn(k)) <= PoolLimit(sites, order[k], |Group(devices, order[k])|))
            && (forall w :: 0 <= w < |s.workers| && s.workers[w].phase.Leaving? ==> s.occupied > 0)
  {
    var s0, limits := Boot(devices, sites, concurrency, order), Limits(devices, sites, order);
    BootInv(devices, sites, concurrency, order);
    ExecInv(s0, acts, devices, limits);
    BoundedState(Exec(s0, acts), devices, limits);
  }

  /** Once cancelled, a call can only come from a worker that had already passed its second check. */
  lemma {:induction false} NoStartAfterCancel(s: State, acts: seq<Action>)
    requires s.cancelled && Legal(s, acts)
    ensures var t := Exec(s, acts);
            t.started + Bag(t.workers, ClearedBy) == s.started + Bag(s.workers, ClearedBy)
    decreases |acts|
  {
    if acts != [] {
      CancelledStep(s, acts[0]);
      NoStartAfterCancel(Step(s, acts[0]), acts[1..]);
    }
  }

  lemma CancelledStep(s: State, a: Action)
    requires s.cancelled && Enabled(s, a)
    ensures var t := Step(s, a);
            t.cancelled && t.started + Bag(t.workers, ClearedBy) == s.started + Bag(s.workers, ClearedBy)
  {
    if a.Work? {
      var new' := Worker(s.workers[a.w].pool, NextPhase(s, a.w, a.move));
      if a.move.Call? {
        CancelledCall(s, a.w);
      } else {
        assert new'.phase.Cleared? ==> false;
        assert !s.workers[a.w].phase.Cleared?;
        BagSame(s.workers, a.w, new', ClearedBy);
      }
    }
  }

  lemma CancelledCall(s: State, w: nat)
    requires CanWork(s, w, Call)
    ensures var t := Step(s, Work(w, Call));
            t.started + Bag(t.workers, ClearedBy) == s.started + Bag(s.workers, ClearedBy)
  {
    var d := s.workers[w].phase.device;
    BagLose(s.workers, w, Worker(s.workers[w].pool, Running(d)), ClearedBy, multiset{d});
    var t := Step(s, Work(w, Call));
    Handed(Bag(s.workers, ClearedBy), s.started, Bag(t.workers, ClearedBy), t.started, multiset{d}, multiset{});
  }

  // ---------------------------------------------------------------- the second check and the call as one step

  predicate Clears(s: State, a: Action) { a.Work? && a.move.Recheck? && !s.cancelled }

  /** A worker that has passed its second check owes the next step of the run. */
  datatype Debt = Free | Owes(w: nat)

  /** Every second check that is passed is followed at once by that worker's call, and no call is made otherwise. */
  ghost predicate OneStep(s: State, acts: seq<Action>, debt: Debt)
    requires Legal(s, acts)
    decreases |acts|
  {
    if acts == [] then debt.Free? else
    if debt.Owes? then acts[0] == Work(debt.w, Call) && OneStep(Step(s, acts[0]), acts[1..], Free) else
    if Clears(s, acts[0]) then OneStep(Step(s, acts[0]), acts[1..], Owes(acts[0].w)) else
    !(acts[0].Work? && acts[0].move.Call?) && OneStep(Step(s, acts[0]), acts[1..], Free)
  }

  ghost predicate OnlyDebtorCleared(s: State, debt: Debt) {
    forall w :: 0 <= w < |s.workers| && s.workers[w].phase.Cleared? ==> debt == Owes(w)
  }

  lemma {:induction false} OneStepLeavesNoneCleared(s: State, acts: seq<Action>, debt: Debt)
    requires Legal(s, acts) && OneStep(s, acts, debt) && OnlyDebtorCleared(s, debt)
    ensures OnlyDebtorCleared(Exec(s, acts), Free)
    decreases |acts|
  {
    if acts != [] {
      var next := if debt.Free? && Clears(s, acts[0]) then Owes(acts[0].w) else Free;
      OneStepLeavesNoneCleared(Step(s, acts[0]), acts[1..], next);
    }
  }

  lemma {:induction false} StartedGrows(s: State, acts: seq<Action>)
    requires Legal(s, acts)
    ensures s.started <= Exec(s, acts).started
    decreases |acts|
  {
    if acts != [] {
      StartedGrows(Step(s, acts[0]), acts[1..]);
      assert s.started <= Step(s, acts[0]).started;
    }
  }

  lemma Same<U>(a: multiset<U>, b: multiset<U>, c: multiset<U>)
    requires a <= b && b + c == a + multiset{}
    ensures a == b
  {
    forall x ensures a[x] == b[x] {
      assert (b + c)[x] == (a + multiset{})[x];
    }
  }

  lemma NoneClearedNoneStarts(s: State, after: seq<Action>)
    requires s.cancelled && Legal(s, after) && !SomeCleared(s)
    ensures Exec(s, after).started == s.started
  {
    NoStartAfterCancel(s, after);
    BagEmpty(s.workers, ClearedBy);
    StartedGrows(s, after);
    Same(s.started, Exec(s, after).started, Bag(Exec(s, after).workers, ClearedBy));
  }

  predicate SomeCleared(s: State) { exists w :: 0 <= w < |s.workers| && s.workers[w].phase.Cleared? }

  ghost predicate MayStart(s: State) { exists more :: Legal(s, more) && Exec(s, more).started != s.started }

  /**
   After a cancellation another operation can still start exactly if some worker is between its
   second check and its call.
   */
  lemma MayStartIff(devices: seq<Device>, sites: seq<Site>, concurrency: int, order: seq<string>, before: seq<Action>)
    requires RangesOver(order, devices) && Legal(Boot(devices, sites, concurrency, order), before)
    requires Exec(Boot(devices, sites, concurrency, order), before).cancelled
    ensures var s := Exec(Boot(devices, sites, concurrency, order), before); MayStart(s) <==> SomeCleared(s)
  {
    var s := Exec(Boot(devices, sites, concurrency, order), before);
    BootInv(devices, sites, concurrency, order);
    ExecInv(Boot(devices, sites, concurrency, order), before, devices, Limits(devices, sites, order));
    if SomeCleared(s) {
      var w :| 0 <= w < |s.workers| && s.workers[w].phase.Cleared?;
      CallStarts(s, w);
    }
    if more :| Legal(s, more) && Exec(s, more).started != s.started && !SomeCleared(s) {
      NoneClearedNoneStarts(s, more);
    }
  }

  lemma CallStarts(s: State, w: nat)
    requires CanWork(s, w, Call)
    ensures MayStart(s)
  {
    var t := Step(s, Work(w, Call));
    assert t.started[s.workers[w].phase.device] == s.started[s.workers[w].phase.device] + 1;
    Then(s, Work(w, Call), []);
    assert Exec(s, [Work(w, Call)] + []) == Exec(t, []) == t;
  }

  /** In runs in which that check and the call are one step, nothing starts after a cancellation. */
  lemma AtomicCheckStartsNothing(devices: seq<Device>, sites: seq<Site>, concurrency: int, order: seq<string>,
          before: seq<Action>, after: seq<Action>)
    requires RangesOver(order, devices) && Legal(Boot(devices, sites, concurrency, order), before)
    requires OneStep(Boot(devices, sites, concurrency, order), before, Free)
    requires var s := Exec(Boot(devices, sites, concurrency, order), before); s.cancelled && Legal(s, after)
    ensures var s := Exec(Boot(devices, sites, concurrency, order), before); Exec(s, after).started == s.started
  {
    var s0 := Boot(devices, sites, concurrency, order);
    var s := Exec(s0, before);
    CrewPools(devices, sites, order);
    OneStepLeavesNoneCleared(s0, before, Free);
    NoneClearedNoneStarts(s, after);
  }

  /** So at most as many operations start after a cancellation as there are global slots. */
  lemma FewStartsAfterCancel(devices: seq<Device>, sites: seq<Site>, concurrency: int, order: seq<string>,
          before: seq<Action>, after: seq<Action>)
    requires RangesOver(order, devices) && Legal(Boot(devices, sites, concurrency, order), before)
    requires var s := Exec(Boot(devices, sites, concurrency, order), before); s.cancelled && Legal(s, after)
    ensures var s := Exec(Boot(devices, sites, concurrency, order), before);
            |Exec(s, after).started| <= |s.started| + Clamp(concurrency, 16, 32)
  {
    var s0 := Boot(devices, sites, concurrency, order);
    var s := Exec(s0, before);
    BootInv(devices, sites, concurrency, order);
    ExecInv(s0, before, devices, Limits(devices, sites, order));
    NoStartAfterCancel(s, after);
    BagSize(s.workers, ClearedBy, ClearedCount);
    SumMonotone(s.workers, ClearedCount, HoldsSlot);
    var t := Exec(s, after);
    assert |t.started| <= |t.started + Bag(t.workers, ClearedBy)|;
  }

  function ClearedCount(w: Worker): nat { if w.phase.Cleared? then 1 else 0 }

  // ---------------------------------------------------------------- what the operations returned

  /** What an operation returned for a device. */
  datatype Outcome = Outcome(device: Device, status: string, detail: string)

  /** The outcomes that the steps of a run return, straight from those steps. */
  ghost function Returned(s: State, acts: seq<Action>): multiset<Outcome>
    requires Legal(s, acts)
    decreases |acts|
  {
    if acts == [] then multiset{} else ReturnedBy(s, acts[0]) + Returned(Step(s, acts[0]), acts[1..])
  }

  function ReturnedBy(s: State, a: Action): multiset<Outcome>
    requires Enabled(s, a)
  {
    if a.Work? && a.move.Return?
    then multiset{Outcome(s.workers[a.w].phase.device, a.move.status, a.move.detail)} else multiset{}
  }

  /** The outcome a report tells, if its operation ran. */
  function Told(r: Report): multiset<Outcome> {
    if r.ran then multiset{Outcome(r.device, r.result.status, r.result.detail)} else multiset{}
  }

  function ToldIn(p: Phase): multiset<Outcome> { if p.Leaving? || p.Sending? then Told(p.report) else multiset{} }

  function ToldBy(w: Worker): multiset<Outcome> { ToldIn(w.phase) }

  /** What the reports so far tell, sent or on their way. */
  ghost function Tells(s: State): multiset<Outcome> { Bag(s.workers, ToldBy) + Bag(s.sent, Told) }

  lemma MoveTells(p: Phase, m: Move, cancelled: bool, next: Phase)
    requires Poised(p, m) && (m.Take? ==> next.Took?)
    ensures var q := Moved(p, m, cancelled, next);
            && (m.Return? ==>
                ToldIn(p) == multiset{} && ToldIn(q) == multiset{Outcome(p.device, m.status, m.detail)})
            && (m.Send? ==> ToldIn(q) == multiset{} && ToldIn(p) == Told(p.report))
            && (!m.Return? && !m.Send? ==> ToldIn(q) == ToldIn(p))
  {
  }

  lemma SendTells(s: State, w: nat)
    requires CanWork(s, w, Send)
    ensures Tells(Step(s, Work(w, Send))) == Tells(s)
  {
    var p, k := s.workers[w].phase, s.workers[w].pool;
    BagLose(s.workers, w, Worker(k, Idle), ToldBy, Told(p.report));
    BagAppend(s.sent, p.report, Told);
    var t := Step(s, Work(w, Send));
    Handed(Bag(s.workers, ToldBy), Bag(s.sent, Told), Bag(t.workers, ToldBy), Bag(t.sent, Told), Told(p.report),
      multiset{});
  }

  lemma ReturnTells(s: State, w: nat, m: Move)
    requires CanWork(s, w, m) && m.Return?
    ensures Tells(Step(s, Work(w, m))) == Tells(s) + ReturnedBy(s, Work(w, m))
  {
    var new' := Worker(s.workers[w].pool, NextPhase(s, w, m));
    MoveTells(s.workers[w].phase, m, s.cancelled, new'.phase);
    BagGain(s.workers, w, new', ToldBy, ReturnedBy(s, Work(w, m)));
    Swapped(Bag(s.workers, ToldBy), Bag(s.sent, Told), ReturnedBy(s, Work(w, m)));
  }

  lemma StepTells(s: State, a: Action)
    requires Enabled(s, a)
    ensures Tells(Step(s, a)) == Tells(s) + ReturnedBy(s, a)
  {
    if a.Work? {
      if a.move.Send? {
        SendTells(s, a.w);
      } else if a.move.Return? {
        ReturnTells(s, a.w, a.move);
      } else {
        MoveTells(s.workers[a.w].phase, a.move, s.cancelled, NextPhase(s, a.w, a.move));
        BagSame(s.workers, a.w, Worker(s.workers[a.w].pool, NextPhase(s, a.w, a.move)), ToldBy);
      }
    }
  }

  lemma {:induction false} RunTells(s: State, acts: seq<Action>)
    requires Legal(s, acts)
    ensures Tells(Exec(s, acts)) == Tells(s) + Returned(s, acts)
    decreases |acts|
  {
    if acts != [] {
      StepTells(s, acts[0]);
      RunTells(Step(s, acts[0]), acts[1..]);
    }
  }

  lemma BootTells(devices: seq<Device>, sites: seq<Site>, concurrency: int, order: seq<string>)
    ensures Tells(Boot(devices, sites, concurrency, order)) == multiset{}
  {
    CrewPools(devices, sites, order);
    BagEmpty(Crew(devices, sites, order), ToldBy);
  }

  /** In every interleaving the reports, sent or held, tell exactly what the operations returned, device by device. */
  lemma OutcomesDelivered(devices: seq<Device>, sites: seq<Site>, concurrency: int, order: seq<string>,
          acts: seq<Action>)
    requires RangesOver(order, devices) && Legal(Boot(devices, sites, concurrency, order), acts)
    ensures var s0 := Boot(devices, sites, concurrency, order);
            var s := Exec(s0, acts);
            && Bag(s.workers, ToldBy) + Bag(s.sent, Told) == Returned(s0, acts)
            && (s.closed ==> Bag(s.sent, Told) == Returned(s0, acts))
  {
    var s0, limits := Boot(devices, sites, concurrency, order), Limits(devices, sites, order);
    var s := Exec(s0, acts);
    BootTells(devices, sites, concurrency, order);
    RunTells(s0, acts);
    BootInv(devices, sites, concurrency, order);
    ExecInv(s0, acts, devices, limits);
    if s.closed {
      BagEmpty(s.workers, ToldBy);
    }
  }

  // ---------------------------------------------------------------- the limits in numbers, and the order of the queues

  /** The number of global slots: what was asked for, 16 if nothing was, and never more than 32. */
  lemma SlotsAre(devices: seq<Device>, sites: seq<Site>, concurrency: int, order: seq<string>)
    ensures var slots := Boot(devices, sites, concurrency, order).slots;
            && (concurrency < 1 ==> slots == 16)
            && (1 <= concurrency <= 32 ==> slots == concurrency)
            && (concurrency > 32 ==> slots == 32)
  {
  }

  /** The site's setting is the last one given for its ID. */
  ghost predicate SetTo(sites: seq<Site>, id: string, j: nat) {
    j < |sites| && sites[j].id == id && forall i :: j < i < |sites| ==> sites[i].id != id
  }

  lemma {:induction false} SettingsAre(sites: seq<Site>, id: string, j: nat)
    requires SetTo(sites, id, j)
    ensures id in Settings(sites) && Settings(sites)[id] == sites[j]
    decreases |sites|
  {
    if j < |sites| - 1 {
      SettingsAre(sites[..|sites| - 1], id, j);
    }
  }

  lemma {:induction false} SettingsAreNot(sites: seq<Site>, id: string)
    requires forall i :: 0 <= i < |sites| ==> sites[i].id != id
    ensures id !in Settings(sites)
  {
    if sites != [] {
      SettingsAreNot(sites[..|sites| - 1], id);
    }
  }

  /** The number of workers of a site: what it is set to, 4 if to nothing, at most 16, and no more than machines. */
  lemma PoolsAre(sites: seq<Site>, id: string, items: nat, j: nat)
    ensures PoolLimit(sites, id, items) <= items && PoolLimit(sites, id, items) <= 16
    ensures SetTo(sites, id, j) && 1 <= sites[j].concurrency <= 16 ==>
            PoolLimit(sites, id, items) == if items < sites[j].concurrency then items else sites[j].concurrency
    ensures SetTo(sites, id, j) && sites[j].concurrency > 16 ==>
            PoolLimit(sites, id, items) == if items < 16 then items else 16
    ensures SetTo(sites, id, j) && sites[j].concurrency < 1 ==>
            PoolLimit(sites, id, items) == if items < 4 then items else 4
    ensures (forall i :: 0 <= i < |sites| ==> sites[i].id != id) ==>
            PoolLimit(sites, id, items) == if items < 4 then items else 4
  {
    if SetTo(sites, id, j) {
      SettingsAre(sites, id, j);
    }
    if forall i :: 0 <= i < |sites| ==> sites[i].id != id {
      SettingsAreNot(sites, id);
    }
  }

  /** Never more than 32 operations at once, 16 if no number was given, and never more than 16 at one site. */
  lemma NeverMore(devices: seq<Device>, sites: seq<Site>, concurrency: int, order: seq<string>, acts: seq<Action>,
          k: nat,
          j: nat)
    requires RangesOver(order, devices) && Legal(Boot(devices, sites, concurrency, order), acts) && k < |order|
    ensures var s := Exec(Boot(devices, sites, concurrency, order), acts);
            && Sum(s.workers, InOperation) <= 32
            && (concurrency < 1 ==> Sum(s.workers, InOperation) <= 16)
            && (1 <= concurrency ==> Sum(s.workers, InOperation) <= concurrency)
            && Sum(s.workers, OperatingIn(k)) <= 16
            && (SetTo(sites, order[k], j) && 1 <= sites[j].concurrency ==>
                Sum(s.workers, OperatingIn(k)) <= sites[j].concurrency)
            && ((forall i :: 0 <= i < |sites| ==> sites[i].id != order[k]) ==> Sum(s.workers, OperatingIn(k)) <= 4)
  {
    RunBounded(devices, sites, concurrency, order, acts);
    PoolsAre(sites, order[k], |Group(devices, order[k])|, j);
  }

  /** A site's machines in inventory order: grouping one list after the other is grouping both. */
  lemma {:induction false} GroupSplits(devices: seq<Device>, more: seq<Device>, id: string)
    ensures Group(devices + more, id) == Group(devices, id) + Group(more, id)
    decreases |more|
  {
    if more == [] {
      assert devices + more == devices;
    } else {
      var n, all := |more| - 1, devices + more;
      GroupSplits(devices, more[..n], id);
      assert all[..|all| - 1] == devices + more[..n] && all[|all| - 1] == more[n];
      GroupOfLast(devices + more, id);
      GroupOfLast(more, id);
    }
  }

  lemma GroupOfLast(devices: seq<Device>, id: string)
    requires devices != []
    ensures var last := devices[|devices| - 1];
            Group(devices, id) == Group(devices[..|devices| - 1], id) + if last.siteId == id then [last] else []
  {
  }

  lemma GroupOfOne(d: Device, id: string)
    ensures Group([d], id) == if d.siteId == id then [d] else []
  {
    GroupOfLast([d], id);
    assert Group([d][..0], id) == [];
  }

  /** What is left of a queue is its end: machines are taken in inventory order. */
  ghost predicate Ends(now: seq<seq<Device>>, first: seq<seq<Device>>) {
    |now| == |first| && forall k ::
      0 <= k < |now| ==> |now[k]| <= |first[k]| && now[k] == first[k][|first[k]| - |now[k]|..]
  }

  lemma {:induction false} TakenInOrder(s: State, acts: seq<Action>, first: seq<seq<Device>>)
    requires Legal(s, acts) && Ends(s.queues, first)
    ensures Ends(Exec(s, acts).queues, first)
    decreases |acts|
  {
    if acts != [] {
      TakenInOrder(Step(s, acts[0]), acts[1..], first);
    }
  }

  // ---------------------------------------------------------------- waiting for a slot after a cancellation

  function Acquires(acts: seq<Action>): nat {
    if acts == [] then 0 else (if acts[0].Work? && acts[0].move.Acquire? then 1 else 0) + Acquires(acts[1..])
  }

  function Waits(w: Worker): nat { if w.phase.Selecting? then 1 else 0 }

  /** After a cancellation only a worker that was already waiting for a slot can still get one. */
  lemma {:induction false} NoNewWaiters(s: State, acts: seq<Action>)
    requires s.cancelled && Legal(s, acts)
    ensures Acquires(acts) + Sum(Exec(s, acts).workers, Waits) <= Sum(s.workers, Waits)
    decreases |acts|
  {
    if acts != [] {
      if acts[0].Work? {
        SumUpdate(s.workers, acts[0].w, Step(s, acts[0]).workers[acts[0].w], Waits);
      }
      NoNewWaiters(Step(s, acts[0]), acts[1..]);
    }
  }

  // ---------------------------------------------------------------- termination without a reader

  // ---------------------------------------------------------------- termination without a reader

  function Rank(w: Worker): nat {
    match w.phase
    case Idle => 1
    case Took(_) => 9
    case Selecting(_) => 8
    case Slot(_) => 7
    case Cleared(_) => 6
    case Running(_) => 5
    case Leaving(_) => 4
    case Sending(_) => 3
    case Exited => 0
  }

  function Length(q: seq<Device>): nat { |q| }

  ghost function Measure(s: State): int {
    Sum(s.workers, Rank) + 10 * Sum(s.queues, Length) + |s.sent| - s.read
    + (if s.cancelled then 0 else 1) + (if s.closed then 0 else 1)
  }

  /** Every step of every goroutine uses the measure up, so no run goes on for ever. */
  lemma StepDecreases(s: State, a: Action)
    requires Enabled(s, a)
    ensures Measure(Step(s, a)) < Measure(s)
  {
    if a.Work? {
      var k := s.workers[a.w].pool;
      SumUpdate(s.workers, a.w, Worker(k, NextPhase(s, a.w, a.move)), Rank);
      if a.move.Take? {
        SumUpdate(s.queues, k, s.queues[k][1..], Length);
      }
    }
  }

  lemma {:induction false} RunsAreFinite(s: State, acts: seq<Action>, devices: seq<Device>, limits: seq<nat>)
    requires Inv(s, devices, limits) && Legal(s, acts)
    ensures |acts| <= Measure(s)
    decreases |acts|
  {
    if acts != [] {
      StepDecreases(s, acts[0]);
      StepInv(s, acts[0], devices, limits);
      RunsAreFinite(Step(s, acts[0]), acts[1..], devices, limits);
    }
  }

  /** There is always room on the result channel for a result a worker holds. */
  lemma RoomToSend(s: State, w: nat, devices: seq<Device>)
    requires Conserved(s, devices) && s.capacity == |devices| && s.read <= |s.sent|
    requires w < |s.workers| && s.workers[w].phase.Sending?
    ensures |s.sent| < s.capacity
  {
    BagContains(s.workers, w, Held);
    BagSize(s.sent, Origin, (r: Report) => 1);
    SumConstant(s.sent, (r: Report) => 1, 1);
    var held, reported := Bag(s.workers, Held), Bag(s.sent, Origin);
    assert |multiset{s.workers[w].phase.report.device}| <= |held|;
    assert |Bag(s.queues, Waiting) + held + reported| == |multiset(devices)|;
  }

  /** A worker that has not gone can move, unless it waits for a slot another worker holds. */
  lemma WorkerCanMove(s: State, w: nat, devices: seq<Device>, limits: seq<nat>) returns (m: Move)
    requires Inv(s, devices, limits) && w < |s.workers| && !s.workers[w].phase.Exited?
    requires s.workers[w].phase.Selecting? ==> s.occupied < s.slots
    ensures CanWork(s, w, m)
  {
    match s.workers[w].phase
    case Idle => m := if s.queues[s.workers[w].pool] == [] then Exit else Take;
    case Took(_) => m := Check;
    case Selecting(_) => m := Acquire;
    case Slot(_) => m := Recheck;
    case Cleared(_) => m := Call;
    case Running(_) => m := Return("", "");
    case Leaving(_) =>
      SumAtLeast(s.workers, w, HoldsSlot);
      m := Release;
    case Sending(_) =>
      RoomToSend(s, w, devices);
      m := Send;
  }

  lemma SomeoneHolds(s: State)
    requires s.occupied == Sum(s.workers, HoldsSlot)
    ensures s.occupied > 0 ==> exists h ::
            0 <= h < |s.workers| && !s.workers[h].phase.Exited? && !s.workers[h].phase.Selecting?
  {
    if s.occupied > 0 {
      var h := SumPositive(s.workers, HoldsSlot);
    }
  }

  /** No deadlock: until the result channel closes some goroutine of Run can move, whether or not anyone reads. */
  lemma Progress(s: State, devices: seq<Device>, limits: seq<nat>) returns (a: Action)
    requires Inv(s, devices, limits) && !s.closed
    ensures (a.Work? || a.Close?) && Enabled(s, a)
  {
    if w :| 0 <= w < |s.workers| && !s.workers[w].phase.Exited? && !s.workers[w].phase.Selecting? {
      var m := WorkerCanMove(s, w, devices, limits);
      a := Work(w, m);
    } else if w :| 0 <= w < |s.workers| && s.workers[w].phase.Selecting? {
      SomeoneHolds(s);
      var m := WorkerCanMove(s, w, devices, limits);
      a := Work(w, m);
    } else {
      a := Close;
    }
  }

  lemma ClosedIsDrained(s: State, limits: seq<nat>)
    requires Manned(s, limits) && s.closed
    ensures Bag(s.queues, Waiting) == multiset{}
    ensures Bag(s.workers, Held) == multiset{} == Bag(s.workers, CalledBy)
  {
    forall k | 0 <= k < |s.queues| ensures s.queues[k] == [] {
      var w := SumPositive(s.workers, MemberOf(k));
    }
    BagEmpty(s.queues, Waiting);
    BagEmpty(s.workers, Held);
    BagEmpty(s.workers, CalledBy);
  }

  /** When the channel is closed there is exactly one result per device, labelled with that device. */
  lemma ClosedIsComplete(s: State, devices: seq<Device>, limits: seq<nat>)
    requires Inv(s, devices, limits) && s.closed
    ensures Bag(s.sent, Origin) == multiset(devices)
    ensures forall i :: 0 <= i < |s.sent| ==> WellLabelled(s.sent[i], s.cancelled)
    ensures !s.cancelled ==> s.started == multiset(devices)
  {
    ClosedIsDrained(s, limits);
    if !s.cancelled {
      BagAgree(s.sent, CalledFor, Origin);
    }
  }

  lemma BootMeasure(devices: seq<Device>, sites: seq<Site>, concurrency: int, order: seq<string>)
    requires RangesOver(order, devices)
    ensures Measure(Boot(devices, sites, concurrency, order)) == |Crew(devices, sites, order)| + 10 * |devices| + 2
  {
    CrewPools(devices, sites, order);
    SumConstant(Crew(devices, sites, order), Rank, 1);
    GroupingConserves(devices, order);
    BagSize(Queues(devices, order), Waiting, Length);
  }

  ghost predicate Stuck(s: State) {
    forall a: Action :: a.Work? || a.Close? ==> !Enabled(s, a)
  }

  /** A run that cannot go on has closed the channel and reported every device once, and every run is that short. */
  lemma MaximalRun(devices: seq<Device>, sites: seq<Site>, concurrency: int, order: seq<string>, acts: seq<Action>)
    requires RangesOver(order, devices) && Legal(Boot(devices, sites, concurrency, order), acts)
    ensures |acts| <= |Crew(devices, sites, order)| + 10 * |devices| + 2
    ensures var s := Exec(Boot(devices, sites, concurrency, order), acts);
            Stuck(s) ==>
              && s.closed && Bag(s.sent, Origin) == multiset(devices)
              && (!s.cancelled ==> s.started == multiset(devices))
              && Bag(s.sent, Told) == Returned(Boot(devices, sites, concurrency, order), acts)
  {
    var s0, limits := Boot(devices, sites, concurrency, order), Limits(devices, sites, order);
    BootInv(devices, sites, concurrency, order);
    ExecInv(s0, acts, devices, limits);
    RunsAreFinite(s0, acts, devices, limits);
    BootMeasure(devices, sites, concurrency, order);
    var s := Exec(s0, acts);
    OutcomesDelivered(devices, sites, concurrency, order, acts);
    if s.closed {
      ClosedIsComplete(s, devices, limits);
    } else {
      var a := Progress(s, devices, limits);
    }
  }

  // ---------------------------------------------------------------- putting runs together

  lemma Then(s: State, a: Action, rest: seq<Action>)
    requires Enabled(s, a) && Legal(Step(s, a), rest)
    ensures Legal(s, [a] + rest) && Exec(s, [a] + rest) == Exec(Step(s, a), rest)
  {
    assert ([a] + rest)[1..] == rest;
  }

  lemma {:induction false} Joined(s: State, acts: seq<Action>, more: seq<Action>)
    requires Legal(s, acts) && Legal(Exec(s, acts), more)
    ensures Legal(s, acts + more) && Exec(s, acts + more) == Exec(Exec(s, acts), more)
    decreases |acts|
  {
    if acts == [] {
      assert acts + more == more;
    } else {
      assert (acts + more)[1..] == acts[1..] + more;
      Joined(Step(s, acts[0]), acts[1..], more);
    }
  }
}
