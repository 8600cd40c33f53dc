/**
 The TCP sweep (internal/presence/presence.go:404-462): one goroutine per port
 probes and sends its result, the first online one cancels the rest, and results
 may be dropped on cancellation.
 */
module Sweep {
  import opened Sums

  datatype Probe = Online(refused: bool) | Unreachable | Silent

  datatype Outcome = NotRun | Ran(probe: Probe)

  datatype Phase =
    | Starting                                  // before its look at the context
    | Probing
    | Finished(probe: Probe)                    // before it cancels, if online
    | Sending(probe: Probe)                     // in the select
    | Exited(outcome: Outcome, delivered: bool)

  /** `sent[read..]` is in the channel; `cancelled` is the sweep's own context, `parent` the caller's. */
  datatype State = State(ports: seq<Phase>, capacity: nat, sent: seq<Probe>, read: nat, cancelled: bool, parent: bool,
      closed: bool)

  datatype Move =
    | Begin               // look at the context, then probe or leave
    | Finish(probe: Probe)
    | Signal              // cancel the others, if online
    | Send
    | GiveUp              // the select saw the cancellation; an online result is still tried once

  datatype Action = Work(i: nat, move: Move) | CancelParent | Close | Read

  predicate HasRoom(s: State) { |s.sent| - s.read < s.capacity }

  predicate CanMove(s: State, p: Phase, m: Move) {
    match m
    case Begin => p.Starting?
    case Finish(_) => p.Probing?
    case Signal => p.Finished?
    case Send => p.Sending? && HasRoom(s)
    case GiveUp => p.Sending? && s.cancelled
  }

  predicate AllExited(s: State) { forall i :: 0 <= i < |s.ports| ==> s.ports[i].Exited? }

  predicate Enabled(s: State, a: Action) {
    match a
    case Work(i, m) => i < |s.ports| && CanMove(s, s.ports[i], m)
    case CancelParent => !s.parent
    case Close => !s.closed && AllExited(s)
    case Read => s.read < |s.sent|
  }

  /** Whether the move puts the result on the channel. */
  predicate Delivers(s: State, p: Phase, m: Move)
    requires CanMove(s, p, m)
  {
    m.Send? || (m.GiveUp? && p.probe.Online? && HasRoom(s))
  }

  function Next(s: State, p: Phase, m: Move): Phase
    requires CanMove(s, p, m)
  {
    match m
    case Begin => if s.cancelled then Exited(NotRun, false) else Probing
    case Finish(probe) => Finished(probe)
    case Signal => Sending(p.probe)
    case Send => Exited(Ran(p.probe), true)
    case GiveUp => Exited(Ran(p.probe), Delivers(s, p, m))
  }

  function Step(s: State, a: Action): State
    requires Enabled(s, a)
  {
    match a
    case Work(i, m) =>
      var p := s.ports[i];
      s.(ports := s.ports[i := Next(s, p, m)],
         sent := if Delivers(s, p, m) then s.sent + [p.probe] else s.sent,
         cancelled := s.cancelled || (m.Signal? && p.probe.Online?))
    case CancelParent => s.(parent := true, cancelled := true)
    case Close => s.(closed := true)
    case Read => s.(read := s.read + 1)
  }

  ghost predicate Legal(s: State, acts: seq<Action>)
    decreases |acts|
  {
    acts == [] || (Enabled(s, acts[0]) && Legal(Step(s, acts[0]), acts[1..]))
  }

  ghost function Exec(s: State, acts: seq<Action>): State
    requires Legal(s, acts)
    decreases |acts|
  {
    if acts == [] then s else Exec(Step(s, acts[0]), acts[1..])
  }

  function Boot(n: nat): State { State(seq(n, _ => Starting), n, [], 0, false, false, false) }

  // ---------------------------------------------------------------- the invariant

  function Delivered(p: Phase): nat { if p.Exited? && p.delivered then 1 else 0 }

  /** An online result is never dropped, and nothing is skipped or dropped before a cancellation. */
  ghost predicate PortFits(s: State, p: Phase) {
    && (p.Exited? && p.delivered ==> p.outcome.Ran? && p.outcome.probe in s.sent)
    && (p.Exited? && p.outcome.Ran? && p.outcome.probe.Online? ==> p.delivered)
    && (p.Exited? && !p.delivered ==> s.cancelled)
    && (s.closed ==> p.Exited?)
  }

  /** The port has probed, and found the machine online. */
  predicate Signals(p: Phase) {
    (p.Sending? && p.probe.Online?) || (p.Exited? && p.outcome.Ran? && p.outcome.probe.Online?)
  }

  ghost predicate SentFits(s: State, r: Probe) { exists i :: 0 <= i < |s.ports| && s.ports[i] == Exited(Ran(r), true) }

  ghost predicate Inv(s: State) {
    && s.read <= |s.sent| && s.capacity == |s.ports|
    && |s.sent| == Sum(s.ports, Delivered)
    && (forall i :: 0 <= i < |s.ports| ==> PortFits(s, s.ports[i]))
    && (forall r :: r in s.sent ==> SentFits(s, r))
    && (s.cancelled && !s.parent ==> exists i :: 0 <= i < |s.ports| && Signals(s.ports[i]))
    && (s.parent ==> s.cancelled)
  }

  lemma {:induction false} SumBelow(ports: seq<Phase>, i: nat)
    requires i < |ports| && Delivered(ports[i]) == 0
    ensures Sum(ports, Delivered) < |ports|
  {
    if i == 0 {
      SumAtMost(ports[1..]);
    } else {
      SumBelow(ports[1..], i - 1);
    }
  }

  lemma {:induction false} SumAtMost(ports: seq<Phase>)
    ensures Sum(ports, Delivered) <= |ports|
  {
    if ports != [] {
      SumAtMost(ports[1..]);
    }
  }

  /** The channel is as large as the sweep: a goroutine that wants to send never waits for the reader. */
  lemma AlwaysRoom(s: State, i: nat)
    requires Inv(s) && i < |s.ports| && !s.ports[i].Exited?
    ensures HasRoom(s)
  {
    SumBelow(s.ports, i);
  }

  lemma WorkKeepsPorts(s: State, i: nat, m: Move, k: nat)
    requires Inv(s) && Enabled(s, Work(i, m)) && k < |s.ports|
    ensures PortFits(Step(s, Work(i, m)), Step(s, Work(i, m)).ports[k])
  {
    AlwaysRoom(s, i);
    assert PortFits(s, s.ports[i]) && PortFits(s, s.ports[k]);
  }

  lemma WorkKeepsSent(s: State, i: nat, m: Move, r: Probe)
    requires Inv(s) && Enabled(s, Work(i, m)) && r in Step(s, Work(i, m)).sent
    ensures SentFits(Step(s, Work(i, m)), r)
  {
    var s' := Step(s, Work(i, m));
    if r in s.sent {
      assert SentFits(s, r);
      var k :| 0 <= k < |s.ports| && s.ports[k] == Exited(Ran(r), true);
      assert s'.ports[k] == s.ports[k];
    } else {
      assert s'.ports[i] == Exited(Ran(r), true);
    }
  }

  lemma WorkKeepsSignal(s: State, i: nat, m: Move)
    requires Inv(s) && Enabled(s, Work(i, m)) && Step(s, Work(i, m)).cancelled && !s.parent
    ensures var s' := Step(s, Work(i, m)); exists k :: 0 <= k < |s'.ports| && Signals(s'.ports[k])
  {
    var s' := Step(s, Work(i, m));
    if s.cancelled {
      var k :| 0 <= k < |s.ports| && Signals(s.ports[k]);
      assert Signals(s'.ports[k]);
    } else {
      assert Signals(s'.ports[i]);
    }
  }

  lemma StepKeepsInv(s: State, a: Action)
    requires Inv(s) && Enabled(s, a)
    ensures Inv(Step(s, a))
  {
    var s' := Step(s, a);
    match a
    case Work(i, m) =>
      SumUpdate(s.ports, i, s'.ports[i], Delivered);
      forall k | 0 <= k < |s.ports| ensures PortFits(s', s'.ports[k]) { WorkKeepsPorts(s, i, m, k); }
      forall r | r in s'.sent ensures SentFits(s', r) { WorkKeepsSent(s, i, m, r); }
      if s'.cancelled && !s'.parent { WorkKeepsSignal(s, i, m); }
    case CancelParent =>
      forall r | r in s'.sent ensures SentFits(s', r) { assert SentFits(s, r); }
    case Close =>
      forall r | r in s'.sent ensures SentFits(s', r) { assert SentFits(s, r); }
    case Read =>
      forall r | r in s'.sent ensures SentFits(s', r) { assert SentFits(s, r); }
  }

  lemma {:induction false} RunKeepsInv(s: State, acts: seq<Action>)
    requires Inv(s) && Legal(s, acts)
    ensures Inv(Exec(s, acts)) && |Exec(s, acts).ports| == |s.ports|
    decreases |acts|
  {
    if acts != [] {
      StepKeepsInv(s, acts[0]);
      RunKeepsInv(Step(s, acts[0]), acts[1..]);
    }
  }

  lemma BootInv(n: nat)
    ensures Inv(Boot(n))
  {
    SumConstant(Boot(n).ports, Delivered, 0);
  }

  // ---------------------------------------------------------------- the verdict

  datatype Verdict = Verdict(hit: bool, allUnreachable: bool, attempted: bool)

  /** What `allUnreachable` says of the results that were read. */
  ghost predicate Reported(results: seq<Probe>) { results != [] && forall r :: r in results ==> r.Unreachable? }

  /** The loop that reads the results. */
  method Tally(results: seq<Probe>) returns (v: Verdict)
    ensures v.hit <==> exists r :: r in results && r.Online?
    ensures v.allUnreachable <==> Reported(results)
    ensures v.attempted <==> results != []
  {
    var hit, attempted, finished, unreachable := false, false, 0, 0;
    for i := 0 to |results|
      invariant hit <==> exists k :: 0 <= k < i && results[k].Online?
      invariant attempted <==> i > 0
      invariant finished == i && unreachable <= i
      invariant unreachable == i <==> forall k :: 0 <= k < i ==> results[k].Unreachable?
    {
      attempted := true;
      finished := finished + 1;
      if results[i].Online? {
        hit := true;
      }
      if results[i].Unreachable? {
        unreachable := unreachable + 1;
      }
    }
    if hit {
      assert exists r :: r in results && r.Online?;
      return Verdict(true, false, true);
    }
    v := Verdict(false, attempted && finished > 0 && unreachable == finished, attempted);
  }

  predicate Over(s: State) { s.closed && s.read == |s.sent| }

  predicate FoundOnline(s: State) {
    exists i :: 0 <= i < |s.ports| && s.ports[i].Exited? && s.ports[i].outcome.Ran? && s.ports[i].outcome.probe.Online?
  }

  /** Every port was probed and found unreachable, whether or not its result was sent. */
  predicate AllRanUnreachable(s: State) {
    forall i :: 0 <= i < |s.ports| ==> s.ports[i].Exited? && s.ports[i].outcome == Ran(Unreachable)
  }

  /** However the sweep went, the tally reports a hit exactly if some probe that ran was online. */
  lemma HitIff(n: nat, acts: seq<Action>)
    requires Legal(Boot(n), acts) && Over(Exec(Boot(n), acts))
    ensures var s := Exec(Boot(n), acts); (exists r :: r in s.sent && r.Online?) <==> FoundOnline(s)
  {
    BootInv(n);
    RunKeepsInv(Boot(n), acts);
    var s := Exec(Boot(n), acts);
    if r :| r in s.sent && r.Online? {
      assert SentFits(s, r);
    }
    if FoundOnline(s) {
      var i :| 0 <= i < |s.ports| && s.ports[i].Exited? && s.ports[i].outcome.Ran? && s.ports[i].outcome.probe.Online?;
      assert PortFits(s, s.ports[i]);
    }
  }

  /**
   Without a hit and without a cancelled caller every port was probed and counted, and all were
   unreachable exactly if each was.
   */
  lemma CompleteIff(n: nat, acts: seq<Action>)
    requires Legal(Boot(n), acts) && Over(Exec(Boot(n), acts))
    requires var s := Exec(Boot(n), acts); !s.parent && !FoundOnline(s)
    ensures var s := Exec(Boot(n), acts);
            && |s.sent| == |s.ports| == n
            && (forall i :: 0 <= i < n ==> s.ports[i].Exited? && s.ports[i].outcome.Ran? && s.ports[i].delivered)
            && ((forall r :: r in s.sent ==> r.Unreachable?) <==> AllRanUnreachable(s))
  {
    BootInv(n);
    RunKeepsInv(Boot(n), acts);
    var s := Exec(Boot(n), acts);
    forall i | 0 <= i < n
      ensures s.ports[i].Exited? && s.ports[i].outcome.Ran? && s.ports[i].delivered
      ensures s.ports[i].outcome.probe in s.sent
    {
      assert PortFits(s, s.ports[i]);
    }
    SumConstant(s.ports, Delivered, 1);
    forall r | r in s.sent ensures SentFits(s, r) {
    }
  }

  /** If as many results as ports were sent, each port sent its own. */
  lemma AllDelivered(s: State, i: nat)
    requires Inv(s) && |s.sent| == |s.ports| && i < |s.ports|
    ensures s.ports[i].Exited? && s.ports[i].outcome.Ran? && s.ports[i].delivered && s.ports[i].outcome.probe in s.sent
  {
    if Delivered(s.ports[i]) == 0 {
      SumBelow(s.ports, i);
    }
    assert PortFits(s, s.ports[i]);
  }

  /** The report is true of the ports: if it says that all are unreachable, they are. */
  ghost predicate Truthful(s: State) { Reported(s.sent) ==> AllRanUnreachable(s) }

  /** It says so exactly if they are. */
  ghost predicate Exact(s: State) { Reported(s.sent) <==> AllRanUnreachable(s) }

  /** A sweep that has counted every port reports exactly what the ports found, cancelled or not. */
  lemma CountedIsExact(n: nat, acts: seq<Action>)
    requires n > 0 && Legal(Boot(n), acts)
    ensures var s := Exec(Boot(n), acts); |s.sent| == n ==> Exact(s)
  {
    BootInv(n);
    RunKeepsInv(Boot(n), acts);
    var s := Exec(Boot(n), acts);
    if |s.sent| == n {
      forall i | 0 <= i < n
        ensures s.ports[i].Exited? && s.ports[i].outcome.Ran? && s.ports[i].outcome.probe in s.sent
      {
        AllDelivered(s, i);
      }
      forall r | r in s.sent ensures exists i :: 0 <= i < n && s.ports[i] == Exited(Ran(r), true) {
        assert SentFits(s, r);
      }
    }
  }

  /** So does one whose caller has not cancelled. */
  lemma UncancelledIsExact(n: nat, acts: seq<Action>)
    requires n > 0 && Legal(Boot(n), acts) && Over(Exec(Boot(n), acts)) && !Exec(Boot(n), acts).parent
    ensures Exact(Exec(Boot(n), acts))
  {
    var s := Exec(Boot(n), acts);
    if FoundOnline(s) {
      HitIff(n, acts);
    } else {
      CompleteIff(n, acts);
    }
  }

  // ---------------------------------------------------------------- what the probes found, and the first hit

  /** What the step says the probe of port i found, */
  function FoundIn(a: Action, i: nat): seq<Probe> {
    if a.Work? && a.i == i && a.move.Finish? then [a.move.probe] else []
  }

  /** and what the steps of a run say. */
  ghost function FoundBy(acts: seq<Action>, i: nat): seq<Probe> {
    if acts == [] then [] else FoundIn(acts[0], i) + FoundBy(acts[1..], i)
  }

  /** What its phase still knows of it. */
  function KnownOf(p: Phase): seq<Probe> {
    match p
    case Starting => []
    case Probing => []
    case Finished(probe) => [probe]
    case Sending(probe) => [probe]
    case Exited(outcome, _) => if outcome.Ran? then [outcome.probe] else []
  }

  lemma StepKnown(s: State, a: Action, i: nat)
    requires Enabled(s, a) && i < |s.ports|
    ensures |Step(s, a).ports| == |s.ports|
    ensures KnownOf(Step(s, a).ports[i]) == KnownOf(s.ports[i]) + FoundIn(a, i)
  {
  }

  lemma {:induction false} ProbesAsFound(s: State, acts: seq<Action>, i: nat)
    requires Legal(s, acts) && i < |s.ports|
    ensures |Exec(s, acts).ports| == |s.ports|
    ensures KnownOf(Exec(s, acts).ports[i]) == KnownOf(s.ports[i]) + FoundBy(acts, i)
    decreases |acts|
  {
    if acts != [] {
      StepKnown(s, acts[0], i);
      ProbesAsFound(Step(s, acts[0]), acts[1..], i);
      var known, now, later := KnownOf(s.ports[i]), FoundIn(acts[0], i), FoundBy(acts[1..], i);
      assert (known + now) + later == known + (now + later);
    }
  }

  lemma FromBoot(n: nat, acts: seq<Action>, i: nat)
    requires Legal(Boot(n), acts) && i < n
    ensures |Exec(Boot(n), acts).ports| == n && KnownOf(Exec(Boot(n), acts).ports[i]) == FoundBy(acts, i)
  {
    ProbesAsFound(Boot(n), acts, i);
    assert [] + FoundBy(acts, i) == FoundBy(acts, i);
  }

  /** The outcome of a port that has left is what its probe found. */
  lemma OutcomeAsFound(n: nat, acts: seq<Action>, i: nat)
    requires Legal(Boot(n), acts) && i < n
    ensures var s := Exec(Boot(n), acts);
            i < |s.ports| && (s.ports[i].Exited? ==>
              && (s.ports[i].outcome.Ran? ==> FoundBy(acts, i) == [s.ports[i].outcome.probe])
              && (s.ports[i].outcome.NotRun? ==> FoundBy(acts, i) == []))
  {
    FromBoot(n, acts, i);
  }

  /** However a sweep ends, it reports a hit exactly if some step of it found a port online. */
  lemma HitAsFound(n: nat, acts: seq<Action>)
    requires Legal(Boot(n), acts) && Over(Exec(Boot(n), acts))
    ensures (exists r :: r in Exec(Boot(n), acts).sent && r.Online?) <==>
            exists i, r :: 0 <= i < n && r in FoundBy(acts, i) && r.Online?
  {
    HitIff(n, acts);
    var s := Exec(Boot(n), acts);
    BootInv(n);
    RunKeepsInv(Boot(n), acts);
    if FoundOnline(s) {
      var i :| 0 <= i < |s.ports| && s.ports[i].Exited? && s.ports[i].outcome.Ran? && s.ports[i].outcome.probe.Online?;
      OutcomeAsFound(n, acts, i);
      assert s.ports[i].outcome.probe in FoundBy(acts, i);
    }
    if i, r :| 0 <= i < n && r in FoundBy(acts, i) && r.Online? {
      OutcomeAsFound(n, acts, i);
      assert PortFits(s, s.ports[i]);
    }
  }

  /** A port that has announced that it is online has cancelled the others. */
  ghost predicate HitsCancel(s: State) {
    forall i :: 0 <= i < |s.ports| && Signals(s.ports[i]) ==> s.cancelled
  }

  lemma {:induction false} HitsKeepCancelling(s: State, acts: seq<Action>)
    requires Legal(s, acts) && HitsCancel(s)
    ensures HitsCancel(Exec(s, acts))
    decreases |acts|
  {
    if acts != [] {
      HitsKeepCancelling(Step(s, acts[0]), acts[1..]);
    }
  }

  lemma {:induction false} CancelledStays(s: State, acts: seq<Action>, i: nat)
    requires Legal(s, acts) && s.cancelled && i < |s.ports|
    requires s.ports[i].Starting? || s.ports[i] == Exited(NotRun, false)
    ensures var t := Exec(s, acts);
            t.cancelled && i < |t.ports| && (t.ports[i].Starting? || t.ports[i] == Exited(NotRun, false))
    decreases |acts|
  {
    if acts != [] {
      CancelledStays(Step(s, acts[0]), acts[1..], i);
    }
  }

  /**
   Once a port has announced that it is online, or the caller has cancelled, a port that has not
   looked at the context yet is never probed.
   */
  lemma NoProbeAfterHit(n: nat, before: seq<Action>, after: seq<Action>, i: nat)
    requires Legal(Boot(n), before) && Legal(Exec(Boot(n), before), after)
    requires var s := Exec(Boot(n), before);
             && i < |s.ports| && s.ports[i].Starting?
             && (s.parent || exists k :: 0 <= k < |s.ports| && Signals(s.ports[k]))
    ensures var t := Exec(Exec(Boot(n), before), after);
            i < |t.ports| && (t.ports[i].Starting? || t.ports[i] == Exited(NotRun, false))
  {
    BootInv(n);
    RunKeepsInv(Boot(n), before);
    HitsKeepCancelling(Boot(n), before);
    CancelledStays(Exec(Boot(n), before), after, i);
  }

  function PhaseWork(p: Phase): nat {
    match p
    case Starting => 4
    case Probing => 3
    case Finished(_) => 2
    case Sending(_) => 1
    case Exited(_, _) => 0
  }

  /** Every move leads a goroutine on, and as long as it has not left it can make one. */
  lemma SweepEnds(s: State, i: nat) returns (m: Move)
    requires Inv(s) && i < |s.ports| && !s.ports[i].Exited?
    ensures CanMove(s, s.ports[i], m)
    ensures forall any: Move ::
            CanMove(s, s.ports[i], any) ==> PhaseWork(Next(s, s.ports[i], any)) < PhaseWork(s.ports[i])
  {
    AlwaysRoom(s, i);
    match s.ports[i]
    case Starting => m := Begin;
    case Probing => m := Finish(Silent);
    case Finished(_) => m := Signal;
    case Sending(_) => m := Send;
  }

  ghost function Measure(s: State): int {
    2 * Sum(s.ports, PhaseWork) + |s.sent| - s.read + (if s.parent then 0 else 1) + (if s.closed then 0 else 1)
  }

  lemma StepDecreases(s: State, a: Action)
    requires Enabled(s, a)
    ensures Measure(Step(s, a)) < Measure(s)
  {
    if a.Work? {
      SumUpdate(s.ports, a.i, Next(s, s.ports[a.i], a.move), PhaseWork);
    }
  }

  lemma {:induction false} RunsAreFinite(s: State, acts: seq<Action>)
    requires Inv(s) && Legal(s, acts)
    ensures |acts| <= Measure(s)
    decreases |acts|
  {
    if acts != [] {
      StepDecreases(s, acts[0]);
      StepKeepsInv(s, acts[0]);
      RunsAreFinite(Step(s, acts[0]), acts[1..]);
    }
  }

  /** Nothing can happen but the caller's own cancellation. */
  ghost predicate Stuck(s: State) { forall a: Action :: !a.CancelParent? ==> !Enabled(s, a) }

  /** Every sweep is short, and one that cannot go on has closed its channel and been read to the end. */
  lemma MaximalSweep(n: nat, acts: seq<Action>)
    requires Legal(Boot(n), acts)
    ensures |acts| <= 8 * n + 2
    ensures Stuck(Exec(Boot(n), acts)) ==> Over(Exec(Boot(n), acts))
  {
    BootInv(n);
    SumConstant(Boot(n).ports, PhaseWork, 4);
    RunsAreFinite(Boot(n), acts);
    RunKeepsInv(Boot(n), acts);
    var s := Exec(Boot(n), acts);
    if Stuck(s) {
      forall i: nat | i < |s.ports| ensures s.ports[i].Exited? {
        if !s.ports[i].Exited? {
          var m := SweepEnds(s, i);
          assert Enabled(s, Work(i, m));
        }
      }
      assert !Enabled(s, Close) && !Enabled(s, Read);
    }
  }

  lemma Then(s: State, a: Action, rest: seq<Action>)
    requires Enabled(s, a) && Legal(Step(s, a), rest)
    ensures Legal(s, [a] + rest) && Exec(s, [a] + rest) == Exec(Step(s, a), rest)
  {
    assert ([a] + rest)[1..] == rest;
  }

  lemma {:induction false} Joined(s: State, acts: seq<Action>, more: seq<Action>)
    requires Legal(s, acts) && Legal(Exec(s, acts), more)
    ensures Legal(s, acts + more) && Exec(s, acts + more) == Exec(Exec(s, acts), more)
    decreases |acts|
  {
    if acts == [] {
      assert acts + more == more;
    } else {
      assert (acts + more)[1..] == acts[1..] + more;
      Joined(Step(s, acts[0]), acts[1..], more);
    }
  }

  // ---------------------------------------------------------------- a partial count

  /** After the cancellation: one port was counted, one dropped, and those up to k never looked. */
  function Skipped(n: nat, k: nat): State {
    State(seq(n, i => if i == 0 then Exited(Ran(Unreachable), true) else
                      if i == 1 then Exited(Ran(Silent), false) else
                      if i < k then Exited(NotRun, false) else Starting),
          n, [Unreachable], 0, true, true, false)
  }

  lemma FirstUnreachable(n: nat) returns (acts: seq<Action>)
    requires n >= 2
    ensures Legal(Boot(n), acts)
    ensures Exec(Boot(n), acts) ==
            Boot(n).(ports := Boot(n).ports[0 := Exited(Ran(Unreachable), true)], sent := [Unreachable])
  {
    var s0 := Boot(n);
    var s1 := Step(s0, Work(0, Begin));
    var s2 := Step(s1, Work(0, Finish(Unreachable)));
    var s3 := Step(s2, Work(0, Signal));
    Then(s3, Work(0, Send), []);
    acts := [Work(0, Send)] + [];
    Then(s2, Work(0, Signal), acts);
    acts := [Work(0, Signal)] + acts;
    Then(s1, Work(0, Finish(Unreachable)), acts);
    acts := [Work(0, Finish(Unreachable))] + acts;
    Then(s0, Work(0, Begin), acts);
    acts := [Work(0, Begin)] + acts;
  }

  lemma SecondDropped(n: nat, s: State) returns (acts: seq<Action>)
    requires n >= 2 && s == Boot(n).(ports := Boot(n).ports[0 := Exited(Ran(Unreachable), true)], sent := [Unreachable])
    ensures Legal(s, acts) && Exec(s, acts) == Skipped(n, 2)
  {
    var s1 := Step(s, Work(1, Begin));
    var s2 := Step(s1, Work(1, Finish(Silent)));
    var s3 := Step(s2, Work(1, Signal));
    var s4 := Step(s3, CancelParent);
    assert Step(s4, Work(1, GiveUp)).ports == Skipped(n, 2).ports;
    Then(s4, Work(1, GiveUp), []);
    acts := [Work(1, GiveUp)] + [];
    Then(s3, CancelParent, acts);
    acts := [CancelParent] + acts;
    Then(s2, Work(1, Signal), acts);
    acts := [Work(1, Signal)] + acts;
    Then(s1, Work(1, Finish(Silent)), acts);
    acts := [Work(1, Finish(Silent))] + acts;
    Then(s, Work(1, Begin), acts);
    acts := [Work(1, Begin)] + acts;
  }

  lemma {:induction false} OthersSkip(n: nat, k: nat) returns (acts: seq<Action>)
    requires 2 <= k <= n
    ensures Legal(Skipped(n, k), acts) && Exec(Skipped(n, k), acts) == Skipped(n, n)
    decreases n - k
  {
    if k == n {
      acts := [];
    } else {
      assert Step(Skipped(n, k), Work(k, Begin)).ports == Skipped(n, k + 1).ports;
      acts := OthersSkip(n, k + 1);
      Then(Skipped(n, k), Work(k, Begin), acts);
      acts := [Work(k, Begin)] + acts;
    }
  }

  lemma ClosesAndReads(n: nat) returns (acts: seq<Action>)
    ensures Legal(Skipped(n, n), acts) && Exec(Skipped(n, n), acts) == Skipped(n, n).(read := 1, closed := true)
  {
    var s := Skipped(n, n);
    Then(Step(s, Close), Read, []);
    acts := [Read] + [];
    Then(s, Close, acts);
    acts := [Close] + acts;
  }

  /**
   With two ports or more and a cancellation, all may be reported unreachable although one was silent
   and others not probed.
   */
  lemma PartialCount(n: nat) returns (acts: seq<Action>)
    requires n >= 2
    ensures Legal(Boot(n), acts)
    ensures var s := Exec(Boot(n), acts);
            && Over(s) && !FoundOnline(s) && s.parent && Reported(s.sent)
            && |s.ports| == n && s.ports[1] == Exited(Ran(Silent), false)
  {
    var first := FirstUnreachable(n);
    var second := SecondDropped(n, Exec(Boot(n), first));
    var others := OthersSkip(n, 2);
    var last := ClosesAndReads(n);
    Joined(Skipped(n, 2), others, last);
    Joined(Exec(Boot(n), first), second, others + last);
    Joined(Boot(n), first, second + (others + last));
    acts := first + (second + (others + last));
  }

  // ---------------------------------------------------------------- no count

  /** The first k ports have found the machine unreachable and stand before their select. */
  function Found(n: nat, k: nat): State {
    Boot(n).(ports := seq(n, i => if i < k then Sending(Unreachable) else Starting))
  }

  /** After the cancellation: the first k have dropped their results. */
  function Dropped(n: nat, k: nat): State {
    State(seq(n, i => if i < k then Exited(Ran(Unreachable), false) else Sending(Unreachable)),
          n, [], 0, true, true, false)
  }

  lemma {:induction false} EachFinds(n: nat, k: nat) returns (acts: seq<Action>)
    requires k <= n
    ensures Legal(Found(n, k), acts) && Exec(Found(n, k), acts) == Found(n, n)
    decreases n - k
  {
    if k == n {
      acts := [];
    } else {
      var s1 := Step(Found(n, k), Work(k, Begin));
      var s2 := Step(s1, Work(k, Finish(Unreachable)));
      assert Step(s2, Work(k, Signal)).ports == Found(n, k + 1).ports;
      acts := EachFinds(n, k + 1);
      Then(s2, Work(k, Signal), acts);
      acts := [Work(k, Signal)] + acts;
      Then(s1, Work(k, Finish(Unreachable)), acts);
      acts := [Work(k, Finish(Unreachable))] + acts;
      Then(Found(n, k), Work(k, Begin), acts);
      acts := [Work(k, Begin)] + acts;
    }
  }

  lemma {:induction false} EachDrops(n: nat, k: nat) returns (acts: seq<Action>)
    requires k <= n
    ensures Legal(Dropped(n, k), acts) && Exec(Dropped(n, k), acts) == Dropped(n, n).(closed := true)
    decreases n - k
  {
    if k == n {
      Then(Dropped(n, n), Close, []);
      acts := [Close] + [];
    } else {
      assert Step(Dropped(n, k), Work(k, GiveUp)).ports == Dropped(n, k + 1).ports;
      acts := EachDrops(n, k + 1);
      Then(Dropped(n, k), Work(k, GiveUp), acts);
      acts := [Work(k, GiveUp)] + acts;
    }
  }

  /**
   With a cancellation, even one port may be found unreachable by every probe and not be reported so:
   all results are dropped.
   */
  lemma NoCount(n: nat) returns (acts: seq<Action>)
    requires n > 0
    ensures Legal(Boot(n), acts)
    ensures var s := Exec(Boot(n), acts); Over(s) && s.parent && AllRanUnreachable(s) && s.sent == []
  {
    assert Boot(n).ports == Found(n, 0).ports;
    var first := EachFinds(n, 0);
    assert Step(Found(n, n), CancelParent).ports == Dropped(n, 0).ports;
    var second := EachDrops(n, 0);
    Then(Found(n, n), CancelParent, second);
    Joined(Boot(n), first, [CancelParent] + second);
    acts := first + ([CancelParent] + second);
  }

  // ---------------------------------------------------------------- what a caller can know beforehand

  /** A run of n ports that ends, cancelled by its caller or not as the flag allows. */
  ghost predicate Ended(n: nat, mayCancel: bool, acts: seq<Action>) {
    Legal(Boot(n), acts) && Over(Exec(Boot(n), acts)) && (Exec(Boot(n), acts).parent ==> mayCancel)
  }

  ghost predicate SurelyTruthful(n: nat, mayCancel: bool) {
    forall acts :: Ended(n, mayCancel, acts) ==> Truthful(Exec(Boot(n), acts))
  }

  ghost predicate SurelyExact(n: nat, mayCancel: bool) {
    forall acts :: Ended(n, mayCancel, acts) ==> Exact(Exec(Boot(n), acts))
  }

  /** "All unreachable" can be relied on exactly if there is one port or the caller does not cancel. */
  lemma TruthfulIff(n: nat, mayCancel: bool)
    requires n > 0
    ensures SurelyTruthful(n, mayCancel) <==> n == 1 || !mayCancel
  {
    if n == 1 || !mayCancel {
      forall acts | Ended(n, mayCancel, acts) ensures Truthful(Exec(Boot(n), acts)) {
        OneOrUncancelled(n, acts);
      }
    } else {
      var acts := PartialCount(n);
      assert Ended(n, mayCancel, acts) && !AllRanUnreachable(Exec(Boot(n), acts));
    }
  }

  lemma OneOrUncancelled(n: nat, acts: seq<Action>)
    requires n > 0 && Legal(Boot(n), acts) && Over(Exec(Boot(n), acts)) && (n == 1 || !Exec(Boot(n), acts).parent)
    ensures Truthful(Exec(Boot(n), acts))
  {
    var s := Exec(Boot(n), acts);
    if !s.parent {
      UncancelledIsExact(n, acts);
    } else {
      CountedIsExact(n, acts);
      BootInv(n);
      RunKeepsInv(Boot(n), acts);
      SumAtMost(s.ports);
    }
  }

  /** And it is said whenever it is so exactly if the caller does not cancel. */
  lemma ExactIff(n: nat, mayCancel: bool)
    requires n > 0
    ensures SurelyExact(n, mayCancel) <==> !mayCancel
  {
    if !mayCancel {
      forall acts | Ended(n, mayCancel, acts) ensures Exact(Exec(Boot(n), acts)) {
        UncancelledIsExact(n, acts);
      }
    } else {
      var acts := NoCount(n);
      assert Ended(n, mayCancel, acts) && !Exact(Exec(Boot(n), acts));
    }
  }
}
