/**
 Batch rounds of the terminal client (internal/tui/fleet.go): review the marked
 machines, run them as one batch, retry what did not succeed.
 */
module Retry {
  import opened Sums
  import Fleet

  type Device = Fleet.Device
  type Result = Fleet.Result

  predicate Succeeded(status: string) { status == "sent" || status == "online" }

  /** The devices whose ID is in ids, in inventory order. */
  function Select(devices: seq<Device>, ids: set<string>): seq<Device> {
    if devices == [] then [] else
    var last := devices[|devices| - 1];
    var earlier := Select(devices[..|devices| - 1], ids);
    if last.id in ids then earlier + [last] else earlier
  }

  function Unsuccessful(results: seq<Result>): set<string> {
    set r | r in results && !Succeeded(r.status) :: r.deviceId
  }

  function Successful(results: seq<Result>): set<string> {
    set r | r in results && Succeeded(r.status) :: r.deviceId
  }

  predicate WakeLike(results: seq<Result>) {
    exists i :: 0 <= i < |results| && (results[i].status == "sent" || results[i].status == "failed")
  }

  function RetryKind(last: string, results: seq<Result>): string {
    if WakeLike(results) then "wake" else if last == "" then "check" else last
  }

  /** The batch fields of the model and the methods that change them. */
  class WakeModel {
    const devices: seq<Device>
    var marked: set<string>
    var batchTargets: seq<Device>
    var batchResults: seq<Result>
    var batchKind: string
    var lastBatchKind: string
    var batchRunning: bool
    var batchId: nat

    constructor (devices: seq<Device>, marked: set<string>)
      ensures this.devices == devices && this.marked == marked
      ensures batchTargets == [] && batchResults == [] && batchKind == "" && lastBatchKind == "" && !batchRunning
      ensures batchId == 0
    {
      this.devices, this.marked := devices, marked;
      batchTargets, batchResults, batchKind, lastBatchKind, batchRunning, batchId := [], [], "", "", false, 0;
    }

    method PrepareBatch(kind: string)
      modifies this`batchTargets, this`batchKind
      ensures batchTargets == if batchRunning then old(batchTargets) else Select(devices, marked)
      ensures batchKind == if batchRunning || batchTargets == [] then old(batchKind) else kind
    {
      if batchRunning {
        return;
      }
      batchTargets := [];
      for i := 0 to |devices|
        invariant batchTargets == Select(devices[..i], marked)
        invariant batchKind == old(batchKind)
      {
        assert devices[..i + 1][..i] == devices[..i];
        if devices[i].id in marked {
          batchTargets := batchTargets + [devices[i]];
        }
      }
      assert devices[..|devices|] == devices;
      if |batchTargets| == 0 {
        return;
      }
      batchKind := kind;
    }

    /** Returns the devices handed to fleet.Run, if a batch was started. */
    method StartBatch() returns (launched: seq<Device>)
      modifies this`batchRunning, this`lastBatchKind, this`batchId, this`batchResults
      ensures launched == batchTargets
      ensures if batchTargets == [] then unchanged(this)
              else batchRunning && lastBatchKind == batchKind && batchId == old(batchId) + 1 && batchResults == []
    {
      launched := batchTargets;
      if |batchTargets| == 0 {
        return;
      }
      batchRunning := true;
      lastBatchKind := batchKind;
      batchId := batchId + 1;
      batchResults := [];
    }

    /** One message of a result stream; None is the closed channel. A message of an older batch changes nothing. */
    method ApplyFleetMsg(id: nat, result: Message)
      modifies this`batchRunning, this`batchKind, this`batchResults
      ensures if id != batchId then unchanged(this)
              else if result.Done? then !batchRunning && batchKind == "" && batchResults == old(batchResults)
              else
                && batchResults == old(batchResults) + [result.result]
                && batchRunning == old(batchRunning)
                && batchKind == old(batchKind)
    {
      if id != batchId {
        return;
      }
      if result.Done? {
        batchRunning := false;
        batchKind := "";
        return;
      }
      batchResults := batchResults + [result.result];
    }

    method RetryBatch()
      modifies this`marked, this`batchTargets, this`batchKind
      ensures old(batchRunning) ==> unchanged(this)
      ensures !old(batchRunning) ==>
                && marked == Unsuccessful(batchResults)
                && batchTargets == Select(devices, Unsuccessful(batchResults))
                && (batchTargets != [] ==> batchKind == RetryKind(lastBatchKind, batchResults))
      // the same in the words of the statuses
      ensures !old(batchRunning) ==>
                forall id :: id in marked <==>
                  exists r :: r in batchResults && r.deviceId == id && r.status != "sent" && r.status != "online"
      ensures !old(batchRunning) && batchTargets != [] ==>
                batchKind == if exists r ::
                  r in batchResults && (r.status == "sent" || r.status == "failed") then "wake"
                             else if lastBatchKind == "" then "check" else lastBatchKind
    {
      if batchRunning {
        return;
      }
      marked := {};
      var kind := lastBatchKind;
      if kind == "" {
        kind := "check";
      }
      for i := 0 to |batchResults|
        invariant marked == Unsuccessful(batchResults[..i])
        invariant kind == RetryKind(lastBatchKind, batchResults[..i])
      {
        var r := batchResults[i];
        assert batchResults[..i + 1] == batchResults[..i] + [r];
        if r.status == "sent" || r.status == "failed" {
          kind := "wake";
          assert batchResults[..i + 1][i] == r;
        } else {
          assert WakeLike(batchResults[..i + 1]) ==> WakeLike(batchResults[..i]);
        }
        assert forall j :: 0 <= j < i ==> batchResults[..i + 1][j] == batchResults[..i][j];
        if r.status != "sent" && r.status != "online" {
          marked := marked + {r.deviceId};
        }
      }
      assert batchResults[..|batchResults|] == batchResults;
      PrepareBatch(kind);
    }
  }

  datatype Message = Done | Item(result: Result)

  // ---------------------------------------------------------------- rounds

  ghost predicate DistinctIds(devices: seq<Device>) {
    forall i, j :: 0 <= i < j < |devices| ==> devices[i].id != devices[j].id
  }

  function IdOf(d: Device): multiset<string> { multiset{d.id} }

  function ResultId(r: Result): multiset<string> { multiset{r.deviceId} }

  /** Exactly one result for each target. */
  ghost predicate OneEach(targets: seq<Device>, results: seq<Result>) {
    Bag(targets, IdOf) == Bag(results, ResultId)
  }

  /** In inventory order: selecting from one list after the other is selecting from both. */
  lemma {:induction false} SelectSplits(devices: seq<Device>, more: seq<Device>, ids: set<string>)
    ensures Select(devices + more, ids) == Select(devices, ids) + Select(more, ids)
    decreases |more|
  {
    if more == [] {
      assert devices + more == devices;
    } else {
      var n, all := |more| - 1, devices + more;
      SelectSplits(devices, more[..n], ids);
      assert all[..|all| - 1] == devices + more[..n] && all[|all| - 1] == more[n];
    }
  }

  lemma {:induction false} SelectMembers(devices: seq<Device>, ids: set<string>)
    ensures forall d :: d in Select(devices, ids) <==> d in devices && d.id in ids
  {
    if devices != [] {
      SelectMembers(devices[..|devices| - 1], ids);
      assert devices == devices[..|devices| - 1] + [devices[|devices| - 1]];
    }
  }

  /** Filtering twice is filtering by both sets, order included. */
  lemma {:induction false} SelectTwice(devices: seq<Device>, a: set<string>, b: set<string>)
    ensures Select(Select(devices, a), b) == Select(devices, a * b)
  {
    if devices != [] {
      var n := |devices| - 1;
      SelectTwice(devices[..n], a, b);
      if devices[n].id in a {
        assert (Select(devices[..n], a) + [devices[n]])[..|Select(devices[..n], a)|] == Select(devices[..n], a);
      }
    }
  }

  lemma {:induction false} BagOfIds(devices: seq<Device>, id: string)
    ensures Bag(devices, IdOf)[id] > 0 <==> exists i :: 0 <= i < |devices| && devices[i].id == id
    ensures DistinctIds(devices) ==> Bag(devices, IdOf)[id] <= 1
  {
    if devices != [] {
      BagOfIds(devices[1..], id);
      assert forall i :: 0 <= i < |devices[1..]| ==> devices[1..][i] == devices[i + 1];
    }
  }

  lemma {:induction false} BagOfResults(results: seq<Result>, id: string)
    ensures Bag(results, ResultId)[id] > 0 <==> exists i :: 0 <= i < |results| && results[i].deviceId == id
    ensures Bag(results, ResultId)[id] <= 1 ==>
            forall i, j :: 0 <= i < j < |results| ==> results[i].deviceId != id || results[j].deviceId != id
  {
    if results != [] {
      BagOfResults(results[1..], id);
      assert forall i :: 0 <= i < |results[1..]| ==> results[1..][i] == results[i + 1];
    }
  }

  /** With one result per target, a target failed exactly when it did not succeed. */
  lemma FailedIsNotSucceeded(targets: seq<Device>, results: seq<Result>, id: string)
    requires DistinctIds(targets) && OneEach(targets, results)
    ensures id in Unsuccessful(results) <==>
            (exists i :: 0 <= i < |targets| && targets[i].id == id) && id !in Successful(results)
  {
    BagOfIds(targets, id);
    BagOfResults(results, id);
    if i :| 0 <= i < |results| && results[i].deviceId == id {
      assert results[i] in results;
      assert Bag(results, ResultId)[id] <= 1;
      assert forall r :: r in results && r.deviceId == id ==> r == results[i];
    }
  }

  lemma {:induction false} SelectKeepsDistinct(devices: seq<Device>, ids: set<string>)
    requires DistinctIds(devices)
    ensures DistinctIds(Select(devices, ids))
  {
    if devices != [] {
      var n := |devices| - 1;
      var earlier := Select(devices[..n], ids);
      SelectKeepsDistinct(devices[..n], ids);
      SelectMembers(devices[..n], ids);
      forall i | 0 <= i < |earlier| ensures earlier[i].id != devices[n].id {
        assert earlier[i] in devices[..n];
      }
    }
  }

  /** The next round's targets are the previous targets without a success, in the same order. */
  lemma RetryTargets(devices: seq<Device>, ids: set<string>, results: seq<Result>)
    requires DistinctIds(devices) && OneEach(Select(devices, ids), results)
    ensures Select(devices, Unsuccessful(results)) == Select(devices, ids - Successful(results))
    ensures Select(devices, Unsuccessful(results)) == Select(Select(devices, ids), Unsuccessful(results))
  {
    var targets := Select(devices, ids);
    SelectKeepsDistinct(devices, ids);
    SelectMembers(devices, ids);
    forall d | d in devices ensures d.id in Unsuccessful(results) <==> d.id in ids - Successful(results) {
      FailedIsNotSucceeded(targets, results, d.id);
      if d.id in ids {
        assert d in targets;
      }
    }
    SelectAgrees(devices, Unsuccessful(results), ids - Successful(results));
    SelectTwice(devices, ids, Unsuccessful(results));
    SelectAgrees(devices, Unsuccessful(results), ids * Unsuccessful(results));
  }

  lemma {:induction false} SelectAgrees(devices: seq<Device>, a: set<string>, b: set<string>)
    requires forall d :: d in devices ==> (d.id in a <==> d.id in b)
    ensures Select(devices, a) == Select(devices, b)
  {
    if devices != [] {
      assert devices[|devices| - 1] in devices;
      SelectAgrees(devices[..|devices| - 1], a, b);
    }
  }

  /** The targets after any number of batch-then-retry rounds. */
  ghost function TargetsAfter(devices: seq<Device>, marked: set<string>, rounds: seq<seq<Result>>): seq<Device> {
    if rounds == [] then Select(devices, marked)
    else Select(devices, Unsuccessful(rounds[|rounds| - 1]))
  }

  /** Every round's results are one per target of that round. */
  ghost predicate Rounds(devices: seq<Device>, marked: set<string>, rounds: seq<seq<Result>>) {
    forall k :: 0 <= k < |rounds| ==> OneEach(TargetsAfter(devices, marked, rounds[..k]), rounds[k])
  }

  ghost function EverSuccessful(rounds: seq<seq<Result>>): set<string> {
    if rounds == [] then {} else EverSuccessful(rounds[..|rounds| - 1]) + Successful(rounds[|rounds| - 1])
  }

  /** Some round has reported the machine as sent or online. */
  ghost predicate HasSucceeded(rounds: seq<seq<Result>>, id: string) {
    exists j, i :: 0 <= j < |rounds| && 0 <= i < |rounds[j]| && rounds[j][i].deviceId == id
                   && (rounds[j][i].status == "sent" || rounds[j][i].status == "online")
  }

  lemma {:induction false} SuccessIs(rounds: seq<seq<Result>>, id: string)
    ensures id in EverSuccessful(rounds) <==> HasSucceeded(rounds, id)
  {
    if rounds != [] {
      var n := |rounds| - 1;
      SuccessIs(rounds[..n], id);
      if HasSucceeded(rounds[..n], id) {
        var j, i :| 0 <= j < n && 0 <= i < |rounds[..n][j]| && rounds[..n][j][i].deviceId == id
                    && (rounds[..n][j][i].status == "sent" || rounds[..n][j][i].status == "online");
        assert rounds[j][i] == rounds[..n][j][i];
      }
      if r :| r in rounds[n] && r.deviceId == id && (r.status == "sent" || r.status == "online") {
        var i :| 0 <= i < |rounds[n]| && rounds[n][i] == r;
      }
    }
  }

  /** Over all rounds: nothing that succeeded is run again, and nothing that did not is lost. */
  lemma {:induction false} RetryForever(devices: seq<Device>, marked: set<string>, rounds: seq<seq<Result>>)
    requires DistinctIds(devices) && Rounds(devices, marked, rounds)
    ensures TargetsAfter(devices, marked, rounds) == Select(devices, marked - EverSuccessful(rounds))
  {
    if rounds == [] {
      assert marked - EverSuccessful(rounds) == marked;
    } else {
      var n := |rounds| - 1;
      assert forall k :: 0 <= k < n ==> rounds[..n][..k] == rounds[..k];
      RetryForever(devices, marked, rounds[..n]);
      RetryTargets(devices, marked - EverSuccessful(rounds[..n]), rounds[n]);
      assert marked - EverSuccessful(rounds[..n]) - Successful(rounds[n]) == marked - EverSuccessful(rounds);
    }
  }

  lemma RetryAlways(devices: seq<Device>, marked: set<string>, rounds: seq<seq<Result>>, k: nat)
    requires DistinctIds(devices) && Rounds(devices, marked, rounds) && k <= |rounds|
    ensures TargetsAfter(devices, marked, rounds[..k]) == Select(devices, marked - EverSuccessful(rounds[..k]))
  {
    assert forall j :: 0 <= j < k ==> rounds[..k][..j] == rounds[..j];
    RetryForever(devices, marked, rounds[..k]);
  }

  // ---------------------------------------------------------------- the results of a batch are those of a fleet run

  ghost function Stream(sent: seq<Fleet.Report>): seq<Result> {
    seq(|sent|, i requires 0 <= i < |sent| => sent[i].result)
  }

  /** Once its channel is closed, a fleet run over the targets has produced exactly one result for each. */
  lemma BatchIsOneEach(targets: seq<Device>, s: Fleet.State, limits: seq<nat>)
    requires Fleet.Inv(s, targets, limits) && s.closed
    ensures OneEach(targets, Stream(s.sent))
  {
    Fleet.ClosedIsComplete(s, targets, limits);
    StreamIds(s.sent, s.cancelled);
    BagOfSameDevices(targets, s.sent);
  }

  function OriginId(r: Fleet.Report): multiset<string> { multiset{r.device.id} }

  lemma {:induction false} StreamIds(sent: seq<Fleet.Report>, cancelled: bool)
    requires forall i :: 0 <= i < |sent| ==> Fleet.WellLabelled(sent[i], cancelled)
    ensures Bag(Stream(sent), ResultId) == Bag(sent, OriginId)
  {
    if sent != [] {
      assert Stream(sent)[1..] == Stream(sent[1..]);
      StreamIds(sent[1..], cancelled);
    }
  }

  lemma {:induction false} BagOfSameDevices(targets: seq<Device>, sent: seq<Fleet.Report>)
    requires multiset(targets) == Bag(sent, Fleet.Origin)
    ensures Bag(targets, IdOf) == Bag(sent, OriginId)
    decreases |sent|
  {
    if sent == [] {
      assert |multiset(targets)| == 0;
    } else {
      var d := sent[0].device;
      assert d in multiset(targets);
      var j :| 0 <= j < |targets| && targets[j] == d;
      var rest := targets[..j] + targets[j + 1..];
      WithoutOne(targets, j, Bag(sent[1..], Fleet.Origin));
      BagOfSameDevices(rest, sent[1..]);
      BagRemove(targets, j, IdOf);
    }
  }

  lemma WithoutOne(targets: seq<Device>, j: nat, others: multiset<Device>)
    requires j < |targets| && multiset(targets) == multiset{targets[j]} + others
    ensures multiset(targets[..j] + targets[j + 1..]) == others
  {
    assert targets == targets[..j] + ([targets[j]] + targets[j + 1..]);
    assert multiset(targets) == multiset(targets[..j] + targets[j + 1..]) + multiset{targets[j]};
    Cancel(multiset(targets[..j] + targets[j + 1..]), others, multiset{targets[j]}, multiset{});
  }

  // ---------------------------------------------------------------- rounds played as fleet runs

  /** How one batch went: the order in which its sites were grouped, and the steps of its goroutines. */
  datatype Play = Play(order: seq<string>, acts: seq<Fleet.Action>)

  ghost function Start(targets: seq<Device>, sites: seq<Fleet.Site>, p: Play): Fleet.State {
    Fleet.Boot(targets, sites, 16, p.order)
  }

  ghost predicate Playable(targets: seq<Device>, sites: seq<Fleet.Site>, p: Play) {
    Fleet.RangesOver(p.order, targets) && Fleet.Legal(Start(targets, sites, p), p.acts)
  }

  /** The batch ran to the end of its channel with these results. */
  ghost predicate Played(targets: seq<Device>, sites: seq<Fleet.Site>, p: Play, results: seq<Result>) {
    && Playable(targets, sites, p)
    && var s := Fleet.Exec(Start(targets, sites, p), p.acts); s.closed && results == Stream(s.sent)
  }

  /** Batch, retry, batch again: each batch is over the targets that the results so far leave. */
  ghost predicate Session(devices: seq<Device>, marked: set<string>, sites: seq<Fleet.Site>, plays: seq<Play>,
          rounds: seq<seq<Result>>)
  {
    && |plays| == |rounds|
    && forall k :: 0 <= k < |rounds| ==> Played(TargetsAfter(devices, marked, rounds[..k]), sites, plays[k], rounds[k])
  }

  lemma PlayedFacts(targets: seq<Device>, sites: seq<Fleet.Site>, p: Play, results: seq<Result>)
    requires Played(targets, sites, p, results)
    ensures OneEach(targets, results)
    ensures var s := Fleet.Exec(Start(targets, sites, p), p.acts);
            s.started <= multiset(targets) && (!s.cancelled ==> s.started == multiset(targets))
  {
    var s0, limits := Start(targets, sites, p), Fleet.Limits(targets, sites, p.order);
    Fleet.BootInv(targets, sites, 16, p.order);
    Fleet.ExecInv(s0, p.acts, targets, limits);
    Fleet.RunConserves(targets, sites, 16, p.order, p.acts);
    Fleet.ClosedIsComplete(Fleet.Exec(s0, p.acts), targets, limits);
    BatchIsOneEach(targets, Fleet.Exec(s0, p.acts), limits);
  }

  lemma SessionIsRounds(devices: seq<Device>, marked: set<string>, sites: seq<Fleet.Site>, plays: seq<Play>,
          rounds: seq<seq<Result>>)
    requires Session(devices, marked, sites, plays, rounds)
    ensures Rounds(devices, marked, rounds)
  {
    forall k | 0 <= k < |rounds| ensures OneEach(TargetsAfter(devices, marked, rounds[..k]), rounds[k]) {
      PlayedFacts(TargetsAfter(devices, marked, rounds[..k]), sites, plays[k], rounds[k]);
    }
  }

  predicate Matches(r: Result, o: Fleet.Outcome) {
    r.deviceId == o.device.id && r.status == o.status && r.detail == o.detail
  }

  /** Every outcome returned by an operation of the batch is among its results, */
  ghost predicate AllTold(outcomes: multiset<Fleet.Outcome>, results: seq<Result>) {
    forall o :: o in outcomes ==> exists i :: 0 <= i < |results| && Matches(results[i], o)
  }

  /** and every result is such an outcome, or tells of a cancellation. */
  ghost predicate OnlyTold(outcomes: multiset<Fleet.Outcome>, results: seq<Result>, cancelled: bool) {
    forall i :: 0 <= i < |results| ==>
      || (exists o :: o in outcomes && Matches(results[i], o))
      || (cancelled && results[i].status == "cancelled" && results[i].detail == "")
  }

  lemma {:induction false} BagSource(sent: seq<Fleet.Report>, o: Fleet.Outcome) returns (i: nat)
    requires o in Bag(sent, Fleet.Told)
    ensures i < |sent| && sent[i].ran
    ensures o == Fleet.Outcome(sent[i].device, sent[i].result.status, sent[i].result.detail)
  {
    if o in Fleet.Told(sent[0]) {
      i := 0;
    } else {
      var j := BagSource(sent[1..], o);
      i := j + 1;
    }
  }

  lemma StreamTellsAll(sent: seq<Fleet.Report>, cancelled: bool)
    requires forall i :: 0 <= i < |sent| ==> Fleet.WellLabelled(sent[i], cancelled)
    ensures AllTold(Bag(sent, Fleet.Told), Stream(sent))
  {
    forall o | o in Bag(sent, Fleet.Told) ensures exists i :: 0 <= i < |sent| && Matches(Stream(sent)[i], o) {
      var i := BagSource(sent, o);
      assert Fleet.WellLabelled(sent[i], cancelled);
      assert Matches(Stream(sent)[i], o);
    }
  }

  lemma ReportTells(sent: seq<Fleet.Report>, i: nat, cancelled: bool) returns (o: Fleet.Outcome)
    requires i < |sent| && sent[i].ran && Fleet.WellLabelled(sent[i], cancelled)
    ensures o in Bag(sent, Fleet.Told) && Matches(sent[i].result, o)
  {
    BagContains(sent, i, Fleet.Told);
    o := Fleet.Outcome(sent[i].device, sent[i].result.status, sent[i].result.detail);
    assert o in Fleet.Told(sent[i]);
  }

  lemma StreamTellsOnly(sent: seq<Fleet.Report>, cancelled: bool)
    requires forall i :: 0 <= i < |sent| ==> Fleet.WellLabelled(sent[i], cancelled)
    ensures OnlyTold(Bag(sent, Fleet.Told), Stream(sent), cancelled)
  {
    forall i | 0 <= i < |sent| && sent[i].ran
      ensures exists o :: o in Bag(sent, Fleet.Told) && Matches(Stream(sent)[i], o)
    {
      var o := ReportTells(sent, i, cancelled);
    }
    assert forall i :: 0 <= i < |sent| && !sent[i].ran ==> Fleet.WellLabelled(sent[i], cancelled);
  }

  /** The results of a batch are what its operations returned, and its operations are never more than 16 at once. */
  lemma BatchTells(targets: seq<Device>, sites: seq<Fleet.Site>, p: Play, results: seq<Result>)
    requires Played(targets, sites, p, results)
    ensures var s0 := Start(targets, sites, p);
            var s := Fleet.Exec(s0, p.acts);
            AllTold(Fleet.Returned(s0, p.acts), results) && OnlyTold(Fleet.Returned(s0, p.acts), results, s.cancelled)
    ensures Sum(Fleet.Exec(Start(targets, sites, p), p.acts).workers, Fleet.InOperation) <= 16
  {
    var s0, limits := Start(targets, sites, p), Fleet.Limits(targets, sites, p.order);
    Fleet.BootInv(targets, sites, 16, p.order);
    Fleet.ExecInv(s0, p.acts, targets, limits);
    Fleet.OutcomesDelivered(targets, sites, 16, p.order, p.acts);
    Fleet.ClosedIsComplete(Fleet.Exec(s0, p.acts), targets, limits);
    StreamTellsAll(Fleet.Exec(s0, p.acts).sent, Fleet.Exec(s0, p.acts).cancelled);
    StreamTellsOnly(Fleet.Exec(s0, p.acts).sent, Fleet.Exec(s0, p.acts).cancelled);
    Fleet.RunBounded(targets, sites, 16, p.order, p.acts);
  }

  /**
   Over any number of batches, in whatever interleavings: an operation is only ever started
   on a marked machine that no earlier round reported sent or online, at most once a round,
   and in a round that is not cancelled on every one of them.
   */
  lemma NoSuccessIsRepeated(devices: seq<Device>, marked: set<string>, sites: seq<Fleet.Site>, plays: seq<Play>,
          rounds: seq<seq<Result>>, k: nat)
    requires DistinctIds(devices) && Session(devices, marked, sites, plays, rounds) && k < |rounds|
    ensures var targets := TargetsAfter(devices, marked, rounds[..k]);
            && Playable(targets, sites, plays[k])
            && var s := Fleet.Exec(Start(targets, sites, plays[k]), plays[k].acts);
            s.started <= multiset(targets) && (!s.cancelled ==> s.started == multiset(targets))
    ensures forall d :: d in TargetsAfter(devices, marked, rounds[..k]) <==>
            d in devices && d.id in marked && !HasSucceeded(rounds[..k], d.id)
  {
    var targets := TargetsAfter(devices, marked, rounds[..k]);
    SessionIsRounds(devices, marked, sites, plays, rounds);
    RetryAlways(devices, marked, rounds, k);
    PlayedFacts(targets, sites, plays[k], rounds[k]);
    SelectMembers(devices, marked - EverSuccessful(rounds[..k]));
    forall d | d in devices ensures d.id in EverSuccessful(rounds[..k]) <==> HasSucceeded(rounds[..k], d.id) {
      SuccessIs(rounds[..k], d.id);
    }
  }

  // ---------------------------------------------------------------- the model driven through such rounds

  /** A message as it arrives, under the number of the batch it was made for. */
  datatype Delivery = Delivery(id: nat, message: Message)

  /** What arrives for one batch, whatever comes in between for others. */
  function For(stream: seq<Delivery>, id: nat): seq<Message> {
    if stream == [] then [] else
    var last := stream[|stream| - 1];
    For(stream[..|stream| - 1], id) + (if last.id == id then [last.message] else [])
  }

  /** The messages of a batch: its results, then the closed channel. */
  function Posted(results: seq<Result>): seq<Message> {
    seq(|results|, i requires 0 <= i < |results| => Item(results[i])) + [Done]
  }

  lemma {:induction false} ForPrefix(stream: seq<Delivery>, id: nat, i: nat)
    requires i <= |stream|
    ensures For(stream[..i], id) <= For(stream, id)
    decreases |stream|
  {
    if i < |stream| {
      ForPrefix(stream[..|stream| - 1], id, i);
      assert stream[..|stream| - 1][..i] == stream[..i];
    } else {
      assert stream[..i] == stream;
    }
  }

  /** One batch, from its start until everything has arrived. */
  method Deliver(m: WakeModel, stream: seq<Delivery>, results: seq<Result>)
    requires m.batchRunning && m.batchResults == [] && For(stream, m.batchId) == Posted(results)
    modifies m`batchRunning, m`batchKind, m`batchResults
    ensures !m.batchRunning && m.batchResults == results
  {
    for i := 0 to |stream|
      invariant var n := |For(stream[..i], m.batchId)|;
                if n <= |results| then m.batchRunning && m.batchResults == results[..n]
                else !m.batchRunning && m.batchResults == results
    {
      assert stream[..i + 1][..i] == stream[..i];
      ForPrefix(stream, m.batchId, i + 1);
      ghost var n := |For(stream[..i], m.batchId)|;
      if stream[i].id == m.batchId {
        assert stream[i].message == For(stream[..i + 1], m.batchId)[n] == Posted(results)[n];
      }
      m.ApplyFleetMsg(stream[i].id, stream[i].message);
    }
    assert stream[..|stream|] == stream;
  }

  /** One batch over the prepared targets and a retry. */
  method PlayRound(m: WakeModel, stream: seq<Delivery>, results: seq<Result>) returns (batch: seq<Device>)
    requires !m.batchRunning && m.batchTargets != [] && For(stream, m.batchId + 1) == Posted(results)
    modifies m
    ensures batch == old(m.batchTargets)
    ensures !m.batchRunning && m.batchId == old(m.batchId) + 1
    ensures m.batchTargets == Select(m.devices, Unsuccessful(results))
  {
    batch := m.StartBatch();
    Deliver(m, stream, results);
    m.RetryBatch();
  }

  lemma RoundLeavesTargets(devices: seq<Device>, marked: set<string>, rounds: seq<seq<Result>>, i: nat)
    requires i < |rounds|
    ensures TargetsAfter(devices, marked, rounds[..i + 1]) == Select(devices, Unsuccessful(rounds[i]))
  {
    assert rounds[..i + 1][|rounds[..i + 1]| - 1] == rounds[i];
  }

  /** The batches are over the targets that the rounds before them leave. */
  ghost predicate Follow(batches: seq<seq<Device>>, devices: seq<Device>, marked: set<string>,
          rounds: seq<seq<Result>>)
  {
    |batches| == |rounds| && forall k :: 0 <= k < |rounds| ==> batches[k] == TargetsAfter(devices, marked, rounds[..k])
  }

  lemma FollowMore(batches: seq<seq<Device>>, batch: seq<Device>, devices: seq<Device>, marked: set<string>,
          rounds: seq<seq<Result>>, i: nat)
    requires i < |rounds| && Follow(batches, devices, marked, rounds[..i])
    requires batch == TargetsAfter(devices, marked, rounds[..i])
    ensures Follow(batches + [batch], devices, marked, rounds[..i + 1])
  {
    assert forall k :: 0 <= k <= i ==> rounds[..i + 1][..k] == rounds[..k];
    assert forall k :: 0 <= k <= i ==> rounds[..i][..k] == rounds[..k];
  }

  /** Batches that follow rounds with one result per target are over the marked machines without a success so far. */
  lemma FollowersAvoidSuccess(batches: seq<seq<Device>>, devices: seq<Device>, marked: set<string>,
          rounds: seq<seq<Result>>, k: nat)
    requires DistinctIds(devices) && Rounds(devices, marked, rounds) && Follow(batches, devices, marked, rounds)
    requires k < |rounds|
    ensures batches[k] == Select(devices, marked - EverSuccessful(rounds[..k]))
  {
    RetryAlways(devices, marked, rounds, k);
  }

  /**
   Mark, run, retry, run again: each batch that the model starts is over the targets of the rounds
   before it, whatever late messages arrive.
   */
  method PlayRounds(m: WakeModel, kind: string, streams: seq<seq<Delivery>>, rounds: seq<seq<Result>>)
    returns (batches: seq<seq<Device>>)
    requires !m.batchRunning && |streams| == |rounds|
    requires forall k :: 0 <= k < |rounds| ==> For(streams[k], m.batchId + 1 + k) == Posted(rounds[k])
    requires forall k :: 0 <= k < |rounds| ==> TargetsAfter(m.devices, m.marked, rounds[..k]) != []
    modifies m
    ensures !m.batchRunning && m.batchTargets == TargetsAfter(m.devices, old(m.marked), rounds)
    ensures Follow(batches, m.devices, old(m.marked), rounds)
  {
    ghost var marked, id := m.marked, m.batchId;
    batches := [];
    m.PrepareBatch(kind);
    for i := 0 to |rounds|
      invariant !m.batchRunning && m.batchId == id + i
      invariant m.batchTargets == TargetsAfter(m.devices, marked, rounds[..i])
      invariant Follow(batches, m.devices, marked, rounds[..i])
    {
      var batch := PlayRound(m, streams[i], rounds[i]);
      FollowMore(batches, batch, m.devices, marked, rounds, i);
      RoundLeavesTargets(m.devices, marked, rounds, i);
      batches := batches + [batch];
    }
    assert rounds[..|rounds|] == rounds;
  }
}
