/**
 How many operations really start after a cancellation (internal/fleet/fleet.go:72-80):
 a run in which every global slot starts one.
 */
module LateStarts {
  import opened Fleet

  predicate OneSite(devices: seq<Device>, id: string) { forall i :: 0 <= i < |devices| ==> devices[i].siteId == id }

  /** The first j workers have passed their second check. */
  function Cleared(devices: seq<Device>, j: nat, cancelled: bool): State
    requires j <= |devices|
  {
    var n := |devices|;
    State([devices[j..]], seq(n, i requires 0 <= i < n => Worker(0, if i < j then Phase.Cleared(devices[i]) else Idle)),
      n, j, n, [], 0, cancelled, false, multiset{})
  }

  /** The first j workers have called their operation, after the cancellation. */
  function Called(devices: seq<Device>, j: nat): State
    requires j <= |devices|
  {
    var n := |devices|;
    State([[]], seq(n, i requires 0 <= i < n => Worker(0,
      if i < j then Running(devices[i]) else Phase.Cleared(devices[i]))), n, n, n, [], 0, true, false,
      multiset(devices[..j]))
  }

  lemma {:induction false} GroupOfOne(devices: seq<Device>, id: string)
    requires OneSite(devices, id)
    ensures Group(devices, id) == devices
  {
    if devices != [] {
      GroupOfOne(devices[..|devices| - 1], id);
    }
  }

  lemma BootOfOne(devices: seq<Device>, id: string)
    requires OneSite(devices, id) && 1 <= |devices| <= 16
    ensures RangesOver([id], devices)
    ensures Boot(devices, [Site(id, |devices|)], |devices|, [id]) == Cleared(devices, 0, false)
  {
    var n := |devices|;
    var sites := [Site(id, n)];
    GroupOfOne(devices, id);
    assert sites[..0] == [] && Settings(sites) == map[id := sites[0]];
    assert PoolLimit(sites, id, n) == n;
    assert [id][..0] == [] && Crew(devices, sites, [id]) == seq(n, _ => Worker(0, Idle));
    assert Queues(devices, [id]) == [devices];
  }

  lemma ClearNext(devices: seq<Device>, j: nat) returns (acts: seq<Action>)
    requires j < |devices|
    ensures Legal(Cleared(devices, j, false), acts)
    ensures Exec(Cleared(devices, j, false), acts) == Cleared(devices, j + 1, false)
  {
    var s := Cleared(devices, j, false);
    var s1 := Step(s, Work(j, Take));
    var s2 := Step(s1, Work(j, Check));
    var s3 := Step(s2, Work(j, Acquire));
    var s4 := Step(s3, Work(j, Recheck));
    assert devices[j..][1..] == devices[j + 1..];
    assert s4.queues == [devices[j + 1..]];
    assert s4.workers == Cleared(devices, j + 1, false).workers;
    Then(s3, Work(j, Recheck), []);
    acts := [Work(j, Recheck)] + [];
    Then(s2, Work(j, Acquire), acts);
    acts := [Work(j, Acquire)] + acts;
    Then(s1, Work(j, Check), acts);
    acts := [Work(j, Check)] + acts;
    Then(s, Work(j, Take), acts);
    acts := [Work(j, Take)] + acts;
  }

  lemma {:induction false} ClearAll(devices: seq<Device>, j: nat) returns (acts: seq<Action>)
    requires j <= |devices|
    ensures Legal(Cleared(devices, j, false), acts)
    ensures Exec(Cleared(devices, j, false), acts) == Cleared(devices, |devices|, false)
    decreases |devices| - j
  {
    if j == |devices| {
      acts := [];
    } else {
      var first := ClearNext(devices, j);
      var rest := ClearAll(devices, j + 1);
      Joined(Cleared(devices, j, false), first, rest);
      acts := first + rest;
    }
  }

  lemma {:induction false} CallAll(devices: seq<Device>, j: nat) returns (acts: seq<Action>)
    requires j <= |devices|
    ensures Legal(Called(devices, j), acts) && Exec(Called(devices, j), acts) == Called(devices, |devices|)
    decreases |devices| - j
  {
    if j == |devices| {
      acts := [];
    } else {
      var s := Called(devices, j);
      var s1 := Step(s, Work(j, Call));
      assert devices[..j + 1] == devices[..j] + [devices[j]];
      assert s1.workers == Called(devices, j + 1).workers;
      acts := CallAll(devices, j + 1);
      Then(s, Work(j, Call), acts);
      acts := [Work(j, Call)] + acts;
    }
  }

  /**
   With up to 16 machines at one site and as many slots, a run in which nothing has started when it
   is cancelled, and every machine's operation starts after that.
   */
  lemma EverySlotStartsLate(devices: seq<Device>, id: string) returns (before: seq<Action>, after: seq<Action>)
    requires OneSite(devices, id) && 1 <= |devices| <= 16
    ensures var n, s0 := |devices|, Boot(devices, [Site(id, |devices|)], |devices|, [id]);
            && RangesOver([id], devices) && Legal(s0, before)
            && var s := Exec(s0, before);
            s.cancelled && s.started == multiset{} && Legal(s, after) && Exec(s, after).started == multiset(devices)
              && |multiset(devices)| == Clamp(n, 16, 32)
  {
    var n := |devices|;
    BootOfOne(devices, id);
    var clear := ClearAll(devices, 0);
    var s := Cleared(devices, n, false);
    Then(s, Cancel, []);
    Joined(Cleared(devices, 0, false), clear, [Cancel] + []);
    before := clear + ([Cancel] + []);
    after := CallAll(devices, 0);
    assert Step(s, Cancel) == Called(devices, 0) by {
      assert devices[n..] == [] && multiset(devices[..0]) == multiset{};
      assert s.workers == Called(devices, 0).workers;
    }
    assert devices[..n] == devices;
  }
}
