/** The AWS provider: a guard over the regional counts, a launch by an ordered
    nested search, and a lookup that finds the region of an instance again. */
module Aws {
  import opened Api
  import opened Providers

  datatype InstanceSpec = InstanceSpec(kind: string, ami: string)

  datatype RegionSpec = RegionSpec(name: string, subnetID: string, subnetIDs: seq<string>, instances: seq<InstanceSpec>)

  datatype Ec2State = Running | NoState | OtherState

  datatype Ec2Instance = Ec2Instance(region: string, pool: string, state: Ec2State, ip: Option<string>)

  /** Instance ids are unique over all regions. */
  type Cloud = map<string, Ec2Instance>

  /** One RunInstances call, by position in the configuration. */
  datatype Attempt = Attempt(region: nat, instance: nat, subnet: nat)

  datatype RunOutcome = RunError | NoInstanceId | Launched(id: string)

  /** Why a Describe call for one id may not give what is there. */
  datatype Fault = Healthy | NoClient | DescribeError

  /** What each remote call of one operation comes to. */
  datatype Remote = Remote(
    counts: nat -> bool,
    client: nat -> bool,
    run: Attempt -> RunOutcome,
    find: nat -> Fault,
    active: bool,
    address: bool,
    terminate: bool)

  // ------------------------------------------------------------------ guard

  function RunningIn(cloud: Cloud, region: string, pool: string): set<string> {
    set id | id in cloud && cloud[id].region == region && cloud[id].pool == pool && cloud[id].state == Running
  }

  function Total(cloud: Cloud, regions: seq<RegionSpec>, pool: string): nat {
    if regions == [] then 0
    else Total(cloud, regions[..|regions| - 1], pool) + |RunningIn(cloud, regions[|regions| - 1].name, pool)|
  }

  predicate CountsWork(regions: seq<RegionSpec>, remote: Remote) {
    forall r :: 0 <= r < |regions| ==> remote.counts(r)
  }

  // ----------------------------------------------------------------- search

  function Subnets(r: RegionSpec): seq<string> {
    if |r.subnetIDs| == 0 && r.subnetID != "" then [r.subnetID] else r.subnetIDs
  }

  datatype Ran = Ran(calls: seq<Attempt>, id: Option<string>)

  function RunFrom(regions: seq<RegionSpec>, remote: Remote, r: nat, i: nat, s: nat): Ran
    requires r < |regions|
    decreases |Subnets(regions[r])| - s
  {
    if s >= |Subnets(regions[r])| then Ran([], None)
    else
      var a := Attempt(r, i, s);
      match remote.run(a)
      case RunError => var rest := RunFrom(regions, remote, r, i, s + 1); Ran([a] + rest.calls, rest.id)
      case NoInstanceId => Ran([a], None)
      case Launched(id) => Ran([a], Some(id))
  }

  function RunInstance(regions: seq<RegionSpec>, remote: Remote, r: nat, i: nat): Ran
    requires r < |regions|
  {
    if remote.client(r) then RunFrom(regions, remote, r, i, 0) else Ran([], None)
  }

  datatype End = Found(id: string) | Aborted | Exhausted

  datatype Searched = Searched(calls: seq<Attempt>, end: End)

  function FromInstance(regions: seq<RegionSpec>, remote: Remote, r: nat, i: nat): Searched
    requires r < |regions|
    decreases |regions[r].instances| - i
  {
    if i >= |regions[r].instances| then Searched([], Exhausted)
    else if |Subnets(regions[r])| == 0 then Searched([], Aborted)
    else
      var ran := RunInstance(regions, remote, r, i);
      match ran.id
      case Some(id) => Searched(ran.calls, Found(id))
      case None =>
        var rest := FromInstance(regions, remote, r, i + 1);
        Searched(ran.calls + rest.calls, rest.end)
  }

  function FromRegion(regions: seq<RegionSpec>, remote: Remote, r: nat): Searched
    decreases |regions| - r
  {
    if r >= |regions| then Searched([], Exhausted)
    else
      var here := FromInstance(regions, remote, r, 0);
      if here.end != Exhausted then here
      else
        var rest := FromRegion(regions, remote, r + 1);
        Searched(here.calls + rest.calls, rest.end)
  }

  /** What Acquire launches, if the guard lets it. */
  function Search(cloud: Cloud, regions: seq<RegionSpec>, size: int, pool: string, remote: Remote): Searched {
    if !CountsWork(regions, remote) || Total(cloud, regions, pool) >= size then Searched([], Aborted)
    else FromRegion(regions, remote, 0)
  }

  // ------------------------------------------------- the order of the search

  predicate Before(a: Attempt, b: Attempt) {
    a.region < b.region
    || (a.region == b.region && (a.instance < b.instance
                                 || (a.instance == b.instance && a.subnet < b.subnet)))
  }

  /** A region that stops the search when it is reached. */
  predicate Blocks(r: RegionSpec) {
    |r.instances| > 0 && |Subnets(r)| == 0
  }

  predicate Within(regions: seq<RegionSpec>, a: Attempt) {
    && a.region < |regions|
    && a.instance < |regions[a.region].instances|
    && a.subnet < |Subnets(regions[a.region])|
  }

  /** No subnet from `s` on and before that of `a` answered without an instance id. */
  ghost predicate Unbroken(remote: Remote, a: Attempt, s: nat) {
    forall t :: s <= t < a.subnet ==> !remote.run(Attempt(a.region, a.instance, t)).NoInstanceId?
  }

  /** `a` may come up in a search that starts at region `r`: its region has a
      client, its subnet is not cut off by an earlier one, and no region on the
      way stops the search. */
  ghost predicate Open(regions: seq<RegionSpec>, remote: Remote, r: nat, a: Attempt) {
    && Within(regions, a) && r <= a.region && remote.client(a.region) && Unbroken(remote, a, 0)
    && forall q :: r <= q < a.region ==> !Blocks(regions[q])
  }

  ghost predicate OpenInstance(regions: seq<RegionSpec>, remote: Remote, r: nat, i: nat, a: Attempt) {
    Within(regions, a) && a.region == r && i <= a.instance && remote.client(r) && Unbroken(remote, a, 0)
  }

  ghost predicate OpenSubnet(regions: seq<RegionSpec>, remote: Remote, r: nat, i: nat, s: nat, a: Attempt) {
    Within(regions, a) && a.region == r && a.instance == i && s <= a.subnet && Unbroken(remote, a, s)
  }

  ghost predicate IsOpenCall(calls: seq<Attempt>, remote: Remote, open: Attempt -> bool, b: Attempt) {
    (b in calls <==> open(b)) && (b in calls ==> !remote.run(b).Launched?)
  }

  ghost predicate IsCallUpTo(calls: seq<Attempt>, remote: Remote, open: Attempt -> bool, a: Attempt, b: Attempt) {
    (b in calls <==> open(b) && !Before(a, b)) && (b in calls && b != a ==> !remote.run(b).Launched?)
  }

  /** The calls are the open attempts up to the first that launches, which is
      the one returned; all of them, and none launches, when nothing is. */
  ghost predicate Solves(calls: seq<Attempt>, got: Option<string>, remote: Remote, open: Attempt -> bool) {
    match got
    case None => forall b :: IsOpenCall(calls, remote, open, b)
    case Some(id) => exists a :: IsFirst(calls, id, remote, open, a)
  }

  ghost predicate IsFirst(calls: seq<Attempt>, id: string, remote: Remote, open: Attempt -> bool, a: Attempt) {
    open(a) && remote.run(a) == Launched(id) && forall b :: IsCallUpTo(calls, remote, open, a, b)
  }

  /** A search that fails in a first part goes on in a later one. */
  lemma SolvesThen(calls1: seq<Attempt>, open1: Attempt -> bool, calls2: seq<Attempt>, got: Option<string>,
                   open2: Attempt -> bool, remote: Remote, open: Attempt -> bool)
    requires Solves(calls1, None, remote, open1) && Solves(calls2, got, remote, open2)
    requires forall a, b :: open1(a) && open2(b) ==> Before(a, b)
    requires forall a :: open(a) <==> open1(a) || open2(a)
    ensures Solves(calls1 + calls2, got, remote, open)
  {
    match got
    case None =>
      forall b ensures IsOpenCall(calls1 + calls2, remote, open, b) {
        assert IsOpenCall(calls1, remote, open1, b) && IsOpenCall(calls2, remote, open2, b);
      }
    case Some(id) =>
      var a :| IsFirst(calls2, id, remote, open2, a);
      forall b ensures IsCallUpTo(calls1 + calls2, remote, open, a, b) {
        assert IsOpenCall(calls1, remote, open1, b) && IsCallUpTo(calls2, remote, open2, a, b);
      }
      assert IsFirst(calls1 + calls2, id, remote, open, a);
  }

  /** A search that succeeds in a first part makes no later call. */
  lemma SolvesFirst(calls: seq<Attempt>, id: string, open1: Attempt -> bool, open2: Attempt -> bool,
                    remote: Remote, open: Attempt -> bool)
    requires Solves(calls, Some(id), remote, open1)
    requires forall a, b :: open1(a) && open2(b) ==> Before(a, b)
    requires forall a :: open(a) <==> open1(a) || open2(a)
    ensures Solves(calls, Some(id), remote, open)
  {
    var a :| IsFirst(calls, id, remote, open1, a);
    forall b ensures IsCallUpTo(calls, remote, open, a, b) {
      assert IsCallUpTo(calls, remote, open1, a, b);
    }
    assert IsFirst(calls, id, remote, open, a);
  }

  function Got(end: End): Option<string> {
    if end.Found? then Some(end.id) else None
  }

  lemma SingleCall(a: Attempt, remote: Remote)
    requires !remote.run(a).Launched?
    ensures Solves([a], None, remote, x => x == a)
  {
    var open := x => x == a;
    forall b ensures IsOpenCall([a], remote, open, b) {
    }
    assert Solves([a], None, remote, open);
  }

  lemma {:induction false} SubnetsSolve(regions: seq<RegionSpec>, remote: Remote, r: nat, i: nat, s: nat)
    requires r < |regions| && i < |regions[r].instances|
    ensures var ran := RunFrom(regions, remote, r, i, s);
            Solves(ran.calls, ran.id, remote, x => OpenSubnet(regions, remote, r, i, s, x))
    decreases |Subnets(regions[r])| - s
  {
    var ran := RunFrom(regions, remote, r, i, s);
    var open := x => OpenSubnet(regions, remote, r, i, s, x);
    if s >= |Subnets(regions[r])| {
      forall b ensures IsOpenCall(ran.calls, remote, open, b) {
      }
    } else {
      var a := Attempt(r, i, s);
      match remote.run(a)
      case RunError =>
        var open2 := x => OpenSubnet(regions, remote, r, i, s + 1, x);
        SubnetsSolve(regions, remote, r, i, s + 1);
        SingleCall(a, remote);
        forall x ensures open(x) <==> x == a || open2(x) {
          assert x != a && x.region == r && x.instance == i && s < x.subnet ==>
                   (Unbroken(remote, x, s) <==> Unbroken(remote, x, s + 1));
        }
        var rest := RunFrom(regions, remote, r, i, s + 1);
        SolvesThen([a], x => x == a, rest.calls, rest.id, open2, remote, open);
      case NoInstanceId =>
        forall b ensures IsOpenCall(ran.calls, remote, open, b) {
          assert b.region == r && b.instance == i && s < b.subnet ==> !Unbroken(remote, b, s) by {
            assert Attempt(b.region, b.instance, s) == a || b.region != r || b.instance != i;
          }
        }
      case Launched(id) =>
        forall b ensures IsCallUpTo(ran.calls, remote, open, a, b) {
        }
        assert IsFirst(ran.calls, id, remote, open, a);
    }
  }

  lemma InstanceSolves(regions: seq<RegionSpec>, remote: Remote, r: nat, i: nat)
    requires r < |regions| && i < |regions[r].instances|
    ensures var ran := RunInstance(regions, remote, r, i);
            Solves(ran.calls, ran.id, remote, x => remote.client(r) && OpenSubnet(regions, remote, r, i, 0, x))
  {
    var ran := RunInstance(regions, remote, r, i);
    var open := x => remote.client(r) && OpenSubnet(regions, remote, r, i, 0, x);
    var open1 := x => OpenSubnet(regions, remote, r, i, 0, x);
    if remote.client(r) {
      SubnetsSolve(regions, remote, r, i, 0);
      SameOpen(ran.calls, ran.id, remote, open1, open);
    } else {
      forall b ensures IsOpenCall(ran.calls, remote, open, b) {
      }
    }
  }

  lemma SameOpen(calls: seq<Attempt>, got: Option<string>, remote: Remote, open1: Attempt -> bool,
                 open: Attempt -> bool)
    requires Solves(calls, got, remote, open1) && forall a :: open1(a) <==> open(a)
    ensures Solves(calls, got, remote, open)
  {
    match got
    case None =>
      forall b ensures IsOpenCall(calls, remote, open, b) {
        assert IsOpenCall(calls, remote, open1, b);
      }
    case Some(id) =>
      var a :| IsFirst(calls, id, remote, open1, a);
      forall b ensures IsCallUpTo(calls, remote, open, a, b) {
        assert IsCallUpTo(calls, remote, open1, a, b);
      }
      assert IsFirst(calls, id, remote, open, a);
  }

  lemma {:induction false} InstancesSolve(regions: seq<RegionSpec>, remote: Remote, r: nat, i: nat)
    requires r < |regions|
    ensures var x := FromInstance(regions, remote, r, i);
            && Solves(x.calls, Got(x.end), remote, a => OpenInstance(regions, remote, r, i, a))
            && (x.end.Aborted? ==> Blocks(regions[r]))
            && (Blocks(regions[r]) && i == 0 ==> x.end.Aborted?)
    decreases |regions[r].instances| - i
  {
    hide Solves;
    var x := FromInstance(regions, remote, r, i);
    var open := a => OpenInstance(regions, remote, r, i, a);
    if i >= |regions[r].instances| || |Subnets(regions[r])| == 0 {
      NothingOpen(remote, open);
    } else {
      var ran := RunInstance(regions, remote, r, i);
      var open1 := a => remote.client(r) && OpenSubnet(regions, remote, r, i, 0, a);
      var open2 := a => OpenInstance(regions, remote, r, i + 1, a);
      InstanceSolves(regions, remote, r, i);
      InstancesSolve(regions, remote, r, i + 1);
      var rest := FromInstance(regions, remote, r, i + 1);
      match ran.id
      case Some(id) => SolvesFirst(ran.calls, id, open1, open2, remote, open);
      case None => SolvesThen(ran.calls, open1, rest.calls, Got(rest.end), open2, remote, open);
    }
  }

  lemma NothingOpen(remote: Remote, open: Attempt -> bool)
    requires forall a :: !open(a)
    ensures Solves([], None, remote, open)
  {
    forall b ensures IsOpenCall([], remote, open, b) {
    }
  }

  lemma {:induction false} RegionsSolve(regions: seq<RegionSpec>, remote: Remote, r: nat)
    ensures var x := FromRegion(regions, remote, r);
            Solves(x.calls, Got(x.end), remote, a => Open(regions, remote, r, a))
    decreases |regions| - r
  {
    hide Solves, Unbroken;
    var open := a => Open(regions, remote, r, a);
    if r >= |regions| {
      NothingOpen(remote, open);
    } else {
      var here := FromInstance(regions, remote, r, 0);
      var open1 := a => OpenInstance(regions, remote, r, 0, a);
      InstancesSolve(regions, remote, r, 0);
      if Blocks(regions[r]) {
        SameOpen(here.calls, None, remote, open1, open);
      } else {
        var open2 := a => Open(regions, remote, r + 1, a);
        forall a ensures open(a) <==> open1(a) || open2(a) {
          OpenSplits(regions, remote, r, a);
        }
        RegionsSolve(regions, remote, r + 1);
        var rest := FromRegion(regions, remote, r + 1);
        match here.end
        case Found(id) => SolvesFirst(here.calls, id, open1, open2, remote, open);
        case _ => SolvesThen(here.calls, open1, rest.calls, Got(rest.end), open2, remote, open);
      }
    }
  }

  lemma OpenSplits(regions: seq<RegionSpec>, remote: Remote, r: nat, a: Attempt)
    requires r < |regions| && !Blocks(regions[r])
    ensures Open(regions, remote, r, a) <==>
              OpenInstance(regions, remote, r, 0, a) || Open(regions, remote, r + 1, a)
  {
    hide Unbroken;
  }

  /** Acquire launches nothing unless every regional count is to hand and they
      sum below the pool size; then it makes the open attempts in the order of
      region, instance type and subnet, up to and including the first one that
      launches, and returns that one's id; it fails exactly when none does. */
  lemma PlacementIsLexicographic(cloud: Cloud, regions: seq<RegionSpec>, size: int, pool: string, remote: Remote)
    ensures var x := Search(cloud, regions, size, pool, remote);
            if CountsWork(regions, remote) && Total(cloud, regions, pool) < size then
              Solves(x.calls, Got(x.end), remote, a => Open(regions, remote, 0, a))
            else x.calls == [] && !x.end.Found?
  {
    hide Solves, FromRegion, Open;
    RegionsSolve(regions, remote, 0);
  }

  // -------------------------------------------------------- finding it again

  function RegionNames(regions: seq<RegionSpec>): (names: seq<string>)
    ensures |names| == |regions| && forall i :: 0 <= i < |names| ==> names[i] == regions[i].name
  {
    seq(|regions|, i requires 0 <= i < |regions| => regions[i].name)
  }

  predicate IsIn(cloud: Cloud, id: string, region: string) {
    id in cloud && cloud[id].region == region
  }

  /** The regions from `k` on: one without a client is skipped like one that does
      not know the id, but one whose Describe fails ends the lookup. */
  function FindFrom(cloud: Cloud, names: seq<string>, id: string, find: nat -> Fault, k: nat): Option<string>
    decreases |names| - k
  {
    if k >= |names| then None
    else
      match find(k)
      case NoClient => FindFrom(cloud, names, id, find, k + 1)
      case DescribeError => None
      case Healthy =>
        if IsIn(cloud, id, names[k]) then Some(names[k]) else FindFrom(cloud, names, id, find, k + 1)
  }

  function FindRegion(cloud: Cloud, names: seq<string>, id: string, find: nat -> Fault): Option<string> {
    FindFrom(cloud, names, id, find, 0)
  }

  /** Where the lookup meets the instance: its own region answers, and no region
      listed before fails to describe. */
  predicate MeetsAt(cloud: Cloud, names: seq<string>, id: string, find: nat -> Fault, from: nat, k: nat) {
    && from <= k < |names|
    && find(k) == Healthy && IsIn(cloud, id, names[k])
    && forall j :: from <= j < k ==> find(j) != DescribeError
  }

  lemma {:induction false} FindsIffMet(cloud: Cloud, names: seq<string>, id: string, find: nat -> Fault, k: nat)
    ensures FindFrom(cloud, names, id, find, k).Some? <==> exists h :: MeetsAt(cloud, names, id, find, k, h)
    ensures FindFrom(cloud, names, id, find, k).Some? ==>
              id in cloud && FindFrom(cloud, names, id, find, k) == Some(cloud[id].region)
    decreases |names| - k
  {
    if k < |names| {
      FindsIffMet(cloud, names, id, find, k + 1);
      if find(k) == Healthy && IsIn(cloud, id, names[k]) {
        assert MeetsAt(cloud, names, id, find, k, k);
      } else if find(k) != DescribeError {
        var l := k + 1;
        if h :| MeetsAt(cloud, names, id, find, l, h) {
          assert MeetsAt(cloud, names, id, find, k, h);
        }
        if h :| MeetsAt(cloud, names, id, find, k, h) {
          assert MeetsAt(cloud, names, id, find, l, h);
        }
      }
    }
  }

  /** The cloud after the calls of a search. */
  function AfterRun(cloud: Cloud, regions: seq<RegionSpec>, pool: string, remote: Remote, a: Attempt): Cloud {
    if a.region < |regions| && remote.run(a).Launched? then
      cloud[remote.run(a).id := Ec2Instance(regions[a.region].name, pool, OtherState, None)]
    else cloud
  }

  function AfterRuns(cloud: Cloud, regions: seq<RegionSpec>, pool: string, remote: Remote, calls: seq<Attempt>): Cloud {
    if calls == [] then cloud
    else
      var before := AfterRuns(cloud, regions, pool, remote, calls[..|calls| - 1]);
      AfterRun(before, regions, pool, remote, calls[|calls| - 1])
  }

  lemma {:induction false} OnlyTheFirstLaunches(cloud: Cloud, regions: seq<RegionSpec>, pool: string, remote: Remote,
                                                calls: seq<Attempt>, a: Attempt)
    requires forall b :: b in calls && b != a ==> !remote.run(b).Launched?
    ensures AfterRuns(cloud, regions, pool, remote, calls) ==
              if a in calls then AfterRun(cloud, regions, pool, remote, a) else cloud
  {
    if calls != [] {
      var front := calls[..|calls| - 1];
      assert calls == front + [calls[|calls| - 1]];
      OnlyTheFirstLaunches(cloud, regions, pool, remote, front, a);
    }
  }

  /** An acquired instance is found again: the id that Acquire returns leads back
      to the region it was launched in, by the configured list of regions, if and
      only if that region answers and none listed before it fails to describe; so
      it always does while all are healthy. */
  lemma AcquiredIsFoundAgain(cloud: Cloud, regions: seq<RegionSpec>, size: int, pool: string, remote: Remote,
                             later: nat -> Fault)
    requires Search(cloud, regions, size, pool, remote).end.Found?
    ensures var x := Search(cloud, regions, size, pool, remote);
            var cloud' := AfterRuns(cloud, regions, pool, remote, x.calls);
            exists a :: IsLaunchOf(regions, remote, a, x.end.id)
              && cloud' == cloud[x.end.id := Ec2Instance(regions[a.region].name, pool, OtherState, None)]
              && (FindRegion(cloud', RegionNames(regions), x.end.id, later) == Some(regions[a.region].name) <==>
                    exists h :: MeetsAt(cloud', RegionNames(regions), x.end.id, later, 0, h))
              && ((forall k :: later(k) == Healthy) ==>
                    FindRegion(cloud', RegionNames(regions), x.end.id, later) == Some(regions[a.region].name))
  {
    hide FromRegion;
    var x := Search(cloud, regions, size, pool, remote);
    PlacementIsLexicographic(cloud, regions, size, pool, remote);
    var open := a => Open(regions, remote, 0, a);
    var a :| IsFirst(x.calls, x.end.id, remote, open, a);
    forall b ensures b in x.calls && b != a ==> !remote.run(b).Launched? {
      assert IsCallUpTo(x.calls, remote, open, a, b);
    }
    assert IsCallUpTo(x.calls, remote, open, a, a);
    OnlyTheFirstLaunches(cloud, regions, pool, remote, x.calls, a);
    var cloud' := AfterRuns(cloud, regions, pool, remote, x.calls);
    if forall k :: later(k) == Healthy {
      assert MeetsAt(cloud', RegionNames(regions), x.end.id, later, 0, a.region);
    }
    FindsIffMet(cloud', RegionNames(regions), x.end.id, later, 0);
    assert IsLaunchOf(regions, remote, a, x.end.id);
  }

  predicate IsLaunchOf(regions: seq<RegionSpec>, remote: Remote, a: Attempt, id: string) {
    Within(regions, a) && remote.run(a) == Launched(id)
  }

  lemma {:induction false} PendingUncounted(cloud: Cloud, regions: seq<RegionSpec>, pool: string, id: string,
                                            i: Ec2Instance)
    requires id !in cloud && i.state != Running
    ensures Total(cloud[id := i], regions, pool) == Total(cloud, regions, pool)
  {
    if regions != [] {
      PendingUncounted(cloud, regions[..|regions| - 1], pool, id, i);
      var name := regions[|regions| - 1].name;
      assert RunningIn(cloud[id := i], name, pool) == RunningIn(cloud, name, pool);
    }
  }

  // ------------------------------------------------------- what the guard counts

  predicate DistinctNames(regions: seq<RegionSpec>) {
    forall i, j :: 0 <= i < j < |regions| ==> regions[i].name != regions[j].name
  }

  /** Of this pool, running, and in a configured region. */
  predicate IsCounted(cloud: Cloud, regions: seq<RegionSpec>, pool: string, id: string) {
    && id in cloud && cloud[id].pool == pool && cloud[id].state == Running
    && exists i :: 0 <= i < |regions| && regions[i].name == cloud[id].region
  }

  function Counted(cloud: Cloud, regions: seq<RegionSpec>, pool: string): set<string> {
    set id | id in cloud && IsCounted(cloud, regions, pool, id)
  }

  /** With every region configured once, the counts sum up to the number of the
      pool's running instances in the configured regions, each counted once. */
  lemma {:induction false} TotalCountsEachOnce(cloud: Cloud, regions: seq<RegionSpec>, pool: string)
    requires DistinctNames(regions)
    ensures Total(cloud, regions, pool) == |Counted(cloud, regions, pool)|
  {
    hide RunningIn, Counted;
    if regions == [] {
      NoneCounted(cloud, pool);
    } else {
      TotalCountsEachOnce(cloud, regions[..|regions| - 1], pool);
      CountedGrows(cloud, regions, pool);
    }
  }

  lemma NoneCounted(cloud: Cloud, pool: string)
    ensures Counted(cloud, [], pool) == {}
  {
  }

  /** One region more adds its running instances, none of which was counted before. */
  lemma CountedGrows(cloud: Cloud, regions: seq<RegionSpec>, pool: string)
    requires regions != [] && DistinctNames(regions)
    ensures |Counted(cloud, regions, pool)| ==
              |Counted(cloud, regions[..|regions| - 1], pool)| + |RunningIn(cloud, regions[|regions| - 1].name, pool)|
  {
    hide IsCounted;
    var front, last := regions[..|regions| - 1], regions[|regions| - 1];
    forall id | id in cloud
      ensures id in Counted(cloud, regions, pool) <==>
                id in Counted(cloud, front, pool) || id in RunningIn(cloud, last.name, pool)
    {
      CountedSnoc(cloud, regions, pool, id);
    }
    assert Counted(cloud, regions, pool) == Counted(cloud, front, pool) + RunningIn(cloud, last.name, pool);
    forall id | id in Counted(cloud, front, pool) ensures id !in RunningIn(cloud, last.name, pool) {
      CountedElsewhere(cloud, regions, pool, id);
    }
    assert Counted(cloud, front, pool) !! RunningIn(cloud, last.name, pool);
  }

  lemma CountedElsewhere(cloud: Cloud, regions: seq<RegionSpec>, pool: string, id: string)
    requires regions != [] && DistinctNames(regions) && IsCounted(cloud, regions[..|regions| - 1], pool, id)
    ensures cloud[id].region != regions[|regions| - 1].name
  {
  }

  lemma CountedSnoc(cloud: Cloud, regions: seq<RegionSpec>, pool: string, id: string)
    requires regions != [] && id in cloud
    ensures IsCounted(cloud, regions, pool, id) <==>
              || IsCounted(cloud, regions[..|regions| - 1], pool, id)
              || (cloud[id].pool == pool && cloud[id].state == Running
                  && regions[|regions| - 1].name == cloud[id].region)
  {
    var front, last := regions[..|regions| - 1], |regions| - 1;
    if i :| 0 <= i < |regions| && regions[i].name == cloud[id].region {
      assert i < last ==> front[i].name == cloud[id].region;
    }
    if i :| 0 <= i < |front| && front[i].name == cloud[id].region {
      assert regions[i].name == cloud[id].region;
    }
  }

  /** Instances of other pools make no difference to the guard, nor to what Acquire
      answers: not when one appears, starts, stops or goes. */
  lemma {:induction false} OtherPoolsUncounted(cloud: Cloud, cloud': Cloud, regions: seq<RegionSpec>, pool: string)
    requires forall id :: (id in cloud && cloud[id].pool == pool) || (id in cloud' && cloud'[id].pool == pool) ==>
               id in cloud && id in cloud' && cloud'[id] == cloud[id]
    ensures Total(cloud', regions, pool) == Total(cloud, regions, pool)
    ensures forall size, remote ::
              Search(cloud', regions, size, pool, remote) == Search(cloud, regions, size, pool, remote)
  {
    hide FromRegion;
    if regions != [] {
      var name := regions[|regions| - 1].name;
      OtherPoolsUncounted(cloud, cloud', regions[..|regions| - 1], pool);
      assert RunningIn(cloud', name, pool) == RunningIn(cloud, name, pool);
    }
  }

  /** Some place an Acquire may launch in does launch. */
  ghost predicate HasPlace(regions: seq<RegionSpec>, remote: Remote) {
    exists a :: Open(regions, remote, 0, a) && remote.run(a).Launched?
  }

  /** An Acquire launches if and only if every count is to hand, the running
      instances of the pool in the configured regions are fewer than its size, and
      there is a place that launches. */
  lemma AcquireLaunchesIff(cloud: Cloud, regions: seq<RegionSpec>, size: int, pool: string, remote: Remote)
    requires DistinctNames(regions)
    ensures Search(cloud, regions, size, pool, remote).end.Found? <==>
              && CountsWork(regions, remote) && |Counted(cloud, regions, pool)| < size
              && HasPlace(regions, remote)
  {
    hide FromRegion, Open, Total, Counted;
    TotalCountsEachOnce(cloud, regions, pool);
    RegionsSolve(regions, remote, 0);
    var x := FromRegion(regions, remote, 0);
    var open := a => Open(regions, remote, 0, a);
    if x.end.Found? {
      var a :| IsFirst(x.calls, x.end.id, remote, open, a);
      assert Open(regions, remote, 0, a);
    } else {
      forall a | Open(regions, remote, 0, a) ensures !remote.run(a).Launched? {
        assert IsOpenCall(x.calls, remote, open, a);
      }
    }
  }

  /** Where an instance may be put in a region: in the subnets that are configured,
      in their order, and in the one of the deprecated field only without any. */
  lemma SubnetsOfRegion(r: RegionSpec)
    ensures r.subnetIDs != [] ==> Subnets(r) == r.subnetIDs
    ensures r.subnetIDs == [] && r.subnetID != "" ==> Subnets(r) == [r.subnetID]
    ensures Subnets(r) == [] <==> r.subnetIDs == [] && r.subnetID == ""
  {
  }

  // ------------------------------------------------- when the guard is a cap

  /** The instances of the pool in any state and any region, counted or not. */
  function PoolOf(cloud: Cloud, pool: string): set<string> {
    set id | id in cloud && cloud[id].pool == pool
  }

  /** What a search adds to a pool: one instance when it finds a place for one. */
  lemma SearchAddsOne(cloud: Cloud, regions: seq<RegionSpec>, size: int, pool: string, remote: Remote, of: string)
    ensures var x := Search(cloud, regions, size, pool, remote);
            var cloud' := AfterRuns(cloud, regions, pool, remote, x.calls);
            && (!x.end.Found? ==> cloud' == cloud)
            && |PoolOf(cloud', of)| <= |PoolOf(cloud, of)| + (if x.end.Found? && of == pool then 1 else 0)
            && (x.end.Found? && of == pool && x.end.id !in cloud ==> |PoolOf(cloud', of)| == |PoolOf(cloud, of)| + 1)
  {
    hide FromRegion, AfterRuns, Open, PoolOf, Search, RegionNames, FindRegion, MeetsAt;
    var x := Search(cloud, regions, size, pool, remote);
    if x.end.Found? {
      AcquiredIsFoundAgain(cloud, regions, size, pool, remote, k => Healthy);
      var a :| IsLaunchOf(regions, remote, a, x.end.id)
               && AfterRuns(cloud, regions, pool, remote, x.calls) ==
                    cloud[x.end.id := Ec2Instance(regions[a.region].name, pool, OtherState, None)];
      InstanceAddsOne(cloud, x.end.id, Ec2Instance(regions[a.region].name, pool, OtherState, None), of);
    } else {
      FailureLaunchesNothing(cloud, regions, size, pool, remote);
    }
  }

  lemma InstanceAddsOne(cloud: Cloud, id: string, i: Ec2Instance, of: string)
    ensures |PoolOf(cloud[id := i], of)| <= |PoolOf(cloud, of)| + (if of == i.pool then 1 else 0)
    ensures of == i.pool && id !in cloud ==> |PoolOf(cloud[id := i], of)| == |PoolOf(cloud, of)| + 1
  {
    var before := PoolOf(cloud, of);
    assert PoolOf(cloud[id := i], of) == if of == i.pool then before + {id} else before - {id};
    SubsetSize(before - {id}, before);
  }

  lemma FailureLaunchesNothing(cloud: Cloud, regions: seq<RegionSpec>, size: int, pool: string, remote: Remote)
    requires !Search(cloud, regions, size, pool, remote).end.Found?
    ensures AfterRuns(cloud, regions, pool, remote, Search(cloud, regions, size, pool, remote).calls) == cloud
  {
    hide FromRegion, AfterRuns, Open;
    var x := Search(cloud, regions, size, pool, remote);
    PlacementIsLexicographic(cloud, regions, size, pool, remote);
    var open := a => Open(regions, remote, 0, a);
    forall b | b in x.calls ensures !remote.run(b).Launched? {
      assert IsOpenCall(x.calls, remote, open, b);
    }
    NoLaunches(cloud, regions, pool, remote, x.calls);
  }

  lemma SubsetSize(a: set<string>, b: set<string>)
    requires a <= b
    ensures |a| <= |b|
  {
    assert b == a + (b - a);
  }

  lemma NoLaunches(cloud: Cloud, regions: seq<RegionSpec>, pool: string, remote: Remote, calls: seq<Attempt>)
    requires forall b :: b in calls ==> !remote.run(b).Launched?
    ensures AfterRuns(cloud, regions, pool, remote, calls) == cloud
  {
    hide AfterRuns;
    OnlyTheFirstLaunches(cloud, regions, pool, remote, calls, Attempt(0, 0, 0));
  }

  /** The guard is no cap: a launched instance is not running yet, so the next
      Acquire, if there is a place for another, passes the guard again and
      launches one more. */
  lemma GuardMissesPending(cloud: Cloud, regions: seq<RegionSpec>, size: int, pool: string, remote: Remote,
                           next: Remote)
    requires Search(cloud, regions, size, pool, remote).end.Found?
    requires Search(cloud, regions, size, pool, remote).end.id !in cloud
    requires CountsWork(regions, next) && FromRegion(regions, next, 0).end.Found?
    requires var cloud' := AfterRuns(cloud, regions, pool, remote, Search(cloud, regions, size, pool, remote).calls);
             FromRegion(regions, next, 0).end.id !in cloud'
    ensures var cloud' := AfterRuns(cloud, regions, pool, remote, Search(cloud, regions, size, pool, remote).calls);
            var x := Search(cloud', regions, size, pool, next);
            && x.end == FromRegion(regions, next, 0).end
            && |PoolOf(AfterRuns(cloud', regions, pool, next, x.calls), pool)| == |PoolOf(cloud, pool)| + 2
  {
    hide FromRegion, AfterRuns, PoolOf, Total, FindRegion, MeetsAt;
    var x := Search(cloud, regions, size, pool, remote);
    var cloud' := AfterRuns(cloud, regions, pool, remote, x.calls);
    AcquiredIsFoundAgain(cloud, regions, size, pool, remote, k => Healthy);
    PendingUncounted(cloud, regions, pool, x.end.id, cloud'[x.end.id]);
    SearchAddsOne(cloud, regions, size, pool, remote, pool);
    SearchAddsOne(cloud', regions, size, pool, next, pool);
  }

  /** Whatever size it is called with, an Acquire that launches leaves no more
      than that many instances of the pool. */
  ghost predicate Caps(cloud: Cloud, regions: seq<RegionSpec>, pool: string, remote: Remote) {
    forall size :: LeavesAtMost(cloud, regions, size, pool, remote)
  }

  predicate LeavesAtMost(cloud: Cloud, regions: seq<RegionSpec>, size: int, pool: string, remote: Remote) {
    var x := Search(cloud, regions, size, pool, remote);
    x.end.Found? ==> |PoolOf(AfterRuns(cloud, regions, pool, remote, x.calls), pool)| <= size
  }

  /** The guard is a cap if and only if it sees the whole pool: when an instance
      can be launched, it stops the pool from outgrowing every size exactly when
      the pool has no more instances than the regional counts add up to. */
  lemma GuardCapsIffAllCounted(cloud: Cloud, regions: seq<RegionSpec>, pool: string, remote: Remote)
    requires CountsWork(regions, remote)
    requires FromRegion(regions, remote, 0).end.Found? && FromRegion(regions, remote, 0).end.id !in cloud
    ensures Caps(cloud, regions, pool, remote) <==> |PoolOf(cloud, pool)| <= Total(cloud, regions, pool)
  {
    hide FromRegion, AfterRuns, Total, PoolOf;
    var total := Total(cloud, regions, pool);
    forall size ensures |PoolOf(cloud, pool)| <= total ==> LeavesAtMost(cloud, regions, size, pool, remote) {
      SearchAddsOne(cloud, regions, size, pool, remote, pool);
    }
    SearchAddsOne(cloud, regions, total + 1, pool, remote, pool);
    if Caps(cloud, regions, pool, remote) {
      assert LeavesAtMost(cloud, regions, total + 1, pool, remote);
    }
  }

  /** What happens to the cloud over time; an instance starts, stops or gets its
      address in its own time. */
  datatype Op =
    | OpAcquire(size: int, pool: string, remote: Remote)
    | OpTerminate(id: string)
    | OpProgress(id: string, state: Ec2State, ip: Option<string>)

  function Do(cloud: Cloud, regions: seq<RegionSpec>, op: Op): Cloud {
    match op
    case OpAcquire(size, pool, remote) =>
      AfterRuns(cloud, regions, pool, remote, Search(cloud, regions, size, pool, remote).calls)
    case OpTerminate(id) => cloud - {id}
    case OpProgress(id, state, ip) =>
      if id in cloud then cloud[id := cloud[id].(state := state, ip := ip)] else cloud
  }

  function DoAll(regions: seq<RegionSpec>, ops: seq<Op>): Cloud {
    if ops == [] then map[] else Do(DoAll(regions, ops[..|ops| - 1]), regions, ops[|ops| - 1])
  }

  /** The largest size that an Acquire for the pool has used. */
  function Largest(ops: seq<Op>, pool: string): nat {
    if ops == [] then 0
    else
      var rest := Largest(ops[..|ops| - 1], pool);
      var op := ops[|ops| - 1];
      if op.OpAcquire? && op.pool == pool && op.size > rest then op.size else rest
  }

  /** The instances of the pool that the guard does not see. */
  function Unseen(cloud: Cloud, regions: seq<RegionSpec>, pool: string): nat {
    var all, seen := |PoolOf(cloud, pool)|, Total(cloud, regions, pool);
    if all > seen then all - seen else 0
  }

  /** The most that an Acquire for the pool has failed to see. */
  function MostUnseen(regions: seq<RegionSpec>, ops: seq<Op>, pool: string): nat {
    if ops == [] then 0
    else
      var rest := MostUnseen(regions, ops[..|ops| - 1], pool);
      var op := ops[|ops| - 1];
      var unseen := Unseen(DoAll(regions, ops[..|ops| - 1]), regions, pool);
      if op.OpAcquire? && op.pool == pool && unseen > rest then unseen else rest
  }

  /** In every run the instances of a pool never exceed the largest size used for
      it by more than an Acquire has failed to see; so they stay within it while
      every Acquire finds the whole pool running in the configured regions. */
  lemma {:induction false} InstanceCap(regions: seq<RegionSpec>, ops: seq<Op>, pool: string)
    ensures |PoolOf(DoAll(regions, ops), pool)| <= Largest(ops, pool) + MostUnseen(regions, ops, pool)
  {
    hide AfterRuns, FromRegion, Total;
    if ops != [] {
      InstanceCap(regions, ops[..|ops| - 1], pool);
      var cloud := DoAll(regions, ops[..|ops| - 1]);
      match ops[|ops| - 1]
      case OpAcquire(size, p, remote) => SearchAddsOne(cloud, regions, size, p, remote, pool);
      case OpTerminate(id) =>
        SubsetSize(PoolOf(cloud - {id}, pool), PoolOf(cloud, pool));
      case OpProgress(id, state, ip) =>
        assert PoolOf(Do(cloud, regions, ops[|ops| - 1]), pool) == PoolOf(cloud, pool);
    }
  }

  // ------------------------------------------------------ service and provider

  function Describe(cloud: Cloud, id: string, region: string, works: bool): Option<Ec2Instance> {
    if works && IsIn(cloud, id, region) then Some(cloud[id]) else None
  }

  /** The lookup comes to the instance. */
  ghost predicate IsMet(cloud: Cloud, names: seq<string>, id: string, find: nat -> Fault) {
    id in cloud && exists h :: MeetsAt(cloud, names, id, find, 0, h)
  }

  class Ec2 {
    var cloud: Cloud
    var calls: seq<Attempt>

    constructor (cloud: Cloud)
      ensures this.cloud == cloud && calls == []
    {
      this.cloud, calls := cloud, [];
    }

    /** The reservations that hold the running instances of the pool, however the
        service groups them. */
    method DescribePool(region: string, pool: string) returns (reservations: seq<seq<string>>)
      ensures Sizes(reservations) == |RunningIn(cloud, region, pool)|
    {
      reservations := [];
      var rest := RunningIn(cloud, region, pool);
      while rest != {}
        invariant Sizes(reservations) + |rest| == |RunningIn(cloud, region, pool)|
        decreases |rest|
      {
        var size: nat :| 1 <= size <= |rest|;
        var reservation: seq<string> := [];
        ghost var left := |rest|;
        while |reservation| < size
          invariant |reservation| <= size <= left && |reservation| + |rest| == left
        {
          var id :| id in rest;
          rest := rest - {id};
          reservation := reservation + [id];
        }
        ghost var before := reservations;
        reservations := reservations + [reservation];
        assert reservations[..|reservations| - 1] == before;
      }
    }

    method RunInstances(regions: seq<RegionSpec>, a: Attempt, pool: string, outcome: RunOutcome)
      requires a.region < |regions|
      modifies this
      ensures calls == old(calls) + [a]
      ensures cloud == if outcome.Launched?
                       then old(cloud)[outcome.id := Ec2Instance(regions[a.region].name, pool, OtherState, None)]
                       else old(cloud)
    {
      calls := calls + [a];
      if outcome.Launched? {
        cloud := cloud[outcome.id := Ec2Instance(regions[a.region].name, pool, OtherState, None)];
      }
    }

    method Terminate(id: string)
      modifies this`cloud
      ensures cloud == old(cloud) - {id}
    {
      cloud := cloud - {id};
    }
  }

  function Sizes(reservations: seq<seq<string>>): nat {
    if reservations == [] then 0
    else Sizes(reservations[..|reservations| - 1]) + |reservations[|reservations| - 1]|
  }

  class AwsProvider {
    const ec2: Ec2
    const regions: seq<RegionSpec>

    constructor (ec2: Ec2, regions: seq<RegionSpec>)
      ensures this.ec2 == ec2 && this.regions == regions
    {
      this.ec2, this.regions := ec2, regions;
    }

    method GetTotalAmountOfPoolInstancesInRegion(region: string, pool: string) returns (total: nat)
      ensures total == |RunningIn(ec2.cloud, region, pool)|
    {
      var out := ec2.DescribePool(region, pool);
      total := 0;
      for k := 0 to |out|
        invariant total == Sizes(out[..k])
      {
        assert out[..k + 1][..k] == out[..k];
        total := total + |out[k]|;
      }
      assert out[..|out|] == out;
    }

    /** The calls `made` are all that has happened since. */
    ghost predicate Reached(before: seq<Attempt>, cloudBefore: Cloud, pool: string, remote: Remote, made: seq<Attempt>)
      reads this, ec2
    {
      Leads(before, cloudBefore, regions, pool, remote, made, ec2.calls, ec2.cloud)
    }

    method RunInstanceInRegion(r: nat, i: nat, subnetIDs: seq<string>, pool: string, remote: Remote)
      returns (id: Option<string>)
      requires r < |regions| && i < |regions[r].instances| && subnetIDs == Subnets(regions[r])
      modifies ec2
      ensures var ran := RunInstance(regions, remote, r, i);
              id == ran.id && Reached(old(ec2.calls), old(ec2.cloud), pool, remote, ran.calls)
    {
      hide Subnets, AfterRuns;
      ghost var before, cloudBefore := ec2.calls, ec2.cloud;
      assert before + [] == before;
      NoRuns(cloudBefore, regions, pool, remote);
      if !remote.client(r) {
        return None;
      }
      ghost var done: seq<Attempt> := [];
      ghost var all := RunInstance(regions, remote, r, i);
      for s := 0 to |subnetIDs|
        invariant Reached(before, cloudBefore, pool, remote, done)
        invariant all.id == RunFrom(regions, remote, r, i, s).id
        invariant all.calls == done + RunFrom(regions, remote, r, i, s).calls
      {
        var a := Attempt(r, i, s);
        var outcome := remote.run(a);
        ghost var rest := RunFrom(regions, remote, r, i, s + 1);
        assert done + ([a] + rest.calls) == (done + [a]) + rest.calls;
        ec2.RunInstances(regions, a, pool, outcome);
        RunsSnoc(cloudBefore, regions, pool, remote, done, a);
        assert before + (done + [a]) == (before + done) + [a];
        done := done + [a];
        match outcome {
          case RunError =>
          case NoInstanceId => return None;
          case Launched(launched) => return Some(launched);
        }
      }
      assert all.calls == done;
      return None;
    }

    /** Cloud and answer are as `Search` says. */
    method Acquire(poolSize: int, poolName: string, poolType: string, remote: Remote) returns (r: Reply<Resource>)
      modifies ec2
      ensures var x := Search(old(ec2.cloud), regions, poolSize, poolName, remote);
              && Reached(old(ec2.calls), old(ec2.cloud), poolName, remote, x.calls)
              && r == if x.end.Found? then Ok(Resource(IdOf(x.end.id), "", "")) else Reply.Failed(false)
    {
      hide AfterRuns, Total, FromRegion;
      NoRuns(ec2.cloud, regions, poolName, remote);
      assert ec2.calls + [] == ec2.calls;
      var total := CountPoolInstances(poolName, remote);
      if total.None? || total.value >= poolSize {
        return Reply.Failed(false);
      }
      var id := Launch(poolName, remote);
      r := if id.Some? then Ok(Resource(IdOf(id.value), "", "")) else Reply.Failed(false);
    }

    /** The first half of Acquire: one failed count is an error. */
    method CountPoolInstances(poolName: string, remote: Remote) returns (total: Option<nat>)
      ensures total == if CountsWork(regions, remote) then Some(Total(ec2.cloud, regions, poolName)) else None
    {
      var sum: nat := 0;
      for k := 0 to |regions|
        invariant sum == Total(ec2.cloud, regions[..k], poolName)
        invariant forall q :: 0 <= q < k ==> remote.counts(q)
      {
        if !remote.counts(k) {
          return None;
        }
        assert regions[..k + 1][..k] == regions[..k];
        var count := GetTotalAmountOfPoolInstancesInRegion(regions[k].name, poolName);
        sum := sum + count;
      }
      assert regions[..|regions|] == regions;
      return Some(sum);
    }

    /** The second half: one region after the other. */
    method Launch(poolName: string, remote: Remote) returns (id: Option<string>)
      modifies ec2
      ensures var x := FromRegion(regions, remote, 0);
              Reached(old(ec2.calls), old(ec2.cloud), poolName, remote, x.calls) && id == Got(x.end)
    {
      ghost var before, cloudBefore := ec2.calls, ec2.cloud;
      ghost var all := FromRegion(regions, remote, 0);
      hide Leads, FromInstance, FromRegion;
      LeadsNowhere(before, cloudBefore, regions, poolName, remote);
      ghost var made: seq<Attempt> := [];
      for k := 0 to |regions|
        invariant Reached(before, cloudBefore, poolName, remote, made)
        invariant all.end == FromRegion(regions, remote, k).end
        invariant all.calls == made + FromRegion(regions, remote, k).calls
      {
        RegionUnfolds(regions, remote, k, made);
        ghost var here := FromInstance(regions, remote, k, 0);
        ghost var calls1, cloud1 := ec2.calls, ec2.cloud;
        var end := LaunchInRegion(k, poolName, remote);
        LeadsOn(before, cloudBefore, regions, poolName, remote, made, calls1, cloud1, here.calls, ec2.calls, ec2.cloud);
        made := made + here.calls;
        if end != Exhausted {
          return Got(end);
        }
      }
      SearchOver(regions, remote);
      assert made + [] == made;
      return None;
    }

    /** One region: its instance types in order. */
    method LaunchInRegion(r: nat, poolName: string, remote: Remote) returns (end: End)
      requires r < |regions|
      modifies ec2
      ensures var x := FromInstance(regions, remote, r, 0);
              Reached(old(ec2.calls), old(ec2.cloud), poolName, remote, x.calls) && end == x.end
    {
      ghost var before, cloudBefore := ec2.calls, ec2.cloud;
      ghost var all := FromInstance(regions, remote, r, 0);
      hide RunInstance, Leads, FromInstance, Subnets;
      LeadsNowhere(before, cloudBefore, regions, poolName, remote);
      ghost var made: seq<Attempt> := [];
      for i := 0 to |regions[r].instances|
        invariant Reached(before, cloudBefore, poolName, remote, made)
        invariant all.end == FromInstance(regions, remote, r, i).end
        invariant all.calls == made + FromInstance(regions, remote, r, i).calls
      {
        var subnetIDs := regions[r].subnetIDs;
        if |subnetIDs| == 0 && regions[r].subnetID != "" {
          subnetIDs := [regions[r].subnetID];
        }
        SubnetsAre(regions[r], subnetIDs);
        InstanceUnfolds(regions, remote, r, i, made);
        if |subnetIDs| == 0 {
          return Aborted;
        }
        ghost var calls1, cloud1 := ec2.calls, ec2.cloud;
        var id := RunInstanceInRegion(r, i, subnetIDs, poolName, remote);
        ghost var ran := RunInstance(regions, remote, r, i);
        LeadsOn(before, cloudBefore, regions, poolName, remote, made, calls1, cloud1, ran.calls, ec2.calls, ec2.cloud);
        made := made + ran.calls;
        if id.None? {
          continue;
        }
        return Found(id.value);
      }
      InstancesOver(regions, remote, r);
      assert made + [] == made;
      return Exhausted;
    }

    method GetSupportedRegions() returns (names: seq<string>)
      ensures |names| == |regions|
      ensures forall i :: 0 <= i < |regions| ==> names[i] == regions[i].name
      ensures forall a :: Within(regions, a) ==> names[a.region] == regions[a.region].name
    {
      names := RegionNames(regions);
    }

    method FindInstanceRegion(id: string, possibleRegions: seq<string>, find: nat -> Fault)
      returns (region: Option<string>)
      ensures region == FindRegion(ec2.cloud, possibleRegions, id, find)
    {
      for k := 0 to |possibleRegions|
        invariant FindFrom(ec2.cloud, possibleRegions, id, find, k) == FindRegion(ec2.cloud, possibleRegions, id, find)
      {
        if find(k) == NoClient {
          continue;
        }
        if find(k) == DescribeError {
          return None;
        }
        if IsIn(ec2.cloud, id, possibleRegions[k]) {
          return Some(possibleRegions[k]);
        }
      }
      return None;
    }

    /** Ready is an instance that is found, running and has an address; one that is
        found in another state is not ready; everything else is an error. */
    method AcquireCompleted(id: string, remote: Remote) returns (r: Reply<Completion>)
      ensures var met := IsMet(ec2.cloud, RegionNames(regions), id, remote.find);
              && (r.Ok? && r.value.ready <==>
                    met && remote.active && remote.address
                    && ec2.cloud[id].state == Running && ec2.cloud[id].ip.Some?)
              && (r.Ok? && !r.value.ready <==> met && remote.active && ec2.cloud[id].state == OtherState)
              && (r.Ok? ==> r.value.resource ==
                              Resource(IdOf(id), if r.value.ready then ec2.cloud[id].ip.value else "", ""))
              && (r.Failed? ==> !r.notFound)
    {
      var names := GetSupportedRegions();
      assert names == RegionNames(regions);
      var region := FindInstanceRegion(id, names, remote.find);
      FindsIffMet(ec2.cloud, names, id, remote.find, 0);
      if region.None? {
        return Reply.Failed(false);
      }
      var described := Describe(ec2.cloud, id, region.value, remote.active);
      if described.None? || described.value.state == NoState {
        return Reply.Failed(false);
      }
      if described.value.state != Running {
        return Ok(Completion(false, Resource(IdOf(id), "", "")));
      }
      if !remote.address || described.value.ip.None? {
        return Reply.Failed(false);
      }
      return Ok(Completion(true, Resource(IdOf(id), described.value.ip.value, "")));
    }

    /** Terminates the instance in the region it is found in, and nothing else;
        an error is never `ResourceNotFoundError`. */
    method Release(id: string, remote: Remote) returns (r: Reply<()>)
      modifies ec2
      ensures var found := FindRegion(old(ec2.cloud), RegionNames(regions), id, remote.find);
              && (r.Ok? <==> found.Some? && remote.terminate)
              && (r.Ok? ==> ec2.cloud == old(ec2.cloud) - {id} && id in old(ec2.cloud))
              && (r.Failed? ==> !r.notFound && ec2.cloud == old(ec2.cloud))
    {
      var names := GetSupportedRegions();
      assert names == RegionNames(regions);
      var region := FindInstanceRegion(id, names, remote.find);
      FindsIffMet(ec2.cloud, names, id, remote.find, 0);
      if region.None? || !remote.terminate {
        return Reply.Failed(false);
      }
      ec2.Terminate(id);
      return Ok(());
    }
  }

  /** The calls `made` lead from one state of the service to another. */
  ghost predicate Leads(before: seq<Attempt>, cloudBefore: Cloud, regions: seq<RegionSpec>, pool: string,
                        remote: Remote, made: seq<Attempt>, after: seq<Attempt>, cloudAfter: Cloud)
  {
    after == before + made && cloudAfter == AfterRuns(cloudBefore, regions, pool, remote, made)
  }

  lemma LeadsNowhere(before: seq<Attempt>, cloud: Cloud, regions: seq<RegionSpec>, pool: string, remote: Remote)
    ensures Leads(before, cloud, regions, pool, remote, [], before, cloud)
  {
    assert before + [] == before;
  }

  lemma LeadsOn(calls0: seq<Attempt>, cloud0: Cloud, regions: seq<RegionSpec>, pool: string, remote: Remote,
                a: seq<Attempt>, calls1: seq<Attempt>, cloud1: Cloud,
                b: seq<Attempt>, calls2: seq<Attempt>, cloud2: Cloud)
    requires Leads(calls0, cloud0, regions, pool, remote, a, calls1, cloud1)
    requires Leads(calls1, cloud1, regions, pool, remote, b, calls2, cloud2)
    ensures Leads(calls0, cloud0, regions, pool, remote, a + b, calls2, cloud2)
  {
    RunsConcat(cloud0, regions, pool, remote, a, b);
    assert calls0 + (a + b) == (calls0 + a) + b;
  }

  lemma NoRuns(cloud: Cloud, regions: seq<RegionSpec>, pool: string, remote: Remote)
    ensures AfterRuns(cloud, regions, pool, remote, []) == cloud
  {
  }

  lemma {:induction false} RunsConcat(cloud: Cloud, regions: seq<RegionSpec>, pool: string, remote: Remote,
                                      a: seq<Attempt>, b: seq<Attempt>)
    ensures AfterRuns(AfterRuns(cloud, regions, pool, remote, a), regions, pool, remote, b) ==
            AfterRuns(cloud, regions, pool, remote, a + b)
  {
    if b == [] {
      assert a + b == a;
    } else {
      RunsConcat(cloud, regions, pool, remote, a, b[..|b| - 1]);
      assert (a + b)[..|a + b| - 1] == a + b[..|b| - 1];
    }
  }

  /** One turn of the outer loop. */
  lemma RegionUnfolds(regions: seq<RegionSpec>, remote: Remote, r: nat, made: seq<Attempt>)
    requires r < |regions|
    ensures var here := FromInstance(regions, remote, r, 0);
            var whole := FromRegion(regions, remote, r);
            var rest := FromRegion(regions, remote, r + 1);
            && whole.end == (if here.end == Exhausted then rest.end else here.end)
            && made + whole.calls ==
                 (if here.end == Exhausted then (made + here.calls) + rest.calls else made + here.calls)
  {
    var here := FromInstance(regions, remote, r, 0);
    var rest := FromRegion(regions, remote, r + 1);
    assert made + (here.calls + rest.calls) == (made + here.calls) + rest.calls;
  }

  lemma RunsSnoc(cloud: Cloud, regions: seq<RegionSpec>, pool: string, remote: Remote, done: seq<Attempt>, a: Attempt)
    ensures AfterRuns(cloud, regions, pool, remote, done + [a]) ==
            AfterRun(AfterRuns(cloud, regions, pool, remote, done), regions, pool, remote, a)
  {
    assert (done + [a])[..|done|] == done;
  }

  lemma SubnetsAre(r: RegionSpec, ids: seq<string>)
    requires ids == if |r.subnetIDs| == 0 && r.subnetID != "" then [r.subnetID] else r.subnetIDs
    ensures Subnets(r) == ids
  {
  }

  lemma InstancesOver(regions: seq<RegionSpec>, remote: Remote, r: nat)
    requires r < |regions|
    ensures FromInstance(regions, remote, r, |regions[r].instances|) == Searched([], Exhausted)
  {
  }

  lemma SearchOver(regions: seq<RegionSpec>, remote: Remote)
    ensures FromRegion(regions, remote, |regions|) == Searched([], Exhausted)
  {
  }

  /** One turn of the inner loop. */
  lemma InstanceUnfolds(regions: seq<RegionSpec>, remote: Remote, r: nat, i: nat, made: seq<Attempt>)
    requires r < |regions| && i < |regions[r].instances|
    ensures var whole := FromInstance(regions, remote, r, i);
            var rest := FromInstance(regions, remote, r, i + 1);
            var ran := RunInstance(regions, remote, r, i);
            if |Subnets(regions[r])| == 0 then whole.end == Aborted && made + whole.calls == made
            else
              && whole.end == (if ran.id.Some? then Found(ran.id.value) else rest.end)
              && made + whole.calls == (if ran.id.Some? then made + ran.calls else (made + ran.calls) + rest.calls)
  {
    hide RunInstance;
    var ran := RunInstance(regions, remote, r, i);
    var rest := FromInstance(regions, remote, r, i + 1);
    assert made + [] == made;
    assert made + (ran.calls + rest.calls) == (made + ran.calls) + rest.calls;
  }
}
