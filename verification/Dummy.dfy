/** The in-memory provider: ten instances, handed out and taken back. */
module Dummy {
  import opened Api
  import opened Providers
  import opened CirFsm
  import opened CirController
  import opened Names
  import opened OfcirSystem
  import Lifecycle
  import Ledger

  const MAX_AVAILABLE_RESOURCES := 10

  datatype Instance = Instance(resource: Resource, available: bool)

  type Stock = map<ResourceId, Instance>

  function InstanceId(n: nat): (id: ResourceId)
    ensures IsMachine(id)
  {
    var text := "dummy-" + Decimal(n);
    assert text[0] == 'd' && FALLBACK_ID[0] == '0';
    Named(text)
  }

  /** Every instance is filed under its own id, and ids name machines. */
  ghost predicate Stocked(m: Stock) {
    forall id :: id in m ==> m[id].resource.id == id && IsMachine(id)
  }

  function HandedOut(m: Stock): set<ResourceId> {
    set id | id in m && !m[id].available
  }

  function Free(m: Stock): set<ResourceId> {
    set id | id in m && m[id].available
  }

  function SetAvailable(m: Stock, id: ResourceId, available: bool): Stock
    requires id in m
  {
    m[id := m[id].(available := available)]
  }

  lemma InstanceIdsDiffer(i: nat, j: nat)
    requires InstanceId(i) == InstanceId(j)
    ensures i == j
  {
    DecimalIsDigits(i);
    DecimalIsDigits(j);
    assert ("dummy-" + Decimal(i))[6..] == Decimal(i);
    assert ("dummy-" + Decimal(j))[6..] == Decimal(j);
  }

  /** The instance number `n` is there, under its id and with its own address. */
  predicate IsInstance(m: Stock, n: nat) {
    && InstanceId(n) in m && IdText(InstanceId(n)) == "dummy-" + Decimal(n)
    && m[InstanceId(n)].resource.address == "1.1.1." + Decimal(n) && m[InstanceId(n)].resource.metadata == "{}"
  }

  /** The first `n` instances and no others, all free. */
  ghost predicate IsFilled(m: Stock, n: nat) {
    && (forall id :: id in m ==> m[id].resource.id == id && IsMachine(id) && m[id].available)
    && (forall id :: id in m ==> exists i: nat :: i < n && id == InstanceId(i))
    && (forall i: nat :: i < n ==> IsInstance(m, i))
    && |m| == n
  }

  lemma NothingFilled()
    ensures IsFilled(map[], 0)
  {
  }

  lemma FillOne(m: Stock, n: nat, instance: Instance)
    requires IsFilled(m, n)
    requires instance == Instance(Resource(InstanceId(n), "1.1.1." + Decimal(n), "{}"), true)
    ensures IsFilled(m[instance.resource.id := instance], n + 1)
  {
    var id := InstanceId(n);
    var m' := m[id := instance];
    InstanceIsThere(m', n);
    hide IsInstance, InstanceId;
    if id in m {
      var i: nat :| i < n && id == InstanceId(i);
      InstanceIdsDiffer(i, n);
      assert false;
    }
    forall i: nat | i < n + 1 ensures IsInstance(m', i) {
      if i < n {
        if InstanceId(i) == id {
          InstanceIdsDiffer(i, n);
        }
        InstanceStays(m, id, instance, i);
      }
    }
  }

  lemma InstanceIsThere(m: Stock, n: nat)
    requires InstanceId(n) in m
    requires m[InstanceId(n)] == Instance(Resource(InstanceId(n), "1.1.1." + Decimal(n), "{}"), true)
    ensures IsInstance(m, n)
  {
  }

  lemma InstanceStays(m: Stock, id: ResourceId, i: Instance, n: nat)
    requires IsInstance(m, n) && id != InstanceId(n)
    ensures IsInstance(m[id := i], n)
  {
    hide InstanceId;
  }

  lemma FilledStock(m: Stock, n: nat)
    requires IsFilled(m, n)
    ensures Stocked(m) && HandedOut(m) == {} && |m| == n
    ensures forall i :: 0 <= i < n ==> IsInstance(m, i)
  {
    hide IsInstance, InstanceId;
  }

  class DummyProvider {
    var instances: Stock

    /** Ten different instances, all free. */
    constructor ()
      ensures Stocked(instances) && HandedOut(instances) == {} && |instances| == MAX_AVAILABLE_RESOURCES
      ensures forall n :: 0 <= n < MAX_AVAILABLE_RESOURCES ==> IsInstance(instances, n)
    {
      hide IsFilled, InstanceId;
      var filled: Stock := map[];
      NothingFilled();
      for n := 0 to MAX_AVAILABLE_RESOURCES
        invariant IsFilled(filled, n)
      {
        var instance := Instance(Resource(InstanceId(n), "1.1.1." + Decimal(n), "{}"), true);
        FillOne(filled, n, instance);
        filled := filled[instance.resource.id := instance];
      }
      FilledStock(filled, MAX_AVAILABLE_RESOURCES);
      instances := filled;
    }

    /** Some free instance, in whatever order the map is walked; an error exactly
        when none is free. */
    method Acquire(poolSize: int, poolName: string, poolType: string) returns (r: Reply<Resource>)
      requires Stocked(instances)
      modifies this
      ensures Stocked(instances)
      ensures r.Ok? <==> old(Free(instances)) != {}
      ensures r.Ok? ==>
                && r.value.id in old(Free(instances))
                && r.value == old(instances)[r.value.id].resource
                && instances == SetAvailable(old(instances), r.value.id, false)
      ensures r.Failed? ==> !r.notFound && instances == old(instances)
    {
      var rest := instances.Keys;
      while rest != {}
        invariant rest <= instances.Keys && instances == old(instances)
        invariant forall id :: id in instances && id !in rest ==> !instances[id].available
        decreases rest
      {
        var id :| id in rest;
        rest := rest - {id};
        var i := instances[id];
        if i.available {
          i := i.(available := false);
          instances := instances[i.resource.id := i];
          assert id in old(Free(instances));
          return Ok(i.resource);
        }
      }
      return Reply.Failed(false);
    }

    method AcquireCompleted(id: ResourceId) returns (r: Reply<Completion>)
      ensures r == Completed(instances, id)
    {
      if id !in instances {
        return Reply.Failed(false);
      }
      return Ok(Completion(true, instances[id].resource));
    }

    method Clean(id: ResourceId) returns (r: Reply<()>)
      ensures r == if id in instances then Ok(()) else Reply.Failed(false)
    {
      if id !in instances {
        return Reply.Failed(false);
      }
      return Ok(());
    }

    method CleanCompleted(id: ResourceId) returns (r: Reply<bool>)
      ensures r == if id in instances then Ok(true) else Reply.Failed(false)
    {
      if id !in instances {
        return Reply.Failed(false);
      }
      return Ok(true);
    }

    /** By id only: whoever holds the instance now, it is free afterwards. */
    method Release(id: ResourceId) returns (r: Reply<()>)
      requires Stocked(instances)
      modifies this
      ensures Stocked(instances)
      ensures instances == AfterRelease(old(instances), id)
      ensures r == if id in old(instances) then Ok(()) else Reply.Failed(false)
    {
      if id !in instances {
        return Reply.Failed(false);
      }
      var resource := instances[id];
      resource := resource.(available := true);
      instances := instances[id := resource];
      return Ok(());
    }
  }

  // ------------------------------------------------- the provider of the runs

  function Completed(m: Stock, id: ResourceId): Reply<Completion> {
    if id in m then Ok(Completion(true, m[id].resource)) else Reply.Failed(false)
  }

  function AfterRelease(m: Stock, id: ResourceId): Stock {
    if id in m then SetAvailable(m, id, true) else m
  }

  /** What the provider answers to a pass over an object with machine `id`, when
      an acquire would pick `pick`. */
  function Answers(m: Stock, id: ResourceId, pick: ResourceId): Replies {
    Replies(true,
            if pick in Free(m) then Ok(m[pick].resource) else Reply.Failed(false),
            Completed(m, id),
            if id in m then Ok(()) else Reply.Failed(false),
            if id in m then Ok(true) else Reply.Failed(false),
            if id in m then Ok(()) else Reply.Failed(false))
  }

  /** The stock after the calls of a pass. */
  function AfterCalls(m: Stock, calls: seq<Call>, r: Replies): Stock {
    if calls == [] then m
    else
      match calls[0]
      case Acquire(_, _, _) =>
        if r.acquire.Ok? && r.acquire.value.id in m then SetAvailable(m, r.acquire.value.id, false) else m
      case Release(id) => AfterRelease(m, id)
      case _ => m
  }

  /** The dummy is a provider of the kind the runs assume, one that reissues
      ids: whatever it picks, what it answers is honest, and the machines it has
      handed out stay those that the system takes for handed out, also when the
      write that follows is lost. So every theorem about runs holds of it. */
  lemma DummyIsHonest(w: World, name: string, m: Stock, pick: ResourceId, d: Delivery)
    requires HasPool(w, name) && w.cfg.reissues && Stocked(m) && HandedOut(m) == w.held
    ensures var c := w.db.cirs[name];
            var p := w.db.pools[c.spec.poolRef];
            var r := Answers(m, c.status.resourceId, pick);
            var m' := AfterCalls(m, Handle(c, p, r, w.clock).calls, r);
            && Legal(w, Reconcile(name, r, d))
            && Stocked(m') && m'.Keys == m.Keys
            && HandedOut(m') == Apply(w, Reconcile(name, r, d)).held
  {
    hide Handle, Persisted;
    var c := w.db.cirs[name];
    var p := w.db.pools[c.spec.poolRef];
    var r := Answers(m, c.status.resourceId, pick);
    var calls := Handle(c, p, r, w.clock).calls;
    var m' := AfterCalls(m, calls, r);
    OneCall(c, p, r, w.clock);
    HeldFollows(m, c, calls, r);
    HeldAfterPass(w, c, p, r, d);
  }

  lemma OneCall(c: Cir, p: Pool, r: Replies, now: Time)
    ensures var calls := Handle(c, p, r, now).calls;
            |calls| <= 1 && forall k :: 0 <= k < |calls| && calls[k].Release? ==> calls[k].id == c.status.resourceId
  {
  }

  lemma HeldFollows(m: Stock, c: Cir, calls: seq<Call>, r: Replies)
    requires Stocked(m)
    requires r.release == if c.status.resourceId in m then Ok(()) else Reply.Failed(false)
    requires r.acquire.Ok? ==> r.acquire.value.id in Free(m)
    requires calls != [] && calls[0].Release? ==> calls[0].id == c.status.resourceId
    ensures var m' := AfterCalls(m, calls, r);
            && Stocked(m') && m'.Keys == m.Keys
            && HandedOut(m') == (HandedOut(m) + AcquiredId(calls, r)) - ReturnedId(calls, r)
  {
  }

  lemma HeldAfterPass(w: World, c: Cir, p: Pool, r: Replies, d: Delivery)
    ensures var calls := Handle(c, p, r, w.clock).calls;
            PassOver(w, c, p, r, d).held == (w.held + AcquiredId(calls, r)) - ReturnedId(calls, r)
  {
    hide Handle, Persisted, CallEvents, WriteEvents, AcquiredId, ReturnedId;
  }

  // --------------------------------------------------------------- whole runs

  /** The stock after a step of the system. */
  function Follow(w: World, m: Stock, s: Step): Stock {
    if s.Reconcile? && HasPool(w, s.name) then
      var c := w.db.cirs[s.name];
      AfterCalls(m, Handle(c, w.db.pools[c.spec.poolRef], s.replies, w.clock).calls, s.replies)
    else m
  }

  function FollowAll(w: World, m: Stock, steps: seq<Step>): Stock
    decreases |steps|
  {
    if steps == [] then m else FollowAll(Apply(w, steps[0]), Follow(w, m, steps[0]), steps[1..])
  }

  /** The replies of the step, if it has any, are the dummy's. */
  ghost predicate DummyStep(w: World, m: Stock, s: Step) {
    if s.Reconcile? && HasPool(w, s.name) then
      exists pick :: s.replies == Answers(m, w.db.cirs[s.name].status.resourceId, pick)
    else Legal(w, s)
  }

  ghost predicate DummyRun(w: World, m: Stock, steps: seq<Step>)
    decreases |steps|
  {
    steps == [] || (DummyStep(w, m, steps[0]) && DummyRun(Apply(w, steps[0]), Follow(w, m, steps[0]), steps[1..]))
  }

  lemma OtherStepsSpareProvider(w: World, s: Step)
    requires !s.Reconcile? || !HasPool(w, s.name)
    ensures Apply(w, s).held == w.held
  {
  }

  /** A step of the dummy's is legal, and its books agree afterwards. */
  lemma DummyStepTracks(w: World, m: Stock, s: Step)
    requires w.cfg.reissues && Stocked(m) && HandedOut(m) == w.held && DummyStep(w, m, s)
    ensures Legal(w, s) && Stocked(Follow(w, m, s)) && HandedOut(Follow(w, m, s)) == Apply(w, s).held
  {
    hide Apply, Legal, Answers;
    if s.Reconcile? && HasPool(w, s.name) {
      var pick :| s.replies == Answers(m, w.db.cirs[s.name].status.resourceId, pick);
      DummyIsHonest(w, s.name, m, pick, s.delivery);
    } else {
      OtherStepsSpareProvider(w, s);
    }
  }

  /** A system whose provider is the dummy makes legal runs only, and the dummy's
      books agree with the system's at the end of each. */
  lemma {:induction false} DummyRunIsLegal(w: World, m: Stock, steps: seq<Step>)
    requires w.cfg.reissues && Stocked(m) && HandedOut(m) == w.held && DummyRun(w, m, steps)
    ensures LegalRun(w, steps)
    ensures HandedOut(FollowAll(w, m, steps)) == Run(w, steps).held
    decreases |steps|
  {
    if steps != [] {
      hide Apply, Legal, Answers;
      var s := steps[0];
      DummyStepTracks(w, m, s);
      Lifecycle.ConfigStays(w, s);
      DummyRunIsLegal(Apply(w, s), Follow(w, m, s), steps[1..]);
    }
  }

  /** The instances that the dummy takes for used are exactly the machines that
      the live CIResources name, when the writes after Acquire and Release land;
      so an Acquire fails only when every instance is somebody's. */
  lemma DummyConserves(w: World, m: Stock, steps: seq<Step>)
    requires Initial(w) && w.cfg.reissues && Stocked(m) && HandedOut(m) == {}
    requires DummyRun(w, m, steps) && Ledger.LandingRun(w, steps)
    ensures forall id :: id in HandedOut(FollowAll(w, m, steps)) <==>
                           Ledger.Named(Ledger.AccountOf(Run(w, steps)), id)
  {
    hide DummyRun, LegalRun, Run, Ledger.LandingRun, Ledger.Named, FollowAll;
    DummyRunIsLegal(w, m, steps);
    Ledger.ExactConservation(w, steps);
  }
}
