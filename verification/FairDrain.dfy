/** Draining under fairness: what the controllers owe a pool that is being
    deleted, that each duty done brings the drain forward, that a duty stays owed
    until then, and so that every fair run comes to the end. */
module FairDrain {
  import opened Api
  import opened Providers
  import opened CirFsm
  import opened CirController
  import opened Requests
  import opened Histories
  import opened OfcirSystem
  import opened Lifecycle
  import opened Drain
  import opened Dangling
  import opened PoolGuard

  // ------------------------------------------------------------------ duties

  /** A pass over a member, its eviction label, its deletion mark, and taking the
      finalizer off a pool without members. */
  datatype Duty = Serve(name: string) | Label(name: string) | Mark(name: string) | Drop

  /** Waiting for the pool controller rather than for its own. */
  predicate Parked(c: Cir) {
    && !c.meta.deleting
    && (|| (c.status.state == StateAvailable && c.spec.state != StateInUse && c.spec.state != StateMaintenance)
        || (c.status.state == StateMaintenance && c.spec.state != StateAvailable))
  }

  predicate Owed(w: World, duty: Duty, pool: string) {
    pool in w.db.pools &&
    match duty
    case Serve(n) => IsMember(w, n, pool) && !Parked(w.db.cirs[n]) && !Blocked(w, w.db.cirs[n])
    case Label(n) => IsMember(w, n, pool) && Parked(w.db.cirs[n]) && !w.db.cirs[n].meta.evicted
    case Mark(n) => IsMember(w, n, pool) && Parked(w.db.cirs[n]) && w.db.cirs[n].meta.evicted
    case Drop => MemberNames(w.db, pool) == {}
  }

  /** Whatever the provider is asked, it does. */
  predicate Helpful(r: Replies) {
    && r.connects && r.acquire.Ok? && r.acquireCompleted.Ok? && r.acquireCompleted.value.ready
    && r.clean.Ok? && r.cleanCompleted == Ok(true) && ReleaseDone(r.release)
  }

  /** No lease is running that a pass would have to wait for. */
  predicate LeaseOver(c: Cir, p: Pool, now: Time) {
    c.status.state == StateInUse && c.spec.state == StateInUse && !NeedsMachine(c, p.IsFallback()) ==>
      Held(c, now) > p.spec.timeout
  }

  /** The step does the duty: a helped pass over a member whose lease is over and
      whose write lands, a label written from a current read, a deletion mark, or
      the finalizer taken off after a list without members. */
  predicate Fulfils(w: World, s: Step, duty: Duty, pool: string) {
    match duty
    case Serve(n) =>
      && s.Reconcile? && s.name == n && s.delivery.Arrives() && Helpful(s.replies)
      && (IsMember(w, n, pool) && pool in w.db.pools ==> LeaseOver(w.db.cirs[n], w.db.pools[pool], w.clock))
    case Label(n) =>
      && s.PassLabel? && s.delivery.Arrives() && s.snap in w.snapshots && s.snap.meta.name == n
      && IsCurrent(w.db, s.snap) && w.pass.Listed? && w.pass.pool.name == pool
    case Mark(n) => s == Delete(n)
    case Drop =>
      && s.PassDropFinalizer? && s.delivery.Arrives() && w.pass.Listed? && w.pass.members == {}
      && pool in w.db.pools && w.pass.pool == w.db.pools[pool]
  }

  // --------------------------------------------------- a duty done is progress

  lemma HelpedPassWrites(c: Cir, p: Pool, r: Replies, fallback: bool, now: Time)
    requires Shaped(c, fallback) && !Parked(c) && !Stuck(c) && Helpful(r) && LeaseOver(c, p, now)
    ensures Writes(Handle(c, p, r, now))
  {
  }

  lemma SoundIsShaped(c: Cir, b: Book, t: Terms, admin: bool, clock: Time)
    requires Sound(c, b, t, admin, clock)
    ensures Shaped(c, t.fallback)
    ensures c.status.state != StateNone ==> c.status.lastUpdated.Some?
    ensures c.status.state == StateNone ==> c.status.lastUpdated.None?
  {
  }

  lemma MemberIsShaped(w: World, n: string)
    requires Inv(w) && n in w.db.cirs
    ensures var c := w.db.cirs[n];
            && c.meta.name == n && c.spec.poolRef in w.cfg.terms
            && Shaped(c, w.cfg.terms[c.spec.poolRef].fallback)
            && (c.status.state != StateNone ==> c.status.lastUpdated.Some?)
  {
    hide Sound, LifeOk, PoolOk, SnapOk;
    assert CirOk(w, n);
    var c := w.db.cirs[n];
    SoundIsShaped(c, BookFor(w, c.meta.uid), w.cfg.terms[c.spec.poolRef], w.cfg.admin, w.clock);
  }

  /** The rank of the pool is lower in `w'`. */
  ghost predicate Falls(w: World, w': World, pool: string) {
    w'.cfg == w.cfg && pool in w.cfg.terms && PoolRank(w', pool) < PoolRank(w, pool)
  }

  /** A pass over a member that writes and lands lowers the pool's rank. */
  lemma PassLowersPool(w: World, n: string, r: Replies, d: Delivery, pool: string)
    requires Inv(w) && Drains(w, pool) && IsMember(w, n, pool) && Legal(w, Reconcile(n, r, d)) && d.Arrives()
    requires Writes(Handle(w.db.cirs[n], w.db.pools[pool], r, w.clock))
    ensures Falls(w, Apply(w, Reconcile(n, r, d)), pool)
  {
    hide Handle, Persisted, Rank, Vanishes, Sound, LifeOk, SnapOk, CallEvents, WriteEvents, PoolRank, Commit,
         AcquiredId, ReturnedId;
    var c := w.db.cirs[n];
    var p := w.db.pools[pool];
    assert CirOk(w, n) && PoolOk(w, pool);
    var b := BookFor(w, c.meta.uid);
    var t := w.cfg.terms[pool];
    ConfigStays(w, Reconcile(n, r, d));
    PassEvents(c, p, r, w.clock);
    PassLowersRank(c, b, p, r, t, w.cfg.admin, w.clock);
    RankIsPositive(c, b, t, w.cfg.admin, w.clock);
    var v := Handle(c, p, r, w.clock);
    var w1 := ProviderEffect(w, v.calls, r, true).(visits := w.visits[c.meta.uid := w.clock]);
    RankUnmoved(w, w1, pool);
    CommitMovesRank(w1, Persisted(c, v, w.clock), CallEvents(v.calls, r) + WriteEvents(c, v, w.clock), pool);
  }

  lemma MarkingLowers(c: Cir, fb: bool)
    requires Parked(c) && c.meta.finalizer
    ensures var c' := c.(meta := c.meta.(deleting := true));
            !Vanishes(c') && Rank(c', fb) < Rank(c, fb)
  {
  }

  lemma LabellingLowers(c: Cir, fb: bool)
    requires Parked(c) && !c.meta.evicted
    ensures CanEvict(c) && MergeMain(c, Evicting(c)) == Evicting(c)
    ensures !Vanishes(Evicting(c)) && Rank(Evicting(c), fb) < Rank(c, fb)
  {
  }

  lemma ServedLowers(w: World, s: Step, n: string, pool: string)
    requires Inv(w) && Legal(w, s) && Drains(w, pool)
    requires Owed(w, Serve(n), pool) && Fulfils(w, s, Serve(n), pool)
    ensures Falls(w, Apply(w, s), pool)
  {
    hide Inv, Stuck, Parked, Handle, Apply, Legal, PoolRank, Shaped, LeaseOver, Falls;
    MemberIsShaped(w, n);
    HelpedPassWrites(w.db.cirs[n], w.db.pools[pool], s.replies, w.cfg.terms[pool].fallback, w.clock);
    PassLowersPool(w, n, s.replies, s.delivery, pool);
  }

  lemma LabelledLowers(w: World, s: Step, n: string, pool: string)
    requires Inv(w) && Drains(w, pool)
    requires Owed(w, Label(n), pool) && Fulfils(w, s, Label(n), pool)
    ensures Falls(w, Apply(w, s), pool)
  {
    hide Inv, PoolRank, Commit, Rank, Vanishes, Parked;
    var c := w.db.cirs[n];
    ConfigStays(w, s);
    AcceptedMeansUnchanged(w, s.snap);
    LabellingLowers(c, w.cfg.terms[pool].fallback);
    assert Apply(w, s) == Commit(w, Evicting(c), []);
    CommitMovesRank(w, Evicting(c), [], pool);
  }

  lemma MarkedLowers(w: World, n: string, pool: string)
    requires Inv(w) && Drains(w, pool) && Owed(w, Mark(n), pool)
    ensures Falls(w, Apply(w, Delete(n)), pool)
  {
    hide Inv, PoolRank, Commit, Rank, Vanishes;
    var c := w.db.cirs[n];
    ConfigStays(w, Delete(n));
    NameFits(w, n);
    IsGuarded(w, n);
    MarkingLowers(c, w.cfg.terms[pool].fallback);
    CommitMovesRank(w, c.(meta := c.meta.(deleting := true)), [], pool);
  }

  lemma DroppedLowers(w: World, s: Step, pool: string)
    requires Inv(w) && Drains(w, pool) && Owed(w, Drop, pool) && Fulfils(w, s, Drop, pool)
    ensures Falls(w, Apply(w, s), pool)
    ensures pool !in Apply(w, s).db.pools && Apply(w, s).db.cirs == w.db.cirs
  {
    hide Inv, Rank;
    ConfigStays(w, s);
    PoolNameFits(w, pool);
    assert MemberNames(Apply(w, s).db, pool) == MemberNames(w.db, pool);
  }

  /** Every duty done lowers the rank of the pool. */
  lemma DutyLowers(w: World, s: Step, duty: Duty, pool: string)
    requires Inv(w) && Legal(w, s) && Drains(w, pool) && Owed(w, duty, pool) && Fulfils(w, s, duty, pool)
    ensures Falls(w, Apply(w, s), pool)
  {
    hide Inv, Falls, Apply, Legal, Owed, Fulfils;
    match duty
    case Serve(n) => ServedLowers(w, s, n, pool);
    case Label(n) => LabelledLowers(w, s, n, pool);
    case Mark(n) =>
      assert s == Delete(n) by {
        MarkIsDelete(w, s, n, pool);
      }
      MarkedLowers(w, n, pool);
    case Drop => DroppedLowers(w, s, pool);
  }

  lemma MarkIsDelete(w: World, s: Step, n: string, pool: string)
    requires Fulfils(w, s, Mark(n), pool)
    ensures s == Delete(n)
  {
  }

  // ---------------------------------------------------------- attended steps

  predicate IsDrained(w: World, pool: string) {
    pool !in w.db.pools && MemberNames(w.db, pool) == {}
  }

  ghost predicate Attends(w: World, s: Step, pool: string) {
    exists duty :: Owed(w, duty, pool) && Fulfils(w, s, duty, pool)
  }

  ghost function AttendingSteps(w: World, steps: seq<Step>, pool: string): nat
    decreases |steps|
  {
    if steps == [] then 0
    else (if Attends(w, steps[0], pool) then 1 else 0) + AttendingSteps(Apply(w, steps[0]), steps[1..], pool)
  }

  lemma NoRankLeft(w: World, pool: string)
    requires Inv(w) && pool in w.cfg.terms && PoolRank(w, pool) == 0
    ensures IsDrained(w, pool)
  {
    hide Rank, Sound, LifeOk, PoolOk, SnapOk;
    var names := MemberNames(w.db, pool);
    if n :| n in names {
      var t := w.cfg.terms[pool];
      SumRemove(w.db.cirs, names, t.fallback, n);
      assert CirOk(w, n);
      RankIsPositive(w.db.cirs[n], BookFor(w, w.db.cirs[n].meta.uid), t, w.cfg.admin, w.clock);
    }
  }

  /** In every draining run, whatever else goes on in it, the steps that do a duty
      are no more than the rank of the pool at its start; and a run with that many
      ends with the members and then the pool gone. */
  lemma {:induction false} AttendedRunDrains(w: World, steps: seq<Step>, pool: string)
    requires Inv(w) && pool in w.cfg.terms && DrainingRun(w, steps, pool)
    ensures Run(w, steps).cfg == w.cfg
    ensures AttendingSteps(w, steps, pool) + PoolRank(Run(w, steps), pool) <= PoolRank(w, pool)
    ensures AttendingSteps(w, steps, pool) == PoolRank(w, pool) ==> IsDrained(Run(w, steps), pool)
    decreases |steps|
  {
    hide Inv, Apply, Legal, PoolRank, Quiet, Owed, Fulfils, IsDrained, Productive;
    if steps != [] {
      var s := steps[0];
      StepDescends(w, s, pool);
      StepKeeps(w, s);
      if duty :| Owed(w, duty, pool) && Fulfils(w, s, duty, pool) {
        DutyLowers(w, s, duty, pool);
      }
      AttendedRunDrains(Apply(w, s), steps[1..], pool);
    }
    RunInv(w, steps, pool);
    if PoolRank(Run(w, steps), pool) == 0 {
      NoRankLeft(Run(w, steps), pool);
    }
  }

  lemma {:induction false} RunInv(w: World, steps: seq<Step>, pool: string)
    requires Inv(w) && DrainingRun(w, steps, pool)
    ensures Inv(Run(w, steps)) && LegalRun(w, steps)
    decreases |steps|
  {
    hide Inv, Apply, Legal, Quiet;
    if steps != [] {
      StepKeeps(w, steps[0]);
      RunInv(Apply(w, steps[0]), steps[1..], pool);
    }
  }

  // --------------------------------------------------- nothing gets stuck

  lemma SameStuck(c: Cir, c': Cir)
    requires c'.spec == c.spec && c'.status == c.status
    ensures Stuck(c') == Stuck(c)
  {
  }

  lemma PassNeverSticks(c: Cir, p: Pool, r: Replies, now: Time)
    requires !Stuck(c)
    ensures !Stuck(Persisted(c, Handle(c, p, r, now), now))
  {
  }

  predicate NoneStuck(w: World, pool: string) {
    forall n :: n in w.db.cirs && w.db.cirs[n].spec.poolRef == pool ==> !Stuck(w.db.cirs[n])
  }

  lemma CommitKeepsUnstuck(w: World, c: Cir, es: seq<Event>, pool: string)
    requires NoneStuck(w, pool) && c.meta.name in w.db.cirs && c.spec.poolRef == w.db.cirs[c.meta.name].spec.poolRef
    requires c.spec.poolRef == pool ==> !Stuck(c)
    ensures NoneStuck(Commit(w, c, es), pool)
  {
    hide Commit, Vanishes, Stuck;
    CommitFrame(w, c, es);
    SameStuck(c, Renumbered(c, w.db.next));
  }

  lemma PassKeepsUnstuck(w: World, name: string, r: Replies, d: Delivery, pool: string)
    requires Inv(w) && NoneStuck(w, pool) && HasPool(w, name)
    ensures NoneStuck(ReconcileStep(w, name, r, d), pool)
  {
    hide Inv, Handle, Persisted, Stuck, PassOver, Vanishes, Writes;
    var c := w.db.cirs[name];
    var p := w.db.pools[c.spec.poolRef];
    NameFits(w, name);
    PassEvents(c, p, r, w.clock);
    PassFrame(w, c, p, r, d);
    var c' := Persisted(c, Handle(c, p, r, w.clock), w.clock);
    SameStuck(c', Renumbered(c', w.db.next));
    if c.spec.poolRef == pool {
      PassNeverSticks(c, p, r, w.clock);
    }
  }

  lemma SwapKeepsUnstuck(w: World, snap: Cir, wanted: Cir, es: seq<Event>, d: Delivery, pool: string)
    requires Inv(w) && NoneStuck(w, pool) && snap in w.snapshots
    requires wanted.meta == snap.meta.(evicted := wanted.meta.evicted) && wanted.spec.poolRef == snap.spec.poolRef
    requires snap.spec.poolRef == pool && !Stuck(snap) ==> !Stuck(MergeMain(snap, wanted))
    ensures NoneStuck(Swap(w, wanted, es, d), pool)
  {
    hide Inv, Commit, Stuck;
    if d.Arrives() && IsCurrent(w.db, wanted) {
      AcceptedMeansUnchanged(w, snap);
      CommitKeepsUnstuck(w, MergeMain(snap, wanted), es, pool);
    }
  }

  /** While a pool drains no member gets stuck. */
  lemma StepKeepsUnstuck(w: World, s: Step, pool: string)
    requires Inv(w) && NoneStuck(w, pool) && Quiet(w, s, pool)
    ensures NoneStuck(Apply(w, s), pool)
  {
    hide Inv, Commit, Swap, ReconcileStep;
    match s
    case AcquireWrite(snap, d) =>
      if snap in w.snapshots && CanAcquire(snap) {
        SwapKeepsUnstuck(w, snap, Acquiring(snap), if d.Delivered? then [Granted(w.clock)] else [], d, pool);
      }
    case ReleaseWrite(snap, d) =>
      if snap in w.snapshots && CanRelease(snap) {
        SwapKeepsUnstuck(w, snap, Releasing(snap), [Freed(w.clock)], d, pool);
      }
    case PassLabel(snap, d) =>
      if snap in w.snapshots && CanEvict(snap) {
        SwapKeepsUnstuck(w, snap, Evicting(snap), [], d, pool);
      }
    case EditSpec(name, state) =>
      if name in w.db.cirs {
        NameFits(w, name);
        CommitKeepsUnstuck(w, WithSpecState(w.db.cirs[name], state), [], pool);
      }
    case Delete(name) =>
      if name in w.db.cirs {
        NameFits(w, name);
        var c := w.db.cirs[name];
        CommitKeepsUnstuck(w, c.(meta := c.meta.(deleting := true)), [], pool);
      }
    case Reconcile(name, r, d) =>
      if HasPool(w, name) {
        PassKeepsUnstuck(w, name, r, d, pool);
      } else {
        WithoutPool(w, name, r, d);
      }
    case PassCreate(name, d) =>
    case _ => PoolStepFrame(w, s);
  }

  /** While a pool drains, and what its members give back to a strict provider is
      recorded, no member gets blocked. */
  lemma StepKeepsDrainable(w: World, s: Step, pool: string)
    requires Inv(w) && Books(w) && Legal(w, s) && Drainable(w, pool) && Quiet(w, s, pool) && Lossless(w, s, pool)
    ensures Drainable(Apply(w, s), pool)
  {
    hide Inv, Books, Apply, Legal, Quiet, Lossless, Stuck;
    ConfigStays(w, s);
    StepKeepsUnstuck(w, s, pool);
    var w' := Apply(w, s);
    forall n | IsMember(w', n, pool) ensures !Blocked(w', w'.db.cirs[n]) {
      if w'.cfg.Strict() && w'.db.cirs[n].status.resourceId in w'.dangling {
        NothingDanglesAnew(w, s, pool, n);
      }
    }
  }

  lemma StepKeepsDraining(w: World, s: Step, pool: string)
    requires Inv(w) && Drains(w, pool) && pool in Apply(w, s).db.pools
    ensures Drains(Apply(w, s), pool)
  {
    hide Inv, Apply;
    PoolNameFits(w, pool);
    if OnlyPoolsOrReads(s) {
      PoolKeepsMark(w, s, pool);
    } else {
      OthersKeepPools(w, s);
    }
    NoPassGetsStale(w, s, pool);
  }

  lemma OthersKeepPools(w: World, s: Step)
    requires !OnlyPoolsOrReads(s)
    ensures Apply(w, s).db.pools == w.db.pools && Apply(w, s).cfg == w.cfg
  {
    hide Handle, Persisted, Vanishes, CallEvents, WriteEvents;
  }

  /** A pass that gets the pool now finds it under deletion. */
  lemma NoPassGetsStale(w: World, s: Step, pool: string)
    requires Inv(w) && Drains(w, pool)
    ensures !StalePass(Apply(w, s), pool)
  {
    hide Inv, Handle, Persisted, Vanishes, CallEvents, WriteEvents, StoreCir;
    if s.PassGet? && s.name in w.db.pools {
      PoolNameFits(w, s.name);
    }
  }

  lemma PoolKeepsMark(w: World, s: Step, pool: string)
    requires Inv(w) && OnlyPoolsOrReads(s) && IsMarked(w, pool) && pool in Apply(w, s).db.pools
    requires w.db.pools[pool].name == pool
    ensures IsMarked(Apply(w, s), pool)
  {
    hide Inv, ReconcileStep, Swap, PassCreateStep, DeleteStep, EditSpecStep, UpdatePool, UpdatePoolStatus, StorePool;
    PoolStepFrame(w, s);
    match s
    case CreatePool(p) =>
      if p.name !in w.db.pools {
        StoringKeepsMark(w.db, p.(finalizer := false, deleting := false), pool);
      }
    case EditPool(name, size, state) =>
      if name in w.db.pools {
        PoolNameFits(w, name);
        var p := w.db.pools[name];
        StoringKeepsMark(w.db, p.(spec := p.spec.(size := size, state := state)), pool);
      }
    case RemovePool(name) =>
      if name in w.db.pools {
        PoolNameFits(w, name);
        StoringKeepsMark(w.db, w.db.pools[name].(deleting := true), pool);
      }
    case PassAddFinalizer(d) => UpdatingKeepsMark(w, pool);
    case PassDropFinalizer(d) => UpdatingKeepsMark(w, pool);
    case PassStatus(status, d) => UpdatingKeepsMark(w, pool);
    case _ =>
  }

  /** A pool that is stored as marked, or under another name, leaves the mark. */
  lemma StoringKeepsMark(db: Db, p: Pool, pool: string)
    requires pool in db.pools && db.pools[pool].deleting && (p.name == pool ==> p.deleting)
    ensures pool in StorePool(db, p).pools ==> StorePool(db, p).pools[pool].deleting
  {
  }

  /** The mark is not among what the writes of a pass change. */
  lemma UpdatingKeepsMark(w: World, pool: string)
    requires Inv(w) && pool in w.db.pools && w.db.pools[pool].deleting
    ensures forall p: Pool ::
              pool in UpdatePool(w.db, p).db.pools ==> UpdatePool(w.db, p).db.pools[pool].deleting
    ensures forall p: Pool ::
              pool in UpdatePoolStatus(w.db, p).db.pools ==> UpdatePoolStatus(w.db, p).db.pools[pool].deleting
  {
    hide Inv, StorePool;
    forall p: Pool ensures pool in UpdatePool(w.db, p).db.pools ==> UpdatePool(w.db, p).db.pools[pool].deleting {
      if PoolIsCurrent(w.db, p) {
        PoolNameFits(w, p.name);
        StoringKeepsMark(w.db, w.db.pools[p.name].(spec := p.spec, finalizer := p.finalizer), pool);
      }
    }
    forall p: Pool
      ensures pool in UpdatePoolStatus(w.db, p).db.pools ==> UpdatePoolStatus(w.db, p).db.pools[pool].deleting
    {
      if PoolIsCurrent(w.db, p) {
        PoolNameFits(w, p.name);
        StoringKeepsMark(w.db, w.db.pools[p.name].(status := p.status), pool);
      }
    }
  }

  /** What the members give back to a strict provider is recorded all along. */
  ghost predicate LosslessRun(w: World, steps: seq<Step>, pool: string)
    decreases |steps|
  {
    steps == [] || (Lossless(w, steps[0], pool) && LosslessRun(Apply(w, steps[0]), steps[1..], pool))
  }

  // -------------------------------------------------------------- fair rounds

  /** A stretch of a run in which no duty is owed from beginning to end without
      being done in it. */
  ghost predicate FairRound(w: World, steps: seq<Step>, pool: string) {
    forall duty :: OwedThroughout(w, steps, duty, pool) ==> DoneIn(w, steps, duty, pool)
  }

  ghost predicate OwedThroughout(w: World, steps: seq<Step>, duty: Duty, pool: string) {
    forall i :: 0 <= i <= |steps| ==> Owed(Run(w, steps[..i]), duty, pool)
  }

  ghost predicate DoneIn(w: World, steps: seq<Step>, duty: Duty, pool: string) {
    exists i :: 0 <= i < |steps| && Fulfils(Run(w, steps[..i]), steps[i], duty, pool)
  }

  /** Something is always owed while the pool is there. */
  lemma SomethingOwed(w: World, pool: string) returns (duty: Duty)
    requires pool in w.db.pools && Drainable(w, pool)
    ensures Owed(w, duty, pool)
  {
    hide Parked, Stuck;
    if n :| n in MemberNames(w.db, pool) {
      duty := if !Parked(w.db.cirs[n]) then Serve(n) else if w.db.cirs[n].meta.evicted then Mark(n) else Label(n);
    } else {
      duty := Drop;
    }
  }

  lemma OwedByContents(w: World, w': World, duty: Duty, pool: string)
    requires MemberContents(w', pool) == MemberContents(w, pool) && pool in w'.db.pools && Owed(w, duty, pool)
    requires Drainable(w', pool)
    ensures Owed(w', duty, pool)
  {
    hide Stuck;
    var names := MemberNames(w.db, pool);
    assert names == MemberContents(w, pool).Keys == MemberContents(w', pool).Keys == MemberNames(w'.db, pool);
    if !duty.Drop? {
      var n := duty.name;
      assert n in names;
      assert Content(w'.db.cirs[n]) == MemberContents(w', pool)[n] == Content(w.db.cirs[n]);
    }
  }

  lemma {:induction false} RunSnoc(w: World, steps: seq<Step>, i: nat)
    requires i < |steps|
    ensures Run(w, steps[..i + 1]) == Apply(Run(w, steps[..i]), steps[i])
    decreases |steps|
  {
    hide Apply;
    if i == 0 {
      assert steps[..1][1..] == [] && steps[..0] == [];
    } else {
      assert steps[..i + 1][1..] == steps[1..][..i] && steps[..i][1..] == steps[1..][..i - 1];
      RunSnoc(Apply(w, steps[0]), steps[1..], i - 1);
    }
  }

  /** Up to any point of a draining run in which nothing productive happens, all
      is as it was to the pool and its members. */
  lemma {:induction false} IdleSoFar(w: World, steps: seq<Step>, pool: string, i: nat)
    requires Inv(w) && Books(w) && Drains(w, pool) && Drainable(w, pool) && i <= |steps|
    requires DrainingRun(w, steps, pool) && LosslessRun(w, steps, pool) && ProductiveSteps(w, steps, pool) == 0
    ensures var w' := Run(w, steps[..i]);
            && Inv(w') && Drains(w', pool) && Drainable(w', pool) && w'.cfg == w.cfg
            && MemberContents(w', pool) == MemberContents(w, pool)
            && (i < |steps| ==> Legal(w', steps[i]))
    decreases |steps|
  {
    hide Inv, Books, Apply, Legal, MemberContents, Quiet, Lossless, Drainable, PoolRank;
    if i == 0 {
      assert steps[..0] == [];
    } else {
      var w1 := Apply(w, steps[0]);
      StepKeeps(w, steps[0]);
      StepBooks(w, steps[0]);
      StepKeepsDrainable(w, steps[0], pool);
      StepDescends(w, steps[0], pool);
      StepKeepsDraining(w, steps[0], pool);
      assert steps[..i][1..] == steps[1..][..i - 1];
      IdleSoFar(w1, steps[1..], pool, i - 1);
    }
  }

  /** Every fair round brings the drain forward: a duty that is owed stays owed
      until something productive happens, and to do it is productive. */
  lemma RoundLowers(w: World, steps: seq<Step>, pool: string)
    requires Inv(w) && Books(w) && Drains(w, pool) && Drainable(w, pool)
    requires DrainingRun(w, steps, pool) && LosslessRun(w, steps, pool) && FairRound(w, steps, pool)
    ensures Run(w, steps).cfg == w.cfg && PoolRank(Run(w, steps), pool) < PoolRank(w, pool)
  {
    hide Inv, Books, Drainable, DrainingRun, LosslessRun, Legal, PoolRank, ProductiveSteps, Owed, Fulfils, Apply,
         MemberContents;
    DrainIsBounded(w, steps, pool);
    if ProductiveSteps(w, steps, pool) == 0 {
      var duty := SomethingOwed(w, pool);
      forall i | 0 <= i <= |steps| ensures Owed(Run(w, steps[..i]), duty, pool) {
        IdleSoFar(w, steps, pool, i);
        OwedByContents(w, Run(w, steps[..i]), duty, pool);
      }
      assert OwedThroughout(w, steps, duty, pool);
      var i :| 0 <= i < |steps| && Fulfils(Run(w, steps[..i]), steps[i], duty, pool);
      var w1 := Run(w, steps[..i]);
      IdleSoFar(w, steps, pool, i);
      IdleSoFar(w, steps, pool, i + 1);
      RunSnoc(w, steps, i);
      SameMembersDescend(w1, Apply(w1, steps[i]), pool);
      DutyLowers(w1, steps[i], duty, pool);
      assert false;
    }
  }

  // ---------------------------------------------------------------- fair runs

  function RunRounds(w: World, rounds: seq<seq<Step>>, pool: string): World
    decreases |rounds|
  {
    if rounds == [] || pool !in w.db.pools then w else RunRounds(Run(w, rounds[0]), rounds[1..], pool)
  }

  /** A draining run cut into fair rounds, until the pool is gone. Whatever keeps
      doing what it owes makes such rounds, however long each of them takes. */
  ghost predicate FairRun(w: World, rounds: seq<seq<Step>>, pool: string)
    decreases |rounds|
  {
    || rounds == [] || pool !in w.db.pools
    || (&& DrainingRun(w, rounds[0], pool) && FairRound(w, rounds[0], pool)
        && FairRun(Run(w, rounds[0]), rounds[1..], pool))
  }

  ghost predicate LosslessRounds(w: World, rounds: seq<seq<Step>>, pool: string)
    decreases |rounds|
  {
    || rounds == [] || pool !in w.db.pools
    || (LosslessRun(w, rounds[0], pool) && LosslessRounds(Run(w, rounds[0]), rounds[1..], pool))
  }

  lemma {:induction false} RunKeepsDraining(w: World, steps: seq<Step>, pool: string)
    requires Inv(w) && Books(w) && Drains(w, pool) && Drainable(w, pool)
    requires DrainingRun(w, steps, pool) && LosslessRun(w, steps, pool)
    ensures Drainable(Run(w, steps), pool)
    ensures pool in Run(w, steps).db.pools ==> Drains(Run(w, steps), pool)
    decreases |steps|
  {
    hide Inv, Books, Drainable, Apply, Legal, Quiet, Lossless;
    if steps != [] {
      var w1 := Apply(w, steps[0]);
      StepKeeps(w, steps[0]);
      StepBooks(w, steps[0]);
      StepKeepsDrainable(w, steps[0], pool);
      if pool in w1.db.pools {
        StepKeepsDraining(w, steps[0], pool);
        RunKeepsDraining(w1, steps[1..], pool);
      }
    }
  }

  /** Every fair run of as many rounds as the pool's rank ends drained. The lists
      of the pool controller must work, as otherwise it may drop the pool first. */
  lemma {:induction false} FairRunDrains(w: World, rounds: seq<seq<Step>>, pool: string)
    requires Inv(w) && Books(w) && Guarded(w) && !w.cfg.listErrors && pool in w.cfg.terms
    requires pool in w.db.pools ==> Drains(w, pool) && Drainable(w, pool)
    requires FairRun(w, rounds, pool) && LosslessRounds(w, rounds, pool) && |rounds| >= PoolRank(w, pool)
    ensures IsDrained(RunRounds(w, rounds, pool), pool)
    decreases |rounds|
  {
    hide Inv, Books, Guarded, Drainable, DrainingRun, LosslessRun, FairRound, Run;
    if pool !in w.db.pools {
      GoneWithMembers(w, pool);
    } else {
      RankWhileThere(w, pool);
      var w1 := Run(w, rounds[0]);
      RunInv(w, rounds[0], pool);
      RunBooks(w, rounds[0]);
      RunGuards(w, rounds[0]);
      RoundLowers(w, rounds[0], pool);
      RunKeepsDraining(w, rounds[0], pool);
      FairRunDrains(w1, rounds[1..], pool);
    }
  }

  /** What is lost once is lost for the rest of the run. */
  lemma {:induction false} LossShows(w: World, steps: seq<Step>, pool: string) returns (n: string)
    requires Inv(w) && Books(w) && w.cfg.Strict() && DrainingRun(w, steps, pool) && !LosslessRun(w, steps, pool)
    ensures var w' := Run(w, steps);
            w'.cfg == w.cfg && IsMember(w', n, pool) && w'.db.cirs[n].status.resourceId in w'.dangling
    decreases |steps|
  {
    hide Inv, Books, Apply, Legal, Quiet, Lossless;
    var w1 := Apply(w, steps[0]);
    StepKeeps(w, steps[0]);
    StepBooks(w, steps[0]);
    ConfigStays(w, steps[0]);
    if Lossless(w, steps[0], pool) {
      n := LossShows(w1, steps[1..], pool);
    } else {
      n := LostStepDangles(w, steps[0], pool);
      RunInv(w1, steps[1..], pool);
      DanglingForever(w1, steps[1..], n);
      RunKeeps(w1, steps[1..]);
    }
  }

  lemma LostStepDangles(w: World, s: Step, pool: string) returns (n: string)
    requires Inv(w) && !Lossless(w, s, pool)
    ensures var w' := Apply(w, s);
            IsMember(w', n, pool) && w'.db.cirs[n].status.resourceId in w'.dangling
  {
    hide Inv, Handle, Shaped, Persisted, ReconcileStep;
    n := s.name;
    var c := w.db.cirs[n];
    PassOnIds(w, n, s.replies, s.delivery);
    ReleaseCalls(c, w.db.pools[c.spec.poolRef], s.replies, w.clock, w.cfg.terms[c.spec.poolRef].fallback);
  }

  lemma {:induction false} LossStays(w: World, rounds: seq<seq<Step>>, pool: string, n: string)
    requires Inv(w) && Books(w) && w.cfg.Strict() && FairRun(w, rounds, pool)
    requires IsMember(w, n, pool) && w.db.cirs[n].status.resourceId in w.dangling
    ensures !Drainable(RunRounds(w, rounds, pool), pool)
    decreases |rounds|
  {
    hide Inv, Books, DrainingRun, FairRound, Run, Stuck;
    if rounds != [] && pool in w.db.pools {
      RunInv(w, rounds[0], pool);
      RunBooks(w, rounds[0]);
      DanglingForever(w, rounds[0], n);
      RunKeeps(w, rounds[0]);
      LossStays(Run(w, rounds[0]), rounds[1..], pool, n);
    }
  }

  /** Without any premise about writes: every fair run of that many rounds ends
      drained, or with a member whose machine a strict provider took back while the
      write that says so was lost. */
  lemma {:induction false} FairRunEnds(w: World, rounds: seq<seq<Step>>, pool: string)
    requires Inv(w) && Books(w) && Guarded(w) && !w.cfg.listErrors && pool in w.cfg.terms
    requires pool in w.db.pools ==> Drains(w, pool) && Drainable(w, pool)
    requires FairRun(w, rounds, pool) && |rounds| >= PoolRank(w, pool)
    ensures IsDrained(RunRounds(w, rounds, pool), pool)
            || (w.cfg.Strict() && !LosslessRounds(w, rounds, pool) && !Drainable(RunRounds(w, rounds, pool), pool))
    decreases |rounds|
  {
    hide Inv, Books, Guarded, Drainable, DrainingRun, LosslessRun, FairRound, Run;
    if LosslessRounds(w, rounds, pool) {
      FairRunDrains(w, rounds, pool);
    } else {
      RankWhileThere(w, pool);
      var w1 := Run(w, rounds[0]);
      RunInv(w, rounds[0], pool);
      RunBooks(w, rounds[0]);
      RunGuards(w, rounds[0]);
      RunKeeps(w, rounds[0]);
      if LosslessRun(w, rounds[0], pool) {
        RoundLowers(w, rounds[0], pool);
        RunKeepsDraining(w, rounds[0], pool);
        FairRunEnds(w1, rounds[1..], pool);
      } else {
        LossyIsStrict(w, rounds[0], pool);
        var n := LossShows(w, rounds[0], pool);
        LossStays(w1, rounds[1..], pool, n);
      }
    }
  }

  lemma {:induction false} LossyIsStrict(w: World, steps: seq<Step>, pool: string)
    requires !LosslessRun(w, steps, pool)
    ensures w.cfg.Strict()
    decreases |steps|
  {
    hide Apply, GaveBack;
    ConfigStays(w, steps[0]);
    if Lossless(w, steps[0], pool) {
      LossyIsStrict(Apply(w, steps[0]), steps[1..], pool);
    }
  }

  lemma RankWhileThere(w: World, pool: string)
    requires pool in w.cfg.terms && pool in w.db.pools
    ensures PoolRank(w, pool) > 0
  {
  }

  lemma GoneWithMembers(w: World, pool: string)
    requires Guarded(w) && pool !in w.db.pools
    ensures IsDrained(w, pool)
  {
    forall n | n in w.db.cirs ensures w.db.cirs[n].spec.poolRef != pool {
      assert HasGuard(w, w.db.cirs[n].spec.poolRef);
    }
  }
}
