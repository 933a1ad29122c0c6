/** Runs of the controllers alone: from every reachable world they can bring a
    drain to where only blocked members are left, so they finish it, and every fair
    run does, exactly when no member is blocked. */
module DrainRuns {
  import opened Api
  import opened Providers
  import opened CirFsm
  import opened OfcirSystem
  import opened Lifecycle
  import opened Drain
  import opened Dangling
  import opened FairDrain
  import opened Ledger
  import PoolGuard

  // -------------------------------------------------------- a fresh machine

  lemma {:induction false} IdsAreShort(ids: set<ResourceId>) returns (bound: nat)
    ensures forall id :: id in ids && id.Named? ==> |id.text| < bound
    decreases |ids|
  {
    if ids == {} {
      bound := 0;
    } else {
      var id :| id in ids;
      bound := IdsAreShort(ids - {id});
      if id.Named? && |id.text| >= bound {
        bound := |id.text| + 1;
      }
    }
  }

  /** There is always a machine that was never handed out. */
  lemma FreshMachine(ids: set<ResourceId>) returns (id: ResourceId)
    ensures IsMachine(id) && id !in ids
  {
    var bound := IdsAreShort(ids);
    var text := seq(bound + 1, i => 'x');
    assert text[0] == 'x' && FALLBACK_ID[0] == '0';
    id := ResourceId.Named(text);
  }

  // ---------------------------------------------------- the controllers' own

  /** Everything the provider is asked works, and an acquire yields `id`. */
  function GoodReplies(id: ResourceId): Replies {
    Replies(true, Ok(Resource(id, "", "")), Ok(Completion(true, Resource(id, "", ""))), Ok(()), Ok(true), Ok(()))
  }

  /** A run of the controllers' own steps while the pool drains. */
  ghost predicate OwnRun(w: World, steps: seq<Step>, pool: string)
    decreases |steps|
  {
    steps == []
    || (Drains(w, pool) && Legal(w, steps[0]) && ControllerStep(w, steps[0]) && Lossless(w, steps[0], pool)
        && OwnRun(Apply(w, steps[0]), steps[1..], pool))
  }

  lemma {:induction false} OwnRunDrains(w: World, steps: seq<Step>, pool: string)
    requires OwnRun(w, steps, pool)
    ensures ControllerRun(w, steps) && DrainingRun(w, steps, pool) && LosslessRun(w, steps, pool)
    ensures LegalRun(w, steps)
    decreases |steps|
  {
    hide Apply, Legal, Drains, Lossless;
    if steps != [] {
      OwnRunDrains(Apply(w, steps[0]), steps[1..], pool);
    }
  }

  lemma OwnRunOne(w: World, s: Step, pool: string)
    requires Drains(w, pool) && Legal(w, s) && ControllerStep(w, s) && Lossless(w, s, pool)
    ensures OwnRun(w, [s], pool) && Run(w, [s]) == Apply(w, s)
  {
    hide Apply, Legal, Drains, ControllerStep, Lossless;
    assert [s][1..] == [];
    assert OwnRun(Apply(w, s), [], pool) && Run(Apply(w, s), []) == Apply(w, s);
  }

  lemma {:induction false} OwnRunCat(w: World, xs: seq<Step>, ys: seq<Step>, pool: string)
    requires OwnRun(w, xs, pool) && OwnRun(Run(w, xs), ys, pool)
    ensures OwnRun(w, xs + ys, pool) && Run(w, xs + ys) == Run(Run(w, xs), ys)
    decreases |xs|
  {
    hide Apply, Legal, Drains, ControllerStep, Lossless;
    if xs == [] {
      assert xs + ys == ys;
    } else {
      assert (xs + ys)[0] == xs[0] && (xs + ys)[1..] == xs[1..] + ys;
      OwnRunCat(Apply(w, xs[0]), xs[1..], ys, pool);
    }
  }

  // ------------------------------------------------------- doing every duty

  /** `steps` are the controllers' own and the last of them does a duty. */
  ghost predicate Advances(w: World, steps: seq<Step>, pool: string) {
    && OwnRun(w, steps, pool) && Inv(Run(w, steps)) && Books(Run(w, steps))
    && Falls(w, Run(w, steps), pool)
  }

  lemma DutyKeepsPools(w: World, s: Step, duty: Duty, pool: string)
    requires Fulfils(w, s, duty, pool) && !duty.Drop?
    ensures Apply(w, s).db.pools == w.db.pools && Apply(w, s).cfg == w.cfg
  {
    hide Apply;
    OthersKeepPools(w, s);
  }

  /** A duty that is done by the controllers themselves advances the drain. */
  lemma DutyAdvances(w: World, w1: World, before: seq<Step>, s: Step, duty: Duty, pool: string)
    requires Inv(w) && Books(w) && Drains(w, pool) && OwnRun(w, before, pool) && w1 == Run(w, before)
    requires Inv(w1) && w1.db == w.db && w1.cfg == w.cfg && w1.dangling == w.dangling && !StalePass(w1, pool)
    requires Legal(w1, s) && ControllerStep(w1, s) && Lossless(w1, s, pool)
    requires Owed(w, duty, pool) && Fulfils(w1, s, duty, pool)
    ensures Advances(w, before + [s], pool)
    ensures !duty.Drop? ==> Drains(Run(w, before + [s]), pool)
  {
    hide Inv, Books, Legal, ControllerStep, Lossless, Apply, Fulfils, PoolRank, MemberContents;
    RankUnmoved(w, w1, pool);
    if !duty.Drop? {
      DutyKeepsPools(w1, s, duty, pool);
      StepKeepsDraining(w1, s, pool);
    }
    OwnRunDrains(w, before, pool);
    RunBooks(w, before);
    StepBooks(w1, s);
    StepKeeps(w1, s);
    DutyLowers(w1, s, duty, pool);
    OwnRunOne(w1, s, pool);
    OwnRunCat(w, before, [s], pool);
  }

  /** Until it holds a lease no longer than `timeout`, more time must pass. */
  function Patience(c: Cir, timeout: Time, now: Time): nat {
    if Held(c, now) > timeout then 0 else timeout + 1 - Held(c, now)
  }

  lemma PatienceSuffices(c: Cir, p: Pool, now: Time)
    requires c.status.state != StateNone ==> c.status.lastUpdated.Some?
    ensures LeaseOver(c, p, now + Patience(c, p.spec.timeout, now))
  {
  }

  lemma GoodIsHonest(w: World, c: Cir, p: Pool, id: ResourceId)
    requires IsMachine(id) && id !in w.held && id !in w.issued
    requires w.cfg.Strict() && ReleasesNow(w, c, p, id) ==> c.status.resourceId in w.held
    requires forall k :: k in Handle(c, p, GoodReplies(id), w.clock).calls && k.Release? ==> k.id == c.status.resourceId
    ensures HonestReplies(w, c, p, GoodReplies(id))
  {
  }

  predicate ReleasesNow(w: World, c: Cir, p: Pool, id: ResourceId) {
    var calls := Handle(c, p, GoodReplies(id), w.clock).calls;
    calls != [] && calls[0].Release?
  }

  /** A machine that a member gives back is still handed out to it, unless the
      member is blocked. */
  lemma GoodPassIsLegal(w: World, n: string, id: ResourceId)
    requires Inv(w) && Books(w) && HasPool(w, n) && !Blocked(w, w.db.cirs[n])
    requires IsMachine(id) && id !in w.held && id !in w.issued
    ensures Legal(w, Reconcile(n, GoodReplies(id), Delivered))
  {
    hide Inv, Kept, Owing, Handle, Stuck, Shaped;
    var c := w.db.cirs[n];
    var p := w.db.pools[c.spec.poolRef];
    PassOnIds(w, n, GoodReplies(id), Delivered);
    ReleaseCalls(c, p, GoodReplies(id), w.clock, w.cfg.terms[c.spec.poolRef].fallback);
    OneCall(c, p, GoodReplies(id), w.clock);
    if w.cfg.Strict() && ReleasesNow(w, c, p, id) {
      HeldUnlessDangling(w, n);
    }
    GoodIsHonest(w, c, p, id);
  }

  lemma OneCall(c: Cir, p: Pool, r: Replies, now: Time)
    ensures |Handle(c, p, r, now).calls| <= 1
  {
    LookupsSucceed(c, p, r, now);
  }

  lemma ServeAdvances(w: World, n: string, pool: string) returns (steps: seq<Step>)
    requires Inv(w) && Books(w) && Drains(w, pool) && Owed(w, Serve(n), pool)
    ensures Advances(w, steps, pool) && Drains(Run(w, steps), pool)
  {
    hide Inv, Books, Handle, OwnRun, LeaseOver, Parked, Stuck, Advances;
    var c := w.db.cirs[n];
    var p := w.db.pools[pool];
    MemberIsShaped(w, n);
    var id := FreshMachine(w.held + w.issued);
    var tick := Tick(Patience(c, p.spec.timeout, w.clock));
    var w1 := Apply(w, tick);
    StepKeeps(w, tick);
    StepBooks(w, tick);
    OwnRunOne(w, tick, pool);
    PatienceSuffices(c, p, w.clock);
    GoodPassIsLegal(w1, n, id);
    var pass := Reconcile(n, GoodReplies(id), Delivered);
    DutyAdvances(w, w1, [tick], pass, Serve(n), pool);
    steps := [tick] + [pass];
  }

  lemma MarkAdvances(w: World, n: string, pool: string) returns (steps: seq<Step>)
    requires Inv(w) && Books(w) && Drains(w, pool) && Owed(w, Mark(n), pool)
    ensures Advances(w, steps, pool) && Drains(Run(w, steps), pool)
  {
    hide Inv, Books, Parked, Advances;
    assert OwnRun(w, [], pool) && Run(w, []) == w;
    DutyAdvances(w, w, [], Delete(n), Mark(n), pool);
    steps := [] + [Delete(n)];
  }

  /** A pass of the pool controller up to its list: nothing stored has changed. */
  lemma PassToList(w: World, pool: string) returns (steps: seq<Step>)
    requires Inv(w) && Drains(w, pool)
    ensures OwnRun(w, steps, pool)
    ensures var w' := Run(w, steps);
            && Inv(w') && w'.db == w.db && w'.cfg == w.cfg && w'.clock == w.clock && w'.dangling == w.dangling
            && w'.pass == Listed(w.db.pools[pool], MemberNames(w.db, pool))
            && (forall n :: n in w.db.cirs ==> w.db.cirs[n] in w'.snapshots)
  {
    hide Inv, OwnRun, Run;
    PoolNameFits(w, pool);
    var w1 := Apply(w, PassEnd);
    var w2 := Apply(w1, Read);
    var w3 := Apply(w2, PassGet(pool));
    StepKeeps(w, PassEnd);
    StepKeeps(w1, Read);
    StepKeeps(w2, PassGet(pool));
    StepKeeps(w3, PassList(true));
    OwnRunOne(w, PassEnd, pool);
    OwnRunOne(w1, Read, pool);
    OwnRunOne(w2, PassGet(pool), pool);
    OwnRunOne(w3, PassList(true), pool);
    OwnRunCat(w, [PassEnd], [Read], pool);
    OwnRunCat(w, [PassEnd] + [Read], [PassGet(pool)], pool);
    OwnRunCat(w, [PassEnd] + [Read] + [PassGet(pool)], [PassList(true)], pool);
    steps := [PassEnd] + [Read] + [PassGet(pool)] + [PassList(true)];
  }

  lemma LabelAdvances(w: World, n: string, pool: string) returns (steps: seq<Step>)
    requires Inv(w) && Books(w) && Drains(w, pool) && Owed(w, Label(n), pool)
    ensures Advances(w, steps, pool) && Drains(Run(w, steps), pool)
  {
    hide Inv, Books, Parked, OwnRun, Advances;
    NameFits(w, n);
    PoolNameFits(w, pool);
    var toList := PassToList(w, pool);
    var s := PassLabel(w.db.cirs[n], Delivered);
    DutyAdvances(w, Run(w, toList), toList, s, Label(n), pool);
    steps := toList + [s];
  }

  lemma DropAdvances(w: World, pool: string) returns (steps: seq<Step>)
    requires Inv(w) && Books(w) && Drains(w, pool) && Owed(w, Drop, pool)
    ensures Advances(w, steps, pool) && IsDrained(Run(w, steps), pool)
  {
    hide Inv, Books, OwnRun;
    PoolNameFits(w, pool);
    var toList := PassToList(w, pool);
    var w1 := Run(w, toList);
    var s := PassDropFinalizer(Delivered);
    DutyAdvances(w, w1, toList, s, Drop, pool);
    DroppedLowers(w1, s, pool);
    OwnRunOne(w1, s, pool);
    OwnRunCat(w, toList, [s], pool);
    steps := toList + [s];
    assert MemberNames(Apply(w1, s).db, pool) == {};
  }

  // ----------------------------------------------------------------- the end

  /** All that is left, if anything, is blocked. */
  ghost predicate IsSettled(w: World, pool: string) {
    || IsDrained(w, pool)
    || (pool in w.db.pools && MemberNames(w.db, pool) != {}
        && forall n :: IsMember(w, n, pool) ==> Blocked(w, w.db.cirs[n]))
  }

  /** From every world the controllers can go on until nothing is owed. */
  lemma {:induction false} ControllersSettle(w: World, pool: string) returns (steps: seq<Step>)
    requires Inv(w) && Books(w) && Drains(w, pool)
    ensures OwnRun(w, steps, pool) && IsSettled(Run(w, steps), pool)
    decreases PoolRank(w, pool)
  {
    hide Inv, Books, PoolRank, Blocked, Parked, OwnRun, Run;
    if MemberNames(w.db, pool) == {} {
      steps := DropAdvances(w, pool);
    } else if n :| IsMember(w, n, pool) && !Blocked(w, w.db.cirs[n]) {
      var first: seq<Step>;
      if !Parked(w.db.cirs[n]) {
        first := ServeAdvances(w, n, pool);
      } else if w.db.cirs[n].meta.evicted {
        first := MarkAdvances(w, n, pool);
      } else {
        first := LabelAdvances(w, n, pool);
      }
      var w1 := Run(w, first);
      var rest := ControllersSettle(w1, pool);
      OwnRunCat(w, first, rest, pool);
      steps := first + rest;
    } else {
      steps := [];
      EmptyOwnRun(w, pool);
    }
  }

  lemma EmptyOwnRun(w: World, pool: string)
    ensures OwnRun(w, [], pool) && Run(w, []) == w
  {
  }

  lemma BlockedStays(w: World, steps: seq<Step>, n: string, pool: string)
    requires Inv(w) && Books(w) && ControllerRun(w, steps) && IsMember(w, n, pool) && Blocked(w, w.db.cirs[n])
    ensures !IsDrained(Run(w, steps), pool)
  {
    hide Inv, Books, Stuck;
    if Stuck(w.db.cirs[n]) {
      StuckForever(w, steps, n);
    } else {
      ControllerRunIsLegal(w, steps);
      DanglingForever(w, steps, n);
    }
    assert n in MemberNames(Run(w, steps).db, pool);
  }

  lemma {:induction false} ControllerRunIsLegal(w: World, steps: seq<Step>)
    requires ControllerRun(w, steps)
    ensures LegalRun(w, steps)
    decreases |steps|
  {
    hide Apply, Legal, ControllerStep;
    if steps != [] {
      ControllerRunIsLegal(Apply(w, steps[0]), steps[1..]);
    }
  }

  ghost predicate CanDrain(w: World, pool: string) {
    exists steps :: ControllerRun(w, steps) && IsDrained(Run(w, steps), pool)
  }

  /** What every reached world is like. */
  lemma ReachedIsSound(w0: World, run: seq<Step>, w: World)
    requires Initial(w0) && LegalRun(w0, run) && w == Run(w0, run)
    ensures Inv(w) && Books(w) && w.cfg == w0.cfg
    ensures !w0.cfg.listErrors ==> PoolGuard.Guarded(w)
  {
    hide Inv, Books, Apply, Legal, LegalRun, Initial, PoolGuard.Guarded;
    InitialInv(w0);
    InitialBooks(w0);
    PoolGuard.InitialGuarded(w0);
    RunKeeps(w0, run);
    RunBooks(w0, run);
    if !w0.cfg.listErrors {
      PoolGuard.RunGuards(w0, run);
    }
  }

  /** The controllers first end the pass that is under way. */
  lemma EndedPassDrains(w: World, pool: string)
    requires Inv(w) && Books(w) && IsMarked(w, pool)
    ensures var w1 := Apply(w, PassEnd);
            && Inv(w1) && Books(w1) && Drains(w1, pool) && (Drainable(w, pool) ==> Drainable(w1, pool))
            && Legal(w, PassEnd) && ControllerStep(w, PassEnd)
  {
    hide Inv, Books, Stuck;
    StepKeeps(w, PassEnd);
    StepBooks(w, PassEnd);
  }

  /** From every reachable world: the two controllers can bring a pool that is
      being deleted to its end, with all its members gone first, if and only if
      none of them is blocked. One that is in use while its Spec asks for something
      other than use or release waits for a release or for another edit; one whose
      machine a strict provider took back, but whose write was lost, waits for ever. */
  lemma DrainsIffNothingBlocked(w0: World, run: seq<Step>, pool: string)
    requires Initial(w0) && LegalRun(w0, run)
    requires IsMarked(Run(w0, run), pool)
    ensures CanDrain(Run(w0, run), pool) <==> Drainable(Run(w0, run), pool)
  {
    hide Inv, Books, Blocked, Apply, Legal, ControllerStep, LegalRun, Initial, OwnRun, IsMarked;
    var w := Run(w0, run);
    ReachedIsSound(w0, run, w);
    if Drainable(w, pool) {
      EndedPassDrains(w, pool);
      var w1 := Apply(w, PassEnd);
      var steps := ControllersSettle(w1, pool);
      OwnRunDrains(w1, steps, pool);
      RunKeepsDraining(w1, steps, pool);
      SettledIsDrained(Run(w1, steps), pool);
      var all := [PassEnd] + steps;
      assert all[0] == PassEnd && all[1..] == steps;
      assert ControllerRun(w, all) && IsDrained(Run(w, all), pool);
    } else {
      var n :| n in w.db.cirs && w.db.cirs[n].spec.poolRef == pool && Blocked(w, w.db.cirs[n]);
      forall steps | ControllerRun(w, steps) ensures !IsDrained(Run(w, steps), pool) {
        BlockedStays(w, steps, n, pool);
      }
    }
  }

  lemma SettledIsDrained(w: World, pool: string)
    requires IsSettled(w, pool) && Drainable(w, pool)
    ensures IsDrained(w, pool)
  {
    hide Blocked;
    if n :| n in MemberNames(w.db, pool) {
      assert IsMember(w, n, pool);
    }
  }

  // --------------------------------------------------------- every fair run

  /** Every fair run with as many rounds as the pool's rank, and in which what is
      given back to a strict provider is recorded, ends drained. */
  ghost predicate EveryFairRunDrains(w: World, pool: string)
    requires pool in w.cfg.terms
  {
    forall rounds :: FairRun(w, rounds, pool) && LosslessRounds(w, rounds, pool) && |rounds| >= PoolRank(w, pool) ==>
                       IsDrained(RunRounds(w, rounds, pool), pool)
  }

  lemma {:induction false} IdleRounds(w: World, k: nat, pool: string)
    requires forall duty :: !Owed(w, duty, pool)
    ensures FairRun(w, Empties(k), pool) && LosslessRounds(w, Empties(k), pool)
    ensures RunRounds(w, Empties(k), pool) == w
    decreases k
  {
    hide Owed;
    if k > 0 {
      assert Empties(k)[0] == [] && Empties(k)[1..] == Empties(k - 1);
      NothingOwedIsFair(w, [], pool);
      assert Run(w, []) == w && DrainingRun(w, [], pool) && LosslessRun(w, [], pool);
      IdleRounds(w, k - 1, pool);
    }
  }

  function Empties(k: nat): seq<seq<Step>> {
    seq(k, i => [])
  }

  lemma NothingOwedIsFair(w: World, steps: seq<Step>, pool: string)
    requires forall duty :: !Owed(Run(w, steps), duty, pool)
    ensures FairRound(w, steps, pool)
  {
    hide Owed, Run;
    assert steps[..|steps|] == steps;
    forall duty ensures !OwedThroughout(w, steps, duty, pool) {
      assert !Owed(Run(w, steps[..|steps|]), duty, pool);
    }
  }

  lemma NothingOwedToBlocked(w: World, pool: string)
    requires Books(w) && IsSettled(w, pool)
    ensures forall duty :: !Owed(w, duty, pool)
  {
    forall duty ensures !Owed(w, duty, pool) {
      if !duty.Drop? && IsMember(w, duty.name, pool) && pool in w.db.pools {
        assert Blocked(w, w.db.cirs[duty.name]);
        BlockedIsNotParked(w, duty.name);
      }
    }
  }

  lemma BlockedIsNotParked(w: World, n: string)
    requires Books(w) && n in w.db.cirs && Blocked(w, w.db.cirs[n])
    ensures !Parked(w.db.cirs[n])
  {
    hide Kept;
    if !Stuck(w.db.cirs[n]) {
      assert OwesRelease(w, n);
    }
  }

  /** There are fair runs of any length from every world: the controllers go on
      until nothing is owed, and then nothing need be done. */
  lemma FairRunExists(w: World, k: nat, pool: string) returns (rounds: seq<seq<Step>>)
    requires Inv(w) && Books(w) && Drains(w, pool)
    ensures FairRun(w, rounds, pool) && LosslessRounds(w, rounds, pool) && |rounds| > k
    ensures exists steps :: ControllerRun(w, steps) && RunRounds(w, rounds, pool) == Run(w, steps)
  {
    hide Inv, Books, OwnRun, IsSettled, Owed, Run;
    var steps := ControllersSettle(w, pool);
    var w1 := Run(w, steps);
    OwnRunDrains(w, steps, pool);
    RunBooks(w, steps);
    NothingOwedToBlocked(w1, pool);
    NothingOwedIsFair(w, steps, pool);
    IdleRounds(w1, k, pool);
    rounds := [steps] + Empties(k);
    assert rounds[0] == steps && rounds[1..] == Empties(k);
  }

  /** The drain ends under fairness if and only if nothing is blocked: from every
      reachable world whose lists work, every fair run of the whole system that
      goes on for as many rounds as the pool's rank has the members and then the
      pool gone, exactly when no member is blocked. */
  lemma FairRunsDrainIffNothingBlocked(w0: World, run: seq<Step>, pool: string)
    requires Initial(w0) && LegalRun(w0, run) && !w0.cfg.listErrors
    requires Drains(Run(w0, run), pool)
    ensures EveryFairRunDrains(Run(w0, run), pool) <==> Drainable(Run(w0, run), pool)
  {
    hide Inv, Books, Blocked, Apply, Legal, LegalRun, Initial, FairRun, LosslessRounds, RunRounds, PoolRank,
         PoolGuard.Guarded;
    var w := Run(w0, run);
    ReachedIsSound(w0, run, w);
    if Drainable(w, pool) {
      forall rounds | FairRun(w, rounds, pool) && LosslessRounds(w, rounds, pool) && |rounds| >= PoolRank(w, pool)
        ensures IsDrained(RunRounds(w, rounds, pool), pool)
      {
        FairRunDrains(w, rounds, pool);
      }
    } else {
      var n :| n in w.db.cirs && w.db.cirs[n].spec.poolRef == pool && Blocked(w, w.db.cirs[n]);
      var rounds := FairRunExists(w, PoolRank(w, pool), pool);
      var steps :| ControllerRun(w, steps) && RunRounds(w, rounds, pool) == Run(w, steps);
      BlockedStays(w, steps, n, pool);
    }
  }
}
