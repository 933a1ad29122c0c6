/** No CIResource outlives its pool, over all interleavings of the controllers,
    as long as the pool controller's List does not fail. */
module PoolGuard {
  import opened Api
  import opened Providers
  import opened CirFsm
  import opened CirController
  import opened Requests
  import opened Histories
  import opened OfcirSystem
  import opened Lifecycle

  ghost predicate HasGuard(w: World, pool: string) {
    pool in w.db.pools && w.db.pools[pool].finalizer
  }

  /** Every member's pool is there and protected. A pass that may create finds
      its pool protected, and a pass that may drop the protection has listed
      every member there still is. */
  ghost predicate Guarded(w: World) {
    && (forall n :: n in w.db.cirs ==> HasGuard(w, w.db.cirs[n].spec.poolRef))
    && (!w.pass.Idle? && !w.pass.pool.deleting && w.pass.pool.finalizer ==> HasGuard(w, w.pass.pool.name))
    && (w.pass.Listed? && w.pass.pool.deleting ==>
          forall n :: n in w.db.cirs && w.db.cirs[n].spec.poolRef == w.pass.pool.name ==> n in w.pass.members)
  }

  /** A step that keeps pools and pass and adds no member keeps the guard. */
  lemma NoNewMembers(w: World, w': World)
    requires Guarded(w) && w'.db.pools == w.db.pools && w'.pass == w.pass
    requires forall n :: n in w'.db.cirs ==> n in w.db.cirs && w'.db.cirs[n].spec.poolRef == w.db.cirs[n].spec.poolRef
    ensures Guarded(w')
  {
    forall n | n in w'.db.cirs ensures HasGuard(w', w'.db.cirs[n].spec.poolRef) {
      assert HasGuard(w, w.db.cirs[n].spec.poolRef);
    }
  }

  lemma CommitGuards(w: World, c: Cir, es: seq<Event>)
    requires Guarded(w) && c.meta.name in w.db.cirs && c.spec.poolRef == w.db.cirs[c.meta.name].spec.poolRef
    ensures Guarded(Commit(w, c, es))
  {
    hide Guarded;
    NoNewMembers(w, Commit(w, c, es));
  }

  lemma ReconcileGuards(w: World, name: string, r: Replies, d: Delivery)
    requires Inv(w) && Guarded(w) && HasPool(w, name)
    ensures Guarded(ReconcileStep(w, name, r, d))
  {
    hide Guarded, Sound, Flags, CirOk, LifeOk, SnapOk, PoolOk, Handle, Persisted, CallEvents, WriteEvents;
    var c := w.db.cirs[name];
    NameFits(w, name);
    PassEvents(c, w.db.pools[c.spec.poolRef], r, w.clock);
    NoNewMembers(w, ReconcileStep(w, name, r, d));
  }

  lemma CreateGuards(w: World, name: string, d: Delivery)
    requires Guarded(w)
    ensures Guarded(PassCreateStep(w, name, d))
  {
    var w' := PassCreateStep(w, name, d);
    forall n | n in w'.db.cirs ensures HasGuard(w', w'.db.cirs[n].spec.poolRef) {
      if n in w.db.cirs {
        assert HasGuard(w, w.db.cirs[n].spec.poolRef);
      }
    }
  }

  /** The protection goes only when the pass has seen that no member is left. */
  lemma DropGuards(w: World, d: Delivery)
    requires Inv(w) && Guarded(w)
    ensures Guarded(PassDropFinalizerStep(w, d))
  {
    hide Inv;
    var w' := PassDropFinalizerStep(w, d);
    if !w.pass.Idle? && w.pass.pool.name in w.db.pools {
      PoolNameFits(w, w.pass.pool.name);
    }
    forall n | n in w'.db.cirs ensures HasGuard(w', w'.db.cirs[n].spec.poolRef) {
      assert HasGuard(w, w.db.cirs[n].spec.poolRef);
      assert w' != w ==> w.db.cirs[n].spec.poolRef != w.pass.pool.name;
    }
  }

  lemma PoolStepGuards(w: World, s: Step)
    requires Inv(w) && Guarded(w) && Legal(w, s) && !w.cfg.listErrors
    requires OnlyPoolsOrReads(s) && !s.PassDropFinalizer?
    ensures Guarded(Apply(w, s))
  {
    hide CirOk, LifeOk, SnapOk, ReconcileStep, PassCreateStep, Swap;
    var w' := Apply(w, s);
    PoolStepFrame(w, s);
    forall p | HasGuard(w, p) ensures HasGuard(w', p) {
      GuardStays(w, s, p);
    }
    if s.PassGet? && s.name in w.db.pools {
      assert PoolOk(w, s.name);
    }
    forall n | n in w'.db.cirs ensures HasGuard(w', w'.db.cirs[n].spec.poolRef) {
      assert HasGuard(w, w.db.cirs[n].spec.poolRef);
    }
  }

  lemma GuardStays(w: World, s: Step, p: string)
    requires Inv(w) && OnlyPoolsOrReads(s) && !s.PassDropFinalizer? && HasGuard(w, p)
    ensures HasGuard(Apply(w, s), p)
  {
    hide CirOk, LifeOk, SnapOk, ReconcileStep, PassCreateStep, Swap, PoolFits;
    assert PoolOk(w, p);
    if s.EditPool? && s.name in w.db.pools {
      assert PoolOk(w, s.name);
    }
  }

  lemma StepGuards(w: World, s: Step)
    requires Inv(w) && Guarded(w) && Legal(w, s) && !w.cfg.listErrors
    ensures Guarded(Apply(w, s))
  {
    hide Guarded, Commit, ReconcileStep, PassCreateStep, CirOk, LifeOk, PoolOk, SnapOk, PassDropFinalizerStep;
    match s
    case AcquireWrite(snap, d) =>
      if snap in w.snapshots && d.Arrives() && IsCurrent(w.db, snap) && CanAcquire(snap) {
        AcceptedMeansUnchanged(w, snap);
        CommitGuards(w, MergeMain(snap, Acquiring(snap)), if d.Delivered? then [Granted(w.clock)] else []);
      }
    case ReleaseWrite(snap, d) =>
      if snap in w.snapshots && d.Arrives() && IsCurrent(w.db, snap) && CanRelease(snap) {
        AcceptedMeansUnchanged(w, snap);
        CommitGuards(w, MergeMain(snap, Releasing(snap)), [Freed(w.clock)]);
      }
    case PassLabel(snap, d) =>
      if snap in w.snapshots && d.Arrives() && IsCurrent(w.db, snap) && CanEvict(snap) {
        AcceptedMeansUnchanged(w, snap);
        CommitGuards(w, MergeMain(snap, Evicting(snap)), []);
      }
    case EditSpec(name, state) =>
      if name in w.db.cirs {
        NameFits(w, name);
        CommitGuards(w, WithSpecState(w.db.cirs[name], state), []);
      }
    case Delete(name) =>
      if name in w.db.cirs {
        var c := w.db.cirs[name];
        NameFits(w, name);
        CommitGuards(w, c.(meta := c.meta.(deleting := true)), []);
      }
    case Reconcile(name, r, d) =>
      if HasPool(w, name) {
        ReconcileGuards(w, name, r, d);
      } else {
        WithoutPool(w, name, r, d);
      }
    case PassCreate(name, d) => CreateGuards(w, name, d);
    case PassDropFinalizer(d) => DropGuards(w, d);
    case _ => PoolStepGuards(w, s);
  }

  lemma {:induction false} RunGuards(w: World, steps: seq<Step>)
    requires Inv(w) && Guarded(w) && LegalRun(w, steps) && !w.cfg.listErrors
    ensures Guarded(Run(w, steps))
    decreases |steps|
  {
    hide Inv, Guarded, Apply, Legal;
    if steps != [] {
      StepKeeps(w, steps[0]);
      StepGuards(w, steps[0]);
      ConfigStays(w, steps[0]);
      RunGuards(Apply(w, steps[0]), steps[1..]);
    }
  }

  /** In every run in which List does not fail, every CIResource names a pool
      that exists and is protected; so no reconcile of it finds its pool gone. */
  lemma NoCirOutlivesItsPool(w: World, steps: seq<Step>)
    requires Initial(w) && LegalRun(w, steps) && !w.cfg.listErrors
    ensures var w' := Run(w, steps);
            forall n :: n in w'.db.cirs ==> HasPool(w', n) && w'.db.pools[w'.db.cirs[n].spec.poolRef].finalizer
  {
    InitialInv(w);
    RunGuards(w, steps);
    var w' := Run(w, steps);
    forall n | n in w'.db.cirs ensures HasPool(w', n) {
      assert HasGuard(w', w'.db.cirs[n].spec.poolRef);
    }
  }

  /** The premise is needed: the drain branch goes on after a failed List, and
      then any pool that is being deleted can go while it still has members. */
  lemma FailedListOrphans(w: World, pool: string, n: string) returns (steps: seq<Step>)
    requires Inv(w) && w.cfg.listErrors && w.pass.Idle? && pool in w.db.pools && w.db.pools[pool].deleting
    requires n in w.db.cirs && w.db.cirs[n].spec.poolRef == pool
    ensures LegalRun(w, steps) && n in Run(w, steps).db.cirs && !HasPool(Run(w, steps), n)
  {
    hide CirOk, LifeOk, SnapOk, PoolFits;
    assert PoolOk(w, pool);
    var p := w.db.pools[pool];
    var w1 := w.(pass := Got(p));
    var w2 := w1.(pass := Listed(p, {}));
    var w3 := Apply(w2, PassDropFinalizer(Delivered));
    var rest := [PassList(false), PassDropFinalizer(Delivered)];
    steps := [PassGet(pool)] + rest;
    assert Apply(w, steps[0]) == w1 && steps[1..] == rest;
    assert Apply(w1, rest[0]) == w2 && rest[1..] == [PassDropFinalizer(Delivered)];
    assert [PassDropFinalizer(Delivered)][1..] == [];
    assert Run(w2, [PassDropFinalizer(Delivered)]) == Run(w3, []) == w3;
    assert LegalRun(w2, [PassDropFinalizer(Delivered)]);
    assert Run(w1, rest) == w3 && LegalRun(w1, rest);
  }

  /** Some legal run leaves the object behind without its pool. */
  ghost predicate CanOrphan(w: World, n: string) {
    exists steps :: LegalRun(w, steps) && n in Run(w, steps).db.cirs && !HasPool(Run(w, steps), n)
  }

  /** From every reachable world with no pass under way, a member of a pool that
      is being deleted can be orphaned if and only if a List may fail. */
  lemma OrphansIffListsFail(w0: World, run: seq<Step>, w: World, pool: string, n: string)
    requires Initial(w0) && LegalRun(w0, run) && w == Run(w0, run)
    requires w.pass.Idle? && pool in w.db.pools && w.db.pools[pool].deleting
    requires n in w.db.cirs && w.db.cirs[n].spec.poolRef == pool
    ensures CanOrphan(w, n) <==> w.cfg.listErrors
  {
    hide Inv, Guarded, Initial, Legal, Apply;
    InitialInv(w0);
    RunKeeps(w0, run);
    if w.cfg.listErrors {
      var steps := FailedListOrphans(w, pool, n);
    } else {
      InitialGuarded(w0);
      RunGuards(w0, run);
      forall steps | LegalRun(w, steps) && n in Run(w, steps).db.cirs ensures HasPool(Run(w, steps), n) {
        RunGuards(w, steps);
        GuardedHasPool(Run(w, steps), n);
      }
    }
  }

  lemma InitialGuarded(w: World)
    requires Initial(w)
    ensures Guarded(w)
  {
  }

  lemma GuardedHasPool(w: World, n: string)
    requires Guarded(w) && n in w.db.cirs
    ensures HasPool(w, n)
  {
    assert HasGuard(w, w.db.cirs[n].spec.poolRef);
  }
}
