/** Objects whose machine was given back by a Release whose write was lost. With
    a strict provider every later Release of it fails, so they stay for ever. */
module Dangling {
  import opened Api
  import opened Providers
  import opened CirFsm
  import opened CirController
  import opened Requests
  import opened Histories
  import opened OfcirSystem
  import opened Lifecycle
  import opened Ledger
  import opened Drain

  /** In these states a pass gives the machine back. */
  predicate Releases(c: Cir, fallback: bool) {
    c.status.state == StateDelete || (c.status.state == StateCleaning && fallback)
  }

  ghost predicate Owing(w: World) {
    forall n :: n in w.db.cirs && w.db.cirs[n].status.resourceId in w.dangling ==> OwesRelease(w, n)
  }

  predicate OwesRelease(w: World, n: string)
    requires n in w.db.cirs
  {
    var c := w.db.cirs[n];
    IsMachine(c.status.resourceId) && c.spec.poolRef in w.cfg.terms && Releases(c, w.cfg.terms[c.spec.poolRef].fallback)
  }

  /** With a provider that never reissues an id, the account balances and
      everything that dangles is still to be released by its object. */
  ghost predicate Books(w: World) {
    !w.cfg.reissues ==> Kept(w) && Owing(w)
  }

  // ------------------------------------------------------------- one pass

  lemma ReleaseCalls(c: Cir, p: Pool, r: Replies, now: Time, fallback: bool)
    requires Shaped(c, fallback) && p.IsFallback() == fallback
    ensures var calls := Handle(c, p, r, now).calls;
            calls != [] && calls[0].Release? ==>
              calls[0].id == c.status.resourceId && IsMachine(c.status.resourceId) && Releases(c, fallback)
  {
  }

  /** In such a state nothing is written before the machine is given back. */
  lemma WritesOnlyWhenReturned(c: Cir, p: Pool, r: Replies, now: Time, fallback: bool)
    requires Releases(c, fallback) && p.IsFallback() == fallback && IsMachine(c.status.resourceId)
    ensures var v := Handle(c, p, r, now);
            Writes(v) ==> v.calls == [Call.Release(c.status.resourceId)] && ReleaseDone(r.release)
  {
  }

  // ------------------------------------------------------------ the account

  lemma HeldUnlessDangling(w: World, n: string)
    requires Kept(w) && n in w.db.cirs && IsMachine(w.db.cirs[n].status.resourceId)
    ensures w.db.cirs[n].status.resourceId in w.held <==> w.db.cirs[n].status.resourceId !in w.dangling
  {
    var a := AccountOf(w);
    var id := w.db.cirs[n].status.resourceId;
    assert a.ids[n] == id && Ledger.Named(a, id);
  }

  lemma OnlyOneNames(w: World, m: string, n: string)
    requires Kept(w) && m in w.db.cirs && n in w.db.cirs
    requires IsMachine(w.db.cirs[m].status.resourceId)
    requires w.db.cirs[m].status.resourceId == w.db.cirs[n].status.resourceId
    ensures m == n
  {
    var a := AccountOf(w);
    assert m in a.ids && n in a.ids;
  }

  lemma DanglingIsKnown(w: World, id: ResourceId)
    requires Kept(w) && id in w.dangling
    ensures IsMachine(id) && id in w.issued
  {
    var a := AccountOf(w);
    assert id in a.dangling && Ledger.Named(a, id);
  }

  // ----------------------------------------------- steps without a provider

  /** An object keeps its status, or is new. */
  predicate KeepsStatus(w: World, w': World, n: string)
    requires n in w'.db.cirs
  {
    if n in w.db.cirs then
      && w'.db.cirs[n].status == w.db.cirs[n].status
      && w'.db.cirs[n].spec.poolRef == w.db.cirs[n].spec.poolRef
    else w'.db.cirs[n].status == EMPTY_STATUS
  }

  ghost predicate KeepsMachines(w: World, w': World) {
    && (forall n :: n in w'.db.cirs ==> KeepsStatus(w, w', n))
    && (forall n :: n in w.db.cirs && IsMachine(w.db.cirs[n].status.resourceId) ==> n in w'.db.cirs)
  }

  lemma CommitKeepsMachines(w: World, c: Cir, es: seq<Event>)
    requires c.meta.name in w.db.cirs && c.status == w.db.cirs[c.meta.name].status
    requires c.spec.poolRef == w.db.cirs[c.meta.name].spec.poolRef
    requires IsMachine(c.status.resourceId) ==> c.meta.finalizer
    ensures KeepsMachines(w, Commit(w, c, es))
  {
    CommitFrame(w, c, es);
    hide Commit;
  }

  lemma SwapKeepsMachines(w: World, snap: Cir, wanted: Cir, es: seq<Event>, d: Delivery)
    requires Inv(w) && snap in w.snapshots
    requires wanted.meta == snap.meta.(evicted := wanted.meta.evicted) && wanted.spec.poolRef == snap.spec.poolRef
    ensures KeepsMachines(w, Swap(w, wanted, es, d))
  {
    hide Inv, Commit;
    if d.Arrives() && IsCurrent(w.db, wanted) {
      AcceptedMeansUnchanged(w, snap);
      IsGuarded(w, snap.meta.name);
      CommitKeepsMachines(w, MergeMain(snap, wanted), es);
    }
  }

  lemma OtherStepsKeepMachines(w: World, s: Step)
    requires Inv(w) && !s.Reconcile?
    ensures KeepsMachines(w, Apply(w, s))
  {
    hide Inv, Commit, Swap, KeepsMachines;
    match s
    case AcquireWrite(snap, d) =>
      SameKeepsMachines(w, w);
      if snap in w.snapshots && CanAcquire(snap) {
        SwapKeepsMachines(w, snap, Acquiring(snap), if d.Delivered? then [Granted(w.clock)] else [], d);
      }
    case ReleaseWrite(snap, d) =>
      SameKeepsMachines(w, w);
      if snap in w.snapshots && CanRelease(snap) {
        SwapKeepsMachines(w, snap, Releasing(snap), [Freed(w.clock)], d);
      }
    case PassLabel(snap, d) =>
      SameKeepsMachines(w, w);
      if snap in w.snapshots && CanEvict(snap) {
        SwapKeepsMachines(w, snap, Evicting(snap), [], d);
      }
    case EditSpec(name, state) =>
      SameKeepsMachines(w, w);
      if name in w.db.cirs {
        NameFits(w, name);
        IsGuarded(w, name);
        CommitKeepsMachines(w, WithSpecState(w.db.cirs[name], state), []);
      }
    case Delete(name) =>
      SameKeepsMachines(w, w);
      if name in w.db.cirs {
        NameFits(w, name);
        IsGuarded(w, name);
        var c := w.db.cirs[name];
        CommitKeepsMachines(w, c.(meta := c.meta.(deleting := true)), []);
      }
    case PassCreate(name, d) => CreateKeepsMachines(w, name, d);
    case _ =>
      PoolStepFrame(w, s);
      SameKeepsMachines(w, Apply(w, s));
  }

  lemma SameKeepsMachines(w: World, w': World)
    requires w'.db.cirs == w.db.cirs
    ensures KeepsMachines(w, w')
  {
  }

  lemma CreateKeepsMachines(w: World, name: string, d: Delivery)
    ensures KeepsMachines(w, PassCreateStep(w, name, d))
  {
  }

  // --------------------------------------------------- who dangles after a step

  /** What one pass does to the ids: the one of its object may change, and a
      machine given back without a landed write dangles. */
  lemma PassOnIds(w: World, name: string, r: Replies, d: Delivery)
    requires Inv(w) && HasPool(w, name)
    ensures var c := w.db.cirs[name];
            var p := w.db.pools[c.spec.poolRef];
            var v := Handle(c, p, r, w.clock);
            var c' := Persisted(c, v, w.clock);
            var landed := Writes(v) && d.Arrives();
            var back := ReturnedId(v.calls, r);
            var w' := ReconcileStep(w, name, r, d);
            && c.meta.name == name && c.spec.poolRef in w.cfg.terms
            && Shaped(c, w.cfg.terms[c.spec.poolRef].fallback)
            && p.IsFallback() == w.cfg.terms[c.spec.poolRef].fallback
            && c'.spec.poolRef == c.spec.poolRef
            && PassShape(c, c', Writes(v), AcquiredId(v.calls, r), back)
            && w'.cfg == w.cfg
            && w'.db.cirs == (if !landed then w.db.cirs
                              else if Vanishes(c') then w.db.cirs - {name}
                              else w.db.cirs[name := Renumbered(c', w.db.next)])
            && w'.dangling == (if landed then w.dangling - back else w.dangling + back)
  {
    hide Handle, Persisted, Sound, LifeOk, SnapOk, Flags, PassOver, Writes, AcquiredId, ReturnedId, Vanishes, PassShape,
         Shaped;
    var c := w.db.cirs[name];
    var p := w.db.pools[c.spec.poolRef];
    assert CirOk(w, name) && PoolOk(w, c.spec.poolRef);
    PoolKindFits(w, c.spec.poolRef);
    PassEvents(c, p, r, w.clock);
    PassOnAccount(c, BookFor(w, c.meta.uid), p, r, w.cfg.terms[c.spec.poolRef], w.cfg.admin, w.clock);
    MachineFacts(c, BookFor(w, c.meta.uid), w.cfg.terms[c.spec.poolRef], w.cfg.admin, w.clock);
    PassFrame(w, c, p, r, d);
    PassSets(w, c, p, r, d);
  }

  lemma MachineFacts(c: Cir, b: Book, t: Terms, admin: bool, clock: Time)
    requires Sound(c, b, t, admin, clock)
    ensures Shaped(c, t.fallback)
  {
  }

  predicate GaveBack(w: World, s: Step) {
    s.Reconcile? && HasPool(w, s.name)
    && var c := w.db.cirs[s.name];
       ReturnedId(Handle(c, w.db.pools[c.spec.poolRef], s.replies, w.clock).calls, s.replies) != {}
  }

  /** Where no id is reissued, what dangles after a step did so before, or is the
      machine that a pass has just given back without a landed write. */
  lemma WhoDangles(w: World, s: Step, n: string)
    requires Inv(w) && Kept(w) && Owing(w) && Legal(w, s) && !w.cfg.reissues
    requires n in Apply(w, s).db.cirs && Apply(w, s).db.cirs[n].status.resourceId in Apply(w, s).dangling
    ensures n in w.db.cirs && Apply(w, s).db.cirs[n].status == w.db.cirs[n].status
    ensures Apply(w, s).db.cirs[n].spec.poolRef == w.db.cirs[n].spec.poolRef
    ensures w.db.cirs[n].status.resourceId in w.dangling || (GaveBack(w, s) && s.name == n && !s.delivery.Arrives())
  {
    hide Inv, Kept, Handle, Persisted, ReconcileStep, AcquiredId, ReturnedId;
    if s.Reconcile? {
      if HasPool(w, s.name) {
        PassDangles(w, s.name, s.replies, s.delivery, n);
      } else {
        WithoutPool(w, s.name, s.replies, s.delivery);
      }
    } else {
      OtherStepsKeepMachines(w, s);
      OtherSets(w, s);
      DanglingIsKnown(w, Apply(w, s).db.cirs[n].status.resourceId);
    }
  }

  lemma PassDangles(w: World, name: string, r: Replies, d: Delivery, n: string)
    requires Inv(w) && Kept(w) && Owing(w) && Legal(w, Reconcile(name, r, d)) && !w.cfg.reissues && HasPool(w, name)
    requires var w' := ReconcileStep(w, name, r, d);
             n in w'.db.cirs && w'.db.cirs[n].status.resourceId in w'.dangling
    ensures var w' := ReconcileStep(w, name, r, d);
            && n in w.db.cirs && w'.db.cirs[n].status == w.db.cirs[n].status
            && w'.db.cirs[n].spec.poolRef == w.db.cirs[n].spec.poolRef
    ensures w.db.cirs[n].status.resourceId in w.dangling
            || (n == name && GaveBack(w, Reconcile(name, r, d)) && !d.Arrives())
  {
    hide Inv, Kept, Handle, Persisted, ReconcileStep, AcquiredId, ReturnedId, Shaped, Vanishes;
    var c := w.db.cirs[name];
    var p := w.db.pools[c.spec.poolRef];
    var v := Handle(c, p, r, w.clock);
    var back := ReturnedId(v.calls, r);
    PassOnIds(w, name, r, d);
    var w' := ReconcileStep(w, name, r, d);
    var id := w'.db.cirs[n].status.resourceId;
    if n == name && Writes(v) && d.Arrives() {
      DanglingIsKnown(w, id);
      assert id in AcquiredId(v.calls, r) ==> id !in w.issued;
      assert id == c.status.resourceId;
      assert OwesRelease(w, name);
      WritesOnlyWhenReturned(c, p, r, w.clock, w.cfg.terms[c.spec.poolRef].fallback);
      ReleaseReturns(v.calls, r, id);
      assert false;
    } else if id !in w.dangling {
      assert id in back;
      OnlyOneNames(w, name, n);
    }
  }

  lemma ReleaseReturns(calls: seq<Call>, r: Replies, id: ResourceId)
    requires calls == [Call.Release(id)] && ReleaseDone(r.release)
    ensures ReturnedId(calls, r) == {id} && AcquiredId(calls, r) == {}
  {
  }

  /** The books stay in order step by step. */
  lemma StepBooks(w: World, s: Step)
    requires Inv(w) && Books(w) && Legal(w, s)
    ensures Books(Apply(w, s))
  {
    hide Inv, Kept, Apply, Legal, OwesRelease;
    ConfigStays(w, s);
    if !w.cfg.reissues {
      var w' := Apply(w, s);
      FreshIsCareful(w, s);
      StepBalances(w, s);
      forall n | n in w'.db.cirs && w'.db.cirs[n].status.resourceId in w'.dangling ensures OwesRelease(w', n) {
        WhoDangles(w, s, n);
        if w.db.cirs[n].status.resourceId !in w.dangling {
          GivingBackIsOwing(w, s);
        }
        SameOwes(w, w', n);
      }
    }
  }

  lemma SameOwes(w: World, w': World, n: string)
    requires n in w.db.cirs && n in w'.db.cirs && OwesRelease(w, n) && w'.cfg == w.cfg
    requires w'.db.cirs[n].status == w.db.cirs[n].status && w'.db.cirs[n].spec.poolRef == w.db.cirs[n].spec.poolRef
    ensures OwesRelease(w', n)
  {
  }

  lemma GivingBackIsOwing(w: World, s: Step)
    requires Inv(w) && GaveBack(w, s)
    ensures OwesRelease(w, s.name)
  {
    hide Inv, Handle, Shaped;
    var c := w.db.cirs[s.name];
    PassOnIds(w, s.name, s.replies, s.delivery);
    ReleaseCalls(c, w.db.pools[c.spec.poolRef], s.replies, w.clock, w.cfg.terms[c.spec.poolRef].fallback);
  }

  lemma {:induction false} RunBooks(w: World, steps: seq<Step>)
    requires Inv(w) && Books(w) && LegalRun(w, steps)
    ensures Books(Run(w, steps))
    decreases |steps|
  {
    hide Inv, Books, Apply, Legal;
    if steps != [] {
      StepKeeps(w, steps[0]);
      StepBooks(w, steps[0]);
      RunBooks(Apply(w, steps[0]), steps[1..]);
    }
  }

  lemma InitialBooks(w: World)
    requires Initial(w)
    ensures Books(w)
  {
  }

  // --------------------------------------------------------------- for ever

  ghost predicate StillDangling(w: World, w': World, n: string)
    requires n in w.db.cirs
  {
    && n in w'.db.cirs && w'.db.cirs[n].status == w.db.cirs[n].status
    && w'.db.cirs[n].spec.poolRef == w.db.cirs[n].spec.poolRef
    && w'.db.cirs[n].status.resourceId in w'.dangling
  }

  lemma StrictPassFails(w: World, n: string, r: Replies, d: Delivery)
    requires Inv(w) && Kept(w) && Owing(w) && w.cfg.Strict() && Legal(w, Reconcile(n, r, d)) && HasPool(w, n)
    requires w.db.cirs[n].status.resourceId in w.dangling
    ensures StillDangling(w, ReconcileStep(w, n, r, d), n)
  {
    hide Inv, Kept, Handle, Persisted, ReconcileStep, Shaped, Vanishes;
    var c := w.db.cirs[n];
    var p := w.db.pools[c.spec.poolRef];
    PassOnIds(w, n, r, d);
    assert OwesRelease(w, n);
    HeldUnlessDangling(w, n);
    WritesOnlyWhenReturned(c, p, r, w.clock, w.cfg.terms[c.spec.poolRef].fallback);
  }

  lemma OthersPassSpares(w: World, name: string, r: Replies, d: Delivery, n: string)
    requires Inv(w) && Kept(w) && Owing(w) && HasPool(w, name) && name != n && n in w.db.cirs
    requires w.db.cirs[n].status.resourceId in w.dangling
    ensures StillDangling(w, ReconcileStep(w, name, r, d), n)
  {
    hide Inv, Kept, Handle, Persisted, ReconcileStep, AcquiredId, ReturnedId, Shaped, Vanishes;
    var c := w.db.cirs[name];
    var v := Handle(c, w.db.pools[c.spec.poolRef], r, w.clock);
    PassOnIds(w, name, r, d);
    assert OwesRelease(w, n);
    if w.db.cirs[n].status.resourceId in ReturnedId(v.calls, r) {
      OnlyOneNames(w, name, n);
    }
  }

  /** With a strict provider nothing that anybody does moves such an object: no
      pass, no request, no edit, no deletion. */
  lemma DanglingStays(w: World, s: Step, n: string)
    requires Inv(w) && Books(w) && w.cfg.Strict() && Legal(w, s) && n in w.db.cirs
    requires w.db.cirs[n].status.resourceId in w.dangling
    ensures StillDangling(w, Apply(w, s), n)
  {
    hide Inv, Kept, ReconcileStep;
    if s.Reconcile? {
      if !HasPool(w, s.name) {
        WithoutPool(w, s.name, s.replies, s.delivery);
      } else if s.name == n {
        StrictPassFails(w, n, s.replies, s.delivery);
      } else {
        OthersPassSpares(w, s.name, s.replies, s.delivery, n);
      }
    } else {
      hide Apply;
      assert OwesRelease(w, n);
      OtherStepsKeepMachines(w, s);
      OtherSets(w, s);
    }
  }

  /** So it stays in every run, for ever. */
  lemma {:induction false} DanglingForever(w: World, steps: seq<Step>, n: string)
    requires Inv(w) && Books(w) && w.cfg.Strict() && LegalRun(w, steps) && n in w.db.cirs
    requires w.db.cirs[n].status.resourceId in w.dangling
    ensures StillDangling(w, Run(w, steps), n)
    decreases |steps|
  {
    hide Inv, Books, Apply, Legal;
    if steps != [] {
      DanglingStays(w, steps[0], n);
      StepKeeps(w, steps[0]);
      StepBooks(w, steps[0]);
      ConfigStays(w, steps[0]);
      DanglingForever(Apply(w, steps[0]), steps[1..], n);
    }
  }

  // ------------------------------------------------------- what blocks a drain

  /** In use without being asked for or released, or naming a machine that a
      strict provider has already taken back. */
  predicate Blocked(w: World, c: Cir) {
    Stuck(c) || (w.cfg.Strict() && c.status.resourceId in w.dangling)
  }

  predicate Drainable(w: World, pool: string) {
    forall n :: n in w.db.cirs && w.db.cirs[n].spec.poolRef == pool ==> !Blocked(w, w.db.cirs[n])
  }

  /** No machine of a member is given back to a strict provider without the write
      that says so. */
  predicate Lossless(w: World, s: Step, pool: string) {
    w.cfg.Strict() && GaveBack(w, s) && IsMember(w, s.name, pool) ==> s.delivery.Arrives()
  }

  /** Then nothing comes to dangle. */
  lemma NothingDanglesAnew(w: World, s: Step, pool: string, n: string)
    requires Inv(w) && Books(w) && Legal(w, s) && Lossless(w, s, pool) && w.cfg.Strict()
    requires IsMember(Apply(w, s), n, pool) && Apply(w, s).db.cirs[n].status.resourceId in Apply(w, s).dangling
    ensures IsMember(w, n, pool) && w.db.cirs[n].status.resourceId in w.dangling
  {
    hide Inv, Kept, Apply, Legal, GaveBack;
    WhoDangles(w, s, n);
  }
}
