/** How long a lease can last when the CIResource controller keeps its pace. */
module LeaseClock {
  import opened Api
  import opened Providers
  import opened CirFsm
  import opened CirController
  import opened Requests
  import opened Histories
  import opened OfcirSystem
  import opened Lifecycle

  /** In use, requested, and with a machine whenever the pool needs one. */
  predicate OnLease(c: Cir, t: Terms) {
    c.status.state == StateInUse && c.spec.state == StateInUse && !NeedsMachine(c, t.fallback)
  }

  function StampOf(c: Cir): Time {
    if c.status.lastUpdated.Some? then c.status.lastUpdated.value else 0
  }

  /** An object in use is looked at again within the retry delay, and when it
      was last looked at its lease had not run out. */
  ghost predicate TimelyCir(w: World, n: string)
    requires n in w.db.cirs && w.db.cirs[n].spec.poolRef in w.cfg.terms
  {
    var c := w.db.cirs[n];
    var t := w.cfg.terms[c.spec.poolRef];
    c.status.state == StateInUse ==>
      && c.meta.uid in w.visits
      && StampOf(c) <= w.visits[c.meta.uid] <= w.clock <= w.visits[c.meta.uid] + RETRY_DELAY
      && (OnLease(c, t) ==> w.visits[c.meta.uid] <= StampOf(c) + t.timeout)
  }

  ghost predicate Timely(w: World) {
    forall n :: n in w.db.cirs ==> w.db.cirs[n].spec.poolRef in w.cfg.terms && TimelyCir(w, n)
  }

  /** Reconciles of an object in use come at most the retry delay apart, reach
      the provider factory and land their write. */
  ghost predicate Punctual(w: World, s: Step) {
    match s
    case Tick(seconds) =>
      forall n :: n in w.db.cirs && w.db.cirs[n].status.state == StateInUse && w.db.cirs[n].meta.uid in w.visits ==>
                    w.clock + seconds <= w.visits[w.db.cirs[n].meta.uid] + RETRY_DELAY
    case Reconcile(name, r, d) =>
      name in w.db.cirs && w.db.cirs[name].status.state == StateInUse ==> r.connects && d.Arrives()
    case _ => true
  }

  ghost predicate PunctualRun(w: World, steps: seq<Step>)
    decreases |steps|
  {
    steps == [] || (Punctual(w, steps[0]) && PunctualRun(Apply(w, steps[0]), steps[1..]))
  }

  ghost predicate FairTerms(cfg: Config) {
    forall p :: p in cfg.terms ==> cfg.terms[p].timeout >= 0
  }

  // ------------------------------------------------------------------ steps

  /** The object a request, a label, a mark or a member creation leaves keeps its
      status, and its Spec does not turn to in use while it is in use. */
  predicate NoLeaseOpened(w: World, w': World, n: string)
    requires n in w'.db.cirs
  {
    var c := w'.db.cirs[n];
    && c.spec.poolRef in w.cfg.terms
    && (c.status.state == StateInUse ==>
          && n in w.db.cirs && c.status == w.db.cirs[n].status && c.meta.uid == w.db.cirs[n].meta.uid
          && c.spec.poolRef == w.db.cirs[n].spec.poolRef
          && (c.spec.state == StateInUse ==> w.db.cirs[n].spec.state == StateInUse))
  }

  lemma QuietStepTimely(w: World, w': World)
    requires Timely(w)
    requires w'.cfg == w.cfg && w'.clock == w.clock && w'.visits == w.visits
    requires forall n :: n in w'.db.cirs ==> NoLeaseOpened(w, w', n)
    ensures Timely(w')
  {
    forall n | n in w'.db.cirs ensures TimelyCir(w', n) {
      if w'.db.cirs[n].status.state == StateInUse {
        assert TimelyCir(w, n);
      }
    }
  }

  /** What one pass does to an object that is or comes into use. */
  lemma PassTimely(c: Cir, b: Book, p: Pool, r: Replies, arrives: bool, t: Terms, admin: bool, now: Time)
    requires Sound(c, b, t, admin, now) && p.IsFallback() == t.fallback && p.spec.timeout == t.timeout
    requires t.timeout >= 0 && (c.status.state == StateInUse ==> r.connects && arrives)
    ensures var v := Handle(c, p, r, now);
            var c' := if Writes(v) && arrives then Persisted(c, v, now) else c;
            c'.status.state == StateInUse ==>
              StampOf(c') <= now && (OnLease(c', t) ==> now <= StampOf(c') + t.timeout)
  {
    hide DebtFits, KeptFits, Disciplined, LeaseFits;
    match c.status.state
    case StateNone =>
    case StateProvisioning =>
    case StateProvisioningWait =>
    case StateAvailable =>
    case StateMaintenance =>
    case StateInUse =>
    case StateCleaning =>
    case StateCleaningWait =>
    case _ =>
  }

  lemma ReconcileTimely(w: World, name: string, r: Replies, d: Delivery)
    requires Inv(w) && Timely(w) && FairTerms(w.cfg) && HasPool(w, name)
    requires w.db.cirs[name].status.state == StateInUse ==> r.connects && d.Arrives()
    ensures Timely(ReconcileStep(w, name, r, d))
  {
    hide Handle, Persisted, Sound, Flags, CallEvents, WriteEvents, Writes, LifeOk, SnapOk, OnLease, BookFor,
         AcquiredId, ReturnedId, PassOver, Vanishes;
    var c := w.db.cirs[name];
    var p := w.db.pools[c.spec.poolRef];
    assert CirOk(w, name) && PoolOk(w, c.spec.poolRef);
    var t := w.cfg.terms[c.spec.poolRef];
    var v := Handle(c, p, r, w.clock);
    PassEvents(c, p, r, w.clock);
    PassTimely(c, BookFor(w, c.meta.uid), p, r, d.Arrives(), t, w.cfg.admin, w.clock);
    PassFrame(w, c, p, r, d);
    var w' := ReconcileStep(w, name, r, d);
    forall n | n in w'.db.cirs ensures w'.db.cirs[n].spec.poolRef in w'.cfg.terms && TimelyCir(w', n) {
      if n == name {
        SameLease(if Writes(v) && d.Arrives() then Persisted(c, v, w.clock) else c, w'.db.cirs[n], t);
      } else {
        assert CirOk(w, n) && TimelyCir(w, n);
      }
    }
  }

  lemma SameLease(c: Cir, c': Cir, t: Terms)
    requires c'.status == c.status && c'.spec == c.spec
    ensures OnLease(c', t) == OnLease(c, t) && StampOf(c') == StampOf(c)
  {
  }

  lemma StepTimely(w: World, s: Step)
    requires Inv(w) && Timely(w) && FairTerms(w.cfg) && !w.cfg.admin && Legal(w, s) && Punctual(w, s)
    ensures Timely(Apply(w, s))
  {
    hide Timely, Inv, ReconcileStep, DeleteStep, PassCreateStep, CanEvict, Evictable, Commit, Swap;
    match s
    case Tick(seconds) => TickTimely(w, seconds);
    case Reconcile(name, r, d) =>
      if HasPool(w, name) {
        ReconcileTimely(w, name, r, d);
      } else {
        WithoutPool(w, name, r, d);
      }
    case PassCreate(name, d) => CreateTimely(w, name, d);
    case Delete(name) => DeleteTimely(w, name);
    case AcquireWrite(snap, d) => RequestTimely(w, s, snap);
    case ReleaseWrite(snap, d) => RequestTimely(w, s, snap);
    case PassLabel(snap, d) => RequestTimely(w, s, snap);
    case _ => PoolStepTimely(w, s);
  }

  lemma CreateTimely(w: World, name: string, d: Delivery)
    requires Inv(w) && Timely(w)
    ensures Timely(PassCreateStep(w, name, d))
  {
    hide Timely, LifeOk, PoolOk, SnapOk, CirOk;
    TermsKnown(w);
    if Creates(w, name, d) {
      PassPoolKnown(w);
      QuietStepTimely(w, PassCreateStep(w, name, d));
    }
  }

  lemma DeleteTimely(w: World, name: string)
    requires Inv(w) && Timely(w)
    ensures Timely(DeleteStep(w, name))
  {
    hide Timely, LifeOk, PoolOk, SnapOk, CirOk;
    TermsKnown(w);
    QuietStepTimely(w, DeleteStep(w, name));
  }

  lemma PoolStepTimely(w: World, s: Step)
    requires Inv(w) && Timely(w) && OnlyPoolsOrReads(s) && !s.Tick?
    ensures Timely(Apply(w, s))
  {
    hide Timely, LifeOk, PoolOk, SnapOk, CirOk, Apply;
    TermsKnown(w);
    PoolStepFrame(w, s);
    VisitsStay(w, s);
    QuietStepTimely(w, Apply(w, s));
  }

  lemma TermsKnown(w: World)
    requires Inv(w)
    ensures forall n :: n in w.db.cirs ==> w.db.cirs[n].spec.poolRef in w.cfg.terms && w.db.cirs[n].meta.name == n
  {
    hide LifeOk, PoolOk, SnapOk, Sound;
    forall n | n in w.db.cirs ensures w.db.cirs[n].spec.poolRef in w.cfg.terms && w.db.cirs[n].meta.name == n {
      assert CirOk(w, n);
    }
  }

  lemma PassPoolKnown(w: World)
    requires Inv(w) && !w.pass.Idle?
    ensures w.pass.pool.name in w.cfg.terms
  {
  }

  lemma VisitsStay(w: World, s: Step)
    requires !s.Reconcile?
    ensures Apply(w, s).visits == w.visits && (!s.Tick? ==> Apply(w, s).clock == w.clock)
  {
  }

  lemma TickTimely(w: World, seconds: nat)
    requires Timely(w) && Punctual(w, Tick(seconds))
    ensures Timely(w.(clock := w.clock + seconds))
  {
    var w' := w.(clock := w.clock + seconds);
    forall n | n in w'.db.cirs ensures TimelyCir(w', n) {
      assert TimelyCir(w, n);
    }
  }

  lemma CommitTimely(w: World, c: Cir, es: seq<Event>)
    requires Inv(w) && Timely(w) && c.meta.name in w.db.cirs
    requires var c0 := w.db.cirs[c.meta.name];
             && c.status == c0.status && c.meta.uid == c0.meta.uid && c.spec.poolRef == c0.spec.poolRef
             && (c0.status.state == StateInUse && c.spec.state == StateInUse ==> c0.spec.state == StateInUse)
    ensures Timely(Commit(w, c, es))
  {
    hide Timely, Inv, Commit, Vanishes;
    TermsKnown(w);
    CommitFrame(w, c, es);
    var w' := Commit(w, c, es);
    forall n | n in w'.db.cirs ensures NoLeaseOpened(w, w', n) {
      assert n != c.meta.name ==> w'.db.cirs[n] == w.db.cirs[n];
    }
    QuietStepTimely(w, w');
  }

  /** Acquiring happens to an available object only, so a request never opens a
      lease on an object that is already in use. */
  lemma RequestTimely(w: World, s: Step, snap: Cir)
    requires Inv(w) && Timely(w) && (s.AcquireWrite? || s.ReleaseWrite? || s.PassLabel?) && s.snap == snap
    ensures Timely(Apply(w, s))
  {
    hide Timely, Inv, ReconcileStep, PassCreateStep, Commit;
    if snap in w.snapshots && IsCurrent(w.db, snap) {
      AcceptedMeansUnchanged(w, snap);
      match s
      case AcquireWrite(_, d) =>
        if CanAcquire(snap) {
          CommitTimely(w, MergeMain(snap, Acquiring(snap)), if d.Delivered? then [Granted(w.clock)] else []);
        }
      case ReleaseWrite(_, d) => CommitTimely(w, MergeMain(snap, Releasing(snap)), [Freed(w.clock)]);
      case PassLabel(_, d) => CommitTimely(w, MergeMain(snap, Evicting(snap)), []);
    }
  }

  lemma {:induction false} RunTimely(w: World, steps: seq<Step>)
    requires Inv(w) && Timely(w) && FairTerms(w.cfg) && !w.cfg.admin && LegalRun(w, steps) && PunctualRun(w, steps)
    ensures Timely(Run(w, steps)) && Inv(Run(w, steps))
    decreases |steps|
  {
    hide Inv, Timely, Apply, Legal, Punctual;
    if steps != [] {
      StepKeeps(w, steps[0]);
      StepTimely(w, steps[0]);
      ConfigStays(w, steps[0]);
      RunTimely(Apply(w, steps[0]), steps[1..]);
    }
  }

  /** In every punctual run, a resource that has not been released is on lease
      for at most the pool's time-out plus one retry delay after its stamp:
      whoever looks later finds the lease already reclaimed. */
  lemma LeaseBound(w: World, steps: seq<Step>)
    requires Initial(w) && FairTerms(w.cfg) && !w.cfg.admin && LegalRun(w, steps) && PunctualRun(w, steps)
    ensures var w' := Run(w, steps);
            forall n :: n in w'.db.cirs && w'.db.cirs[n].spec.poolRef in w'.cfg.terms
                        && OnLease(w'.db.cirs[n], w'.cfg.terms[w'.db.cirs[n].spec.poolRef]) ==>
                          && w'.db.cirs[n].status.lastUpdated.Some?
                          && w'.clock <= w'.db.cirs[n].status.lastUpdated.value
                                         + w'.cfg.terms[w'.db.cirs[n].spec.poolRef].timeout + RETRY_DELAY
  {
    InitialInv(w);
    RunTimely(w, steps);
    var w' := Run(w, steps);
    forall n | n in w'.db.cirs && w'.db.cirs[n].spec.poolRef in w'.cfg.terms
               && OnLease(w'.db.cirs[n], w'.cfg.terms[w'.db.cirs[n].spec.poolRef])
      ensures w'.db.cirs[n].status.lastUpdated.Some?
      ensures w'.clock <= w'.db.cirs[n].status.lastUpdated.value
                          + w'.cfg.terms[w'.db.cirs[n].spec.poolRef].timeout + RETRY_DELAY
    {
      assert TimelyCir(w', n) && CirOk(w', n);
    }
  }
}
