/** The safety theorems, over every run of the system from its empty start. */
module Safety {
  import opened Api
  import opened Providers
  import opened CirFsm
  import opened CirController
  import opened Histories
  import opened OfcirSystem
  import opened Lifecycle

  /** A world that some run reaches. */
  ghost predicate Reaches(w0: World, steps: seq<Step>, w: World) {
    Initial(w0) && LegalRun(w0, steps) && w == Run(w0, steps)
  }

  lemma ReachedIsInv(w0: World, steps: seq<Step>, w: World)
    requires Reaches(w0, steps, w)
    ensures Inv(w) && w.cfg == w0.cfg
  {
    InitialInv(w0);
    RunKeeps(w0, steps);
  }

  function TermsOf(w: World, uid: nat): Terms
    requires uid in w.lives && w.lives[uid].pool in w.cfg.terms
  {
    w.cfg.terms[w.lives[uid].pool]
  }

  lemma ReachedFlags(w0: World, steps: seq<Step>, w: World, uid: nat)
    requires Reaches(w0, steps, w) && uid in w.lives
    ensures w.lives[uid].pool in w.cfg.terms
    ensures Flags(BookOf(w.lives[uid].history, TermsOf(w, uid)), w.cfg.admin)
  {
    hide Flags;
    ReachedIsInv(w0, steps, w);
    assert LifeOk(w, uid);
  }

  /** Lease exclusion. Over every interleaving of any number of acquires,
      releases and reconciles, with requests working from stale reads and
      updates that may report an error after taking effect, no object is granted
      twice unless a release or the time-out put its Spec back in between. */
  lemma LeaseExclusion(w0: World, steps: seq<Step>, w: World, uid: nat)
    requires Reaches(w0, steps, w) && uid in w.lives && !w.cfg.admin
    ensures LeaseExclusive(w.lives[uid].history)
  {
    ReachedFlags(w0, steps, w, uid);
    LeaseOkMeans(w.lives[uid].history, TermsOf(w, uid));
  }

  /** Clean between tenants, even when Spec.State is edited by hand at any time. */
  lemma CleanedBetweenTenants(w0: World, steps: seq<Step>, w: World, uid: nat)
    requires Reaches(w0, steps, w) && uid in w.lives
    ensures w.lives[uid].pool in w.cfg.terms
    ensures CleanBetweenTenants(w.lives[uid].history, TermsOf(w, uid).fallback)
  {
    ReachedFlags(w0, steps, w, uid);
    CleanOkMeans(w.lives[uid].history, TermsOf(w, uid));
  }

  /** The committed states of every object are a walk through the documented
      diagram; deletion is entered from Available or Maintenance only, so one
      that is asked for in use waits, and Error is never entered. */
  lemma EveryLifeWalksTheDiagram(w0: World, steps: seq<Step>, w: World, uid: nat)
    requires Reaches(w0, steps, w) && uid in w.lives
    ensures WalksDiagram(w.lives[uid].history)
    ensures forall i :: 0 <= i < |w.lives[uid].history| && w.lives[uid].history[i].Entered? ==>
              && w.lives[uid].history[i].to != StateError
              && (w.lives[uid].history[i].to == StateDelete ==>
                    w.lives[uid].history[i].from == StateAvailable || w.lives[uid].history[i].from == StateMaintenance)
  {
    ReachedFlags(w0, steps, w, uid);
    WalkOkMeans(w.lives[uid].history, TermsOf(w, uid));
  }

  /** No object vanishes holding a machine: each machine it ever recorded was
      given back, or found to be gone, before the server removed it. */
  lemma NothingVanishesWithMachine(w0: World, steps: seq<Step>, w: World, uid: nat)
    requires Reaches(w0, steps, w) && uid in w.lives
    ensures VanishesEmptyHanded(w.lives[uid].history)
  {
    ReachedFlags(w0, steps, w, uid);
    KeepOkMeans(w.lives[uid].history, TermsOf(w, uid));
  }

  /** The detour of a fallback resource through Provisioning is taken at most
      once per lease. */
  lemma OneReprovisioningPerLease(w0: World, steps: seq<Step>, w: World, uid: nat)
    requires Reaches(w0, steps, w) && uid in w.lives && !w.cfg.admin
    ensures ReprovisionedOncePerLease(w.lives[uid].history)
  {
    ReachedFlags(w0, steps, w, uid);
    ReprovisionOkMeans(w.lives[uid].history, TermsOf(w, uid));
  }

  /** A lease is never cut short: the time-out fires strictly after the entry
      into InUse plus the pool's time-out. */
  lemma LeaseIsNotCutShort(w0: World, steps: seq<Step>, w: World, uid: nat)
    requires Reaches(w0, steps, w) && uid in w.lives
    ensures w.lives[uid].pool in w.cfg.terms
    ensures ExpiresLate(w.lives[uid].history, TermsOf(w, uid).timeout)
  {
    ReachedFlags(w0, steps, w, uid);
    ExpiryOkMeans(w.lives[uid].history, TermsOf(w, uid));
  }

  // -------------------------------------------------------- stored objects

  /** An idle fallback resource costs nothing: it has the dummy id and no
      address, and one with a machine is one that is requested. */
  lemma IdleFallbackCostsNothing(w0: World, steps: seq<Step>, w: World, n: string)
    requires Reaches(w0, steps, w) && !w.cfg.admin && n in w.db.cirs
    requires w.db.cirs[n].spec.poolRef in w.cfg.terms && w.cfg.terms[w.db.cirs[n].spec.poolRef].fallback
    requires w.db.cirs[n].status.state == StateAvailable
    ensures var c := w.db.cirs[n];
            && (c.spec.state != StateInUse ==> c.status.resourceId == FallbackId && c.status.address == "")
            && (IsMachine(c.status.resourceId) ==> c.spec.state == StateInUse)
  {
    ReachedIsInv(w0, steps, w);
    assert CirOk(w, n);
  }

  /** From every reachable state a reconcile finds its state and its event, marks
      at most one half of the object, and what it leaves on the server is the
      object as it was, or with another spec or metadata, or one edge of the
      diagram further on; only an object in Delete can go. */
  lemma ReconcileIsOneStep(w0: World, steps: seq<Step>, w: World, n: string, r: Replies, d: Delivery)
    requires Reaches(w0, steps, w) && HasPool(w, n)
    ensures var c := w.db.cirs[n];
            var v := Handle(c, w.db.pools[c.spec.poolRef], r, w.clock);
            && (v.err.Some? ==> v.err.value == ProviderUnavailable || v.err.value == ProviderFailed)
            && !(v.resourceDirty && v.statusDirty)
    ensures var cirs := Apply(w, Reconcile(n, r, d)).db.cirs;
            if n in cirs then IsOneStep(w.db.cirs[n], cirs[n]) else w.db.cirs[n].status.state == StateDelete
  {
    hide Inv, Handle, Persisted, CallEvents, WriteEvents, ProviderEffect;
    ReachedIsInv(w0, steps, w);
    NameFits(w, n);
    IsGuarded(w, n);
    var c := w.db.cirs[n];
    var p := w.db.pools[c.spec.poolRef];
    LookupsSucceed(c, p, r, w.clock);
    PersistedHalfIsAll(c, p, r, w.clock);
    NeverAnotherError(c, p, r, w.clock);
    LandedIsOneStep(c, p, r, w.clock);
    PersistStoresVerdict(w.db, n, p, r, w.clock, d);
    ReconcileStepIsReconcile(w, n, r, d);
  }

  predicate IsOneStep(c: Cir, c': Cir) {
    || c' == c
    || c'.status == c.status
    || (c'.spec == c.spec && c'.meta == c.meta.(version := c'.meta.version)
        && DiagramEdge(c.status.state, c'.status.state))
  }

  lemma NeverAnotherError(c: Cir, p: Pool, r: Replies, now: Time)
    requires IsRegistered(c.status.state)
    ensures var err := Handle(c, p, r, now).err;
            err.Some? ==> err.value == ProviderUnavailable || err.value == ProviderFailed
  {
  }

  lemma LandedIsOneStep(c: Cir, p: Pool, r: Replies, now: Time)
    requires IsRegistered(c.status.state) && (c.status.state != StateNone || c.meta.deleting ==> c.meta.finalizer)
    ensures var c' := Persisted(c, Handle(c, p, r, now), now);
            IsOneStep(c, c') && (Vanishes(c') ==> c.status.state == StateDelete)
  {
    LookupsSucceed(c, p, r, now);
    PersistedHalfIsAll(c, p, r, now);
    StatusWriteIsOneEdge(c, p, r, now);
    MainWrites(c, p, r, now);
    hide Handle;
  }

  /** In every state but None the stamp is set, so that the time-out may read
      it, and it is the time of the latest committed status write. */
  lemma StampIsTimeOfEntry(w0: World, steps: seq<Step>, w: World, n: string) returns (i: nat)
    requires Reaches(w0, steps, w) && n in w.db.cirs && w.db.cirs[n].status.state != StateNone
    ensures w.db.cirs[n].meta.uid in w.lives
    ensures var c := w.db.cirs[n];
            var h := w.lives[c.meta.uid].history;
            && i < |h| && h[i].Entered? && (forall k :: i < k < |h| ==> !h[k].Entered?)
            && h[i].to == c.status.state && h[i].id == c.status.resourceId
            && c.status.lastUpdated == Some(h[i].at) && h[i].at <= w.clock
  {
    ReachedIsInv(w0, steps, w);
    assert CirOk(w, n);
    var c := w.db.cirs[n];
    var h := w.lives[c.meta.uid].history;
    var t := w.cfg.terms[c.spec.poolRef];
    i := LatestEntered(h, t);
    BookStateIsLatest(h, t, i);
  }

  lemma {:induction false} LatestEntered(h: History, t: Terms) returns (i: nat)
    requires BookOf(h, t).walk.state != StateNone
    ensures i < |h| && h[i].Entered? && forall k :: i < k < |h| ==> !h[k].Entered?
    decreases |h|
  {
    var last := |h| - 1;
    if h[last].Entered? {
      i := last;
    } else {
      i := LatestEntered(h[..last], t);
    }
  }

  /** Past None an object carries its finalizer, a Delete state means that
      deletion was asked for, and no object is in a state without a handler. */
  lemma FinalizerGuardsTheMachine(w0: World, steps: seq<Step>, w: World, n: string)
    requires Reaches(w0, steps, w) && n in w.db.cirs
    ensures var c := w.db.cirs[n];
            && IsRegistered(c.status.state)
            && (c.status.state != StateNone ==> c.meta.finalizer)
            && (c.status.state == StateDelete ==> c.meta.deleting)
            && (IsMachine(c.status.resourceId) ==> c.meta.finalizer)
  {
    hide Inv;
    ReachedIsInv(w0, steps, w);
    IsGuarded(w, n);
  }

  /** Whatever they have read, requests and eviction labels only ever change
      objects whose status is Available, InUse, Maintenance or Error at that
      very moment; the states that call the provider belong to the machine. */
  lemma RequestsTouchRestingObjectsOnly(w0: World, steps: seq<Step>, w: World, s: Step, n: string)
    requires Reaches(w0, steps, w) && (s.AcquireWrite? || s.ReleaseWrite? || s.PassLabel?)
    requires n in w.db.cirs && (n in Apply(w, s).db.cirs ==> Apply(w, s).db.cirs[n] != w.db.cirs[n])
    ensures var st := w.db.cirs[n].status.state;
            && (st == StateAvailable || st == StateInUse || st == StateMaintenance || st == StateError)
            && n in Apply(w, s).db.cirs && Apply(w, s).db.cirs[n].status == w.db.cirs[n].status
  {
    hide Inv, LegalRun, Run, Record, Initial;
    ReachedIsInv(w0, steps, w);
    NameFits(w, n);
    if s.snap in w.snapshots && IsCurrent(w.db, s.snap) {
      AcceptedMeansUnchanged(w, s.snap);
      NameFits(w, s.snap.meta.name);
      IsGuarded(w, s.snap.meta.name);
    }
  }

}
