/** What a pass stores of what the provider answers, what it asks the provider, and
    when it comes back; and over runs, that an object carries the address of the
    machine it names, and nothing of one when it names none. */
module Addresses {
  import opened Api
  import opened ApiServers
  import opened Providers
  import opened CirFsm
  import opened CirController
  import opened OfcirSystem
  import opened Lifecycle
  import opened Dangling
  import opened Dummy
  import Safety

  // ---------------------------------------------------------- what is stored

  /** The object called `name` after a pass whose write arrives. */
  function Stored(db: Db, name: string, p: Pool, r: Replies, now: Time, delivery: Delivery): Db
    requires name in db.cirs
  {
    Persist(db, Handle(db.cirs[name], p, r, now), now, delivery).db
  }

  /** A status write: the rest of the object is as it was, and it is stamped. */
  ghost predicate IsStatusWrite(db: Db, db': Db, name: string, now: Time)
    requires name in db.cirs
  {
    && db'.pools == db.pools && SameExcept(db, db', {name}) && name in db'.cirs
    && var c, c' := db.cirs[name], db'.cirs[name];
       c'.spec == c.spec && c'.meta == c.meta.(version := c'.meta.version) && c'.status.lastUpdated == Some(now)
  }

  predicate IsStoredAs(db: Db, name: string) {
    && name in db.cirs && db.cirs[name].meta.name == name
    && (db.cirs[name].meta.deleting ==> db.cirs[name].meta.finalizer)
  }

  /** The id that Acquire answers and the pool's provider info are stored, the
      address and the extra data are not touched yet. */
  lemma AcquiredIsStored(db: Db, name: string, p: Pool, r: Replies, now: Time, d: Delivery)
    requires IsStoredAs(db, name) && db.cirs[name].status.state == StateProvisioning && r.connects && d != Undelivered
    requires !(p.IsFallback() && db.cirs[name].spec.state != StateInUse) && r.acquire.Ok?
    ensures var db' := Stored(db, name, p, r, now, d);
            && IsStatusWrite(db, db', name, now)
            && var st, st' := db.cirs[name].status, db'.cirs[name].status;
               && st'.state == StateProvisioningWait && st'.resourceId == r.acquire.value.id
               && st'.providerInfo == p.spec.providerInfo && st'.address == st.address && st'.extra == st.extra
  {
  }

  /** The address and the metadata of a machine that is ready are stored as its
      address and its extra data, under the id it was asked for by. */
  lemma ReadyIsStored(db: Db, name: string, p: Pool, r: Replies, now: Time, d: Delivery)
    requires IsStoredAs(db, name) && db.cirs[name].status.state == StateProvisioningWait && r.connects
    requires d != Undelivered && r.acquireCompleted.Ok? && r.acquireCompleted.value.ready
    ensures var db' := Stored(db, name, p, r, now, d);
            && IsStatusWrite(db, db', name, now)
            && var st, st' := db.cirs[name].status, db'.cirs[name].status;
               && st'.state == StateAvailable && st'.resourceId == st.resourceId
               && st'.address == r.acquireCompleted.value.resource.address
               && st'.extra == r.acquireCompleted.value.resource.metadata && st'.providerInfo == st.providerInfo
  {
  }

  /** A fallback object that is cleaned carries nothing of its machine any more. */
  lemma EmptiedIsStored(db: Db, name: string, p: Pool, r: Replies, now: Time, d: Delivery)
    requires IsStoredAs(db, name) && db.cirs[name].status.state == StateCleaning && p.IsFallback() && r.connects
    requires d != Undelivered && (db.cirs[name].status.resourceId == FallbackId || ReleaseDone(r.release))
    ensures var db' := Stored(db, name, p, r, now, d);
            && IsStatusWrite(db, db', name, now)
            && var st' := db'.cirs[name].status;
               && st'.state == StateCleaningWait && st'.resourceId == FallbackId
               && st'.address == "" && st'.extra == "" && st'.providerInfo == ""
  {
  }

  /** In every other status write only the state and the stamp move, but for the
      dummy id that an unrequested fallback object is given. */
  lemma OtherwiseOnlyStateMoves(c: Cir, p: Pool, r: Replies, now: Time)
    requires c.status.state != StateProvisioning && c.status.state != StateProvisioningWait
    requires !(c.status.state == StateCleaning && p.IsFallback())
    ensures var c' := Persisted(c, Handle(c, p, r, now), now);
            c'.status == c.status.(state := c'.status.state, lastUpdated := c'.status.lastUpdated)
  {
  }

  // ---------------------------------------------------------- what is asked

  /** A pass asks the provider at most one thing: for a machine, only while
      provisioning and with the pool's size, name and type; anything else about the
      machine the object names, each in its own state. */
  lemma CallsAreAboutTheObject(c: Cir, p: Pool, r: Replies, now: Time)
    ensures var calls := Handle(c, p, r, now).calls;
            && |calls| <= 1
            && forall k :: 0 <= k < |calls| ==>
                 match calls[k]
                 case Acquire(size, pool, rtype) =>
                   c.status.state == StateProvisioning
                   && size == p.spec.size && pool == p.name && rtype == p.spec.rtype
                 case AcquireCompleted(id) => c.status.state == StateProvisioningWait && id == c.status.resourceId
                 case Clean(id) => c.status.state == StateCleaning && !p.IsFallback() && id == c.status.resourceId
                 case CleanCompleted(id) =>
                   c.status.state == StateCleaningWait && !p.IsFallback() && id == c.status.resourceId
                 case Release(id) =>
                   (c.status.state == StateDelete || (c.status.state == StateCleaning && p.IsFallback()))
                   && id == c.status.resourceId
  {
  }

  /** When a reconcile comes back, and when it reports an error: at once after a
      machine has become ready, in half a minute when it waits for the provider, in
      a minute otherwise; and an error exactly when the pass failed or its write was
      not answered with success. */
  lemma ReconcileReports(db: Db, name: string, p: Pool, r: Replies, now: Time, d: Delivery)
    requires name in db.cirs && db.cirs[name].meta.name == name && IsRegistered(db.cirs[name].status.state)
    ensures var c := db.cirs[name];
            var v := Handle(c, p, r, now);
            var result := ResultOf(v, Persist(db, v, now, d));
            var waits := !v.statusDirty && !v.resourceDirty;
            && (result.err.Some? <==> v.err.Some? || (Writes(v) && d != Delivered))
            && (result.err.Some? ==> result.requeueAfter == 0)
            && (result.err.None? ==>
                  result.requeueAfter ==
                    if c.status.state == StateProvisioningWait then (if waits then 30 else 0)
                    else if c.status.state == StateCleaningWait && waits then 30
                    else 60)
            && (c.status.state == StateInUse && r.connects && d == Delivered ==> result == Result(60, None))
  {
    PersistStoresVerdict(db, name, p, r, now, d);
  }

  // ------------------------------------------------- no machine, no trace of one

  predicate IsTidy(c: Cir) {
    !IsMachine(c.status.resourceId) ==>
      c.status.address == "" && c.status.extra == "" && c.status.providerInfo == ""
  }

  ghost predicate Tidy(w: World) {
    forall n :: n in w.db.cirs ==> IsTidy(w.db.cirs[n])
  }

  lemma PassKeepsTidy(c: Cir, p: Pool, r: Replies, now: Time, fallback: bool)
    requires IsTidy(c) && Shaped(c, fallback)
    requires forall id :: id in AcquiredId(Handle(c, p, r, now).calls, r) ==> IsMachine(id)
    ensures IsTidy(Persisted(c, Handle(c, p, r, now), now))
  {
    if r.acquire.Ok? {
      var id := r.acquire.value.id;
      assert id in AcquiredId(Handle(c, p, r, now).calls, r) ==> IsMachine(id);
    }
  }

  lemma StepKeepsTidy(w: World, s: Step)
    requires Inv(w) && Tidy(w) && Legal(w, s)
    ensures Tidy(Apply(w, s))
  {
    hide Inv, Handle, Persisted, ReconcileStep, Shaped, Vanishes, IsTidy;
    var w' := Apply(w, s);
    if s.Reconcile? {
      if HasPool(w, s.name) {
        var c := w.db.cirs[s.name];
        var p := w.db.pools[c.spec.poolRef];
        PassOnIds(w, s.name, s.replies, s.delivery);
        PassKeepsTidy(c, p, s.replies, w.clock, w.cfg.terms[c.spec.poolRef].fallback);
        TidyByStatus(Persisted(c, Handle(c, p, s.replies, w.clock), w.clock), w.db.next);
      } else {
        WithoutPool(w, s.name, s.replies, s.delivery);
      }
    } else {
      hide Apply;
      OtherStepsKeepMachines(w, s);
      forall n | n in w'.db.cirs ensures IsTidy(w'.db.cirs[n]) {
        assert KeepsStatus(w, w', n);
        SameStatusTidy(w'.db.cirs[n], if n in w.db.cirs then w.db.cirs[n] else w'.db.cirs[n]);
      }
    }
  }

  lemma TidyByStatus(c: Cir, version: nat)
    ensures IsTidy(Renumbered(c, version)) == IsTidy(c)
  {
  }

  lemma SameStatusTidy(c: Cir, d: Cir)
    requires c.status == d.status
    ensures IsTidy(d) ==> IsTidy(c)
    ensures c.status == EMPTY_STATUS ==> IsTidy(c)
  {
  }

  lemma {:induction false} RunKeepsTidy(w: World, steps: seq<Step>)
    requires Inv(w) && Tidy(w) && LegalRun(w, steps)
    ensures Tidy(Run(w, steps))
    decreases |steps|
  {
    hide Inv, Tidy, Apply, Legal;
    if steps != [] {
      StepKeeps(w, steps[0]);
      StepKeepsTidy(w, steps[0]);
      RunKeepsTidy(Apply(w, steps[0]), steps[1..]);
    }
  }

  /** In every run an object that names no machine carries no address, no extra data
      and no provider info of one. */
  lemma NoMachineNoTrace(w0: World, steps: seq<Step>, w: World, n: string)
    requires Safety.Reaches(w0, steps, w) && n in w.db.cirs && !IsMachine(w.db.cirs[n].status.resourceId)
    ensures var st := w.db.cirs[n].status;
            st.address == "" && st.extra == "" && st.providerInfo == ""
  {
    InitialInv(w0);
    hide Inv, LegalRun, Run;
    RunKeepsTidy(w0, steps);
    assert IsTidy(w.db.cirs[n]);
  }

  // ------------------------------------------- the address of the machine named

  /** A machine that is named is in the stock, and once it was ready the object
      carries its address and its metadata. */
  predicate IsLocated(c: Cir, m: Stock) {
    IsMachine(c.status.resourceId) ==>
      && c.status.resourceId in m
      && (c.status.state != StateProvisioningWait ==>
            && c.status.address == m[c.status.resourceId].resource.address
            && c.status.extra == m[c.status.resourceId].resource.metadata)
  }

  ghost predicate Located(w: World, m: Stock) {
    forall n :: n in w.db.cirs ==> IsLocated(w.db.cirs[n], m)
  }

  ghost predicate SameMachines(m: Stock, m': Stock) {
    m'.Keys == m.Keys && forall id :: id in m ==> m'[id].resource == m[id].resource
  }

  lemma CallsKeepMachines(m: Stock, calls: seq<Call>, r: Replies)
    ensures SameMachines(m, AfterCalls(m, calls, r))
  {
  }

  lemma LocatedBySame(c: Cir, m: Stock, m': Stock)
    requires SameMachines(m, m')
    ensures IsLocated(c, m') == IsLocated(c, m)
  {
  }

  lemma PassKeepsLocated(c: Cir, p: Pool, m: Stock, pick: ResourceId, now: Time, fallback: bool)
    requires IsLocated(c, m) && Shaped(c, fallback) && p.IsFallback() == fallback && Stocked(m)
    ensures IsLocated(Persisted(c, Handle(c, p, Answers(m, c.status.resourceId, pick), now), now), m)
  {
  }

  lemma StepKeepsLocated(w: World, m: Stock, s: Step)
    requires Inv(w) && Located(w, m) && Stocked(m) && DummyStep(w, m, s)
    ensures Located(Apply(w, s), Follow(w, m, s)) && SameMachines(m, Follow(w, m, s))
  {
    hide Inv, Handle, Persisted, ReconcileStep, Shaped, Vanishes, IsLocated, Answers, AfterCalls, Stocked;
    var w' := Apply(w, s);
    var m' := Follow(w, m, s);
    if s.Reconcile? && HasPool(w, s.name) {
      var c := w.db.cirs[s.name];
      var p := w.db.pools[c.spec.poolRef];
      var pick :| s.replies == Answers(m, c.status.resourceId, pick);
      PassOnIds(w, s.name, s.replies, s.delivery);
      PassKeepsLocated(c, p, m, pick, w.clock, w.cfg.terms[c.spec.poolRef].fallback);
      LocatedByStatus(Persisted(c, Handle(c, p, s.replies, w.clock), w.clock), w.db.next, m);
      CallsKeepMachines(m, Handle(c, p, s.replies, w.clock).calls, s.replies);
    } else if s.Reconcile? {
      WithoutPool(w, s.name, s.replies, s.delivery);
    } else {
      hide Apply;
      OtherStepsKeepMachines(w, s);
      forall n | n in w'.db.cirs ensures IsLocated(w'.db.cirs[n], m) {
        assert KeepsStatus(w, w', n);
        SameStatusLocated(w'.db.cirs[n], if n in w.db.cirs then w.db.cirs[n] else w'.db.cirs[n], m);
      }
    }
    forall n | n in w'.db.cirs ensures IsLocated(w'.db.cirs[n], m') {
      LocatedBySame(w'.db.cirs[n], m, m');
    }
  }

  lemma LocatedByStatus(c: Cir, version: nat, m: Stock)
    ensures IsLocated(Renumbered(c, version), m) == IsLocated(c, m)
  {
  }

  lemma SameStatusLocated(c: Cir, d: Cir, m: Stock)
    requires c.status == d.status
    ensures IsLocated(d, m) ==> IsLocated(c, m)
    ensures c.status == EMPTY_STATUS ==> IsLocated(c, m)
  {
  }

  lemma {:induction false} RunKeepsLocated(w: World, m: Stock, steps: seq<Step>)
    requires Inv(w) && Located(w, m) && Stocked(m) && w.cfg.reissues && HandedOut(m) == w.held && DummyRun(w, m, steps)
    ensures Located(Run(w, steps), FollowAll(w, m, steps)) && SameMachines(m, FollowAll(w, m, steps))
    decreases |steps|
  {
    hide Inv, Located, Apply, Legal, Answers;
    if steps != [] {
      var s := steps[0];
      StepKeepsLocated(w, m, s);
      DummyStepTracks(w, m, s);
      StepKeeps(w, s);
      ConfigStays(w, s);
      RunKeepsLocated(Apply(w, s), Follow(w, m, s), steps[1..]);
    }
  }

  /** In every run of a system whose provider is the dummy, an object that is
      available or in use with a machine carries the address and the metadata that
      the provider has for that very machine. */
  lemma AddressIsTheMachines(w: World, m: Stock, steps: seq<Step>, n: string)
    requires Initial(w) && w.cfg.reissues && Stocked(m) && HandedOut(m) == {} && DummyRun(w, m, steps)
    requires var w' := Run(w, steps);
             && n in w'.db.cirs && IsMachine(w'.db.cirs[n].status.resourceId)
             && (w'.db.cirs[n].status.state == StateAvailable || w'.db.cirs[n].status.state == StateInUse)
    ensures var st := Run(w, steps).db.cirs[n].status;
            && st.resourceId in m
            && st.address == m[st.resourceId].resource.address && st.extra == m[st.resourceId].resource.metadata
  {
    InitialInv(w);
    hide Inv, DummyRun, Run, FollowAll;
    RunKeepsLocated(w, m, steps);
    assert IsLocated(Run(w, steps).db.cirs[n], FollowAll(w, m, steps));
  }
}
