/** Conservation of machines: what the provider has handed out against what the
    CIResources name, over every run and every pattern of lost writes. */
module Ledger {
  import opened Api
  import opened Providers
  import opened CirFsm
  import opened CirController
  import opened Requests
  import opened Histories
  import opened OfcirSystem
  import opened Lifecycle

  /** The names of the live objects with the id in their status, and the
      provider's side of the account. */
  datatype Account = Account(
    ids: map<string, ResourceId>,
    held: set<ResourceId>,
    issued: set<ResourceId>,
    leaked: set<ResourceId>,
    dangling: set<ResourceId>)

  function IdsOf(db: Db): map<string, ResourceId> {
    map n | n in db.cirs :: db.cirs[n].status.resourceId
  }

  function AccountOf(w: World): Account {
    Account(IdsOf(w.db), w.held, w.issued, w.leaked, w.dangling)
  }

  predicate Named(a: Account, id: ResourceId) {
    IsMachine(id) && exists n :: n in a.ids && a.ids[n] == id
  }

  /** No machine is named twice, and what is handed out is what was leaked plus
      what is named and not dangling. */
  ghost predicate Balanced(a: Account) {
    && (forall m, n :: m in a.ids && n in a.ids && IsMachine(a.ids[m]) && a.ids[m] == a.ids[n] ==> m == n)
    && (forall id :: id in a.held <==> id in a.leaked || (Named(a, id) && id !in a.dangling))
    && (forall id :: id in a.leaked ==> !Named(a, id))
    && (forall id :: id in a.dangling ==> Named(a, id))
    && (forall id :: id in a.held || Named(a, id) ==> id in a.issued)
  }

  // ------------------------------------------------- moves on the account

  function NoteAcquired(a: Account, n: string, id: ResourceId, landed: bool): Account {
    var b := a.(held := a.held + {id}, issued := a.issued + {id});
    if landed then b.(ids := a.ids[n := id]) else b.(leaked := a.leaked + {id})
  }

  /** The exact condition: a machine that is not handed out may be handed out now
      if and only if no object still names it after a Release whose write was
      lost; whether the write after this Acquire lands makes no difference. */
  lemma AcquiredBalances(a: Account, n: string, id: ResourceId, landed: bool)
    requires Balanced(a) && n in a.ids && !IsMachine(a.ids[n]) && IsMachine(id) && id !in a.held
    ensures Balanced(NoteAcquired(a, n, id, landed)) <==> id !in a.dangling
  {
    var a' := NoteAcquired(a, n, id, landed);
    assert Named(a, id) <==> id in a.dangling;
    if id in a.dangling {
      var m :| m in a.ids && a.ids[m] == id;
      assert m != n && a'.ids[m] == id;
      assert landed ==> a'.ids[n] == id;
      assert Named(a', id);
    } else {
      forall x ensures Named(a', x) <==> Named(a, x) || (landed && x == id) {
        NamedAfterUpdate(a, a', n, x);
      }
    }
  }

  lemma NamedAfterUpdate(a: Account, a': Account, n: string, x: ResourceId)
    requires n in a.ids && n in a'.ids && a'.ids == a.ids[n := a'.ids[n]] && !IsMachine(a.ids[n])
    ensures Named(a', x) <==> Named(a, x) || (IsMachine(x) && x == a'.ids[n])
  {
    if Named(a, x) {
      var m :| m in a.ids && a.ids[m] == x;
      assert a'.ids[m] == x;
    }
    if Named(a', x) {
      var m :| m in a'.ids && a'.ids[m] == x;
      assert m != n ==> a.ids[m] == x;
    }
  }

  /** The machine of `n` is given back; a landed write makes the object forget
      it, by the dummy id or by vanishing. */
  function NoteReturned(a: Account, n: string, landed: bool, gone: bool): Account
    requires n in a.ids
  {
    var id := a.ids[n];
    var b := a.(held := a.held - {id});
    if !landed then b.(dangling := a.dangling + {id})
    else b.(dangling := a.dangling - {id}, ids := if gone then a.ids - {n} else a.ids[n := FallbackId])
  }

  lemma ReturnedBalances(a: Account, n: string, landed: bool, gone: bool)
    requires Balanced(a) && n in a.ids && IsMachine(a.ids[n])
    ensures Balanced(NoteReturned(a, n, landed, gone))
  {
    var a' := NoteReturned(a, n, landed, gone);
    var id := a.ids[n];
    assert Named(a, id);
    forall x ensures Named(a', x) <==> Named(a, x) && (landed ==> x != id) {
      if Named(a', x) {
        var m :| m in a'.ids && a'.ids[m] == x;
        assert m in a.ids && a.ids[m] == x;
      }
      if Named(a, x) && (landed ==> x != id) {
        var m :| m in a.ids && a.ids[m] == x;
        assert m in a'.ids && a'.ids[m] == x;
      }
    }
  }

  /** Objects without a machine come, go or change without one. */
  lemma MachinelessBalances(a: Account, a': Account, n: string)
    requires Balanced(a)
    requires a'.held == a.held && a'.issued == a.issued && a'.leaked == a.leaked && a'.dangling == a.dangling
    requires n in a.ids ==> !IsMachine(a.ids[n])
    requires n in a'.ids ==> !IsMachine(a'.ids[n])
    requires forall m :: m != n ==> (m in a.ids <==> m in a'.ids) && (m in a.ids ==> a'.ids[m] == a.ids[m])
    ensures Balanced(a')
  {
    forall x ensures Named(a', x) <==> Named(a, x) {
      if Named(a', x) {
        var m :| m in a'.ids && a'.ids[m] == x;
        assert m in a.ids && a.ids[m] == x;
      }
      if Named(a, x) {
        var m :| m in a.ids && a.ids[m] == x;
        assert m in a'.ids && a'.ids[m] == x;
      }
    }
  }

  // ------------------------------------------------------------------ steps

  /** A machine whose Release was not followed by a landed write is not handed
      out again before that write has been made up for. */
  predicate Careful(w: World, s: Step) {
    match s
    case Reconcile(name, r, d) =>
      HasPool(w, name) ==>
        var c := w.db.cirs[name];
        AcquiredId(Handle(c, w.db.pools[c.spec.poolRef], r, w.clock).calls, r) !! w.dangling
    case _ => true
  }

  ghost predicate Kept(w: World) {
    Balanced(AccountOf(w))
  }

  /** Which pass acquires, which gives back, and what that does to the id. */
  lemma PassOnAccount(c: Cir, b: Book, p: Pool, r: Replies, t: Terms, admin: bool, clock: Time)
    requires Sound(c, b, t, admin, clock) && p.IsFallback() == t.fallback
    ensures var v := Handle(c, p, r, clock);
            PassShape(c, Persisted(c, v, clock), Writes(v), AcquiredId(v.calls, r), ReturnedId(v.calls, r))
  {
    hide LeaseFits, Disciplined, Stamps, DebtFits, KeptFits;
    match c.status.state
    case StateNone =>
    case StateProvisioning =>
    case StateProvisioningWait =>
    case StateAvailable =>
    case StateMaintenance =>
    case StateInUse =>
    case StateCleaning =>
    case StateCleaningWait =>
    case _ =>
  }

  lemma StoreOnIds(db: Db, c: Cir)
    ensures IdsOf(StoreCir(db, c)) ==
              if Vanishes(c) then IdsOf(db) - {c.meta.name} else IdsOf(db)[c.meta.name := c.status.resourceId]
  {
  }

  lemma IdsAt(db: Db, n: string)
    requires n in db.cirs
    ensures n in IdsOf(db) && IdsOf(db)[n] == db.cirs[n].status.resourceId
  {
  }

  lemma PoolKindFits(w: World, n: string)
    requires n in w.db.pools && PoolOk(w, n)
    ensures n in w.cfg.terms && w.db.pools[n].IsFallback() == w.cfg.terms[n].fallback
  {
  }

  /** What `PassOnAccount` says of a pass that leaves `c'`. */
  predicate PassShape(c: Cir, c': Cir, writes: bool, got: set<ResourceId>, back: set<ResourceId>) {
    && c'.meta.name == c.meta.name
    && (got != {} ==> writes && !IsMachine(c.status.resourceId) && got == {c'.status.resourceId}
                      && back == {} && !Vanishes(c'))
    && (back != {} ==> writes && IsMachine(c.status.resourceId) && back == {c.status.resourceId}
                       && (Vanishes(c') || c'.status.resourceId == FallbackId))
    && (got == {} && back == {} && (c'.status.resourceId != c.status.resourceId || Vanishes(c')) ==>
          !IsMachine(c.status.resourceId) && !IsMachine(c'.status.resourceId))
  }

  /** The account after the provider calls and, when it landed, the write. */
  function AccountAfter(a: Account, n: string, c': Cir, got: set<ResourceId>, back: set<ResourceId>,
                        landed: bool): Account
  {
    Account(if !landed then a.ids else if Vanishes(c') then a.ids - {n} else a.ids[n := c'.status.resourceId],
            (a.held + got) - back,
            a.issued + got,
            if landed then a.leaked else a.leaked + got,
            if landed then a.dangling - back else a.dangling + back)
  }

  lemma PassMakesAccount(w: World, c: Cir, p: Pool, r: Replies, d: Delivery)
    requires c.meta.name in w.db.cirs && w.db.cirs[c.meta.name] == c
    requires Persisted(c, Handle(c, p, r, w.clock), w.clock).meta.name == c.meta.name
    ensures var v := Handle(c, p, r, w.clock);
            AccountOf(PassOver(w, c, p, r, d)) ==
              AccountAfter(AccountOf(w), c.meta.name, Persisted(c, v, w.clock), AcquiredId(v.calls, r),
                           ReturnedId(v.calls, r), Writes(v) && d.Arrives())
  {
    hide Handle, Persisted, AcquiredId, ReturnedId, CallEvents, WriteEvents, StoreCir, Vanishes, IdsOf, Writes;
    StoreOnIds(w.db, Persisted(c, Handle(c, p, r, w.clock), w.clock));
  }

  lemma AccountAfterBalances(a: Account, c: Cir, c': Cir, got: set<ResourceId>, back: set<ResourceId>, writes: bool,
                             landed: bool)
    requires Balanced(a) && PassShape(c, c', writes, got, back)
    requires c.meta.name in a.ids && a.ids[c.meta.name] == c.status.resourceId
    requires forall id :: id in got ==> IsMachine(id) && id !in a.held
    ensures Balanced(AccountAfter(a, c.meta.name, c', got, back, landed)) <==> got !! a.dangling
  {
    hide Balanced, IsMachine, Vanishes;
    var n := c.meta.name;
    var a' := AccountAfter(a, n, c', got, back, landed);
    var id := c'.status.resourceId;
    if got != {} {
      assert id in got;
      AcquiredBalances(a, n, id, landed);
      assert a' == NoteAcquired(a, n, id, landed);
    } else if back != {} {
      ReturnedBalances(a, n, landed, Vanishes(c'));
      assert a' == NoteReturned(a, n, landed, Vanishes(c'));
    } else if landed && (id != c.status.resourceId || Vanishes(c')) {
      MachinelessBalances(a, a', n);
    } else {
      assert a' == a;
    }
  }

  lemma ReconcileBalances(w: World, name: string, r: Replies, d: Delivery)
    requires Inv(w) && Kept(w) && HasPool(w, name) && Legal(w, Reconcile(name, r, d))
    ensures Kept(ReconcileStep(w, name, r, d)) <==> Careful(w, Reconcile(name, r, d))
  {
    hide Sound, Handle, Persisted, AcquiredId, ReturnedId, Balanced, Flags, PoolOk, SnapOk, LifeOk, PassOver, Writes,
         AccountAfter;
    var c := w.db.cirs[name];
    var p := w.db.pools[c.spec.poolRef];
    assert CirOk(w, name) && PoolOk(w, c.spec.poolRef);
    PoolKindFits(w, c.spec.poolRef);
    PassEvents(c, p, r, w.clock);
    PassOnAccount(c, BookFor(w, c.meta.uid), p, r, w.cfg.terms[c.spec.poolRef], w.cfg.admin, w.clock);
    PassMakesAccount(w, c, p, r, d);
    var v := Handle(c, p, r, w.clock);
    var c' := Persisted(c, v, w.clock);
    var got := AcquiredId(v.calls, r);
    var back := ReturnedId(v.calls, r);
    AccountAfterBalances(AccountOf(w), c, c', got, back, Writes(v), Writes(v) && d.Arrives());
  }

  /** A request, a label, a mark or an edit keeps the status it found. */
  lemma QuietCommitBalances(w: World, c: Cir, es: seq<Event>)
    requires Inv(w) && Kept(w) && c.meta.name in w.db.cirs
    requires c.status == w.db.cirs[c.meta.name].status
    requires c.meta.finalizer == w.db.cirs[c.meta.name].meta.finalizer
    ensures Kept(Commit(w, c, es))
  {
    hide Balanced, Inv, IdsOf;
    IsGuarded(w, c.meta.name);
    IdsAt(w.db, c.meta.name);
    StoreOnIds(w.db, c);
    var a := AccountOf(w);
    var a' := AccountOf(Commit(w, c, es));
    if Vanishes(c) {
      MachinelessBalances(a, a', c.meta.name);
    } else {
      assert a'.ids == a.ids;
    }
  }

  lemma SwapBalances(w: World, wanted: Cir, es: seq<Event>, d: Delivery)
    requires Inv(w) && Kept(w)
    requires IsCurrent(w.db, wanted) ==> wanted.meta.finalizer == w.db.cirs[wanted.meta.name].meta.finalizer
    ensures Kept(Swap(w, wanted, es, d))
  {
    hide Balanced, Inv, Commit;
    if d.Arrives() && IsCurrent(w.db, wanted) {
      NameFits(w, wanted.meta.name);
      QuietCommitBalances(w, MergeMain(w.db.cirs[wanted.meta.name], wanted), es);
    }
  }

  lemma CreateBalances(w: World, name: string, d: Delivery)
    requires Kept(w)
    ensures Kept(PassCreateStep(w, name, d))
  {
    hide Balanced;
    var w' := PassCreateStep(w, name, d);
    var a := AccountOf(w);
    var a' := AccountOf(w');
    if Creates(w, name, d) {
      assert a'.ids == a.ids[name := NoId];
      MachinelessBalances(a, a', name);
    }
  }

  lemma PoolStepBalances(w: World, s: Step)
    requires Kept(w) && OnlyPoolsOrReads(s)
    ensures Kept(Apply(w, s))
  {
    hide Balanced, ReconcileStep, Swap, PassCreateStep;
    PoolStepFrame(w, s);
    assert IdsOf(Apply(w, s).db) == IdsOf(w.db);
    assert AccountOf(Apply(w, s)) == AccountOf(w);
  }

  /** A step keeps the books balanced if and only if it is careful. */
  lemma StepBalances(w: World, s: Step)
    requires Inv(w) && Kept(w) && Legal(w, s)
    ensures Kept(Apply(w, s)) <==> Careful(w, s)
  {
    hide Kept, Swap, Commit, ReconcileStep, PassCreateStep, CirOk, LifeOk, PoolOk, SnapOk;
    match s
    case AcquireWrite(snap, d) =>
      if snap in w.snapshots && IsCurrent(w.db, snap) {
        AcceptedMeansUnchanged(w, snap);
      }
      if snap in w.snapshots {
        SwapBalances(w, Acquiring(snap), if d.Delivered? then [Granted(w.clock)] else [], d);
      }
    case ReleaseWrite(snap, d) =>
      if snap in w.snapshots && IsCurrent(w.db, snap) {
        AcceptedMeansUnchanged(w, snap);
      }
      if snap in w.snapshots {
        SwapBalances(w, Releasing(snap), [Freed(w.clock)], d);
      }
    case PassLabel(snap, d) =>
      if snap in w.snapshots && IsCurrent(w.db, snap) {
        AcceptedMeansUnchanged(w, snap);
      }
      if snap in w.snapshots {
        SwapBalances(w, Evicting(snap), [], d);
      }
    case EditSpec(name, state) =>
      if name in w.db.cirs {
        NameFits(w, name);
        QuietCommitBalances(w, WithSpecState(w.db.cirs[name], state), []);
      }
    case Delete(name) =>
      if name in w.db.cirs {
        var c := w.db.cirs[name];
        NameFits(w, name);
        QuietCommitBalances(w, c.(meta := c.meta.(deleting := true)), []);
      }
    case Reconcile(name, r, d) =>
      if HasPool(w, name) {
        ReconcileBalances(w, name, r, d);
      } else {
        assert ReconcileStep(w, name, r, d) == w by {
          WithoutPool(w, name, r, d);
        }
      }
    case PassCreate(name, d) => CreateBalances(w, name, d);
    case _ => PoolStepBalances(w, s);
  }

  predicate CarefulRun(w: World, steps: seq<Step>)
    decreases |steps|
  {
    steps == [] || (Careful(w, steps[0]) && CarefulRun(Apply(w, steps[0]), steps[1..]))
  }

  /** The books balance at every moment of the run. */
  ghost predicate KeptThroughout(w: World, steps: seq<Step>)
    decreases |steps|
  {
    Kept(w) && (steps == [] || KeptThroughout(Apply(w, steps[0]), steps[1..]))
  }

  lemma {:induction false} RunBalances(w: World, steps: seq<Step>)
    requires Inv(w) && Kept(w) && LegalRun(w, steps)
    ensures KeptThroughout(w, steps) <==> CarefulRun(w, steps)
    ensures CarefulRun(w, steps) ==> Kept(Run(w, steps))
    decreases |steps|
  {
    hide Inv, Kept, Apply, Legal, Careful;
    if steps != [] {
      StepKeeps(w, steps[0]);
      StepBalances(w, steps[0]);
      if Careful(w, steps[0]) {
        RunBalances(Apply(w, steps[0]), steps[1..]);
      } else {
        NotKeptNow(Apply(w, steps[0]), steps[1..]);
      }
    }
  }

  lemma NotKeptNow(w: World, steps: seq<Step>)
    requires !Kept(w)
    ensures !KeptThroughout(w, steps)
  {
    hide Kept, Apply;
  }

  /** A provider that never reissues an id is always careful. */
  lemma FreshIsCareful(w: World, s: Step)
    requires Kept(w) && Legal(w, s) && !w.cfg.reissues
    ensures Careful(w, s)
  {
    hide Handle;
    if s.Reconcile? && HasPool(w, s.name) {
      var c := w.db.cirs[s.name];
      var got := AcquiredId(Handle(c, w.db.pools[c.spec.poolRef], s.replies, w.clock).calls, s.replies);
      forall id | id in got ensures id !in w.dangling {
        assert id in AccountOf(w).dangling ==> Named(AccountOf(w), id) && id in AccountOf(w).issued;
      }
    }
  }

  lemma {:induction false} FreshRunIsCareful(w: World, steps: seq<Step>)
    requires Inv(w) && Kept(w) && LegalRun(w, steps) && !w.cfg.reissues
    ensures CarefulRun(w, steps)
    decreases |steps|
  {
    hide Inv, Kept, Apply, Legal, Careful;
    if steps != [] {
      FreshIsCareful(w, steps[0]);
      StepKeeps(w, steps[0]);
      StepBalances(w, steps[0]);
      ConfigStays(w, steps[0]);
      FreshRunIsCareful(Apply(w, steps[0]), steps[1..]);
    }
  }

  // --------------------------------------------------------------- theorems

  /** No two CIResources ever name the same machine, and the machines handed out
      are at every moment those named and not dangling plus those leaked, the
      ones whose Acquire was not followed by a landed write, if and only if no
      machine is handed out again while an object still names it. With a
      provider that never reissues an id that is every run. */
  lemma Conservation(w: World, steps: seq<Step>)
    requires Initial(w) && LegalRun(w, steps)
    ensures KeptThroughout(w, steps) <==> CarefulRun(w, steps)
    ensures CarefulRun(w, steps) ==> Balanced(AccountOf(Run(w, steps)))
    ensures !w.cfg.reissues ==> CarefulRun(w, steps)
  {
    InitialInv(w);
    RunBalances(w, steps);
    if !w.cfg.reissues {
      FreshRunIsCareful(w, steps);
    }
  }

  /** The write after every Acquire and Release lands. */
  predicate Lands(w: World, s: Step) {
    match s
    case Reconcile(name, r, d) =>
      HasPool(w, name) ==>
        var c := w.db.cirs[name];
        var calls := Handle(c, w.db.pools[c.spec.poolRef], r, w.clock).calls;
        AcquiredId(calls, r) + ReturnedId(calls, r) != {} ==> d.Arrives()
    case _ => true
  }

  predicate LandingRun(w: World, steps: seq<Step>)
    decreases |steps|
  {
    steps == [] || (Lands(w, steps[0]) && LandingRun(Apply(w, steps[0]), steps[1..]))
  }

  lemma LandingStep(w: World, s: Step)
    requires Inv(w) && Legal(w, s) && Lands(w, s) && w.leaked == {} && w.dangling == {}
    ensures Careful(w, s) && Apply(w, s).leaked == {} && Apply(w, s).dangling == {}
  {
    hide Commit, Handle, Persisted, CallEvents, WriteEvents, Sound;
    match s
    case Reconcile(name, r, d) =>
      if HasPool(w, name) {
        var c := w.db.cirs[name];
        var p := w.db.pools[c.spec.poolRef];
        assert CirOk(w, name) && PoolOk(w, c.spec.poolRef);
        PassOnAccount(c, BookFor(w, c.meta.uid), p, r, w.cfg.terms[c.spec.poolRef], w.cfg.admin, w.clock);
        PassSets(w, c, p, r, d);
      }
    case _ => OtherSets(w, s);
  }

  lemma PassSets(w: World, c: Cir, p: Pool, r: Replies, d: Delivery)
    ensures var v := Handle(c, p, r, w.clock);
            var landed := Writes(v) && d.Arrives();
            var w' := PassOver(w, c, p, r, d);
            && w'.leaked == (if landed then w.leaked else w.leaked + AcquiredId(v.calls, r))
            && w'.dangling == (if landed then w.dangling - ReturnedId(v.calls, r)
                               else w.dangling + ReturnedId(v.calls, r))
  {
  }

  lemma OtherSets(w: World, s: Step)
    requires !s.Reconcile?
    ensures Apply(w, s).leaked == w.leaked && Apply(w, s).dangling == w.dangling
  {
  }

  lemma {:induction false} RunLands(w: World, steps: seq<Step>)
    requires Inv(w) && Kept(w) && LegalRun(w, steps) && LandingRun(w, steps)
    requires w.leaked == {} && w.dangling == {}
    ensures Kept(Run(w, steps)) && Run(w, steps).leaked == {} && Run(w, steps).dangling == {}
    decreases |steps|
  {
    hide Inv, Kept, Apply, Legal, Lands, Careful;
    if steps != [] {
      StepKeeps(w, steps[0]);
      LandingStep(w, steps[0]);
      StepBalances(w, steps[0]);
      RunLands(Apply(w, steps[0]), steps[1..]);
    }
  }

  /** When those writes all land, the provider, reissuing or not, has handed out
      exactly the machines that the live CIResources name, each to one of them. */
  lemma ExactConservation(w: World, steps: seq<Step>)
    requires Initial(w) && LegalRun(w, steps) && LandingRun(w, steps)
    ensures var a := AccountOf(Run(w, steps));
            && (forall id :: id in a.held <==> Named(a, id))
            && (forall m, n :: m in a.ids && n in a.ids && IsMachine(a.ids[m]) && a.ids[m] == a.ids[n] ==> m == n)
  {
    InitialInv(w);
    RunLands(w, steps);
  }

  /** A careless run: a provider that reissues ids, one lost write after a
      Release, and the id is handed out before that pass is made again; two
      CIResources end up naming the same machine. */
  lemma LostReleaseShares(w: World, a: string, b: string) returns (steps: seq<Step>)
    requires Inv(w) && w.cfg.reissues && a in w.db.cirs && b in w.db.cirs && HasPool(w, a) && HasPool(w, b)
    requires w.db.cirs[a].status.state == StateDelete && IsMachine(w.db.cirs[a].status.resourceId)
    requires w.db.cirs[b].status.state == StateProvisioning
    requires !w.db.pools[w.db.cirs[b].spec.poolRef].IsFallback()
    ensures LegalRun(w, steps) && !CarefulRun(w, steps)
    ensures var w' := Run(w, steps);
            && a in w'.db.cirs && b in w'.db.cirs && a != b
            && w'.db.cirs[a].status.resourceId == w'.db.cirs[b].status.resourceId == w.db.cirs[a].status.resourceId
  {
    hide Inv, Handle, PassOver;
    NameFits(w, a);
    NameFits(w, b);
    IsGuarded(w, b);
    var id := w.db.cirs[a].status.resourceId;
    var none: Replies := Replies(true, Failed(false), Failed(false), Failed(false), Failed(false), Failed(false));
    var giveBack := none.(release := Ok(()));
    var handOut := none.(acquire := Ok(Resource(id, "", "")));
    var first := Reconcile(a, giveBack, Undelivered);
    var second := Reconcile(b, handOut, Delivered);
    steps := [first, second];
    var w1 := Apply(w, first);
    var w2 := Apply(w1, second);
    ReleaseLost(w, a, giveBack);
    Reissued(w1, b, handOut);
    assert steps[1..] == [second] && [second][1..] == [];
    assert Run(w, steps) == w2 by {
      assert Run(w1, [second]) == Run(w2, []);
    }
    assert LegalRun(w1, [second]);
  }

  lemma ReleaseLost(w: World, a: string, r: Replies)
    requires Inv(w) && HasPool(w, a) && r.connects && r.release.Ok?
    requires w.cfg.Strict() ==> w.db.cirs[a].status.resourceId in w.held
    requires w.db.cirs[a].status.state == StateDelete && IsMachine(w.db.cirs[a].status.resourceId)
    ensures var w1 := Apply(w, Reconcile(a, r, Undelivered));
            && Legal(w, Reconcile(a, r, Undelivered))
            && w.db.cirs[a].status.resourceId in w1.dangling
            && w1.db == w.db && w1.cfg == w.cfg && w1.clock == w.clock
            && w1.held == w.held - {w.db.cirs[a].status.resourceId}
  {
    hide Inv;
    IsGuarded(w, a);
    var c := w.db.cirs[a];
    var p := w.db.pools[c.spec.poolRef];
    var v := Handle(c, p, r, w.clock);
    assert v == SaveMain(WithFinalizer(c, false), [Call.Release(c.status.resourceId)]);
    hide Handle, HandleDelete, Persisted, Commit;
    assert PassOver(w, c, p, r, Undelivered).held == w.held - {c.status.resourceId};
    assert PassOver(w, c, p, r, Undelivered).dangling == w.dangling + {c.status.resourceId};
  }

  lemma Reissued(w: World, b: string, r: Replies)
    requires b in w.db.cirs && w.db.cirs[b].meta.name == b && w.db.cirs[b].meta.finalizer
    requires HasPool(w, b) && r.connects && r.acquire.Ok?
    requires IsMachine(r.acquire.value.id) && r.acquire.value.id !in w.held && w.cfg.reissues
    requires w.db.cirs[b].status.state == StateProvisioning
    requires !w.db.pools[w.db.cirs[b].spec.poolRef].IsFallback()
    ensures var w2 := Apply(w, Reconcile(b, r, Delivered));
            && Legal(w, Reconcile(b, r, Delivered))
            && (r.acquire.value.id in w.dangling ==> !Careful(w, Reconcile(b, r, Delivered)))
            && w2.db.cirs == w.db.cirs[b := w2.db.cirs[b]]
            && b in w2.db.cirs && w2.db.cirs[b].status.resourceId == r.acquire.value.id
  {
  }
}
