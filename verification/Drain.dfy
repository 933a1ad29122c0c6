/** Draining a pool that is being deleted: a rank that no step raises and every
    productive step lowers, and runs of the controllers that reach the end. */
module Drain {
  import opened Api
  import opened Providers
  import opened CirFsm
  import opened CirController
  import opened Requests
  import opened Histories
  import opened OfcirSystem
  import opened Lifecycle

  // ------------------------------------------------------- rank of a member

  /** How far a member is from the end. A requested resource still has a lease
      to run out; a requested fallback without a machine has a longer way. */
  function Stage(c: Cir, fallback: bool): nat {
    var requested := c.spec.state == StateInUse;
    match c.status.state
    case StateDelete => 1
    case StateMaintenance => if c.spec.state == StateAvailable then 3 else 2
    case StateAvailable =>
      if requested then (if NeedsMachine(c, fallback) then 12 else 8)
      else if c.spec.state == StateMaintenance then 3
      else 2
    case StateInUse =>
      if c.spec.state == StateAvailable then 6
      else if NeedsMachine(c, fallback) then 11
      else 7
    case StateCleaning => if requested then 14 else 5
    case StateCleaningWait => if requested then 13 else 4
    case StateProvisioningWait => if requested then 9 else 4
    case StateProvisioning => if requested then 10 else if fallback then 4 else 5
    case StateNone => if c.meta.finalizer then 15 else 16
    case _ => 0
  }

  function Rank(c: Cir, fallback: bool): nat {
    3 * Stage(c, fallback) + (if c.meta.evicted then 0 else 1) + (if c.meta.deleting then 0 else 1)
  }

  predicate StageFalls(c: Cir, v: Verdict, now: Time, fallback: bool) {
    var c' := Persisted(c, v, now);
    Writes(v) ==> Vanishes(c') || Stage(c', fallback) < Stage(c, fallback)
  }

  lemma EarlyStageFalls(c: Cir, p: Pool, r: Replies, now: Time, fallback: bool)
    requires Shaped(c, fallback) && p.IsFallback() == fallback
    requires c.status.state == StateNone || c.status.state == StateProvisioning
          || c.status.state == StateProvisioningWait
    requires forall id :: id in AcquiredId(Handle(c, p, r, now).calls, r) ==> IsMachine(id)
    ensures StageFalls(c, Handle(c, p, r, now), now, fallback)
  {
    if r.acquire.Ok? {
      var id := r.acquire.value.id;
      assert id in AcquiredId(Handle(c, p, r, now).calls, r) ==> IsMachine(id);
    }
  }

  lemma IdleStageFalls(c: Cir, p: Pool, r: Replies, now: Time, fallback: bool)
    requires Shaped(c, fallback) && p.IsFallback() == fallback
    requires c.status.state == StateAvailable || c.status.state == StateMaintenance
    ensures StageFalls(c, Handle(c, p, r, now), now, fallback)
  {
  }

  lemma LateStageFalls(c: Cir, p: Pool, r: Replies, now: Time, fallback: bool)
    requires Shaped(c, fallback) && p.IsFallback() == fallback
    requires c.status.state == StateInUse || c.status.state == StateCleaning
          || c.status.state == StateCleaningWait || c.status.state == StateDelete
    ensures StageFalls(c, Handle(c, p, r, now), now, fallback)
  {
  }

  /** Every write of a pass brings the object nearer to its end. */
  lemma PassLowersRank(c: Cir, b: Book, p: Pool, r: Replies, t: Terms, admin: bool, now: Time)
    requires Sound(c, b, t, admin, now) && p.IsFallback() == t.fallback
    requires forall id :: id in AcquiredId(Handle(c, p, r, now).calls, r) ==> IsMachine(id)
    ensures var v := Handle(c, p, r, now);
            var c' := Persisted(c, v, now);
            Writes(v) ==> Vanishes(c') || Rank(c', t.fallback) < Rank(c, t.fallback)
  {
    match c.status.state {
      case StateNone => EarlyStageFalls(c, p, r, now, t.fallback);
      case StateProvisioning => EarlyStageFalls(c, p, r, now, t.fallback);
      case StateProvisioningWait => EarlyStageFalls(c, p, r, now, t.fallback);
      case StateAvailable => IdleStageFalls(c, p, r, now, t.fallback);
      case StateMaintenance => IdleStageFalls(c, p, r, now, t.fallback);
      case _ => LateStageFalls(c, p, r, now, t.fallback);
    }
    KeepsMarks(c, p, r, now);
  }

  lemma KeepsMarks(c: Cir, p: Pool, r: Replies, now: Time)
    ensures var c' := Persisted(c, Handle(c, p, r, now), now);
            c'.meta.evicted == c.meta.evicted && c'.meta.deleting == c.meta.deleting
  {
    hide Handle;
    OnlyStateAndFinalizerMove(c, p, r, now);
  }

  // ------------------------------------------------------------ rank of a pool

  ghost function SumRank(cirs: map<string, Cir>, names: set<string>, fallback: bool): nat
    requires names <= cirs.Keys
  {
    if names == {} then 0
    else
      var n :| n in names;
      Rank(cirs[n], fallback) + SumRank(cirs, names - {n}, fallback)
  }

  lemma {:induction false} SumRemove(cirs: map<string, Cir>, names: set<string>, fallback: bool, n: string)
    requires names <= cirs.Keys && n in names
    ensures SumRank(cirs, names, fallback) == Rank(cirs[n], fallback) + SumRank(cirs, names - {n}, fallback)
    decreases |names|
  {
    var m :| m in names && SumRank(cirs, names, fallback)
                           == Rank(cirs[m], fallback) + SumRank(cirs, names - {m}, fallback);
    if m != n {
      SumRemove(cirs, names - {m}, fallback, n);
      SumRemove(cirs, names - {n}, fallback, m);
      assert names - {m} - {n} == names - {n} - {m};
    }
  }

  lemma {:induction false} SumSame(cirs: map<string, Cir>, cirs': map<string, Cir>, names: set<string>, fallback: bool)
    requires names <= cirs.Keys && names <= cirs'.Keys
    requires forall n :: n in names ==> Rank(cirs'[n], fallback) == Rank(cirs[n], fallback)
    ensures SumRank(cirs', names, fallback) == SumRank(cirs, names, fallback)
    decreases |names|
  {
    if names != {} {
      var n :| n in names;
      SumRemove(cirs, names, fallback, n);
      SumRemove(cirs', names, fallback, n);
      SumSame(cirs, cirs', names - {n}, fallback);
    }
  }

  /** Deletion of the pool has been asked for. */
  predicate IsMarked(w: World, pool: string) {
    pool in w.cfg.terms && pool in w.db.pools && w.db.pools[pool].deleting
  }

  /** A pass is under way that read the pool before its deletion. */
  predicate StalePass(w: World, pool: string) {
    !w.pass.Idle? && w.pass.pool.name == pool && !w.pass.pool.deleting
  }

  predicate Drains(w: World, pool: string) {
    IsMarked(w, pool) && !StalePass(w, pool)
  }

  /** The members' ranks, and one for the pool itself. */
  ghost function PoolRank(w: World, pool: string): nat
    requires pool in w.cfg.terms
  {
    SumRank(w.db.cirs, MemberNames(w.db, pool), w.cfg.terms[pool].fallback) + (if pool in w.db.pools then 1 else 0)
  }

  /** Storing `c` over its old self moves the pool's rank by that difference. */
  lemma CommitMovesRank(w: World, c: Cir, es: seq<Event>, pool: string)
    requires pool in w.cfg.terms && c.meta.name in w.db.cirs
    requires c.spec.poolRef == w.db.cirs[c.meta.name].spec.poolRef
    ensures var old_ := w.db.cirs[c.meta.name];
            var fb := w.cfg.terms[pool].fallback;
            PoolRank(Commit(w, c, es), pool) ==
              if c.spec.poolRef != pool then PoolRank(w, pool)
              else PoolRank(w, pool) - Rank(old_, fb) + (if Vanishes(c) then 0 else Rank(c, fb))
  {
    hide Commit, Vanishes;
    CommitFrame(w, c, es);
    StoreMovesSum(w.db, Commit(w, c, es).db, c, w.db.next, pool, w.cfg.terms[pool].fallback);
  }

  lemma StoreMovesSum(db: Db, db': Db, c: Cir, version: nat, pool: string, fb: bool)
    requires c.meta.name in db.cirs && c.spec.poolRef == db.cirs[c.meta.name].spec.poolRef
    requires db'.cirs == (if Vanishes(c) then db.cirs - {c.meta.name}
                          else db.cirs[c.meta.name := Renumbered(c, version)])
    ensures c.spec.poolRef == pool ==> c.meta.name in MemberNames(db, pool)
    ensures SumRank(db'.cirs, MemberNames(db', pool), fb) ==
              if c.spec.poolRef != pool then SumRank(db.cirs, MemberNames(db, pool), fb)
              else SumRank(db.cirs, MemberNames(db, pool), fb) - Rank(db.cirs[c.meta.name], fb)
                   + (if Vanishes(c) then 0 else Rank(c, fb))
  {
    hide Rank, Vanishes;
    var n := c.meta.name;
    var names := MemberNames(db, pool);
    var names' := MemberNames(db', pool);
    if c.spec.poolRef != pool {
      assert names' == names;
      SumSame(db.cirs, db'.cirs, names, fb);
    } else {
      SumRemove(db.cirs, names, fb, n);
      assert names' - {n} == names - {n};
      SumSame(db.cirs, db'.cirs, names - {n}, fb);
      if Vanishes(c) {
        assert names' == names - {n};
      } else {
        assert n in names';
        SumRemove(db'.cirs, names', fb, n);
        RankIgnoresVersion(c, version, fb);
      }
    }
  }

  lemma RankIgnoresVersion(c: Cir, version: nat, fb: bool)
    ensures Rank(Renumbered(c, version), fb) == Rank(c, fb)
  {
  }

  // ------------------------------------------------------- no step raises it

  /** No new grants from this pool and no edits by hand of its members: what
      "being drained" excludes. Releases, deletions, everything the controllers do,
      and whatever happens to other pools may go on. */
  predicate Quiet(w: World, s: Step, pool: string) {
    match s
    case AcquireWrite(snap, _) => snap.spec.poolRef != pool
    case EditSpec(name, _) => name in w.db.cirs ==> w.db.cirs[name].spec.poolRef != pool
    case _ => true
  }

  /** What a member is, version aside. */
  function Content(c: Cir): Cir {
    Renumbered(c, 0)
  }

  function MemberContents(w: World, pool: string): map<string, Cir> {
    map n | n in MemberNames(w.db, pool) :: Content(w.db.cirs[n])
  }

  /** Some member, or the pool itself, is not what it was. */
  ghost predicate Productive(w: World, s: Step, pool: string) {
    || MemberContents(Apply(w, s), pool) != MemberContents(w, pool)
    || (pool in w.db.pools && pool !in Apply(w, s).db.pools)
  }

  ghost predicate Descends(w: World, s: Step, pool: string)
    requires pool in w.cfg.terms && Apply(w, s).cfg == w.cfg
  {
    && PoolRank(Apply(w, s), pool) <= PoolRank(w, pool)
    && (Productive(w, s, pool) ==> PoolRank(Apply(w, s), pool) < PoolRank(w, pool))
  }

  lemma SameMembersDescend(w: World, w': World, pool: string)
    requires pool in w.cfg.terms && w'.cfg == w.cfg
    requires MemberContents(w', pool) == MemberContents(w, pool)
    requires pool in w'.db.pools ==> pool in w.db.pools
    ensures PoolRank(w', pool) == PoolRank(w, pool) - (if pool in w.db.pools && pool !in w'.db.pools then 1 else 0)
  {
    var names := MemberNames(w.db, pool);
    assert names == MemberContents(w, pool).Keys == MemberContents(w', pool).Keys == MemberNames(w'.db, pool);
    var fb := w.cfg.terms[pool].fallback;
    forall n | n in names ensures Rank(w'.db.cirs[n], fb) == Rank(w.db.cirs[n], fb) {
      assert MemberContents(w', pool)[n] == MemberContents(w, pool)[n];
      RankIgnoresVersion(w.db.cirs[n], 0, fb);
      RankIgnoresVersion(w'.db.cirs[n], 0, fb);
    }
    SumSame(w.db.cirs, w'.db.cirs, names, fb);
  }

  /** A commit that changes the content lowers the member's rank or ends it. */
  predicate Lowers(old_: Cir, c: Cir, fb: bool) {
    Content(c) == Content(old_) || Vanishes(c) || Rank(c, fb) < Rank(old_, fb)
  }

  lemma RankIsPositive(c: Cir, b: Book, t: Terms, admin: bool, clock: Time)
    requires Sound(c, b, t, admin, clock)
    ensures Rank(c, t.fallback) > 0
  {
  }

  lemma OthersKeepContents(w: World, c: Cir, es: seq<Event>, pool: string)
    requires c.meta.name in w.db.cirs && c.spec.poolRef == w.db.cirs[c.meta.name].spec.poolRef
    requires c.spec.poolRef != pool || (Content(c) == Content(w.db.cirs[c.meta.name]) && !Vanishes(c))
    ensures MemberContents(Commit(w, c, es), pool) == MemberContents(w, pool)
  {
    hide Commit, Vanishes;
    CommitFrame(w, c, es);
    var w' := Commit(w, c, es);
    assert MemberNames(w'.db, pool) == MemberNames(w.db, pool);
  }

  lemma CommitDescends(w: World, c: Cir, es: seq<Event>, pool: string)
    requires Inv(w) && pool in w.cfg.terms && c.meta.name in w.db.cirs
    requires c.spec.poolRef == w.db.cirs[c.meta.name].spec.poolRef
    requires c.spec.poolRef == pool ==> Lowers(w.db.cirs[c.meta.name], c, w.cfg.terms[pool].fallback)
    ensures var w' := Commit(w, c, es);
            && PoolRank(w', pool) <= PoolRank(w, pool)
            && (MemberContents(w', pool) != MemberContents(w, pool) ==> PoolRank(w', pool) < PoolRank(w, pool))
            && w'.db.pools == w.db.pools && w'.cfg == w.cfg
  {
    hide Sound, Flags, PoolOk, LifeOk, SnapOk, Rank, Commit, Content, MemberContents, PoolRank, Vanishes;
    CommitMovesRank(w, c, es, pool);
    CommitFrame(w, c, es);
    var old_ := w.db.cirs[c.meta.name];
    if c.spec.poolRef != pool || (Content(c) == Content(old_) && !Vanishes(c)) {
      OthersKeepContents(w, c, es, pool);
      SameContentSameRank(c, old_, w.cfg.terms[pool].fallback);
    } else {
      assert CirOk(w, c.meta.name);
      RankIsPositive(old_, BookFor(w, old_.meta.uid), w.cfg.terms[pool], w.cfg.admin, w.clock);
    }
  }

  lemma SameContentSameRank(c: Cir, d: Cir, fb: bool)
    ensures Content(c) == Content(d) ==> Rank(c, fb) == Rank(d, fb)
  {
    RankIgnoresVersion(c, 0, fb);
    RankIgnoresVersion(d, 0, fb);
  }

  lemma ReconcileDescends(w: World, name: string, r: Replies, d: Delivery, pool: string)
    requires Inv(w) && Drains(w, pool) && HasPool(w, name) && Legal(w, Reconcile(name, r, d))
    ensures Apply(w, Reconcile(name, r, d)).cfg == w.cfg && Descends(w, Reconcile(name, r, d), pool)
  {
    hide Sound, Flags, PoolOk, LifeOk, SnapOk, Rank, PoolRank, MemberContents, Handle, Persisted, CallEvents,
         WriteEvents, Writes, Vanishes, Commit, AcquiredId, ReturnedId, Content;
    var c := w.db.cirs[name];
    var p := w.db.pools[c.spec.poolRef];
    var v := Handle(c, p, r, w.clock);
    var landed := Writes(v) && d.Arrives();
    var w1 := ProviderEffect(w, v.calls, r, landed).(visits := w.visits[c.meta.uid := w.clock]);
    RankUnmoved(w, w1, pool);
    if landed {
      MemberLowers(w, c, p, r, pool);
      CommitDescendsFrom(w, w1, Persisted(c, v, w.clock), CallEvents(v.calls, r) + WriteEvents(c, v, w.clock), pool);
    } else {
      RankUnmoved(w, PassOver(w, c, p, r, d), pool);
    }
  }

  lemma MemberLowers(w: World, c: Cir, p: Pool, r: Replies, pool: string)
    requires Inv(w) && pool in w.cfg.terms && c.meta.name in w.db.cirs && w.db.cirs[c.meta.name] == c
    requires c.spec.poolRef in w.db.pools && p == w.db.pools[c.spec.poolRef] && HonestReplies(w, c, p, r)
    requires Writes(Handle(c, p, r, w.clock))
    ensures var c' := Persisted(c, Handle(c, p, r, w.clock), w.clock);
            && c'.meta.name == c.meta.name && c'.spec.poolRef == c.spec.poolRef
            && (c.spec.poolRef == pool ==> Lowers(c, c', w.cfg.terms[pool].fallback))
  {
    hide Handle, Persisted, Rank, Vanishes, Sound, LifeOk, SnapOk;
    assert CirOk(w, c.meta.name) && PoolOk(w, c.spec.poolRef);
    PassEvents(c, p, r, w.clock);
    PassLowersRank(c, BookFor(w, c.meta.uid), p, r, w.cfg.terms[c.spec.poolRef], w.cfg.admin, w.clock);
  }

  lemma RankUnmoved(w: World, w1: World, pool: string)
    requires w1.db == w.db && w1.cfg == w.cfg && pool in w.cfg.terms
    ensures PoolRank(w1, pool) == PoolRank(w, pool) && MemberContents(w1, pool) == MemberContents(w, pool)
  {
  }

  /** `CommitDescends` from a world that differs from `w` on the provider's side only. */
  lemma CommitDescendsFrom(w: World, w1: World, c: Cir, es: seq<Event>, pool: string)
    requires Inv(w) && w1.db == w.db && w1.cfg == w.cfg
    requires pool in w.cfg.terms && c.meta.name in w.db.cirs
    requires c.spec.poolRef == w.db.cirs[c.meta.name].spec.poolRef
    requires c.spec.poolRef == pool ==> Lowers(w.db.cirs[c.meta.name], c, w.cfg.terms[pool].fallback)
    ensures var w' := Commit(w1, c, es);
            && PoolRank(w', pool) <= PoolRank(w, pool)
            && (MemberContents(w', pool) != MemberContents(w, pool) ==> PoolRank(w', pool) < PoolRank(w, pool))
            && w'.db.pools == w.db.pools && w'.cfg == w.cfg
  {
    hide Inv, Rank, PoolRank, MemberContents, Vanishes, Lowers;
    CommitDescends(w, c, es, pool);
    RankUnmoved(Commit(w, c, es), Commit(w1, c, es), pool);
  }

  lemma SwapDescends(w: World, snap: Cir, wanted: Cir, es: seq<Event>, d: Delivery, pool: string)
    requires Inv(w) && pool in w.cfg.terms && snap in w.snapshots
    requires wanted.meta == snap.meta.(evicted := wanted.meta.evicted)
    requires wanted.spec.poolRef == snap.spec.poolRef
    requires snap.spec.poolRef == pool ==> Lowers(snap, MergeMain(snap, wanted), w.cfg.terms[pool].fallback)
    ensures var w' := Swap(w, wanted, es, d);
            && PoolRank(w', pool) <= PoolRank(w, pool)
            && (MemberContents(w', pool) != MemberContents(w, pool) ==> PoolRank(w', pool) < PoolRank(w, pool))
            && w'.db.pools == w.db.pools && w'.cfg == w.cfg
  {
    hide Inv, Rank, PoolRank, MemberContents, Vanishes, Lowers, Commit;
    if d.Arrives() && IsCurrent(w.db, wanted) {
      AcceptedMeansUnchanged(w, snap);
      CommitDescends(w, MergeMain(snap, wanted), es, pool);
    }
  }

  lemma ReleasingLowers(snap: Cir, fb: bool)
    requires CanRelease(snap)
    ensures Lowers(snap, MergeMain(snap, Releasing(snap)), fb)
  {
  }

  lemma EvictingLowers(snap: Cir, fb: bool)
    requires CanEvict(snap)
    ensures Lowers(snap, MergeMain(snap, Evicting(snap)), fb)
  {
  }

  lemma DeletingLowers(c: Cir, fb: bool)
    requires !c.meta.deleting
    ensures Lowers(c, c.(meta := c.meta.(deleting := true)), fb)
  {
  }

  /** Another pool's new member, or none: a pass that read the pool under deletion
      makes no members. */
  lemma CreateDescends(w: World, name: string, d: Delivery, pool: string)
    requires pool in w.cfg.terms && !StalePass(w, pool)
    ensures MemberContents(PassCreateStep(w, name, d), pool) == MemberContents(w, pool)
    ensures PassCreateStep(w, name, d).db.pools == w.db.pools && PassCreateStep(w, name, d).cfg == w.cfg
  {
    assert MemberNames(PassCreateStep(w, name, d).db, pool) == MemberNames(w.db, pool);
  }

  lemma PoolStepDescends(w: World, s: Step, pool: string)
    requires Inv(w) && Drains(w, pool) && OnlyPoolsOrReads(s)
    ensures Apply(w, s).cfg == w.cfg && Descends(w, s, pool)
  {
    hide Inv, PoolRank, Productive, Apply, MemberContents;
    PoolStepFrame(w, s);
    PoolsOnlyGo(w, s, pool);
    SameStoredMembers(w, Apply(w, s), pool);
    SameMembersDescend(w, Apply(w, s), pool);
    DescendsByRank(w, s, pool);
  }

  lemma SameStoredMembers(w: World, w': World, pool: string)
    requires w'.db.cirs == w.db.cirs
    ensures MemberContents(w', pool) == MemberContents(w, pool)
  {
  }

  lemma PoolsOnlyGo(w: World, s: Step, pool: string)
    requires Drains(w, pool)
    ensures pool in Apply(w, s).db.pools ==> pool in w.db.pools
  {
  }

  lemma DescendsByRank(w: World, s: Step, pool: string)
    requires pool in w.cfg.terms && Apply(w, s).cfg == w.cfg && pool in w.db.pools
    requires MemberContents(Apply(w, s), pool) == MemberContents(w, pool)
    requires PoolRank(Apply(w, s), pool) == PoolRank(w, pool) - (if pool !in Apply(w, s).db.pools then 1 else 0)
    ensures Descends(w, s, pool)
  {
    hide PoolRank, Apply, MemberContents;
  }

  /** While a pool drains, no quiet step raises its rank, and every step that
      changes a member or removes the pool lowers it. */
  lemma StepDescends(w: World, s: Step, pool: string)
    requires Inv(w) && Legal(w, s) && Drains(w, pool) && Quiet(w, s, pool)
    ensures Apply(w, s).cfg == w.cfg && Descends(w, s, pool)
  {
    hide Inv, PoolRank, MemberContents, Commit, Swap, Rank, Lowers, ReconcileStep, PassCreateStep, Vanishes;
    match s
    case AcquireWrite(snap, d) =>
      if snap in w.snapshots && CanAcquire(snap) {
        SwapDescends(w, snap, Acquiring(snap), if d.Delivered? then [Granted(w.clock)] else [], d, pool);
      }
    case EditSpec(name, state) =>
      if name in w.db.cirs {
        NameFits(w, name);
        CommitDescends(w, WithSpecState(w.db.cirs[name], state), [], pool);
      }
    case ReleaseWrite(snap, d) =>
      if snap in w.snapshots && CanRelease(snap) {
        ReleasingLowers(snap, w.cfg.terms[pool].fallback);
        SwapDescends(w, snap, Releasing(snap), [Freed(w.clock)], d, pool);
      }
    case PassLabel(snap, d) =>
      if snap in w.snapshots && CanEvict(snap) {
        EvictingLowers(snap, w.cfg.terms[pool].fallback);
        SwapDescends(w, snap, Evicting(snap), [], d, pool);
      }
    case Delete(name) =>
      if name in w.db.cirs && !w.db.cirs[name].meta.deleting {
        NameFits(w, name);
        DeletingLowers(w.db.cirs[name], w.cfg.terms[pool].fallback);
        CommitDescends(w, w.db.cirs[name].(meta := w.db.cirs[name].meta.(deleting := true)), [], pool);
      }
    case Reconcile(name, r, d) =>
      if HasPool(w, name) {
        ReconcileDescends(w, name, r, d, pool);
      } else {
        WithoutPool(w, name, r, d);
      }
    case PassCreate(name, d) =>
      CreateDescends(w, name, d, pool);
      SameMembersDescend(w, Apply(w, s), pool);
      DescendsByRank(w, s, pool);
    case _ => PoolStepDescends(w, s, pool);
  }

  // -------------------------------------------- only so many steps can matter

  /** A quiet run, up to the step that removes the pool. */
  ghost predicate DrainingRun(w: World, steps: seq<Step>, pool: string)
    decreases |steps|
  {
    steps == []
    || (Drains(w, pool) && Legal(w, steps[0]) && Quiet(w, steps[0], pool)
        && DrainingRun(Apply(w, steps[0]), steps[1..], pool))
  }

  ghost function ProductiveSteps(w: World, steps: seq<Step>, pool: string): nat
    decreases |steps|
  {
    if steps == [] then 0
    else (if Productive(w, steps[0], pool) then 1 else 0) + ProductiveSteps(Apply(w, steps[0]), steps[1..], pool)
  }

  /** Whatever the interleaving, the productive steps of a draining run are no
      more than the pool's rank at its start. */
  lemma {:induction false} DrainIsBounded(w: World, steps: seq<Step>, pool: string)
    requires Inv(w) && pool in w.cfg.terms && DrainingRun(w, steps, pool)
    ensures Run(w, steps).cfg == w.cfg
    ensures ProductiveSteps(w, steps, pool) + PoolRank(Run(w, steps), pool) <= PoolRank(w, pool)
    decreases |steps|
  {
    hide Inv, Apply, Legal, Productive, PoolRank, Quiet;
    if steps != [] {
      StepDescends(w, steps[0], pool);
      StepKeeps(w, steps[0]);
      DrainIsBounded(Apply(w, steps[0]), steps[1..], pool);
    }
  }

  // --------------------------------------------------- what blocks a drain

  /** In use, but Spec asks neither for that nor for its release. */
  predicate Stuck(c: Cir) {
    c.status.state == StateInUse && c.spec.state != StateInUse && c.spec.state != StateAvailable
  }

  predicate IsMember(w: World, n: string, pool: string) {
    n in w.db.cirs && w.db.cirs[n].spec.poolRef == pool
  }

  /** What the two controllers do by themselves: no request, no user; the batch
      delete reaches labelled members only. */
  predicate ControllerStep(w: World, s: Step) {
    match s
    case AcquireWrite(_, _) => false
    case ReleaseWrite(_, _) => false
    case EditSpec(_, _) => false
    case CreatePool(_) => false
    case EditPool(_, _, _) => false
    case RemovePool(_) => false
    case PassCreate(_, _) => false
    case Delete(name) => name in w.db.cirs && w.db.cirs[name].meta.evicted
    case _ => true
  }

  predicate ControllerRun(w: World, steps: seq<Step>)
    decreases |steps|
  {
    steps == []
    || (Legal(w, steps[0]) && ControllerStep(w, steps[0]) && ControllerRun(Apply(w, steps[0]), steps[1..]))
  }

  ghost predicate StillStuck(w: World, w': World, n: string)
    requires n in w.db.cirs
  {
    && n in w'.db.cirs && Stuck(w'.db.cirs[n]) && w'.db.cirs[n].meta.uid == w.db.cirs[n].meta.uid
    && w'.db.cirs[n].spec.poolRef == w.db.cirs[n].spec.poolRef
  }

  lemma CommitKeepsStuck(w: World, c: Cir, es: seq<Event>, n: string)
    requires n in w.db.cirs && Stuck(w.db.cirs[n]) && c.meta.name in w.db.cirs
    requires c.meta.name == n ==> !Vanishes(c) && Stuck(c)
    requires c.meta.name == n ==> c.meta.uid == w.db.cirs[n].meta.uid && c.spec.poolRef == w.db.cirs[n].spec.poolRef
    ensures StillStuck(w, Commit(w, c, es), n)
  {
    hide Commit, Vanishes;
    CommitFrame(w, c, es);
  }

  lemma PassKeepsStuck(w: World, name: string, r: Replies, d: Delivery, n: string)
    requires Inv(w) && HasPool(w, name) && n in w.db.cirs && Stuck(w.db.cirs[n])
    ensures StillStuck(w, ReconcileStep(w, name, r, d), n)
  {
    hide Inv, PassOver, Persisted, Vanishes;
    var c := w.db.cirs[name];
    var p := w.db.pools[c.spec.poolRef];
    NameFits(w, name);
    PassEvents(c, p, r, w.clock);
    PassFrame(w, c, p, r, d);
    if name == n {
      StuckWrites(c, p, r, w.clock);
    }
  }

  lemma StuckWrites(c: Cir, p: Pool, r: Replies, now: Time)
    requires Stuck(c)
    ensures !Writes(Handle(c, p, r, now))
  {
  }

  /** No controller step moves a stuck object: not a pass, not a deletion mark. */
  lemma StuckStays(w: World, s: Step, n: string)
    requires Inv(w) && Legal(w, s) && ControllerStep(w, s) && n in w.db.cirs && Stuck(w.db.cirs[n])
    ensures StillStuck(w, Apply(w, s), n)
  {
    hide Inv, Commit, ReconcileStep;
    match s
    case Reconcile(name, r, d) =>
      if HasPool(w, name) {
        PassKeepsStuck(w, name, r, d, n);
      } else {
        WithoutPool(w, name, r, d);
      }
    case PassLabel(snap, d) =>
      NameFits(w, n);
      if snap in w.snapshots && IsCurrent(w.db, snap) {
        AcceptedMeansUnchanged(w, snap);
        IsGuarded(w, snap.meta.name);
        if d.Arrives() && CanEvict(snap) {
          CommitKeepsStuck(w, MergeMain(snap, Evicting(snap)), [], n);
        }
      }
    case Delete(name) =>
      var c := w.db.cirs[name];
      NameFits(w, name);
      IsGuarded(w, name);
      if !c.meta.deleting {
        CommitKeepsStuck(w, c.(meta := c.meta.(deleting := true)), [], n);
      }
    case _ => PoolStepFrame(w, s);
  }

  lemma {:induction false} StuckForever(w: World, steps: seq<Step>, n: string)
    requires Inv(w) && ControllerRun(w, steps) && n in w.db.cirs && Stuck(w.db.cirs[n])
    ensures StillStuck(w, Run(w, steps), n)
    decreases |steps|
  {
    hide Inv, Legal, ControllerStep, Apply;
    if steps != [] {
      StuckStays(w, steps[0], n);
      StepKeeps(w, steps[0]);
      StuckForever(Apply(w, steps[0]), steps[1..], n);
    }
  }
}
