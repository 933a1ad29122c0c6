/** Safety of a single CIResource over every run.

    `Sound` ties an object to the book of its own history. It is kept by every
    step of the system whoever makes it, so in every run the histories satisfy
    the properties that the flags of the book stand for. */
module Lifecycle {
  import opened Api
  import opened Providers
  import opened CirFsm
  import opened CirController
  import opened Requests
  import opened Histories
  import opened OfcirSystem

  // -------------------------------------------------------- local invariant

  /** Which ids and addresses go with which state. */
  ghost predicate Shaped(c: Cir, fallback: bool) {
    var st := c.status;
    && IsRegistered(st.state)
    && (st.state != StateNone ==> c.meta.finalizer)
    && (c.meta.deleting ==> c.meta.finalizer)
    && (st.state == StateDelete ==> c.meta.deleting)
    && (st.state == StateNone ==> st.resourceId == NoId && st.address == "")
    && (st.state == StateProvisioning ==> !IsMachine(st.resourceId) && st.address == "")
    && (st.state == StateProvisioningWait ==> IsMachine(st.resourceId))
    && (st.state != StateNone && st.state != StateProvisioning ==> st.resourceId != NoId)
    && (st.resourceId == FallbackId ==> fallback && st.address == "")
    && (fallback && st.state == StateCleaningWait ==> st.resourceId == FallbackId)
  }

  /** The stamp is set in every state but None, and is the time of the entry. */
  ghost predicate Stamps(c: Cir, w: Walk, clock: Time) {
    && w.ok && w.state == c.status.state
    && (if w.state == StateNone then c.status.lastUpdated == None
        else w.id == c.status.resourceId && c.status.lastUpdated == Some(w.at) && w.at <= clock)
  }

  /** How far the machine of a finished tenancy has been dealt with. */
  ghost predicate DebtFits(c: Cir, d: Debt, fallback: bool) {
    var id := c.status.resourceId;
    match c.status.state
    case StateInUse => d == if IsMachine(id) then Owes(id) else NoDebt
    case StateCleaning =>
      if IsMachine(id) then d == Owes(id) || d == (if fallback then Returning(id) else Wiping(id))
      else d == NoDebt
    case StateCleaningWait => d == NoDebt || (!fallback && d == Wiping(id))
    case _ => d == NoDebt
  }

  /** The only machine still on record is the one the status names. */
  ghost predicate KeptFits(c: Cir, m: Machines) {
    && m.ok && !m.gone && m.kept <= {c.status.resourceId}
    && (!IsMachine(c.status.resourceId) ==> m.kept == {})
  }

  /** What Spec can be when only requests and controllers write it. */
  ghost predicate Disciplined(c: Cir, fallback: bool) {
    var s := c.spec.state;
    var id := c.status.resourceId;
    && (s == StateNone || s == StateAvailable || s == StateInUse)
    && match c.status.state
       case StateNone => s == StateNone
       case StateProvisioning => if id == FallbackId then s == StateInUse else s == StateNone
       case StateProvisioningWait => fallback ==> s == StateInUse
       case StateAvailable => fallback && IsMachine(id) ==> s == StateInUse
       case StateInUse => s != StateNone
       case StateCleaning => s == StateAvailable
       case StateCleaningWait => s == StateAvailable
       case StateMaintenance => false
       case _ => true
  }

  ghost predicate LeaseFits(c: Cir, b: Book, fallback: bool) {
    && b.lease.ok && b.loop.ok
    && (b.lease.open ==> c.spec.state == StateInUse)
    && (b.loop.taken ==>
          fallback && c.spec.state == StateInUse
          && (c.status.state == StateProvisioning || IsMachine(c.status.resourceId)))
  }

  ghost predicate Sound(c: Cir, b: Book, t: Terms, admin: bool, clock: Time) {
    && Shaped(c, t.fallback)
    && Stamps(c, b.walk, clock)
    && b.expiryOk
    && b.tenants.ok && DebtFits(c, b.tenants.debt, t.fallback)
    && KeptFits(c, b.machines)
    && (!admin ==> Disciplined(c, t.fallback) && LeaseFits(c, b, t.fallback))
  }

  /** What is asked of every history, also after the object has gone. */
  ghost predicate Flags(b: Book, admin: bool) {
    && b.walk.ok && b.expiryOk && b.tenants.ok && b.machines.ok
    && (!admin ==> b.lease.ok && b.loop.ok)
  }

  // ---------------------------------------------------- steps on one object

  lemma AcquireKeeps(c: Cir, b: Book, t: Terms, admin: bool, clock: Time, reported: bool)
    requires Sound(c, b, t, admin, clock) && CanAcquire(c)
    ensures var es := if reported then [Granted(clock)] else [];
            Sound(MergeMain(c, Acquiring(c)), NoteAll(b, es, t), t, admin, clock)
  {
  }

  lemma ReleaseKeeps(c: Cir, b: Book, t: Terms, admin: bool, clock: Time)
    requires Sound(c, b, t, admin, clock) && CanRelease(c)
    ensures Sound(MergeMain(c, Releasing(c)), NoteAll(b, [Freed(clock)], t), t, admin, clock)
  {
  }

  lemma CallEventsKeep(c: Cir, b: Book, p: Pool, r: Replies, t: Terms, admin: bool, clock: Time)
    requires Sound(c, b, t, admin, clock) && p.IsFallback() == t.fallback
    ensures Sound(c, NoteAll(b, CallEvents(Handle(c, p, r, clock).calls, r), t), t, admin, clock)
  {
  }

  /** `NoteAll` for a list of at most one event. */
  function NoteOne(b: Book, es: seq<Event>, t: Terms): Book {
    if es == [] then b else Note(b, es[0], t)
  }

  lemma NoteOneIsNoteAll(b: Book, es: seq<Event>, t: Terms)
    requires |es| <= 1
    ensures NoteAll(b, es, t) == NoteOne(b, es, t)
  {
    if es != [] {
      assert es[1..] == [];
    }
  }

  /** The setting of one landed pass over `c` with verdict `v`. */
  ghost predicate Passing(c: Cir, b: Book, p: Pool, r: Replies, v: Verdict, t: Terms, admin: bool, clock: Time) {
    && Sound(c, b, t, admin, clock)
    && p.IsFallback() == t.fallback && p.spec.timeout == t.timeout
    && Writes(v)
    && forall id :: id in AcquiredId(v.calls, r) ==> IsMachine(id)
  }

  /** The object it leaves is sound, or gone with its record in order. */
  ghost predicate PassKeeps(c: Cir, b: Book, r: Replies, v: Verdict, t: Terms, admin: bool, clock: Time) {
    var c' := Persisted(c, v, clock);
    var b' := NoteOne(NoteOne(b, CallEvents(v.calls, r), t), WriteEvents(c, v, clock), t);
    if Vanishes(c') then Flags(Note(b', Vanished, t), admin) else Sound(c', b', t, admin, clock)
  }

  lemma NoneKeeps(c: Cir, b: Book, p: Pool, r: Replies, t: Terms, admin: bool, clock: Time)
    requires c.status.state == StateNone && Passing(c, b, p, r, HandleNone(c), t, admin, clock)
    ensures PassKeeps(c, b, r, HandleNone(c), t, admin, clock)
  {
  }

  lemma ProvisioningSkipsKeeps(c: Cir, b: Book, p: Pool, r: Replies, t: Terms, admin: bool, clock: Time)
    requires c.status.state == StateProvisioning && Passing(c, b, p, r, HandleProvisioning(c, p, r), t, admin, clock)
    requires t.fallback && c.spec.state != StateInUse
    ensures PassKeeps(c, b, r, HandleProvisioning(c, p, r), t, admin, clock)
  {
  }

  lemma ProvisioningAcquiresKeeps(c: Cir, b: Book, p: Pool, r: Replies, t: Terms, admin: bool, clock: Time)
    requires c.status.state == StateProvisioning && Passing(c, b, p, r, HandleProvisioning(c, p, r), t, admin, clock)
    requires !(t.fallback && c.spec.state != StateInUse)
    ensures PassKeeps(c, b, r, HandleProvisioning(c, p, r), t, admin, clock)
  {
  }

  lemma ProvisioningWaitKeeps(c: Cir, b: Book, p: Pool, r: Replies, t: Terms, admin: bool, clock: Time)
    requires c.status.state == StateProvisioningWait
    requires Passing(c, b, p, r, HandleProvisioningWait(c, r), t, admin, clock)
    ensures PassKeeps(c, b, r, HandleProvisioningWait(c, r), t, admin, clock)
  {
  }

  lemma AvailableGoesKeeps(c: Cir, b: Book, p: Pool, r: Replies, t: Terms, admin: bool, clock: Time)
    requires c.status.state == StateAvailable && Passing(c, b, p, r, HandleAvailable(c), t, admin, clock)
    requires c.meta.deleting || c.spec.state != StateInUse
    ensures PassKeeps(c, b, r, HandleAvailable(c), t, admin, clock)
  {
  }

  lemma AvailableTakenKeeps(c: Cir, b: Book, p: Pool, r: Replies, t: Terms, admin: bool, clock: Time)
    requires c.status.state == StateAvailable && Passing(c, b, p, r, HandleAvailable(c), t, admin, clock)
    requires !c.meta.deleting && c.spec.state == StateInUse
    ensures PassKeeps(c, b, r, HandleAvailable(c), t, admin, clock)
  {
  }

  lemma MaintenanceKeeps(c: Cir, b: Book, p: Pool, r: Replies, t: Terms, admin: bool, clock: Time)
    requires c.status.state == StateMaintenance && Passing(c, b, p, r, HandleMaintenance(c), t, admin, clock)
    ensures PassKeeps(c, b, r, HandleMaintenance(c), t, admin, clock)
  {
  }

  lemma InUseExpiresKeeps(c: Cir, b: Book, p: Pool, r: Replies, t: Terms, admin: bool, clock: Time)
    requires c.status.state == StateInUse && Passing(c, b, p, r, HandleInUse(c, p, clock), t, admin, clock)
    requires HandleInUse(c, p, clock).resourceDirty
    ensures PassKeeps(c, b, r, HandleInUse(c, p, clock), t, admin, clock)
  {
  }

  lemma InUseMovesKeeps(c: Cir, b: Book, p: Pool, r: Replies, t: Terms, admin: bool, clock: Time)
    requires c.status.state == StateInUse && Passing(c, b, p, r, HandleInUse(c, p, clock), t, admin, clock)
    requires !HandleInUse(c, p, clock).resourceDirty
    ensures PassKeeps(c, b, r, HandleInUse(c, p, clock), t, admin, clock)
  {
  }

  lemma CleaningEmptyKeeps(c: Cir, b: Book, p: Pool, r: Replies, t: Terms, admin: bool, clock: Time)
    requires c.status.state == StateCleaning && Passing(c, b, p, r, HandleCleaning(c, p, r), t, admin, clock)
    requires t.fallback && c.status.resourceId == FallbackId
    ensures PassKeeps(c, b, r, HandleCleaning(c, p, r), t, admin, clock)
  {
  }

  lemma CleaningFallbackKeeps(c: Cir, b: Book, p: Pool, r: Replies, t: Terms, admin: bool, clock: Time)
    requires c.status.state == StateCleaning && Passing(c, b, p, r, HandleCleaning(c, p, r), t, admin, clock)
    requires t.fallback && c.status.resourceId != FallbackId
    ensures PassKeeps(c, b, r, HandleCleaning(c, p, r), t, admin, clock)
  {
  }

  lemma CleaningDefaultKeeps(c: Cir, b: Book, p: Pool, r: Replies, t: Terms, admin: bool, clock: Time)
    requires c.status.state == StateCleaning && Passing(c, b, p, r, HandleCleaning(c, p, r), t, admin, clock)
    requires !t.fallback
    ensures PassKeeps(c, b, r, HandleCleaning(c, p, r), t, admin, clock)
  {
  }

  lemma CleaningWaitKeeps(c: Cir, b: Book, p: Pool, r: Replies, t: Terms, admin: bool, clock: Time)
    requires c.status.state == StateCleaningWait && Passing(c, b, p, r, HandleCleaningWait(c, p, r), t, admin, clock)
    ensures PassKeeps(c, b, r, HandleCleaningWait(c, p, r), t, admin, clock)
  {
  }

  lemma DeleteKeeps(c: Cir, b: Book, p: Pool, r: Replies, t: Terms, admin: bool, clock: Time)
    requires c.status.state == StateDelete && Passing(c, b, p, r, HandleDelete(c, p, r), t, admin, clock)
    ensures PassKeeps(c, b, r, HandleDelete(c, p, r), t, admin, clock)
  {
  }

  lemma ReconcileKeeps(c: Cir, b: Book, p: Pool, r: Replies, t: Terms, admin: bool, clock: Time)
    requires Passing(c, b, p, r, Handle(c, p, r, clock), t, admin, clock)
    ensures PassKeeps(c, b, r, Handle(c, p, r, clock), t, admin, clock)
  {
    match c.status.state
    case StateNone => NoneKeeps(c, b, p, r, t, admin, clock);
    case StateProvisioning =>
      if t.fallback && c.spec.state != StateInUse {
        ProvisioningSkipsKeeps(c, b, p, r, t, admin, clock);
      } else {
        ProvisioningAcquiresKeeps(c, b, p, r, t, admin, clock);
      }
    case StateProvisioningWait => ProvisioningWaitKeeps(c, b, p, r, t, admin, clock);
    case StateAvailable =>
      if c.meta.deleting || c.spec.state != StateInUse {
        AvailableGoesKeeps(c, b, p, r, t, admin, clock);
      } else {
        AvailableTakenKeeps(c, b, p, r, t, admin, clock);
      }
    case StateMaintenance => MaintenanceKeeps(c, b, p, r, t, admin, clock);
    case StateInUse =>
      if HandleInUse(c, p, clock).resourceDirty {
        InUseExpiresKeeps(c, b, p, r, t, admin, clock);
      } else {
        InUseMovesKeeps(c, b, p, r, t, admin, clock);
      }
    case StateCleaning =>
      if t.fallback && c.status.resourceId == FallbackId {
        CleaningEmptyKeeps(c, b, p, r, t, admin, clock);
      } else if t.fallback {
        CleaningFallbackKeeps(c, b, p, r, t, admin, clock);
      } else {
        CleaningDefaultKeeps(c, b, p, r, t, admin, clock);
      }
    case StateCleaningWait => CleaningWaitKeeps(c, b, p, r, t, admin, clock);
    case StateDelete => DeleteKeeps(c, b, p, r, t, admin, clock);
  }

  // -------------------------------------------------------- world invariant

  function BookFor(w: World, uid: nat): Book
    requires uid in w.lives && w.lives[uid].pool in w.cfg.terms
  {
    BookOf(w.lives[uid].history, w.cfg.terms[w.lives[uid].pool])
  }

  ghost predicate CirOk(w: World, n: string)
    requires n in w.db.cirs
  {
    var c := w.db.cirs[n];
    var u := c.meta.uid;
    && c.meta.name == n && c.meta.version < w.db.next && u < w.db.next
    && u in w.lives && w.lives[u].pool == c.spec.poolRef && c.spec.poolRef in w.cfg.terms
    && Sound(c, BookFor(w, u), w.cfg.terms[c.spec.poolRef], w.cfg.admin, w.clock)
  }

  ghost predicate LifeOk(w: World, u: nat)
    requires u in w.lives
  {
    u < w.db.next && w.lives[u].pool in w.cfg.terms && Flags(BookFor(w, u), w.cfg.admin)
  }

  ghost predicate PoolOk(w: World, n: string)
    requires n in w.db.pools
  {
    var p := w.db.pools[n];
    p.name == n && p.version < w.db.next && PoolFits(w.cfg, p) && (p.deleting ==> p.finalizer)
  }

  /** A version that is current is the version of the object that was read. */
  ghost predicate SnapOk(w: World, s: Cir) {
    s.meta.version < w.db.next && (IsCurrent(w.db, s) ==> w.db.cirs[s.meta.name] == s)
  }

  /** The pool a pass works on was stored once and fits the configuration. */
  ghost predicate PassOk(w: World) {
    w.pass.Idle? || (w.pass.pool.version < w.db.next && PoolFits(w.cfg, w.pass.pool))
  }

  ghost predicate Inv(w: World) {
    && (forall n :: n in w.db.cirs ==> CirOk(w, n))
    && (forall m, n :: m in w.db.cirs && n in w.db.cirs && w.db.cirs[m].meta.uid == w.db.cirs[n].meta.uid ==> m == n)
    && (forall u :: u in w.lives ==> LifeOk(w, u))
    && (forall n :: n in w.db.pools ==> PoolOk(w, n))
    && (forall s :: s in w.snapshots ==> SnapOk(w, s))
    && PassOk(w)
  }

  lemma NameFits(w: World, n: string)
    requires Inv(w) && n in w.db.cirs
    ensures w.db.cirs[n].meta.name == n
  {
    hide Sound, LifeOk, PoolOk, SnapOk;
    assert CirOk(w, n);
  }

  lemma PoolNameFits(w: World, pool: string)
    requires Inv(w) && pool in w.db.pools
    ensures w.db.pools[pool].name == pool
    ensures w.db.pools[pool].deleting ==> w.db.pools[pool].finalizer
  {
    hide CirOk, LifeOk, SnapOk;
    assert PoolOk(w, pool);
  }

  lemma HasLife(w: World, n: string)
    requires Inv(w) && n in w.db.cirs
    ensures w.db.cirs[n].meta.uid in w.lives
  {
    hide Sound, LifeOk, PoolOk, SnapOk;
    assert CirOk(w, n);
  }

  /** What storing an object that stays adds to the histories. */
  lemma CommitTells(w: World, c: Cir, es: seq<Event>)
    requires c.meta.uid in w.lives && !Vanishes(c)
    ensures var life := w.lives[c.meta.uid];
            Commit(w, c, es).lives == w.lives[c.meta.uid := life.(history := life.history + es)]
    ensures es == [] ==> Commit(w, c, es).lives == w.lives
  {
    assert es == [] ==> w.lives[c.meta.uid].history + es == w.lives[c.meta.uid].history;
  }

  lemma SoundIsGuarded(c: Cir, b: Book, t: Terms, admin: bool, clock: Time)
    requires Sound(c, b, t, admin, clock)
    ensures IsRegistered(c.status.state)
    ensures c.status.state != StateNone || IsMachine(c.status.resourceId) || c.meta.deleting ==> c.meta.finalizer
    ensures c.status.state == StateDelete ==> c.meta.deleting
  {
    hide Stamps, DebtFits, KeptFits, Disciplined, LeaseFits;
  }

  /** Past None, with a machine or under deletion, an object has its finalizer;
      a Delete state means that deletion was asked for. */
  lemma IsGuarded(w: World, n: string)
    requires Inv(w) && n in w.db.cirs
    ensures var c := w.db.cirs[n];
            && IsRegistered(c.status.state)
            && (c.status.state != StateNone || IsMachine(c.status.resourceId) || c.meta.deleting ==> c.meta.finalizer)
            && (c.status.state == StateDelete ==> c.meta.deleting)
  {
    hide Sound, LifeOk, PoolOk, SnapOk;
    assert CirOk(w, n);
    var c := w.db.cirs[n];
    SoundIsGuarded(c, BookFor(w, c.meta.uid), w.cfg.terms[c.spec.poolRef], w.cfg.admin, w.clock);
  }

  lemma WithoutPool(w: World, name: string, r: Replies, d: Delivery)
    requires !HasPool(w, name)
    ensures ReconcileStep(w, name, r, d) == w
  {
  }

  lemma SoundImpliesFlags(c: Cir, b: Book, t: Terms, admin: bool, clock: Time)
    requires Sound(c, b, t, admin, clock)
    ensures Flags(b, admin)
  {
  }

  /** What storing `c` needs: the same object, sound after the new events. */
  ghost predicate MayCommit(w: World, c: Cir, es: seq<Event>) {
    && c.meta.name in w.db.cirs
    && var c0 := w.db.cirs[c.meta.name];
       && c.meta.uid == c0.meta.uid && c.spec.poolRef == c0.spec.poolRef
       && c0.meta.uid in w.lives && w.lives[c0.meta.uid].pool in w.cfg.terms
       && w.lives[c0.meta.uid].pool == c.spec.poolRef
       && var t := w.cfg.terms[c.spec.poolRef];
          var b := NoteAll(BookFor(w, c.meta.uid), es, t);
          if Vanishes(c) then Flags(Note(b, Vanished, t), w.cfg.admin)
          else Sound(c, b, t, w.cfg.admin, w.clock)
  }

  lemma CommitBook(w: World, c: Cir, es: seq<Event>)
    requires MayCommit(w, c, es)
    ensures var b := BookFor(Commit(w, c, es), c.meta.uid);
            && Flags(b, w.cfg.admin)
            && (!Vanishes(c) ==> Sound(c, b, w.cfg.terms[c.spec.poolRef], w.cfg.admin, w.clock))
  {
    hide Sound, Flags, BookOf, NoteAll, Note;
    var t := w.cfg.terms[c.spec.poolRef];
    var h := w.lives[c.meta.uid].history;
    BookOfAppend(h, es, t);
    if Vanishes(c) {
      assert h + (es + [Vanished]) == (h + es) + [Vanished];
      BookOfAppend(h + es, [Vanished], t);
      NoteAllOne(BookOf(h + es, t), Vanished, t);
    } else {
      SoundImpliesFlags(c, NoteAll(BookFor(w, c.meta.uid), es, t), t, w.cfg.admin, w.clock);
    }
  }

  function Renumbered(c: Cir, version: nat): Cir {
    c.(meta := c.meta.(version := version))
  }

  lemma SoundIgnoresVersion(c: Cir, version: nat, b: Book, t: Terms, admin: bool, clock: Time)
    requires Sound(c, b, t, admin, clock)
    ensures Sound(Renumbered(c, version), b, t, admin, clock)
  {
  }

  /** What a commit leaves alone, and what it stores. */
  lemma CommitFrame(w: World, c: Cir, es: seq<Event>)
    ensures var w' := Commit(w, c, es);
            && w'.cfg == w.cfg && w'.clock == w.clock && w'.visits == w.visits && w'.pass == w.pass
            && w'.snapshots == w.snapshots && w'.db.pools == w.db.pools
            && w'.held == w.held && w'.issued == w.issued && w'.leaked == w.leaked && w'.dangling == w.dangling
            && w'.db.cirs == (if Vanishes(c) then w.db.cirs - {c.meta.name}
                              else w.db.cirs[c.meta.name := Renumbered(c, w.db.next)])
  {
  }

  lemma CommitCirs(w: World, c: Cir, es: seq<Event>, n: string)
    requires Inv(w) && MayCommit(w, c, es) && n in Commit(w, c, es).db.cirs
    ensures CirOk(Commit(w, c, es), n)
  {
    hide Sound, BookOf, NoteAll, Note, Flags;
    var w' := Commit(w, c, es);
    assert CirOk(w, n);
    if n == c.meta.name {
      CommitBook(w, c, es);
      assert w'.db.cirs[n] == Renumbered(c, w.db.next);
      SoundIgnoresVersion(c, w.db.next, BookFor(w', c.meta.uid), w.cfg.terms[c.spec.poolRef], w.cfg.admin, w.clock);
    } else {
      assert CirOk(w, c.meta.name);
      assert w'.db.cirs[n] == w.db.cirs[n];
      assert BookFor(w', w.db.cirs[n].meta.uid) == BookFor(w, w.db.cirs[n].meta.uid);
    }
  }

  lemma CommitSnapshots(w: World, c: Cir, es: seq<Event>, s: Cir)
    requires Inv(w) && MayCommit(w, c, es) && s in w.snapshots
    ensures SnapOk(Commit(w, c, es), s)
  {
    assert SnapOk(w, s);
    assert CirOk(w, c.meta.name);
  }

  /** The one place where objects change: storing a sound successor of a stored
      object keeps the invariant, and so does the history that explains it. */
  lemma CommitKeeps(w: World, c: Cir, es: seq<Event>)
    requires Inv(w) && MayCommit(w, c, es)
    ensures Inv(Commit(w, c, es))
  {
    hide Sound, BookOf, NoteAll, Note, Flags;
    var w' := Commit(w, c, es);
    CommitBook(w, c, es);
    forall n | n in w'.db.cirs ensures CirOk(w', n) {
      CommitCirs(w, c, es, n);
    }
    forall u | u in w'.lives ensures LifeOk(w', u) {
      assert LifeOk(w, u);
    }
    forall n | n in w'.db.pools ensures PoolOk(w', n) {
      assert PoolOk(w, n);
    }
    forall s | s in w'.snapshots ensures SnapOk(w', s) {
      CommitSnapshots(w, c, es, s);
    }
  }

  // ------------------------------------------------------------ every step

  lemma SoundLater(c: Cir, b: Book, t: Terms, admin: bool, clock: Time, later: Time)
    requires Sound(c, b, t, admin, clock) && clock <= later
    ensures Sound(c, b, t, admin, later)
  {
  }

  /** What the invariant does not speak about may change, time may pass, reads
      may be added and pools may be rewritten. */
  lemma FrameKeeps(w: World, w': World)
    requires Inv(w)
    requires w'.cfg == w.cfg && w'.lives == w.lives && w.clock <= w'.clock
    requires w'.db.cirs == w.db.cirs && w.db.next <= w'.db.next
    requires forall n :: n in w'.db.pools ==> PoolOk(w', n)
    requires forall s :: s in w'.snapshots && s !in w.snapshots ==>
               s.meta.name in w.db.cirs && w.db.cirs[s.meta.name] == s
    requires PassOk(w')
    ensures Inv(w')
  {
    hide Sound, BookOf, Flags, PoolOk, PassOk;
    forall n | n in w'.db.cirs ensures CirOk(w', n) {
      assert CirOk(w, n);
      var c := w.db.cirs[n];
      SoundLater(c, BookFor(w, c.meta.uid), w.cfg.terms[c.spec.poolRef], w.cfg.admin, w.clock, w'.clock);
    }
    forall u | u in w'.lives ensures LifeOk(w', u) {
      assert LifeOk(w, u);
    }
    forall s | s in w'.snapshots ensures SnapOk(w', s) {
      if s in w.snapshots {
        assert SnapOk(w, s);
      } else {
        assert CirOk(w, s.meta.name);
      }
    }
  }

  ghost predicate MayRecord(w: World, n: string, es: seq<Event>) {
    && n in w.db.cirs && CirOk(w, n)
    && var c := w.db.cirs[n];
       var t := w.cfg.terms[c.spec.poolRef];
       Sound(c, NoteAll(BookFor(w, c.meta.uid), es, t), t, w.cfg.admin, w.clock)
  }

  lemma RecordBook(w: World, n: string, es: seq<Event>)
    requires MayRecord(w, n, es)
    ensures var u := w.db.cirs[n].meta.uid;
            var w' := Record(w, u, es);
            CirOk(w', n) && LifeOk(w', u)
  {
    hide Sound, BookOf, NoteAll, Flags;
    var c := w.db.cirs[n];
    var u := c.meta.uid;
    var t := w.cfg.terms[c.spec.poolRef];
    BookOfAppend(w.lives[u].history, es, t);
    SoundImpliesFlags(c, NoteAll(BookFor(w, u), es, t), t, w.cfg.admin, w.clock);
  }

  /** Events that are not followed by a landed write. */
  lemma RecordKeeps(w: World, n: string, es: seq<Event>)
    requires Inv(w) && MayRecord(w, n, es)
    ensures Inv(Record(w, w.db.cirs[n].meta.uid, es))
  {
    hide Sound, BookOf, NoteAll, Flags;
    var u := w.db.cirs[n].meta.uid;
    var w' := Record(w, u, es);
    RecordBook(w, n, es);
    forall m | m in w'.db.cirs ensures CirOk(w', m) {
      assert CirOk(w, m);
    }
    forall v | v in w'.lives ensures LifeOk(w', v) {
      assert LifeOk(w, v);
    }
    forall m | m in w'.db.pools ensures PoolOk(w', m) {
      assert PoolOk(w, m);
    }
    forall s | s in w'.snapshots ensures SnapOk(w', s) {
      assert SnapOk(w, s);
    }
  }

  /** The key to every request: a write that is accepted changes the very object
      that was read, so its guard, checked on the read, holds at the commit. */
  lemma AcceptedMeansUnchanged(w: World, snap: Cir)
    requires Inv(w) && snap in w.snapshots && IsCurrent(w.db, snap)
    ensures snap.meta.name in w.db.cirs && w.db.cirs[snap.meta.name] == snap
  {
    assert SnapOk(w, snap);
  }

  lemma AcquireWriteKeeps(w: World, snap: Cir, d: Delivery)
    requires Inv(w)
    ensures Inv(Apply(w, AcquireWrite(snap, d)))
  {
    hide Sound, BookOf, NoteAll, Flags;
    if snap in w.snapshots && CanAcquire(snap) && d.Arrives() && IsCurrent(w.db, snap) {
      AcceptedMeansUnchanged(w, snap);
      assert CirOk(w, snap.meta.name);
      var t := w.cfg.terms[snap.spec.poolRef];
      AcquireKeeps(snap, BookFor(w, snap.meta.uid), t, w.cfg.admin, w.clock, d.Delivered?);
      NeverVanishes(snap, MergeMain(snap, Acquiring(snap)), BookFor(w, snap.meta.uid), t, w.cfg.admin, w.clock);
      CommitKeeps(w, MergeMain(snap, Acquiring(snap)), if d.Delivered? then [Granted(w.clock)] else []);
    }
  }

  lemma ReleaseWriteKeeps(w: World, snap: Cir, d: Delivery)
    requires Inv(w)
    ensures Inv(Apply(w, ReleaseWrite(snap, d)))
  {
    hide Sound, BookOf, NoteAll, Flags;
    if snap in w.snapshots && CanRelease(snap) && d.Arrives() && IsCurrent(w.db, snap) {
      AcceptedMeansUnchanged(w, snap);
      assert CirOk(w, snap.meta.name);
      var t := w.cfg.terms[snap.spec.poolRef];
      ReleaseKeeps(snap, BookFor(w, snap.meta.uid), t, w.cfg.admin, w.clock);
      NeverVanishes(snap, MergeMain(snap, Releasing(snap)), BookFor(w, snap.meta.uid), t, w.cfg.admin, w.clock);
      CommitKeeps(w, MergeMain(snap, Releasing(snap)), [Freed(w.clock)]);
    }
  }

  /** A sound object has its finalizer when it is being deleted, so a write that
      keeps the finalizer never makes it vanish. */
  lemma NeverVanishes(c: Cir, c': Cir, b: Book, t: Terms, admin: bool, clock: Time)
    requires Sound(c, b, t, admin, clock)
    requires c'.meta.finalizer == c.meta.finalizer && c'.meta.deleting == c.meta.deleting
    ensures !Vanishes(c')
  {
  }

  /** Labels, deletion marks and, where allowed, hand-made Spec.State edits. */
  lemma QuietWriteKeeps(w: World, c: Cir, c': Cir)
    requires Inv(w) && c.meta.name in w.db.cirs && w.db.cirs[c.meta.name] == c
    requires c'.status == c.status && c'.meta.(evicted := c.meta.evicted, deleting := c.meta.deleting) == c.meta
    requires c.meta.deleting ==> c'.meta.deleting
    requires c'.spec.poolRef == c.spec.poolRef && (c'.spec == c.spec || w.cfg.admin)
    ensures Inv(Commit(w, c', []))
  {
    assert CirOk(w, c.meta.name);
    var b := BookFor(w, c.meta.uid);
    var t := w.cfg.terms[c.spec.poolRef];
    QuietSound(c, c', b, t, w.cfg.admin, w.clock);
    assert NoteAll(b, [], t) == b;
    hide Sound, BookOf, NoteAll, Flags;
    CommitKeeps(w, c', []);
  }

  lemma QuietSound(c: Cir, c': Cir, b: Book, t: Terms, admin: bool, clock: Time)
    requires Sound(c, b, t, admin, clock)
    requires c'.status == c.status && c'.meta.(evicted := c.meta.evicted, deleting := c.meta.deleting) == c.meta
    requires c.meta.deleting ==> c'.meta.deleting
    requires c'.spec == c.spec || admin
    ensures if Vanishes(c') then Flags(Note(b, Vanished, t), admin) else Sound(c', b, t, admin, clock)
  {
  }

  lemma ReconcileStepKeeps(w: World, name: string, r: Replies, d: Delivery)
    requires Inv(w) && Legal(w, Reconcile(name, r, d))
    ensures Inv(Apply(w, Reconcile(name, r, d)))
  {
    if HasPool(w, name) {
      var c := w.db.cirs[name];
      var p := w.db.pools[c.spec.poolRef];
      assert CirOk(w, name) && PoolOk(w, c.spec.poolRef);
      var v := Handle(c, p, r, w.clock);
      var landed := Writes(v) && d.Arrives();
      var w1 := ProviderEffect(w, v.calls, r, landed).(visits := w.visits[c.meta.uid := w.clock]);
      forall n | n in w1.db.pools ensures PoolOk(w1, n) {
        assert PoolOk(w, n);
      }
      assert PassOk(w1) by {
        assert PassOk(w);
      }
      FrameKeeps(w, w1);
      PassOverKeeps(w1, c, p, r, v, landed);
    }
  }

  lemma PassOverKeeps(w: World, c: Cir, p: Pool, r: Replies, v: Verdict, landed: bool)
    requires Inv(w) && c.meta.name in w.db.cirs && w.db.cirs[c.meta.name] == c
    requires c.spec.poolRef in w.db.pools && p == w.db.pools[c.spec.poolRef]
    requires v == Handle(c, p, r, w.clock) && (landed ==> Writes(v))
    requires forall id :: id in AcquiredId(v.calls, r) ==> IsMachine(id)
    ensures var es := CallEvents(v.calls, r);
            Inv(if landed then Commit(w, Persisted(c, v, w.clock), es + WriteEvents(c, v, w.clock))
                else Record(w, c.meta.uid, es))
  {
    hide Handle, Sound, BookOf, NoteAll, NoteOne, Flags, CallEvents, WriteEvents, Note, Persisted;
    assert CirOk(w, c.meta.name) && PoolOk(w, c.spec.poolRef);
    var t := w.cfg.terms[c.spec.poolRef];
    var b := BookFor(w, c.meta.uid);
    var es := CallEvents(v.calls, r);
    var ws := WriteEvents(c, v, w.clock);
    PassEvents(c, p, r, w.clock);
    if landed {
      ReconcileKeeps(c, b, p, r, t, w.cfg.admin, w.clock);
      NoteAllCat(b, es, ws, t);
      NoteOneIsNoteAll(b, es, t);
      NoteOneIsNoteAll(NoteAll(b, es, t), ws, t);
      CommitKeeps(w, Persisted(c, v, w.clock), es + ws);
    } else {
      CallEventsKeep(c, b, p, r, t, w.cfg.admin, w.clock);
      RecordKeeps(w, c.meta.name, es);
    }
  }

  lemma PassEvents(c: Cir, p: Pool, r: Replies, now: Time)
    ensures var v := Handle(c, p, r, now);
            && |CallEvents(v.calls, r)| <= 1 && |WriteEvents(c, v, now)| <= 1
            && Persisted(c, v, now).spec.poolRef == c.spec.poolRef
            && Persisted(c, v, now).meta.name == c.meta.name
            && Persisted(c, v, now).meta.uid == c.meta.uid
  {
    OnlyStateAndFinalizerMove(c, p, r, now);
  }

  /** What a whole pass leaves alone, and what it stores. */
  lemma PassFrame(w: World, c: Cir, p: Pool, r: Replies, d: Delivery)
    requires Persisted(c, Handle(c, p, r, w.clock), w.clock).meta.name == c.meta.name
    ensures var w' := PassOver(w, c, p, r, d);
            var v := Handle(c, p, r, w.clock);
            var c' := Persisted(c, v, w.clock);
            && w'.cfg == w.cfg && w'.clock == w.clock && w'.pass == w.pass && w'.snapshots == w.snapshots
            && w'.db.pools == w.db.pools && w'.visits == w.visits[c.meta.uid := w.clock]
            && w'.db.cirs == (if !(Writes(v) && d.Arrives()) then w.db.cirs
                              else if Vanishes(c') then w.db.cirs - {c.meta.name}
                              else w.db.cirs[c.meta.name := Renumbered(c', w.db.next)])
  {
    hide Handle, Persisted, Writes, Vanishes, CallEvents, WriteEvents, AcquiredId, ReturnedId, Commit;
    var v := Handle(c, p, r, w.clock);
    var w1 := ProviderEffect(w, v.calls, r, Writes(v) && d.Arrives()).(visits := w.visits[c.meta.uid := w.clock]);
    CommitFrame(w1, Persisted(c, v, w.clock), CallEvents(v.calls, r) + WriteEvents(c, v, w.clock));
  }

  lemma {:induction false} NoteAllCat(b: Book, xs: seq<Event>, ys: seq<Event>, t: Terms)
    ensures NoteAll(b, xs + ys, t) == NoteAll(NoteAll(b, xs, t), ys, t)
    decreases |xs|
  {
    if xs == [] {
      assert xs + ys == ys;
    } else {
      assert (xs + ys)[0] == xs[0] && (xs + ys)[1..] == xs[1..] + ys;
      NoteAllCat(Note(b, xs[0], t), xs[1..], ys, t);
    }
  }

  lemma NewCirIsSound(name: string, uid: nat, spec: CirSpec, db: Db, t: Terms, admin: bool, clock: Time)
    requires spec.state == StateNone
    ensures Sound(NewCir(db, name, spec), BookOf([], t), t, admin, clock)
  {
  }

  predicate Creates(w: World, name: string, d: Delivery) {
    w.pass.Listed? && MayCreate(w.pass.pool) && d.Arrives() && name !in w.db.cirs
  }

  lemma CreatedOk(w: World, name: string, d: Delivery)
    requires Inv(w) && Creates(w, name, d)
    ensures var w' := PassCreateStep(w, name, d);
            CirOk(w', name) && LifeOk(w', w.db.next)
  {
    hide Sound, BookOf, Flags;
    var t := w.cfg.terms[w.pass.pool.name];
    NewCirIsSound(name, w.db.next, MemberSpec(w.pass.pool), w.db, t, w.cfg.admin, w.clock);
    SoundImpliesFlags(NewCir(w.db, name, MemberSpec(w.pass.pool)), BookOf([], t), t, w.cfg.admin, w.clock);
  }

  lemma OthersOk(w: World, name: string, d: Delivery, n: string)
    requires Inv(w) && Creates(w, name, d) && n in w.db.cirs
    ensures CirOk(PassCreateStep(w, name, d), n) && w.db.cirs[n].meta.uid != w.db.next && n != name
  {
    hide Sound, BookOf, Flags;
    assert CirOk(w, n);
  }

  lemma PassCreateKeeps(w: World, name: string, d: Delivery)
    requires Inv(w)
    ensures Inv(PassCreateStep(w, name, d))
  {
    hide Sound, BookOf, Flags, BookFor;
    var w' := PassCreateStep(w, name, d);
    if Creates(w, name, d) {
      CreatedOk(w, name, d);
      forall n | n in w.db.cirs ensures CirOk(w', n) && w.db.cirs[n].meta.uid != w.db.next {
        OthersOk(w, name, d, n);
      }
      forall v | v in w'.lives ensures LifeOk(w', v) {
        if v != w.db.next {
          assert LifeOk(w, v);
          assert BookFor(w', v) == BookFor(w, v) by {
            LivesStay(w, w', v);
          }
        }
      }
      forall n | n in w'.db.pools ensures PoolOk(w', n) {
        assert PoolOk(w, n);
      }
      forall s | s in w'.snapshots ensures SnapOk(w', s) {
        assert SnapOk(w, s);
      }
    }
  }

  lemma LivesStay(w: World, w': World, v: nat)
    requires v in w.lives && v in w'.lives && w.lives[v] == w'.lives[v] && w.cfg == w'.cfg
    requires w.lives[v].pool in w.cfg.terms
    ensures BookFor(w', v) == BookFor(w, v)
  {
  }

  /** Steps that leave every CIResource alone. */
  predicate OnlyPoolsOrReads(s: Step) {
    s.Tick? || s.Read? || s.CreatePool? || s.EditPool? || s.RemovePool? || s.PassGet? || s.PassAddFinalizer?
    || s.PassStatus? || s.PassList? || s.PassDropFinalizer? || s.PassEnd?
  }

  /** Storing a pool that fits the configuration leaves every pool in order. */
  lemma StoredPoolsOk(w: World, p: Pool, n: string)
    requires Inv(w) && PoolFits(w.cfg, p) && n in StorePool(w.db, p).pools
    ensures PoolOk(w.(db := StorePool(w.db, p)), n)
  {
    hide CirOk, LifeOk, SnapOk, PassOk;
    assert n in w.db.pools ==> PoolOk(w, n);
  }

  /** A pool write of a pass; the pass itself may end with it. */
  lemma PassPoolWriteOk(w: World, p: Pool, d: Delivery, status: bool, n: string)
    requires Inv(w) && !w.pass.Idle? && p.name == w.pass.pool.name && p.spec == w.pass.pool.spec
    requires var r := if status then UpdatePoolStatus(w.db, p) else UpdatePool(w.db, p);
             n in Send(w.db, r, d).db.pools
    ensures var r := if status then UpdatePoolStatus(w.db, p) else UpdatePool(w.db, p);
            PoolOk(w.(db := Send(w.db, r, d).db), n)
  {
    hide CirOk, LifeOk, SnapOk;
    if p.name in w.db.pools {
      assert PoolOk(w, p.name);
      var q := w.db.pools[p.name];
      if d.Arrives() && PoolIsCurrent(w.db, p) {
        StoredPoolsOk(w, if status then q.(status := p.status) else q.(spec := p.spec, finalizer := p.finalizer), n);
      } else {
        assert PoolOk(w, n);
      }
    } else {
      assert PoolOk(w, n);
    }
  }

  lemma PoolsStayOk(w: World, s: Step, n: string)
    requires Inv(w) && Legal(w, s) && OnlyPoolsOrReads(s) && n in Apply(w, s).db.pools
    ensures PoolOk(Apply(w, s), n)
  {
    hide CirOk, LifeOk, SnapOk, PassOk, StorePool, ReconcileStep, Swap, UpdateCir, PassCreateStep,
         PassAddFinalizerStep, PassDropFinalizerStep, PassStatusStep;
    if n in w.db.pools {
      assert PoolOk(w, n);
    }
    match s
    case CreatePool(p) =>
      if p.name !in w.db.pools {
        StoredPoolsOk(w, p.(finalizer := false, deleting := false), n);
      }
    case EditPool(name, size, state) =>
      if name in w.db.pools {
        assert PoolOk(w, name);
        StoredPoolsOk(w, w.db.pools[name].(spec := w.db.pools[name].spec.(size := size, state := state)), n);
      }
    case RemovePool(name) =>
      if name in w.db.pools && !w.db.pools[name].deleting {
        assert PoolOk(w, name);
        StoredPoolsOk(w, w.db.pools[name].(deleting := true), n);
      }
    case PassAddFinalizer(d) => PassWritesOk(w, s, n);
    case PassDropFinalizer(d) => PassWritesOk(w, s, n);
    case PassStatus(status, d) => PassWritesOk(w, s, n);
    case _ =>
  }

  lemma PassWritesOk(w: World, s: Step, n: string)
    requires Inv(w) && (s.PassAddFinalizer? || s.PassDropFinalizer? || s.PassStatus?) && n in Apply(w, s).db.pools
    ensures PoolOk(Apply(w, s), n)
  {
    hide CirOk, LifeOk, SnapOk, PassOk, StorePool, ReconcileStep, Swap, UpdateCir, PassCreateStep;
    if n in w.db.pools {
      assert PoolOk(w, n);
    }
    match s
    case PassAddFinalizer(d) =>
      if w.pass.Got? && !w.pass.pool.deleting && !w.pass.pool.finalizer {
        PassPoolWriteOk(w, w.pass.pool.(finalizer := true), d, false, n);
      }
    case PassDropFinalizer(d) =>
      if w.pass.Listed? && w.pass.pool.deleting && w.pass.members == {} && w.pass.pool.finalizer {
        PassPoolWriteOk(w, w.pass.pool.(finalizer := false), d, false, n);
      }
    case PassStatus(status, d) =>
      if !w.pass.Idle? && !w.pass.pool.deleting {
        PassPoolWriteOk(w, w.pass.pool.(status := status), d, true, n);
      }
  }

  lemma PassStaysOk(w: World, s: Step)
    requires Inv(w) && Legal(w, s) && OnlyPoolsOrReads(s)
    ensures PassOk(Apply(w, s)) && w.db.next <= Apply(w, s).db.next
  {
    hide CirOk, LifeOk, SnapOk, ReconcileStep, Swap, PassCreateStep, DeleteStep, EditSpecStep;
    assert s.PassGet? && s.name in w.db.pools ==> PoolOk(w, s.name);
  }

  lemma ReadsAreCurrent(w: World, s: Step, c: Cir)
    requires Inv(w) && OnlyPoolsOrReads(s)
    requires c in Apply(w, s).snapshots && c !in w.snapshots
    ensures c.meta.name in w.db.cirs && w.db.cirs[c.meta.name] == c
  {
    hide Sound, LifeOk, PoolOk, SnapOk;
    var n :| n in w.db.cirs && w.db.cirs[n] == c;
    assert CirOk(w, n);
  }

  lemma PoolStepFrame(w: World, s: Step)
    requires OnlyPoolsOrReads(s)
    ensures var w' := Apply(w, s);
            && w'.lives == w.lives && w'.db.cirs == w.db.cirs && w'.cfg == w.cfg
            && w.clock <= w'.clock && w.db.next <= w'.db.next
  {
    hide ReconcileStep, Swap, PassCreateStep, DeleteStep, EditSpecStep;
  }

  lemma PoolStepKeeps(w: World, s: Step)
    requires Inv(w) && Legal(w, s) && OnlyPoolsOrReads(s)
    ensures Inv(Apply(w, s))
  {
    hide CirOk, LifeOk, SnapOk, PoolOk, PassOk, Legal, StorePool, ReconcileStep, Swap, PassCreateStep;
    var w' := Apply(w, s);
    PoolStepFrame(w, s);
    forall n | n in w'.db.pools ensures PoolOk(w', n) {
      PoolsStayOk(w, s, n);
    }
    PassStaysOk(w, s);
    forall c | c in w'.snapshots && c !in w.snapshots
      ensures c.meta.name in w.db.cirs && w.db.cirs[c.meta.name] == c
    {
      ReadsAreCurrent(w, s, c);
    }
    FrameKeeps(w, w');
  }

  lemma StepKeeps(w: World, s: Step)
    requires Inv(w) && Legal(w, s)
    ensures Inv(Apply(w, s))
  {
    hide Sound, BookOf, LifeOk, PoolOk, SnapOk, PassOk;
    match s
    case AcquireWrite(snap, d) => AcquireWriteKeeps(w, snap, d);
    case ReleaseWrite(snap, d) => ReleaseWriteKeeps(w, snap, d);
    case EditSpec(name, state) =>
      if name in w.db.cirs {
        assert CirOk(w, name);
        QuietWriteKeeps(w, w.db.cirs[name], WithSpecState(w.db.cirs[name], state));
      }
    case Delete(name) =>
      if name in w.db.cirs && !w.db.cirs[name].meta.deleting {
        var c := w.db.cirs[name];
        assert CirOk(w, name);
        QuietWriteKeeps(w, c, c.(meta := c.meta.(deleting := true)));
      }
    case Reconcile(name, r, d) => ReconcileStepKeeps(w, name, r, d);
    case PassLabel(snap, d) =>
      if snap in w.snapshots && d.Arrives() && IsCurrent(w.db, snap) {
        AcceptedMeansUnchanged(w, snap);
        QuietWriteKeeps(w, snap, MergeMain(snap, Evicting(snap)));
      }
    case PassCreate(name, d) => PassCreateKeeps(w, name, d);
    case _ => PoolStepKeeps(w, s);
  }

  lemma ConfigStays(w: World, s: Step)
    ensures Apply(w, s).cfg == w.cfg
  {
  }

  lemma {:induction false} RunKeeps(w: World, steps: seq<Step>)
    requires Inv(w) && LegalRun(w, steps)
    ensures Inv(Run(w, steps)) && Run(w, steps).cfg == w.cfg
    decreases |steps|
  {
    hide Inv, Apply, Legal;
    if steps != [] {
      StepKeeps(w, steps[0]);
      ConfigStays(w, steps[0]);
      RunKeeps(Apply(w, steps[0]), steps[1..]);
    }
  }

  lemma InitialInv(w: World)
    requires Initial(w)
    ensures Inv(w)
  {
  }
}
