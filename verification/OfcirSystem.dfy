/** OFCIR as one transition system: the API server, the two controllers, any
    number of acquire and release requests, administrators and a provider, all
    interleaving.

    Reads and writes of the requests and of the pool controller are separate
    steps: `Read` adds what is stored now to `snapshots`, and a later step may
    write back any object ever read. The CIResource controller reads, calls the
    provider and writes in one step; a write that another one overtakes is one
    that does not arrive. The pool controller has one worker, so at most one
    pass is in flight. */
module OfcirSystem {
  import opened Api
  import opened Providers
  import opened CirFsm
  import opened CirController
  import opened Requests
  import opened Histories

  /** `admin`: Spec.State may be edited by hand. `reissues`: the provider may
      hand out again an id that it got back. `forgives`: it may answer as done the
      Release of an id that it has not handed out. `listErrors`: the pool
      controller's List may fail. Kind and time-out of a pool are fixed by its name. */
  datatype Config = Config(terms: map<string, Terms>, admin: bool, reissues: bool, forgives: bool, listErrors: bool)
  {
    /** To the provider an id that it got back is unknown for good. One that
        reissues ids keeps its machines and takes each of them back at any time. */
    predicate Strict() {
      !reissues && !forgives
    }
  }

  /** The history of one object, kept after the object is gone. */
  datatype Life = Life(pool: string, history: History)

  /** How far the pool controller's current pass has got. */
  datatype Pass =
    | Idle
    | Got(pool: Pool)
    | Listed(pool: Pool, members: set<string>)

  datatype World = World(
    cfg: Config,
    db: Db,
    clock: Time,
    lives: map<nat, Life>,
    snapshots: set<Cir>,
    pass: Pass,
    held: set<ResourceId>,      // machines handed out by the provider and not given back
    issued: set<ResourceId>,    // every machine ever handed out
    leaked: set<ResourceId>,    // acquired, but the status write naming it was lost
    dangling: set<ResourceId>,  // given back, but the write that drops it was lost
    visits: map<nat, Time>) // when the CIResource controller last looked at an object

  datatype Step =
    | Tick(seconds: nat)
    | Read
    | AcquireWrite(snap: Cir, delivery: Delivery)
    | ReleaseWrite(snap: Cir, delivery: Delivery)
    | EditSpec(name: string, state: CirState)
    | Delete(name: string)
    | Reconcile(name: string, replies: Replies, delivery: Delivery)
    | CreatePool(created: Pool)
    | EditPool(name: string, size: int, poolState: PoolState)
    | RemovePool(name: string)
    | PassGet(name: string)
    | PassAddFinalizer(delivery: Delivery)
    | PassStatus(status: PoolStatus, delivery: Delivery)
    | PassList(ok: bool)
    | PassLabel(snap: Cir, delivery: Delivery)
    | PassCreate(name: string, delivery: Delivery)
    | PassDropFinalizer(delivery: Delivery)
    | PassEnd

  // ------------------------------------------------------------------ writes

  function Record(w: World, uid: nat, es: seq<Event>): World {
    if uid in w.lives then
      w.(lives := w.lives[uid := w.lives[uid].(history := w.lives[uid].history + es)])
    else w
  }

  /** The server stores `c` over the object of the same name. */
  function Commit(w: World, c: Cir, es: seq<Event>): World {
    Record(w, c.meta.uid, if Vanishes(c) then es + [Vanished] else es).(db := StoreCir(w.db, c))
  }

  /** An Update built from an earlier read; it arrives or not, and the server
      accepts it only when the read is current. */
  function Swap(w: World, wanted: Cir, es: seq<Event>, delivery: Delivery): World {
    if delivery.Arrives() && IsCurrent(w.db, wanted) then
      Commit(w, MergeMain(w.db.cirs[wanted.meta.name], wanted), es)
    else w
  }

  function CallEvents(calls: seq<Call>, r: Replies): seq<Event> {
    if calls == [] then []
    else
      match calls[0]
      case Clean(id) => if r.clean.Ok? then [Cleaned(id)] else []
      case CleanCompleted(id) => if r.cleanCompleted == Ok(true) then [CleanConfirmed(id)] else []
      case Release(id) => if ReleaseDone(r.release) then [Returned(id)] else []
      case _ => []
  }

  /** What a landed write of a pass adds to the history. */
  function WriteEvents(c: Cir, v: Verdict, now: Time): seq<Event> {
    if v.statusDirty then [Entered(c.status.state, v.cir.status.state, v.cir.status.resourceId, now)]
    else if v.resourceDirty && v.cir.spec != c.spec then [Expired(now)]
    else []
  }

  function AcquiredId(calls: seq<Call>, r: Replies): set<ResourceId> {
    if calls != [] && calls[0].Acquire? && r.acquire.Ok? then {r.acquire.value.id} else {}
  }

  function ReturnedId(calls: seq<Call>, r: Replies): set<ResourceId> {
    if calls != [] && calls[0].Release? && ReleaseDone(r.release) then {calls[0].id} else {}
  }

  function ProviderEffect(w: World, calls: seq<Call>, r: Replies, landed: bool): World {
    var got := AcquiredId(calls, r);
    var back := ReturnedId(calls, r);
    w.(held := (w.held + got) - back,
       issued := w.issued + got,
       leaked := if landed then w.leaked else w.leaked + got,
       dangling := if landed then w.dangling - back else w.dangling + back)
  }

  function PassOver(w: World, c: Cir, p: Pool, r: Replies, delivery: Delivery): World {
    var v := Handle(c, p, r, w.clock);
    var landed := Writes(v) && delivery.Arrives();
    var w1 := ProviderEffect(w, v.calls, r, landed).(visits := w.visits[c.meta.uid := w.clock]);
    var es := CallEvents(v.calls, r);
    if landed then Commit(w1, Persisted(c, v, w.clock), es + WriteEvents(c, v, w.clock))
    else Record(w1, c.meta.uid, es)
  }

  // ------------------------------------------------------------------- steps

  predicate HasPool(w: World, name: string) {
    HasPoolFor(w.db, name)
  }

  function ReconcileStep(w: World, name: string, r: Replies, delivery: Delivery): World {
    if HasPool(w, name) then
      PassOver(w, w.db.cirs[name], w.db.pools[w.db.cirs[name].spec.poolRef], r, delivery)
    else w
  }

  function DeleteStep(w: World, name: string): World {
    if name in w.db.cirs && !w.db.cirs[name].meta.deleting then
      var c := w.db.cirs[name];
      Commit(w, c.(meta := c.meta.(deleting := true)), [])
    else w
  }

  function EditSpecStep(w: World, name: string, s: CirState): World {
    if name in w.db.cirs then Commit(w, WithSpecState(w.db.cirs[name], s), []) else w
  }

  function CreatePoolStep(w: World, p: Pool): World {
    if p.name in w.db.pools then w
    else w.(db := StorePool(w.db, p.(finalizer := false, deleting := false)))
  }

  function EditPoolStep(w: World, name: string, size: int, state: PoolState): World {
    if name in w.db.pools then
      var p := w.db.pools[name];
      w.(db := StorePool(w.db, p.(spec := p.spec.(size := size, state := state))))
    else w
  }

  function MemberNames(db: Db, pool: string): set<string> {
    set n | n in db.cirs && db.cirs[n].spec.poolRef == pool
  }

  function PassListStep(w: World, ok: bool): World {
    if !w.pass.Got? then w
    else if ok then w.(pass := Listed(w.pass.pool, MemberNames(w.db, w.pass.pool.name)))
    else if w.pass.pool.deleting then w.(pass := Listed(w.pass.pool, {}))  // the drain branch ignores the error
    else w.(pass := Idle)
  }

  /** The pool, as the pass read it, may get new members. */
  predicate MayCreate(p: Pool) {
    !p.deleting && p.finalizer && p.status.state == p.spec.state && p.status.state != PoolOffline
  }

  function PassCreateStep(w: World, name: string, delivery: Delivery): World {
    if w.pass.Listed? && MayCreate(w.pass.pool) && delivery.Arrives() && name !in w.db.cirs then
      w.(db := CreateCir(w.db, name, MemberSpec(w.pass.pool)).db,
         lives := w.lives[w.db.next := Life(w.pass.pool.name, [])])
    else w
  }

  function PassAddFinalizerStep(w: World, delivery: Delivery): World {
    if w.pass.Got? && !w.pass.pool.deleting && !w.pass.pool.finalizer then
      w.(db := Send(w.db, UpdatePool(w.db, w.pass.pool.(finalizer := true)), delivery).db, pass := Idle)
    else w
  }

  function PassDropFinalizerStep(w: World, delivery: Delivery): World {
    if w.pass.Listed? && w.pass.pool.deleting && w.pass.members == {} && w.pass.pool.finalizer then
      w.(db := Send(w.db, UpdatePool(w.db, w.pass.pool.(finalizer := false)), delivery).db, pass := Idle)
    else w
  }

  function PassStatusStep(w: World, status: PoolStatus, delivery: Delivery): World {
    if !w.pass.Idle? && !w.pass.pool.deleting then
      w.(db := Send(w.db, UpdatePoolStatus(w.db, w.pass.pool.(status := status)), delivery).db)
    else w
  }

  function Apply(w: World, s: Step): World {
    match s
    case Tick(seconds) => w.(clock := w.clock + seconds)
    case Read => w.(snapshots := w.snapshots + set n | n in w.db.cirs :: w.db.cirs[n])
    case AcquireWrite(snap, d) =>
      if snap in w.snapshots && CanAcquire(snap) then
        Swap(w, Acquiring(snap), if d.Delivered? then [Granted(w.clock)] else [], d)
      else w
    case ReleaseWrite(snap, d) =>
      if snap in w.snapshots && CanRelease(snap) then Swap(w, Releasing(snap), [Freed(w.clock)], d) else w
    case EditSpec(name, state) => EditSpecStep(w, name, state)
    case Delete(name) => DeleteStep(w, name)
    case Reconcile(name, r, d) => ReconcileStep(w, name, r, d)
    case CreatePool(created) => CreatePoolStep(w, created)
    case EditPool(name, size, state) => EditPoolStep(w, name, size, state)
    case RemovePool(name) => w.(db := DeletePool(w.db, name).db)
    case PassGet(name) => if w.pass.Idle? && name in w.db.pools then w.(pass := Got(w.db.pools[name])) else w
    case PassAddFinalizer(d) => PassAddFinalizerStep(w, d)
    case PassStatus(status, d) => PassStatusStep(w, status, d)
    case PassList(ok) => PassListStep(w, ok)
    case PassLabel(snap, d) =>
      if w.pass.Listed? && snap in w.snapshots && snap.spec.poolRef == w.pass.pool.name && CanEvict(snap) then
        Swap(w, Evicting(snap), [], d)
      else w
    case PassCreate(name, d) => PassCreateStep(w, name, d)
    case PassDropFinalizer(d) => PassDropFinalizerStep(w, d)
    case PassEnd => w.(pass := Idle)
  }

  /** What the provider may answer: an acquired id is a machine that is not
      handed out, nothing is reported missing that is handed out, and a strict
      provider fails to release what is not handed out. */
  predicate HonestReplies(w: World, c: Cir, p: Pool, r: Replies) {
    var calls := Handle(c, p, r, w.clock).calls;
    && (forall id :: id in AcquiredId(calls, r) ==>
          IsMachine(id) && id !in w.held && (!w.cfg.reissues ==> id !in w.issued))
    && (calls != [] && calls[0].Release? && r.release == Failed(true) ==> calls[0].id !in w.held)
    && (calls != [] && calls[0].Release? && w.cfg.Strict() && calls[0].id !in w.held ==> !ReleaseDone(r.release))
  }

  predicate PoolFits(cfg: Config, p: Pool) {
    && p.name in cfg.terms
    && p.IsFallback() == cfg.terms[p.name].fallback
    && p.spec.timeout == cfg.terms[p.name].timeout
  }

  predicate Legal(w: World, s: Step) {
    match s
    case EditSpec(_, _) => w.cfg.admin
    case Reconcile(name, r, _) =>
      HasPool(w, name) ==> HonestReplies(w, w.db.cirs[name], w.db.pools[w.db.cirs[name].spec.poolRef], r)
    case CreatePool(created) => PoolFits(w.cfg, created)
    case PassList(ok) => ok || w.cfg.listErrors
    case _ => true
  }

  predicate Initial(w: World) {
    && w.db.cirs == map[] && w.db.pools == map[] && w.lives == map[]
    && w.snapshots == {} && w.pass == Idle
    && w.held == {} && w.issued == {} && w.leaked == {} && w.dangling == {} && w.visits == map[]
  }

  function Run(w: World, steps: seq<Step>): World
    decreases |steps|
  {
    if steps == [] then w else Run(Apply(w, steps[0]), steps[1..])
  }

  /** Every step of the run is one that can happen where it happens. */
  predicate LegalRun(w: World, steps: seq<Step>)
    decreases |steps|
  {
    steps == [] || (Legal(w, steps[0]) && LegalRun(Apply(w, steps[0]), steps[1..]))
  }

  // -------------------------------------------------- the steps are API calls

  /** The writes of the system are the API server's own, so that what the
      commands and controllers send and what the runs are made of agree. */
  lemma SwapIsUpdate(w: World, wanted: Cir, es: seq<Event>, delivery: Delivery)
    ensures Swap(w, wanted, es, delivery).db == Send(w.db, UpdateCir(w.db, wanted), delivery).db
  {
  }

  lemma ReconcileStepIsReconcile(w: World, name: string, r: Replies, delivery: Delivery)
    requires HasPool(w, name) && w.db.cirs[name].meta.name == name
    ensures var c := w.db.cirs[name];
            var v := Handle(c, w.db.pools[c.spec.poolRef], r, w.clock);
            ReconcileStep(w, name, r, delivery).db == Persist(w.db, v, w.clock, delivery).db
  {
    var c := w.db.cirs[name];
    PersistStoresVerdict(w.db, name, w.db.pools[c.spec.poolRef], r, w.clock, delivery);
  }

  lemma DeleteStepIsDelete(w: World, name: string)
    ensures DeleteStep(w, name).db == DeleteCir(w.db, name).db
  {
  }
}
