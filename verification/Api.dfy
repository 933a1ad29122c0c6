/** The custom resources and the API server that stores them.

    A CIResource is split as Kubernetes splits it: metadata, spec and status.
    Status is a subresource, so `UpdateCir` never touches it and
    `UpdateCirStatus` never touches anything else. */
module Api {

  datatype Option<+T> = None | Some(value: T)

  /** Values of `CIResourceState`; `StateOther` stands for any other string. */
  datatype CirState =
    | StateNone
    | StateProvisioning
    | StateProvisioningWait
    | StateAvailable
    | StateInUse
    | StateMaintenance
    | StateCleaning
    | StateCleaningWait
    | StateDelete
    | StateError
    | StateOther(text: string)

  datatype PoolState = PoolNone | PoolAvailable | PoolOffline | PoolOther(text: string)

  const FALLBACK_ID := "000-fallback-dummy-000"

  /** Ids by which a provider may know a machine. */
  type MachineId = text: string | text != "" && text != FALLBACK_ID witness "m"

  /** The two ids that name no machine, and all the others. `FallbackId` is the
      dummy carried by a fallback resource while it has none. */
  datatype ResourceId = NoId | FallbackId | Named(text: MachineId)

  /** The string an id is stored as. */
  function IdText(id: ResourceId): string {
    match id
    case NoId => ""
    case FallbackId => FALLBACK_ID
    case Named(text) => text
  }

  /** What a string means when it is read as an id. */
  function IdOf(text: string): ResourceId {
    if text == "" then NoId else if text == FALLBACK_ID then FallbackId else Named(text)
  }

  /** Nothing is lost or confused by storing ids as strings: only a provider that
      answers with the empty string or the dummy's own id would be misread. */
  lemma IdsAreStrings(id: ResourceId, text: string)
    ensures IdOf(IdText(id)) == id && IdText(IdOf(text)) == text
    ensures IsMachine(IdOf(text)) <==> text != "" && text != FALLBACK_ID
  {
  }

  const FALLBACK_PRIORITY := -1

  /** Times and durations are whole seconds. */
  type Time = int

  // ---------------------------------------------------------------- objects

  /** `version` is the resourceVersion, `uid` the identity that survives writes
      but not a delete followed by a create of the same name. */
  datatype Meta = Meta(
    name: string,
    uid: nat,
    version: nat,
    finalizer: bool,
    deleting: bool,
    evicted: bool)

  datatype CirSpec = CirSpec(poolRef: string, state: CirState, rtype: string)

  datatype CirStatus = CirStatus(
    state: CirState,
    resourceId: ResourceId,
    address: string,
    providerInfo: string,
    extra: string,
    lastUpdated: Option<Time>)

  datatype Cir = Cir(meta: Meta, spec: CirSpec, status: CirStatus)

  datatype PoolSpec = PoolSpec(
    provider: string,
    priority: int,
    size: int,
    providerInfo: string,
    timeout: Time,
    state: PoolState,
    rtype: string)

  datatype PoolStatus = PoolStatus(state: PoolState, size: int, lastUpdated: Option<Time>)

  datatype Pool = Pool(
    name: string,
    version: nat,
    finalizer: bool,
    deleting: bool,
    spec: PoolSpec,
    status: PoolStatus)
  {
    predicate IsFallback() {
      spec.priority == FALLBACK_PRIORITY
    }
  }

  const EMPTY_STATUS := CirStatus(StateNone, NoId, "", "", "", None)

  /** A resource id that names a machine of the provider. */
  predicate IsMachine(id: ResourceId) {
    id.Named?
  }

  // ------------------------------------------------------------- API server

  datatype Db = Db(cirs: map<string, Cir>, pools: map<string, Pool>, next: nat)

  datatype ApiError = NotFound | Conflict | AlreadyExists | Network

  datatype Written = Written(db: Db, err: Option<ApiError>)

  /** What happens to one write request on its way to the server and back. */
  datatype Delivery = Delivered | AnswerLost | Undelivered {
    predicate Arrives() {
      !Undelivered?
    }
  }

  /** A request that arrives takes effect; its answer may still be lost. */
  function Send(before: Db, handled: Written, delivery: Delivery): Written {
    match delivery
    case Delivered => handled
    case AnswerLost => Written(handled.db, Some(Network))
    case Undelivered => Written(before, Some(Network))
  }

  /** An object with a deletion timestamp and no finalizer is removed. */
  predicate Vanishes(c: Cir) {
    c.meta.deleting && !c.meta.finalizer
  }

  function StoreCir(db: Db, c: Cir): Db {
    if Vanishes(c) then
      db.(cirs := db.cirs - {c.meta.name}, next := db.next + 1)
    else
      db.(cirs := db.cirs[c.meta.name := c.(meta := c.meta.(version := db.next))], next := db.next + 1)
  }

  /** `obj` carries the version the server currently has. */
  predicate IsCurrent(db: Db, obj: Cir) {
    obj.meta.name in db.cirs && db.cirs[obj.meta.name].meta.version == obj.meta.version
  }

  function Refusal(db: Db, obj: Cir): ApiError {
    if obj.meta.name !in db.cirs then NotFound else Conflict
  }

  /** What Update keeps of the stored object and what it takes from the request. */
  function MergeMain(stored: Cir, obj: Cir): Cir {
    stored.(spec := obj.spec,
            meta := stored.meta.(finalizer := obj.meta.finalizer, evicted := obj.meta.evicted))
  }

  function MergeStatus(stored: Cir, obj: Cir): Cir {
    stored.(status := obj.status)
  }

  function UpdateCir(db: Db, obj: Cir): Written {
    if !IsCurrent(db, obj) then
      Written(db, Some(Refusal(db, obj)))
    else
      Written(StoreCir(db, MergeMain(db.cirs[obj.meta.name], obj)), None)
  }

  function UpdateCirStatus(db: Db, obj: Cir): Written {
    if !IsCurrent(db, obj) then
      Written(db, Some(Refusal(db, obj)))
    else
      Written(StoreCir(db, MergeStatus(db.cirs[obj.meta.name], obj)), None)
  }

  function NewCir(db: Db, name: string, spec: CirSpec): Cir {
    Cir(Meta(name, db.next, db.next, false, false, false), spec, EMPTY_STATUS)
  }

  function CreateCir(db: Db, name: string, spec: CirSpec): Written {
    if name in db.cirs then
      Written(db, Some(AlreadyExists))
    else
      Written(db.(cirs := db.cirs[name := NewCir(db, name, spec)], next := db.next + 1), None)
  }

  /** A delete request marks the object; marking it twice changes nothing. */
  function DeleteCir(db: Db, name: string): Written {
    if name !in db.cirs then
      Written(db, Some(NotFound))
    else if db.cirs[name].meta.deleting then
      Written(db, None)
    else
      var c := db.cirs[name];
      Written(StoreCir(db, c.(meta := c.meta.(deleting := true))), None)
  }

  /** The members carrying the eviction label are marked, or removed when no
      finalizer protects them. */
  function DeleteEvicted(db: Db): Db {
    db.(cirs := map n | n in db.cirs && (db.cirs[n].meta.evicted ==> db.cirs[n].meta.finalizer)
                  :: MarkIfEvicted(db.cirs[n], db.next),
        next := db.next + 1)
  }

  function MarkIfEvicted(c: Cir, version: nat): Cir {
    if c.meta.evicted && !c.meta.deleting then
      c.(meta := c.meta.(deleting := true, version := version))
    else c
  }

  // ------------------------------------------------------------------ pools

  predicate PoolIsCurrent(db: Db, p: Pool) {
    p.name in db.pools && db.pools[p.name].version == p.version
  }

  function StorePool(db: Db, p: Pool): Db {
    if p.deleting && !p.finalizer then
      db.(pools := db.pools - {p.name}, next := db.next + 1)
    else
      db.(pools := db.pools[p.name := p.(version := db.next)], next := db.next + 1)
  }

  function PoolRefusal(db: Db, p: Pool): ApiError {
    if p.name !in db.pools then NotFound else Conflict
  }

  function UpdatePool(db: Db, p: Pool): Written {
    if !PoolIsCurrent(db, p) then
      Written(db, Some(PoolRefusal(db, p)))
    else
      Written(StorePool(db, db.pools[p.name].(spec := p.spec, finalizer := p.finalizer)), None)
  }

  function UpdatePoolStatus(db: Db, p: Pool): Written {
    if !PoolIsCurrent(db, p) then
      Written(db, Some(PoolRefusal(db, p)))
    else
      Written(StorePool(db, db.pools[p.name].(status := p.status)), None)
  }

  function DeletePool(db: Db, name: string): Written {
    if name !in db.pools then
      Written(db, Some(NotFound))
    else if db.pools[name].deleting then
      Written(db, None)
    else
      Written(StorePool(db, db.pools[name].(deleting := true)), None)
  }

  /** Every write that is accepted bumps the version, so a version, once read,
      is current only while the object has not been written since. This is the
      optimistic concurrency control the commands rely on. */
  lemma AcceptedUpdateIsFresh(db: Db, obj: Cir)
    requires forall n :: n in db.cirs ==> db.cirs[n].meta.name == n && db.cirs[n].meta.version < db.next
    ensures var r := UpdateCir(db, obj);
            && (r.err.None? <==> IsCurrent(db, obj))
            && (r.err.None? ==> !IsCurrent(r.db, obj))
            && (r.err.None? && obj.meta.name in r.db.cirs ==>
                  r.db.cirs[obj.meta.name].status == db.cirs[obj.meta.name].status)
            && (r.err.Some? ==> r.db == db)
  {
    var r := UpdateCir(db, obj);
    if r.err.None? {
      assert db.cirs[obj.meta.name].meta.name == obj.meta.name;
    }
  }
}
