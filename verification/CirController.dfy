/** The CIResource controller: fetch the object and its pool, run the machine
    once, and write back the half of the object that the machine marked. */
module CirController {
  import opened Api
  import opened ApiServers
  import opened Providers
  import opened CirFsm

  datatype ReconcileError = PoolMissing | ReadFailed | Fsm(fsm: FsmError) | Api(api: ApiError)

  /** Which of the reads of one reconcile succeed. That of the secret counts as a
      success when there is none. */
  datatype Gets = Gets(cir: bool, pool: bool, secret: bool)

  datatype Result = Result(requeueAfter: Time, err: Option<ReconcileError>)

  /** updateStatus stamps the status it is about to write. */
  function Stamped(c: Cir, now: Time): Cir {
    c.(status := c.status.(lastUpdated := Some(now)))
  }

  /** The object the server ends up with when the write of `v` arrives. */
  function Persisted(c: Cir, v: Verdict, now: Time): Cir {
    if v.err.Some? then c
    else if v.resourceDirty then MergeMain(c, v.cir)
    else if v.statusDirty then MergeStatus(c, Stamped(v.cir, now))
    else c
  }

  function Persist(db: Db, v: Verdict, now: Time, delivery: Delivery): Written {
    if v.err.Some? then Written(db, None)
    else if v.resourceDirty then Send(db, UpdateCir(db, v.cir), delivery)
    else if v.statusDirty then Send(db, UpdateCirStatus(db, Stamped(v.cir, now)), delivery)
    else Written(db, None)
  }

  predicate Writes(v: Verdict) {
    v.err.None? && (v.resourceDirty || v.statusDirty)
  }

  function ResultOf(v: Verdict, written: Written): Result {
    if v.err.Some? then Result(0, Some(Fsm(v.err.value)))
    else if written.err.Some? then Result(0, Some(Api(written.err.value)))
    else Result(v.delay, None)
  }

  /** Writing one half leaves exactly the object the machine had in memory,
      plus the stamp; no change made in memory is dropped, none is invented.
      The write is refused only when it does not arrive. */
  lemma PersistStoresVerdict(db: Db, name: string, p: Pool, r: Replies, now: Time, delivery: Delivery)
    requires name in db.cirs && db.cirs[name].meta.name == name
    ensures var c := db.cirs[name];
            var v := Handle(c, p, r, now);
            var kept := Persisted(c, v, now);
            && kept == (if v.statusDirty then Stamped(v.cir, now) else v.cir)
            && Persist(db, v, now, delivery).db ==
                 (if Writes(v) && delivery.Arrives() then StoreCir(db, kept) else db)
            && (Persist(db, v, now, delivery).err.Some? <==> Writes(v) && !delivery.Delivered?)
  {
    var c := db.cirs[name];
    LookupsSucceed(c, p, r, now);
    PersistedHalfIsAll(c, p, r, now);
    OnlyStateAndFinalizerMove(c, p, r, now);
  }

  /** A pass never touches the identity of the object, its labels, its deletion
      mark, or the rest of its spec. */
  lemma OnlyStateAndFinalizerMove(c: Cir, p: Pool, r: Replies, now: Time)
    ensures var v := Handle(c, p, r, now);
            && v.cir.meta == c.meta.(finalizer := v.cir.meta.finalizer)
            && v.cir.spec == c.spec.(state := v.cir.spec.state)
  {
    LookupsSucceed(c, p, r, now);
    PersistedHalfIsAll(c, p, r, now);
    MainWrites(c, p, r, now);
  }

  predicate HasPoolFor(db: Db, name: string) {
    name in db.cirs && db.cirs[name].spec.poolRef in db.pools
  }

  class CIResourceReconciler {
    const server: ApiServer

    constructor (server: ApiServer)
      ensures this.server == server
    {
      this.server := server;
    }

    method UpdateResource(cir: CIResource, delivery: Delivery) returns (err: Option<ApiError>)
      modifies server
      ensures Written(server.db, err) == Send(old(server.db), UpdateCir(old(server.db), cir.Value()), delivery)
    {
      err := server.UpdateCir(cir.Value(), delivery);
    }

    method UpdateStatus(cir: CIResource, now: Time, delivery: Delivery) returns (err: Option<ApiError>)
      modifies server, cir`status
      ensures cir.Value() == Stamped(old(cir.Value()), now)
      ensures Written(server.db, err) ==
                Send(old(server.db), UpdateCirStatus(old(server.db), Stamped(old(cir.Value()), now)), delivery)
    {
      cir.status := cir.status.(lastUpdated := Some(now));
      err := server.UpdateCirStatus(cir.Value(), delivery);
    }

    /** One reconcile of the object called `name`: a missing object is not an
        error, nor is one that cannot be read; a missing pool is, and so is a pool
        or a secret that cannot be read; otherwise the server and the provider end
        up where the verdict of one pass sends them. */
    method Reconcile(name: string, gets: Gets, provider: Provider, now: Time, delivery: Delivery)
      returns (result: Result)
      modifies server, provider
      ensures !gets.cir || name !in old(server.db).cirs ==>
                server.db == old(server.db) && provider.calls == old(provider.calls) && result == Result(0, None)
      ensures gets.cir && name in old(server.db).cirs && (!gets.pool || !HasPoolFor(old(server.db), name)) ==>
                server.db == old(server.db) && provider.calls == old(provider.calls)
                && result == Result(0, Some(if gets.pool then PoolMissing else ReadFailed))
      ensures gets.cir && gets.pool && HasPoolFor(old(server.db), name) && !gets.secret ==>
                server.db == old(server.db) && provider.calls == old(provider.calls)
                && result == Result(0, Some(ReadFailed))
      ensures gets.cir && gets.pool && gets.secret && HasPoolFor(old(server.db), name) ==>
                var c := old(server.db).cirs[name];
                var v := Handle(c, old(server.db).pools[c.spec.poolRef], provider.replies, now);
                var written := Persist(old(server.db), v, now, delivery);
                && server.db == written.db
                && provider.calls == old(provider.calls) + v.calls
                && result == ResultOf(v, written)
    {
      if !gets.cir {
        return Result(0, None);
      }
      var found := server.GetCir(name);
      if found.None? {
        return Result(0, None);
      }
      if !gets.pool {
        return Result(0, Some(ReadFailed));
      }
      var pool := server.GetPool(found.value.spec.poolRef);
      if pool.None? {
        return Result(0, Some(PoolMissing));
      }
      if !gets.secret {
        return Result(0, Some(ReadFailed));
      }
      ghost var v := Handle(found.value, pool.value, provider.replies, now);
      var cir := new CIResource(found.value);
      var fsm := new CIResourceFSM();
      var isDirty, isStatusDirty, retryAfter, err := fsm.Process(cir, pool.value, provider, now);
      assert fsm.Shows(cir, provider, old(provider.calls), v, retryAfter, err);
      if err.Some? {
        return Result(0, Some(Fsm(err.value)));
      }
      var failed: Option<ApiError> := None;
      if isDirty {
        failed := UpdateResource(cir, delivery);
      } else if isStatusDirty {
        failed := UpdateStatus(cir, now, delivery);
      }
      if failed.Some? {
        return Result(0, Some(Api(failed.value)));
      }
      return Result(retryAfter, None);
    }
  }
}
