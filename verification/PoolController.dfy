/** The CIPool controller.

    The first half gives what one pass does to the API server (`PoolPass`), for
    a list that the server returned and a fate of every request it sends. The
    second half is the controller, which updates its pool object in place and
    loops over the members. `PoolTheorems` says what the passes amount to. */
module PoolController {
  import opened Api
  import opened ApiServers
  import opened Names
  import opened Requests
  import opened Sorting

  const POOL_PASS_DELAY: Time := 60
  const DIRTY_DELAY: Time := 1
  const DRAIN_DELAY: Time := 10

  datatype PassError = ListFailed | SecretFailed | InvalidState | Write(api: ApiError)

  datatype PassResult = PassResult(requeueAfter: Time, err: Option<PassError>)

  datatype Passed = Passed(db: Db, result: PassResult)

  /** The fate of each request of one pass; those about a member go by name. */
  datatype Net = Net(
    gets: bool,
    lists: bool,
    secret: bool,
    pool: Delivery,
    status: Delivery,
    member: string -> Delivery,
    batch: Delivery)

  function WriteError(err: Option<ApiError>): Option<PassError> {
    match err
    case None => None
    case Some(e) => Some(Write(e))
  }

  /** A write that ends the pass. */
  function Last(w: Written): Passed {
    Passed(w.db, PassResult(0, WriteError(w.err)))
  }

  // ------------------------------------------------------------------ parts

  predicate NameLess(a: Cir, b: Cir) {
    Less(a.meta.name, b.meta.name)
  }

  function SortByName(items: seq<Cir>): seq<Cir> {
    StableSort(items, NameLess)
  }

  function MembersOf(items: seq<Cir>, pool: string): seq<Cir> {
    if items == [] then []
    else
      var front := MembersOf(items[..|items| - 1], pool);
      var c := items[|items| - 1];
      if c.spec.poolRef == pool then front + [c] else front
  }

  function SavingStatus(db: Db, p: Pool, now: Time, delivery: Delivery): Written {
    Send(db, UpdatePoolStatus(db, p.(status := p.status.(lastUpdated := Some(now)))), delivery)
  }

  function Labelling(db: Db, c: Cir, net: Net): Written {
    Send(db, UpdateCir(db, Evicting(c)), net.member(c.meta.name))
  }

  datatype Selection = Selection(db: Db, count: nat)

  /** The selection loop over what is left of the members, `count` of them
      selected already. A member that is skipped, because it has the label or
      because its update failed, goes on to the next one without the check that
      enough are selected. */
  function Select(db: Db, members: seq<Cir>, excess: int, count: nat, net: Net): Selection
    decreases |members|
  {
    if members == [] then Selection(db, count)
    else
      var c := members[|members| - 1];
      var rest := members[..|members| - 1];
      if CanEvict(c) then
        var w := Labelling(db, c, net);
        if w.err.Some? then Select(w.db, rest, excess, count, net)
        else if count + 1 >= excess then Selection(w.db, count + 1)
        else Select(w.db, rest, excess, count + 1, net)
      else if Evictable(c) then Select(db, rest, excess, count, net)
      else if count >= excess then Selection(db, count)
      else Select(db, rest, excess, count, net)
  }

  datatype Changed = Changed(db: Db, count: nat, err: Option<ApiError>)

  function Evict(db: Db, members: seq<Cir>, target: int, net: Net): Changed {
    var s := Select(db, members, |members| - target, 0, net);
    var w := Send(s.db, Written(DeleteEvicted(s.db), None), net.batch);
    Changed(w.db, s.count, w.err)
  }

  function Creating(db: Db, spec: CirSpec, i: nat, net: Net): Written {
    Send(db, CreateCir(db, CirName(i), spec), net.member(CirName(i)))
  }

  /** The creation loop: the numerals from `i` up to `end`. The error that stays
      is the one of the last creation. */
  function Grow(db: Db, spec: CirSpec, i: nat, end: nat, net: Net): Changed
    decreases end - i
  {
    if i >= end then Changed(db, 0, None)
    else
      var w := Creating(db, spec, i, net);
      var rest := Grow(w.db, spec, i + 1, end, net);
      Changed(rest.db,
              if w.err.None? then rest.count + 1 else rest.count,
              if i + 1 == end then w.err else rest.err)
  }

  datatype Managed = Managed(db: Db, dirty: bool, err: Option<PassError>)

  function Resize(db: Db, p: Pool, all: seq<Cir>, members: seq<Cir>, net: Net): Managed {
    if p.spec.size == |members| then Managed(db, false, None)
    else if p.spec.size > |members| then
      var base := Highest(NamesOf(all)) + 1;
      var g := Grow(db, MemberSpec(p), base, base + (p.spec.size - |members|), net);
      Managed(g.db, g.count > 0, WriteError(g.err))
    else
      var e := Evict(db, members, p.spec.size, net);
      Managed(e.db, e.count > 0 && e.err.None?, WriteError(e.err))
  }

  function Manage(db: Db, p: Pool, items: seq<Cir>, net: Net, now: Time): Managed {
    if !net.lists then Managed(db, false, Some(ListFailed))
    else
      var all := SortByName(items);
      var members := MembersOf(all, p.name);
      var sized := p.(status := p.status.(size := |members|));
      var saved := if p.status.size != |members| then SavingStatus(db, sized, now, net.status) else Written(db, None);
      if saved.err.Some? then Managed(saved.db, false, WriteError(saved.err))
      else Resize(saved.db, p, all, members, net)
  }

  function Drain(db: Db, p: Pool, items: seq<Cir>, net: Net): Passed {
    var members := MembersOf(if net.lists then items else [], p.name);
    if |members| > 0 then
      var e := Evict(db, members, 0, net);
      if e.err.Some? then Passed(e.db, PassResult(0, WriteError(e.err)))
      else Passed(e.db, PassResult(DRAIN_DELAY, None))
    else if p.finalizer then Last(Send(db, UpdatePool(db, p.(finalizer := false)), net.pool))
    else Passed(db, PassResult(0, None))
  }

  function PoolPass(db: Db, name: string, items: seq<Cir>, net: Net, now: Time): Passed {
    if !net.gets then Passed(db, PassResult(POOL_PASS_DELAY, None))
    else if name !in db.pools then Passed(db, PassResult(0, None))
    else
      var p := db.pools[name];
      if p.deleting then Drain(db, p, items, net)
      else if !p.finalizer then Last(Send(db, UpdatePool(db, p.(finalizer := true)), net.pool))
      else if p.status.state != p.spec.state then
        if p.spec.state == PoolAvailable || p.spec.state == PoolOffline then
          Last(SavingStatus(db, p.(status := p.status.(state := p.spec.state)), now, net.status))
        else Passed(db, PassResult(0, Some(InvalidState)))
      else if p.status.state == PoolOffline then Passed(db, PassResult(POOL_PASS_DELAY, None))
      else if !net.secret then Passed(db, PassResult(0, Some(SecretFailed)))
      else
        var m := Manage(db, p, items, net, now);
        if m.err.Some? then Passed(m.db, PassResult(0, m.err))
        else Passed(m.db, PassResult(if m.dirty then DIRTY_DELAY else POOL_PASS_DELAY, None))
  }

  // ---------------------------------------------------------- the controller

  /** A pool in memory, updated in place. */
  class CIPool {
    const name: string
    const version: nat
    var finalizer: bool
    const deleting: bool
    const spec: PoolSpec
    var status: PoolStatus

    constructor (p: Pool)
      ensures Value() == p
    {
      name, version, deleting, spec := p.name, p.version, p.deleting, p.spec;
      finalizer, status := p.finalizer, p.status;
    }

    function Value(): Pool
      reads this
    {
      Pool(name, version, finalizer, deleting, spec, status)
    }
  }

  lemma {:induction false} ListingExists(db: Db, names: set<string>) returns (items: seq<Cir>)
    requires Keyed(db) && names <= db.cirs.Keys
    ensures |items| == |names|
    ensures forall i :: 0 <= i < |items| ==> items[i].meta.name in names && db.cirs[items[i].meta.name] == items[i]
    ensures forall i, j :: 0 <= i < j < |items| ==> items[i].meta.name != items[j].meta.name
    ensures forall n :: n in names ==> exists i :: 0 <= i < |items| && items[i] == db.cirs[n]
    decreases names
  {
    items := [];
    if names != {} {
      var n :| n in names;
      var rest := ListingExists(db, names - {n});
      items := rest + [db.cirs[n]];
      forall m | m in names ensures exists i :: 0 <= i < |items| && items[i] == db.cirs[m] {
        if m == n {
          assert items[|rest|] == db.cirs[m];
        } else {
          var i :| 0 <= i < |rest| && rest[i] == db.cirs[m];
          assert items[i] == db.cirs[m];
        }
      }
    }
  }

  lemma SomeListing(db: Db) returns (items: seq<Cir>)
    requires Keyed(db)
    ensures IsListing(db, items)
  {
    items := ListingExists(db, db.cirs.Keys);
  }

  class CIPoolReconciler {
    const server: ApiServer

    constructor (server: ApiServer)
      ensures this.server == server
    {
      this.server := server;
    }

    /** One reconcile of the pool called `name`, for some list `items` that the
        server may return. */
    method Reconcile(name: string, net: Net, now: Time) returns (result: PassResult, ghost items: seq<Cir>)
      requires Keyed(server.db)
      modifies server
      ensures IsListing(old(server.db), items)
      ensures Passed(server.db, result) == PoolPass(old(server.db), name, items, net, now)
    {
      items := SomeListing(server.db);
      if !net.gets {
        return PassResult(POOL_PASS_DELAY, None), items;
      }
      var found := server.GetPool(name);
      if found.None? {
        return PassResult(0, None), items;
      }
      var pool := new CIPool(found.value);
      if !pool.deleting {
        if !pool.finalizer {
          pool.finalizer := true;
          var err := server.UpdatePool(pool.Value(), net.pool);
          return PassResult(0, WriteError(err)), items;
        }
      } else {
        var cirs: seq<Cir> := [];
        if net.lists {
          cirs := server.ListCirs();
          items := cirs;
        }
        var poolCirs := Filter(cirs, pool.name);
        if |poolCirs| > 0 {
          var _, failed := DeleteCIResources(0, poolCirs, net);
          if failed.Some? {
            return PassResult(0, WriteError(failed)), items;
          }
          return PassResult(DRAIN_DELAY, None), items;
        }
        if pool.finalizer {
          pool.finalizer := false;
          var err := server.UpdatePool(pool.Value(), net.pool);
          return PassResult(0, WriteError(err)), items;
        }
        return PassResult(0, None), items;
      }
      if pool.status.state != pool.spec.state {
        if pool.spec.state == PoolAvailable || pool.spec.state == PoolOffline {
          pool.status := pool.status.(state := pool.spec.state);
          var err := SavePoolStatus(pool, net, now);
          return PassResult(0, WriteError(err)), items;
        }
        return PassResult(0, Some(InvalidState)), items;
      }
      if pool.status.state == PoolOffline {
        return PassResult(POOL_PASS_DELAY, None), items;
      }
      if !net.secret {
        return PassResult(0, Some(SecretFailed)), items;
      }
      var isDirty, err, listed := ManageCIResourcesFor(pool, net, now);
      items := listed;
      if err.Some? {
        return PassResult(0, err), items;
      }
      return PassResult(if isDirty then DIRTY_DELAY else POOL_PASS_DELAY, None), items;
    }

    method Filter(items: seq<Cir>, pool: string) returns (poolCirs: seq<Cir>)
      ensures poolCirs == MembersOf(items, pool)
    {
      poolCirs := [];
      for k := 0 to |items|
        invariant poolCirs == MembersOf(items[..k], pool)
      {
        assert items[..k + 1][..k] == items[..k];
        if items[k].spec.poolRef == pool {
          poolCirs := poolCirs + [items[k]];
        }
      }
      assert items[..|items|] == items;
    }

    method ManageCIResourcesFor(pool: CIPool, net: Net, now: Time)
      returns (isDirty: bool, err: Option<PassError>, ghost items: seq<Cir>)
      requires Keyed(server.db)
      modifies server, pool`status
      ensures IsListing(old(server.db), items)
      ensures Managed(server.db, isDirty, err) == Manage(old(server.db), old(pool.Value()), items, net, now)
    {
      hide SortByName, MembersOf, NamesOf, Highest, IsListing, Evict, Creating, Keyed, SavingStatus, WriteError;
      items := SomeListing(server.db);
      if !net.lists {
        return false, Some(ListFailed), items;
      }
      var listed := server.ListCirs();
      items := listed;
      var allCirs := SortByName(listed);
      var poolCirs := Filter(allCirs, pool.name);
      if pool.status.size != |poolCirs| {
        pool.status := pool.status.(size := |poolCirs|);
        var failed := SavePoolStatus(pool, net, now);
        if failed.Some? {
          return false, WriteError(failed), items;
        }
      }
      if pool.spec.size == |poolCirs| {
        return false, None, items;
      }
      ghost var before := server.db;
      var numCirSelected := 0;
      var failed: Option<ApiError> := None;
      if pool.spec.size > |poolCirs| {
        var highest := GetHighestResourceNumeral(allCirs);
        var baseCirNo := highest + 1;
        var end := baseCirNo + (pool.spec.size - |poolCirs|);
        ghost var spec := MemberSpec(old(pool.Value()));
        for i := baseCirNo to end
          invariant MemberSpec(pool.Value()) == spec
          invariant Grow(before, spec, baseCirNo, end, net).db == Grow(server.db, spec, i, end, net).db
          invariant Grow(before, spec, baseCirNo, end, net).count ==
                      numCirSelected + Grow(server.db, spec, i, end, net).count
          invariant Grow(before, spec, baseCirNo, end, net).err ==
                      if i == end then failed else Grow(server.db, spec, i, end, net).err
        {
          failed := CreateCIResource(pool, i, net);
          if failed.Some? {
            continue;
          }
          numCirSelected := numCirSelected + 1;
        }
      } else {
        numCirSelected, failed := DeleteCIResources(pool.spec.size, poolCirs, net);
        if failed.Some? {
          return false, WriteError(failed), items;
        }
      }
      return numCirSelected > 0, WriteError(failed), items;
    }

    method DeleteCIResources(targetSize: int, poolCirs: seq<Cir>, net: Net)
      returns (numCirSelected: nat, err: Option<ApiError>)
      modifies server
      ensures Changed(server.db, numCirSelected, err) == Evict(old(server.db), poolCirs, targetSize, net)
    {
      numCirSelected := 0;
      var excess := |poolCirs| - targetSize;
      ghost var chosen := Select(server.db, poolCirs, excess, 0, net);
      var i := |poolCirs|;
      assert poolCirs[..i] == poolCirs;
      while i > 0
        invariant 0 <= i <= |poolCirs|
        invariant Select(server.db, poolCirs[..i], excess, numCirSelected, net) == chosen
      {
        i := i - 1;
        var cir := poolCirs[i];
        assert poolCirs[..i + 1][..i] == poolCirs[..i];
        if Evictable(cir) {
          if cir.meta.evicted {
            continue;
          }
          cir := cir.(meta := cir.meta.(evicted := true));
          var failed := server.UpdateCir(cir, net.member(cir.meta.name));
          if failed.Some? {
            continue;
          }
          numCirSelected := numCirSelected + 1;
        }
        if numCirSelected >= excess {
          break;
        }
      }
      assert Selection(server.db, numCirSelected) == chosen;
      err := server.DeleteEvicted(net.batch);
    }

    method CreateCIResource(pool: CIPool, cirNo: nat, net: Net) returns (err: Option<ApiError>)
      modifies server
      ensures Written(server.db, err) == Creating(old(server.db), MemberSpec(pool.Value()), cirNo, net)
    {
      var name := CirName(cirNo);
      err := server.CreateCir(name, CirSpec(pool.name, StateNone, pool.spec.rtype), net.member(name));
    }

    method SavePoolStatus(pool: CIPool, net: Net, now: Time) returns (err: Option<ApiError>)
      modifies server, pool`status
      ensures pool.status == old(pool.status).(lastUpdated := Some(now))
      ensures Written(server.db, err) == SavingStatus(old(server.db), old(pool.Value()), now, net.status)
    {
      pool.status := pool.status.(lastUpdated := Some(now));
      err := server.UpdatePoolStatus(pool.Value(), net.status);
    }
  }
}
