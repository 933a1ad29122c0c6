/** The API server as an object that the controllers and commands call. Each
    method is the corresponding function of `Api` applied to its contents. */
module ApiServers {
  import opened Api

  /** `items` holds every stored CIResource exactly once. */
  ghost predicate IsListing(db: Db, items: seq<Cir>) {
    && |items| == |db.cirs|
    && (forall i :: 0 <= i < |items| ==>
          items[i].meta.name in db.cirs && db.cirs[items[i].meta.name] == items[i])
    && (forall i, j :: 0 <= i < j < |items| ==> items[i].meta.name != items[j].meta.name)
    && (forall n :: n in db.cirs ==> exists i :: 0 <= i < |items| && items[i] == db.cirs[n])
  }

  /** Objects are stored under their own name. */
  ghost predicate Keyed(db: Db) {
    && (forall n :: n in db.cirs ==> db.cirs[n].meta.name == n)
    && (forall n :: n in db.pools ==> db.pools[n].name == n)
  }

  // ----------------------------------------------- lists, and single updates

  ghost predicate Distinct(s: seq<Cir>) {
    forall i, j :: 0 <= i < j < |s| ==> s[i].meta.name != s[j].meta.name
  }

  ghost function NameSet(s: seq<Cir>): set<string> {
    set c | c in s :: c.meta.name
  }

  lemma NameSetSnoc(s: seq<Cir>)
    requires s != []
    ensures NameSet(s) == NameSet(s[..|s| - 1]) + {s[|s| - 1].meta.name}
  {
    assert s == s[..|s| - 1] + [s[|s| - 1]];
  }

  lemma {:induction false} DistinctBySize(s: seq<Cir>)
    ensures |NameSet(s)| <= |s|
    ensures Distinct(s) <==> |NameSet(s)| == |s|
  {
    hide Distinct, NameSet;
    if s == [] {
      EmptyIsDistinct();
    } else {
      DistinctBySize(s[..|s| - 1]);
      NameSetSnoc(s);
      DistinctSnoc(s);
    }
  }

  lemma EmptyIsDistinct()
    ensures Distinct([]) && NameSet([]) == {}
  {
  }

  lemma DistinctSnoc(s: seq<Cir>)
    requires s != []
    ensures var front, last := s[..|s| - 1], s[|s| - 1];
            Distinct(s) <==> Distinct(front) && last.meta.name !in NameSet(front)
  {
    var front, last := s[..|s| - 1], s[|s| - 1];
    if last.meta.name in NameSet(front) {
      var c :| c in front && c.meta.name == last.meta.name;
      var i :| 0 <= i < |front| && front[i] == c;
      assert s[i].meta.name == s[|s| - 1].meta.name;
    } else {
      assert forall i :: 0 <= i < |front| ==> front[i] in front;
    }
  }

  ghost predicate SameExcept(db: Db, db': Db, names: set<string>) {
    forall n :: n !in names ==> (n in db.cirs <==> n in db'.cirs) && (n in db.cirs ==> db'.cirs[n] == db.cirs[n])
  }

  lemma SameExceptTrans(db: Db, db': Db, db'': Db, a: set<string>, b: set<string>)
    requires SameExcept(db, db', a) && SameExcept(db', db'', b)
    ensures SameExcept(db, db'', a + b) && SameExcept(db, db'', b + a)
  {
  }

  /** The update of `c` is answered with success. */
  predicate Accepted(db: Db, c: Cir, sent: string -> Delivery) {
    sent(c.meta.name).Delivered? && IsCurrent(db, c)
  }

  /** The update of `c` takes effect. */
  predicate Lands(db: Db, c: Cir, sent: string -> Delivery) {
    sent(c.meta.name).Arrives() && IsCurrent(db, c)
  }

  lemma AcceptedLands(db: Db, c: Cir, sent: string -> Delivery)
    requires Accepted(db, c, sent)
    ensures Lands(db, c, sent)
  {
  }

  /** Writing to one object leaves the others as current as they were. */
  lemma OthersStayCurrent(db: Db, db': Db, name: string, c: Cir, sent: string -> Delivery)
    requires SameExcept(db, db', {name}) && c.meta.name != name
    ensures Accepted(db', c, sent) == Accepted(db, c, sent)
    ensures Lands(db', c, sent) == Lands(db, c, sent)
  {
    assert c.meta.name !in {name};
  }

  /** `items` holds every stored pool exactly once. */
  ghost predicate IsPoolListing(db: Db, items: seq<Pool>) {
    && (forall i :: 0 <= i < |items| ==> items[i].name in db.pools && db.pools[items[i].name] == items[i])
    && (forall i, j :: 0 <= i < j < |items| ==> items[i].name != items[j].name)
    && (forall n :: n in db.pools ==> db.pools[n] in items)
  }

  class ApiServer {
    var db: Db

    constructor (db: Db)
      ensures this.db == db
    {
      this.db := db;
    }

    method GetCir(name: string) returns (found: Option<Cir>)
      ensures found == if name in db.cirs then Some(db.cirs[name]) else None
    {
      found := if name in db.cirs then Some(db.cirs[name]) else None;
    }

    method GetPool(name: string) returns (found: Option<Pool>)
      ensures found == if name in db.pools then Some(db.pools[name]) else None
    {
      found := if name in db.pools then Some(db.pools[name]) else None;
    }

    /** The order of the answer is the server's own. */
    method ListCirs() returns (items: seq<Cir>)
      requires Keyed(db)
      ensures IsListing(db, items)
    {
      items := [];
      var rest := db.cirs.Keys;
      while rest != {}
        invariant rest <= db.cirs.Keys && |items| + |rest| == |db.cirs.Keys|
        invariant forall i :: 0 <= i < |items| ==>
                    items[i].meta.name in db.cirs && db.cirs[items[i].meta.name] == items[i]
        invariant forall i :: 0 <= i < |items| ==> items[i].meta.name !in rest
        invariant forall i, j :: 0 <= i < j < |items| ==> items[i].meta.name != items[j].meta.name
        invariant forall n :: n in db.cirs && n !in rest ==> db.cirs[n] in items
        decreases rest
      {
        var n :| n in rest;
        items := items + [db.cirs[n]];
        rest := rest - {n};
      }
      assert forall n :: n in db.cirs ==> db.cirs[n] in items;
    }

    method ListPools() returns (items: seq<Pool>)
      requires Keyed(db)
      ensures IsPoolListing(db, items)
    {
      items := [];
      var rest := db.pools.Keys;
      while rest != {}
        invariant rest <= db.pools.Keys
        invariant forall i :: 0 <= i < |items| ==> items[i].name in db.pools && db.pools[items[i].name] == items[i]
        invariant forall i :: 0 <= i < |items| ==> items[i].name !in rest
        invariant forall i, j :: 0 <= i < j < |items| ==> items[i].name != items[j].name
        invariant forall n :: n in db.pools && n !in rest ==> db.pools[n] in items
        decreases rest
      {
        var n :| n in rest;
        items := items + [db.pools[n]];
        rest := rest - {n};
      }
    }

    method UpdateCir(obj: Cir, delivery: Delivery) returns (err: Option<ApiError>)
      modifies this
      ensures Written(db, err) == Send(old(db), Api.UpdateCir(old(db), obj), delivery)
    {
      var r := Send(db, Api.UpdateCir(db, obj), delivery);
      db, err := r.db, r.err;
    }

    method UpdateCirStatus(obj: Cir, delivery: Delivery) returns (err: Option<ApiError>)
      modifies this
      ensures Written(db, err) == Send(old(db), Api.UpdateCirStatus(old(db), obj), delivery)
    {
      var r := Send(db, Api.UpdateCirStatus(db, obj), delivery);
      db, err := r.db, r.err;
    }

    method CreateCir(name: string, spec: CirSpec, delivery: Delivery) returns (err: Option<ApiError>)
      modifies this
      ensures Written(db, err) == Send(old(db), Api.CreateCir(old(db), name, spec), delivery)
    {
      var r := Send(db, Api.CreateCir(db, name, spec), delivery);
      db, err := r.db, r.err;
    }

    method DeleteEvicted(delivery: Delivery) returns (err: Option<ApiError>)
      modifies this
      ensures Written(db, err) == Send(old(db), Written(Api.DeleteEvicted(old(db)), None), delivery)
    {
      var r := Send(db, Written(Api.DeleteEvicted(db), None), delivery);
      db, err := r.db, r.err;
    }

    method UpdatePool(obj: Pool, delivery: Delivery) returns (err: Option<ApiError>)
      modifies this
      ensures Written(db, err) == Send(old(db), Api.UpdatePool(old(db), obj), delivery)
    {
      var r := Send(db, Api.UpdatePool(db, obj), delivery);
      db, err := r.db, r.err;
    }

    method UpdatePoolStatus(obj: Pool, delivery: Delivery) returns (err: Option<ApiError>)
      modifies this
      ensures Written(db, err) == Send(old(db), Api.UpdatePoolStatus(old(db), obj), delivery)
    {
      var r := Send(db, Api.UpdatePoolStatus(db, obj), delivery);
      db, err := r.db, r.err;
    }
  }
}
