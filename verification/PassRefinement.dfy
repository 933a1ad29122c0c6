/** A whole pass of the pool controller is a run of the system.

    `OfcirSystem` lets a pass take any of its steps in any number; here the
    controller's own pass, with its loops, its early returns and its lost
    requests, is shown to be one of those runs, so the theorems about all runs
    hold of it. The batch delete is one request to the server and one Delete
    step for every labelled member, which may number the versions differently. */
module PassRefinement {
  import opened Api
  import opened ApiServers
  import opened Requests
  import opened PoolController
  import opened PoolTheorems
  import opened PoolRuns
  import Names
  import opened OfcirSystem
  import opened Lifecycle

  lemma {:induction false} RunThen(w: World, a: seq<Step>, b: seq<Step>)
    requires LegalRun(w, a) && LegalRun(Run(w, a), b)
    ensures LegalRun(w, a + b) && Run(w, a + b) == Run(Run(w, a), b)
    decreases |a|
  {
    hide Apply, Legal;
    if a == [] {
      assert a + b == b;
    } else {
      RunThen(Apply(w, a[0]), a[1..], b);
      assert (a + b)[1..] == a[1..] + b;
    }
  }

  lemma RunOne(w: World, s: Step)
    requires Legal(w, s)
    ensures LegalRun(w, [s]) && Run(w, [s]) == Apply(w, s)
  {
    hide Apply, Legal;
    assert [s][1..] == [];
    assert Run(Apply(w, s), []) == Apply(w, s);
  }

  // ------------------------------------------------------------ batch delete

  function Unversioned(c: Cir): Cir {
    c.(meta := c.meta.(version := 0))
  }

  function Marked(c: Cir): Cir {
    c.(meta := c.meta.(deleting := true))
  }

  /** Two contents of the server that differ in version numbers only. */
  ghost predicate Alike(a: Db, b: Db) {
    && a.pools == b.pools && a.cirs.Keys == b.cirs.Keys
    && forall n :: n in a.cirs ==> Unversioned(a.cirs[n]) == Unversioned(b.cirs[n])
  }

  /** `db` is `before` with the labelled objects among `done` marked or gone. */
  ghost predicate DeletedOf(before: Db, db: Db, done: set<string>) {
    && db.pools == before.pools
    && (forall n :: n in db.cirs <==>
          n in before.cirs && !(n in done && before.cirs[n].meta.evicted && !before.cirs[n].meta.finalizer))
    && (forall n :: n in db.cirs ==> IsMarkedOrSame(before.cirs[n], db.cirs[n], n in done))
  }

  predicate IsMarkedOrSame(c: Cir, c': Cir, done: bool) {
    Unversioned(c') == Unversioned(if done && c.meta.evicted then Marked(c) else c)
  }

  lemma DeleteOne(before: Db, w: World, done: set<string>, n: string)
    requires Keyed(before) && DeletedOf(before, w.db, done) && n !in done
    requires n in before.cirs && before.cirs[n].meta.evicted
    requires before.cirs[n].meta.deleting ==> before.cirs[n].meta.finalizer
    ensures DeletedOf(before, Apply(w, Delete(n)).db, done + {n})
  {
    var w' := Apply(w, Delete(n));
    var c := w.db.cirs[n];
    assert IsMarkedOrSame(before.cirs[n], c, false);
    StoredOrSame(w, n);
    forall m | m in w'.db.cirs ensures IsMarkedOrSame(before.cirs[m], w'.db.cirs[m], m in done + {n}) {
      assert m != n ==> IsMarkedOrSame(before.cirs[m], w.db.cirs[m], m in done);
    }
  }

  lemma StoredOrSame(w: World, n: string)
    requires n in w.db.cirs && w.db.cirs[n].meta.name == n
    ensures var c := w.db.cirs[n];
            var db' := Apply(w, Delete(n)).db;
            && db'.pools == w.db.pools
            && (forall m :: m != n ==>
                  (m in db'.cirs <==> m in w.db.cirs) && (m in w.db.cirs ==> db'.cirs[m] == w.db.cirs[m]))
            && (n in db'.cirs <==> c.meta.deleting || c.meta.finalizer)
            && (n in db'.cirs ==> Unversioned(db'.cirs[n]) == Unversioned(Marked(c)))
  {
  }

  lemma {:induction false} DeleteAll(before: Db, w: World, done: set<string>, rest: set<string>)
    returns (steps: seq<Step>)
    requires Keyed(before) && DeletedOf(before, w.db, done) && done !! rest
    requires forall n :: n in rest ==>
               && n in before.cirs && before.cirs[n].meta.evicted
               && (before.cirs[n].meta.deleting ==> before.cirs[n].meta.finalizer)
    ensures LegalRun(w, steps) && DeletedOf(before, Run(w, steps).db, done + rest)
    decreases rest
  {
    hide DeletedOf, Apply;
    if n :| n in rest {
      var s := Delete(n);
      DeleteOne(before, w, done, n);
      RunOne(w, s);
      var more := DeleteAll(before, Apply(w, s), done + {n}, rest - {n});
      assert done + {n} + (rest - {n}) == done + rest;
      RunThen(w, [s], more);
      steps := [s] + more;
    } else {
      steps := [];
      assert done + rest == done;
    }
  }

  /** Deleting one by one leaves what the batch leaves. */
  lemma BatchIsRun(w: World, delivery: Delivery) returns (steps: seq<Step>)
    requires Keyed(w.db) && forall n :: n in w.db.cirs && w.db.cirs[n].meta.deleting ==> w.db.cirs[n].meta.finalizer
    ensures LegalRun(w, steps)
    ensures Alike(Run(w, steps).db, Send(w.db, Written(DeleteEvicted(w.db), None), delivery).db)
  {
    if delivery.Arrives() {
      var labelled := set n | n in w.db.cirs && w.db.cirs[n].meta.evicted;
      steps := DeleteAll(w.db, w, {}, labelled);
      assert {} + labelled == labelled;
      AllDeleted(w.db, Run(w, steps).db, labelled);
    } else {
      steps := [];
    }
  }

  lemma AllDeleted(before: Db, db: Db, labelled: set<string>)
    requires DeletedOf(before, db, labelled)
    requires forall n :: n in labelled <==> n in before.cirs && before.cirs[n].meta.evicted
    ensures Alike(db, DeleteEvicted(before))
  {
    var batch := DeleteEvicted(before);
    forall n | n in db.cirs ensures Unversioned(db.cirs[n]) == Unversioned(batch.cirs[n]) {
      assert IsMarkedOrSame(before.cirs[n], db.cirs[n], n in labelled);
    }
  }

  // -------------------------------------------------------------- whole pass

  /** What a world must be like for a pass to start: nothing else of the pool
      controller is under way, and the list it gets has been read. */
  ghost predicate Ready(w: World, items: seq<Cir>, net: Net) {
    && Keyed(w.db) && w.pass.Idle? && IsListing(w.db, items)
    && (net.lists || w.cfg.listErrors)
    && (forall n :: n in w.db.cirs ==> w.db.cirs[n] in w.snapshots)
    && (forall n :: n in w.db.cirs && w.db.cirs[n].meta.deleting ==> w.db.cirs[n].meta.finalizer)
  }

  /** Steps that take `w` to contents alike `db`. */
  ghost predicate IsRunTo(w: World, steps: seq<Step>, db: Db) {
    LegalRun(w, steps) && Alike(Run(w, steps).db, db)
  }

  /** After PassGet and PassList, with the pool's own members read. */
  ghost predicate HasListed(w: World, p: Pool, members: seq<Cir>) {
    && w.pass.Listed? && w.pass.pool == p && Keyed(w.db) && Distinct(members)
    && (forall i :: 0 <= i < |members| ==> members[i] in w.snapshots && members[i].spec.poolRef == p.name)
    && (forall i :: 0 <= i < |members| ==>
          members[i].meta.name in w.db.cirs && w.db.cirs[members[i].meta.name] == members[i])
    && (forall n :: n in w.db.cirs && w.db.cirs[n].meta.deleting ==> w.db.cirs[n].meta.finalizer)
  }

  lemma {:induction false} SelectKeepsGuards(db: Db, members: seq<Cir>, excess: int, count: nat, net: Net)
    requires Keyed(db) && Distinct(members)
    requires forall n :: n in db.cirs && db.cirs[n].meta.deleting ==> db.cirs[n].meta.finalizer
    requires forall i :: 0 <= i < |members| ==>
               members[i].meta.name in db.cirs && db.cirs[members[i].meta.name] == members[i]
    ensures var db' := Select(db, members, excess, count, net).db;
            Keyed(db') && forall n :: n in db'.cirs && db'.cirs[n].meta.deleting ==> db'.cirs[n].meta.finalizer
    decreases |members|
  {
    hide Labelling, CanEvict, Evictable, Keyed;
    if members != [] {
      var c, rest := members[|members| - 1], members[..|members| - 1];
      if CanEvict(c) {
        LabellingKeeps(db, c, net);
        var w := Labelling(db, c, net);
        SelectKeepsGuards(w.db, rest, excess, if w.err.None? then count + 1 else count, net);
      } else {
        SelectKeepsGuards(db, rest, excess, count, net);
      }
    }
  }

  lemma LabellingKeeps(db: Db, c: Cir, net: Net)
    requires Keyed(db) && c.meta.name in db.cirs && db.cirs[c.meta.name] == c
    requires forall n :: n in db.cirs && db.cirs[n].meta.deleting ==> db.cirs[n].meta.finalizer
    ensures var db' := Labelling(db, c, net).db;
            && Keyed(db')
            && (forall n :: n in db'.cirs && db'.cirs[n].meta.deleting ==> db'.cirs[n].meta.finalizer)
            && (forall n :: n in db.cirs && n != c.meta.name ==> n in db'.cirs && db'.cirs[n] == db.cirs[n])
  {
  }

  lemma EvictIsRun(w: World, p: Pool, members: seq<Cir>, target: int, net: Net) returns (steps: seq<Step>)
    requires HasListed(w, p, members)
    ensures IsRunTo(w, steps, Evict(w.db, members, target, net).db)
  {
    hide Select, LegalRun, Run, Alike;
    var excess := |members| - target;
    var first := SelectIsRun(w, members, excess, 0, net);
    SelectKeepsGuards(w.db, members, excess, 0, net);
    var rest := BatchIsRun(Run(w, first), net.batch);
    RunThen(w, first, rest);
    steps := first + rest;
  }

  lemma AlikeSelf(db: Db)
    ensures Alike(db, db)
  {
  }

  lemma ResizeIsRun(w: World, p: Pool, all: seq<Cir>, members: seq<Cir>, net: Net) returns (steps: seq<Step>)
    requires HasListed(w, p, members) && MayCreate(p)
    ensures IsRunTo(w, steps, Resize(w.db, p, all, members, net).db)
  {
    hide Evict, Grow, LegalRun, Run, Alike, Names.Highest, Names.NamesOf, HasListed, MayCreate;
    if p.spec.size > |members| {
      var base := Names.Highest(Names.NamesOf(all)) + 1;
      ListedPool(w, p, members);
      steps := GrowIsRun(w, base, base + (p.spec.size - |members|), net);
      AlikeSelf(Run(w, steps).db);
    } else if p.spec.size < |members| {
      steps := EvictIsRun(w, p, members, p.spec.size, net);
    } else {
      steps := [];
      EmptyRun(w);
      AlikeSelf(w.db);
    }
  }

  lemma ListedPool(w: World, p: Pool, members: seq<Cir>)
    requires HasListed(w, p, members)
    ensures w.pass.Listed? && w.pass.pool == p
  {
  }

  lemma EmptyRun(w: World)
    ensures LegalRun(w, []) && Run(w, []) == w
  {
  }

  /** Getting the pool and listing: nothing stored has changed, and the pass
      knows the members. */
  lemma ListingRun(w: World, name: string, items: seq<Cir>, sorted: bool, net: Net) returns (steps: seq<Step>)
    requires Ready(w, items, net) && name in w.db.pools && (net.lists || w.db.pools[name].deleting)
    ensures LegalRun(w, steps)
    ensures var w' := Run(w, steps);
            var members := if net.lists then MembersOf(if sorted then SortByName(items) else items, name) else [];
            && w'.db == w.db && w'.cfg == w.cfg && HasListed(w', w.db.pools[name], members)
            && (members == [] <==> w'.pass.members == {})
  {
    hide IsListing, SortByName, MembersOf, LegalRun, Run, HasListed;
    var p := w.db.pools[name];
    var members := if net.lists then MembersOf(if sorted then SortByName(items) else items, name) else [];
    SortedListing(w.db, items, name);
    var w1 := w.(pass := Got(p));
    var w2 := Apply(w1, PassList(net.lists));
    assert Apply(w, PassGet(name)) == w1;
    RunOne(w, PassGet(name));
    RunOne(w1, PassList(net.lists));
    RunThen(w, [PassGet(name)], [PassList(net.lists)]);
    steps := [PassGet(name)] + [PassList(net.lists)];
    KeyedName(w.db, name);
    if net.lists {
      ListedFits(w2, w.db, p, members);
    } else {
      NoneListed(w2, p);
    }
  }

  lemma NoneListed(w: World, p: Pool)
    requires Keyed(w.db) && w.pass == Listed(p, {})
    requires forall n :: n in w.db.cirs && w.db.cirs[n].meta.deleting ==> w.db.cirs[n].meta.finalizer
    ensures HasListed(w, p, [])
  {
  }

  lemma ListedFits(w: World, db: Db, p: Pool, members: seq<Cir>)
    requires Members(db, p.name, members) && w.db == db && Keyed(db) && w.pass == Listed(p, MemberNames(db, p.name))
    requires forall n :: n in db.cirs ==> db.cirs[n] in w.snapshots
    requires forall n :: n in db.cirs && db.cirs[n].meta.deleting ==> db.cirs[n].meta.finalizer
    ensures HasListed(w, p, members) && (members == [] <==> w.pass.members == {})
  {
    forall i | 0 <= i < |members| ensures members[i].spec.poolRef == p.name {
      assert members[i].meta.name in NameSet(members);
    }
  }

  lemma DrainIsRun(w: World, name: string, items: seq<Cir>, net: Net) returns (steps: seq<Step>)
    requires Ready(w, items, net) && name in w.db.pools && w.db.pools[name].deleting
    ensures IsRunTo(w, steps, Drain(w.db, w.db.pools[name], items, net).db)
  {
    hide LegalRun, Run, Alike, Evict, MembersOf, HasListed, IsListing;
    var p := w.db.pools[name];
    KeyedName(w.db, name);
    var toList := ListingRun(w, name, items, false, net);
    var w1 := Run(w, toList);
    var members := if net.lists then MembersOf(items, name) else [];
    NoMembersOfNone(name);
    if |members| > 0 {
      var rest := EvictIsRun(w1, p, members, 0, net);
      RunThen(w, toList, rest);
      steps := toList + rest;
    } else if p.finalizer {
      var s := PassDropFinalizer(net.pool);
      ListedPool(w1, p, members);
      RunOne(w1, s);
      RunThen(w, toList, [s]);
      steps := toList + [s];
      AlikeSelf(Apply(w1, s).db);
    } else {
      steps := toList;
      AlikeSelf(w.db);
    }
  }

  lemma ManageIsRun(w: World, name: string, items: seq<Cir>, net: Net, now: Time) returns (steps: seq<Step>)
    requires Ready(w, items, net) && Settled(w.db, name)
    ensures IsRunTo(w, steps, Manage(w.db, w.db.pools[name], items, net, now).db)
  {
    hide LegalRun, Run, Alike, Resize, MembersOf, SortByName, IsListing, HasListed;
    var p := w.db.pools[name];
    KeyedName(w.db, name);
    EmptyRun(w);
    AlikeSelf(w.db);
    steps := [];
    if net.lists {
      var all := SortByName(items);
      var members := MembersOf(all, name);
      steps := ListingRun(w, name, items, true, net);
      var w1 := Run(w, steps);
      ListedPool(w1, p, members);
      if p.status.size != |members| {
        var status := p.status.(size := |members|, lastUpdated := Some(now));
        var s := PassStatus(status, net.status);
        RunOne(w1, s);
        RunThen(w, steps, [s]);
        steps := steps + [s];
        var w2 := Apply(w1, s);
        StatusKeepsListed(w1, p, members, status, net.status);
        var saved := SavingStatus(w.db, Sized(p, |members|), now, net.status);
        assert w2.db == saved.db;
        AlikeSelf(w2.db);
        w1 := w2;
        if saved.err.Some? {
          return;
        }
      }
      var rest := ResizeIsRun(w1, p, all, members, net);
      RunThen(w, steps, rest);
      steps := steps + rest;
    }
  }

  lemma StatusKeepsListed(w: World, p: Pool, members: seq<Cir>, status: PoolStatus, d: Delivery)
    requires HasListed(w, p, members) && !p.deleting && p.name in w.db.pools
    ensures HasListed(Apply(w, PassStatus(status, d)), p, members)
    ensures Apply(w, PassStatus(status, d)).db == Send(w.db, UpdatePoolStatus(w.db, p.(status := status)), d).db
  {
  }

  /** Every pass, whatever fails in it, is a run of the system. */
  lemma PassIsRun(w: World, name: string, items: seq<Cir>, net: Net, now: Time) returns (steps: seq<Step>)
    requires Ready(w, items, net)
    ensures IsRunTo(w, steps, PoolPass(w.db, name, items, net, now).db)
  {
    hide LegalRun, Run, Alike, Drain, Manage, IsListing;
    EmptyRun(w);
    AlikeSelf(w.db);
    steps := [];
    if net.gets && name in w.db.pools {
      var p := w.db.pools[name];
      KeyedName(w.db, name);
      if p.deleting {
        steps := DrainIsRun(w, name, items, net);
      } else if !p.finalizer {
        steps := GetAnd(w, name, PassAddFinalizer(net.pool));
      } else if p.status.state != p.spec.state {
        if p.spec.state == PoolAvailable || p.spec.state == PoolOffline {
          var status := p.status.(state := p.spec.state, lastUpdated := Some(now));
          steps := GetAnd(w, name, PassStatus(status, net.status));
        }
      } else if p.status.state != PoolOffline && net.secret {
        steps := ManageIsRun(w, name, items, net, now);
      }
      AlikeSelf(Run(w, steps).db);
    }
  }

  /** Any world of a run is ready for a pass once it has been read. */
  lemma RunsAreReady(w: World, items: seq<Cir>, net: Net)
    requires Inv(w) && w.pass.Idle? && IsListing(w.db, items) && (net.lists || w.cfg.listErrors)
    ensures Legal(w, Read) && Ready(Apply(w, Read), items, net)
  {
    hide Inv, IsListing;
    forall n | n in w.db.cirs
      ensures w.db.cirs[n].meta.name == n && (w.db.cirs[n].meta.deleting ==> w.db.cirs[n].meta.finalizer)
    {
      NameFits(w, n);
      IsGuarded(w, n);
    }
    forall n | n in w.db.pools ensures w.db.pools[n].name == n {
      PoolNameFits(w, n);
    }
  }

  lemma GetAnd(w: World, name: string, s: Step) returns (steps: seq<Step>)
    requires w.pass.Idle? && name in w.db.pools && (s.PassAddFinalizer? || s.PassStatus?)
    ensures LegalRun(w, steps) && Run(w, steps) == Apply(w.(pass := Got(w.db.pools[name])), s)
  {
    hide LegalRun, Run;
    var w1 := w.(pass := Got(w.db.pools[name]));
    RunOne(w, PassGet(name));
    assert Apply(w, PassGet(name)) == w1;
    RunOne(w1, s);
    RunThen(w, [PassGet(name)], [s]);
    steps := [PassGet(name)] + [s];
  }
}
