/** One working pass of the pool controller over a pool that is being deleted does
    all that it owes: no label, no mark and no finalizer is left for a later one. */
module PassDuties {
  import opened Api
  import opened ApiServers
  import opened Requests
  import opened PoolController
  import opened PoolTheorems
  import opened PoolRuns
  import opened OfcirSystem
  import opened FairDrain
  import opened Drain

  // --------------------------------------------------------- every member

  lemma LabelledFromCut(db: Db, members: seq<Cir>, net: Net, cut: nat)
    requires cut <= |members|
    ensures |Labelled(db, members, net, cut)| <= |members| - cut
  {
    var tail := members[cut..];
    forall n | n in Labelled(db, members, net, cut) ensures n in NameSet(tail) {
      var i :| cut <= i < |members| && IsHit(db, members[i], net) && members[i].meta.name == n;
      assert tail[i - cut] == members[i];
    }
    DistinctBySize(tail);
    SetSizes(Labelled(db, members, net, cut), {}, NameSet(tail));
  }

  /** Towards no members at all, a loop whose updates work tries every member. */
  lemma DrainWalksAll(db: Db, members: seq<Cir>, net: Net) returns (cut: nat)
    requires Keyed(db) && Distinct(members) && members != [] && Reliable(net)
    ensures cut == 0 && WalkedTo(db, members, |members|, 0, net, cut)
  {
    hide Labelled, Chosen, Select, SameExcept, AllTook;
    cut := SelectionWalks(db, members, |members|, 0, net);
    HeardLabelsChosen(db, members, net, cut);
    LabelledFromCut(db, members, net, cut);
  }

  /** Afterwards every member that may be evicted carries the label. */
  lemma DrainLabelsAll(db: Db, pool: string, members: seq<Cir>, net: Net, n: string)
    requires Keyed(db) && Members(db, pool, members) && members != [] && Reliable(net)
    requires var db' := Select(db, members, |members|, 0, net).db;
             n in db'.cirs && db'.cirs[n].spec.poolRef == pool && Evictable(db'.cirs[n])
    requires n in db.cirs ==> Select(db, members, |members|, 0, net).db.cirs[n].spec.poolRef == db.cirs[n].spec.poolRef
    ensures Select(db, members, |members|, 0, net).db.cirs[n].meta.evicted
  {
    hide Select;
    var cut := DrainWalksAll(db, members, net);
    var db' := Select(db, members, |members|, 0, net).db;
    if n in Labelled(db, members, net, 0) {
      var i :| 0 <= i < |members| && IsHit(db, members[i], net) && members[i].meta.name == n;
    } else {
      assert db'.cirs[n] == db.cirs[n];
      assert n in NameSet(members);
      var i :| 0 <= i < |members| && members[i].meta.name == n;
      EvictableIsLabelled(db, members, net, i);
    }
  }

  lemma EvictableIsLabelled(db: Db, members: seq<Cir>, net: Net, i: int)
    requires 0 <= i < |members| && Reliable(net)
    requires members[i].meta.name in db.cirs && db.cirs[members[i].meta.name] == members[i]
    ensures CanEvict(members[i]) ==> members[i].meta.name in Labelled(db, members, net, 0)
  {
    hide Evictable;
    if CanEvict(members[i]) {
      assert IsHit(db, members[i], net);
    }
  }

  lemma {:induction false} SelectKeepsPoolRef(db: Db, members: seq<Cir>, excess: int, count: nat, net: Net)
    requires Keyed(db) && Distinct(members)
    requires forall i :: 0 <= i < |members| ==>
               members[i].meta.name in db.cirs && db.cirs[members[i].meta.name] == members[i]
    ensures var cirs := Select(db, members, excess, count, net).db.cirs;
            forall n :: n in cirs && n in db.cirs ==> cirs[n].spec.poolRef == db.cirs[n].spec.poolRef
    decreases |members|
  {
    hide Labelling, CanEvict, Evictable, Keyed;
    if members != [] {
      var c, rest := members[|members| - 1], members[..|members| - 1];
      LabellingFrame(db, c, net);
      LabellingKeepsSpec(db, c, net);
      var w := Labelling(db, c, net);
      if CanEvict(c) {
        forall i | 0 <= i < |rest|
          ensures rest[i].meta.name in w.db.cirs && w.db.cirs[rest[i].meta.name] == rest[i]
        {
          assert rest[i].meta.name !in {c.meta.name};
        }
        SelectKeepsPoolRef(w.db, rest, excess, if w.err.None? then count + 1 else count, net);
        GoneStaysGone(w.db, rest, excess, if w.err.None? then count + 1 else count, net);
      } else {
        SelectKeepsPoolRef(db, rest, excess, count, net);
      }
    }
  }

  lemma GoneStaysGone(db: Db, members: seq<Cir>, excess: int, count: nat, net: Net)
    requires Keyed(db)
    ensures Select(db, members, excess, count, net).db.cirs.Keys <= db.cirs.Keys
  {
    SelectAddsNone(db, members, excess, count, net);
  }

  lemma LabellingKeepsSpec(db: Db, c: Cir, net: Net)
    requires Keyed(db) && c.meta.name in db.cirs && db.cirs[c.meta.name] == c
    ensures var db' := Labelling(db, c, net).db;
            && SameExcept(db, db', {c.meta.name})
            && (c.meta.name in db'.cirs ==> db'.cirs[c.meta.name].spec == c.spec)
  {
  }

  // --------------------------------------------------------------- the pass

  lemma BatchMarks(db: Db, n: string)
    requires n in DeleteEvicted(db).cirs && (n in db.cirs && Evictable(db.cirs[n]) ==> db.cirs[n].meta.evicted)
    ensures n in db.cirs && !Parked(DeleteEvicted(db).cirs[n])
  {
  }

  /** After a working pass over members none of them waits for the pool controller. */
  lemma NobodyStaysParked(db: Db, p: Pool, items: seq<Cir>, net: Net, n: string)
    requires Keyed(db) && IsListing(db, items) && Reliable(net) && MembersOf(items, p.name) != []
    requires var db' := PoolController.Drain(db, p, items, net).db; n in db'.cirs && db'.cirs[n].spec.poolRef == p.name
    ensures !Parked(PoolController.Drain(db, p, items, net).db.cirs[n])
  {
    hide Select, MembersOf, Parked, IsListing, Evictable;
    var members := MembersOf(items, p.name);
    SortedListing(db, items, p.name);
    var s := Select(db, members, |members|, 0, net);
    assert PoolController.Drain(db, p, items, net).db == DeleteEvicted(s.db);
    BatchKeepsPoolRef(s.db, n);
    SelectKeepsPoolRef(db, members, |members|, 0, net);
    if Evictable(s.db.cirs[n]) {
      DrainLabelsAll(db, p.name, members, net, n);
    }
    BatchMarks(s.db, n);
  }

  lemma BatchKeepsPoolRef(db: Db, n: string)
    requires n in DeleteEvicted(db).cirs
    ensures n in db.cirs && DeleteEvicted(db).cirs[n].spec == db.cirs[n].spec
  {
  }

  /** Every duty of the pool controller that is owed before a working pass is done
      by it, and it leaves no label and no mark owed at all. */
  lemma WorkingPassDoesDuties(w: World, w': World, name: string, items: seq<Cir>, net: Net, now: Time, duty: Duty)
    requires Keyed(w.db) && IsListing(w.db, items) && Reliable(net) && !duty.Serve?
    requires name in w.db.pools && w.db.pools[name].deleting && w.db.pools[name].finalizer
    requires w'.db == PoolPass(w.db, name, items, net, now).db
    ensures duty.Label? || duty.Mark? || Owed(w, duty, name) ==> !Owed(w', duty, name)
  {
    hide MembersOf, Parked, IsListing, Evict, Select;
    var p := w.db.pools[name];
    KeyedName(w.db, name);
    SortedListing(w.db, items, name);
    assert w'.db == PoolController.Drain(w.db, p, items, net).db;
    if MembersOf(items, name) != [] {
      if !duty.Drop? && IsMember(w', duty.name, name) {
        NobodyStaysParked(w.db, p, items, net, duty.name);
      }
    } else {
      DropsPool(w.db, p, items, net);
    }
  }

  lemma DropsPool(db: Db, p: Pool, items: seq<Cir>, net: Net)
    requires p.name in db.pools && db.pools[p.name] == p && p.deleting && p.finalizer && Reliable(net)
    requires MembersOf(items, p.name) == []
    ensures p.name !in PoolController.Drain(db, p, items, net).db.pools
  {
    hide MembersOf;
  }
}
