/** Whole passes of the pool controller, and sequences of them. */
module PoolRuns {
  import opened Api
  import opened ApiServers
  import opened Names
  import opened Requests
  import opened PoolController
  import opened PoolTheorems
  import Sys = OfcirSystem

  /** The pool needs no finalizer, no state change, and is not offline. */
  predicate Settled(db: Db, name: string) {
    && name in db.pools
    && var p := db.pools[name];
       !p.deleting && p.finalizer && p.status.state == p.spec.state && p.status.state != PoolOffline
  }

  /** Reads succeed and so does the write of the pool's own status. */
  predicate Reads(net: Net) {
    net.gets && net.lists && net.secret && net.status.Delivered?
  }

  function Count(db: Db, pool: string): nat {
    |Sys.MemberNames(db, pool)|
  }

  function FirstNew(items: seq<Cir>): nat {
    Highest(NamesOf(SortByName(items))) + 1
  }

  // -------------------------------------------------------------- scaling up

  /** The numerals above the highest give names that no stored object has. */
  lemma NumeralsAreFresh(db: Db, items: seq<Cir>, deficit: nat)
    requires Keyed(db) && IsListing(db, items)
    requires FirstNew(items) + deficit - 1 <= MAX_INT
    ensures FreshFrom(db, FirstNew(items), FirstNew(items) + deficit)
  {
    hide CirName, Highest;
    var all := SortByName(items);
    SortedListing(db, items, "");
    FreshNames(NamesOf(all), deficit);
    forall n | n in db.cirs ensures n in NamesOf(all) {
      assert db.cirs[n] in all;
      var j :| 0 <= j < |all| && all[j] == db.cirs[n];
      assert NamesOf(all)[j] == n;
    }
  }

  /** The status write that precedes the resizing touches no member. */
  lemma SavingKeepsMembers(db: Db, p: Pool, now: Time, d: Delivery)
    requires Keyed(db) && p.name in db.pools && db.pools[p.name].version == p.version && !p.deleting
    requires !db.pools[p.name].deleting && db.pools[p.name].spec == p.spec && db.pools[p.name].finalizer == p.finalizer
    ensures var w := SavingStatus(db, p, now, d);
            && w.db.cirs == db.cirs && Keyed(w.db)
            && (d.Delivered? ==> w.err.None?)
            && p.name in w.db.pools
            && w.db.pools[p.name].(status := p.status, version := p.version) == p
            && (d.Arrives() ==> w.db.pools[p.name].status == p.status.(lastUpdated := Some(now)) && w.db != db)
            && (!d.Arrives() ==> w.db == db)
  {
    var w := SavingStatus(db, p, now, d);
    assert d.Arrives() ==> w.db.next != db.next;
  }

  function Sized(p: Pool, size: int): Pool {
    p.(status := p.status.(size := size))
  }

  /** What a pass over a settled pool comes to. */
  lemma SettledPass(db: Db, name: string, items: seq<Cir>, net: Net, now: Time)
    requires Keyed(db) && IsListing(db, items) && Settled(db, name) && Reads(net)
    ensures var p := db.pools[name];
            var all := SortByName(items);
            var members := MembersOf(all, name);
            var db1 := if p.status.size == Count(db, name) then db
                       else SavingStatus(db, Sized(p, Count(db, name)), now, Delivered).db;
            var m := Resize(db1, p, all, members, net);
            && Members(db, name, members)
            && PoolPass(db, name, items, net, now) ==
                 Passed(m.db, if m.err.Some? then PassResult(0, m.err)
                              else PassResult(if m.dirty then DIRTY_DELAY else POOL_PASS_DELAY, None))
            && db1.cirs == db.cirs && Keyed(db1) && Settled(db1, name)
            && db1.pools[name].spec == p.spec && db1.pools[name].status.size == Count(db, name)
            && (p.status.size != Count(db, name) ==> db1 != db)
  {
    hide SortByName, Resize, MembersOf, SavingStatus, IsListing;
    var p := db.pools[name];
    SortedListing(db, items, name);
    if p.status.size != Count(db, name) {
      SavingKeepsMembers(db, Sized(p, Count(db, name)), now, Delivered);
    }
  }

  /** A pass that finds too few members ends at the size asked for less the
      creations that did not reach the server, so never above it, and nothing
      else is touched. */
  lemma ScaleUpConverges(db: Db, name: string, items: seq<Cir>, net: Net, now: Time)
    requires Keyed(db) && IsListing(db, items) && Settled(db, name) && Reads(net)
    requires Count(db, name) <= db.pools[name].spec.size
    requires FirstNew(items) + (db.pools[name].spec.size - Count(db, name)) - 1 <= MAX_INT
    ensures var size := db.pools[name].spec.size;
            var base := FirstNew(items);
            var lost := Lost(net, base, base + (size - Count(db, name)));
            var db' := PoolPass(db, name, items, net, now).db;
            && Count(db', name) == size - lost
            && lost <= size - Count(db, name)
            && Keyed(db') && Settled(db', name)
            && db'.pools[name].spec == db.pools[name].spec
            && db'.pools[name].status.size == Count(db, name)
            && (forall n :: n in db.cirs ==> n in db'.cirs && db'.cirs[n] == db.cirs[n])
            && (forall n :: n in db'.cirs && n !in db.cirs ==>
                  IsNewborn(db'.cirs[n], CirSpec(name, StateNone, db.pools[name].spec.rtype)))
  {
    hide IsListing, FirstNew, Grow, Lost, PoolPass, Keyed, IsNewName, FreshFrom;
    var p := db.pools[name];
    var deficit := p.spec.size - Count(db, name);
    var db1 := ScaleUpGrows(db, name, items, net, now);
    NumeralsAreFresh(db, items, deficit);
    SameNamesFresh(db, db1, FirstNew(items), FirstNew(items) + deficit);
    GrowAdds(db1, MemberSpec(p), FirstNew(items), FirstNew(items) + deficit, net);
  }

  lemma SameNamesFresh(db: Db, db1: Db, i: nat, end: nat)
    requires FreshFrom(db, i, end) && db1.cirs == db.cirs
    ensures FreshFrom(db1, i, end)
  {
    hide CirName;
  }

  /** Such a pass records the number of members and then runs the creation loop
      over the deficit. */
  lemma ScaleUpGrows(db: Db, name: string, items: seq<Cir>, net: Net, now: Time) returns (db1: Db)
    requires Keyed(db) && IsListing(db, items) && Settled(db, name) && Reads(net)
    requires Count(db, name) <= db.pools[name].spec.size
    ensures var p := db.pools[name];
            var base := FirstNew(items);
            && PoolPass(db, name, items, net, now).db ==
                 Grow(db1, MemberSpec(p), base, base + (p.spec.size - Count(db, name)), net).db
            && MemberSpec(p).poolRef == name
            && db1.cirs == db.cirs && Keyed(db1) && Settled(db1, name)
            && db1.pools[name].spec == p.spec && db1.pools[name].status.size == Count(db, name)
  {
    hide SortByName, MembersOf, SavingStatus, IsListing, Highest, NamesOf, Grow, PoolPass, Keyed;
    var p := db.pools[name];
    SettledPass(db, name, items, net, now);
    KeyedName(db, name);
    db1 := if p.status.size == Count(db, name) then db
           else SavingStatus(db, Sized(p, Count(db, name)), now, Delivered).db;
    if p.spec.size == Count(db, name) {
      NothingToGrow(db1, MemberSpec(p), FirstNew(items), net);
    }
  }

  ghost predicate SomeArrives(net: Net, i: nat, end: nat) {
    exists n :: IsNewName(net, i, end, n)
  }

  lemma {:induction false} LostOrNot(net: Net, i: nat, end: nat)
    requires i <= end
    ensures Lost(net, i, end) < end - i <==> SomeArrives(net, i, end)
    decreases end - i
  {
    hide CirName, IsNewName;
    if i < end {
      LostOrNot(net, i + 1, end);
      NewNameCons(net, i, end, CirName(i));
      if n :| IsNewName(net, i, end, n) {
        NewNameCons(net, i, end, n);
      }
      var j := i + 1;
      if n :| IsNewName(net, j, end, n) {
        NewNameCons(net, i, end, n);
        assert IsNewName(net, i, end, n);
      }
    } else {
      forall n ensures !IsNewName(net, i, end, n) {
        NoNewName(net, i, end, n);
      }
    }
  }

  /** The deficit is a measure: it shrinks exactly when a creation of the pass
      reaches the server. */
  lemma DeficitShrinks(db: Db, name: string, items: seq<Cir>, net: Net, now: Time)
    requires Keyed(db) && IsListing(db, items) && Settled(db, name) && Reads(net)
    requires Count(db, name) <= db.pools[name].spec.size
    requires FirstNew(items) + (db.pools[name].spec.size - Count(db, name)) - 1 <= MAX_INT
    ensures var base := FirstNew(items);
            Count(PoolPass(db, name, items, net, now).db, name) > Count(db, name) <==>
              SomeArrives(net, base, base + (db.pools[name].spec.size - Count(db, name)))
  {
    hide PoolPass, IsListing, FirstNew, Lost, SomeArrives;
    ScaleUpConverges(db, name, items, net, now);
    LostOrNot(net, FirstNew(items), FirstNew(items) + (db.pools[name].spec.size - Count(db, name)));
  }

  lemma NothingToGrow(db: Db, spec: CirSpec, i: nat, net: Net)
    ensures Grow(db, spec, i, i, net) == Changed(db, 0, None) && Lost(net, i, i) == 0
  {
  }

  lemma KeyedName(db: Db, name: string)
    requires Keyed(db) && name in db.pools
    ensures db.pools[name].name == name
  {
  }

  // ---------------------------------------------------------------- fixpoint

  /** Every write of the pass is answered with success. */
  ghost predicate Reliable(net: Net) {
    Reads(net) && net.pool.Delivered? && net.batch.Delivered? && forall n :: net.member(n).Delivered?
  }

  lemma SelectKeepsNext(db: Db, members: seq<Cir>, excess: int, count: nat, net: Net)
    ensures Select(db, members, excess, count, net).db.next >= db.next
    decreases |members|
  {
    hide CanEvict, Evictable;
  }

  lemma SavingRaisesNext(db: Db, p: Pool, now: Time, d: Delivery)
    ensures SavingStatus(db, p, now, d).db.next >= db.next
    ensures SavingStatus(db, p, now, d).db != db ==> SavingStatus(db, p, now, d).db.next > db.next
  {
  }

  /** A pass over a settled pool changes nothing exactly when the size asked
      for, the size in the status and the number of members are the same. */
  lemma NothingLeftToDo(db: Db, name: string, items: seq<Cir>, net: Net, now: Time)
    requires Keyed(db) && IsListing(db, items) && Settled(db, name) && Reliable(net)
    requires FirstNew(items) + (db.pools[name].spec.size - Count(db, name)) - 1 <= MAX_INT
    ensures var p := db.pools[name];
            PoolPass(db, name, items, net, now).db == db <==>
              p.spec.size == Count(db, name) && p.status.size == Count(db, name)
    ensures db.pools[name].spec.size == Count(db, name) && db.pools[name].status.size == Count(db, name) ==>
              PoolPass(db, name, items, net, now).result == PassResult(POOL_PASS_DELAY, None)
  {
    hide SortByName, MembersOf, SavingStatus, IsListing, Highest, NamesOf, Grow, Lost, PoolPass, Select, Keyed;
    var p := db.pools[name];
    SettledPass(db, name, items, net, now);
    var members := MembersOf(SortByName(items), name);
    if p.spec.size > Count(db, name) {
      ScaleUpConverges(db, name, items, net, now);
      NoneLost(net, FirstNew(items), FirstNew(items) + (p.spec.size - Count(db, name)));
    } else if p.spec.size < Count(db, name) {
      var db1 := if p.status.size == Count(db, name) then db
                 else SavingStatus(db, Sized(p, Count(db, name)), now, Delivered).db;
      SavingRaisesNext(db, Sized(p, Count(db, name)), now, Delivered);
      SelectKeepsNext(db1, members, |members| - p.spec.size, 0, net);
      assert PoolPass(db, name, items, net, now).db.next > db.next;
    }
  }

  lemma {:induction false} NoneLost(net: Net, i: nat, end: nat)
    requires i <= end && forall n :: net.member(n).Delivered?
    ensures Lost(net, i, end) == 0
    decreases end - i
  {
    hide CirName;
    if i < end {
      NoneLost(net, i + 1, end);
    }
  }

  /** From any settled pool that is not too large, one pass brings it to its
      size, the next records that size, and the third finds nothing to do. */
  lemma ThreePassesConverge(db: Db, name: string, items: seq<Cir>, items1: seq<Cir>, items2: seq<Cir>,
                            net: Net, now: Time)
    requires Keyed(db) && Settled(db, name) && Reliable(net)
    requires Count(db, name) <= db.pools[name].spec.size
    requires IsListing(db, items)
    requires FirstNew(items) + (db.pools[name].spec.size - Count(db, name)) - 1 <= MAX_INT
    requires var db1 := PoolPass(db, name, items, net, now).db; IsListing(db1, items1)
    requires var db2 := PoolPass(PoolPass(db, name, items, net, now).db, name, items1, net, now).db;
             IsListing(db2, items2)
    ensures var db1 := PoolPass(db, name, items, net, now).db;
            var db2 := PoolPass(db1, name, items1, net, now).db;
            && Count(db1, name) == db.pools[name].spec.size
            && db2.cirs == db1.cirs
            && PoolPass(db2, name, items2, net, now) == Passed(db2, PassResult(POOL_PASS_DELAY, None))
  {
    hide IsListing, Highest, PoolPass, Keyed, Lost, SortByName, NamesOf;
    var size := db.pools[name].spec.size;
    ScaleUpConverges(db, name, items, net, now);
    NoneLost(net, FirstNew(items), FirstNew(items) + (size - Count(db, name)));
    var db1 := PoolPass(db, name, items, net, now).db;
    FirstNewInRange(items1);
    ScaleUpConverges(db1, name, items1, net, now);
    var db2 := PoolPass(db1, name, items1, net, now).db;
    SameSizeSameMembers(db1, db2, name);
    FirstNewInRange(items2);
    NothingLeftToDo(db2, name, items2, net, now);
    SizedPassAddsNone(db1, name, items1, net, now);
  }

  lemma FirstNewInRange(items: seq<Cir>)
    ensures FirstNew(items) - 1 <= MAX_INT
  {
    HighestIsMaximum(NamesOf(SortByName(items)));
  }

  lemma SizedPassAddsNone(db: Db, name: string, items: seq<Cir>, net: Net, now: Time)
    requires Keyed(db) && IsListing(db, items) && Settled(db, name) && Reads(net)
    requires Count(db, name) == db.pools[name].spec.size
    ensures PoolPass(db, name, items, net, now).db.cirs == db.cirs
  {
    hide SortByName, MembersOf, SavingStatus, IsListing, PoolPass, Keyed;
    SettledPass(db, name, items, net, now);
  }

  lemma SameSizeSameMembers(db1: Db, db2: Db, name: string)
    requires forall n :: n in db1.cirs ==> n in db2.cirs && db2.cirs[n] == db1.cirs[n]
    ensures Sys.MemberNames(db1, name) <= Sys.MemberNames(db2, name)
  {
  }

  // -------------------------------------------------- finalizer and creation

  /** Whatever fails: the finalizer comes off if and only if the pool is being
      deleted and was read, the list shows no member or could not be had at all,
      and the write arrives. So it comes off over members exactly when the list of
      such a pass fails. */
  lemma FinalizerGoesLast(db: Db, name: string, items: seq<Cir>, net: Net, now: Time)
    requires Keyed(db) && IsListing(db, items) && name in db.pools && db.pools[name].finalizer
    ensures var db' := PoolPass(db, name, items, net, now).db;
            name !in db'.pools || !db'.pools[name].finalizer <==>
              && db.pools[name].deleting && net.gets && (Sys.MemberNames(db, name) == {} || !net.lists)
              && net.pool.Arrives()
  {
    hide SortByName, IsListing, Resize, Evict;
    var p := db.pools[name];
    SortedListing(db, items, name);
    KeyedName(db, name);
    NoMembersOfNone(name);
    if p.deleting {
      EvictKeepsPools(db, MembersOf(items, name), 0, net);
      assert MembersOf(items, name) == [] <==> Sys.MemberNames(db, name) == {};
    } else if Settled(db, name) && net.gets && net.secret {
      ManageKeepsFinalizer(db, p, items, net, now);
    }
  }

  lemma NoMembersOfNone(pool: string)
    ensures MembersOf([], pool) == []
  {
  }

  /** Members are only made for the pool of the pass, and only while it is not
      being deleted and has its finalizer. */
  lemma NewMembersAreGuarded(db: Db, name: string, items: seq<Cir>, net: Net, now: Time, n: string)
    requires Keyed(db) && n !in db.cirs && n in PoolPass(db, name, items, net, now).db.cirs
    ensures name in db.pools && !db.pools[name].deleting && db.pools[name].finalizer
    ensures PoolPass(db, name, items, net, now).db.cirs[n].spec == CirSpec(name, StateNone, db.pools[name].spec.rtype)
  {
    hide SortByName, MembersOf, Evict, Grow, Highest, NamesOf;
    var p := db.pools[name];
    if p.deleting {
      EvictAddsNone(db, MembersOf(if net.lists then items else [], name), 0, net);
    } else {
      var all := SortByName(items);
      var members := MembersOf(all, p.name);
      var saved := if p.status.size != |members| then SavingStatus(db, Sized(p, |members|), now, net.status)
                   else Written(db, None);
      if p.spec.size > |members| {
        var base := Highest(NamesOf(all)) + 1;
        GrowAddsOnly(saved.db, MemberSpec(p), base, base + (p.spec.size - |members|), net);
      } else {
        EvictAddsNone(saved.db, members, p.spec.size, net);
      }
    }
  }

  lemma SelectAddsNone(db: Db, members: seq<Cir>, excess: int, count: nat, net: Net)
    requires forall n :: n in db.cirs ==> db.cirs[n].meta.name == n
    ensures Select(db, members, excess, count, net).db.cirs.Keys <= db.cirs.Keys
    decreases |members|
  {
    hide CanEvict, Evictable;
  }

  lemma EvictAddsNone(db: Db, members: seq<Cir>, target: int, net: Net)
    requires forall n :: n in db.cirs ==> db.cirs[n].meta.name == n
    ensures Evict(db, members, target, net).db.cirs.Keys <= db.cirs.Keys
  {
    hide Select;
    SelectAddsNone(db, members, |members| - target, 0, net);
  }

  lemma GrowAddsOnly(db: Db, spec: CirSpec, i: nat, end: nat, net: Net)
    ensures var cirs := Grow(db, spec, i, end, net).db.cirs;
            && (forall n :: n in cirs && n !in db.cirs ==> cirs[n].spec == spec)
            && (forall n :: n in db.cirs ==> n in cirs && cirs[n] == db.cirs[n])
    decreases end - i
  {
    hide CirName;
  }

  lemma ManageKeepsFinalizer(db: Db, p: Pool, items: seq<Cir>, net: Net, now: Time)
    requires p.name in db.pools && db.pools[p.name] == p && !p.deleting && p.finalizer
    ensures var db' := Manage(db, p, items, net, now).db;
            p.name in db'.pools && db'.pools[p.name].finalizer
  {
    hide SortByName, MembersOf, Evict, Grow, NamesOf, Highest;
    var all := SortByName(items);
    var members := MembersOf(all, p.name);
    var saved := if p.status.size != |members| then SavingStatus(db, Sized(p, |members|), now, net.status)
                 else Written(db, None);
    assert p.name in saved.db.pools && saved.db.pools[p.name].finalizer;
    if p.spec.size > |members| {
      var base := Highest(NamesOf(all)) + 1;
      GrowKeepsPools(saved.db, MemberSpec(p), base, base + (p.spec.size - |members|), net);
    } else {
      EvictKeepsPools(saved.db, members, p.spec.size, net);
    }
  }

  lemma SelectKeepsPools(db: Db, members: seq<Cir>, excess: int, count: nat, net: Net)
    ensures Select(db, members, excess, count, net).db.pools == db.pools
    decreases |members|
  {
    hide CanEvict, Evictable;
  }

  lemma EvictKeepsPools(db: Db, members: seq<Cir>, target: int, net: Net)
    ensures Evict(db, members, target, net).db.pools == db.pools
  {
    hide Select;
    SelectKeepsPools(db, members, |members| - target, 0, net);
  }

  lemma GrowKeepsPools(db: Db, spec: CirSpec, i: nat, end: nat, net: Net)
    ensures Grow(db, spec, i, end, net).db.pools == db.pools
    decreases end - i
  {
    hide CirName;
  }

  // ------------------------------------------- the loops are runs of the system

  /** The selection loop is a run of labelling steps of the whole system, whose
      theorems therefore hold of it. */
  lemma {:induction false} SelectIsRun(w: Sys.World, members: seq<Cir>, excess: int, count: nat, net: Net)
    returns (steps: seq<Sys.Step>)
    requires w.pass.Listed?
    requires forall i :: 0 <= i < |members| ==> members[i] in w.snapshots && members[i].spec.poolRef == w.pass.pool.name
    ensures Sys.LegalRun(w, steps)
    ensures Sys.Run(w, steps).db == Select(w.db, members, excess, count, net).db
    decreases |members|
  {
    steps := [];
    if members != [] {
      hide Evictable, CanEvict, Sys.Swap, Labelling;
      var c, rest := members[|members| - 1], members[..|members| - 1];
      if CanEvict(c) {
        var s := Sys.PassLabel(c, net.member(c.meta.name));
        var w' := Sys.Apply(w, s);
        LabelStepIsLabelling(w, c, net);
        var l := Labelling(w.db, c, net);
        if l.err.None? && count + 1 >= excess {
          steps := [s];
          assert Sys.Run(w', steps[1..]) == w';
        } else {
          var more := SelectIsRun(w', rest, excess, if l.err.None? then count + 1 else count, net);
          steps := [s] + more;
          assert steps[1..] == more;
        }
      } else if Evictable(c) || count < excess {
        steps := SelectIsRun(w, rest, excess, count, net);
      }
    }
  }

  lemma LabelStepIsLabelling(w: Sys.World, c: Cir, net: Net)
    requires w.pass.Listed? && c in w.snapshots && c.spec.poolRef == w.pass.pool.name && CanEvict(c)
    ensures var s := Sys.PassLabel(c, net.member(c.meta.name));
            var w' := Sys.Apply(w, s);
            && Sys.Legal(w, s)
            && w'.db == Labelling(w.db, c, net).db && w'.pass == w.pass && w'.snapshots == w.snapshots
  {
    Sys.SwapIsUpdate(w, Evicting(c), [], net.member(c.meta.name));
  }

  /** The creation loop is a run of creating steps. */
  lemma {:induction false} GrowIsRun(w: Sys.World, i: nat, end: nat, net: Net) returns (steps: seq<Sys.Step>)
    requires w.pass.Listed? && Sys.MayCreate(w.pass.pool)
    ensures Sys.LegalRun(w, steps)
    ensures Sys.Run(w, steps).db == Grow(w.db, MemberSpec(w.pass.pool), i, end, net).db
    decreases end - i
  {
    hide CirName;
    steps := [];
    if i < end {
      var s := Sys.PassCreate(CirName(i), net.member(CirName(i)));
      var w' := Sys.Apply(w, s);
      assert w'.db == Creating(w.db, MemberSpec(w.pass.pool), i, net).db;
      assert Sys.Legal(w, s);
      var more := GrowIsRun(w', i + 1, end, net);
      steps := [s] + more;
      assert steps[1..] == more;
    }
  }
}
