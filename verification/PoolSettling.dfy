/** From a pool as it is created to one at its size: what single passes do before
    the pool is settled, what they answer, and whole sequences of them. */
module PoolSettling {
  import opened Api
  import opened ApiServers
  import opened Names
  import opened Requests
  import opened PoolController
  import opened PoolTheorems
  import opened PoolRuns
  import Sorting
  import Sys = OfcirSystem

  // ------------------------------------------------- before a pool is settled

  /** The pool is stored and not under deletion. */
  predicate IsLive(db: Db, name: string) {
    name in db.pools && !db.pools[name].deleting
  }

  /** The state sync and the finalizer: the pool `p'` is `p` but for the one field
      that a pass has brought in line, its version and its stamp. */
  predicate IsSynced(p: Pool, p': Pool, now: Time) {
    && p'.status == p.status.(state := p.spec.state, lastUpdated := Some(now))
    && p' == p.(status := p'.status, version := p'.version)
  }

  predicate IsProtected(p: Pool, p': Pool) {
    p'.finalizer && p' == p.(finalizer := true, version := p'.version)
  }

  predicate OtherPoolsStay(db: Db, db': Db, name: string) {
    && db'.pools.Keys == db.pools.Keys
    && forall n :: n in db.pools && n != name ==> db'.pools[n] == db.pools[n]
  }

  /** A pool without its finalizer gets it, whatever else is the matter with it,
      and nothing else happens; the answer is the write's. */
  lemma FirstPassProtects(db: Db, name: string, items: seq<Cir>, net: Net, now: Time)
    requires Keyed(db) && IsLive(db, name) && !db.pools[name].finalizer && net.gets
    ensures var passed := PoolPass(db, name, items, net, now);
            && passed.db.cirs == db.cirs
            && (net.pool != Undelivered ==>
                  && OtherPoolsStay(db, passed.db, name)
                  && IsProtected(db.pools[name], passed.db.pools[name]))
            && (net.pool == Undelivered ==> passed.db == db)
            && passed.result.requeueAfter == 0
            && (passed.result.err.None? <==> net.pool == Delivered)
  {
    KeyedName(db, name);
  }

  /** A protected pool whose state is not the one asked for takes it over, if it is
      one of the two there are; any other is an error and changes nothing. */
  lemma NextPassSyncs(db: Db, name: string, items: seq<Cir>, net: Net, now: Time)
    requires Keyed(db) && IsLive(db, name) && db.pools[name].finalizer && net.gets
    requires db.pools[name].status.state != db.pools[name].spec.state
    ensures var p := db.pools[name];
            var passed := PoolPass(db, name, items, net, now);
            && passed.db.cirs == db.cirs
            && passed.result.requeueAfter == 0
            && (if p.spec.state == PoolAvailable || p.spec.state == PoolOffline then
                  && (net.status != Undelivered ==>
                        OtherPoolsStay(db, passed.db, name) && IsSynced(p, passed.db.pools[name], now))
                  && (net.status == Undelivered ==> passed.db == db)
                  && (passed.result.err.None? <==> net.status == Delivered)
                else
                  passed.db == db && passed.result.err == Some(InvalidState))
  {
    KeyedName(db, name);
  }

  /** A pool that is offline, and is meant to be, rests: nothing is read beyond it,
      nothing changes, and it is looked at again in a minute. */
  lemma OfflinePoolRests(db: Db, name: string, items: seq<Cir>, net: Net, now: Time)
    requires IsLive(db, name) && db.pools[name].finalizer && net.gets
    requires db.pools[name].status.state == db.pools[name].spec.state == PoolOffline
    ensures PoolPass(db, name, items, net, now) == Passed(db, PassResult(60, None))
  {
  }

  /** What cannot be read ends the pass without a change: the pool, with another
      look in a minute; its secret and the list, with an error. A pool that is not
      there is no error. */
  lemma UnreadablePassChangesNothing(db: Db, name: string, items: seq<Cir>, net: Net, now: Time)
    ensures !net.gets ==> PoolPass(db, name, items, net, now) == Passed(db, PassResult(60, None))
    ensures net.gets && name !in db.pools ==> PoolPass(db, name, items, net, now) == Passed(db, PassResult(0, None))
    ensures net.gets && Settled(db, name) && !net.secret ==>
              PoolPass(db, name, items, net, now) == Passed(db, PassResult(0, Some(SecretFailed)))
    ensures net.gets && Settled(db, name) && net.secret && !net.lists ==>
              PoolPass(db, name, items, net, now) == Passed(db, PassResult(0, Some(ListFailed)))
  {
  }

  // ------------------------------------------------------------- the answers

  /** The creation loop counts the creations it is told of and keeps the error of
      the last one only, whatever became of those before it. */
  lemma {:induction false} GrowReports(db: Db, spec: CirSpec, i: nat, end: nat, net: Net)
    requires Keyed(db) && i <= end && FreshFrom(db, i, end)
    ensures var g := Grow(db, spec, i, end, net);
            && g.count == Answered(net, i, end)
            && (g.err.None? <==> i == end || net.member(CirName(end - 1)) == Delivered)
    decreases end - i
  {
    hide CirName, Sys.MemberNames;
    if i < end {
      CreatingAdds(db, spec, i, net);
      CreatingReports(db, spec, i, net);
      hide Creating;
      var w := Creating(db, spec, i, net);
      assert FreshFrom(w.db, i + 1, end);
      GrowReports(w.db, spec, i + 1, end, net);
    }
  }

  lemma CreatingReports(db: Db, spec: CirSpec, i: nat, net: Net)
    requires CirName(i) !in db.cirs
    ensures Creating(db, spec, i, net).err.None? <==> net.member(CirName(i)) == Delivered
  {
    hide CirName;
  }

  function Answered(net: Net, i: nat, end: nat): nat
    decreases end - i
  {
    if i >= end then 0
    else (if net.member(CirName(i)) == Delivered then 1 else 0) + Answered(net, i + 1, end)
  }

  /** A pass that creates members fails exactly when the last creation did; else it
      comes back in a second when one was created and in a minute when there was
      nothing to create. */
  lemma ScaleUpReports(db: Db, name: string, items: seq<Cir>, net: Net, now: Time)
    requires Keyed(db) && IsListing(db, items) && Settled(db, name) && Reads(net)
    requires Count(db, name) <= db.pools[name].spec.size
    requires FirstNew(items) + (db.pools[name].spec.size - Count(db, name)) - 1 <= MAX_INT
    ensures var base := FirstNew(items);
            var end := base + (db.pools[name].spec.size - Count(db, name));
            var result := PoolPass(db, name, items, net, now).result;
            && (result.err.None? <==> base == end || net.member(CirName(end - 1)) == Delivered)
            && (result.err.None? ==> result.requeueAfter == if base == end then 60 else 1)
  {
    hide SortByName, MembersOf, SavingStatus, IsListing, Highest, NamesOf, Grow, PoolPass, Keyed, FreshFrom, CirName;
    var p := db.pools[name];
    var deficit := p.spec.size - Count(db, name);
    SettledPass(db, name, items, net, now);
    KeyedName(db, name);
    NumeralsAreFresh(db, items, deficit);
    var db1 := if p.status.size == Count(db, name) then db
               else SavingStatus(db, Sized(p, Count(db, name)), now, Delivered).db;
    SameNamesFresh(db, db1, FirstNew(items), FirstNew(items) + deficit);
    GrowReports(db1, MemberSpec(p), FirstNew(items), FirstNew(items) + deficit, net);
    if deficit > 0 && net.member(CirName(FirstNew(items) + deficit - 1)) == Delivered {
      LastAnswered(net, FirstNew(items), FirstNew(items) + deficit);
    }
  }

  lemma {:induction false} LastAnswered(net: Net, i: nat, end: nat)
    requires i < end && net.member(CirName(end - 1)) == Delivered
    ensures Answered(net, i, end) > 0
    decreases end - i
  {
    hide CirName;
    if i + 1 < end {
      LastAnswered(net, i + 1, end);
    }
  }

  // ------------------------------------------------------------ scaling down

  /** A whole pass over a settled pool with too many members is one eviction pass
      towards Spec.Size: where no answer is lost, it takes from the members without
      a label the excess or all it can have, exactly. */
  lemma ScaleDownLeaves(db: Db, name: string, items: seq<Cir>, net: Net, now: Time)
    requires Keyed(db) && IsListing(db, items) && Settled(db, name) && Reads(net)
    requires db.pools[name].spec.size < Count(db, name)
    ensures var members := MembersOf(SortByName(items), name);
            var excess := Count(db, name) - db.pools[name].spec.size;
            var before := Count(db, name) - |Unlabelled(db, name)|;
            var taken := Min(excess, |Chosen(db, members, net, 0)|);
            var db' := PoolPass(db, name, items, net, now).db;
            && Members(db, name, members)
            && (Heard(members, net) ==>
                  && |Unlabelled(db', name)| == Count(db, name) - before - taken
                  && (|Unlabelled(db', name)| >= db.pools[name].spec.size <==> before + taken <= excess))
            && name in db'.pools && db'.pools[name].status.size == Count(db, name)
    ensures var members := MembersOf(SortByName(items), name);
            var excess := Count(db, name) - db.pools[name].spec.size;
            var result := PoolPass(db, name, items, net, now).result;
            && (result.err.None? <==> net.batch == Delivered)
            && (result.err.None? ==>
                  result.requeueAfter == if Min(excess, |Chosen(db, members, net, 0)|) > 0 then 1 else 60)
  {
    hide SortByName, MembersOf, SavingStatus, IsListing, PoolPass, Keyed, Select, Chosen, Unlabelled, Members;
    var p := db.pools[name];
    var members := MembersOf(SortByName(items), name);
    SettledPass(db, name, items, net, now);
    MembersCount(db, name, members);
    var db1 := if p.status.size == Count(db, name) then db
               else SavingStatus(db, Sized(p, Count(db, name)), now, Delivered).db;
    SameCirsSame(db, db1, name, members, net);
    EvictKeepsPools(db1, members, p.spec.size, net);
    SelectedCount(db1, name, members, p.spec.size, net);
    if Heard(members, net) {
      ExactlySoManyStay(db1, name, members, p.spec.size, net);
    }
  }

  lemma SelectedCount(db: Db, name: string, members: seq<Cir>, target: int, net: Net)
    requires Keyed(db) && Members(db, name, members) && target < |members|
    ensures var excess := |members| - target;
            Select(db, members, excess, 0, net).count == Min(excess, |Chosen(db, members, net, 0)|)
  {
    hide Select, Chosen, SameExcept, AllTook;
    var excess := |members| - target;
    var cut := SelectionWalks(db, members, excess, 0, net);
    SelectionCounts(db, members, excess, net, cut);
  }

  /** A pass over a pool under deletion that still lists members comes back in ten
      seconds when the batch delete was answered; one that lists none ends, with the
      answer of the write that takes the finalizer off if there is one. */
  lemma DrainReports(db: Db, name: string, items: seq<Cir>, net: Net, now: Time)
    requires Keyed(db) && IsListing(db, items) && net.gets && name in db.pools && db.pools[name].deleting
    ensures var result := PoolPass(db, name, items, net, now).result;
            if net.lists && Sys.MemberNames(db, name) != {} then
              && (result.err.None? <==> net.batch == Delivered)
              && (result.err.None? ==> result.requeueAfter == 10)
            else
              && result.requeueAfter == 0
              && (result.err.None? <==> net.pool == Delivered || !db.pools[name].finalizer)
  {
    hide Select, MembersOf, IsListing, SortByName;
    KeyedName(db, name);
    SortedListing(db, items, name);
    NoMembersOfNone(name);
    assert MembersOf(items, name) == [] <==> Sys.MemberNames(db, name) == {};
  }

  lemma MembersCount(db: Db, name: string, members: seq<Cir>)
    requires Members(db, name, members)
    ensures |members| == Count(db, name)
  {
  }

  lemma SameCirsSame(db: Db, db1: Db, name: string, members: seq<Cir>, net: Net)
    requires db1.cirs == db.cirs
    ensures Unlabelled(db1, name) == Unlabelled(db, name)
    ensures Chosen(db1, members, net, 0) == Chosen(db, members, net, 0)
    ensures Members(db, name, members) ==> Members(db1, name, members)
  {
    assert forall c :: Accepted(db1, c, net.member) == Accepted(db, c, net.member);
    assert Sys.MemberNames(db1, name) == Sys.MemberNames(db, name);
    assert Chosen(db1, members, net, 0) == Chosen(db, members, net, 0);
  }

  // ----------------------------------------------------------- newest first

  lemma {:induction false} MembersStaySorted(items: seq<Cir>, pool: string)
    requires Sorting.IsSorted(items, NameLess)
    ensures Sorting.IsSorted(MembersOf(items, pool), NameLess)
  {
    hide NameLess;
    if items != [] {
      var front, last := items[..|items| - 1], items[|items| - 1];
      MembersStaySorted(front, pool);
      MembersContent(front, pool);
      var ms := MembersOf(front, pool);
      forall i | 0 <= i < |ms| ensures !NameLess(last, ms[i]) {
        assert ms[i] in front;
        var j :| 0 <= j < |front| && front[j] == ms[i];
        assert items[j] == ms[i];
      }
    }
  }

  /** The newest go first: up to 9999, no member is labelled before one with a higher
      numeral that might have been, unless the update of that one failed. */
  lemma NewestGoFirst(db: Db, items: seq<Cir>, pool: string, target: int, net: Net, older: nat, newer: nat)
    requires Keyed(db) && IsListing(db, items) && target < |MembersOf(SortByName(items), pool)|
    requires older < newer < 10000
    requires var names := Sys.MemberNames(db, pool);
             && CirName(older) in names && CanEvict(db.cirs[CirName(older)])
             && CirName(newer) in names && CanEvict(db.cirs[CirName(newer)])
    ensures var members := MembersOf(SortByName(items), pool);
            var cirs := Select(db, members, |members| - target, 0, net).db.cirs;
            var took := CirName(older) in cirs && cirs[CirName(older)].meta.evicted;
            took && net.member(CirName(newer)) == Delivered && CirName(newer) in cirs ==>
              cirs[CirName(newer)].meta.evicted
  {
    hide CirName, Select, SortByName, MembersOf, IsListing, Evictable, Labelled, Chosen, Less;
    var members := MembersOf(SortByName(items), pool);
    SortedListing(db, items, pool);
    MembersStaySorted(SortByName(items), pool);
    var cut := SelectionWalks(db, members, |members| - target, 0, net);
    var i := IndexOf(db, members, pool, CirName(older));
    var j := IndexOf(db, members, pool, CirName(newer));
    NamesSortByNumeral(older, newer);
    LessTotal(CirName(older), CirName(older));
    assert NameLess(members[i], members[j]);
    assert i < j;
    if i < cut {
      BelowCutUnlabelled(db, members, net, cut, i);
    } else if net.member(CirName(newer)) == Delivered {
      DeliveredHits(db, members[j], net);
      assert TookLabel(db, Select(db, members, |members| - target, 0, net).db, members[j]);
    }
  }

  lemma IndexOf(db: Db, members: seq<Cir>, pool: string, n: string) returns (i: int)
    requires Members(db, pool, members) && n in Sys.MemberNames(db, pool)
    ensures 0 <= i < |members| && members[i].meta.name == n && members[i] == db.cirs[n]
  {
    assert n in NameSet(members);
    i :| 0 <= i < |members| && members[i].meta.name == n;
  }

  lemma BelowCutUnlabelled(db: Db, members: seq<Cir>, net: Net, cut: nat, i: int)
    requires Distinct(members) && 0 <= i < cut
    ensures i < |members| ==> members[i].meta.name !in Labelled(db, members, net, cut)
  {
    hide IsHit;
  }

  lemma DeliveredHits(db: Db, c: Cir, net: Net)
    requires CanEvict(c) && net.member(c.meta.name) == Delivered && c.meta.name in db.cirs && db.cirs[c.meta.name] == c
    ensures IsHit(db, c, net)
  {
  }

  // ------------------------------------------------- from creation to its size

  /** How many passes a pool is from being settled. */
  function ToSettle(p: Pool): nat {
    (if p.finalizer then 0 else 1) + (if p.status.state == p.spec.state then 0 else 1)
  }

  predicate IsValidState(s: PoolState) {
    s == PoolAvailable || s == PoolOffline
  }

  /** What a pass on the way keeps. */
  predicate SameButForTheWay(db: Db, db': Db, name: string) {
    && name in db.pools && name in db'.pools && db'.cirs == db.cirs
    && db'.pools[name].spec == db.pools[name].spec && db'.pools[name].deleting == db.pools[name].deleting
    && db'.pools[name].status.size == db.pools[name].status.size
  }

  /** Every reliable pass on the way brings the pool one step nearer. */
  lemma PassTowardsSettled(db: Db, name: string, items: seq<Cir>, net: Net, now: Time)
    requires Keyed(db) && IsLive(db, name) && Reliable(net) && IsValidState(db.pools[name].spec.state)
    requires ToSettle(db.pools[name]) > 0
    ensures var db' := PoolPass(db, name, items, net, now).db;
            && Keyed(db') && IsLive(db', name) && SameButForTheWay(db, db', name)
            && ToSettle(db'.pools[name]) == ToSettle(db.pools[name]) - 1
  {
    hide PoolPass;
    KeyedName(db, name);
    if !db.pools[name].finalizer {
      FirstPassProtects(db, name, items, net, now);
    } else {
      NextPassSyncs(db, name, items, net, now);
    }
  }

  /** The passes over `name`, one for each list. */
  function Passes(db: Db, name: string, lists: seq<seq<Cir>>, net: Net, now: Time): Db
    decreases |lists|
  {
    if lists == [] then db else Passes(PoolPass(db, name, lists[0], net, now).db, name, lists[1..], net, now)
  }

  /** Each list is what the server held when its pass began. */
  ghost predicate AreListings(db: Db, name: string, lists: seq<seq<Cir>>, net: Net, now: Time)
    decreases |lists|
  {
    lists == []
    || (IsListing(db, lists[0]) && AreListings(PoolPass(db, name, lists[0], net, now).db, name, lists[1..], net, now))
  }

  lemma {:induction false} PassesSettle(db: Db, name: string, lists: seq<seq<Cir>>, net: Net, now: Time)
    requires Keyed(db) && IsLive(db, name) && Reliable(net) && IsValidState(db.pools[name].spec.state)
    requires |lists| == ToSettle(db.pools[name])
    ensures var db' := Passes(db, name, lists, net, now);
            && Keyed(db') && IsLive(db', name) && SameButForTheWay(db, db', name)
            && ToSettle(db'.pools[name]) == 0
    decreases |lists|
  {
    hide PoolPass, Keyed;
    if lists != [] {
      PassTowardsSettled(db, name, lists[0], net, now);
      PassesSettle(PoolPass(db, name, lists[0], net, now).db, name, lists[1..], net, now);
    }
  }

  lemma {:induction false} PassesCat(db: Db, name: string, a: seq<seq<Cir>>, b: seq<seq<Cir>>, net: Net, now: Time)
    ensures Passes(db, name, a + b, net, now) == Passes(Passes(db, name, a, net, now), name, b, net, now)
    ensures AreListings(db, name, a + b, net, now) ==> AreListings(Passes(db, name, a, net, now), name, b, net, now)
    decreases |a|
  {
    hide PoolPass, IsListing;
    if a == [] {
      assert a + b == b;
    } else {
      assert (a + b)[1..] == a[1..] + b;
      PassesCat(PoolPass(db, name, a[0], net, now).db, name, a[1..], b, net, now);
    }
  }

  /** From any pool that is not under deletion and not too large: reliable passes
      give it its finalizer, take over its state, and, if it is to be available,
      bring it to its size and record that; if it is to be offline they leave the
      members alone. After that a pass changes nothing. */
  lemma PassesConverge(db: Db, name: string, lists: seq<seq<Cir>>, last: seq<Cir>, net: Net, now: Time)
    requires Keyed(db) && IsLive(db, name) && Reliable(net) && IsValidState(db.pools[name].spec.state)
    requires Count(db, name) <= db.pools[name].spec.size
    requires |lists| == ToSettle(db.pools[name]) + 2 && AreListings(db, name, lists + [last], net, now)
    requires var named := lists[ToSettle(db.pools[name])];
             FirstNew(named) + (db.pools[name].spec.size - Count(db, name)) - 1 <= MAX_INT
    ensures var db' := Passes(db, name, lists, net, now);
            && IsLive(db', name) && db'.pools[name].finalizer && db'.pools[name].spec == db.pools[name].spec
            && db'.pools[name].status.state == db.pools[name].spec.state
            && (db.pools[name].spec.state == PoolAvailable ==> Count(db', name) == db.pools[name].spec.size)
            && (db.pools[name].spec.state == PoolOffline ==> db'.cirs == db.cirs)
            && PoolPass(db', name, last, net, now) == Passed(db', PassResult(60, None))
  {
    hide PoolPass, IsListing, Keyed, FirstNew, Count;
    var k := ToSettle(db.pools[name]);
    var way, rest := lists[..k], lists[k..];
    assert lists + [last] == way + (rest + [last]) && lists == way + rest;
    PassesSettle(db, name, way, net, now);
    PassesCat(db, name, way, rest + [last], net, now);
    PassesCat(db, name, way, rest, net, now);
    var db0 := Passes(db, name, way, net, now);
    SameCount(db, db0, name);
    assert rest == [rest[0], rest[1]] && rest[0] == lists[k];
    TwoPasses(db0, name, rest[0], rest[1], last, net, now);
    if db.pools[name].spec.state == PoolAvailable {
      ThreePassesConverge(db0, name, rest[0], rest[1], last, net, now);
      SettledAgain(db0, name, rest[0], rest[1], net, now);
      SameCount(PoolPass(db0, name, rest[0], net, now).db, Passes(db0, name, rest, net, now), name);
    } else {
      OfflinePoolRests(db0, name, rest[0], net, now);
      OfflinePoolRests(db0, name, rest[1], net, now);
      OfflinePoolRests(db0, name, last, net, now);
    }
  }

  lemma SameCount(db: Db, db': Db, name: string)
    requires db'.cirs == db.cirs
    ensures Count(db', name) == Count(db, name)
  {
    assert Sys.MemberNames(db', name) == Sys.MemberNames(db, name);
  }

  lemma TwoPasses(db: Db, name: string, a: seq<Cir>, b: seq<Cir>, last: seq<Cir>, net: Net, now: Time)
    ensures var db1 := PoolPass(db, name, a, net, now).db;
            var db2 := PoolPass(db1, name, b, net, now).db;
            && Passes(db, name, [a, b], net, now) == db2
            && (AreListings(db, name, [a, b] + [last], net, now) ==>
                  IsListing(db, a) && IsListing(db1, b) && IsListing(db2, last))
  {
    hide PoolPass, IsListing;
    var db1 := PoolPass(db, name, a, net, now).db;
    var db2 := PoolPass(db1, name, b, net, now).db;
    assert [a, b][1..] == [b] && [b][1..] == [];
    assert Passes(db1, name, [b], net, now) == Passes(db2, name, [], net, now);
    assert ([a, b] + [last])[0] == a && ([a, b] + [last])[1..] == [b, last];
    assert [b, last][0] == b && [b, last][1..] == [last] && [last][0] == last;
    if AreListings(db, name, [a, b] + [last], net, now) {
      assert AreListings(db1, name, [b, last], net, now);
      assert AreListings(db2, name, [last], net, now);
    }
  }

  lemma SettledAgain(db: Db, name: string, a: seq<Cir>, b: seq<Cir>, net: Net, now: Time)
    requires Keyed(db) && Settled(db, name) && Reliable(net) && IsListing(db, a)
    requires Count(db, name) <= db.pools[name].spec.size
    requires FirstNew(a) + (db.pools[name].spec.size - Count(db, name)) - 1 <= MAX_INT
    requires IsListing(PoolPass(db, name, a, net, now).db, b)
    ensures var db2 := PoolPass(PoolPass(db, name, a, net, now).db, name, b, net, now).db;
            Settled(db2, name) && db2.pools[name].spec == db.pools[name].spec
  {
    hide PoolPass, IsListing, Keyed, FirstNew, Lost;
    ScaleUpConverges(db, name, a, net, now);
    NoneLost(net, FirstNew(a), FirstNew(a) + (db.pools[name].spec.size - Count(db, name)));
    var db1 := PoolPass(db, name, a, net, now).db;
    FirstNewInRange(b);
    ScaleUpConverges(db1, name, b, net, now);
  }
}
