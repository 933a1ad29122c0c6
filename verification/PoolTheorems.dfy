/** What passes of the pool controller amount to: which members one eviction
    pass labels, where scaling up ends, when nothing is left to do, and that
    the loops are made of the steps of `OfcirSystem`. */
module PoolTheorems {
  import opened Api
  import opened ApiServers
  import opened Names
  import opened Requests
  import opened Sorting
  import opened PoolController
  import Sys = OfcirSystem

  // ---------------------------------------------------------- lists and sets

  lemma {:induction false} MembersContent(items: seq<Cir>, pool: string)
    ensures forall c :: c in MembersOf(items, pool) <==> c in items && c.spec.poolRef == pool
    ensures Distinct(items) ==> Distinct(MembersOf(items, pool))
  {
    if items != [] {
      var front, last := items[..|items| - 1], items[|items| - 1];
      MembersContent(front, pool);
      assert items == front + [last];
      var ms := MembersOf(front, pool);
      if Distinct(items) {
        forall i | 0 <= i < |ms| ensures ms[i].meta.name != last.meta.name {
          assert ms[i] in front;
        }
      }
    }
  }

  lemma NameLessIsOrder()
    ensures IsOrder(NameLess)
  {
    forall x: Cir, y: Cir ensures NameLess(x, y) ==> !NameLess(y, x) {
      LessTotal(x.meta.name, y.meta.name);
    }
    forall x: Cir, y: Cir, z: Cir | !NameLess(y, x) && !NameLess(z, y) ensures !NameLess(z, x) {
      NotLessTransitive(x.meta.name, y.meta.name, z.meta.name);
    }
  }

  lemma NotLessTransitive(a: string, b: string, c: string)
    requires !Less(b, a) && !Less(c, b)
    ensures !Less(c, a)
  {
    LessTotal(a, b);
    LessTotal(b, c);
    LessTotal(a, c);
    if Less(a, b) && Less(b, c) {
      LessTransitive(a, b, c);
    }
  }

  /** The sorted list holds every stored object once, newest name last; its
      members are the pool's. */
  lemma SortedListing(db: Db, items: seq<Cir>, pool: string)
    requires Keyed(db) && IsListing(db, items)
    ensures var all := SortByName(items);
            var members := MembersOf(all, pool);
            && IsSorted(all, NameLess)
            && (forall c :: c in all <==> c in items)
            && Members(db, pool, members)
    ensures Members(db, pool, MembersOf(items, pool))
  {
    hide MembersOf, NameSet, Members, SortByName;
    SortKeepsDistinct(items);
    ListedMembers(db, SortByName(items), pool);
    ListedMembers(db, items, pool);
  }

  lemma SortKeepsDistinct(items: seq<Cir>)
    requires Distinct(items)
    ensures var all := SortByName(items);
            IsSorted(all, NameLess) && Distinct(all) && forall c :: c in all <==> c in items
  {
    hide Distinct, IsSorted, StableSort;
    NameLessIsOrder();
    SortSorts(items, NameLess);
    var all := SortByName(items);
    forall c ensures c in all <==> c in items {
      assert c in multiset(all) <==> c in multiset(items);
    }
    assert NameSet(all) == NameSet(items);
    DistinctBySize(items);
    DistinctBySize(all);
  }

  /** `members` are the stored members of the pool, each once. */
  ghost predicate Members(db: Db, pool: string, members: seq<Cir>) {
    && Distinct(members)
    && (forall i :: 0 <= i < |members| ==>
          members[i].meta.name in db.cirs && db.cirs[members[i].meta.name] == members[i])
    && NameSet(members) == Sys.MemberNames(db, pool)
    && |members| == |Sys.MemberNames(db, pool)|
  }

  lemma ListedMembers(db: Db, all: seq<Cir>, pool: string)
    requires Keyed(db) && Distinct(all)
    requires forall c :: c in all ==> c.meta.name in db.cirs && db.cirs[c.meta.name] == c
    requires forall n :: n in db.cirs ==> db.cirs[n] in all
    ensures Members(db, pool, MembersOf(all, pool))
  {
    var members := MembersOf(all, pool);
    MembersContent(all, pool);
    DistinctBySize(members);
    forall i | 0 <= i < |members|
      ensures members[i].meta.name in db.cirs && db.cirs[members[i].meta.name] == members[i]
    {
      assert members[i] in members;
    }
    forall n ensures n in NameSet(members) <==> n in Sys.MemberNames(db, pool) {
      if n in Sys.MemberNames(db, pool) {
        assert db.cirs[n] in members;
      }
    }
    assert NameSet(members) == Sys.MemberNames(db, pool);
  }

  // ----------------------------------------------------------- eviction pass

  ghost function Chosen(db: Db, members: seq<Cir>, net: Net, cut: nat): set<int> {
    set i | cut <= i < |members| && CanEvict(members[i]) && Accepted(db, members[i], net.member)
  }

  /** Selecting `c` takes effect on the server. */
  predicate IsHit(db: Db, c: Cir, net: Net) {
    CanEvict(c) && Lands(db, c, net.member)
  }

  /** The names whose stored object the loop has changed. */
  ghost function Labelled(db: Db, members: seq<Cir>, net: Net, cut: nat): set<string> {
    set i | cut <= i < |members| && IsHit(db, members[i], net) :: members[i].meta.name
  }

  /** The loop has walked from the end down to `cut`: it selected the eligible
      members from there on whose update was accepted, no other, it wrote to
      none below, and it stopped early only at the member that made up `excess`. */
  ghost predicate WalkedTo(db: Db, members: seq<Cir>, excess: int, count: nat, net: Net, cut: nat) {
    var s := Select(db, members, excess, count, net);
    && 0 <= cut <= |members|
    && s.count == count + |Chosen(db, members, net, cut)|
    && s.count <= excess
    && (s.count == excess ==> cut in Chosen(db, members, net, cut))
    && (cut > 0 ==> s.count == excess)
    && s.db.pools == db.pools
    && SameExcept(db, s.db, Labelled(db, members, net, cut))
    && AllTook(db, s.db, members, net, cut)
  }

  /** The update that labels `c` has left its label on the server; only an object
      under deletion whose copy in the list had no finalizer goes with it. */
  predicate TookLabel(db: Db, db': Db, c: Cir) {
    var n := c.meta.name;
    && n in db.cirs
    && if db.cirs[n].meta.deleting && !c.meta.finalizer then n !in db'.cirs
       else n in db'.cirs && db'.cirs[n].meta.evicted && db'.cirs[n].status == db.cirs[n].status
  }

  ghost predicate AllTook(db: Db, db': Db, members: seq<Cir>, net: Net, cut: nat) {
    forall i :: cut <= i < |members| && IsHit(db, members[i], net) ==> TookLabel(db, db', members[i])
  }

  lemma LabellingFrame(db: Db, c: Cir, net: Net)
    ensures var w := Labelling(db, c, net);
            && (w.err.None? <==> Accepted(db, c, net.member))
            && w.db.pools == db.pools
            && (!Lands(db, c, net.member) ==> w.db == db)
            && (db.cirs.Keys + {c.meta.name} >= w.db.cirs.Keys)
    requires Keyed(db)
    ensures SameExcept(db, Labelling(db, c, net).db, {c.meta.name})
    ensures Keyed(Labelling(db, c, net).db)
    ensures Lands(db, c, net.member) ==> TookLabel(db, Labelling(db, c, net).db, c)
  {
  }

  /** What the loop has labelled stays labelled while it goes on. */
  lemma AllTookSnoc(db: Db, db': Db, db'': Db, members: seq<Cir>, net: Net, cut: nat)
    requires Distinct(members) && members != [] && cut < |members|
    requires var c, rest := members[|members| - 1], members[..|members| - 1];
             && SameExcept(db, db', {c.meta.name})
             && (IsHit(db, c, net) ==> TookLabel(db, db', c))
             && SameExcept(db', db'', Labelled(db', rest, net, cut))
             && AllTook(db', db'', rest, net, cut)
    ensures AllTook(db, db'', members, net, cut)
  {
    hide CanEvict, Labelled;
    var last := |members| - 1;
    var c, rest := members[last], members[..last];
    forall i | cut <= i < |members| && IsHit(db, members[i], net) ensures TookLabel(db, db'', members[i]) {
      if i < last {
        assert rest[i] == members[i] && members[i].meta.name !in {c.meta.name};
        assert IsHit(db', rest[i], net);
      } else {
        NotLabelledAgain(db', rest, net, cut, c);
      }
    }
  }

  lemma NotLabelledAgain(db: Db, rest: seq<Cir>, net: Net, cut: nat, c: Cir)
    requires forall i :: 0 <= i < |rest| ==> rest[i].meta.name != c.meta.name
    ensures c.meta.name !in Labelled(db, rest, net, cut)
  {
  }

  /** Labelling one member leaves the others as they were to the loop. */
  lemma OthersUnmoved(db: Db, db': Db, c: Cir, rest: seq<Cir>, net: Net, cut: nat)
    requires SameExcept(db, db', {c.meta.name})
    requires forall i :: 0 <= i < |rest| ==> rest[i].meta.name != c.meta.name
    ensures Chosen(db', rest, net, cut) == Chosen(db, rest, net, cut)
    ensures Labelled(db', rest, net, cut) == Labelled(db, rest, net, cut)
  {
    forall i | 0 <= i < |rest| ensures IsCurrent(db', rest[i]) == IsCurrent(db, rest[i]) {
      assert rest[i].meta.name !in {c.meta.name};
    }
    assert Chosen(db', rest, net, cut) == Chosen(db, rest, net, cut);
    assert Labelled(db', rest, net, cut) == Labelled(db, rest, net, cut);
  }

  lemma ChosenSnoc(db: Db, members: seq<Cir>, net: Net, cut: nat)
    requires members != [] && 0 <= cut < |members|
    ensures var last := |members| - 1;
            var rest := members[..last];
            var c := members[last];
            && last !in Chosen(db, rest, net, cut)
            && Chosen(db, members, net, cut) ==
                 Chosen(db, rest, net, cut) + (if CanEvict(c) && Accepted(db, c, net.member) then {last} else {})
            && Labelled(db, members, net, cut) ==
                 Labelled(db, rest, net, cut) + (if CanEvict(c) && Lands(db, c, net.member) then {c.meta.name} else {})
  {
    var last := |members| - 1;
    var rest := members[..last];
    var c := members[last];
    assert Chosen(db, members, net, cut) ==
           Chosen(db, rest, net, cut) + (if CanEvict(c) && Accepted(db, c, net.member) then {last} else {});
    forall n ensures n in Labelled(db, members, net, cut) <==>
        n in Labelled(db, rest, net, cut) + (if IsHit(db, c, net) then {c.meta.name} else {})
    {
      if n in Labelled(db, rest, net, cut) {
        var i :| cut <= i < |rest| && IsHit(db, rest[i], net) && rest[i].meta.name == n;
        assert members[i] == rest[i];
      }
      if n in Labelled(db, members, net, cut) {
        var i :| cut <= i < |members| && IsHit(db, members[i], net) && members[i].meta.name == n;
        assert i < last ==> members[i] == rest[i];
      }
    }
  }

  /** Every pass of the selection loop, from any list, stale or not, and with
      any of its updates refused or lost. */
  lemma {:induction false} SelectionWalks(db: Db, members: seq<Cir>, excess: int, count: nat, net: Net)
    returns (cut: nat)
    requires Keyed(db) && Distinct(members) && count < excess
    ensures WalkedTo(db, members, excess, count, net, cut)
    decreases |members|
  {
    hide Labelling, CanEvict, Evictable, Accepted, Lands, TookLabel;
    if members == [] {
      cut := 0;
      assert Chosen(db, members, net, cut) == {};
    } else {
      var last := |members| - 1;
      var c, rest := members[last], members[..last];
      LabellingFrame(db, c, net);
      var w := Labelling(db, c, net);
      if CanEvict(c) && w.err.None? && count + 1 >= excess {
        cut := last;
        StopAt(db, members, excess, count, net);
      } else {
        var db', count' := db, count;
        if CanEvict(c) {
          db', count' := w.db, if w.err.None? then count + 1 else count;
        }
        cut := SelectionWalks(db', rest, excess, count', net);
        OthersUnmoved(db, db', c, rest, net, cut);
        StepTook(db, db', c, net);
        AllTookSnoc(db, db', Select(db', rest, excess, count', net).db, members, net, cut);
        GoOn(db, db', members, excess, count, count', net, cut);
      }
    }
  }

  lemma StopAt(db: Db, members: seq<Cir>, excess: int, count: nat, net: Net)
    requires Keyed(db) && members != [] && count < excess && count + 1 >= excess
    requires var c := members[|members| - 1]; CanEvict(c) && Labelling(db, c, net).err.None?
    ensures WalkedTo(db, members, excess, count, net, |members| - 1)
  {
    hide Labelling, CanEvict, Evictable, Accepted, Lands, TookLabel;
    var last := |members| - 1;
    LabellingFrame(db, members[last], net);
    ChosenSnoc(db, members, net, last);
    assert Chosen(db, members[..last], net, last) == {};
    assert Labelled(db, members[..last], net, last) == {};
    AcceptedLands(db, members[last], net.member);
  }

  lemma GoOn(db: Db, db': Db, members: seq<Cir>, excess: int, count: nat, count': nat, net: Net, cut: nat)
    requires Keyed(db) && members != [] && Distinct(members) && count < excess && count' < excess
    requires var last := |members| - 1;
             var c, rest := members[last], members[..last];
             var w := Labelling(db, c, net);
             && (if CanEvict(c) then db' == w.db && count' == (if w.err.None? then count + 1 else count)
                 else db' == db && count' == count)
             && WalkedTo(db', rest, excess, count', net, cut)
             && Chosen(db', rest, net, cut) == Chosen(db, rest, net, cut)
             && Labelled(db', rest, net, cut) == Labelled(db, rest, net, cut)
             && AllTook(db, Select(db', rest, excess, count', net).db, members, net, cut)
    ensures WalkedTo(db, members, excess, count, net, cut)
  {
    hide Labelling, CanEvict, Evictable, Accepted, Lands, Chosen, Labelled, SameExcept, TookLabel, AllTook;
    var last := |members| - 1;
    var c, rest := members[last], members[..last];
    LabellingFrame(db, c, net);
    ChosenSnoc(db, members, net, cut);
    var s := Select(db', rest, excess, count', net);
    assert Select(db, members, excess, count, net) == s;
    var changed := if CanEvict(c) && Lands(db, c, net.member) then {c.meta.name} else {};
    StepExcept(db, db', c, net);
    SameExceptTrans(db, db', s.db, changed, Labelled(db, rest, net, cut));
  }

  lemma StepTook(db: Db, db': Db, c: Cir, net: Net)
    requires Keyed(db) && db' == if CanEvict(c) then Labelling(db, c, net).db else db
    ensures SameExcept(db, db', {c.meta.name}) && (IsHit(db, c, net) ==> TookLabel(db, db', c))
  {
    hide Labelling, TookLabel, CanEvict;
    LabellingFrame(db, c, net);
  }

  lemma StepExcept(db: Db, db': Db, c: Cir, net: Net)
    requires Keyed(db) && db' == if CanEvict(c) then Labelling(db, c, net).db else db
    ensures SameExcept(db, db', if CanEvict(c) && Lands(db, c, net.member) then {c.meta.name} else {})
  {
    LabellingFrame(db, c, net);
  }

  /** The states in which a member may be let go. */
  predicate IsIdle(c: Cir) {
    c.status.state in {StateAvailable, StateMaintenance, StateError}
  }

  /** One eviction pass towards `target`. At most the excess is selected; what
      is selected had no label and was Available, Maintenance or Error; no
      eligible member after a selected one is passed over unless its update
      failed; fewer than the excess are selected only if every eligible member was
      tried; and afterwards exactly the selected ones, and those whose update took
      effect though it was reported as failed, carry the label on the server. */
  lemma EvictionPass(db: Db, members: seq<Cir>, target: int, net: Net) returns (cut: nat)
    requires Keyed(db) && Distinct(members) && target < |members|
    ensures var s := Select(db, members, |members| - target, 0, net);
            var chosen := Chosen(db, members, net, cut);
            && s.count == |chosen| <= |members| - target
            && (forall i :: i in chosen ==>
                  0 <= i < |members| && IsIdle(members[i]) && !members[i].meta.evicted)
            && (forall i, j :: i in chosen && i < j < |members| && IsIdle(members[j]) && !members[j].meta.evicted
                               && j !in chosen ==>
                  !Accepted(db, members[j], net.member))
            && (s.count < |members| - target ==>
                  forall j :: 0 <= j < |members| && IsIdle(members[j]) && !members[j].meta.evicted ==>
                    (j in chosen <==> Accepted(db, members[j], net.member)))
            && SameExcept(db, s.db, Labelled(db, members, net, cut))
            && AllTook(db, s.db, members, net, cut)
            && (forall i :: i in chosen ==> TookLabel(db, s.db, members[i]))
  {
    cut := SelectionWalks(db, members, |members| - target, 0, net);
    forall i | i in Chosen(db, members, net, cut)
      ensures TookLabel(db, Select(db, members, |members| - target, 0, net).db, members[i])
    {
      AcceptedLands(db, members[i], net.member);
      assert IsHit(db, members[i], net);
    }
  }

  // --------------------------------------------- what is left after eviction

  ghost function Unlabelled(db: Db, pool: string): set<string> {
    set n | n in db.cirs && db.cirs[n].spec.poolRef == pool && !db.cirs[n].meta.evicted
  }

  ghost function LostAnswers(members: seq<Cir>, net: Net): set<int> {
    set i | 0 <= i < |members| && net.member(members[i].meta.name).AnswerLost?
  }

  ghost function NamesAt(members: seq<Cir>, indices: set<int>): set<string> {
    set i | i in indices && 0 <= i < |members| :: members[i].meta.name
  }

  lemma {:induction false} NamesAtSize(members: seq<Cir>, indices: set<int>)
    ensures |NamesAt(members, indices)| <= |indices|
    decreases |indices|
  {
    if i: int :| i in indices {
      NamesAtSize(members, indices - {i});
      var others := NamesAt(members, indices - {i});
      assert NamesAt(members, indices) == others + if 0 <= i < |members| then {members[i].meta.name} else {};
    } else {
      assert NamesAt(members, indices) == {};
    }
  }

  lemma SetSizes<T>(a: set<T>, b: set<T>, c: set<T>)
    requires a - b <= c
    ensures |a| - |b| <= |c|
  {
    assert a - b == c - (c - (a - b));
    assert |a| == |a - b| + |a * b|;
    assert a * b == b - (b - a) && |a * b| <= |b|;
    assert c == (a - b) + (c - (a - b));
  }

  lemma LabelledSize(db: Db, members: seq<Cir>, net: Net, cut: nat)
    ensures |Labelled(db, members, net, cut)| <= |Chosen(db, members, net, cut)| + |LostAnswers(members, net)|
  {
    var chosen, lost := Chosen(db, members, net, cut), LostAnswers(members, net);
    forall n | n in Labelled(db, members, net, cut) ensures n in NamesAt(members, chosen + lost) {
      var i :| cut <= i < |members| && IsHit(db, members[i], net) && members[i].meta.name == n;
      assert i in chosen + lost;
    }
    NamesAtSize(members, chosen + lost);
    SetSizes(Labelled(db, members, net, cut), {}, NamesAt(members, chosen + lost));
    assert |chosen + lost| <= |chosen| + |lost|;
  }

  lemma BatchSparesUnlabelled(db: Db, pool: string, delivery: Delivery)
    ensures Unlabelled(Send(db, Written(DeleteEvicted(db), None), delivery).db, pool) == Unlabelled(db, pool)
  {
  }

  /** Of the members that had no label, at least `target` less the labels there
      were before keep none, up to the updates that took effect although they
      were reported as failed. From a pool with no labels and no such update, at
      least `target` members stay. */
  lemma EnoughStay(db: Db, pool: string, members: seq<Cir>, target: int, net: Net)
    requires Keyed(db) && Members(db, pool, members) && target < |members|
    ensures var before := |members| - |Unlabelled(db, pool)|;
            |Unlabelled(Evict(db, members, target, net).db, pool)| >=
              target - before - |LostAnswers(members, net)|
  {
    hide Labelled, Chosen, Select, AllTook;
    var cut := SelectionWalks(db, members, |members| - target, 0, net);
    var s := Select(db, members, |members| - target, 0, net);
    LabelledSize(db, members, net, cut);
    BatchSparesUnlabelled(s.db, pool, net.batch);
    SetSizes(Unlabelled(db, pool), Labelled(db, members, net, cut), Unlabelled(s.db, pool));
  }

  // ----------------------------------------------------- exactly what is left

  function Min(a: int, b: int): int {
    if a < b then a else b
  }

  /** No update of a member is reported as failed although it took effect. */
  ghost predicate Heard(members: seq<Cir>, net: Net) {
    forall i :: 0 <= i < |members| ==> !net.member(members[i].meta.name).AnswerLost?
  }

  lemma {:induction false} HeardLabelsChosen(db: Db, members: seq<Cir>, net: Net, cut: nat)
    requires Distinct(members) && Heard(members, net)
    ensures |Labelled(db, members, net, cut)| == |Chosen(db, members, net, cut)|
    decreases |members|
  {
    if |members| <= cut {
      assert Labelled(db, members, net, cut) == {} && Chosen(db, members, net, cut) == {};
    } else {
      hide CanEvict, IsCurrent, Labelled, Chosen;
      var c, rest := members[|members| - 1], members[..|members| - 1];
      ChosenSnoc(db, members, net, cut);
      NotLabelledAgain(db, rest, net, cut, c);
      HeardLabelsChosen(db, rest, net, cut);
      assert Lands(db, c, net.member) == Accepted(db, c, net.member);
    }
  }

  /** The loop labels members that had no label, and takes nobody else out. */
  lemma LabelledLeave(db: Db, db': Db, pool: string, members: seq<Cir>, net: Net, cut: nat)
    requires Members(db, pool, members)
    requires SameExcept(db, db', Labelled(db, members, net, cut)) && AllTook(db, db', members, net, cut)
    ensures Labelled(db, members, net, cut) <= Unlabelled(db, pool)
    ensures Unlabelled(db', pool) == Unlabelled(db, pool) - Labelled(db, members, net, cut)
  {
    hide Evictable;
    forall n | n in Labelled(db, members, net, cut) ensures n in Unlabelled(db, pool) && n !in Unlabelled(db', pool) {
      var i :| cut <= i < |members| && IsHit(db, members[i], net) && members[i].meta.name == n;
      assert n in NameSet(members);
    }
  }

  /** How many the loop selects: the excess, or all it could have. */
  lemma SelectionCounts(db: Db, members: seq<Cir>, excess: int, net: Net, cut: nat)
    requires WalkedTo(db, members, excess, 0, net, cut)
    ensures |Chosen(db, members, net, cut)| == Min(excess, |Chosen(db, members, net, 0)|)
  {
    hide Select, SameExcept, AllTook, CanEvict, Accepted;
    var some, all := Chosen(db, members, net, cut), Chosen(db, members, net, 0);
    assert some <= all;
    assert all == some + (all - some);
    assert cut == 0 ==> some == all;
  }

  /** Exactly what one pass leaves, whatever the pool was like before: where no
      answer is lost, it takes the excess or all it can have from the members
      without a label; so enough stay if and only if the labels there were before
      and the ones it adds are together no more than the excess. */
  lemma ExactlySoManyStay(db: Db, pool: string, members: seq<Cir>, target: int, net: Net)
    requires Keyed(db) && Members(db, pool, members) && target < |members| && Heard(members, net)
    ensures var excess := |members| - target;
            var before := |members| - |Unlabelled(db, pool)|;
            var taken := Min(excess, |Chosen(db, members, net, 0)|);
            var after := |Unlabelled(Evict(db, members, target, net).db, pool)|;
            && after == |members| - before - taken
            && (after >= target <==> before + taken <= excess)
  {
    hide Labelled, Chosen, Select, SameExcept, AllTook, Members, Unlabelled;
    var excess := |members| - target;
    MembersDistinct(db, pool, members);
    var cut := SelectionWalks(db, members, excess, 0, net);
    var s := Select(db, members, excess, 0, net);
    HeardLabelsChosen(db, members, net, cut);
    SelectionCounts(db, members, excess, net, cut);
    LabelledLeave(db, s.db, pool, members, net, cut);
    BatchSparesUnlabelled(s.db, pool, net.batch);
    SetDifference(Unlabelled(db, pool), Labelled(db, members, net, cut));
  }

  lemma MembersDistinct(db: Db, pool: string, members: seq<Cir>)
    requires Members(db, pool, members)
    ensures Distinct(members)
  {
  }

  lemma SetDifference<T>(a: set<T>, b: set<T>)
    requires b <= a
    ensures |a - b| == |a| - |b|
  {
    assert a == b + (a - b);
  }

  /** Passes do not add up in the same way: a second pass over a pool whose
      evicted member is still there skips it without counting it, and takes
      another. Here the pool should keep one of its two members and keeps none;
      `ExactlySoManyStay` says for every pool when that happens. */
  lemma SecondPassOverEvicts(db: Db, pool: string, a: Cir, b: Cir, net: Net)
    requires Keyed(db) && Members(db, pool, [a, b])
    requires CanEvict(a) && CanEvict(b) && a.meta.finalizer && b.meta.finalizer
    requires net.member(a.meta.name).Delivered? && net.member(b.meta.name).Delivered?
    ensures var db1 := Select(db, [a, b], 1, 0, net).db;
            && Unlabelled(db1, pool) == {a.meta.name}
            && Members(db1, pool, [a, db1.cirs[b.meta.name]])
            && Unlabelled(Select(db1, [a, db1.cirs[b.meta.name]], 1, 0, net).db, pool) == {}
  {
    hide Labelling;
    assert [a, b][0] == a && [a, b][1] == b && [a, b][..1] == [a];
    var db1 := Select(db, [a, b], 1, 0, net).db;
    LabellingStores(db, b, net);
    assert db1 == Labelling(db, b, net).db;
    var b1 := db1.cirs[b.meta.name];
    MembersRelabelled(db, db1, pool, a, b, b1);
    assert [a, b1][0] == a && [a, b1][1] == b1 && [a, b1][..1] == [a];
    LabellingStores(db1, a, net);
    assert Select(db1, [a, b1], 1, 0, net) == Select(db1, [a], 1, 0, net);
    assert [a][0] == a;
  }

  lemma LabellingStores(db: Db, c: Cir, net: Net)
    requires c.meta.name in db.cirs && db.cirs[c.meta.name] == c && c.meta.finalizer
    requires net.member(c.meta.name).Delivered?
    ensures var w := Labelling(db, c, net);
            && w.err.None?
            && w.db.cirs == db.cirs[c.meta.name := c.(meta := c.meta.(evicted := true, version := db.next))]
  {
  }

  lemma MembersRelabelled(db: Db, db1: Db, pool: string, a: Cir, b: Cir, b1: Cir)
    requires Members(db, pool, [a, b])
    requires b1.meta.name == b.meta.name && b1.spec == b.spec && db1.cirs == db.cirs[b.meta.name := b1]
    ensures Members(db1, pool, [a, b1])
    ensures Sys.MemberNames(db, pool) == {a.meta.name, b.meta.name}
    ensures db1.cirs[a.meta.name] == a && a.meta.name != b.meta.name
    ensures db.cirs[a.meta.name] == a && db.cirs[b.meta.name] == b
    ensures forall n :: n in db.cirs && db.cirs[n].spec.poolRef == pool <==> n == a.meta.name || n == b.meta.name
  {
    assert [a, b][0] == a && [a, b][1] == b && [a, b1][0] == a && [a, b1][1] == b1;
    assert NameSet([a, b]) == {a.meta.name, b.meta.name};
    assert NameSet([a, b1]) == {a.meta.name, b.meta.name};
    assert forall n :: n in Sys.MemberNames(db, pool) <==> n in db.cirs && db.cirs[n].spec.poolRef == pool;
    assert Sys.MemberNames(db1, pool) == Sys.MemberNames(db, pool);
  }

  // -------------------------------------------------------------- scaling up

  /** How many of the creations from `i` up to `end` never reach the server. */
  function Lost(net: Net, i: nat, end: nat): (k: nat)
    ensures i <= end ==> k <= end - i
    decreases end - i
  {
    if i >= end then 0
    else (if net.member(CirName(i)).Arrives() then 0 else 1) + Lost(net, i + 1, end)
  }

  /** Nothing has happened to it yet: no state, no label, no mark, no finalizer. */
  predicate IsNewborn(c: Cir, spec: CirSpec) {
    && c.spec == spec
    && c.status.state == StateNone && c.status.resourceId == NoId && c.status.address == "" && c.status.extra == ""
    && c.status.providerInfo == "" && c.status.lastUpdated == None
    && !c.meta.finalizer && !c.meta.deleting && !c.meta.evicted
  }

  ghost predicate FreshFrom(db: Db, i: nat, end: nat) {
    && (forall k :: i <= k < end ==> CirName(k) !in db.cirs)
    && (forall k, l :: i <= k < l < end ==> CirName(k) != CirName(l))
  }

  ghost predicate IsNewName(net: Net, i: nat, end: nat, n: string) {
    exists k :: i <= k < end && n == CirName(k) && net.member(CirName(k)).Arrives()
  }

  /** The loop adds exactly the members whose creation reaches the server,
      nothing else changes, and it counts the ones it heard of. */
  lemma {:induction false} GrowAdds(db: Db, spec: CirSpec, i: nat, end: nat, net: Net)
    requires Keyed(db) && i <= end && FreshFrom(db, i, end)
    ensures var g := Grow(db, spec, i, end, net);
            && g.db.pools == db.pools && Keyed(g.db)
            && (forall n :: n in g.db.cirs <==> n in db.cirs || IsNewName(net, i, end, n))
            && (forall n :: n in db.cirs ==> g.db.cirs[n] == db.cirs[n])
            && (forall n :: n in g.db.cirs && n !in db.cirs ==> IsNewborn(g.db.cirs[n], spec))
            && |Sys.MemberNames(g.db, spec.poolRef)| ==
                 |Sys.MemberNames(db, spec.poolRef)| + (end - i) - Lost(net, i, end)
    decreases end - i
  {
    hide CirName, Creating, IsNewName, Sys.MemberNames;
    if i < end {
      var w := Creating(db, spec, i, net);
      CreatingAdds(db, spec, i, net);
      assert FreshFrom(w.db, i + 1, end);
      GrowAdds(w.db, spec, i + 1, end, net);
      forall n ensures IsNewName(net, i, end, n) <==>
          (n == CirName(i) && net.member(CirName(i)).Arrives()) || IsNewName(net, i + 1, end, n)
      {
        NewNameCons(net, i, end, n);
      }
    } else {
      forall n ensures !IsNewName(net, i, end, n) {
        NoNewName(net, i, end, n);
      }
    }
  }

  lemma NewNameCons(net: Net, i: nat, end: nat, n: string)
    requires i < end
    ensures IsNewName(net, i, end, n) <==>
              (n == CirName(i) && net.member(CirName(i)).Arrives()) || IsNewName(net, i + 1, end, n)
  {
    hide CirName;
  }

  lemma NoNewName(net: Net, i: nat, end: nat, n: string)
    requires i >= end
    ensures !IsNewName(net, i, end, n)
  {
  }

  lemma CreatingAdds(db: Db, spec: CirSpec, i: nat, net: Net)
    requires Keyed(db) && CirName(i) !in db.cirs
    ensures var w := Creating(db, spec, i, net);
            var arrives := net.member(CirName(i)).Arrives();
            && w.db.pools == db.pools && Keyed(w.db)
            && w.db.cirs.Keys == db.cirs.Keys + (if arrives then {CirName(i)} else {})
            && (forall n :: n in db.cirs ==> w.db.cirs[n] == db.cirs[n])
            && (arrives ==> IsNewborn(w.db.cirs[CirName(i)], spec))
            && |Sys.MemberNames(w.db, spec.poolRef)| ==
                 |Sys.MemberNames(db, spec.poolRef)| + (if arrives then 1 else 0)
  {
    hide CirName, Sys.MemberNames;
    CreatedIsMember(db, CirName(i), spec);
  }

  lemma CreatedIsMember(db: Db, name: string, spec: CirSpec)
    requires name !in db.cirs
    ensures var made := CreateCir(db, name, spec).db;
            |Sys.MemberNames(made, spec.poolRef)| == |Sys.MemberNames(db, spec.poolRef)| + 1
  {
    var made := CreateCir(db, name, spec).db;
    assert Sys.MemberNames(made, spec.poolRef) == Sys.MemberNames(db, spec.poolRef) + {name};
  }
}
