/** The acquire command.

    `Look` and `Acquire` give what the command does for given lists, a given
    shuffle and a given fate of every update; the class does it with loops. The
    request context is the number of checks it stands before it has expired, so
    once expired it stays so. */
module AcquireCommand {
  import opened Api
  import opened ApiServers
  import opened Requests
  import opened Sorting
  import Sys = OfcirSystem
  import Histories
  import opened Lifecycle

  datatype Response =
    | Acquired(name: string, pool: string, provider: string, providerInfo: string, rtype: string)
    | NoPool
    | TimedOut
    | NothingAvailable
    | ListError

  /** `poolList` and `cirList` tell whether the two lists can be had, `member`
      what becomes of each update. */
  datatype Net = Net(poolList: bool, cirList: bool, member: string -> Delivery)

  // ------------------------------------------------------------------ parts

  /** The pools a request may draw from: a wanted type, and permitted to the caller. */
  function PoolsByName(pools: seq<Pool>, types: seq<string>, permitted: set<string>): map<string, Pool> {
    if pools == [] then map[]
    else
      var front := PoolsByName(pools[..|pools| - 1], types, permitted);
      var p := pools[|pools| - 1];
      if p.spec.rtype in types && p.name in permitted then front[p.name := p] else front
  }

  /** A missing entry of a Go map reads as the zero pool. */
  function Priority(byName: map<string, Pool>, c: Cir): int {
    if c.spec.poolRef in byName then byName[c.spec.poolRef].spec.priority else 0
  }

  predicate IsCandidate(byName: map<string, Pool>, c: Cir, fallback: bool) {
    c.spec.poolRef in byName && (byName[c.spec.poolRef].spec.priority < 0) == fallback
  }

  function Candidates(items: seq<Cir>, byName: map<string, Pool>, fallback: bool): seq<Cir> {
    if items == [] then []
    else
      var front := Candidates(items[..|items| - 1], byName, fallback);
      var c := items[|items| - 1];
      if IsCandidate(byName, c, fallback) then front + [c] else front
  }

  function ByPriority(byName: map<string, Pool>): (Cir, Cir) -> bool {
    (a, b) => Priority(byName, a) < Priority(byName, b)
  }

  function Taking(db: Db, c: Cir, net: Net): Written {
    Send(db, UpdateCir(db, Acquiring(c)), net.member(c.meta.name))
  }

  /** `left` is how many more checks the context stands. */
  datatype Looked = Looked(db: Db, left: nat, got: Option<Cir>)

  function Look(db: Db, cirs: seq<Cir>, left: nat, net: Net): Looked
    decreases |cirs|
  {
    if cirs == [] then Looked(db, left, None)
    else if left == 0 then Looked(db, 0, None)
    else if CanAcquire(cirs[0]) then
      var w := Taking(db, cirs[0], net);
      if w.err.None? then Looked(w.db, left - 1, Some(cirs[0])) else Look(w.db, cirs[1..], left - 1, net)
    else Look(db, cirs[1..], left - 1, net)
  }

  function Answer(byName: map<string, Pool>, c: Cir): Response {
    var ref := c.spec.poolRef;
    var pool := if ref in byName then byName[ref].name else "";
    var provider := if ref in byName then byName[ref].spec.provider else "";
    Acquired(c.meta.name, pool, provider, c.status.providerInfo, c.spec.rtype)
  }

  datatype Outcome = Outcome(db: Db, got: Option<Cir>, left: nat)

  /** First the default candidates, shuffled and then sorted by priority, then
      the fallback ones in the order of the list. */
  function Acquire(db: Db, byName: map<string, Pool>, items: seq<Cir>, shuffled: seq<Cir>, left: nat,
                   net: Net): Outcome
  {
    var first := Look(db, StableSort(shuffled, ByPriority(byName)), left, net);
    if first.got.Some? then Outcome(first.db, first.got, first.left)
    else
      var second := Look(first.db, Candidates(items, byName, true), first.left, net);
      Outcome(second.db, second.got, second.left)
  }

  datatype Served = Served(db: Db, response: Response)

  function Serve(db: Db, byName: map<string, Pool>, items: seq<Cir>, shuffled: seq<Cir>, left: nat, net: Net): Served {
    if !net.poolList then Served(db, ListError)
    else if byName == map[] then Served(db, NoPool)
    else if !net.cirList then Served(db, ListError)
    else
      var o := Acquire(db, byName, items, shuffled, left, net);
      match o.got
      case Some(c) => Served(o.db, Answer(byName, c))
      case None => Served(o.db, if o.left == 0 then TimedOut else NothingAvailable)
  }

  /** The lists are the server's and the shuffle is a permutation of the
      default candidates. */
  ghost predicate Inputs(db: Db, pools: seq<Pool>, byName: map<string, Pool>, items: seq<Cir>, shuffled: seq<Cir>,
                         net: Net)
  {
    && (net.poolList ==> IsPoolListing(db, pools))
    && (net.poolList && net.cirList && byName != map[] ==>
          IsListing(db, items) && multiset(shuffled) == multiset(Candidates(items, byName, false)))
  }

  // ------------------------------------------------------------- the command

  class Context {
    const patience: nat
    var checks: nat

    constructor (patience: nat)
      ensures this.patience == patience && checks == 0
    {
      this.patience := patience;
      checks := 0;
    }

    function Left(): nat
      reads this
    {
      if checks < patience then patience - checks else 0
    }

    method Err() returns (expired: bool)
      modifies this
      ensures expired == (old(Left()) == 0)
      ensures Left() == if expired then 0 else old(Left()) - 1
    {
      expired := checks >= patience;
      checks := checks + 1;
    }
  }

  method Contains(rtypes: seq<string>, rtype: string) returns (found: bool)
    ensures found <==> rtype in rtypes
  {
    for k := 0 to |rtypes|
      invariant rtype !in rtypes[..k]
    {
      if rtypes[k] == rtype {
        return true;
      }
    }
    return false;
  }

  lemma SwapKeepsAll(s: seq<Cir>, i: nat, j: nat)
    requires i < |s| && j < |s|
    ensures multiset(s[i := s[j]][j := s[i]]) == multiset(s)
  {
  }

  /** `rand.Shuffle`; `pick` stands for the random source. */
  method Shuffle(cirs: seq<Cir>, pick: nat -> nat) returns (shuffled: seq<Cir>)
    ensures multiset(shuffled) == multiset(cirs)
  {
    shuffled := cirs;
    var i := |cirs| - 1;
    while i > 0
      invariant i < |cirs| == |shuffled| && multiset(shuffled) == multiset(cirs)
    {
      var j := pick(i) % (i + 1);
      SwapKeepsAll(shuffled, i, j);
      shuffled := shuffled[i := shuffled[j]][j := shuffled[i]];
      i := i - 1;
    }
  }

  class AcquireCmd {
    const server: ApiServer
    const permitted: set<string>
    const resourceTypes: seq<string>

    constructor (server: ApiServer, permitted: set<string>, resourceTypes: seq<string>)
      ensures this.server == server && this.permitted == permitted && this.resourceTypes == resourceTypes
    {
      this.server, this.permitted, this.resourceTypes := server, permitted, resourceTypes;
    }

    method FilterPools(pools: seq<Pool>) returns (poolsByName: map<string, Pool>)
      ensures poolsByName == PoolsByName(pools, resourceTypes, permitted)
    {
      poolsByName := map[];
      for k := 0 to |pools|
        invariant poolsByName == PoolsByName(pools[..k], resourceTypes, permitted)
      {
        assert pools[..k + 1][..k] == pools[..k];
        var wanted := Contains(resourceTypes, pools[k].spec.rtype);
        if wanted && pools[k].name in permitted {
          poolsByName := poolsByName[pools[k].name := pools[k]];
        }
      }
      assert pools[..|pools|] == pools;
    }

    method Split(items: seq<Cir>, poolsByName: map<string, Pool>) returns (cirs: seq<Cir>, fallbacks: seq<Cir>)
      ensures cirs == Candidates(items, poolsByName, false)
      ensures fallbacks == Candidates(items, poolsByName, true)
    {
      cirs, fallbacks := [], [];
      for k := 0 to |items|
        invariant cirs == Candidates(items[..k], poolsByName, false)
        invariant fallbacks == Candidates(items[..k], poolsByName, true)
      {
        assert items[..k + 1][..k] == items[..k];
        if items[k].spec.poolRef !in poolsByName {
          continue;
        }
        if poolsByName[items[k].spec.poolRef].spec.priority < 0 {
          fallbacks := fallbacks + [items[k]];
        } else {
          cirs := cirs + [items[k]];
        }
      }
      assert items[..|items|] == items;
    }

    /** One request: for some lists the server may return and some shuffle of
        the default candidates, server and answer are as `Acquire` says. */
    method Run(ctx: Context, net: Net, pick: nat -> nat)
      returns (response: Response, ghost pools: seq<Pool>, ghost items: seq<Cir>, ghost shuffled: seq<Cir>)
      requires Keyed(server.db)
      modifies server, ctx
      ensures var byName := PoolsByName(pools, resourceTypes, permitted);
              && Inputs(old(server.db), pools, byName, items, shuffled, net)
              && Served(server.db, response) ==
                   Serve(old(server.db), byName, items, shuffled, old(ctx.Left()), net)
              && IsAnswer(old(server.db), server.db, byName, items, shuffled, old(ctx.Left()), net, response)
    {
      hide PoolsByName, Candidates, StableSort, Look, Keyed, IsListing, IsPoolListing, IsAnswer;
      ghost var db, left := server.db, ctx.Left();
      pools, items, shuffled := [], [], [];
      if !net.poolList {
        RequestIsAnswered(db, PoolsByName(pools, resourceTypes, permitted), items, shuffled, left, net);
        return ListError, pools, items, shuffled;
      }
      var listed := server.ListPools();
      pools := listed;
      var poolsByName := FilterPools(listed);
      if poolsByName == map[] {
        RequestIsAnswered(db, poolsByName, items, shuffled, left, net);
        return NoPool, pools, items, shuffled;
      }
      if !net.cirList {
        RequestIsAnswered(db, poolsByName, items, shuffled, left, net);
        return ListError, pools, items, shuffled;
      }
      var allCirs := server.ListCirs();
      items := allCirs;
      var cirs, fallbacks := Split(allCirs, poolsByName);
      cirs := Shuffle(cirs, pick);
      shuffled := cirs;
      ListingDistinct(db, allCirs);
      RequestIsAnswered(db, poolsByName, items, shuffled, left, net);
      cirs := StableSort(cirs, ByPriority(poolsByName));
      var found, answer := LookForAvailableResource(ctx, cirs, poolsByName, net);
      if found {
        return answer, pools, items, shuffled;
      }
      found, answer := LookForAvailableResource(ctx, fallbacks, poolsByName, net);
      if found {
        return answer, pools, items, shuffled;
      }
      var expired := ctx.Err();
      if expired {
        return TimedOut, pools, items, shuffled;
      }
      return NothingAvailable, pools, items, shuffled;
    }

    method LookForAvailableResource(ctx: Context, cirs: seq<Cir>, poolsByName: map<string, Pool>, net: Net)
      returns (found: bool, answer: Response)
      modifies server, ctx
      ensures var l := Look(old(server.db), cirs, old(ctx.Left()), net);
              && server.db == l.db && ctx.Left() == l.left && found == l.got.Some?
              && (found ==> answer == Answer(poolsByName, l.got.value))
    {
      ghost var l := Look(server.db, cirs, ctx.Left(), net);
      answer := NothingAvailable;
      for k := 0 to |cirs|
        invariant Look(server.db, cirs[k..], ctx.Left(), net) == l
      {
        var r := cirs[k];
        assert cirs[k..][1..] == cirs[k + 1..];
        var expired := ctx.Err();
        if expired {
          return false, answer;
        }
        if r.status.state != StateAvailable {
          continue;
        }
        if r.spec.state != StateInUse && r.spec.state != StateMaintenance {
          var err := server.UpdateCir(r.(spec := r.spec.(state := StateInUse)), net.member(r.meta.name));
          if err.Some? {
            continue;
          }
          return true, Answer(poolsByName, r);
        }
      }
      return false, answer;
    }
  }

  lemma {:induction false} CandidatesBelong(items: seq<Cir>, byName: map<string, Pool>, fallback: bool)
    ensures forall c :: c in Candidates(items, byName, fallback) <==> c in items && IsCandidate(byName, c, fallback)
  {
    if items != [] {
      CandidatesBelong(items[..|items| - 1], byName, fallback);
      assert items == items[..|items| - 1] + [items[|items| - 1]];
    }
  }

  lemma ListingDistinct(db: Db, items: seq<Cir>)
    requires IsListing(db, items)
    ensures Distinct(items)
  {
  }

  lemma ByPriorityIsOrder(byName: map<string, Pool>)
    ensures IsOrder(ByPriority(byName))
  {
  }

  /** Shuffling and sorting lose nobody. */
  lemma SortBelongs(shuffled: seq<Cir>, cirs: seq<Cir>, byName: map<string, Pool>)
    requires multiset(shuffled) == multiset(cirs)
    ensures var sorted := StableSort(shuffled, ByPriority(byName));
            && IsSorted(sorted, ByPriority(byName))
            && |sorted| == |cirs|
            && (forall c :: c in sorted <==> c in cirs)
            && (Distinct(cirs) ==> Distinct(sorted))
  {
    ByPriorityIsOrder(byName);
    SortSorts(shuffled, ByPriority(byName));
    var sorted := StableSort(shuffled, ByPriority(byName));
    assert |multiset(shuffled)| == |multiset(cirs)|;
    forall c ensures c in sorted <==> c in cirs {
      assert c in multiset(sorted) <==> c in multiset(cirs);
    }
    assert NameSet(sorted) == NameSet(cirs);
    DistinctBySize(sorted);
    DistinctBySize(cirs);
  }

  // ---------------------------------------------------------------- theorems

  predicate IsWanted(p: Pool, types: seq<string>, permitted: set<string>) {
    p.spec.rtype in types && p.name in permitted
  }

  /** A request draws on exactly the pools of a wanted type that its caller may
      use; whether the pool is offline makes no difference. */
  lemma {:induction false} WantedPoolsServe(pools: seq<Pool>, types: seq<string>, permitted: set<string>)
    requires forall i, j :: 0 <= i < j < |pools| ==> pools[i].name != pools[j].name
    ensures var byName := PoolsByName(pools, types, permitted);
            && (forall p :: p in pools && IsWanted(p, types, permitted) ==> p.name in byName && byName[p.name] == p)
            && (forall n :: n in byName ==>
                  byName[n] in pools && byName[n].name == n && IsWanted(byName[n], types, permitted))
  {
    if pools != [] {
      var front, last := pools[..|pools| - 1], pools[|pools| - 1];
      WantedPoolsServe(front, types, permitted);
      assert pools == front + [last];
      assert forall p :: p in front ==> p.name != last.name;
    }
  }

  /** The command and the machine agree on which pools are fallback ones exactly
      when no priority is below -1. */
  lemma FallbackNotionsAgree(byName: map<string, Pool>)
    ensures (forall c: Cir :: IsCandidate(byName, c, true) <==>
                                c.spec.poolRef in byName && byName[c.spec.poolRef].IsFallback()) <==>
            (forall n :: n in byName ==> byName[n].spec.priority >= FALLBACK_PRIORITY)
  {
    forall n | n in byName && byName[n].spec.priority < FALLBACK_PRIORITY
      ensures exists c: Cir :: IsCandidate(byName, c, true) && c.spec.poolRef in byName
                               && !byName[c.spec.poolRef].IsFallback()
    {
      var c := Cir(Meta("", 0, 0, false, false, false), CirSpec(n, StateNone, ""), EMPTY_STATUS);
      assert IsCandidate(byName, c, true);
    }
  }

  /** The request may have this one: free in the snapshot, and the update that
      asks for it is accepted. */
  predicate Obtainable(db: Db, c: Cir, net: Net) {
    CanAcquire(c) && Accepted(db, c, net.member)
  }

  /** The updates over `cirs` that would take effect and yet be reported as failed. */
  ghost function Silent(db: Db, cirs: seq<Cir>, net: Net): set<string> {
    set c | c in cirs && CanAcquire(c) && Lands(db, c, net.member) && !Accepted(db, c, net.member) :: c.meta.name
  }

  function GotName(got: Option<Cir>): set<string> {
    match got
    case None => {}
    case Some(c) => {c.meta.name}
  }

  ghost predicate LookedFor(db: Db, cirs: seq<Cir>, left: nat, net: Net) {
    var l := Look(db, cirs, left, net);
    && (l.got.Some? ==> exists k :: 0 <= k < |cirs| && IsFirst(db, cirs, left, net, k))
    && (l.got.None? ==> l.left == (if left > |cirs| then left - |cirs| else 0)
                        && forall j :: 0 <= j < |cirs| && j < left ==> !Obtainable(db, cirs[j], net))
    && SameExcept(db, l.db, Silent(db, cirs, net) + GotName(l.got))
    && l.left <= left && Keyed(l.db)
  }

  /** The search stops at the first obtainable one it comes to in time. */
  ghost predicate IsFirst(db: Db, cirs: seq<Cir>, left: nat, net: Net, k: nat)
    requires k < |cirs|
  {
    && k < left
    && Look(db, cirs, left, net).got == Some(cirs[k])
    && Obtainable(db, cirs[k], net)
    && forall j :: 0 <= j < k ==> !Obtainable(db, cirs[j], net)
  }

  /** The update that takes `c` has left its request in the stored Spec, and the
      status as it was; only an object under deletion whose copy in the list had no
      finalizer goes with it. */
  predicate TookSpec(db: Db, db': Db, c: Cir) {
    var n := c.meta.name;
    && n in db.cirs
    && if db.cirs[n].meta.deleting && !c.meta.finalizer then n !in db'.cirs
       else
         && n in db'.cirs && db'.cirs[n].spec == c.spec.(state := StateInUse)
         && db'.cirs[n].status == db.cirs[n].status
  }

  lemma TakingStores(db: Db, c: Cir, net: Net)
    requires Keyed(db) && Accepted(db, c, net.member)
    ensures TookSpec(db, Taking(db, c, net).db, c)
  {
  }

  lemma {:induction false} LookStores(db: Db, cirs: seq<Cir>, left: nat, net: Net)
    requires Keyed(db) && Distinct(cirs)
    ensures var l := Look(db, cirs, left, net);
            l.got.Some? ==> l.got.value in cirs && TookSpec(db, l.db, l.got.value)
    decreases |cirs|
  {
    hide CanAcquire, Accepted, Lands, Taking, Keyed;
    if cirs != [] && left > 0 {
      var c, rest := cirs[0], cirs[1..];
      TakingFrame(db, c, net);
      var w := Taking(db, c, net);
      if CanAcquire(c) && w.err.None? {
        TakingStores(db, c, net);
      } else {
        var db' := if CanAcquire(c) then w.db else db;
        LookStores(db', rest, left - 1, net);
        var l := Look(db', rest, left - 1, net);
        if l.got.Some? {
          var j :| 0 <= j < |rest| && rest[j] == l.got.value;
          assert rest[j] == cirs[j + 1] && l.got.value.meta.name !in {c.meta.name};
        }
      }
    }
  }

  lemma TakingFrame(db: Db, c: Cir, net: Net)
    requires Keyed(db)
    ensures var w := Taking(db, c, net);
            && (w.err.None? <==> Accepted(db, c, net.member))
            && SameExcept(db, w.db, if Lands(db, c, net.member) then {c.meta.name} else {})
            && Keyed(w.db)
  {
  }

  /** Any list, stale or not, whatever becomes of each update. */
  lemma {:induction false} LookFinds(db: Db, cirs: seq<Cir>, left: nat, net: Net)
    requires Keyed(db) && Distinct(cirs)
    ensures LookedFor(db, cirs, left, net)
    decreases |cirs|
  {
    hide CanAcquire, Accepted, Lands, Taking, Keyed;
    if cirs != [] && left > 0 {
      var c, rest := cirs[0], cirs[1..];
      TakingFrame(db, c, net);
      var w := Taking(db, c, net);
      var db' := if CanAcquire(c) then w.db else db;
      if CanAcquire(c) && w.err.None? {
        assert IsFirst(db, cirs, left, net, 0);
        AcceptedLands(db, c, net.member);
        WidenExcept(db, w.db, {c.meta.name}, Silent(db, cirs, net));
      } else {
        LookFinds(db', rest, left - 1, net);
        SilentCons(db, db', cirs, net);
        LookOn(db, db', cirs, left, net);
      }
    }
  }

  lemma WidenExcept(db: Db, db': Db, a: set<string>, b: set<string>)
    requires SameExcept(db, db', a)
    ensures SameExcept(db, db', b + a)
  {
  }

  lemma SilentCons(db: Db, db': Db, cirs: seq<Cir>, net: Net)
    requires Keyed(db) && cirs != [] && Distinct(cirs) && !Obtainable(db, cirs[0], net)
    requires db' == if CanAcquire(cirs[0]) then Taking(db, cirs[0], net).db else db
    ensures SameExcept(db, db', Silent(db, cirs, net))
    ensures Silent(db', cirs[1..], net) <= Silent(db, cirs, net)
    ensures forall j :: 0 < j < |cirs| ==> Obtainable(db', cirs[j], net) == Obtainable(db, cirs[j], net)
  {
    hide CanAcquire, Accepted, Lands, Taking, Keyed;
    TakingFrame(db, cirs[0], net);
    forall j | 0 < j < |cirs|
      ensures Accepted(db', cirs[j], net.member) == Accepted(db, cirs[j], net.member)
      ensures Lands(db', cirs[j], net.member) == Lands(db, cirs[j], net.member)
    {
      OthersStayCurrent(db, db', cirs[0].meta.name, cirs[j], net.member);
    }
    forall c | c in cirs[1..] && CanAcquire(c) && Lands(db', c, net.member) && !Accepted(db', c, net.member)
      ensures c.meta.name in Silent(db, cirs, net)
    {
      var j :| 0 <= j < |cirs[1..]| && cirs[1..][j] == c;
      assert c == cirs[j + 1];
    }
  }

  lemma LookOn(db: Db, db': Db, cirs: seq<Cir>, left: nat, net: Net)
    requires cirs != [] && left > 0
    requires Look(db, cirs, left, net) == Look(db', cirs[1..], left - 1, net)
    requires !Obtainable(db, cirs[0], net)
    requires forall j :: 0 < j < |cirs| ==> Obtainable(db', cirs[j], net) == Obtainable(db, cirs[j], net)
    requires SameExcept(db, db', Silent(db, cirs, net))
    requires Silent(db', cirs[1..], net) <= Silent(db, cirs, net)
    requires LookedFor(db', cirs[1..], left - 1, net)
    ensures LookedFor(db, cirs, left, net)
  {
    hide Obtainable, Look, Silent, Keyed;
    var rest := cirs[1..];
    var l := Look(db, cirs, left, net);
    if l.got.Some? {
      var k :| 0 <= k < |rest| && IsFirst(db', rest, left - 1, net, k);
      assert rest[k] == cirs[k + 1];
      forall j | 0 <= j < k + 1 ensures !Obtainable(db, cirs[j], net) {
        assert j > 0 ==> rest[j - 1] == cirs[j];
      }
      assert IsFirst(db, cirs, left, net, k + 1);
    } else {
      forall j | 0 <= j < |cirs| && j < left ensures !Obtainable(db, cirs[j], net) {
        assert j > 0 ==> rest[j - 1] == cirs[j];
      }
    }
    SameExceptTrans(db, db', l.db, Silent(db, cirs, net), Silent(db', rest, net) + GotName(l.got));
    assert Silent(db, cirs, net) + (Silent(db', rest, net) + GotName(l.got)) == Silent(db, cirs, net) + GotName(l.got);
  }

  // ------------------------------------------------------- the whole request

  lemma {:induction false} CandidatesDistinct(items: seq<Cir>, byName: map<string, Pool>, fallback: bool)
    requires Distinct(items)
    ensures Distinct(Candidates(items, byName, fallback))
  {
    if items != [] {
      var front := items[..|items| - 1];
      CandidatesDistinct(front, byName, fallback);
      CandidatesBelong(front, byName, fallback);
      var cs := Candidates(front, byName, fallback);
      forall i | 0 <= i < |cs| ensures cs[i].meta.name != items[|items| - 1].meta.name {
        assert cs[i] in front;
      }
    }
  }

  /** Default and fallback candidates are different objects, so what becomes of
      the first search does not change what the second one can have. */
  lemma FallbacksUnmoved(db: Db, db': Db, items: seq<Cir>, byName: map<string, Pool>, sorted: seq<Cir>, net: Net)
    requires Distinct(items) && SameExcept(db, db', Silent(db, sorted, net))
    requires forall c :: c in sorted ==> c in items && IsCandidate(byName, c, false)
    ensures forall c :: c in items && IsCandidate(byName, c, true) ==>
              Obtainable(db', c, net) == Obtainable(db, c, net)
              && Accepted(db', c, net.member) == Accepted(db, c, net.member)
              && Lands(db', c, net.member) == Lands(db, c, net.member)
              && (c.meta.name in db'.cirs <==> c.meta.name in db.cirs)
              && (c.meta.name in db.cirs ==> db'.cirs[c.meta.name] == db.cirs[c.meta.name])
  {
    hide CanAcquire;
    forall c | c in items && IsCandidate(byName, c, true)
      ensures (c.meta.name in db'.cirs <==> c.meta.name in db.cirs)
      ensures c.meta.name in db.cirs ==> db'.cirs[c.meta.name] == db.cirs[c.meta.name]
      ensures Accepted(db', c, net.member) == Accepted(db, c, net.member)
      ensures Lands(db', c, net.member) == Lands(db, c, net.member)
    {
      assert c.meta.name !in Silent(db, sorted, net);
    }
  }

  /** What a request gets is good: it is one the caller may draw on, it was
      free, and no obtainable default candidate has a smaller priority. A fallback
      is only given when every default candidate was tried in time and none could
      be had. */
  ghost predicate GoodGrant(db: Db, byName: map<string, Pool>, items: seq<Cir>, left: nat, net: Net, r: Cir) {
    && left > 0 && r in items && r.spec.poolRef in byName && Obtainable(db, r, net)
    && (IsCandidate(byName, r, false) ==>
          forall c :: c in items && IsCandidate(byName, c, false) && Obtainable(db, c, net) ==>
            Priority(byName, r) <= Priority(byName, c))
    && (IsCandidate(byName, r, true) ==>
          && |Candidates(items, byName, false)| < left
          && forall c :: c in items && IsCandidate(byName, c, false) ==> !Obtainable(db, c, net))
  }

  /** For every list, stale or not, every shuffle, every pattern of updates that
      fail or only seem to, and every moment at which the context expires: at most
      one object is granted, it is a good one and its stored Spec asks for use, no
      other object is changed except through an update that was reported as failed,
      and a request that was not cut short is turned away only when nothing at all
      could be had. */
  lemma PriorityOptimalGrant(db: Db, byName: map<string, Pool>, items: seq<Cir>, shuffled: seq<Cir>, left: nat,
                             net: Net)
    requires Keyed(db) && Distinct(items)
    requires multiset(shuffled) == multiset(Candidates(items, byName, false))
    ensures var o := Acquire(db, byName, items, shuffled, left, net);
            && (o.got.Some? ==> GoodGrant(db, byName, items, left, net, o.got.value))
            && (o.got.Some? ==> TookSpec(db, o.db, o.got.value))
            && SameExcept(db, o.db, Silent(db, items, net) + GotName(o.got))
            && (o.got.None? && o.left > 0 ==>
                  forall c :: c in items && c.spec.poolRef in byName ==> !Obtainable(db, c, net))
  {
    hide CanAcquire, Accepted, Lands, Look, Keyed, StableSort, Candidates, Obtainable, TookSpec;
    var defaults := Candidates(items, byName, false);
    var fallbacks := Candidates(items, byName, true);
    CandidatesBelong(items, byName, false);
    CandidatesBelong(items, byName, true);
    CandidatesDistinct(items, byName, false);
    CandidatesDistinct(items, byName, true);
    SortBelongs(shuffled, defaults, byName);
    var sorted := StableSort(shuffled, ByPriority(byName));
    LookFinds(db, sorted, left, net);
    var first := Look(db, sorted, left, net);
    assert Silent(db, sorted, net) <= Silent(db, items, net);
    if first.got.Some? {
      LookStores(db, sorted, left, net);
      FirstIsBest(db, byName, items, sorted, left, net);
      WidenExcept2(db, first.db, Silent(db, sorted, net), Silent(db, items, net), GotName(first.got));
    } else {
      assert SameExcept(db, first.db, Silent(db, sorted, net));
      FallbacksUnmoved(db, first.db, items, byName, sorted, net);
      LookFinds(first.db, fallbacks, first.left, net);
      var second := Look(first.db, fallbacks, first.left, net);
      assert Silent(first.db, fallbacks, net) <= Silent(db, items, net);
      var silent := Silent(db, sorted, net) + Silent(first.db, fallbacks, net);
      SameExceptTrans(db, first.db, second.db, Silent(db, sorted, net),
                      Silent(first.db, fallbacks, net) + GotName(second.got));
      WidenExcept2(db, second.db, silent, Silent(db, items, net), GotName(second.got));
      SecondSearch(db, first.db, byName, items, sorted, left, net);
      if second.got.Some? {
        LookStores(first.db, fallbacks, first.left, net);
        StoredAlike(db, first.db, second.db, second.got.value);
      }
    }
  }

  lemma StoredAlike(db: Db, db': Db, db'': Db, c: Cir)
    requires c.meta.name in db'.cirs <==> c.meta.name in db.cirs
    requires c.meta.name in db.cirs ==> db'.cirs[c.meta.name] == db.cirs[c.meta.name]
    requires TookSpec(db', db'', c)
    ensures TookSpec(db, db'', c)
  {
  }

  lemma WidenExcept2(db: Db, db': Db, a: set<string>, b: set<string>, got: set<string>)
    requires SameExcept(db, db', a + got) && a <= b
    ensures SameExcept(db, db', b + got)
  {
  }

  lemma FirstIsBest(db: Db, byName: map<string, Pool>, items: seq<Cir>, sorted: seq<Cir>, left: nat, net: Net)
    requires IsSorted(sorted, ByPriority(byName))
    requires forall c :: c in sorted <==> c in items && IsCandidate(byName, c, false)
    requires LookedFor(db, sorted, left, net) && Look(db, sorted, left, net).got.Some?
    ensures GoodGrant(db, byName, items, left, net, Look(db, sorted, left, net).got.value)
  {
    hide Look, Obtainable, SameExcept, Keyed;
    var k :| 0 <= k < |sorted| && IsFirst(db, sorted, left, net, k);
    var r := sorted[k];
    assert r in sorted;
    forall c | c in items && IsCandidate(byName, c, false) && Obtainable(db, c, net)
      ensures Priority(byName, r) <= Priority(byName, c)
    {
      assert c in sorted;
      var j :| 0 <= j < |sorted| && sorted[j] == c;
      if j > k {
        assert !ByPriority(byName)(sorted[j], sorted[k]);
      }
    }
  }

  lemma SecondSearch(db: Db, db': Db, byName: map<string, Pool>, items: seq<Cir>, sorted: seq<Cir>, left: nat, net: Net)
    requires forall c :: c in sorted <==> c in items && IsCandidate(byName, c, false)
    requires |sorted| == |Candidates(items, byName, false)|
    requires LookedFor(db, sorted, left, net)
    requires var first := Look(db, sorted, left, net);
             && first.got.None? && first.db == db'
             && LookedFor(db', Candidates(items, byName, true), first.left, net)
    requires forall c :: c in items && IsCandidate(byName, c, true) ==>
               Obtainable(db', c, net) == Obtainable(db, c, net)
    ensures var second := Look(db', Candidates(items, byName, true), Look(db, sorted, left, net).left, net);
            && (second.got.Some? ==> GoodGrant(db, byName, items, left, net, second.got.value))
            && (second.got.None? && second.left > 0 ==>
                  forall c :: c in items && c.spec.poolRef in byName ==> !Obtainable(db, c, net))
  {
    hide Look, Obtainable, SameExcept, Keyed, Candidates;
    var fallbacks := Candidates(items, byName, true);
    CandidatesBelong(items, byName, true);
    var first := Look(db, sorted, left, net);
    var second := Look(db', fallbacks, first.left, net);
    if first.left > 0 {
      forall c | c in items && IsCandidate(byName, c, false) ensures !Obtainable(db, c, net) {
        assert c in sorted;
        var j :| 0 <= j < |sorted| && sorted[j] == c;
      }
    }
    if second.got.Some? {
      var k :| 0 <= k < |fallbacks| && IsFirst(db', fallbacks, first.left, net, k);
      assert fallbacks[k] in fallbacks;
    } else if second.left > 0 {
      forall c | c in items && c.spec.poolRef in byName ensures !Obtainable(db, c, net) {
        if IsCandidate(byName, c, true) {
          assert c in fallbacks;
          var j :| 0 <= j < |fallbacks| && fallbacks[j] == c;
        }
      }
    }
  }

  // ------------------------------------------------------------- the answer

  /** The order in which a request tries its candidates. */
  function Order(byName: map<string, Pool>, items: seq<Cir>, shuffled: seq<Cir>): seq<Cir> {
    StableSort(shuffled, ByPriority(byName)) + Candidates(items, byName, true)
  }

  /** Available, and nobody has asked for it or put it aside. */
  predicate IsUnclaimed(c: Cir) {
    c.status.state == StateAvailable && c.spec.state !in {StateInUse, StateMaintenance}
  }

  /** The object has not been written since it was listed, and the update of it gets
      through with its answer. */
  predicate IsWon(db: Db, c: Cir, net: Net) {
    && c.meta.name in db.cirs && db.cirs[c.meta.name].meta.version == c.meta.version
    && net.member(c.meta.name) == Delivered
  }

  /** There is an unclaimed candidate to be won among those that the context leaves
      time for. */
  ghost predicate CanServe(db: Db, order: seq<Cir>, left: nat, net: Net) {
    exists k :: 0 <= k < |order| && k < left && IsUnclaimed(order[k]) && IsWon(db, order[k], net)
  }

  lemma ObtainableMeans(db: Db, c: Cir, net: Net)
    ensures Obtainable(db, c, net) <==> IsUnclaimed(c) && IsWon(db, c, net)
  {
  }

  /** A grant names the listed member that was granted, its pool and provider as
      they were listed, and what the member carries; the object stored under that
      name asks for use. */
  ghost predicate TellsGrant(db: Db, db': Db, byName: map<string, Pool>, left: nat, items: seq<Cir>, net: Net,
                             response: Response, r: Cir)
  {
    && response.Acquired?
    && r in items && GoodGrant(db, byName, items, left, net, r) && TookSpec(db, db', r)
    && IsUnclaimed(r) && IsWon(db, r, net)
    && response.name == r.meta.name
    && response.pool == byName[r.spec.poolRef].name
    && response.provider == byName[r.spec.poolRef].spec.provider
    && response.providerInfo == r.status.providerInfo
    && response.rtype == r.spec.rtype
  }

  /** When each answer is given. */
  ghost predicate IsAnswer(db: Db, db': Db, byName: map<string, Pool>, items: seq<Cir>, shuffled: seq<Cir>, left: nat,
                           net: Net, response: Response)
  {
    var order := Order(byName, items, shuffled);
    var searches := net.poolList && byName != map[] && net.cirList;
    && (response == ListError <==> !net.poolList || (byName != map[] && !net.cirList))
    && (response == NoPool <==> net.poolList && byName == map[])
    && (response.Acquired? <==> searches && CanServe(db, order, left, net))
    && (response == TimedOut <==> searches && !CanServe(db, order, left, net) && left <= |order|)
    && (response == NothingAvailable <==> searches && !CanServe(db, order, left, net) && left > |order|)
    && (response.Acquired? ==> exists r :: TellsGrant(db, db', byName, left, items, net, response, r))
  }

  /** The two searches are one search through the whole order. */
  lemma {:induction false} LookCat(db: Db, a: seq<Cir>, b: seq<Cir>, left: nat, net: Net)
    ensures var first := Look(db, a, left, net);
            Look(db, a + b, left, net) == if first.got.Some? then first else Look(first.db, b, first.left, net)
    decreases |a|
  {
    hide CanAcquire, Taking;
    if a == [] {
      assert a + b == b;
    } else if left > 0 {
      assert (a + b)[1..] == a[1..] + b;
      var w := Taking(db, a[0], net);
      LookCat(if CanAcquire(a[0]) then w.db else db, a[1..], b, left - 1, net);
    } else {
      assert b != [] ==> Look(db, b, 0, net) == Looked(db, 0, None);
    }
  }

  /** The defaults and the fallbacks of a list are different objects. */
  lemma OrderDistinct(byName: map<string, Pool>, items: seq<Cir>, shuffled: seq<Cir>)
    requires Distinct(items) && multiset(shuffled) == multiset(Candidates(items, byName, false))
    ensures Distinct(Order(byName, items, shuffled))
  {
    hide StableSort, Candidates;
    CandidatesBelong(items, byName, false);
    CandidatesBelong(items, byName, true);
    CandidatesDistinct(items, byName, false);
    CandidatesDistinct(items, byName, true);
    SortBelongs(shuffled, Candidates(items, byName, false), byName);
    var sorted, fallbacks := StableSort(shuffled, ByPriority(byName)), Candidates(items, byName, true);
    forall i, j | 0 <= i < |sorted| && 0 <= j < |fallbacks| ensures sorted[i].meta.name != fallbacks[j].meta.name {
      assert sorted[i] in sorted && fallbacks[j] in fallbacks;
      assert sorted[i] != fallbacks[j];
    }
  }

  /** The answer of a whole request, field by field: for every list, stale or not,
      every shuffle, every pattern of updates and every moment of expiry. */
  lemma RequestIsAnswered(db: Db, byName: map<string, Pool>, items: seq<Cir>, shuffled: seq<Cir>, left: nat, net: Net)
    requires Keyed(db)
    requires net.poolList && byName != map[] && net.cirList ==>
               Distinct(items) && multiset(shuffled) == multiset(Candidates(items, byName, false))
    ensures var s := Serve(db, byName, items, shuffled, left, net);
            IsAnswer(db, s.db, byName, items, shuffled, left, net, s.response)
  {
    hide Look, StableSort, Candidates, GoodGrant, TookSpec, Obtainable, Silent, SameExcept, Keyed, IsUnclaimed, IsWon;
    if net.poolList && byName != map[] && net.cirList {
      var order := Order(byName, items, shuffled);
      var o := Acquire(db, byName, items, shuffled, left, net);
      OrderDistinct(byName, items, shuffled);
      LookCat(db, StableSort(shuffled, ByPriority(byName)), Candidates(items, byName, true), left, net);
      LookFinds(db, order, left, net);
      PriorityOptimalGrant(db, byName, items, shuffled, left, net);
      var s := Serve(db, byName, items, shuffled, left, net);
      forall k | 0 <= k < |order|
        ensures Obtainable(db, order[k], net) <==> IsUnclaimed(order[k]) && IsWon(db, order[k], net)
      {
        ObtainableMeans(db, order[k], net);
      }
      if o.got.Some? {
        var k :| 0 <= k < |order| && IsFirst(db, order, left, net, k);
        GrantIsTold(db, s.db, byName, left, items, net, o.got.value);
      }
    }
  }

  lemma GrantIsTold(db: Db, db': Db, byName: map<string, Pool>, left: nat, items: seq<Cir>, net: Net, r: Cir)
    requires GoodGrant(db, byName, items, left, net, r) && TookSpec(db, db', r)
    ensures TellsGrant(db, db', byName, left, items, net, Answer(byName, r), r)
  {
    ObtainableMeans(db, r, net);
  }

  // ------------------------------------------- the search is a run of the system

  /** The histories with the grant that a search ended in. */
  function Told(w: Sys.World, got: Option<Cir>): map<nat, Sys.Life> {
    if got.Some? && got.value.meta.uid in w.lives then
      var uid := got.value.meta.uid;
      w.lives[uid := w.lives[uid].(history := w.lives[uid].history + [Histories.Granted(w.clock)])]
    else w.lives
  }

  /** Each search is a run of acquire steps of the whole system, in which reads
      may be old and other writes come in between, and the histories have exactly
      the grant that it answers with; so lease exclusion holds of the answers. */
  lemma {:induction false} LookIsRun(w: Sys.World, cirs: seq<Cir>, left: nat, net: Net) returns (steps: seq<Sys.Step>)
    requires Inv(w) && forall i :: 0 <= i < |cirs| ==> cirs[i] in w.snapshots
    ensures Sys.LegalRun(w, steps)
    ensures var l := Look(w.db, cirs, left, net);
            && Sys.Run(w, steps).db == l.db
            && Sys.Run(w, steps).lives == Told(w, l.got)
            && (l.got.Some? ==> l.got.value.meta.uid in w.lives)
    decreases |cirs|
  {
    steps := [];
    if cirs != [] && left > 0 {
      hide CanAcquire, Sys.Apply, Taking, Inv, Sys.Legal;
      var c, rest := cirs[0], cirs[1..];
      if CanAcquire(c) {
        var s := Sys.AcquireWrite(c, net.member(c.meta.name));
        var w' := Sys.Apply(w, s);
        AcquireStepIsTaking(w, c, net);
        if Taking(w.db, c, net).err.None? {
          steps := [s];
          assert Sys.Run(w', steps[1..]) == w';
        } else {
          var more := LookIsRun(w', rest, left - 1, net);
          steps := [s] + more;
          assert steps[1..] == more;
        }
      } else {
        steps := LookIsRun(w, rest, left - 1, net);
      }
    }
  }

  lemma AcquireStepIsTaking(w: Sys.World, c: Cir, net: Net)
    requires Inv(w) && c in w.snapshots && CanAcquire(c)
    ensures var s := Sys.AcquireWrite(c, net.member(c.meta.name));
            var w' := Sys.Apply(w, s);
            var taken := Taking(w.db, c, net);
            && Sys.Legal(w, s) && Inv(w') && w'.db == taken.db && w'.snapshots == w.snapshots && w'.clock == w.clock
            && (taken.err.None? ==> c.meta.uid in w.lives)
            && w'.lives == Told(w, if taken.err.None? then Some(c) else None)
  {
    hide Inv, CanAcquire, Sys.Commit;
    var d := net.member(c.meta.name);
    var es := if d.Delivered? then [Histories.Granted(w.clock)] else [];
    Sys.SwapIsUpdate(w, Acquiring(c), es, d);
    StepKeeps(w, Sys.AcquireWrite(c, d));
    if IsCurrent(w.db, c) {
      AcceptedMeansUnchanged(w, c);
      IsGuarded(w, c.meta.name);
      HasLife(w, c.meta.name);
      CommitTells(w, MergeMain(c, Acquiring(c)), es);
      CommitFrame(w, MergeMain(c, Acquiring(c)), es);
    }
  }
}
