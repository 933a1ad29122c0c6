/** Runs that show what a single lost write after a Release can do: with a provider
    that reissues ids two objects come to share a machine, with a strict one an
    object is blocked for ever. The runs start from the empty system. */
module LostRelease {
  import opened Api
  import opened Providers
  import opened CirFsm
  import opened CirController
  import opened OfcirSystem
  import opened Lifecycle
  import opened Dangling
  import Ledger
  import DrainRuns
  import Drain
  import opened PassRefinement

  /** What matters of a member here; nobody has asked for it. */
  datatype View = View(state: CirState, id: ResourceId, finalizer: bool, deleting: bool)

  predicate Seen(w: World, p: Pool, n: string, v: View) {
    && n in w.db.cirs
    && var c := w.db.cirs[n];
       && c.meta.name == n && c.meta.finalizer == v.finalizer && c.meta.deleting == v.deleting
       && c.spec.poolRef == p.name && c.spec.state == StateNone
       && c.status.state == v.state && c.status.resourceId == v.id
  }

  /** The default pool `p` is stored. */
  predicate HasDefault(w: World, p: Pool) {
    p.name in w.db.pools && w.db.pools[p.name].name == p.name && !w.db.pools[p.name].IsFallback()
  }

  /** A pass of the machine has something to do. */
  predicate Moves(v: View) {
    || v.state == StateNone || (v.finalizer && v.state == StateProvisioning)
    || (v.finalizer && v.state == StateProvisioningWait) || (v.finalizer && v.state == StateAvailable && v.deleting)
  }

  function Next(v: View, id: ResourceId): View {
    match v.state
    case StateNone => if !v.deleting && !v.finalizer then v.(finalizer := true) else v.(state := StateProvisioning)
    case StateProvisioning => v.(state := StateProvisioningWait, id := id)
    case StateProvisioningWait => v.(state := StateAvailable)
    case _ => v.(state := StateDelete)
  }

  lemma NextIsPass(c: Cir, p: Pool, id: ResourceId, now: Time, v: View)
    requires !p.IsFallback() && c.status.state == v.state && c.status.resourceId == v.id && Moves(v)
    requires c.meta.finalizer == v.finalizer && c.meta.deleting == v.deleting && (v.deleting ==> v.finalizer)
    ensures var verdict := Handle(c, p, DrainRuns.GoodReplies(id), now);
            var c' := Persisted(c, verdict, now);
            var u := Next(v, id);
            && Writes(verdict) && !Vanishes(c') && c'.meta.name == c.meta.name && c'.spec == c.spec
            && c'.status.state == u.state && c'.status.resourceId == u.id
            && c'.meta.finalizer == u.finalizer && c'.meta.deleting == u.deleting
            && AcquiredId(verdict.calls, DrainRuns.GoodReplies(id)) ==
                 (if v.state == StateProvisioning then {id} else {})
            && (verdict.calls == [] || !verdict.calls[0].Release?)
  {
  }

  /** The id is still to be had, or the member has it. */
  predicate IsFree(w: World, v: View, id: ResourceId) {
    && IsMachine(id)
    && (v.state == StateNone || v.state == StateProvisioning ==> id !in w.held && id !in w.issued)
    && (v.id == id ==> id in w.held)
  }

  /** One pass over `n`, which `m` does not notice. */
  lemma PassMoves(w: World, p: Pool, n: string, v: View, m: string, u: View, id: ResourceId)
    requires HasDefault(w, p) && Seen(w, p, n, v) && Seen(w, p, m, u) && m != n
    requires Moves(v) && (v.deleting ==> v.finalizer) && IsFree(w, v, id)
    ensures var s := Reconcile(n, DrainRuns.GoodReplies(id), Delivered);
            var w' := Apply(w, s);
            && Legal(w, s) && w'.cfg == w.cfg && HasDefault(w', p)
            && Seen(w', p, n, Next(v, id)) && Seen(w', p, m, u) && IsFree(w', Next(v, id), id)
  {
    hide Handle, Persisted, PassOver, Writes, Vanishes;
    var c := w.db.cirs[n];
    var stored := w.db.pools[p.name];
    var r := DrainRuns.GoodReplies(id);
    NextIsPass(c, stored, id, w.clock, v);
    PassFrame(w, c, stored, r, Delivered);
    PassTakes(w, c, stored, r, Delivered);
  }

  lemma PassTakes(w: World, c: Cir, p: Pool, r: Replies, d: Delivery)
    ensures var calls := Handle(c, p, r, w.clock).calls;
            var w' := PassOver(w, c, p, r, d);
            && w'.held == (w.held + AcquiredId(calls, r)) - ReturnedId(calls, r)
            && w'.issued == w.issued + AcquiredId(calls, r)
  {
    hide Handle, Persisted, CallEvents, WriteEvents, AcquiredId, ReturnedId;
  }

  function Ahead(v: View, id: ResourceId, k: nat): View
    decreases k
  {
    if k == 0 then v else Ahead(Next(v, id), id, k - 1)
  }

  predicate MovesOn(v: View, id: ResourceId, k: nat)
    decreases k
  {
    k == 0 || (Moves(v) && (v.deleting ==> v.finalizer) && MovesOn(Next(v, id), id, k - 1))
  }

  lemma {:induction false} PassesMove(w: World, p: Pool, n: string, v: View, m: string, u: View, id: ResourceId, k: nat)
    returns (steps: seq<Step>)
    requires HasDefault(w, p) && Seen(w, p, n, v) && Seen(w, p, m, u) && m != n
    requires MovesOn(v, id, k) && IsFree(w, v, id)
    ensures LegalRun(w, steps)
    ensures var w' := Run(w, steps);
            && w'.cfg == w.cfg && HasDefault(w', p) && Seen(w', p, n, Ahead(v, id, k)) && Seen(w', p, m, u)
            && IsFree(w', Ahead(v, id, k), id)
    decreases k
  {
    hide Apply, Legal, HasDefault, Seen, IsFree, Moves, Next;
    steps := [];
    if k > 0 {
      PassMoves(w, p, n, v, m, u, id);
      var s := Reconcile(n, DrainRuns.GoodReplies(id), Delivered);
      var rest := PassesMove(Apply(w, s), p, n, Next(v, id), m, u, id, k - 1);
      steps := [s] + rest;
      assert steps[1..] == rest;
    }
  }

  // --------------------------------------------------------------- the run

  const BORN := View(StateNone, NoId, false, false)
  const WAITING := View(StateProvisioning, NoId, true, false)

  /** A pool that can be set up. */
  predicate IsPlain(cfg: Config, p: Pool) {
    PoolFits(cfg, p) && !p.IsFallback() && p.spec.state == PoolAvailable && p.status.state == PoolAvailable
  }

  /** The pool is created, gets its finalizer, and a pass has listed it. */
  lemma PoolIsFounded(w: World, p: Pool) returns (steps: seq<Step>)
    requires Initial(w) && IsPlain(w.cfg, p)
    ensures LegalRun(w, steps)
    ensures var w' := Run(w, steps);
            && w'.cfg == w.cfg && HasDefault(w', p) && w'.db.cirs == map[] && w'.held == {} && w'.issued == {}
            && w'.pass.Listed? && MayCreate(w'.pass.pool) && w'.pass.pool.name == p.name
  {
    hide LegalRun, Run;
    var w1 := Apply(w, CreatePool(p));
    var w2 := Apply(w1, PassGet(p.name));
    var w3 := Apply(w2, PassAddFinalizer(Delivered));
    FinalizerIsAdded(w1, p);
    var w4 := Apply(w3, PassGet(p.name));
    RunOne(w, CreatePool(p));
    RunOne(w1, PassGet(p.name));
    RunOne(w2, PassAddFinalizer(Delivered));
    RunOne(w3, PassGet(p.name));
    RunOne(w4, PassList(true));
    RunThen(w, [CreatePool(p)], [PassGet(p.name)]);
    RunThen(w, [CreatePool(p)] + [PassGet(p.name)], [PassAddFinalizer(Delivered)]);
    RunThen(w, [CreatePool(p)] + [PassGet(p.name)] + [PassAddFinalizer(Delivered)], [PassGet(p.name)]);
    steps := [CreatePool(p)] + [PassGet(p.name)] + [PassAddFinalizer(Delivered)] + [PassGet(p.name)];
    RunThen(w, steps, [PassList(true)]);
    steps := steps + [PassList(true)];
  }

  /** The first pass over a new pool. */
  lemma FinalizerIsAdded(w: World, p: Pool)
    requires w.pass.Idle? && p.name in w.db.pools && !w.db.pools[p.name].deleting && w.db.pools[p.name].name == p.name
    requires !w.db.pools[p.name].finalizer
    ensures var w' := Apply(Apply(w, PassGet(p.name)), PassAddFinalizer(Delivered));
            && w'.pass.Idle? && w'.db.cirs == w.db.cirs && w'.held == w.held && w'.issued == w.issued && w'.cfg == w.cfg
            && p.name in w'.db.pools
            && w'.db.pools[p.name] == w.db.pools[p.name].(finalizer := true, version := w.db.next)
  {
  }

  lemma MembersAreBorn(w: World, p: Pool, a: string, b: string) returns (steps: seq<Step>)
    requires HasDefault(w, p) && w.db.cirs == map[] && a != b
    requires w.pass.Listed? && MayCreate(w.pass.pool) && w.pass.pool.name == p.name
    ensures LegalRun(w, steps)
    ensures var w' := Run(w, steps);
            && w'.cfg == w.cfg && HasDefault(w', p) && w'.held == w.held && w'.issued == w.issued
            && Seen(w', p, a, BORN) && Seen(w', p, b, BORN)
  {
    var w1 := Apply(w, PassCreate(a, Delivered));
    var w2 := Apply(w1, PassCreate(b, Delivered));
    hide LegalRun, Run;
    RunOne(w, PassCreate(a, Delivered));
    RunOne(w1, PassCreate(b, Delivered));
    RunThen(w, [PassCreate(a, Delivered)], [PassCreate(b, Delivered)]);
    steps := [PassCreate(a, Delivered)] + [PassCreate(b, Delivered)];
  }

  lemma DeletionIsAsked(w: World, p: Pool, n: string, v: View, m: string, u: View)
    requires HasDefault(w, p) && Seen(w, p, n, v) && Seen(w, p, m, u) && m != n && v.finalizer
    ensures var w' := Apply(w, Delete(n));
            && Legal(w, Delete(n)) && w'.cfg == w.cfg && HasDefault(w', p) && w'.held == w.held && w'.issued == w.issued
            && Seen(w', p, n, v.(deleting := true)) && Seen(w', p, m, u)
  {
  }

  /** From the empty system there is a run to where one member is to be deleted with
      its machine, and another is about to ask for one. */
  lemma TwoMembers(w: World, p: Pool, a: string, b: string, id: ResourceId) returns (steps: seq<Step>)
    requires Initial(w) && IsPlain(w.cfg, p) && a != b && IsMachine(id)
    ensures LegalRun(w, steps)
    ensures var w' := Run(w, steps);
            && w'.cfg == w.cfg && HasDefault(w', p) && id in w'.held
            && Seen(w', p, a, View(StateDelete, id, true, true))
            && Seen(w', p, b, WAITING)
  {
    hide Initial, LegalRun, Run, HasDefault, Seen, Apply, Legal, IsPlain;
    var founded := PoolIsFounded(w, p);
    var w1 := Run(w, founded);
    var born := MembersAreBorn(w1, p, a, b);
    var w2 := Run(w1, born);
    RunThen(w, founded, born);
    var toWaiting := PassesMove(w2, p, b, BORN, a, BORN, id, 2);
    var w3 := Run(w2, toWaiting);
    RunThen(w, founded + born, toWaiting);
    var toAvailable := PassesMove(w3, p, a, BORN, b, WAITING, id, 4);
    var w4 := Run(w3, toAvailable);
    RunThen(w, founded + born + toWaiting, toAvailable);
    var available := View(StateAvailable, id, true, false);
    DeletionIsAsked(w4, p, a, available, b, WAITING);
    RunOne(w4, Delete(a));
    var w5 := Apply(w4, Delete(a));
    RunThen(w, founded + born + toWaiting + toAvailable, [Delete(a)]);
    var toDelete := PassesMove(w5, p, a, available.(deleting := true), b, WAITING, id, 1);
    steps := founded + born + toWaiting + toAvailable + [Delete(a)];
    RunThen(w, steps, toDelete);
    steps := steps + toDelete;
  }

  // ----------------------------------------------------------- what comes of it

  /** A careless provider in a reachable world: after one lost write and one
      reissue, two objects name the same machine. */
  lemma SharedMachineIsReachable(w: World, p: Pool, a: string, b: string, id: ResourceId) returns (steps: seq<Step>)
    requires Initial(w) && w.cfg.reissues && IsPlain(w.cfg, p) && a != b && IsMachine(id)
    ensures LegalRun(w, steps)
    ensures var w' := Run(w, steps);
            && a in w'.db.cirs && b in w'.db.cirs
            && w'.db.cirs[a].status.resourceId == w'.db.cirs[b].status.resourceId == id
  {
    hide Inv, LegalRun, Run, Apply, Legal;
    var first := TwoMembers(w, p, a, b, id);
    var w1 := Run(w, first);
    InitialInv(w);
    RunKeeps(w, first);
    var more := Ledger.LostReleaseShares(w1, a, b);
    RunThen(w, first, more);
    steps := first + more;
  }

  /** A strict provider in a reachable world: one lost write blocks a member that
      is to be deleted, and so its pool, for ever. */
  lemma BlockedMemberIsReachable(w: World, p: Pool, a: string, b: string, id: ResourceId) returns (steps: seq<Step>)
    requires Initial(w) && w.cfg.Strict() && IsPlain(w.cfg, p) && a != b && IsMachine(id)
    ensures LegalRun(w, steps)
    ensures var w' := Run(w, steps);
            && a in w'.db.cirs && w'.db.cirs[a].spec.poolRef == p.name
            && Blocked(w', w'.db.cirs[a]) && !Drain.Stuck(w'.db.cirs[a])
  {
    hide Inv, LegalRun, Run, Legal;
    var first := TwoMembers(w, p, a, b, id);
    var w1 := Run(w, first);
    InitialInv(w);
    RunKeeps(w, first);
    var r := DrainRuns.GoodReplies(id);
    Ledger.ReleaseLost(w1, a, r);
    var s := Reconcile(a, r, Undelivered);
    RunOne(w1, s);
    RunThen(w, first, [s]);
    steps := first + [s];
  }
}
