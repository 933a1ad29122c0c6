/** What happens to one CIResource over its life, and monitors over it.

    A history is the list of the events of one object, oldest first. `Book`
    folds a history into the few facts that the safety properties speak about;
    the lemmas turn each `...Ok` flag of the fold into the property it stands
    for, stated over positions in the history. */
module Histories {
  import opened Api
  import opened CirFsm

  datatype Event =
    | Granted(at: Time)                                        // an acquire that answered with this object
    | Freed(at: Time)                                          // a release wrote Spec back to available
    | Expired(at: Time)                                        // the time-out wrote Spec back to available
    | Entered(from: CirState, to: CirState, id: ResourceId, at: Time)  // a committed status write
    | Cleaned(id: ResourceId)                                      // Clean succeeded
    | CleanConfirmed(id: ResourceId)                               // CleanCompleted answered true
    | Returned(id: ResourceId)                                     // Release succeeded or found nothing
    | Vanished                                                 // the server removed the object

  type History = seq<Event>

  /** What is fixed for a pool: its kind and how long a lease may last. */
  datatype Terms = Terms(fallback: bool, timeout: Time)

  /** What still has to be done to a machine after a tenant has had it. */
  datatype Debt = NoDebt | Owes(id: ResourceId) | Wiping(id: ResourceId) | Returning(id: ResourceId)

  /** The latest status write, and whether the writes so far walk the diagram. */
  datatype Walk = Walk(state: CirState, id: ResourceId, at: Time, ok: bool)

  datatype Lease = Lease(open: bool, ok: bool)

  datatype Tenants = Tenants(debt: Debt, ok: bool)

  datatype Loop = Loop(taken: bool, ok: bool)

  datatype Machines = Machines(kept: set<ResourceId>, gone: bool, ok: bool)

  datatype Book = Book(walk: Walk, lease: Lease, expiryOk: bool, tenants: Tenants, loop: Loop, machines: Machines)

  const EMPTY_BOOK :=
    Book(Walk(StateNone, NoId, 0, true), Lease(false, true), true, Tenants(NoDebt, true), Loop(false, true),
         Machines({}, false, true))

  predicate EndsLease(e: Event) {
    e.Freed? || e.Expired?
  }

  function NoteWalk(w: Walk, e: Event): Walk {
    match e
    case Entered(from, to, id, at) => Walk(to, id, at, w.ok && from == w.state && DiagramEdge(from, to))
    case _ => w
  }

  function NoteLease(l: Lease, e: Event): Lease {
    if e.Granted? then Lease(true, l.ok && !l.open)
    else if EndsLease(e) then Lease(false, l.ok)
    else l
  }

  predicate NoteExpiry(ok: bool, w: Walk, e: Event, t: Terms) {
    ok && (e.Expired? ==> w.state == StateInUse && e.at > w.at + t.timeout)
  }

  function EnterDebt(d: Debt, to: CirState, id: ResourceId): Debt {
    if to == StateInUse && IsMachine(id) then Owes(id)
    else if d.Returning? && id == FallbackId then NoDebt
    else d
  }

  /** A default pool settles a debt by cleaning, a fallback pool by giving the
      machine back and resetting the id. */
  function NoteTenants(n: Tenants, e: Event, t: Terms): Tenants {
    match e
    case Entered(_, to, id, _) =>
      Tenants(EnterDebt(n.debt, to, id), n.ok && (to == StateAvailable || to == StateInUse ==> n.debt == NoDebt))
    case Cleaned(id) => if !t.fallback && n.debt == Owes(id) then Tenants(Wiping(id), n.ok) else n
    case CleanConfirmed(id) => if n.debt == Wiping(id) then Tenants(NoDebt, n.ok) else n
    case Returned(id) => if t.fallback && n.debt == Owes(id) then Tenants(Returning(id), n.ok) else n
    case _ => n
  }

  predicate IsReprovisioning(e: Event) {
    e.Entered? && e.from == StateInUse && e.to == StateProvisioning
  }

  function NoteLoop(l: Loop, e: Event): Loop {
    if IsReprovisioning(e) then Loop(true, l.ok && !l.taken)
    else if EndsLease(e) then Loop(false, l.ok)
    else l
  }

  function NoteMachines(m: Machines, e: Event): Machines {
    match e
    case Entered(_, to, id, _) => if to == StateProvisioningWait then Machines(m.kept + {id}, m.gone, m.ok) else m
    case Returned(id) => Machines(m.kept - {id}, m.gone, m.ok)
    case Vanished => Machines(m.kept, true, m.ok && m.kept == {})
    case _ => m
  }

  function Note(b: Book, e: Event, t: Terms): Book {
    Book(NoteWalk(b.walk, e), NoteLease(b.lease, e), NoteExpiry(b.expiryOk, b.walk, e, t),
         NoteTenants(b.tenants, e, t), NoteLoop(b.loop, e), NoteMachines(b.machines, e))
  }

  function BookOf(h: History, t: Terms): Book {
    if h == [] then EMPTY_BOOK
    else Note(BookOf(h[..|h| - 1], t), h[|h| - 1], t)
  }

  function NoteAll(b: Book, es: seq<Event>, t: Terms): Book
    decreases |es|
  {
    if es == [] then b
    else NoteAll(Note(b, es[0], t), es[1..], t)
  }

  lemma NoteAllOne(b: Book, e: Event, t: Terms)
    ensures NoteAll(b, [e], t) == Note(b, e, t)
  {
    assert [e][1..] == [];
  }

  lemma {:induction false} BookOfAppend(h: History, es: seq<Event>, t: Terms)
    ensures BookOf(h + es, t) == NoteAll(BookOf(h, t), es, t)
    decreases |es|
  {
    if es == [] {
      assert h + es == h;
    } else {
      var h1 := h + [es[0]];
      assert h1[..|h1| - 1] == h;
      assert h + es == h1 + es[1..];
      BookOfAppend(h1, es[1..], t);
    }
  }

  lemma BookOfNext(h: History, t: Terms, j: nat)
    requires j < |h|
    ensures BookOf(h[..j + 1], t) == Note(BookOf(h[..j], t), h[j], t)
  {
    var upTo := h[..j + 1];
    assert upTo[..j] == h[..j];
  }

  /** A flag that is up now was up all along. */
  lemma {:induction false} FlagsOnlyFall(h: History, t: Terms, n: nat)
    requires n <= |h|
    ensures var b := BookOf(h, t);
            var b0 := BookOf(h[..n], t);
            && (b.walk.ok ==> b0.walk.ok) && (b.lease.ok ==> b0.lease.ok) && (b.expiryOk ==> b0.expiryOk)
            && (b.tenants.ok ==> b0.tenants.ok) && (b.loop.ok ==> b0.loop.ok)
            && (b.machines.ok ==> b0.machines.ok)
    decreases |h|
  {
    if n == |h| {
      assert h[..n] == h;
    } else {
      var front := h[..|h| - 1];
      assert front[..n] == h[..n];
      FlagsOnlyFall(front, t, n);
    }
  }

  // --------------------------------------------------------- lease exclusion

  ghost predicate EndedBetween(h: History, i: int, j: int) {
    exists k :: i < k < j && 0 <= k < |h| && EndsLease(h[k])
  }

  /** No two grants without the lease having ended in between. */
  ghost predicate LeaseExclusive(h: History) {
    forall i, j :: 0 <= i < j < |h| && h[i].Granted? && h[j].Granted? ==> EndedBetween(h, i, j)
  }

  lemma {:induction false} LeasedSince(h: History, t: Terms, i: int)
    requires 0 <= i < |h| && h[i].Granted?
    ensures BookOf(h, t).lease.open || EndedBetween(h, i, |h|)
    decreases |h|
  {
    var front := h[..|h| - 1];
    if i < |h| - 1 {
      LeasedSince(front, t, i);
      if EndedBetween(front, i, |front|) {
        var k :| i < k < |front| && EndsLease(front[k]);
        assert EndsLease(h[k]);
      } else if EndsLease(h[|h| - 1]) {
        assert EndedBetween(h, i, |h|);
      }
    }
  }

  lemma LeaseOkMeans(h: History, t: Terms)
    requires BookOf(h, t).lease.ok
    ensures LeaseExclusive(h)
  {
    forall i, j | 0 <= i < j < |h| && h[i].Granted? && h[j].Granted? ensures EndedBetween(h, i, j) {
      FlagsOnlyFall(h, t, j + 1);
      BookOfNext(h, t, j);
      LeasedSince(h[..j], t, i);
      var k :| i < k < j && EndsLease(h[..j][k]);
      assert EndsLease(h[k]);
    }
  }

  // --------------------------------------------------- clean between tenants

  predicate IsTenancy(e: Event) {
    e.Entered? && e.to == StateInUse && IsMachine(e.id)
  }

  predicate BecomesAvailable(e: Event) {
    e.Entered? && e.to == StateAvailable
  }

  /** Clean succeeded on this machine and later CleanCompleted answered true for it. */
  ghost predicate WipedBetween(h: History, i: int, j: int, id: ResourceId) {
    exists k, l :: i < k < l < j && 0 <= k && l < |h| && h[k] == Cleaned(id) && h[l] == CleanConfirmed(id)
  }

  predicate IsReset(e: Event) {
    e.Entered? && e.id == FallbackId
  }

  /** The machine was given back and afterwards the id was reset to the dummy. */
  ghost predicate ReturnedBetween(h: History, i: int, j: int, id: ResourceId) {
    exists k, l :: i < k < l < j && 0 <= k && l < |h| && h[k] == Returned(id) && IsReset(h[l])
  }

  ghost predicate SettledBetween(h: History, i: int, j: int, id: ResourceId, fallback: bool) {
    if fallback then ReturnedBetween(h, i, j, id) else WipedBetween(h, i, j, id)
  }

  ghost predicate CleanBetweenTenants(h: History, fallback: bool) {
    forall i, j :: 0 <= i < j < |h| && IsTenancy(h[i]) && BecomesAvailable(h[j]) ==>
                     SettledBetween(h, i, j, h[i].id, fallback)
  }

  /** The debt of a tenancy: settled, or still on the books with its progress. */
  ghost predicate OnTheBooks(h: History, i: int, id: ResourceId, d: Debt, fallback: bool) {
    || d == Owes(id)
    || (!fallback && d == Wiping(id) && exists k :: i < k < |h| && 0 <= k && h[k] == Cleaned(id))
    || (fallback && d == Returning(id) && exists k :: i < k < |h| && 0 <= k && h[k] == Returned(id))
  }

  lemma {:induction false} DebtSince(h: History, t: Terms, i: int)
    requires 0 <= i < |h| && IsTenancy(h[i]) && BookOf(h, t).tenants.ok
    ensures SettledBetween(h, i, |h|, h[i].id, t.fallback)
         || OnTheBooks(h, i, h[i].id, BookOf(h, t).tenants.debt, t.fallback)
    decreases |h|
  {
    var n := |h| - 1;
    var front := h[..n];
    var id := h[i].id;
    if i < n {
      FlagsOnlyFall(h, t, n);
      DebtSince(front, t, i);
      if SettledBetween(front, i, n, id, t.fallback) {
        SettledGrows(h, i, n, id, t.fallback);
      } else {
        DebtStep(h, t, i);
      }
    }
  }

  lemma SettledGrows(h: History, i: int, n: nat, id: ResourceId, fallback: bool)
    requires n <= |h| && 0 <= i && SettledBetween(h[..n], i, n, id, fallback)
    ensures SettledBetween(h, i, n, id, fallback) && SettledBetween(h, i, |h|, id, fallback)
  {
    if fallback {
      var k, l :| i < k < l < n && h[..n][k] == Returned(id) && IsReset(h[..n][l]);
      assert h[k] == Returned(id) && IsReset(h[l]);
    } else {
      var k, l :| i < k < l < n && h[..n][k] == Cleaned(id) && h[..n][l] == CleanConfirmed(id);
      assert h[k] == Cleaned(id) && h[l] == CleanConfirmed(id);
    }
  }

  lemma DebtStep(h: History, t: Terms, i: int)
    requires 0 <= i < |h| - 1 && IsTenancy(h[i]) && BookOf(h, t).tenants.ok
    requires OnTheBooks(h[..|h| - 1], i, h[i].id, BookOf(h[..|h| - 1], t).tenants.debt, t.fallback)
    ensures SettledBetween(h, i, |h|, h[i].id, t.fallback)
         || OnTheBooks(h, i, h[i].id, BookOf(h, t).tenants.debt, t.fallback)
  {
    var n := |h| - 1;
    var front := h[..n];
    var id := h[i].id;
    var d0 := BookOf(front, t).tenants.debt;
    var e := h[n];
    if d0 == Wiping(id) {
      var k :| i < k < n && front[k] == Cleaned(id);
      assert h[k] == Cleaned(id);
      if e == CleanConfirmed(id) {
        assert WipedBetween(h, i, |h|, id);
      }
    } else if d0 == Returning(id) {
      var k :| i < k < n && front[k] == Returned(id);
      assert h[k] == Returned(id);
      if e.Entered? && IsReset(e) {
        assert ReturnedBetween(h, i, |h|, id);
      }
    } else if e == Cleaned(id) || e == Returned(id) {
      assert i < n < |h|;
    }
  }

  lemma CleanOkMeans(h: History, t: Terms)
    requires BookOf(h, t).tenants.ok
    ensures CleanBetweenTenants(h, t.fallback)
  {
    forall i, j | 0 <= i < j < |h| && IsTenancy(h[i]) && BecomesAvailable(h[j])
      ensures SettledBetween(h, i, j, h[i].id, t.fallback)
    {
      FlagsOnlyFall(h, t, j + 1);
      FlagsOnlyFall(h, t, j);
      BookOfNext(h, t, j);
      assert h[..j][i] == h[i];
      DebtSince(h[..j], t, i);
      SettledGrows(h, i, j, h[i].id, t.fallback);
    }
  }

  // ------------------------------------------- re-provisioning and retention

  /** Within one lease a fallback resource goes back to provisioning at most once. */
  ghost predicate ReprovisionedOncePerLease(h: History) {
    forall i, j :: 0 <= i < j < |h| && IsReprovisioning(h[i]) && IsReprovisioning(h[j]) ==> EndedBetween(h, i, j)
  }

  lemma {:induction false} ReprovisionedSince(h: History, t: Terms, i: int)
    requires 0 <= i < |h| && IsReprovisioning(h[i])
    ensures BookOf(h, t).loop.taken || EndedBetween(h, i, |h|)
    decreases |h|
  {
    var front := h[..|h| - 1];
    if i < |h| - 1 {
      ReprovisionedSince(front, t, i);
      if EndedBetween(front, i, |front|) {
        var k :| i < k < |front| && EndsLease(front[k]);
        assert EndsLease(h[k]);
      } else if EndsLease(h[|h| - 1]) {
        assert EndedBetween(h, i, |h|);
      }
    }
  }

  lemma ReprovisionOkMeans(h: History, t: Terms)
    requires BookOf(h, t).loop.ok
    ensures ReprovisionedOncePerLease(h)
  {
    forall i, j | 0 <= i < j < |h| && IsReprovisioning(h[i]) && IsReprovisioning(h[j])
      ensures EndedBetween(h, i, j)
    {
      FlagsOnlyFall(h, t, j + 1);
      BookOfNext(h, t, j);
      ReprovisionedSince(h[..j], t, i);
      var k :| i < k < j && EndsLease(h[..j][k]);
      assert EndsLease(h[k]);
    }
  }

  predicate RecordsMachine(e: Event) {
    e.Entered? && e.to == StateProvisioningWait
  }

  ghost predicate GivenBackBetween(h: History, i: int, j: int, id: ResourceId) {
    exists k :: i < k < j && 0 <= k < |h| && h[k] == Returned(id)
  }

  /** Every machine an object ever recorded was given back before it vanished. */
  ghost predicate VanishesEmptyHanded(h: History) {
    forall i, j :: 0 <= i < j < |h| && RecordsMachine(h[i]) && h[j].Vanished? ==> GivenBackBetween(h, i, j, h[i].id)
  }

  lemma {:induction false} KeptSince(h: History, t: Terms, i: int)
    requires 0 <= i < |h| && RecordsMachine(h[i])
    ensures h[i].id in BookOf(h, t).machines.kept || GivenBackBetween(h, i, |h|, h[i].id)
    decreases |h|
  {
    var front := h[..|h| - 1];
    if i < |h| - 1 {
      KeptSince(front, t, i);
      if GivenBackBetween(front, i, |front|, h[i].id) {
        var k :| i < k < |front| && front[k] == Returned(h[i].id);
        assert h[k] == Returned(h[i].id);
      } else if h[|h| - 1] == Returned(h[i].id) {
        assert GivenBackBetween(h, i, |h|, h[i].id);
      }
    }
  }

  lemma KeepOkMeans(h: History, t: Terms)
    requires BookOf(h, t).machines.ok
    ensures VanishesEmptyHanded(h)
  {
    forall i, j | 0 <= i < j < |h| && RecordsMachine(h[i]) && h[j].Vanished?
      ensures GivenBackBetween(h, i, j, h[i].id)
    {
      FlagsOnlyFall(h, t, j + 1);
      BookOfNext(h, t, j);
      KeptSince(h[..j], t, i);
      var k :| i < k < j && h[..j][k] == Returned(h[i].id);
      assert h[k] == Returned(h[i].id);
    }
  }

  // ----------------------------------------------------- diagram and expiry

  /** The status writes at `i` and `j` have no status write between them. */
  ghost predicate NextEntered(h: History, i: int, j: int) {
    && 0 <= i < j < |h| && h[i].Entered? && h[j].Entered?
    && forall k :: i < k < j ==> !h[k].Entered?
  }

  /** The life of an object is a walk through the diagram that starts in None. */
  ghost predicate WalksDiagram(h: History) {
    && (forall i :: 0 <= i < |h| && h[i].Entered? ==> DiagramEdge(h[i].from, h[i].to))
    && (forall i, j :: NextEntered(h, i, j) ==> h[j].from == h[i].to)
    && (forall j :: 0 <= j < |h| && h[j].Entered? && (forall k :: 0 <= k < j ==> !h[k].Entered?) ==>
                      h[j].from == StateNone)
  }

  /** The book's state, id and time are those of the latest status write. */
  lemma {:induction false} BookStateIsLatest(h: History, t: Terms, i: int)
    requires -1 <= i < |h| && (i >= 0 ==> h[i].Entered?)
    requires forall k :: i < k < |h| ==> !h[k].Entered?
    ensures var b := BookOf(h, t);
            if i >= 0 then b.walk.state == h[i].to && b.walk.id == h[i].id && b.walk.at == h[i].at
            else b.walk.state == StateNone
    decreases |h|
  {
    if |h| > 0 && i < |h| - 1 {
      BookStateIsLatest(h[..|h| - 1], t, i);
    }
  }

  lemma WalkOkMeans(h: History, t: Terms)
    requires BookOf(h, t).walk.ok
    ensures WalksDiagram(h)
  {
    forall j | 0 <= j < |h| && h[j].Entered?
      ensures DiagramEdge(h[j].from, h[j].to)
      ensures h[j].from == BookOf(h[..j], t).walk.state
    {
      FlagsOnlyFall(h, t, j + 1);
      BookOfNext(h, t, j);
    }
    forall i, j | NextEntered(h, i, j) ensures h[j].from == h[i].to {
      BookStateIsLatest(h[..j], t, i);
    }
    forall j | 0 <= j < |h| && h[j].Entered? && (forall k :: 0 <= k < j ==> !h[k].Entered?)
      ensures h[j].from == StateNone
    {
      BookStateIsLatest(h[..j], t, -1);
    }
  }

  /** A time-out ends only a lease whose object has been in use, since its
      latest status write, for strictly longer than the pool allows. */
  ghost predicate ExpiresLate(h: History, timeout: Time) {
    forall i, j :: 0 <= i < j < |h| && h[j].Expired? && h[i].Entered?
                   && (forall k :: i < k < j ==> !h[k].Entered?) ==>
                     h[i].to == StateInUse && h[j].at > h[i].at + timeout
  }

  lemma ExpiryAt(h: History, t: Terms, i: int, j: int)
    requires BookOf(h, t).expiryOk
    requires -1 <= i < j < |h| && h[j].Expired? && (i >= 0 ==> h[i].Entered?)
    requires forall k :: i < k < j ==> !h[k].Entered?
    ensures i >= 0 && h[i].to == StateInUse && h[j].at > h[i].at + t.timeout
  {
    FlagsOnlyFall(h, t, j + 1);
    BookOfNext(h, t, j);
    BookStateIsLatest(h[..j], t, i);
  }

  lemma ExpiryOkMeans(h: History, t: Terms)
    requires BookOf(h, t).expiryOk
    ensures ExpiresLate(h, t.timeout)
    ensures forall j :: 0 <= j < |h| && h[j].Expired? ==> exists i :: 0 <= i < j && h[i].Entered?
  {
    forall i, j | 0 <= i < j < |h| && h[j].Expired? && h[i].Entered? && (forall k :: i < k < j ==> !h[k].Entered?)
      ensures h[i].to == StateInUse && h[j].at > h[i].at + t.timeout
    {
      ExpiryAt(h, t, i, j);
    }
    forall j | 0 <= j < |h| && h[j].Expired? ensures exists i :: 0 <= i < j && h[i].Entered? {
      if forall i :: 0 <= i < j ==> !h[i].Entered? {
        ExpiryAt(h, t, -1, j);
      }
    }
  }
}
