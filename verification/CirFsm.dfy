/** The CIResource state machine.

    The first half gives, for one object and one set of provider answers, what
    a pass of the machine does (`Handle`); lemmas state what that amounts to.
    The second half is the machine itself, which changes the object in place,
    looks events up in its registered table and raises dirty flags. */
module CirFsm {
  import opened Api
  import opened Providers

  const RETRY_DELAY: Time := 60
  const PROVISIONING_WAIT_DELAY: Time := 30
  const POOL_RETRY_DELAY: Time := 60

  datatype FsmEvent =
    | Init
    | OnProvisioningRequested
    | FallbackAvailable
    | OnProvisioningComplete
    | OnMaintenance
    | Acquired
    | OnDelete
    | OnMaintenanceComplete
    | Released
    | FallbackProvisioning
    | OnCleaningRequested
    | OnCleaningComplete

  datatype FsmError = ProviderUnavailable | ProviderFailed | StateNotFound | EventNotFound | NoStateSelected

  /** What one pass leaves in memory, what it asks to be written, the provider
      calls it made, and what it returns. */
  datatype Verdict = Verdict(
    cir: Cir,
    resourceDirty: bool,
    statusDirty: bool,
    calls: seq<Call>,
    delay: Time,
    err: Option<FsmError>)

  // ------------------------------------------------------ table and diagram

  /** The states registered with a handler. */
  predicate IsRegistered(s: CirState) {
    !s.StateError? && !s.StateOther?
  }

  /** Where an event leads from a state; None when the state does not know it. */
  function Target(s: CirState, e: FsmEvent): Option<CirState> {
    match s
    case StateNone => if e == Init then Some(StateProvisioning) else None
    case StateProvisioning =>
      if e == OnProvisioningRequested then Some(StateProvisioningWait)
      else if e == FallbackAvailable then Some(StateAvailable)
      else None
    case StateProvisioningWait => if e == OnProvisioningComplete then Some(StateAvailable) else None
    case StateAvailable =>
      if e == OnMaintenance then Some(StateMaintenance)
      else if e == Acquired then Some(StateInUse)
      else if e == OnDelete then Some(StateDelete)
      else None
    case StateMaintenance =>
      if e == OnMaintenanceComplete then Some(StateAvailable)
      else if e == OnDelete then Some(StateDelete)
      else None
    case StateInUse =>
      if e == Released then Some(StateCleaning)
      else if e == FallbackProvisioning then Some(StateProvisioning)
      else None
    case StateCleaning => if e == OnCleaningRequested then Some(StateCleaningWait) else None
    case StateCleaningWait => if e == OnCleaningComplete then Some(StateAvailable) else None
    case _ => None
  }

  /** The edges drawn in the state diagram of the documentation. */
  predicate DiagramEdge(from: CirState, to: CirState) {
    match from
    case StateNone => to == StateProvisioning
    case StateProvisioning => to == StateProvisioningWait || to == StateAvailable
    case StateProvisioningWait => to == StateProvisioning || to == StateAvailable
    case StateAvailable => to == StateMaintenance || to == StateDelete || to == StateInUse
    case StateMaintenance => to == StateAvailable || to == StateDelete
    case StateInUse => to == StateCleaning || to == StateProvisioning
    case StateCleaning => to == StateCleaningWait
    case StateCleaningWait => to == StateCleaning || to == StateAvailable
    case _ => false
  }

  // ---------------------------------------------------------------- handlers

  function Wait(c: Cir, calls: seq<Call>, delay: Time): Verdict {
    Verdict(c, false, false, calls, delay, None)
  }

  function Fail(c: Cir, calls: seq<Call>, delay: Time): Verdict {
    Verdict(c, false, false, calls, delay, Some(ProviderFailed))
  }

  function SaveMain(c: Cir, calls: seq<Call>): Verdict {
    Verdict(c, true, false, calls, RETRY_DELAY, None)
  }

  function Trigger(c: Cir, event: FsmEvent, calls: seq<Call>): Verdict {
    match Target(c.status.state, event)
    case None => Verdict(c, false, false, calls, 0, Some(EventNotFound))
    case Some(dst) => Verdict(c.(status := c.status.(state := dst)), false, true, calls, RETRY_DELAY, None)
  }

  function WithFinalizer(c: Cir, present: bool): Cir {
    c.(meta := c.meta.(finalizer := present))
  }

  function WithSpecState(c: Cir, s: CirState): Cir {
    c.(spec := c.spec.(state := s))
  }

  function HandleNone(c: Cir): Verdict {
    if !c.meta.deleting && !c.meta.finalizer then
      SaveMain(WithFinalizer(c, true), [])
    else
      Trigger(c, Init, [])
  }

  function HandleProvisioning(c: Cir, p: Pool, r: Replies): Verdict {
    if p.IsFallback() && c.spec.state != StateInUse then
      Trigger(c.(status := c.status.(resourceId := FallbackId)), FallbackAvailable, [])
    else
      var calls := [Call.Acquire(p.spec.size, p.name, p.spec.rtype)];
      match r.acquire
      case Failed(_) => Fail(c, calls, 0)
      case Ok(res) =>
        Trigger(c.(status := c.status.(resourceId := res.id, providerInfo := p.spec.providerInfo)),
                OnProvisioningRequested, calls)
  }

  function HandleProvisioningWait(c: Cir, r: Replies): Verdict {
    var calls := [Call.AcquireCompleted(c.status.resourceId)];
    match r.acquireCompleted
    case Failed(_) => Fail(c, calls, 0)
    case Ok(done) =>
      if done.ready then
        var c' := c.(status := c.status.(address := done.resource.address, extra := done.resource.metadata));
        Trigger(c', OnProvisioningComplete, calls).(delay := 0, err := None)
      else
        Wait(c, calls, PROVISIONING_WAIT_DELAY)
  }

  function HandleAvailable(c: Cir): Verdict {
    if c.meta.deleting then Trigger(c, OnDelete, [])
    else if c.spec.state == c.status.state then Wait(c, [], RETRY_DELAY)
    else if c.spec.state == StateMaintenance then Trigger(c, OnMaintenance, [])
    else if c.spec.state == StateInUse then Trigger(c, Acquired, [])
    else Wait(c, [], RETRY_DELAY)
  }

  function HandleMaintenance(c: Cir): Verdict {
    if c.meta.deleting then Trigger(c, OnDelete, [])
    else if c.spec.state == c.status.state then Wait(c, [], RETRY_DELAY)
    else if c.spec.state == StateAvailable then Trigger(c, OnMaintenanceComplete, [])
    else Wait(c, [], RETRY_DELAY)
  }

  /** A requested fallback resource that has no machine yet. */
  predicate NeedsMachine(c: Cir, fallback: bool) {
    fallback && c.status.address == "" && c.status.resourceId == FallbackId
  }

  /** `time.Since` on a nil stamp would panic; the value used then is irrelevant,
      `Lifecycle` shows the stamp is always there. */
  function Held(c: Cir, now: Time): Time {
    match c.status.lastUpdated
    case Some(t) => now - t
    case None => 0
  }

  function HandleInUse(c: Cir, p: Pool, now: Time): Verdict {
    if c.spec.state == StateAvailable then Trigger(c, Released, [])
    else if c.spec.state == StateInUse then
      if NeedsMachine(c, p.IsFallback()) then Trigger(c, FallbackProvisioning, [])
      else if Held(c, now) > p.spec.timeout then SaveMain(WithSpecState(c, StateAvailable), [])
      else Wait(c, [], RETRY_DELAY)
    else Wait(c, [], RETRY_DELAY)
  }

  function Emptied(c: Cir): Cir {
    c.(status := c.status.(address := "", extra := "", providerInfo := "", resourceId := FallbackId))
  }

  function HandleCleaning(c: Cir, p: Pool, r: Replies): Verdict {
    var id := c.status.resourceId;
    if p.IsFallback() then
      if id == FallbackId then Trigger(Emptied(c), OnCleaningRequested, [])
      else if ReleaseDone(r.release) then Trigger(Emptied(c), OnCleaningRequested, [Call.Release(id)])
      else Fail(c, [Call.Release(id)], POOL_RETRY_DELAY)
    else if r.clean.Failed? then Fail(c, [Call.Clean(id)], POOL_RETRY_DELAY)
    else Trigger(c, OnCleaningRequested, [Call.Clean(id)])
  }

  function HandleCleaningWait(c: Cir, p: Pool, r: Replies): Verdict {
    if p.IsFallback() then Trigger(c, OnCleaningComplete, [])
    else
      var calls := [Call.CleanCompleted(c.status.resourceId)];
      match r.cleanCompleted
      case Failed(_) => Fail(c, calls, POOL_RETRY_DELAY)
      case Ok(true) => Trigger(c, OnCleaningComplete, calls)
      case Ok(false) => Wait(c, calls, PROVISIONING_WAIT_DELAY)
  }

  function HandleDelete(c: Cir, p: Pool, r: Replies): Verdict {
    var id := c.status.resourceId;
    if !c.meta.finalizer then Wait(c, [], POOL_RETRY_DELAY)
    else if p.IsFallback() && id == FallbackId then SaveMain(WithFinalizer(c, false), [])
    else if !ReleaseDone(r.release) then Fail(c, [Call.Release(id)], POOL_RETRY_DELAY)
    else SaveMain(WithFinalizer(c, false), [Call.Release(id)])
  }

  function Handle(c: Cir, p: Pool, r: Replies, now: Time): Verdict {
    if !r.connects then Verdict(c, false, false, [], 0, Some(ProviderUnavailable))
    else
      match c.status.state
      case StateNone => HandleNone(c)
      case StateProvisioning => HandleProvisioning(c, p, r)
      case StateProvisioningWait => HandleProvisioningWait(c, r)
      case StateAvailable => HandleAvailable(c)
      case StateMaintenance => HandleMaintenance(c)
      case StateInUse => HandleInUse(c, p, now)
      case StateCleaning => HandleCleaning(c, p, r)
      case StateCleaningWait => HandleCleaningWait(c, p, r)
      case StateDelete => HandleDelete(c, p, r)
      case StateError => Verdict(c, false, false, [], 0, Some(StateNotFound))
      case StateOther(_) => Verdict(c, false, false, [], 0, Some(StateNotFound))
  }

  // ------------------------------------------------- what one pass amounts to

  /** No registered edge is missing from the documented diagram. The diagram
      draws two retry edges that the table does not have. */
  lemma TableFollowsDiagram(s: CirState, e: FsmEvent)
    requires Target(s, e).Some?
    ensures DiagramEdge(s, Target(s, e).value) && IsRegistered(s) && IsRegistered(Target(s, e).value)
  {
  }

  /** A lookup fails only for a state without a handler; no event is ever
      missing from the state that triggers it. A failed pass writes nothing. */
  lemma LookupsSucceed(c: Cir, p: Pool, r: Replies, now: Time)
    ensures var v := Handle(c, p, r, now);
            && (v.err == Some(StateNotFound) <==> r.connects && !IsRegistered(c.status.state))
            && v.err != Some(EventNotFound) && v.err != Some(NoStateSelected)
            && (v.err.Some? ==> v.cir == c && !v.resourceDirty && !v.statusDirty)
            && |v.calls| <= 1
  {
  }

  /** At most one half of the object is marked for writing, and the other half
      has not changed in memory, so persisting one half loses nothing. */
  predicate OneHalf(c: Cir, v: Verdict) {
    && !(v.resourceDirty && v.statusDirty)
    && (v.resourceDirty ==> v.cir.status == c.status)
    && (v.statusDirty ==> v.cir.spec == c.spec && v.cir.meta == c.meta)
    && (!v.resourceDirty && !v.statusDirty ==> v.cir == c)
  }

  lemma NoneMarksOneHalf(c: Cir)
    requires c.status.state == StateNone
    ensures OneHalf(c, HandleNone(c))
  {
  }

  lemma ProvisioningMarksOneHalf(c: Cir, p: Pool, r: Replies)
    requires c.status.state == StateProvisioning
    ensures OneHalf(c, HandleProvisioning(c, p, r))
  {
  }

  lemma ProvisioningWaitMarksOneHalf(c: Cir, r: Replies)
    requires c.status.state == StateProvisioningWait
    ensures OneHalf(c, HandleProvisioningWait(c, r))
  {
  }

  lemma AvailableMarksOneHalf(c: Cir)
    requires c.status.state == StateAvailable
    ensures OneHalf(c, HandleAvailable(c))
  {
  }

  lemma MaintenanceMarksOneHalf(c: Cir)
    requires c.status.state == StateMaintenance
    ensures OneHalf(c, HandleMaintenance(c))
  {
  }

  lemma InUseMarksOneHalf(c: Cir, p: Pool, now: Time)
    requires c.status.state == StateInUse
    ensures OneHalf(c, HandleInUse(c, p, now))
  {
  }

  lemma CleaningMarksOneHalf(c: Cir, p: Pool, r: Replies)
    requires c.status.state == StateCleaning
    ensures OneHalf(c, HandleCleaning(c, p, r))
  {
  }

  lemma CleaningWaitMarksOneHalf(c: Cir, p: Pool, r: Replies)
    requires c.status.state == StateCleaningWait
    ensures OneHalf(c, HandleCleaningWait(c, p, r))
  {
  }

  lemma DeleteMarksOneHalf(c: Cir, p: Pool, r: Replies)
    requires c.status.state == StateDelete
    ensures OneHalf(c, HandleDelete(c, p, r))
  {
  }

  lemma PersistedHalfIsAll(c: Cir, p: Pool, r: Replies, now: Time)
    ensures OneHalf(c, Handle(c, p, r, now))
  {
    hide OneHalf;
    if !r.connects || !IsRegistered(c.status.state) {
      NothingMarksNothing(c, p, r, now);
    } else {
      match c.status.state {
        case StateNone => NoneMarksOneHalf(c);
        case StateProvisioning => ProvisioningMarksOneHalf(c, p, r);
        case StateProvisioningWait => ProvisioningWaitMarksOneHalf(c, r);
        case StateAvailable => AvailableMarksOneHalf(c);
        case StateMaintenance => MaintenanceMarksOneHalf(c);
        case StateInUse => InUseMarksOneHalf(c, p, now);
        case StateCleaning => CleaningMarksOneHalf(c, p, r);
        case StateCleaningWait => CleaningWaitMarksOneHalf(c, p, r);
        case StateDelete => DeleteMarksOneHalf(c, p, r);
      }
    }
  }

  lemma NothingMarksNothing(c: Cir, p: Pool, r: Replies, now: Time)
    requires !r.connects || !IsRegistered(c.status.state)
    ensures OneHalf(c, Handle(c, p, r, now))
  {
  }

  /** A status write is exactly one edge of the diagram, and nothing else moves
      the state; so a machine that starts in a registered state stays in one. */
  lemma StatusWriteIsOneEdge(c: Cir, p: Pool, r: Replies, now: Time)
    ensures var v := Handle(c, p, r, now);
            && (v.statusDirty ==> DiagramEdge(c.status.state, v.cir.status.state))
            && (v.statusDirty <==> v.cir.status.state != c.status.state)
            && (IsRegistered(c.status.state) ==> IsRegistered(v.cir.status.state))
  {
  }

  /** When a pass asks for a spec or metadata write, and which: the finalizer goes on
      a new object, unless it is to go, and comes off only once the machine has been
      given back; and the only spec write ends an expired lease. */
  lemma MainWrites(c: Cir, p: Pool, r: Replies, now: Time)
    ensures var v := Handle(c, p, r, now);
            var born := c.status.state == StateNone && !c.meta.deleting && !c.meta.finalizer;
            var empty := p.IsFallback() && c.status.resourceId == FallbackId;
            var gone := c.status.state == StateDelete && c.meta.finalizer && (empty || ReleaseDone(r.release));
            var expired := c.status.state == StateInUse && c.spec.state == StateInUse
                           && Held(c, now) > p.spec.timeout && !NeedsMachine(c, p.IsFallback());
            && (v.resourceDirty <==> r.connects && (born || gone || expired))
            && (v.resourceDirty && born ==> v.cir == WithFinalizer(c, true))
            && (v.resourceDirty && gone ==>
                  v.cir == WithFinalizer(c, false)
                  && v.calls == if empty then [] else [Call.Release(c.status.resourceId)])
            && (v.resourceDirty && expired ==> v.cir == WithSpecState(c, StateAvailable))
  {
  }

  /** A pass that reaches the provider moves the object to `to`. */
  predicate Enters(c: Cir, p: Pool, r: Replies, now: Time, to: CirState) {
    var v := Handle(c, p, r, now);
    r.connects && v.statusDirty && v.cir.status.state == to
  }

  /** The machine seen from where it goes: exactly when each state is entered, by any
      object, whatever the provider answers. First, on the way to a machine. */
  lemma WhenProvisioningIsEntered(c: Cir, p: Pool, r: Replies, now: Time)
    requires r.connects
    ensures var from, wanted, fallback := c.status.state, c.spec.state, p.IsFallback();
            && (Enters(c, p, r, now, StateProvisioning) <==>
                  || (from == StateNone && (c.meta.deleting || c.meta.finalizer))
                  || (from == StateInUse && wanted == StateInUse && NeedsMachine(c, fallback)))
            && (Enters(c, p, r, now, StateProvisioningWait) <==>
                  from == StateProvisioning && (fallback ==> wanted == StateInUse) && r.acquire.Ok?)
  {
  }

  /** Second, to rest or to use. */
  lemma WhenRestIsEntered(c: Cir, p: Pool, r: Replies, now: Time)
    requires r.connects
    ensures var from, wanted, fallback := c.status.state, c.spec.state, p.IsFallback();
            && (Enters(c, p, r, now, StateAvailable) <==>
                  || (from == StateProvisioning && fallback && wanted != StateInUse)
                  || (from == StateProvisioningWait && r.acquireCompleted.Ok? && r.acquireCompleted.value.ready)
                  || (from == StateMaintenance && !c.meta.deleting && wanted == StateAvailable)
                  || (from == StateCleaningWait && (fallback || r.cleanCompleted == Ok(true))))
            && (Enters(c, p, r, now, StateMaintenance) <==>
                  from == StateAvailable && !c.meta.deleting && wanted == StateMaintenance)
            && (Enters(c, p, r, now, StateInUse) <==>
                  from == StateAvailable && !c.meta.deleting && wanted == StateInUse)
  {
  }

  /** Third, to the end of a lease or of the object. */
  lemma WhenTheEndIsEntered(c: Cir, p: Pool, r: Replies, now: Time)
    requires r.connects
    ensures var from, fallback := c.status.state, p.IsFallback();
            && (Enters(c, p, r, now, StateCleaning) <==> from == StateInUse && c.spec.state == StateAvailable)
            && (Enters(c, p, r, now, StateCleaningWait) <==>
                  from == StateCleaning
                  && (if fallback then c.status.resourceId == FallbackId || ReleaseDone(r.release) else r.clean.Ok?))
            && (Enters(c, p, r, now, StateDelete) <==>
                  c.meta.deleting && (from == StateAvailable || from == StateMaintenance))
  {
  }

  // ------------------------------------------------------------- the machine

  datatype FsmTransition = FsmTransition(event: FsmEvent, dst: CirState)

  const REGISTERED := [StateNone, StateProvisioning, StateProvisioningWait, StateAvailable, StateMaintenance,
                       StateInUse, StateCleaning, StateCleaningWait, StateDelete]

  /** What each state is registered with. */
  function Registration(s: CirState): seq<FsmTransition> {
    match s
    case StateNone => [FsmTransition(Init, StateProvisioning)]
    case StateProvisioning => [FsmTransition(OnProvisioningRequested, StateProvisioningWait),
                               FsmTransition(FallbackAvailable, StateAvailable)]
    case StateProvisioningWait => [FsmTransition(OnProvisioningComplete, StateAvailable)]
    case StateAvailable => [FsmTransition(OnMaintenance, StateMaintenance),
                            FsmTransition(Acquired, StateInUse),
                            FsmTransition(OnDelete, StateDelete)]
    case StateMaintenance => [FsmTransition(OnMaintenanceComplete, StateAvailable),
                              FsmTransition(OnDelete, StateDelete)]
    case StateInUse => [FsmTransition(Released, StateCleaning),
                        FsmTransition(FallbackProvisioning, StateProvisioning)]
    case StateCleaning => [FsmTransition(OnCleaningRequested, StateCleaningWait)]
    case StateCleaningWait => [FsmTransition(OnCleaningComplete, StateAvailable)]
    case _ => []
  }

  lemma RegisteredStates(s: CirState)
    ensures s in REGISTERED <==> IsRegistered(s)
  {
    assert IsRegistered(s) ==>
        || s == REGISTERED[0] || s == REGISTERED[1] || s == REGISTERED[2] || s == REGISTERED[3] || s == REGISTERED[4]
        || s == REGISTERED[5] || s == REGISTERED[6] || s == REGISTERED[7] || s == REGISTERED[8];
  }

  ghost predicate Lists(ts: seq<FsmTransition>, e: FsmEvent) {
    exists k :: 0 <= k < |ts| && ts[k].event == e
  }

  /** The registered lists hold the table's entries and no others. */
  lemma RegistrationIsTable(s: CirState, e: FsmEvent)
    ensures Lists(Registration(s), e) <==> Target(s, e).Some?
    ensures forall k :: 0 <= k < |Registration(s)| && Registration(s)[k].event == e ==>
                          Target(s, e) == Some(Registration(s)[k].dst)
  {
    var ts := Registration(s);
    assert Target(s, e).Some? ==> (|ts| > 0 && ts[0].event == e) || (|ts| > 1 && ts[1].event == e)
                                  || (|ts| > 2 && ts[2].event == e);
  }

  /** A row of the registered map and the table answer every lookup alike. */
  ghost predicate IsRow(s: CirState, row: map<FsmEvent, CirState>) {
    forall e :: (e in row <==> Target(s, e).Some?) && (e in row ==> Target(s, e) == Some(row[e]))
  }

  /** `k` is the last place where `ts` lists the event. */
  ghost predicate IsLast(ts: seq<FsmTransition>, e: FsmEvent, k: int) {
    0 <= k < |ts| && ts[k].event == e && forall j :: k < j < |ts| ==> ts[j].event != e
  }

  /** The row of any list of transitions: exactly the listed events, each with
      the target it was last given. */
  ghost predicate IsRowOf(ts: seq<FsmTransition>, row: map<FsmEvent, CirState>) {
    && (forall e :: e in row <==> Lists(ts, e))
    && (forall e, k :: IsLast(ts, e, k) ==> e in row && row[e] == ts[k].dst)
  }

  lemma {:induction false} ListedHasLast(ts: seq<FsmTransition>, e: FsmEvent) returns (k: int)
    requires Lists(ts, e)
    ensures IsLast(ts, e, k)
  {
    k := |ts| - 1;
    if ts[k].event != e {
      var j :| 0 <= j < |ts| && ts[j].event == e;
      assert ts[..k][j].event == e;
      k := ListedHasLast(ts[..k], e);
      assert forall i :: 0 <= i < |ts| - 1 ==> ts[..|ts| - 1][i] == ts[i];
    }
  }

  lemma ListsMore(ts: seq<FsmTransition>, t: FsmTransition)
    ensures forall e :: Lists(ts + [t], e) <==> Lists(ts, e) || e == t.event
    ensures forall e, k :: IsLast(ts + [t], e, k) <==>
                             if e == t.event then k == |ts| else IsLast(ts, e, k)
  {
    var more := ts + [t];
    assert more[|ts|] == t && forall j :: 0 <= j < |ts| ==> more[j] == ts[j];
    forall e ensures Lists(more, e) <==> Lists(ts, e) || e == t.event {
      if Lists(ts, e) {
        var j :| 0 <= j < |ts| && ts[j].event == e;
        assert more[j].event == e;
      }
    }
  }

  lemma RegisteredRow(s: CirState, row: map<FsmEvent, CirState>)
    requires IsRowOf(Registration(s), row)
    ensures IsRow(s, row)
  {
    hide Registration, Target;
    forall e ensures (e in row <==> Target(s, e).Some?) && (e in row ==> Target(s, e) == Some(row[e])) {
      RegistrationIsTable(s, e);
      if e in row {
        var k := ListedHasLast(Registration(s), e);
      }
    }
  }

  class CIResource {
    var meta: Meta
    var spec: CirSpec
    var status: CirStatus

    constructor (c: Cir)
      ensures Value() == c
    {
      meta, spec, status := c.meta, c.spec, c.status;
    }

    function Value(): Cir
      reads this
    {
      Cir(meta, spec, status)
    }
  }

  class CIResourceFSM {
    var states: map<CirState, map<FsmEvent, CirState>>
    var currentState: Option<map<FsmEvent, CirState>>
    var cir: CIResource?
    var resourceDirty: bool
    var statusDirty: bool

    ghost predicate TableBuilt()
      reads this
    {
      forall s :: (s in states <==> IsRegistered(s)) && (s in states ==> IsRow(s, states[s]))
    }

    constructor ()
      ensures TableBuilt() && currentState == None && !resourceDirty && !statusDirty
      ensures cir == null
    {
      states := map[];
      currentState := None;
      cir := null;
      resourceDirty, statusDirty := false, false;
      new;
      for i := 0 to |REGISTERED|
        invariant forall s :: s in states <==> s in REGISTERED[..i]
        invariant forall s :: s in states ==> IsRow(s, states[s])
        invariant currentState == None && cir == null && !resourceDirty && !statusDirty
      {
        State(REGISTERED[i], Registration(REGISTERED[i]));
        RegisteredRow(REGISTERED[i], states[REGISTERED[i]]);
      }
      assert REGISTERED[..|REGISTERED|] == REGISTERED;
      forall s ensures s in states <==> IsRegistered(s) {
        RegisteredStates(s);
      }
    }

    static method BuildRow(transitions: seq<FsmTransition>) returns (row: map<FsmEvent, CirState>)
      ensures IsRowOf(transitions, row)
    {
      row := map[];
      for i := 0 to |transitions|
        invariant forall e :: e in row <==> Lists(transitions[..i], e)
        invariant forall e, k :: IsLast(transitions[..i], e, k) ==> e in row && row[e] == transitions[k].dst
      {
        ListsMore(transitions[..i], transitions[i]);
        assert transitions[..i + 1] == transitions[..i] + [transitions[i]];
        row := row[transitions[i].event := transitions[i].dst];
      }
      assert transitions[..|transitions|] == transitions;
    }

    /** Registers a state; one registered before under the same id is replaced. */
    method State(id: CirState, transitions: seq<FsmTransition>)
      modifies this`states
      ensures states.Keys == old(states).Keys + {id}
      ensures forall s :: s in old(states) && s != id ==> states[s] == old(states)[s]
      ensures IsRowOf(transitions, states[id])
    {
      var row := BuildRow(transitions);
      states := states[id := row];
    }

    method TriggerEvent(name: FsmEvent) returns (delay: Time, err: Option<FsmError>)
      requires currentState.Some? ==> cir != null
      modifies this`statusDirty, if cir == null then {} else {cir}
      ensures currentState.None? ==> err == Some(NoStateSelected)
      ensures currentState.Some? && name !in currentState.value ==> err == Some(EventNotFound)
      ensures err.Some? ==> delay == 0 && statusDirty == old(statusDirty)
      ensures cir != null ==> cir.meta == old(cir.meta) && cir.spec == old(cir.spec)
      ensures err.Some? && cir != null ==> cir.status == old(cir.status)
      ensures currentState.Some? && name in currentState.value ==>
                && err == None && delay == RETRY_DELAY && statusDirty
                && cir.status == old(cir.status).(state := currentState.value[name])
    {
      if currentState.None? {
        return 0, Some(NoStateSelected);
      }
      if name !in currentState.value {
        return 0, Some(EventNotFound);
      }
      cir.status := cir.status.(state := currentState.value[name]);
      statusDirty := true;
      return RETRY_DELAY, None;
    }

    method UpdateResourceOnly() returns (delay: Time, err: Option<FsmError>)
      modifies this`resourceDirty
      ensures resourceDirty && delay == RETRY_DELAY && err == None
    {
      resourceDirty := true;
      return RETRY_DELAY, None;
    }

    /** The machine has selected the state of `obj` and changed nothing yet. */
    ghost predicate Selected(obj: CIResource)
      reads this, obj
    {
      cir == obj && currentState.Some? && IsRow(obj.status.state, currentState.value) && !resourceDirty && !statusDirty
    }

    /** The machine, the object and the call list are as verdict `v` says. */
    ghost predicate Shows(obj: CIResource, provider: Provider, callsBefore: seq<Call>, v: Verdict,
                          delay: Time, err: Option<FsmError>)
      reads this, obj, provider
    {
      && obj.Value() == v.cir
      && resourceDirty == v.resourceDirty
      && statusDirty == v.statusDirty
      && provider.calls == callsBefore + v.calls
      && delay == v.delay
      && err == v.err
    }

    method HandleStateNone(obj: CIResource, provider: Provider) returns (delay: Time, err: Option<FsmError>)
      requires Selected(obj) && obj.status.state == StateNone
      modifies this`resourceDirty, this`statusDirty, obj
      ensures Shows(obj, provider, old(provider.calls), HandleNone(old(obj.Value())), delay, err)
    {
      if !obj.meta.deleting {
        if !obj.meta.finalizer {
          obj.meta := obj.meta.(finalizer := true);
          delay, err := UpdateResourceOnly();
          return;
        }
      }
      delay, err := TriggerEvent(Init);
    }

    method HandleStateProvisioning(obj: CIResource, pool: Pool, provider: Provider)
      returns (delay: Time, err: Option<FsmError>)
      requires Selected(obj) && obj.status.state == StateProvisioning
      modifies this`resourceDirty, this`statusDirty, obj, provider
      ensures Shows(obj, provider, old(provider.calls),
                    HandleProvisioning(old(obj.Value()), pool, provider.replies), delay, err)
    {
      if pool.IsFallback() && obj.spec.state != StateInUse {
        obj.status := obj.status.(resourceId := FallbackId);
        delay, err := TriggerEvent(FallbackAvailable);
        return;
      }
      var resource := provider.Acquire(pool.spec.size, pool.name, pool.spec.rtype);
      if resource.Failed? {
        return 0, Some(ProviderFailed);
      }
      obj.status := obj.status.(resourceId := resource.value.id);
      obj.status := obj.status.(providerInfo := pool.spec.providerInfo);
      delay, err := TriggerEvent(OnProvisioningRequested);
    }

    method HandleStateProvisioningWait(obj: CIResource, provider: Provider)
      returns (delay: Time, err: Option<FsmError>)
      requires Selected(obj) && obj.status.state == StateProvisioningWait
      modifies this`resourceDirty, this`statusDirty, obj, provider
      ensures Shows(obj, provider, old(provider.calls),
                    HandleProvisioningWait(old(obj.Value()), provider.replies), delay, err)
    {
      var reply := provider.AcquireCompleted(obj.status.resourceId);
      if reply.Failed? {
        return 0, Some(ProviderFailed);
      }
      if reply.value.ready {
        obj.status := obj.status.(address := reply.value.resource.address);
        obj.status := obj.status.(extra := reply.value.resource.metadata);
        var _, _ := TriggerEvent(OnProvisioningComplete);
        return 0, None;
      }
      return PROVISIONING_WAIT_DELAY, None;
    }

    method HandleStateAvailable(obj: CIResource, provider: Provider) returns (delay: Time, err: Option<FsmError>)
      requires Selected(obj) && obj.status.state == StateAvailable
      modifies this`resourceDirty, this`statusDirty, obj
      ensures Shows(obj, provider, old(provider.calls), HandleAvailable(old(obj.Value())), delay, err)
    {
      if obj.meta.deleting {
        delay, err := TriggerEvent(OnDelete);
        return;
      }
      if obj.spec.state == obj.status.state {
        return RETRY_DELAY, None;
      }
      match obj.spec.state {
        case StateMaintenance =>
          delay, err := TriggerEvent(OnMaintenance);
          return;
        case StateInUse =>
          delay, err := TriggerEvent(Acquired);
          return;
        case _ =>
      }
      return RETRY_DELAY, None;
    }

    method HandleStateMaintenance(obj: CIResource, provider: Provider)
      returns (delay: Time, err: Option<FsmError>)
      requires Selected(obj) && obj.status.state == StateMaintenance
      modifies this`resourceDirty, this`statusDirty, obj
      ensures Shows(obj, provider, old(provider.calls), HandleMaintenance(old(obj.Value())), delay, err)
    {
      if obj.meta.deleting {
        delay, err := TriggerEvent(OnDelete);
        return;
      }
      if obj.spec.state == obj.status.state {
        return RETRY_DELAY, None;
      }
      if obj.spec.state == StateAvailable {
        delay, err := TriggerEvent(OnMaintenanceComplete);
        return;
      }
      return RETRY_DELAY, None;
    }

    method HandleStateInUse(obj: CIResource, pool: Pool, provider: Provider, now: Time)
      returns (delay: Time, err: Option<FsmError>)
      requires Selected(obj) && obj.status.state == StateInUse
      modifies this`resourceDirty, this`statusDirty, obj
      ensures Shows(obj, provider, old(provider.calls), HandleInUse(old(obj.Value()), pool, now), delay, err)
    {
      match obj.spec.state {
        case StateAvailable =>
          delay, err := TriggerEvent(Released);
          return;
        case StateInUse =>
          if pool.IsFallback() && obj.status.address == "" && obj.status.resourceId == FallbackId {
            delay, err := TriggerEvent(FallbackProvisioning);
            return;
          }
          if Held(obj.Value(), now) > pool.spec.timeout {
            obj.spec := obj.spec.(state := StateAvailable);
            delay, err := UpdateResourceOnly();
            return;
          }
        case _ =>
      }
      return RETRY_DELAY, None;
    }

    method HandleStateCleaning(obj: CIResource, pool: Pool, provider: Provider)
      returns (delay: Time, err: Option<FsmError>)
      requires Selected(obj) && obj.status.state == StateCleaning
      modifies this`resourceDirty, this`statusDirty, obj, provider
      ensures Shows(obj, provider, old(provider.calls),
                    HandleCleaning(old(obj.Value()), pool, provider.replies), delay, err)
    {
      if pool.IsFallback() {
        if obj.status.resourceId != FallbackId {
          var released := provider.Release(obj.status.resourceId);
          if released.Failed? && !released.notFound {
            return POOL_RETRY_DELAY, Some(ProviderFailed);
          }
        }
        obj.status := obj.status.(address := "");
        obj.status := obj.status.(extra := "");
        obj.status := obj.status.(providerInfo := "");
        obj.status := obj.status.(resourceId := FallbackId);
      } else {
        var cleaned := provider.Clean(obj.status.resourceId);
        if cleaned.Failed? {
          return POOL_RETRY_DELAY, Some(ProviderFailed);
        }
      }
      delay, err := TriggerEvent(OnCleaningRequested);
    }

    method HandleStateCleaningWait(obj: CIResource, pool: Pool, provider: Provider)
      returns (delay: Time, err: Option<FsmError>)
      requires Selected(obj) && obj.status.state == StateCleaningWait
      modifies this`resourceDirty, this`statusDirty, obj, provider
      ensures Shows(obj, provider, old(provider.calls),
                    HandleCleaningWait(old(obj.Value()), pool, provider.replies), delay, err)
    {
      if pool.IsFallback() {
        delay, err := TriggerEvent(OnCleaningComplete);
        return;
      }
      var isCleaned := provider.CleanCompleted(obj.status.resourceId);
      if isCleaned.Failed? {
        return POOL_RETRY_DELAY, Some(ProviderFailed);
      }
      if isCleaned.value {
        delay, err := TriggerEvent(OnCleaningComplete);
        return;
      }
      return PROVISIONING_WAIT_DELAY, None;
    }

    method HandleStateDelete(obj: CIResource, pool: Pool, provider: Provider)
      returns (delay: Time, err: Option<FsmError>)
      requires Selected(obj) && obj.status.state == StateDelete
      modifies this`resourceDirty, this`statusDirty, obj, provider
      ensures Shows(obj, provider, old(provider.calls),
                    HandleDelete(old(obj.Value()), pool, provider.replies), delay, err)
    {
      if obj.meta.finalizer {
        if pool.IsFallback() && obj.status.resourceId == FallbackId {
          obj.meta := obj.meta.(finalizer := false);
          delay, err := UpdateResourceOnly();
          return;
        }
        var released := provider.Release(obj.status.resourceId);
        if released.Failed? {
          if !released.notFound {
            return POOL_RETRY_DELAY, Some(ProviderFailed);
          }
        }
        obj.meta := obj.meta.(finalizer := false);
        delay, err := UpdateResourceOnly();
        return;
      }
      return POOL_RETRY_DELAY, None;
    }

    /** One pass over `obj`, on a machine that has just been built. */
    method Process(obj: CIResource, pool: Pool, provider: Provider, now: Time)
      returns (isDirty: bool, isStatusDirty: bool, delay: Time, err: Option<FsmError>)
      requires TableBuilt() && !resourceDirty && !statusDirty
      modifies this, obj, provider
      ensures Shows(obj, provider, old(provider.calls),
                    Handle(old(obj.Value()), pool, provider.replies, now), delay, err)
      ensures isDirty == resourceDirty && isStatusDirty == statusDirty
    {
      if !provider.replies.connects {
        return false, false, 0, Some(ProviderUnavailable);
      }
      if obj.status.state !in states {
        return false, false, 0, Some(StateNotFound);
      }
      currentState := Some(states[obj.status.state]);
      cir := obj;
      match obj.status.state {
        case StateNone => delay, err := HandleStateNone(obj, provider);
        case StateProvisioning => delay, err := HandleStateProvisioning(obj, pool, provider);
        case StateProvisioningWait => delay, err := HandleStateProvisioningWait(obj, provider);
        case StateAvailable => delay, err := HandleStateAvailable(obj, provider);
        case StateMaintenance => delay, err := HandleStateMaintenance(obj, provider);
        case StateInUse => delay, err := HandleStateInUse(obj, pool, provider, now);
        case StateCleaning => delay, err := HandleStateCleaning(obj, pool, provider);
        case StateCleaningWait => delay, err := HandleStateCleaningWait(obj, pool, provider);
        case StateDelete => delay, err := HandleStateDelete(obj, pool, provider);
        case _ => assert false;
      }
      return resourceDirty, statusDirty, delay, err;
    }
  }
}
