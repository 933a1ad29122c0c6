/** The Equinix provider: a device is made only while fewer than the pool's size
    carry the pool's tag, in the first metro that will have it. */
module Equinix {
  import opened Api
  import opened Providers

  datatype DeviceState = Active | Broken | Pending

  datatype Device = Device(id: string, tags: seq<string>, state: DeviceState, ip: string)

  /** What one Create comes to. `MadeUnheard` makes a device and yet reports an error. */
  datatype Attempt = Refused | Made(id: string) | MadeUnheard(id: string)

  // --------------------------------------------------------------- counting

  function Times(tags: seq<string>, pool: string): nat {
    if tags == [] then 0
    else Times(tags[..|tags| - 1], pool) + if tags[|tags| - 1] == pool then 1 else 0
  }

  /** The guard's count: every occurrence of the tag, over all devices. */
  function TagCount(devices: seq<Device>, pool: string): nat {
    if devices == [] then 0
    else TagCount(devices[..|devices| - 1], pool) + Times(devices[|devices| - 1].tags, pool)
  }

  /** The number of devices that carry the tag. */
  function Tagged(devices: seq<Device>, pool: string): nat {
    if devices == [] then 0
    else Tagged(devices[..|devices| - 1], pool) + if pool in devices[|devices| - 1].tags then 1 else 0
  }

  lemma {:induction false} TimesCountsMembers(tags: seq<string>, pool: string)
    ensures pool in tags <==> Times(tags, pool) > 0
  {
    if tags != [] {
      TimesCountsMembers(tags[..|tags| - 1], pool);
      assert tags == tags[..|tags| - 1] + [tags[|tags| - 1]];
    }
  }

  lemma {:induction false} GuardCountsEnough(devices: seq<Device>, pool: string)
    ensures Tagged(devices, pool) <= TagCount(devices, pool)
  {
    if devices != [] {
      GuardCountsEnough(devices[..|devices| - 1], pool);
      TimesCountsMembers(devices[|devices| - 1].tags, pool);
    }
  }

  /** No device carries a tag twice; what Acquire makes carries one tag. */
  predicate TaggedOnce(devices: seq<Device>) {
    forall i :: 0 <= i < |devices| ==> OnceEach(devices[i].tags)
  }

  predicate OnceEach(tags: seq<string>) {
    forall i, j :: 0 <= i < j < |tags| ==> tags[i] != tags[j]
  }

  lemma {:induction false} TimesAtMostOnce(tags: seq<string>, pool: string)
    requires OnceEach(tags)
    ensures Times(tags, pool) == if pool in tags then 1 else 0
  {
    if tags != [] {
      var front := tags[..|tags| - 1];
      TimesAtMostOnce(front, pool);
      assert tags == front + [tags[|tags| - 1]];
      assert forall i :: 0 <= i < |front| ==> front[i] == tags[i] != tags[|tags| - 1];
    }
  }

  /** Then the guard counts the tagged devices exactly, and no others. */
  lemma {:induction false} GuardCountsExactly(devices: seq<Device>, pool: string)
    requires TaggedOnce(devices)
    ensures TagCount(devices, pool) == Tagged(devices, pool)
  {
    if devices != [] {
      GuardCountsExactly(devices[..|devices| - 1], pool);
      TimesAtMostOnce(devices[|devices| - 1].tags, pool);
    }
  }

  // -------------------------------------------------------------- placement

  datatype Placed = Placed(devices: seq<Device>, id: Option<string>)

  function NewDevice(id: string, pool: string): Device {
    Device(id, [pool], Pending, "")
  }

  /** What the metros from `k` on come to. */
  function Place(devices: seq<Device>, metros: nat, k: nat, pool: string, attempts: nat -> Attempt): Placed
    decreases metros - k
  {
    if k >= metros then Placed(devices, None)
    else
      match attempts(k)
      case Refused => Place(devices, metros, k + 1, pool, attempts)
      case MadeUnheard(id) => Place(devices + [NewDevice(id, pool)], metros, k + 1, pool, attempts)
      case Made(id) => Placed(devices + [NewDevice(id, pool)], Some(id))
  }

  /** Acquire, when List works (`lists`) and the creations come to `attempts`. */
  function Acquiring(devices: seq<Device>, metros: nat, size: int, pool: string, lists: bool,
                     attempts: nat -> Attempt): Placed
  {
    if !lists || TagCount(devices, pool) >= size then Placed(devices, None)
    else Place(devices, metros, 0, pool, attempts)
  }

  function Without(devices: seq<Device>, id: string): seq<Device> {
    if devices == [] then []
    else
      var front := Without(devices[..|devices| - 1], id);
      if devices[|devices| - 1].id == id then front else front + [devices[|devices| - 1]]
  }

  function Find(devices: seq<Device>, id: string): Option<Device> {
    if devices == [] then None
    else if devices[0].id == id then Some(devices[0])
    else Find(devices[1..], id)
  }

  /** A device is found exactly when one of that id is there. */
  lemma {:induction false} FindsTheDevice(devices: seq<Device>, id: string)
    ensures Find(devices, id).Some? <==> exists d :: d in devices && d.id == id
    ensures Find(devices, id).Some? ==> Find(devices, id).value in devices && Find(devices, id).value.id == id
  {
    if devices != [] {
      FindsTheDevice(devices[1..], id);
      assert devices == [devices[0]] + devices[1..];
    }
  }

  // ------------------------------------------------------ service and provider

  /** The remote project. `works` and `attempt` say what a request comes to. */
  class DeviceService {
    var devices: seq<Device>

    constructor ()
      ensures devices == []
    {
      devices := [];
    }

    method Create(pool: string, attempt: Attempt) returns (made: Option<string>)
      modifies this
      ensures made == if attempt.Made? then Some(attempt.id) else None
      ensures devices == if attempt.Refused? then old(devices) else old(devices) + [NewDevice(attempt.id, pool)]
    {
      if !attempt.Refused? {
        devices := devices + [NewDevice(attempt.id, pool)];
      }
      made := if attempt.Made? then Some(attempt.id) else None;
    }

    method Delete(id: string, works: bool) returns (done: bool)
      modifies this
      ensures done == (works && Find(old(devices), id).Some?)
      ensures devices == if works then Without(old(devices), id) else old(devices)
    {
      done := works && Find(devices, id).Some?;
      if works {
        devices := Without(devices, id);
      }
    }
  }

  class EquinixProvider {
    const client: DeviceService
    const metros: seq<string>

    constructor (client: DeviceService, metros: seq<string>)
      ensures this.client == client && this.metros == metros
    {
      this.client, this.metros := client, metros;
    }

    method Acquire(poolSize: int, poolName: string, poolType: string, lists: bool, attempts: nat -> Attempt)
      returns (r: Reply<Resource>)
      modifies client
      ensures var placed := Acquiring(old(client.devices), |metros|, poolSize, poolName, lists, attempts);
              && client.devices == placed.devices
              && r == (match placed.id
                       case Some(id) => Ok(Resource(IdOf(id), "", ""))
                       case None => Reply.Failed(false))
    {
      if !lists {
        return Reply.Failed(false);
      }
      var deviceList := client.devices;
      var count: nat := 0;
      for i := 0 to |deviceList|
        invariant count == TagCount(deviceList[..i], poolName)
      {
        var tags := deviceList[i].tags;
        assert deviceList[..i + 1][..i] == deviceList[..i];
        for j := 0 to |tags|
          invariant count == TagCount(deviceList[..i], poolName) + Times(tags[..j], poolName)
        {
          assert tags[..j + 1][..j] == tags[..j];
          if tags[j] == poolName {
            count := count + 1;
          }
        }
        assert tags[..|tags|] == tags;
      }
      assert deviceList[..|deviceList|] == deviceList;
      if count >= poolSize {
        return Reply.Failed(false);
      }
      for k := 0 to |metros|
        invariant Place(client.devices, |metros|, k, poolName, attempts) ==
                    Place(deviceList, |metros|, 0, poolName, attempts)
      {
        var device := client.Create(poolName, attempts(k));
        if device.None? {
          continue;
        }
        return Ok(Resource(IdOf(device.value), "", ""));
      }
      return Reply.Failed(false);
    }

    /** Ready is an active device, not ready one that is pending; a failed device, an
        unknown one and a failed request are errors. */
    method AcquireCompleted(id: string, works: bool) returns (r: Reply<Completion>)
      ensures var d := Find(client.devices, id);
              && (r.Ok? && r.value.ready <==> works && d.Some? && d.value.state == Active)
              && (r.Ok? && !r.value.ready <==> works && d.Some? && d.value.state == Pending)
              && (r.Ok? ==> r.value.resource == Resource(IdOf(id), if r.value.ready then d.value.ip else "", ""))
              && (r.Failed? ==> !r.notFound)
    {
      var device := Find(client.devices, id);
      if !works || device.None? {
        return Reply.Failed(false);
      }
      if device.value.state == Active {
        return Ok(Completion(true, Resource(IdOf(id), device.value.ip, "")));
      }
      if device.value.state == Broken {
        return Reply.Failed(false);
      }
      return Ok(Completion(false, Resource(IdOf(id), "", "")));
    }

    method CleanCompleted(id: string, works: bool) returns (r: Reply<bool>)
      ensures var d := Find(client.devices, id);
              && (r == Ok(true) <==> works && d.Some? && d.value.state == Active)
              && (r == Ok(false) <==> works && d.Some? && d.value.state == Pending)
              && (r.Failed? ==> !r.notFound)
    {
      var completed := AcquireCompleted(id, works);
      match completed {
        case Ok(c) => return Ok(c.ready);
        case Failed(notFound) => return Reply.Failed(notFound);
      }
    }

    /** An error is never `ResourceNotFoundError`, also when the device is gone. */
    method Release(id: string, works: bool) returns (r: Reply<()>)
      modifies client
      ensures client.devices == if works then Without(old(client.devices), id) else old(client.devices)
      ensures r == ReleaseAnswer(old(client.devices), id, works)
    {
      var done := client.Delete(id, works);
      r := if done then Ok(()) else Reply.Failed(false);
    }
  }

  // ---------------------------------------------------------- the device cap

  /** What happens to the project over time. Whether the caller kept the id that
      an Acquire returned or lost it makes no difference here. */
  datatype Op =
    | OpAcquire(size: int, pool: string, lists: bool, attempts: nat -> Attempt)
    | OpRelease(id: string, works: bool)
    | OpProgress(id: string, state: DeviceState, ip: string)

  function Progressed(devices: seq<Device>, id: string, state: DeviceState, ip: string): seq<Device> {
    seq(|devices|, i requires 0 <= i < |devices| =>
      if devices[i].id == id then devices[i].(state := state, ip := ip) else devices[i])
  }

  function Do(devices: seq<Device>, metros: nat, op: Op): seq<Device> {
    match op
    case OpAcquire(size, pool, lists, attempts) => Acquiring(devices, metros, size, pool, lists, attempts).devices
    case OpRelease(id, works) => if works then Without(devices, id) else devices
    case OpProgress(id, state, ip) => Progressed(devices, id, state, ip)
  }

  function DoAll(devices: seq<Device>, metros: nat, ops: seq<Op>): seq<Device> {
    if ops == [] then devices else Do(DoAll(devices, metros, ops[..|ops| - 1]), metros, ops[|ops| - 1])
  }

  /** The largest size that an Acquire for the pool has used. */
  function Largest(ops: seq<Op>, pool: string): nat {
    if ops == [] then 0
    else
      var rest := Largest(ops[..|ops| - 1], pool);
      var op := ops[|ops| - 1];
      if op.OpAcquire? && op.pool == pool && op.size > rest then op.size else rest
  }

  /** How many devices the metros from `k` on leave behind: those made behind an
      error, up to and including the first that was made and heard of. */
  function Left(attempts: nat -> Attempt, k: nat, metros: nat): (n: nat)
    ensures k <= metros ==> n <= metros - k
    decreases metros - k
  {
    if k >= metros then 0
    else
      match attempts(k)
      case Refused => Left(attempts, k + 1, metros)
      case MadeUnheard(_) => 1 + Left(attempts, k + 1, metros)
      case Made(_) => 1
  }

  /** What one Acquire leaves over the one device it may. */
  function Surplus(attempts: nat -> Attempt, metros: nat): nat {
    if Left(attempts, 0, metros) == 0 then 0 else Left(attempts, 0, metros) - 1
  }

  /** The largest surplus of one Acquire for the pool. */
  function MostSurplus(ops: seq<Op>, pool: string, metros: nat): nat {
    if ops == [] then 0
    else
      var rest := MostSurplus(ops[..|ops| - 1], pool, metros);
      var op := ops[|ops| - 1];
      if op.OpAcquire? && op.pool == pool && Surplus(op.attempts, metros) > rest then Surplus(op.attempts, metros)
      else rest
  }

  lemma TaggedSnoc(devices: seq<Device>, d: Device, pool: string)
    ensures Tagged(devices + [d], pool) == Tagged(devices, pool) + if pool in d.tags then 1 else 0
  {
    assert (devices + [d])[..|devices|] == devices;
  }

  lemma {:induction false} PlaceLeaves(devices: seq<Device>, metros: nat, k: nat, pool: string,
                                       attempts: nat -> Attempt, tag: string)
    ensures Tagged(Place(devices, metros, k, pool, attempts).devices, tag) ==
              Tagged(devices, tag) + if tag == pool then Left(attempts, k, metros) else 0
    decreases metros - k
  {
    if k < metros {
      match attempts(k)
      case Refused => PlaceLeaves(devices, metros, k + 1, pool, attempts, tag);
      case MadeUnheard(id) =>
        TaggedSnoc(devices, NewDevice(id, pool), tag);
        PlaceLeaves(devices + [NewDevice(id, pool)], metros, k + 1, pool, attempts, tag);
      case Made(id) => TaggedSnoc(devices, NewDevice(id, pool), tag);
    }
  }

  lemma {:induction false} WithoutAddsNone(devices: seq<Device>, id: string, pool: string)
    ensures Tagged(Without(devices, id), pool) <= Tagged(devices, pool)
  {
    if devices != [] {
      WithoutAddsNone(devices[..|devices| - 1], id, pool);
      TaggedSnoc(Without(devices[..|devices| - 1], id), devices[|devices| - 1], pool);
    }
  }

  lemma {:induction false} ProgressKeepsTags(devices: seq<Device>, id: string, state: DeviceState, ip: string,
                                             pool: string)
    ensures Tagged(Progressed(devices, id, state, ip), pool) == Tagged(devices, pool)
  {
    if devices != [] {
      var front := devices[..|devices| - 1];
      ProgressKeepsTags(front, id, state, ip, pool);
      var after := Progressed(devices, id, state, ip);
      assert after[..|after| - 1] == Progressed(front, id, state, ip);
    }
  }

  /** However many of the acquired devices were lost track of, and over whatever
      time, the devices that carry the tag of a pool never outnumber the largest
      size ever used for it by more than the surplus of a single Acquire. */
  lemma {:induction false} DeviceCap(metros: nat, ops: seq<Op>, pool: string)
    ensures Tagged(DoAll([], metros, ops), pool) <= Largest(ops, pool) + MostSurplus(ops, pool, metros)
  {
    if ops != [] {
      DeviceCap(metros, ops[..|ops| - 1], pool);
      var devices := DoAll([], metros, ops[..|ops| - 1]);
      match ops[|ops| - 1]
      case OpAcquire(size, p, lists, attempts) =>
        GuardCountsEnough(devices, pool);
        PlaceLeaves(devices, metros, 0, p, attempts, pool);
      case OpRelease(id, works) => WithoutAddsNone(devices, id, pool);
      case OpProgress(id, state, ip) => ProgressKeepsTags(devices, id, state, ip, pool);
    }
  }

  /** A failed creation makes no device. */
  ghost predicate Honest(ops: seq<Op>) {
    forall i :: 0 <= i < |ops| ==> IsHonest(ops[i])
  }

  ghost predicate IsHonest(op: Op) {
    op.OpAcquire? ==> forall k :: !op.attempts(k).MadeUnheard?
  }

  lemma {:induction false} HonestLeavesOne(attempts: nat -> Attempt, k: nat, metros: nat)
    requires forall i :: !attempts(i).MadeUnheard?
    ensures Left(attempts, k, metros) <= 1
    decreases metros - k
  {
    if k < metros {
      HonestLeavesOne(attempts, k + 1, metros);
    }
  }

  lemma {:induction false} SurplusIsSmall(metros: nat, ops: seq<Op>, pool: string)
    ensures MostSurplus(ops, pool, metros) <= if metros == 0 then 0 else metros - 1
    ensures Honest(ops) ==> MostSurplus(ops, pool, metros) == 0
  {
    if ops != [] {
      var op := ops[|ops| - 1];
      SurplusIsSmall(metros, ops[..|ops| - 1], pool);
      if op.OpAcquire? && IsHonest(op) {
        HonestLeavesOne(op.attempts, 0, metros);
      }
    }
  }

  /** So there is a cap whatever the service does: the largest size and one less
      than the number of metros; and where failed creations make no device, the
      largest size itself. */
  lemma DeviceCapHolds(metros: nat, ops: seq<Op>, pool: string)
    ensures Tagged(DoAll([], metros, ops), pool) <= Largest(ops, pool) + (if metros == 0 then 0 else metros - 1)
    ensures Honest(ops) ==> Tagged(DoAll([], metros, ops), pool) <= Largest(ops, pool)
  {
    DeviceCap(metros, ops, pool);
    SurplusIsSmall(metros, ops, pool);
  }

  lemma {:induction false} AllUnheard(k: nat, metros: nat, attempts: nat -> Attempt)
    requires k <= metros && forall i :: attempts(i).MadeUnheard?
    ensures Left(attempts, k, metros) == metros - k
    decreases metros - k
  {
    if k < metros {
      AllUnheard(k + 1, metros, attempts);
    }
  }

  /** Neither cap can be lower: one Acquire of a pool of size one may leave as many
      devices as there are metros. */
  lemma UnheardReachesCap(metros: nat, pool: string, attempts: nat -> Attempt)
    requires forall i :: attempts(i).MadeUnheard?
    ensures var ops := [OpAcquire(1, pool, true, attempts)];
            && Tagged(DoAll([], metros, ops), pool) == metros
            && (metros > 0 ==> Tagged(DoAll([], metros, ops), pool) == Largest(ops, pool) + (metros - 1))
  {
    AllUnheard(0, metros, attempts);
    PlaceLeaves([], metros, 0, pool, attempts, pool);
    var op := OpAcquire(1, pool, true, attempts);
    assert [op][..0] == [];
    assert DoAll([], metros, [op]) == Do([], metros, op);
    assert Largest([op], pool) == 1;
  }

  /** The device comes from the first metro that answers with success, also when
      creations before it left devices behind errors; none is returned exactly when
      no metro answers so. What was there stays, what is returned comes last. */
  lemma {:induction false} FirstMetroWins(devices: seq<Device>, metros: nat, k: nat, pool: string,
                                          attempts: nat -> Attempt)
    requires k <= metros
    ensures var placed := Place(devices, metros, k, pool, attempts);
            && (placed.id.None? <==> forall i :: k <= i < metros ==> !attempts(i).Made?)
            && |placed.devices| == |devices| + Left(attempts, k, metros)
            && placed.devices[..|devices|] == devices
            && (placed.id.Some? ==>
                  && |placed.devices| > |devices|
                  && placed.devices[|placed.devices| - 1] == NewDevice(placed.id.value, pool)
                  && exists i :: k <= i < metros && IsFirstMade(attempts, k, i, placed.id.value))
    decreases metros - k
  {
    if k < metros {
      match attempts(k)
      case Refused =>
        FirstMetroWins(devices, metros, k + 1, pool, attempts);
        LaterIsFirst(attempts, k, k + 1, metros, Place(devices, metros, k + 1, pool, attempts).id);
      case MadeUnheard(id) =>
        var more := devices + [NewDevice(id, pool)];
        FirstMetroWins(more, metros, k + 1, pool, attempts);
        LaterIsFirst(attempts, k, k + 1, metros, Place(more, metros, k + 1, pool, attempts).id);
        assert more[..|devices|] == devices;
      case Made(id) =>
        assert IsFirstMade(attempts, k, k, id);
    }
  }

  predicate IsFirstMade(attempts: nat -> Attempt, k: nat, i: nat, id: string) {
    attempts(i) == Made(id) && forall j :: k <= j < i ==> !attempts(j).Made?
  }

  lemma LaterIsFirst(attempts: nat -> Attempt, k: nat, next: nat, metros: nat, id: Option<string>)
    requires !attempts(k).Made? && next == k + 1
    requires id.Some? ==> exists i :: next <= i < metros && IsFirstMade(attempts, next, i, id.value)
    ensures id.Some? ==> exists i :: k <= i < metros && IsFirstMade(attempts, k, i, id.value)
  {
    if id.Some? {
      var i :| next <= i < metros && IsFirstMade(attempts, next, i, id.value);
      assert IsFirstMade(attempts, k, i, id.value);
    }
  }

  /** An Acquire returns a device if and only if the list is to hand, the devices
      that carry the pool's tag are fewer than its size, and some metro answers with
      success; otherwise, but for what is left behind errors, nothing changes. */
  lemma AcquireMakesIff(devices: seq<Device>, metros: nat, size: int, pool: string, lists: bool,
                        attempts: nat -> Attempt)
    requires TaggedOnce(devices)
    ensures var placed := Acquiring(devices, metros, size, pool, lists, attempts);
            && (placed.id.Some? <==>
                  lists && Tagged(devices, pool) < size && exists i :: 0 <= i < metros && attempts(i).Made?)
            && (!lists || Tagged(devices, pool) >= size ==> placed.devices == devices)
  {
    GuardCountsExactly(devices, pool);
    FirstMetroWins(devices, metros, 0, pool, attempts);
  }

  /** In a run of its own the provider only sees devices tagged once. */
  lemma {:induction false} RunTagsOnce(metros: nat, ops: seq<Op>)
    ensures TaggedOnce(DoAll([], metros, ops))
  {
    if ops != [] {
      RunTagsOnce(metros, ops[..|ops| - 1]);
      var devices := DoAll([], metros, ops[..|ops| - 1]);
      match ops[|ops| - 1]
      case OpAcquire(size, pool, lists, attempts) => PlaceTagsOnce(devices, metros, 0, pool, attempts);
      case OpRelease(id, works) =>
        forall i | 0 <= i < |Without(devices, id)| ensures OnceEach(Without(devices, id)[i].tags) {
          WithoutKeepsOthers(devices, id);
          assert Without(devices, id)[i] in devices;
        }
      case OpProgress(id, state, ip) =>
    }
  }

  lemma {:induction false} PlaceTagsOnce(devices: seq<Device>, metros: nat, k: nat, pool: string,
                                         attempts: nat -> Attempt)
    requires TaggedOnce(devices)
    ensures TaggedOnce(Place(devices, metros, k, pool, attempts).devices)
    decreases metros - k
  {
    if k < metros {
      match attempts(k)
      case Refused => PlaceTagsOnce(devices, metros, k + 1, pool, attempts);
      case MadeUnheard(id) => PlaceTagsOnce(devices + [NewDevice(id, pool)], metros, k + 1, pool, attempts);
      case Made(id) =>
    }
  }

  // -------------------------------------------------- what a Release leaves

  /** `kept` is `all` with some elements left out, the others in their order. */
  predicate IsSubsequence(kept: seq<Device>, all: seq<Device>) {
    if all == [] then kept == []
    else
      || IsSubsequence(kept, all[..|all| - 1])
      || (kept != [] && kept[|kept| - 1] == all[|all| - 1] && IsSubsequence(kept[..|kept| - 1], all[..|all| - 1]))
  }

  /** A Release takes away exactly the devices of its id: every other stays, as it
      was, where it was among the rest, and is found as before. */
  lemma {:induction false} WithoutKeepsOthers(devices: seq<Device>, id: string)
    ensures forall d :: d in Without(devices, id) <==> d in devices && d.id != id
    ensures IsSubsequence(Without(devices, id), devices)
    ensures |Without(devices, id)| + |OfId(devices, id)| == |devices|
    ensures forall other :: other != id ==> Find(Without(devices, id), other) == Find(devices, other)
  {
    if devices != [] {
      var front, last := devices[..|devices| - 1], devices[|devices| - 1];
      WithoutKeepsOthers(front, id);
      assert devices == front + [last];
      var w := Without(front, id);
      assert last.id != id ==> (w + [last])[..|w|] == w;
      forall other | other != id ensures Find(Without(devices, id), other) == Find(devices, other) {
        FindAfter(front, last, other);
        FindAfter(w, last, other);
      }
    }
  }

  function OfId(devices: seq<Device>, id: string): seq<Device> {
    if devices == [] then []
    else OfId(devices[..|devices| - 1], id) + if devices[|devices| - 1].id == id then [devices[|devices| - 1]] else []
  }

  // ------------------------------------------------- what the service refuses

  /** How a Release is answered. */
  function ReleaseAnswer(devices: seq<Device>, id: string, works: bool): Reply<()> {
    if works && Find(devices, id).Some? then Ok(()) else Reply.Failed(false)
  }

  /** No creation of the run is given this id. */
  ghost predicate NeverMade(ops: seq<Op>, id: string) {
    forall i :: 0 <= i < |ops| ==> DoesNotMake(ops[i], id)
  }

  ghost predicate DoesNotMake(op: Op, id: string) {
    op.OpAcquire? ==> forall k :: op.attempts(k) == Refused || op.attempts(k).id != id
  }

  lemma {:induction false} FindAfter(devices: seq<Device>, d: Device, id: string)
    ensures Find(devices + [d], id) == if Find(devices, id).Some? then Find(devices, id)
                                       else if d.id == id then Some(d) else None
  {
    if devices == [] {
      assert devices + [d] == [d] && [d][0] == d && [d][1..] == [];
    } else {
      assert (devices + [d])[1..] == devices[1..] + [d];
      FindAfter(devices[1..], d, id);
    }
  }

  lemma {:induction false} WithoutFindsNone(devices: seq<Device>, id: string, other: string)
    ensures Find(Without(devices, id), id).None?
    ensures Find(devices, other).None? ==> Find(Without(devices, id), other).None?
  {
    if devices != [] {
      var front, last := devices[..|devices| - 1], devices[|devices| - 1];
      assert devices == front + [last];
      WithoutFindsNone(front, id, other);
      FindAfter(front, last, other);
      FindAfter(Without(front, id), last, id);
      FindAfter(Without(front, id), last, other);
    }
  }

  lemma {:induction false} PlaceMakesOthers(devices: seq<Device>, metros: nat, k: nat, pool: string,
                                            attempts: nat -> Attempt, id: string)
    requires Find(devices, id).None? && forall i :: attempts(i) == Refused || attempts(i).id != id
    ensures Find(Place(devices, metros, k, pool, attempts).devices, id).None?
    decreases metros - k
  {
    if k < metros {
      if attempts(k) == Refused {
        PlaceMakesOthers(devices, metros, k + 1, pool, attempts, id);
      } else {
        var d := NewDevice(attempts(k).id, pool);
        FindAfter(devices, d, id);
        PlaceMakesOthers(devices + [d], metros, k + 1, pool, attempts, id);
      }
    }
  }

  lemma {:induction false} ProgressFindsNone(devices: seq<Device>, of: string, state: DeviceState, ip: string,
                                             id: string)
    requires Find(devices, id).None?
    ensures Find(Progressed(devices, of, state, ip), id).None?
  {
    if devices != [] {
      assert Progressed(devices, of, state, ip)[1..] == Progressed(devices[1..], of, state, ip);
      ProgressFindsNone(devices[1..], of, state, ip, id);
    }
  }

  lemma {:induction false} GoneForGood(devices: seq<Device>, metros: nat, ops: seq<Op>, id: string)
    requires Find(devices, id).None? && NeverMade(ops, id)
    ensures Find(DoAll(devices, metros, ops), id).None?
  {
    if ops != [] {
      var front := ops[..|ops| - 1];
      GoneForGood(devices, metros, front, id);
      var before := DoAll(devices, metros, front);
      assert DoesNotMake(ops[|ops| - 1], id);
      match ops[|ops| - 1]
      case OpAcquire(size, pool, lists, attempts) => PlaceMakesOthers(before, metros, 0, pool, attempts, id);
      case OpRelease(other, works) => WithoutFindsNone(before, other, id);
      case OpProgress(of, state, ip) => ProgressFindsNone(before, of, state, ip, id);
    }
  }

  /** Equinix is a strict provider: once a device was released, whatever happens
      afterwards short of the same id being given out again, every further Release
      of it fails, and not as not-found, so a pass never takes it for done. */
  lemma ReleasedIsRefused(devices: seq<Device>, metros: nat, ops: seq<Op>, id: string, works: bool)
    requires NeverMade(ops, id)
    ensures var later := DoAll(Without(devices, id), metros, ops);
            ReleaseAnswer(later, id, works) == Reply.Failed(false) && !ReleaseDone(ReleaseAnswer(later, id, works))
  {
    WithoutFindsNone(devices, id, id);
    GoneForGood(Without(devices, id), metros, ops, id);
  }

  /** Nothing but Acquires for the pool, of no more than this size. */
  predicate OnlyAcquires(ops: seq<Op>, pool: string, size: int) {
    forall i :: 0 <= i < |ops| ==> ops[i].OpAcquire? && ops[i].pool == pool && ops[i].size <= size
  }

  /** Devices that were lost track of still count: while they fill the pool, every
      Acquire for it is refused. */
  lemma {:induction false} LeakedDevicesRefuseAll(devices: seq<Device>, metros: nat, ops: seq<Op>, pool: string,
                                                  size: int)
    requires OnlyAcquires(ops, pool, size) && TagCount(devices, pool) >= size
    ensures DoAll(devices, metros, ops) == devices
    ensures ops != [] ==>
              var last := ops[|ops| - 1];
              Acquiring(devices, metros, last.size, pool, last.lists, last.attempts).id.None?
  {
    if ops != [] {
      LeakedDevicesRefuseAll(devices, metros, ops[..|ops| - 1], pool, size);
    }
  }
}
