/** The provider interface, seen from its callers.

    A remote call is a nondeterministic result. `Replies` fixes, for one
    reconcile, what each call would answer; the `Provider` object answers from
    it and keeps the list of the calls that were really made. */
module Providers {
  import opened Api

  datatype Resource = Resource(id: ResourceId, address: string, metadata: string)

  /** An error is either `ResourceNotFoundError` or some other error. */
  datatype Reply<+T> = Ok(value: T) | Failed(notFound: bool)

  datatype Completion = Completion(ready: bool, resource: Resource)

  datatype Replies = Replies(
    connects: bool,
    acquire: Reply<Resource>,
    acquireCompleted: Reply<Completion>,
    clean: Reply<()>,
    cleanCompleted: Reply<bool>,
    release: Reply<()>)

  datatype Call =
    | Acquire(size: int, pool: string, rtype: string)
    | AcquireCompleted(id: ResourceId)
    | Clean(id: ResourceId)
    | CleanCompleted(id: ResourceId)
    | Release(id: ResourceId)

  /** Release counts as done when it worked and when there was nothing to release. */
  predicate ReleaseDone(r: Reply<()>) {
    r.Ok? || r.notFound
  }

  class Provider {
    const replies: Replies
    var calls: seq<Call>

    constructor (replies: Replies)
      ensures this.replies == replies && calls == []
    {
      this.replies := replies;
      calls := [];
    }

    method Acquire(poolSize: int, poolName: string, poolType: string) returns (r: Reply<Resource>)
      modifies this
      ensures r == replies.acquire && calls == old(calls) + [Call.Acquire(poolSize, poolName, poolType)]
    {
      calls := calls + [Call.Acquire(poolSize, poolName, poolType)];
      r := replies.acquire;
    }

    method AcquireCompleted(id: ResourceId) returns (r: Reply<Completion>)
      modifies this
      ensures r == replies.acquireCompleted && calls == old(calls) + [Call.AcquireCompleted(id)]
    {
      calls := calls + [Call.AcquireCompleted(id)];
      r := replies.acquireCompleted;
    }

    method Clean(id: ResourceId) returns (r: Reply<()>)
      modifies this
      ensures r == replies.clean && calls == old(calls) + [Call.Clean(id)]
    {
      calls := calls + [Call.Clean(id)];
      r := replies.clean;
    }

    method CleanCompleted(id: ResourceId) returns (r: Reply<bool>)
      modifies this
      ensures r == replies.cleanCompleted && calls == old(calls) + [Call.CleanCompleted(id)]
    {
      calls := calls + [Call.CleanCompleted(id)];
      r := replies.cleanCompleted;
    }

    method Release(id: ResourceId) returns (r: Reply<()>)
      modifies this
      ensures r == replies.release && calls == old(calls) + [Call.Release(id)]
    {
      calls := calls + [Call.Release(id)];
      r := replies.release;
    }
  }
}
