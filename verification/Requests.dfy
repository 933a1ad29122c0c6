/** The single guarded writes that the API commands and the pool controller
    make on a CIResource they have read earlier. */
module Requests {
  import opened Api

  /** Only an available resource that nobody has asked for is acquired. */
  predicate CanAcquire(c: Cir) {
    c.status.state == StateAvailable && c.spec.state != StateInUse && c.spec.state != StateMaintenance
  }

  function Acquiring(c: Cir): Cir {
    c.(spec := c.spec.(state := StateInUse))
  }

  predicate CanRelease(c: Cir) {
    c.status.state == StateInUse
  }

  function Releasing(c: Cir): Cir {
    c.(spec := c.spec.(state := StateAvailable))
  }

  /** States in which the pool controller may select a member for eviction. */
  predicate Evictable(c: Cir) {
    c.status.state == StateAvailable || c.status.state == StateMaintenance || c.status.state == StateError
  }

  predicate CanEvict(c: Cir) {
    Evictable(c) && !c.meta.evicted
  }

  function Evicting(c: Cir): Cir {
    c.(meta := c.meta.(evicted := true))
  }

  /** The spec of a member that the pool controller creates. */
  function MemberSpec(p: Pool): CirSpec {
    CirSpec(p.name, StateNone, p.spec.rtype)
  }
}
