/** The release command: one read, one guarded write of Spec.State. */
module ReleaseCommand {
  import opened Api
  import opened ApiServers
  import opened Requests
  import opened CirFsm
  import opened Providers
  import Sys = OfcirSystem
  import Histories
  import opened Lifecycle

  datatype Response =
    | LeaseReleased(name: string)
    | NoSuchResource
    | Unauthorized
    | NotInUse(actual: CirState)
    | ServerError

  datatype Served = Served(db: Db, response: Response)

  /** `gets` tells whether the read can be done, `delivery` what becomes of the write. */
  function Serve(db: Db, name: string, permitted: set<string>, gets: bool, delivery: Delivery): Served {
    if !gets then Served(db, ServerError)
    else if name !in db.cirs then Served(db, NoSuchResource)
    else if db.cirs[name].spec.poolRef !in permitted then Served(db, Unauthorized)
    else if CanRelease(db.cirs[name]) then
      var w := Send(db, UpdateCir(db, Releasing(db.cirs[name])), delivery);
      Served(w.db, if w.err.Some? then ServerError else LeaseReleased(db.cirs[name].meta.name))
    else Served(db, NotInUse(db.cirs[name].status.state))
  }

  /** The object is there, and the caller may use its pool. */
  predicate IsOpenTo(db: Db, name: string, permitted: set<string>) {
    name in db.cirs && db.cirs[name].spec.poolRef in permitted
  }

  predicate IsInUse(db: Db, name: string) {
    name in db.cirs && db.cirs[name].status.state == StateInUse
  }

  /** When each answer is given: exactly one of the five conditions holds. */
  predicate IsAnswer(db: Db, name: string, permitted: set<string>, gets: bool, delivery: Delivery, response: Response) {
    var open, inUse := IsOpenTo(db, name, permitted), IsInUse(db, name);
    && (response == NoSuchResource <==> gets && name !in db.cirs)
    && (response == Unauthorized <==> gets && name in db.cirs && !open)
    && (response.NotInUse? <==> gets && open && !inUse)
    && (response.NotInUse? ==> response.actual == db.cirs[name].status.state)
    && (response == LeaseReleased(name) <==> gets && open && inUse && delivery == Delivered)
    && (response == ServerError <==> !gets || (open && inUse && delivery != Delivered))
  }

  /** What the command does to the server: where the object is open to the caller
      and in use and the write arrives, its Spec asks for Available and all else of
      it is as it was, only an object under deletion without a finalizer goes; in
      every other case, and to every other object, nothing. */
  ghost predicate IsReleased(db: Db, db': Db, name: string, permitted: set<string>, gets: bool, delivery: Delivery) {
    if gets && IsOpenTo(db, name, permitted) && IsInUse(db, name) && delivery != Undelivered then
      var c := db.cirs[name];
      && SameExcept(db, db', {name}) && db'.pools == db.pools
      && if c.meta.deleting && !c.meta.finalizer then name !in db'.cirs
         else
           && name in db'.cirs
           && var c' := db'.cirs[name];
              && c'.spec.state == StateAvailable && c'.spec.poolRef == c.spec.poolRef && c'.spec.rtype == c.spec.rtype
              && c'.status == c.status && c'.meta == c.meta.(version := c'.meta.version)
    else db' == db
  }

  lemma ServeReleases(db: Db, name: string, permitted: set<string>, gets: bool, delivery: Delivery)
    requires name in db.cirs ==> db.cirs[name].meta.name == name
    ensures var s := Serve(db, name, permitted, gets, delivery);
            && IsAnswer(db, name, permitted, gets, delivery, s.response)
            && IsReleased(db, s.db, name, permitted, gets, delivery)
  {
  }

  class ReleaseCmd {
    const server: ApiServer
    const permitted: set<string>
    const cirName: string

    constructor (server: ApiServer, permitted: set<string>, cirName: string)
      ensures this.server == server && this.permitted == permitted && this.cirName == cirName
    {
      this.server, this.permitted, this.cirName := server, permitted, cirName;
    }

    method Run(gets: bool, delivery: Delivery) returns (response: Response)
      requires Keyed(server.db)
      modifies server
      ensures IsAnswer(old(server.db), cirName, permitted, gets, delivery, response)
      ensures IsReleased(old(server.db), server.db, cirName, permitted, gets, delivery)
      ensures Served(server.db, response) == Serve(old(server.db), cirName, permitted, gets, delivery)
    {
      ServeReleases(server.db, cirName, permitted, gets, delivery);
      if !gets {
        return ServerError;
      }
      var found := server.GetCir(cirName);
      if found.None? {
        return NoSuchResource;
      }
      var r := found.value;
      if r.spec.poolRef !in permitted {
        return Unauthorized;
      }
      match r.status.state {
        case StateInUse =>
          r := r.(spec := r.spec.(state := StateAvailable));
          var err := server.UpdateCir(r, delivery);
          if err.Some? {
            return ServerError;
          }
          return LeaseReleased(r.meta.name);
        case _ =>
          return NotInUse(r.status.state);
      }
    }
  }

  /** A release that is answered with success ends the lease: whoever the caller
      is, it was permitted, the object was in use, and the next pass of the
      machine over it that reaches its provider goes to Cleaning, however little
      of the lease has run. Any other answer but ServerError changes nothing. */
  lemma ReleaseEndsTheLease(db: Db, name: string, permitted: set<string>, gets: bool, delivery: Delivery,
                            p: Pool, r: Replies, now: Time)
    requires Keyed(db) && r.connects
    ensures var s := Serve(db, name, permitted, gets, delivery);
            && (s.response.LeaseReleased? ==>
                  && name in db.cirs && db.cirs[name].spec.poolRef in permitted
                  && db.cirs[name].status.state == StateInUse
                  && (name in s.db.cirs ==>
                        && s.db.cirs[name].status == db.cirs[name].status
                        && Handle(s.db.cirs[name], p, r, now).statusDirty
                        && Handle(s.db.cirs[name], p, r, now).cir.status ==
                             db.cirs[name].status.(state := StateCleaning)))
            && (!s.response.LeaseReleased? && !s.response.ServerError? ==> s.db == db)
            && SameExcept(db, s.db, {name})
  {
  }

  /** A release is a step of the whole system, and the history of the object is
      told of it exactly when the stored object was written. */
  lemma ReleaseIsStep(w: Sys.World, name: string, permitted: set<string>, gets: bool, delivery: Delivery)
    returns (steps: seq<Sys.Step>)
    requires Inv(w) && (name in w.db.cirs ==> w.db.cirs[name] in w.snapshots)
    ensures Sys.LegalRun(w, steps)
    ensures var s := Serve(w.db, name, permitted, gets, delivery);
            && Sys.Run(w, steps).db == s.db
            && (s.response.LeaseReleased? ==> s.db != w.db)
            && (s.db != w.db ==> name in w.db.cirs && w.db.cirs[name].meta.uid in w.lives)
            && Sys.Run(w, steps).lives == if s.db != w.db then Told(w, name) else w.lives
  {
    hide Inv, Sys.Apply, Sys.Legal;
    steps := [];
    if gets && name in w.db.cirs && w.db.cirs[name].spec.poolRef in permitted && CanRelease(w.db.cirs[name]) {
      var s := Sys.ReleaseWrite(w.db.cirs[name], delivery);
      ReleaseStepIsWrite(w, name, delivery);
      steps := [s];
      assert Sys.Run(Sys.Apply(w, s), steps[1..]) == Sys.Apply(w, s);
    }
  }

  lemma ReleaseStepIsWrite(w: Sys.World, name: string, delivery: Delivery)
    requires Inv(w) && name in w.db.cirs && w.db.cirs[name] in w.snapshots && CanRelease(w.db.cirs[name])
    ensures w.db.cirs[name].meta.uid in w.lives
    ensures var c := w.db.cirs[name];
            var s := Sys.ReleaseWrite(c, delivery);
            var sent := Send(w.db, UpdateCir(w.db, Releasing(c)), delivery);
            && Sys.Legal(w, s) && Sys.Apply(w, s).db == sent.db
            && (sent.db != w.db <==> delivery.Arrives())
            && Sys.Apply(w, s).lives == if delivery.Arrives() then Told(w, name) else w.lives
  {
    hide Inv, Sys.Commit, Vanishes;
    var c := w.db.cirs[name];
    var es := [Histories.Freed(w.clock)];
    NameFits(w, name);
    HasLife(w, name);
    ReleasedStays(w, name);
    CommitTells(w, MergeMain(c, Releasing(c)), es);
    Sys.SwapIsUpdate(w, Releasing(c), es, delivery);
    StoringShows(w.db, MergeMain(c, Releasing(c)));
  }

  lemma ReleasedStays(w: Sys.World, name: string)
    requires Inv(w) && name in w.db.cirs
    ensures !Vanishes(MergeMain(w.db.cirs[name], Releasing(w.db.cirs[name])))
  {
    hide Inv;
    IsGuarded(w, name);
  }

  lemma StoringShows(db: Db, c: Cir)
    ensures StoreCir(db, c).next != db.next
  {
  }

  /** The histories with the release of the object called `name`. */
  function Told(w: Sys.World, name: string): map<nat, Sys.Life>
    requires name in w.db.cirs && w.db.cirs[name].meta.uid in w.lives
  {
    var uid := w.db.cirs[name].meta.uid;
    w.lives[uid := w.lives[uid].(history := w.lives[uid].history + [Histories.Freed(w.clock)])]
  }
}
