/**
 * What the two read-model projectors share: a view store keyed by aggregate
 * id, the seen-event set that makes a projector handle each event id at most
 * once, and the subscription bus their `Start` registers with.
 */
module Projection {
  import opened Common

  /**
   * A read-model store: `Get` of an absent key is NotFound, `Upsert`
   * overwrites. `getFault` and `upsertFault` stand for the database errors a
   * call may meet.
   */
  class ViewStore<V> {
    var views: map<string, V>
    const notFoundMessage: string
    const getFault: string -> Option<Error>
    const upsertFault: (string, V) -> Option<Error>

    constructor (notFoundMessage: string, getFault: string -> Option<Error>, upsertFault: (string, V) -> Option<Error>)
      ensures views == map[] && this.notFoundMessage == notFoundMessage
      ensures this.getFault == getFault && this.upsertFault == upsertFault
    {
      views := map[];
      this.notFoundMessage, this.getFault, this.upsertFault := notFoundMessage, getFault, upsertFault;
    }

    function Oracles(): StoreOracles<V>
      reads this
    {
      StoreOracles(notFoundMessage, getFault, upsertFault)
    }

    method Get(id: string) returns (r: Result<V>)
      ensures r == GetResult(views, Oracles(), id)
    {
      var fault := getFault(id);
      if fault.Some? {
        return Failure(fault.value);
      }
      if id !in views {
        return Failure(Error(NotFound, notFoundMessage));
      }
      return Success(views[id]);
    }

    method Upsert(id: string, view: V) returns (err: Option<Error>)
      modifies this
      ensures err == upsertFault(id, view)
      ensures views == if err.None? then old(views)[id := view] else old(views)
    {
      err := upsertFault(id, view);
      if err.None? {
        views := views[id := view];
      }
    }
  }

  datatype StoreOracles<!V> = StoreOracles(
    notFoundMessage: string, getFault: string -> Option<Error>, upsertFault: (string, V) -> Option<Error>)

  ghost predicate Faultless<V(!new)>(o: StoreOracles<V>) {
    (forall id :: o.getFault(id).None?) && (forall id, v :: o.upsertFault(id, v).None?)
  }

  function GetResult<V>(views: map<string, V>, o: StoreOracles<V>, id: string): (r: Result<V>)
    ensures o.getFault(id).None? ==> (r.Success? <==> id in views)
    ensures r.Success? ==> id in views && r.value == views[id]
    ensures o.getFault(id).None? && id !in views ==> r.error.code == NotFound
  {
    if o.getFault(id).Some? then Failure(o.getFault(id).value)
    else if id !in views then Failure(Error(NotFound, o.notFoundMessage))
    else Success(views[id])
  }

  function Lookup<V>(views: map<string, V>, id: string): Option<V> {
    if id in views then Some(views[id]) else None
  }

  /** The part of a projector that changes: the seen event ids and the stored views. */
  datatype ProjectorState<V> = ProjectorState(seen: set<string>, views: map<string, V>)

  /**
   * One `Handle` call: skip a seen id; otherwise record it first, and for a
   * relevant event read the current view (NotFound meaning none, any other
   * error returned), fold the event in, and upsert a non-nil result.
   */
  function Project<V>(st: ProjectorState<V>, o: StoreOracles<V>, eventID: string, aggregateID: string,
                      relevant: bool, apply: Option<V> -> Option<V>): (ProjectorState<V>, Option<Error>)
  {
    if eventID in st.seen then (st, None)
    else
      var seen := st.seen + {eventID};
      if !relevant then (ProjectorState(seen, st.views), None)
      else
        var got := GetResult(st.views, o, aggregateID);
        if got.Failure? && got.error.code != NotFound then (ProjectorState(seen, st.views), Some(got.error))
        else
          var updated := apply(if got.Success? then Some(got.value) else None);
          if updated.None? then (ProjectorState(seen, st.views), None)
          else
            var err := o.upsertFault(aggregateID, updated.value);
            (ProjectorState(seen, if err.None? then st.views[aggregateID := updated.value] else st.views), err)
  }

  /**
   * Every call records its event id, whatever happens next, and only the
   * view of its own aggregate can change.
   */
  lemma ProjectFrame<V>(st: ProjectorState<V>, o: StoreOracles<V>, eventID: string, aggregateID: string,
                        relevant: bool, apply: Option<V> -> Option<V>)
    ensures var (st1, err) := Project(st, o, eventID, aggregateID, relevant, apply);
      && st1.seen == st.seen + {eventID}
      && (forall id :: id != aggregateID ==> Lookup(st1.views, id) == Lookup(st.views, id))
      && (eventID in st.seen || !relevant ==> st1.views == st.views && err == None)
      && (err.Some? ==> st1.views == st.views)
  {
  }

  /**
   * A repeated event id is a no-op returning nil, even when the first call
   * failed: that event is never projected again.
   */
  lemma ProjectTwiceIsOnce<V>(st: ProjectorState<V>, o: StoreOracles<V>, eventID: string, aggregateID: string,
                              relevant: bool, apply: Option<V> -> Option<V>)
    ensures var (st1, _) := Project(st, o, eventID, aggregateID, relevant, apply);
      Project(st1, o, eventID, aggregateID, relevant, apply) == (st1, None)
  {
  }

  /**
   * Without store faults, a new relevant event replaces the aggregate's view
   * by the fold of the event into it; an irrelevant or seen one changes nothing.
   */
  lemma ProjectFaultless<V(!new)>(st: ProjectorState<V>, o: StoreOracles<V>, eventID: string, aggregateID: string,
                            relevant: bool, apply: Option<V> -> Option<V>)
    requires Faultless(o)
    ensures var (st1, err) := Project(st, o, eventID, aggregateID, relevant, apply);
      && err == None
      && Lookup(st1.views, aggregateID) ==
           if eventID !in st.seen && relevant && apply(Lookup(st.views, aggregateID)).Some?
           then apply(Lookup(st.views, aggregateID)) else Lookup(st.views, aggregateID)
  {
    assert o.getFault(aggregateID).None?;
  }

  /** The handlers `Start` can subscribe. */
  datatype HandlerRef = CartProjectorHandler | TenantPolicyProjectorHandler

  /** The event subscriber that projectors register their handlers with. */
  class EventBus {
    var handlers: seq<HandlerRef>

    constructor ()
      ensures handlers == []
    {
      handlers := [];
    }

    method Subscribe(handler: HandlerRef)
      modifies this
      ensures handlers == old(handlers) + [handler]
    {
      handlers := handlers + [handler];
    }
  }
}
