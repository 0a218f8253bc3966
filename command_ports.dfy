/**
 * The collaborators the command use cases and the abandonment subscriber
 * talk to through interfaces: the event store, the presenter of a command's
 * result and the event publisher. Each is a small recorder whose behaviour
 * is fixed by its state: the store's streams, the read faults it reports
 * and the outcomes it has been told to give its next saves.
 */
module CommandPorts {
  import opened Common
  import opened Event

  /** What the store reports for an aggregate with no events. */
  const ErrNoEvents: Error := Error(NotFound, "no events found for aggregate")

  /**
   * What `uuid.Parse` gives: the id, or the text of the error it reports for
   * a malformed string (wrong length, bad urn prefix, bad format, ...).
   */
  datatype ParsedUuid = Parsed(id: Uuid) | Malformed(reason: string) {
    /** The parse error as the use cases pass it on: its own text, with no code. */
    function Err(): Error
      requires Malformed?
    {
      Error(Uncoded, reason)
    }
  }

  /**
   * The event store: the stream of each aggregate, the error (if any) a read
   * of an aggregate meets, and the outcomes of the coming saves, consumed
   * one per save (an empty script means every further save succeeds).
   */
  datatype StoreState = StoreState(
    streams: map<Uuid, seq<Event>>,
    loadFault: Uuid -> Option<Error>,
    saveOutcomes: seq<Option<Error>>)

  function Stream(streams: map<Uuid, seq<Event>>, id: Uuid): seq<Event> {
    if id in streams then streams[id] else []
  }

  /** `LoadEvents(id)`: a read fault, NotFound for an empty history, else the history in order. */
  function LoadResult(st: StoreState, id: Uuid): Result<seq<Event>> {
    if st.loadFault(id).Some? then Failure(st.loadFault(id).value)
    else if |Stream(st.streams, id)| == 0 then Failure(ErrNoEvents)
    else Success(Stream(st.streams, id))
  }

  /** The history a caller goes on with: a NotFound (or any failed) load counts as none. */
  function History(loaded: Result<seq<Event>>): seq<Event> {
    if loaded.Success? then loaded.value else []
  }

  /** The outcome the next save gets, and the script after it. */
  function NextOutcome(st: StoreState): Option<Error> {
    if |st.saveOutcomes| == 0 then None else st.saveOutcomes[0]
  }

  function RestOfScript(st: StoreState): seq<Option<Error>> {
    if |st.saveOutcomes| == 0 then [] else st.saveOutcomes[1..]
  }

  /** `SaveEvents(id, events)`: appends the events to the stream unless the save is refused. */
  function SaveResult(st: StoreState, id: Uuid, events: seq<Event>): (StoreState, Option<Error>) {
    var outcome := NextOutcome(st);
    if outcome.Some? then (st.(saveOutcomes := RestOfScript(st)), outcome)
    else (st.(streams := st.streams[id := Stream(st.streams, id) + events], saveOutcomes := RestOfScript(st)), None)
  }

  /**
   * A load succeeds only with a non-empty history, and without a read fault
   * it fails exactly on an empty history, with NotFound.
   */
  lemma LoadSpec(st: StoreState, id: Uuid)
    ensures LoadResult(st, id).Success? ==>
      |LoadResult(st, id).value| > 0 && LoadResult(st, id).value == Stream(st.streams, id)
    ensures st.loadFault(id).None? ==>
      (LoadResult(st, id).Failure? <==> |Stream(st.streams, id)| == 0)
    ensures st.loadFault(id).None? && LoadResult(st, id).Failure? ==> LoadResult(st, id).error.code == NotFound
    ensures st.loadFault(id).Some? ==> LoadResult(st, id) == Failure(st.loadFault(id).value)
  {
  }

  /**
   * A successful save appends to its own stream only; a refused one changes
   * no stream. Either way one scripted outcome is used up.
   */
  lemma SaveSpec(st: StoreState, id: Uuid, events: seq<Event>)
    ensures var (st1, err) := SaveResult(st, id, events);
      && st1.loadFault == st.loadFault
      && (err.None? ==> Stream(st1.streams, id) == Stream(st.streams, id) + events)
      && (forall other :: other != id ==> Stream(st1.streams, other) == Stream(st.streams, other))
      && (err.Some? ==> st1.streams == st.streams)
      && (|st.saveOutcomes| > 0 ==> st1.saveOutcomes == st.saveOutcomes[1..])
      && (|st.saveOutcomes| == 0 ==> err == None)
  {
  }

  /** What a successful save of a non-empty list appended is what the next fault-free load returns. */
  lemma SaveThenLoad(st: StoreState, id: Uuid, events: seq<Event>)
    requires |events| > 0 && st.loadFault(id).None?
    requires SaveResult(st, id, events).1.None?
    ensures LoadResult(SaveResult(st, id, events).0, id) == Success(Stream(st.streams, id) + events)
  {
    SaveSpec(st, id, events);
  }

  class EventStore {
    var streams: map<Uuid, seq<Event>>
    var saveOutcomes: seq<Option<Error>>
    const loadFault: Uuid -> Option<Error>

    constructor (streams: map<Uuid, seq<Event>>, loadFault: Uuid -> Option<Error>, saveOutcomes: seq<Option<Error>>)
      ensures State() == StoreState(streams, loadFault, saveOutcomes)
    {
      this.streams, this.loadFault, this.saveOutcomes := streams, loadFault, saveOutcomes;
    }

    function State(): StoreState
      reads this
    {
      StoreState(streams, loadFault, saveOutcomes)
    }

    method LoadEvents(id: Uuid) returns (r: Result<seq<Event>>)
      ensures r == LoadResult(State(), id)
    {
      var fault := loadFault(id);
      if fault.Some? {
        return Failure(fault.value);
      }
      if id !in streams || |streams[id]| == 0 {
        return Failure(ErrNoEvents);
      }
      return Success(streams[id]);
    }

    method SaveEvents(id: Uuid, events: seq<Event>) returns (err: Option<Error>)
      modifies this
      ensures (State(), err) == SaveResult(old(State()), id, events)
    {
      err := if |saveOutcomes| == 0 then None else saveOutcomes[0];
      saveOutcomes := if |saveOutcomes| == 0 then [] else saveOutcomes[1..];
      if err.None? {
        var current := if id in streams then streams[id] else [];
        streams := streams[id := current + events];
      }
    }

    /** A transaction's rollback: the streams go back; the used-up outcomes stay used. */
    method Restore(snapshot: map<Uuid, seq<Event>>)
      modifies this
      ensures State() == old(State()).(streams := snapshot)
    {
      streams := snapshot;
    }
  }

  /** One call on a `CommandResultPresenter`. */
  datatype Presentation =
    | PresentedSuccess(aggregateID: string, version: int, events: seq<Event>)
    | PresentedError(err: Error)

  /** A presenter that records what it is shown and reports no error of its own. */
  class Presenter {
    var calls: seq<Presentation>

    constructor ()
      ensures calls == []
    {
      calls := [];
    }

    method PresentSuccess(aggregateID: string, version: int, events: seq<Event>) returns (err: Option<Error>)
      modifies this
      ensures calls == old(calls) + [PresentedSuccess(aggregateID, version, events)] && err == None
    {
      calls := calls + [PresentedSuccess(aggregateID, version, events)];
      return None;
    }

    method PresentError(e: Error) returns (err: Option<Error>)
      modifies this
      ensures calls == old(calls) + [PresentedError(e)] && err == None
    {
      calls := calls + [PresentedError(e)];
      return None;
    }
  }

  /** An `EventPublisher` that records each `Publish(events...)` call. */
  class EventPublisher {
    var published: seq<seq<Event>>

    constructor ()
      ensures published == []
    {
      published := [];
    }

    method Publish(events: seq<Event>) returns (err: Option<Error>)
      modifies this
      ensures published == old(published) + [events] && err == None
    {
      published := published + [events];
      return None;
    }
  }
}
