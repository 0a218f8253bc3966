/**
 * The tenant-policy read model: a created event writes the whole view, an
 * updated event rewrites the settings of an existing view and keeps its id
 * and creation time. Every other event is ignored.
 */
module TenantPolicyProjector {
  import opened Common
  import opened Event
  import opened Projection

  const PolicyNotFound: string := "tenant policy not found"

  /** `dto.TenantPolicyViewDTO`. */
  datatype PolicyView = PolicyView(
    id: string, title: string, abandonedMinutes: int, quietTimeFrom: Time, quietTimeTo: Time,
    createdAt: Time, updatedAt: Time, version: int)

  predicate Relevant(e: Event) {
    e.PolicyCreated? || e.PolicyUpdated?
  }

  /** `applyToView`. */
  function ViewAfter(view: Option<PolicyView>, e: Event): Option<PolicyView> {
    match e
    case PolicyCreated(aggregateID, title, minutes, from, to, _, timestamp, version) =>
      Some(PolicyView(aggregateID, title, minutes, from, to, timestamp, timestamp, version))
    case PolicyUpdated(_, title, minutes, from, to, _, timestamp, version) =>
      if view.None? then None
      else Some(PolicyView(view.value.id, title, minutes, from, to, view.value.createdAt, timestamp, version))
    case _ => view
  }

  function HandleSpec(st: ProjectorState<PolicyView>, o: StoreOracles<PolicyView>, e: Event)
    : (ProjectorState<PolicyView>, Option<Error>)
  {
    Project(st, o, e.eventID, e.aggregateID, Relevant(e), v => ViewAfter(v, e))
  }

  /** The settings of a view are those of the last created or updated event folded into it. */
  predicate ShowsSettingsOf(v: PolicyView, e: Event)
    requires e.PolicyCreated? || e.PolicyUpdated?
  {
    v.title == e.title && v.abandonedMinutes == e.abandonedMinutes &&
    v.quietTimeFrom == e.quietTimeFrom && v.quietTimeTo == e.quietTimeTo &&
    v.updatedAt == e.timestamp && v.version == e.version
  }

  /**
   * A created event yields the event's settings with created = updated =
   * its time; an updated event needs an existing view, takes its settings
   * from the event and keeps the view's id and creation time.
   */
  lemma ViewAfterSpec(view: Option<PolicyView>, e: Event)
    ensures e.PolicyCreated? ==>
      && ViewAfter(view, e).Some? && ShowsSettingsOf(ViewAfter(view, e).value, e)
      && ViewAfter(view, e).value.id == e.aggregateID && ViewAfter(view, e).value.createdAt == e.timestamp
    ensures e.PolicyUpdated? ==> (ViewAfter(view, e).Some? <==> view.Some?)
    ensures e.PolicyUpdated? && view.Some? ==>
      && ShowsSettingsOf(ViewAfter(view, e).value, e)
      && ViewAfter(view, e).value.id == view.value.id
      && ViewAfter(view, e).value.createdAt == view.value.createdAt
    ensures !Relevant(e) ==> ViewAfter(view, e) == view
  {
  }

  /**
   * Created then updated: the view shows the update's settings, the id of
   * the created event and its creation time. Updating twice with the same
   * event is updating once.
   */
  lemma CreateThenUpdate(view: Option<PolicyView>, created: Event, updated: Event)
    requires created.PolicyCreated? && updated.PolicyUpdated?
    ensures var v := ViewAfter(ViewAfter(view, created), updated);
      && v.Some? && ShowsSettingsOf(v.value, updated)
      && v.value.id == created.aggregateID && v.value.createdAt == created.timestamp
    ensures ViewAfter(ViewAfter(ViewAfter(view, created), updated), updated) == ViewAfter(ViewAfter(view, created), updated)
  {
    ViewAfterSpec(view, created);
    ViewAfterSpec(ViewAfter(view, created), updated);
  }

  /** With a store that never fails, a new event's fold is what the store then holds. */
  lemma HandleFaultless(st: ProjectorState<PolicyView>, o: StoreOracles<PolicyView>, e: Event)
    requires Faultless(o) && e.eventID !in st.seen
    ensures var (st1, err) := HandleSpec(st, o, e);
      && err == None && st1.seen == st.seen + {e.eventID}
      && Lookup(st1.views, e.aggregateID) == ViewAfter(Lookup(st.views, e.aggregateID), e)
  {
    ProjectFaultless(st, o, e.eventID, e.aggregateID, Relevant(e), v => ViewAfter(v, e));
    ViewAfterSpec(Lookup(st.views, e.aggregateID), e);
  }

  class TenantPolicyProjectorImpl {
    const viewRepo: ViewStore<PolicyView>
    var seen: set<string>

    constructor (viewRepo: ViewStore<PolicyView>)
      ensures this.viewRepo == viewRepo && seen == {}
    {
      this.viewRepo := viewRepo;
      seen := {};
    }

    function State(): ProjectorState<PolicyView>
      reads this, viewRepo
    {
      ProjectorState(seen, viewRepo.views)
    }

    method Handle(e: Event) returns (err: Option<Error>)
      modifies this, viewRepo
      ensures (State(), err) == HandleSpec(old(State()), viewRepo.Oracles(), e)
    {
      var eventID := e.GetEventID();
      if eventID in seen {
        return None;
      }
      seen := seen + {eventID};
      if !(e.PolicyCreated? || e.PolicyUpdated?) {
        return None;
      }
      var aggID := e.GetAggregateID();
      var got := viewRepo.Get(aggID);
      var current: Option<PolicyView> := None;
      if got.Failure? {
        if got.error.code != NotFound {
          return Some(got.error);
        }
      } else {
        current := Some(got.value);
      }
      var updated := ViewAfter(current, e);
      if updated.Some? {
        err := viewRepo.Upsert(aggID, updated.value);
        return err;
      }
      return None;
    }

    method Start(bus: EventBus) returns (err: Option<Error>)
      modifies bus
      ensures bus.handlers == old(bus.handlers) + [TenantPolicyProjectorHandler] && err == None
    {
      bus.Subscribe(TenantPolicyProjectorHandler);
      return None;
    }
  }
}
