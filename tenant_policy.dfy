/**
 * The older, minutes-only tenant policy aggregate: created once, then its
 * abandonment delay can be changed; it records no events and ignores every
 * event on hydration.
 */
module TenantPolicy {
  import opened Common
  import opened Event
  import TenantCartAbandonedPolicy

  const ErrPolicyExists: Error := TenantCartAbandonedPolicy.ErrPolicyExists
  const ErrPolicyNotCreated: Error := TenantCartAbandonedPolicy.ErrPolicyNotCreated

  datatype TenantPolicyState = TenantPolicyState(
    tenantID: Uuid, cartAbandonedMinutes: int, version: int, uncommitted: seq<Event>)

  /** `NewTenantPolicyAggregate()`. */
  const NewTenantPolicy: TenantPolicyState := TenantPolicyState(NilUuid, 0, -1, [])

  function AfterCreate(s: TenantPolicyState, tenantID: Uuid, minutes: int): (TenantPolicyState, Option<Error>) {
    if s.version != -1 then (s, Some(ErrPolicyExists))
    else (s.(tenantID := tenantID, cartAbandonedMinutes := minutes, version := 1), None)
  }

  function AfterChangeMinutes(s: TenantPolicyState, newMinutes: int): (TenantPolicyState, Option<Error>) {
    if s.version == -1 then (s, Some(ErrPolicyNotCreated))
    else if s.cartAbandonedMinutes == newMinutes then (s, None)
    else (s.(cartAbandonedMinutes := newMinutes, version := s.version + 1), None)
  }

  /** `Create` succeeds exactly on a new aggregate and then holds the tenant, the minutes and version 1. */
  lemma CreateOutcome(s: TenantPolicyState, tenantID: Uuid, minutes: int)
    ensures var r := AfterCreate(s, tenantID, minutes);
      && (r.1.None? <==> s.version == -1)
      && (r.1.Some? ==> r == (s, Some(ErrPolicyExists)) && r.1.value.code == UnpermittedOp)
      && (r.1.None? ==> r.0 == TenantPolicyState(tenantID, minutes, 1, s.uncommitted))
  {
  }

  /**
   * `ChangeCartAbandonedMinutes` fails before creation, is a no-op for the
   * current minutes, and otherwise stores them and raises the version by one.
   */
  lemma ChangeMinutesOutcome(s: TenantPolicyState, newMinutes: int)
    ensures var r := AfterChangeMinutes(s, newMinutes);
      && (r.1.Some? <==> s.version == -1)
      && (r.1.Some? ==> r.1.value.code == UnpermittedOp)
      && (r.0 == s <==> s.version == -1 || s.cartAbandonedMinutes == newMinutes)
      && (r.1.None? ==> r.0.cartAbandonedMinutes == newMinutes)
      && (r.0 != s ==> r.0.version == s.version + 1)
      && r.0.tenantID == s.tenantID && r.0.uncommitted == s.uncommitted
  {
    var r := AfterChangeMinutes(s, newMinutes);
    if r.0 != s {
      assert s.version != -1 && s.cartAbandonedMinutes != newMinutes;
    }
  }

  class TenantPolicyAggregate {
    var tenantID: Uuid
    var cartAbandonedMinutes: int
    var version: int
    var uncommitted: seq<Event>

    function State(): TenantPolicyState
      reads this
    {
      TenantPolicyState(tenantID, cartAbandonedMinutes, version, uncommitted)
    }

    constructor ()
      ensures State() == NewTenantPolicy
    {
      tenantID, cartAbandonedMinutes, version, uncommitted := NilUuid, 0, -1, [];
    }

    function GetAggregateID(): Uuid reads this { tenantID }
    function GetVersion(): int reads this { version }
    function GetUncommittedEvents(): seq<Event> reads this { uncommitted }

    method MarkEventsAsCommitted()
      modifies this
      ensures State() == old(State()).(uncommitted := [])
    {
      uncommitted := [];
    }

    /** `apply` has only its default branch: no event changes the aggregate. */
    method Hydration(events: seq<Event>) returns (err: Option<Error>)
      modifies this
      ensures State() == old(State())
      ensures err == None
    {
      for j := 0 to |events|
        invariant State() == old(State())
      {
        // every event kind falls into the ignoring default branch
      }
      return None;
    }

    function CartAbandonedDelay(): (d: Duration)
      reads this
      ensures d == TenantCartAbandonedPolicy.AbandonedDelay(cartAbandonedMinutes)
    {
      cartAbandonedMinutes * NanosPerMinute
    }

    method Create(tenantID: Uuid, minutes: int) returns (err: Option<Error>)
      modifies this
      ensures (State(), err) == AfterCreate(old(State()), tenantID, minutes)
    {
      if version != -1 {
        return Some(ErrPolicyExists);
      }
      this.tenantID := tenantID;
      cartAbandonedMinutes := minutes;
      version := 1;
      return None;
    }

    method ChangeCartAbandonedMinutes(newMinutes: int) returns (err: Option<Error>)
      modifies this
      ensures (State(), err) == AfterChangeMinutes(old(State()), newMinutes)
    {
      if version == -1 {
        return Some(ErrPolicyNotCreated);
      }
      if cartAbandonedMinutes == newMinutes {
        return None;
      }
      cartAbandonedMinutes := newMinutes;
      version := version + 1;
      return None;
    }
  }
}
