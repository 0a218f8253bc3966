/**
 * The per-tenant cart-abandonment policy: a title, a delay in minutes and a
 * daily quiet-time window. `Create` and `UpdatePolicy` change the fields
 * directly; neither records an event, and `Hydration` applies nothing, so a
 * policy rebuilt from history is always a new one (version -1).
 */
module TenantCartAbandonedPolicy {
  import opened Common
  import opened Event

  const ErrPolicyExists: Error := Error(UnpermittedOp, "tenant policy already exists")
  const ErrPolicyNotCreated: Error := Error(UnpermittedOp, "tenant policy not created")

  datatype CreateTenantCartAbandonedPolicyCommand = CreateTenantCartAbandonedPolicyCommand(
    tenantID: Uuid, title: string, abandonedMinutes: int, quietTimeFrom: Time, quietTimeTo: Time)

  datatype UpdateTenantCartAbandonedPolicyCommand = UpdateTenantCartAbandonedPolicyCommand(
    tenantID: Uuid, title: string, abandonedMinutes: int, quietTimeFrom: Time, quietTimeTo: Time)

  /** The whole state of a `TenantCartAbandonedPolicyAggregate`. */
  datatype PolicyState = PolicyState(
    tenantID: Uuid,
    title: string,
    cartAbandonedMinutes: int,
    quietTimeFrom: Time,
    quietTimeTo: Time,
    version: int,
    uncommitted: seq<Event>)

  /** `NewTenantCartAbandonedPolicyAggregate()`: zero fields, version -1. */
  const NewPolicy: PolicyState := PolicyState(NilUuid, "", 0, 0, 0, -1, [])

  // ------------------------------------------------------------ specification

  /** `Create`: refused once the policy exists; otherwise sets the four fields and version 1. */
  function AfterCreate(s: PolicyState, cmd: CreateTenantCartAbandonedPolicyCommand): (PolicyState, Option<Error>) {
    if s.version != -1 then (s, Some(ErrPolicyExists))
    else
      (s.(tenantID := cmd.tenantID, title := cmd.title, cartAbandonedMinutes := cmd.abandonedMinutes,
          quietTimeFrom := cmd.quietTimeFrom, quietTimeTo := cmd.quietTimeTo, version := 1), None)
  }

  /** The command carries exactly the values the policy already holds. */
  predicate SameSettings(s: PolicyState, cmd: UpdateTenantCartAbandonedPolicyCommand) {
    s.title == cmd.title && s.cartAbandonedMinutes == cmd.abandonedMinutes &&
    s.quietTimeFrom == cmd.quietTimeFrom && s.quietTimeTo == cmd.quietTimeTo
  }

  /** `UpdatePolicy`: refused before creation, a no-op without change, else overwrite and bump. */
  function AfterUpdate(s: PolicyState, cmd: UpdateTenantCartAbandonedPolicyCommand): (PolicyState, Option<Error>) {
    if s.version == -1 then (s, Some(ErrPolicyNotCreated))
    else if SameSettings(s, cmd) then (s, None)
    else
      (s.(title := cmd.title, cartAbandonedMinutes := cmd.abandonedMinutes,
          quietTimeFrom := cmd.quietTimeFrom, quietTimeTo := cmd.quietTimeTo,
          version := s.version + 1), None)
  }

  /** `apply`: its type switch has only the default branch, which ignores the event. */
  function ApplyPolicyEvent(s: PolicyState, e: Event): PolicyState {
    s
  }

  /** `Hydration(events)`: `apply` on each event in list order. */
  function HydratePolicy(s: PolicyState, events: seq<Event>): PolicyState {
    if |events| == 0 then s else ApplyPolicyEvent(HydratePolicy(s, events[..|events| - 1]), events[|events| - 1])
  }

  /** `time.Duration(minutes) * time.Minute`. */
  function AbandonedDelay(minutes: int): (d: Duration)
    ensures d % NanosPerMinute == 0 && d / NanosPerMinute == minutes
  {
    minutes * NanosPerMinute
  }

  /** `t.UTC().Hour()*60 + t.UTC().Minute()`: the wall-clock minute of the day. */
  function ClockMinutes(t: Time): (m: int)
    ensures 0 <= m < 24 * 60
  {
    ((t / NanosPerHour) % 24) * 60 + (t / NanosPerMinute) % 60
  }

  /**
   * `IsWithinQuietTime` on explicit bounds: false when a bound is the zero
   * time or both bounds fall on the same minute; a half-open window when
   * `from` is earlier in the day than `to`; a window across midnight otherwise.
   */
  function QuietTime(from: Time, to: Time, now: Time): bool {
    if from == 0 || to == 0 then false
    else
      var current := ClockMinutes(now);
      var fromMinutes := ClockMinutes(from);
      var toMinutes := ClockMinutes(to);
      if fromMinutes < toMinutes then fromMinutes <= current && current < toMinutes
      else if fromMinutes > toMinutes then current >= fromMinutes || current < toMinutes
      else false
  }

  // ------------------------------------------------------------ properties

  /** `Create` succeeds exactly on a new policy, stores the command and never records an event. */
  lemma CreateOutcome(s: PolicyState, cmd: CreateTenantCartAbandonedPolicyCommand)
    ensures var r := AfterCreate(s, cmd);
      && (r.1.None? <==> s.version == -1)
      && (r.1.Some? ==> r == (s, Some(ErrPolicyExists)))
      && (r.1.None? ==>
            && r.0.tenantID == cmd.tenantID && r.0.title == cmd.title
            && r.0.cartAbandonedMinutes == cmd.abandonedMinutes
            && r.0.quietTimeFrom == cmd.quietTimeFrom && r.0.quietTimeTo == cmd.quietTimeTo
            && r.0.version == 1)
      && r.0.uncommitted == s.uncommitted
  {
  }

  /**
   * `UpdatePolicy` changes the state exactly when the policy exists and some
   * setting differs; the version then rises by one. The tenant id and the
   * uncommitted list never change.
   */
  lemma UpdateOutcome(s: PolicyState, cmd: UpdateTenantCartAbandonedPolicyCommand)
    ensures var r := AfterUpdate(s, cmd);
      && (r.1.Some? <==> s.version == -1)
      && (r.1.Some? ==> r.1.value == ErrPolicyNotCreated)
      && (r.0 == s <==> s.version == -1 || SameSettings(s, cmd))
      && (r.0 != s ==> r.0.version == s.version + 1 && SameSettings(r.0, cmd))
      && r.0.tenantID == s.tenantID && r.0.uncommitted == s.uncommitted
  {
    var r := AfterUpdate(s, cmd);
    if s.version != -1 && !SameSettings(s, cmd) {
      assert r.0.version != s.version;
    }
  }

  /**
   * Replaying any history leaves a policy as it was: in particular a policy
   * rebuilt from its events is still new, at version -1.
   */
  lemma {:induction false} HydratePolicyIsIdentity(s: PolicyState, events: seq<Event>)
    ensures HydratePolicy(s, events) == s
    ensures HydratePolicy(NewPolicy, events).version == -1
    decreases |events|
  {
    if |events| > 0 {
      HydratePolicyIsIdentity(s, events[..|events| - 1]);
      HydratePolicyIsIdentity(NewPolicy, events[..|events| - 1]);
    }
  }

  /** Repeating an update is a no-op: the second one neither fails nor bumps the version. */
  lemma UpdateIdempotent(s: PolicyState, cmd: UpdateTenantCartAbandonedPolicyCommand)
    requires s.version >= 1
    ensures var once := AfterUpdate(s, cmd).0;
      AfterUpdate(once, cmd) == (once, None)
  {
  }

  /** Whole minutes in, whole minutes out. */
  lemma AbandonedDelayExamples()
    ensures AbandonedDelay(30) == 30 * NanosPerMinute
    ensures AbandonedDelay(60) == NanosPerHour
    ensures AbandonedDelay(120) == 2 * NanosPerHour
  {
  }

  /** Without both bounds, or with both on the same minute, nothing is quiet time. */
  lemma QuietTimeDisabled(from: Time, to: Time, now: Time)
    requires from == 0 || to == 0 || ClockMinutes(from) == ClockMinutes(to)
    ensures !QuietTime(from, to, now)
  {
  }

  /**
   * A window across midnight is exactly the complement of the ordinary window
   * with the bounds swapped: from 22:00 to 08:00 is quiet when 08:00 to 22:00
   * is not.
   */
  lemma QuietTimeSwapIsComplement(from: Time, to: Time, now: Time)
    requires from != 0 && to != 0 && ClockMinutes(from) != ClockMinutes(to)
    ensures QuietTime(from, to, now) == !QuietTime(to, from, now)
  {
  }

  /** The clock minute repeats every day. */
  lemma {:induction false} ClockMinutesDaily(t: Time, days: nat)
    ensures ClockMinutes(t + days * NanosPerDay) == ClockMinutes(t)
    decreases days
  {
    if days > 0 {
      ClockMinutesDaily(t, days - 1);
      var u := t + (days - 1) * NanosPerDay;
      assert t + days * NanosPerDay == u + NanosPerDay;
      ClockMinutesNextDay(u);
    }
  }

  lemma ClockMinutesNextDay(u: Time)
    ensures ClockMinutes(u + NanosPerDay) == ClockMinutes(u)
  {
    DivShift(u, NanosPerHour, 24);
    DivShift(u / NanosPerHour, 24, 1);
    DivShift(u, NanosPerMinute, 24 * 60);
    DivShift(u / NanosPerMinute, 60, 24);
  }

  /** Adding `k` whole divisors adds `k` to the quotient and keeps the remainder. */
  lemma DivShift(u: int, d: int, k: int)
    requires d > 0
    ensures (u + k * d) / d == u / d + k
    ensures (u + k * d) % d == u % d
  {
    var q, r := u / d, u % d;
    assert u + k * d == (q + k) * d + r;
    DivUnique(u + k * d, d, q + k, r);
  }

  /** The quotient and remainder are the only ones with the remainder in range. */
  lemma DivUnique(x: int, d: int, q: int, r: int)
    requires d > 0 && 0 <= r < d && x == q * d + r
    ensures x / d == q && x % d == r
  {
    var q', r' := x / d, x % d;
    assert x == q' * d + r' && 0 <= r' < d;
    if q > q' {
      MulAtLeast(q - q', d);
    } else if q < q' {
      MulAtLeast(q' - q, d);
    }
  }

  /** A positive multiple of `d` is at least `d`. */
  lemma {:induction false} MulAtLeast(a: int, d: int)
    requires a >= 1 && d > 0
    ensures a * d >= d
    decreases a
  {
    if a > 1 {
      MulAtLeast(a - 1, d);
      assert a * d == (a - 1) * d + d;
    }
  }

  /** On the first day, `h` hours and `m` minutes past midnight is clock minute `h*60 + m`. */
  lemma ClockMinutesOfTime(h: int, m: int)
    requires 0 <= h < 24 && 0 <= m < 60
    ensures ClockMinutes(h * NanosPerHour + m * NanosPerMinute) == h * 60 + m
  {
    var t := h * NanosPerHour + m * NanosPerMinute;
    assert t / NanosPerMinute == h * 60 + m;
    assert t / NanosPerHour == h;
  }

  /** The window repeats daily: shifting `now` by whole days does not change the answer. */
  lemma QuietTimeIsDaily(from: Time, to: Time, now: Time, days: nat)
    ensures QuietTime(from, to, now + days * NanosPerDay) == QuietTime(from, to, now)
  {
    ClockMinutesDaily(now, days);
  }

  /** `h:m` UTC on January 1, 2023. */
  function OnJan1st2023(h: int, m: int): Time {
    h * NanosPerHour + m * NanosPerMinute + 738520 * NanosPerDay
  }

  lemma ClockMinutesOnJan1st2023(h: int, m: int)
    requires 0 <= h < 24 && 0 <= m < 60
    ensures ClockMinutes(OnJan1st2023(h, m)) == h * 60 + m
  {
    ClockMinutesOfTime(h, m);
    ClockMinutesDaily(h * NanosPerHour + m * NanosPerMinute, 738520);
  }

  /** The 22:00-08:00 window across midnight: quiet at 23:30 and 02:00, not at 10:00. */
  lemma QuietTimeOvernightExamples()
    ensures QuietTime(OnJan1st2023(22, 0), OnJan1st2023(8, 0), OnJan1st2023(23, 30))
    ensures QuietTime(OnJan1st2023(22, 0), OnJan1st2023(8, 0), OnJan1st2023(2, 0))
    ensures !QuietTime(OnJan1st2023(22, 0), OnJan1st2023(8, 0), OnJan1st2023(10, 0))
  {
    ClockMinutesOnJan1st2023(22, 0);
    ClockMinutesOnJan1st2023(8, 0);
    ClockMinutesOnJan1st2023(23, 30);
    ClockMinutesOnJan1st2023(2, 0);
    ClockMinutesOnJan1st2023(10, 0);
  }

  /** The 12:00-14:00 window is quiet at 13:00; zero bounds are never quiet. */
  lemma QuietTimeSameDayExamples()
    ensures QuietTime(OnJan1st2023(12, 0), OnJan1st2023(14, 0), OnJan1st2023(13, 0))
    ensures !QuietTime(0, 0, OnJan1st2023(13, 0))
  {
    ClockMinutesOnJan1st2023(12, 0);
    ClockMinutesOnJan1st2023(14, 0);
    ClockMinutesOnJan1st2023(13, 0);
  }

  // ---------------------------------------------------------------- the class

  class TenantCartAbandonedPolicyAggregate {
    var tenantID: Uuid
    var title: string
    var cartAbandonedMinutes: int
    var quietTimeFrom: Time
    var quietTimeTo: Time
    var version: int
    var uncommitted: seq<Event>

    function State(): PolicyState
      reads this
    {
      PolicyState(tenantID, title, cartAbandonedMinutes, quietTimeFrom, quietTimeTo, version, uncommitted)
    }

    constructor ()
      ensures State() == NewPolicy
    {
      tenantID, title, cartAbandonedMinutes := NilUuid, "", 0;
      quietTimeFrom, quietTimeTo, version, uncommitted := 0, 0, -1, [];
    }

    function GetAggregateID(): Uuid reads this { tenantID }
    function GetVersion(): int reads this { version }
    function GetTitle(): string reads this { title }
    function GetUncommittedEvents(): seq<Event> reads this { uncommitted }

    method MarkEventsAsCommitted()
      modifies this
      ensures State() == old(State()).(uncommitted := [])
    {
      uncommitted := [];
    }

    /** Applies the events in order; every one falls into `apply`'s ignoring default branch. */
    method Hydration(events: seq<Event>) returns (err: Option<Error>)
      modifies this
      ensures State() == HydratePolicy(old(State()), events)
      ensures err == None
    {
      for j := 0 to |events|
        invariant State() == HydratePolicy(old(State()), events[..j])
      {
        assert events[..j + 1][..j] == events[..j];
      }
      assert events[..|events|] == events;
      return None;
    }

    function CartAbandonedDelay(): (d: Duration)
      reads this
      ensures d == AbandonedDelay(cartAbandonedMinutes)
    {
      cartAbandonedMinutes * NanosPerMinute
    }

    /** Never fails; the error result of the source is always nil. */
    function IsWithinQuietTime(now: Time): (r: bool)
      reads this
      ensures r ==> quietTimeFrom != 0 && quietTimeTo != 0
      ensures ClockMinutes(quietTimeFrom) == ClockMinutes(quietTimeTo) ==> !r
      ensures quietTimeFrom != 0 && quietTimeTo != 0 && ClockMinutes(quietTimeFrom) < ClockMinutes(quietTimeTo) ==>
        (r <==> ClockMinutes(quietTimeFrom) <= ClockMinutes(now) < ClockMinutes(quietTimeTo))
      ensures quietTimeFrom != 0 && quietTimeTo != 0 && ClockMinutes(quietTimeFrom) > ClockMinutes(quietTimeTo) ==>
        (r <==> ClockMinutes(now) >= ClockMinutes(quietTimeFrom) || ClockMinutes(now) < ClockMinutes(quietTimeTo))
    {
      QuietTime(quietTimeFrom, quietTimeTo, now)
    }

    method Create(cmd: CreateTenantCartAbandonedPolicyCommand) returns (err: Option<Error>)
      modifies this
      ensures (State(), err) == AfterCreate(old(State()), cmd)
    {
      if version != -1 {
        return Some(ErrPolicyExists);
      }
      tenantID := cmd.tenantID;
      title := cmd.title;
      cartAbandonedMinutes := cmd.abandonedMinutes;
      quietTimeFrom := cmd.quietTimeFrom;
      quietTimeTo := cmd.quietTimeTo;
      version := 1;
      return None;
    }

    method UpdatePolicy(cmd: UpdateTenantCartAbandonedPolicyCommand) returns (err: Option<Error>)
      modifies this
      ensures (State(), err) == AfterUpdate(old(State()), cmd)
    {
      if version == -1 {
        return Some(ErrPolicyNotCreated);
      }
      if title == cmd.title && cartAbandonedMinutes == cmd.abandonedMinutes &&
         quietTimeFrom == cmd.quietTimeFrom && quietTimeTo == cmd.quietTimeTo {
        return None;
      }
      title := cmd.title;
      cartAbandonedMinutes := cmd.abandonedMinutes;
      quietTimeFrom := cmd.quietTimeFrom;
      quietTimeTo := cmd.quietTimeTo;
      version := version + 1;
      return None;
    }
  }
}
