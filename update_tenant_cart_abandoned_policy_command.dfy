/**
 * `UpdateTenantCartAbandonedPolicyCommand.Execute`: in each transaction
 * attempt, parse the tenant id, load the policy's history (NotFound meaning
 * none), rebuild the policy, run the update on it, save what it recorded to
 * the event store and, when that is not empty, to the outbox. Retried on
 * OptimisticLock only; the presenter is called once with the final result.
 *
 * The policy records no events and its `Hydration` applies none, so a
 * rebuilt policy is always a new one and the update always fails with
 * "tenant policy not created": the save and the outbox steps are never
 * reached.
 */
module UpdatePolicyUseCase {
  import opened Common
  import opened Event
  import opened CommandPorts
  import opened CommandRetry
  import opened OutboxRepository
  import Policy = TenantCartAbandonedPolicy

  /** The update input: the tenant id as text and the new settings. */
  datatype UpdateTenantCartAbandonedPolicyInput = UpdateTenantCartAbandonedPolicyInput(
    tenantID: string, title: string, abandonedMinutes: int, quietTimeFrom: Time, quietTimeTo: Time)

  /** The state an execution changes: the event store and the outbox table. */
  datatype World = World(store: StoreState, outbox: Table)

  /**
   * What an execution depends on besides that state: the input, `uuid.Parse`,
   * and the clock reading and encoder the outbox would use.
   */
  datatype Env = Env(input: UpdateTenantCartAbandonedPolicyInput, parse: string -> ParsedUuid, now: Time,
                     marshal: Event -> Option<Bytes>)

  /** The domain command the closure builds from the input and the parsed id. */
  function CommandOf(env: Env, tenantID: Uuid): Policy.UpdateTenantCartAbandonedPolicyCommand {
    Policy.UpdateTenantCartAbandonedPolicyCommand(tenantID, env.input.title, env.input.abandonedMinutes,
                                                  env.input.quietTimeFrom, env.input.quietTimeTo)
  }

  /** `NewTenantCartAbandonedPolicyAggregate()`, then `Hydration` when there is any history. */
  function Rebuilt(history: seq<Event>): Policy.PolicyState {
    if |history| > 0 then Policy.HydratePolicy(Policy.NewPolicy, history) else Policy.NewPolicy
  }

  /** The transaction's closure, on the state it sees. */
  function Closure(w: World, env: Env): (World, Outcome) {
    match env.parse(env.input.tenantID)
    case Malformed(reason) => (w, Aborted(Error(Uncoded, reason)))
    case Parsed(tenantID) =>
      var loaded := LoadResult(w.store, tenantID);
      if loaded.Failure? && loaded.error.code != NotFound then (w, Aborted(loaded.error))
      else
        var (policy, err) := Policy.AfterUpdate(Rebuilt(History(loaded)), CommandOf(env, tenantID));
        if err.Some? then (w, Aborted(err.value))
        else
          var (st1, saveErr) := SaveResult(w.store, policy.tenantID, policy.uncommitted);
          if saveErr.Some? then (World(st1, w.outbox), Aborted(saveErr.value))
          else
            var (t1, outboxErr) :=
              if |policy.uncommitted| > 0 then Save(w.outbox, policy.tenantID, policy.uncommitted, env.marshal, env.now)
              else (w.outbox, None);
            if outboxErr.Some? then (World(st1, t1), Aborted(outboxErr.value))
            else (World(st1, t1), Committed(policy.tenantID, policy.version, []))
  }

  /** One `RWTx`: an aborted closure's writes to the streams and the outbox rows are rolled back. */
  function Transaction(w: World, env: Env): (World, Outcome) {
    var (w1, o) := Closure(w, env);
    if o.Aborted? then (World(w1.store.(streams := w.store.streams), w1.outbox.(rows := w.outbox.rows)), o)
    else (w1, o)
  }

  function Attempt(env: Env): World -> (World, Outcome) {
    w => Transaction(w, env)
  }

  /** The whole `Execute`: final state, final outcome, number of attempts. */
  function Execution(w: World, env: Env): (World, Outcome, nat) {
    Run(w, Attempt(env))
  }

  // ------------------------------------------------------------- properties

  /** The error an update meets: a malformed id, a read fault other than NotFound, or the missing policy. */
  function UpdateError(w: World, env: Env): Error {
    match env.parse(env.input.tenantID)
    case Malformed(reason) => Error(Uncoded, reason)
    case Parsed(tenantID) =>
      var loaded := LoadResult(w.store, tenantID);
      if loaded.Failure? && loaded.error.code != NotFound then loaded.error else Policy.ErrPolicyNotCreated
  }

  /** A policy rebuilt from any history is new, so every attempt fails and changes nothing. */
  lemma TransactionAlwaysAborts(w: World, env: Env)
    ensures Transaction(w, env) == (w, Aborted(UpdateError(w, env)))
  {
    if env.parse(env.input.tenantID).Parsed? {
      var tenantID := env.parse(env.input.tenantID).id;
      var history := History(LoadResult(w.store, tenantID));
      Policy.HydratePolicyIsIdentity(Policy.NewPolicy, history);
      assert Rebuilt(history).version == -1;
    }
  }

  /**
   * Every execution ends in an error and leaves the store and the outbox as
   * they were. The error is the parse error, the read fault, or "tenant
   * policy not created"; only an OptimisticLock read fault is retried, and
   * then until the attempts run out.
   */
  lemma UpdateAlwaysFails(w: World, env: Env)
    ensures var (w1, o, n) := Execution(w, env);
      && w1 == w
      && o == Aborted(UpdateError(w, env))
      && n == (if UpdateError(w, env).code == OptimisticLock then MaxRetries else 1)
  {
    TransactionAlwaysAborts(w, env);
    assert Attempt(env)(w) == (w, Aborted(UpdateError(w, env)));
    RetryBounds(0, w, Attempt(env));
    if UpdateError(w, env).code == OptimisticLock {
      RetryBounds(1, w, Attempt(env));
      RetryBounds(2, w, Attempt(env));
    }
  }

  /** With a well-formed id and a readable store, the presenter is told the policy does not exist. */
  lemma UpdateReportsNotCreated(w: World, env: Env, tenantID: Uuid)
    requires env.parse(env.input.tenantID) == Parsed(tenantID) && w.store.loadFault(tenantID).None?
    ensures Execution(w, env) == (w, Aborted(Policy.ErrPolicyNotCreated), 1)
  {
    UpdateAlwaysFails(w, env);
  }

  // ------------------------------------------------------------------ class

  class UpdateTenantCartAbandonedPolicyCommand {
    const eventStore: EventStore
    const outboxRepo: OutboxTable

    constructor (eventStore: EventStore, outboxRepo: OutboxTable)
      ensures this.eventStore == eventStore && this.outboxRepo == outboxRepo
    {
      this.eventStore, this.outboxRepo := eventStore, outboxRepo;
    }

    function State(): World
      reads eventStore, outboxRepo
    {
      World(eventStore.State(), outboxRepo.State())
    }

    method Execute(input: UpdateTenantCartAbandonedPolicyInput, out: Presenter, parse: string -> ParsedUuid,
                   now: Time, marshal: Event -> Option<Bytes>) returns (presenterErr: Option<Error>)
      modifies eventStore, outboxRepo, out
      ensures var (w, o, _) := Execution(old(State()), Env(input, parse, now, marshal));
        && State() == w
        && out.calls == old(out.calls) + [Presented(o)]
        && presenterErr == None
    {
      var env := Env(input, parse, now, marshal);
      ghost var w0 := State();
      var err: Option<Error> := None;
      var aggregateID: string := "";
      var version := 0;
      var events: seq<Event> := [];
      var attempt := 0;
      while true
        invariant 0 <= attempt < MaxRetries
        invariant Execution(w0, env) == RetryFrom(attempt, State(), Attempt(env))
        invariant out.calls == old(out.calls) && events == []
        decreases MaxRetries - attempt
      {
        ghost var before := State();
        var o := Transact(env);
        assert Attempt(env)(before) == (State(), o);
        RetryStep(attempt, before, Attempt(env), State(), o);
        if o.Aborted? {
          err := Some(o.err);
          if o.err.code == OptimisticLock && attempt < MaxRetries - 1 {
            attempt := attempt + 1;
            continue;
          }
          break;
        }
        err := None;
        aggregateID, version := o.aggregateID, o.version;
        break;
      }
      if err.Some? {
        presenterErr := out.PresentError(err.value);
        return;
      }
      presenterErr := out.PresentSuccess(aggregateID, version, events);
    }

    /** One `RWTx` around the closure, with rollback on error. */
    method Transact(env: Env) returns (o: Outcome)
      modifies eventStore, outboxRepo
      ensures (State(), o) == Transaction(old(State()), env)
    {
      var streams, rows := eventStore.streams, outboxRepo.rows;
      o := RunClosure(env);
      if o.Aborted? {
        eventStore.Restore(streams);
        outboxRepo.rows := rows;
      }
    }

    /** The closure; its `events` is a variable of its own, not the one `Execute` presents. */
    method RunClosure(env: Env) returns (o: Outcome)
      modifies eventStore, outboxRepo
      ensures (State(), o) == Closure(old(State()), env)
    {
      var tenantID := env.parse(env.input.tenantID);
      if tenantID.Malformed? {
        return Aborted(tenantID.Err());
      }
      var loaded := eventStore.LoadEvents(tenantID.id);
      if loaded.Failure? && loaded.error.code != NotFound {
        return Aborted(loaded.error);
      }
      var loadedEvents := History(loaded);
      var policy := new Policy.TenantCartAbandonedPolicyAggregate();
      if |loadedEvents| > 0 {
        var hydrationErr := policy.Hydration(loadedEvents);
        if hydrationErr.Some? {
          // Hydration never reports an error
          assert false;
        }
      }
      var err := policy.UpdatePolicy(CommandOf(env, tenantID.id));
      if err.Some? {
        return Aborted(err.value);
      }
      err := eventStore.SaveEvents(policy.GetAggregateID(), policy.GetUncommittedEvents());
      if err.Some? {
        return Aborted(err.value);
      }
      var events := policy.GetUncommittedEvents();
      if |events| > 0 {
        err := outboxRepo.SaveEvents(policy.GetAggregateID(), events, env.marshal, env.now);
        if err.Some? {
          return Aborted(err.value);
        }
      }
      events := policy.GetUncommittedEvents();
      o := Committed(policy.GetAggregateID(), policy.GetVersion(), []);
      policy.MarkEventsAsCommitted();
    }
  }
}
