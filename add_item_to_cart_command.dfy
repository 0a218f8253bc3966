/**
 * `CartAddItemCommand.Execute`: in each transaction attempt, parse the two
 * ids, load the cart's history (NotFound meaning none), rebuild the cart,
 * run add-item on it and save what it recorded; after the commit the same
 * events go to the event bus. The attempts are retried on OptimisticLock
 * only, and the presenter is called once with the final result.
 */
module AddItemToCartUseCase {
  import opened Common
  import opened Event
  import opened CommandPorts
  import opened CommandRetry
  import opened Value
  import opened CartAggregate

  /** `input.AddItemToCartInput`. */
  datatype AddItemToCartInput = AddItemToCartInput(cartID: string, itemID: string, quantity: int, price: real)

  /** The state an execution changes: the event store and what the event bus has been handed. */
  datatype World = World(store: StoreState, published: seq<seq<Event>>)

  /**
   * What an execution depends on besides that state: the input, `uuid.Parse`,
   * and the ids and clock reading the new events get.
   */
  datatype Env = Env(input: AddItemToCartInput, parse: string -> ParsedUuid,
                     createdEventID: Uuid, addedEventID: Uuid, now: Time)

  /** The command the closure builds; the command type has no user id, so the zero UUID stands for it. */
  function CommandOf(env: Env, cartID: Uuid, itemID: Uuid): AddItemToCartCommand {
    AddItemToCartCommand(cartID, NilUuid, itemID, env.input.quantity, env.input.price)
  }

  /** The transaction's closure, on the store it sees. */
  function Closure(st: StoreState, env: Env): (StoreState, Outcome) {
    match env.parse(env.input.cartID)
    case Malformed(reason) => (st, Aborted(Error(Uncoded, reason)))
    case Parsed(cartID) =>
      match env.parse(env.input.itemID)
      case Malformed(reason) => (st, Aborted(Error(Uncoded, reason)))
      case Parsed(itemID) =>
        var loaded := LoadResult(st, cartID);
        if loaded.Failure? && loaded.error.code != NotFound then (st, Aborted(loaded.error))
        else
          var (cart, err) := AddItem(FromHistory(History(loaded)), CommandOf(env, cartID, itemID),
                                     env.createdEventID, env.addedEventID, env.now);
          if err.Some? then (st, Aborted(err.value))
          else
            var (st1, saveErr) := SaveResult(st, cart.aggregateID, cart.uncommitted);
            if saveErr.Some? then (st1, Aborted(saveErr.value))
            else (st1, Committed(cart.aggregateID, cart.version, cart.uncommitted))
  }

  /**
   * One `RWTx`: an aborted closure's writes are rolled back; after a commit
   * the hook registered with `AfterCommit` publishes the saved events.
   */
  function Transaction(w: World, env: Env): (World, Outcome) {
    var (st1, o) := Closure(w.store, env);
    if o.Aborted? then (World(st1.(streams := w.store.streams), w.published), o)
    else (World(st1, w.published + [o.events]), o)
  }

  function Attempt(env: Env): World -> (World, Outcome) {
    w => Transaction(w, env)
  }

  /** The whole `Execute`: final state, final outcome, number of attempts. */
  function Execution(w: World, env: Env): (World, Outcome, nat) {
    Run(w, Attempt(env))
  }

  // ------------------------------------------------------------- properties

  /**
   * One transaction: the read faults stay as they are; an abort leaves the
   * streams and the bus alone; a commit appends one or two events to the
   * stream of the reported aggregate only, hands the same events to the bus,
   * and reports the version the last of them carries.
   */
  lemma TransactionFrame(w: World, env: Env)
    ensures var (w1, o) := Transaction(w, env);
      && w1.store.loadFault == w.store.loadFault
      && (o.Aborted? ==> w1.store.streams == w.store.streams && w1.published == w.published)
      && (o.Committed? ==>
            && 1 <= |o.events| <= 2
            && o.events[|o.events| - 1].version == o.version
            && Stream(w1.store.streams, o.aggregateID) == Stream(w.store.streams, o.aggregateID) + o.events
            && (forall id :: id != o.aggregateID ==> Stream(w1.store.streams, id) == Stream(w.store.streams, id))
            && w1.published == w.published + [o.events])
  {
    var (w1, o) := Transaction(w, env);
    if env.parse(env.input.cartID).Parsed? && env.parse(env.input.itemID).Parsed? {
      var cartID, itemID := env.parse(env.input.cartID).id, env.parse(env.input.itemID).id;
      var loaded := LoadResult(w.store, cartID);
      var s := FromHistory(History(loaded));
      assert s.uncommitted == [] by {
        if loaded.Success? && |loaded.value| > 0 {
          HydrateKeepsUncommitted(NewCart, loaded.value);
        }
      }
      var (cart, err) := AddItem(s, CommandOf(env, cartID, itemID), env.createdEventID, env.addedEventID, env.now);
      SaveSpec(w.store, cart.aggregateID, cart.uncommitted);
    }
  }

  /** An id that does not parse ends the execution at once: one attempt, nothing changed. */
  lemma ParseFailureNotRetried(w: World, env: Env)
    requires env.parse(env.input.cartID).Malformed? || env.parse(env.input.itemID).Malformed?
    ensures var p := if env.parse(env.input.cartID).Malformed? then env.parse(env.input.cartID) else env.parse(env.input.itemID);
      Execution(w, env) == (w, Aborted(Error(Uncoded, p.reason)), 1)
  {
    var p := if env.parse(env.input.cartID).Malformed? then env.parse(env.input.cartID) else env.parse(env.input.itemID);
    assert Attempt(env)(w) == (w, Aborted(Error(Uncoded, p.reason)));
    RetryBounds(0, w, Attempt(env));
  }

  /**
   * Adding to a cart with no history creates it: one attempt, version 2, the
   * creation event (version 1) and the item-added event (version 2) saved
   * to its stream and handed to the bus.
   */
  lemma FirstAddCreatesCart(w: World, env: Env, cartID: Uuid, itemID: Uuid)
    requires env.parse(env.input.cartID) == Parsed(cartID) && env.parse(env.input.itemID) == Parsed(itemID)
    requires w.store.loadFault(cartID).None? && Stream(w.store.streams, cartID) == []
    requires NextOutcome(w.store).None?
    requires NewQuantity(env.input.quantity).Success? && NewPrice(env.input.price).Success?
    ensures var (w1, o, n) := Execution(w, env);
      var events := [CartCreated(cartID, NilUuid, NilUuid, env.createdEventID, env.now, 1),
                     ItemAddedToCart(cartID, itemID, env.input.quantity, env.input.price, env.addedEventID, env.now, 2)];
      && n == 1
      && o == Committed(cartID, 2, events)
      && Stream(w1.store.streams, cartID) == events
      && w1.published == w.published + [events]
  {
    var cmd := CommandOf(env, cartID, itemID);
    AddItemOnNewCart(NewCart, cmd, env.createdEventID, env.addedEventID, env.now);
    var (cart, err) := AddItem(NewCart, cmd, env.createdEventID, env.addedEventID, env.now);
    SaveSpec(w.store, cartID, cart.uncommitted);
    assert Attempt(env)(w) == Transaction(w, env);
    RetryBounds(0, w, Attempt(env));
  }

  /** The frame an aborted attempt keeps: same streams, read faults and bus. */
  ghost predicate Untouched(w: World, v: World) {
    v.store.streams == w.store.streams && v.store.loadFault == w.store.loadFault && v.published == w.published
  }

  /** An aborted attempt leaves an untouched state untouched. */
  lemma AbortedAttemptsKeep(w: World, env: Env)
    ensures forall v | Untouched(w, v) && Attempt(env)(v).1.Aborted? :: Untouched(w, Attempt(env)(v).0)
  {
    forall v | Untouched(w, v) && Attempt(env)(v).1.Aborted?
      ensures Untouched(w, Attempt(env)(v).0)
    {
      TransactionFrame(v, env);
    }
  }

  /** Aborted attempts are rolled back, so an execution that ends in an error changes no stream and publishes nothing. */
  lemma AbortedExecutionChangesNothing(w: World, env: Env)
    ensures var (w1, o, _) := Execution(w, env);
      o.Aborted? ==> w1.store.streams == w.store.streams && w1.published == w.published
  {
    AbortedAttemptsKeep(w, env);
    AbortedRunKeeps(0, w, Attempt(env), v => Untouched(w, v));
  }

  /**
   * What a committed attempt from an untouched state did: saved exactly the
   * reported events at the end of the reported aggregate's stream, left
   * every other stream alone, published the same events once, and reports
   * the version of the last.
   */
  ghost predicate SavedAndPublished(w: World, w1: World, o: Outcome) {
    o.Committed? ==>
      && |o.events| > 0 && o.events[|o.events| - 1].version == o.version
      && Stream(w1.store.streams, o.aggregateID) == Stream(w.store.streams, o.aggregateID) + o.events
      && (forall id :: id != o.aggregateID ==> Stream(w1.store.streams, id) == Stream(w.store.streams, id))
      && w1.published == w.published + [o.events]
  }

  lemma CommittedAttemptsSave(w: World, env: Env)
    ensures forall v | Untouched(w, v) :: SavedAndPublished(w, Attempt(env)(v).0, Attempt(env)(v).1)
  {
    forall v | Untouched(w, v)
      ensures SavedAndPublished(w, Attempt(env)(v).0, Attempt(env)(v).1)
    {
      TransactionFrame(v, env);
    }
  }

  /**
   * An execution that succeeds saved exactly the reported events at the end
   * of the reported aggregate's stream, left every other stream alone,
   * published the same events once, and reports the version of the last.
   */
  lemma CommittedExecutionSavesAndPublishes(w: World, env: Env)
    ensures var (w1, o, _) := Execution(w, env);
      o.Committed? ==>
        && |o.events| > 0 && o.events[|o.events| - 1].version == o.version
        && Stream(w1.store.streams, o.aggregateID) == Stream(w.store.streams, o.aggregateID) + o.events
        && (forall id :: id != o.aggregateID ==> Stream(w1.store.streams, id) == Stream(w.store.streams, id))
        && w1.published == w.published + [o.events]
  {
    AbortedAttemptsKeep(w, env);
    CommittedAttemptsSave(w, env);
    CommittedRunSatisfies(0, w, Attempt(env), v => Untouched(w, v), (v1, o) => SavedAndPublished(w, v1, o));
    var r := Execution(w, env);
    assert SavedAndPublished(w, r.0, r.1);
  }

  // ------------------------------------------------------------------ class

  class CartAddItemCommand {
    const eventStore: EventStore
    const eventBus: EventPublisher

    constructor (eventStore: EventStore, eventBus: EventPublisher)
      ensures this.eventStore == eventStore && this.eventBus == eventBus
    {
      this.eventStore, this.eventBus := eventStore, eventBus;
    }

    function State(): World
      reads eventStore, eventBus
    {
      World(eventStore.State(), eventBus.published)
    }

    /**
     * The retry loop; the presenter is called once, after it, with the
     * values the last attempt captured.
     */
    method Execute(input: AddItemToCartInput, out: Presenter, parse: string -> ParsedUuid,
                   createdEventID: Uuid, addedEventID: Uuid, now: Time) returns (presenterErr: Option<Error>)
      modifies eventStore, eventBus, out
      ensures var (w, o, _) := Execution(old(State()), Env(input, parse, createdEventID, addedEventID, now));
        && State() == w
        && out.calls == old(out.calls) + [Presented(o)]
        && presenterErr == None
    {
      var env := Env(input, parse, createdEventID, addedEventID, now);
      ghost var w0 := State();
      var err: Option<Error> := None;
      var aggregateID: string := "";
      var version := 0;
      var events: seq<Event> := [];
      var attempt := 0;
      while true
        invariant 0 <= attempt < MaxRetries
        invariant Execution(w0, env) == RetryFrom(attempt, State(), Attempt(env))
        invariant out.calls == old(out.calls)
        decreases MaxRetries - attempt
      {
        ghost var before := State();
        var o := Transact(env);
        assert Attempt(env)(before) == (State(), o);
        RetryStep(attempt, before, Attempt(env), State(), o);
        if o.Aborted? {
          err := Some(o.err);
          if o.err.code == OptimisticLock && attempt < MaxRetries - 1 {
            attempt := attempt + 1;
            continue;
          }
          break;
        }
        err := None;
        aggregateID, version, events := o.aggregateID, o.version, o.events;
        break;
      }
      if err.Some? {
        presenterErr := out.PresentError(err.value);
        return;
      }
      presenterErr := out.PresentSuccess(aggregateID, version, events);
    }

    /** One `RWTx` around the closure, with rollback on error and the after-commit publish. */
    method Transact(env: Env) returns (o: Outcome)
      modifies eventStore, eventBus
      ensures (State(), o) == Transaction(old(State()), env)
    {
      var snapshot := eventStore.streams;
      o := RunClosure(env);
      if o.Aborted? {
        eventStore.Restore(snapshot);
        return;
      }
      var _ := eventBus.Publish(o.events);
    }

    method RunClosure(env: Env) returns (o: Outcome)
      modifies eventStore
      ensures (eventStore.State(), o) == Closure(old(eventStore.State()), env)
    {
      var cartUUID := env.parse(env.input.cartID);
      if cartUUID.Malformed? {
        return Aborted(cartUUID.Err());
      }
      var itemUUID := env.parse(env.input.itemID);
      if itemUUID.Malformed? {
        return Aborted(itemUUID.Err());
      }
      var loaded := eventStore.LoadEvents(cartUUID.id);
      if loaded.Failure? && loaded.error.code != NotFound {
        return Aborted(loaded.error);
      }
      var loadedEvents := if loaded.Success? then loaded.value else [];
      var cart := new Cart();
      if |loadedEvents| > 0 {
        var hydrationErr := cart.Hydration(loadedEvents);
        if hydrationErr.Some? {
          // Hydration never reports an error
          assert false;
        }
      }
      assert cart.State() == FromHistory(History(loaded));
      var cmd := AddItemToCartCommand(cartUUID.id, NilUuid, itemUUID.id, env.input.quantity, env.input.price);
      var err := cart.ExecuteAddItemToCartCommand(cmd, env.createdEventID, env.addedEventID, env.now);
      if err.Some? {
        return Aborted(err.value);
      }
      err := eventStore.SaveEvents(cart.GetAggregateID(), cart.GetUncommittedEvents());
      if err.Some? {
        return Aborted(err.value);
      }
      o := Committed(cart.GetAggregateID(), cart.GetVersion(), cart.GetUncommittedEvents());
      cart.MarkEventsAsCommitted();
    }
  }
}
