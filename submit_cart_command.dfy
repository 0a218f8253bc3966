/**
 * `SubmitCartCommand.Execute`: in each transaction attempt, parse the cart
 * id, load its history (NotFound meaning none), rebuild the cart, run the
 * purchase command on it, save what it recorded to the event store and
 * then, when that is not empty, to the outbox. Retried on OptimisticLock
 * only; the presenter is called once with the final result.
 *
 * The closure declares its own `events` (`events := ...`), so the events
 * the presenter is given on success are always the empty list.
 */
module SubmitCartUseCase {
  import opened Common
  import opened Event
  import opened CommandPorts
  import opened CommandRetry
  import opened Value
  import opened CartAggregate
  import opened OutboxRepository

  /** The submit input: the cart id as text. */
  datatype SubmitCartInput = SubmitCartInput(cartID: string)

  /** The state an execution changes: the event store and the outbox table. */
  datatype World = World(store: StoreState, outbox: Table)

  /**
   * What an execution depends on besides that state: the input, `uuid.Parse`,
   * the id and clock reading of the purchase event, and the encoder the
   * outbox uses for event data.
   */
  datatype Env = Env(input: SubmitCartInput, parse: string -> ParsedUuid, eventID: Uuid, now: Time,
                     marshal: Event -> Option<Bytes>)

  /** The outbox step: skipped for an empty list. */
  function OutboxWrite(t: Table, aggregateID: Uuid, events: seq<Event>, env: Env): (Table, Option<Error>) {
    if |events| > 0 then Save(t, aggregateID, events, env.marshal, env.now) else (t, None)
  }

  /** The transaction's closure, on the state it sees. */
  function Closure(w: World, env: Env): (World, Outcome) {
    match env.parse(env.input.cartID)
    case Malformed(reason) => (w, Aborted(Error(Uncoded, reason)))
    case Parsed(cartID) =>
      var loaded := LoadResult(w.store, cartID);
      if loaded.Failure? && loaded.error.code != NotFound then (w, Aborted(loaded.error))
      else
        var (cart, err) := Purchase(FromHistory(History(loaded)), env.eventID, env.now);
        if err.Some? then (w, Aborted(err.value))
        else
          var (st1, saveErr) := SaveResult(w.store, cart.aggregateID, cart.uncommitted);
          if saveErr.Some? then (World(st1, w.outbox), Aborted(saveErr.value))
          else
            var (t1, outboxErr) := OutboxWrite(w.outbox, cart.aggregateID, cart.uncommitted, env);
            if outboxErr.Some? then (World(st1, t1), Aborted(outboxErr.value))
            else (World(st1, t1), Committed(cart.aggregateID, cart.version, []))
  }

  /**
   * One `RWTx`: an aborted closure's writes are rolled back (the streams and
   * the outbox rows; ids drawn from the row sequence stay drawn).
   */
  function Transaction(w: World, env: Env): (World, Outcome) {
    var (w1, o) := Closure(w, env);
    if o.Aborted? then (World(w1.store.(streams := w.store.streams), w1.outbox.(rows := w.outbox.rows)), o)
    else (w1, o)
  }

  function Attempt(env: Env): World -> (World, Outcome) {
    w => Transaction(w, env)
  }

  /** The whole `Execute`: final state, final outcome, number of attempts. */
  function Execution(w: World, env: Env): (World, Outcome, nat) {
    Run(w, Attempt(env))
  }

  // ------------------------------------------------------------- properties

  /** The purchase event a successful submit of a rebuilt cart records. */
  function PurchasedEvent(cart: CartState, env: Env): Event {
    CartPurchased(cart.aggregateID, TotalAmount(cart.items).p, env.now, env.eventID, env.now, cart.version + 1)
  }

  /**
   * One transaction: the read faults stay as they are; an abort leaves the
   * streams and the outbox rows alone. A commit reports no events, appends
   * the one purchase event to the stream of the reported cart (carrying the
   * reported version) and adds exactly one PENDING outbox row for it, after
   * the existing rows.
   */
  lemma TransactionFrame(w: World, env: Env)
    ensures var (w1, o) := Transaction(w, env);
      && w1.store.loadFault == w.store.loadFault
      && (o.Aborted? ==> w1.store.streams == w.store.streams && w1.outbox.rows == w.outbox.rows)
      && (o.Committed? ==>
            && o.events == []
            && exists e: Event ::
                 && e.CartPurchased? && e.version == o.version && e.eventID == env.eventID
                 && Stream(w1.store.streams, o.aggregateID) == Stream(w.store.streams, o.aggregateID) + [e]
                 && (forall id :: id != o.aggregateID ==> Stream(w1.store.streams, id) == Stream(w.store.streams, id))
                 && env.marshal(e).Some?
                 && w1.outbox.rows ==
                      w.outbox.rows + [NewRow(w.outbox.nextId, o.aggregateID, e, env.marshal(e).value, env.now)])
  {
    var (w1, o) := Transaction(w, env);
    if env.parse(env.input.cartID).Parsed? {
      var cartID := env.parse(env.input.cartID).id;
      var loaded := LoadResult(w.store, cartID);
      var s := FromHistory(History(loaded));
      assert s.uncommitted == [] by {
        if |History(loaded)| > 0 {
          HydrateKeepsUncommitted(NewCart, History(loaded));
        }
      }
      PurchaseOutcome(s, env.eventID, env.now);
      var (cart, err) := Purchase(s, env.eventID, env.now);
      SaveSpec(w.store, cart.aggregateID, cart.uncommitted);
      if err.None? {
        var e := PurchasedEvent(s, env);
        assert cart.uncommitted == [e];
        SaveAppends(w.outbox, cart.aggregateID, cart.uncommitted, env.marshal, env.now);
        var (t1, outboxErr) := OutboxWrite(w.outbox, cart.aggregateID, cart.uncommitted, env);
        if o.Committed? {
          assert cart.uncommitted[0] == e;
          assert t1.rows == w.outbox.rows + [t1.rows[|w.outbox.rows|]];
        }
      }
    }
  }

  /**
   * Submitting a cart with no history fails with the empty-cart error:
   * the rebuilt cart is new, at version -1. One attempt, nothing changed.
   */
  lemma SubmitWithoutHistory(w: World, env: Env, cartID: Uuid)
    requires env.parse(env.input.cartID) == Parsed(cartID)
    requires w.store.loadFault(cartID).None? && Stream(w.store.streams, cartID) == []
    ensures Execution(w, env) == (w, Aborted(ErrEmptyCart), 1)
  {
    assert Attempt(env)(w) == (w, Aborted(ErrEmptyCart));
    RetryBounds(0, w, Attempt(env));
  }

  /**
   * Submitting the cart a first add-item created (two events, version 2):
   * one attempt reports version 3 and no events, the purchase event is the
   * stream's third, and one PENDING outbox row carries it.
   */
  lemma SubmitAfterFirstAdd(w: World, env: Env, cartID: Uuid, itemID: Uuid, quantity: int, price: real,
                            createdEventID: Uuid, addedEventID: Uuid, addedAt: Time)
    requires env.parse(env.input.cartID) == Parsed(cartID)
    requires NewQuantity(quantity).Success? && NewPrice(price).Success?
    requires w.store.loadFault(cartID).None?
    requires Stream(w.store.streams, cartID) ==
      [CartCreated(cartID, NilUuid, NilUuid, createdEventID, addedAt, 1),
       ItemAddedToCart(cartID, itemID, quantity, price, addedEventID, addedAt, 2)]
    requires NextOutcome(w.store).None?
    requires forall e :: env.marshal(e).Some?
    ensures var (w1, o, n) := Execution(w, env);
      && n == 1 && o == Committed(cartID, 3, [])
      && |Stream(w1.store.streams, cartID)| == 3
      && Stream(w1.store.streams, cartID)[2].CartPurchased?
      && Stream(w1.store.streams, cartID)[2].version == 3
      && |w1.outbox.rows| == |w.outbox.rows| + 1
      && w1.outbox.rows[|w.outbox.rows|].eventID == env.eventID
      && w1.outbox.rows[|w.outbox.rows|].status == Pending
  {
    var history := Stream(w.store.streams, cartID);
    var created, added := history[0], history[1];
    assert history[..1] == [created] && [created][..0] == [];
    var s1 := Hydrate(NewCart, [created]);
    assert s1 == ApplyEvent(Hydrate(NewCart, []), created);
    var s := FromHistory(history);
    assert s == ApplyEvent(s1, added);
    assert FindItem(s1.items, itemID) == -1;
    assert s.version == 2 && s.status == Open && |s.items| == 1 && s.aggregateID == cartID;
    PurchaseOutcome(s, env.eventID, env.now);
    var cart := Purchase(s, env.eventID, env.now).0;
    assert cart.uncommitted == [PurchasedEvent(s, env)];
    SaveSucceedsIffAllEncode(w.outbox, cartID, cart.uncommitted, env.marshal, env.now);
    assert Closure(w, env).1 == Committed(cartID, 3, []);
    assert Attempt(env)(w) == Transaction(w, env);
    TransactionFrame(w, env);
    RetryBounds(0, w, Attempt(env));
  }

  /** The frame an aborted attempt keeps: same streams, read faults and outbox rows. */
  ghost predicate Untouched(w: World, v: World) {
    v.store.streams == w.store.streams && v.store.loadFault == w.store.loadFault && v.outbox.rows == w.outbox.rows
  }

  /** An aborted attempt leaves an untouched state untouched. */
  lemma AbortedAttemptsKeep(w: World, env: Env)
    ensures forall v | Untouched(w, v) && Attempt(env)(v).1.Aborted? :: Untouched(w, Attempt(env)(v).0)
  {
    forall v | Untouched(w, v) && Attempt(env)(v).1.Aborted?
      ensures Untouched(w, Attempt(env)(v).0)
    {
      TransactionFrame(v, env);
    }
  }

  /**
   * What a committed attempt from an untouched state did: reported no
   * events, appended one purchase event to the reported cart's stream and
   * added one outbox row.
   */
  ghost predicate PurchaseRecorded(w: World, w1: World, o: Outcome) {
    o.Committed? ==>
      && o.events == []
      && |Stream(w1.store.streams, o.aggregateID)| == |Stream(w.store.streams, o.aggregateID)| + 1
      && Stream(w1.store.streams, o.aggregateID)[|Stream(w.store.streams, o.aggregateID)|].CartPurchased?
      && |w1.outbox.rows| == |w.outbox.rows| + 1
  }

  lemma CommittedAttemptsRecord(w: World, env: Env)
    ensures forall v | Untouched(w, v) :: PurchaseRecorded(w, Attempt(env)(v).0, Attempt(env)(v).1)
  {
    forall v | Untouched(w, v)
      ensures PurchaseRecorded(w, Attempt(env)(v).0, Attempt(env)(v).1)
    {
      TransactionFrame(v, env);
    }
  }

  /**
   * An execution that ends in an error changes no stream and no outbox row;
   * one that succeeds reports no events, whatever the cart recorded, and
   * has added one purchase event to the cart's stream and one outbox row.
   */
  lemma ExecutionOutcome(w: World, env: Env)
    ensures var (w1, o, _) := Execution(w, env);
      && (o.Aborted? ==> w1.store.streams == w.store.streams && w1.outbox.rows == w.outbox.rows)
      && (o.Committed? ==>
            && o.events == []
            && |Stream(w1.store.streams, o.aggregateID)| == |Stream(w.store.streams, o.aggregateID)| + 1
            && Stream(w1.store.streams, o.aggregateID)[|Stream(w.store.streams, o.aggregateID)|].CartPurchased?
            && |w1.outbox.rows| == |w.outbox.rows| + 1)
  {
    AbortedAttemptsKeep(w, env);
    AbortedRunKeeps(0, w, Attempt(env), v => Untouched(w, v));
    CommittedAttemptsRecord(w, env);
    CommittedRunSatisfies(0, w, Attempt(env), v => Untouched(w, v), (v1, o) => PurchaseRecorded(w, v1, o));
    var r := Execution(w, env);
    assert PurchaseRecorded(w, r.0, r.1);
  }

  // ------------------------------------------------------------------ class

  class SubmitCartCommand {
    const eventStore: EventStore
    const outboxRepo: OutboxTable

    constructor (eventStore: EventStore, outboxRepo: OutboxTable)
      ensures this.eventStore == eventStore && this.outboxRepo == outboxRepo
    {
      this.eventStore, this.outboxRepo := eventStore, outboxRepo;
    }

    function State(): World
      reads eventStore, outboxRepo
    {
      World(eventStore.State(), outboxRepo.State())
    }

    method Execute(input: SubmitCartInput, out: Presenter, parse: string -> ParsedUuid, eventID: Uuid, now: Time,
                   marshal: Event -> Option<Bytes>) returns (presenterErr: Option<Error>)
      modifies eventStore, outboxRepo, out
      ensures var (w, o, _) := Execution(old(State()), Env(input, parse, eventID, now, marshal));
        && State() == w
        && out.calls == old(out.calls) + [Presented(o)]
        && presenterErr == None
    {
      var env := Env(input, parse, eventID, now, marshal);
      ghost var w0 := State();
      var err: Option<Error> := None;
      var aggregateID: string := "";
      var version := 0;
      var events: seq<Event> := [];
      var attempt := 0;
      while true
        invariant 0 <= attempt < MaxRetries
        invariant Execution(w0, env) == RetryFrom(attempt, State(), Attempt(env))
        invariant out.calls == old(out.calls) && events == []
        decreases MaxRetries - attempt
      {
        ghost var before := State();
        var o := Transact(env);
        assert Attempt(env)(before) == (State(), o);
        RetryStep(attempt, before, Attempt(env), State(), o);
        if o.Aborted? {
          err := Some(o.err);
          if o.err.code == OptimisticLock && attempt < MaxRetries - 1 {
            attempt := attempt + 1;
            continue;
          }
          break;
        }
        err := None;
        aggregateID, version := o.aggregateID, o.version;
        break;
      }
      if err.Some? {
        presenterErr := out.PresentError(err.value);
        return;
      }
      presenterErr := out.PresentSuccess(aggregateID, version, events);
    }

    /** One `RWTx` around the closure, with rollback on error. */
    method Transact(env: Env) returns (o: Outcome)
      modifies eventStore, outboxRepo
      ensures (State(), o) == Transaction(old(State()), env)
    {
      var streams, rows := eventStore.streams, outboxRepo.rows;
      o := RunClosure(env);
      if o.Aborted? {
        eventStore.Restore(streams);
        outboxRepo.rows := rows;
      }
    }

    /** The closure; its `events` is a variable of its own, not the one `Execute` presents. */
    method RunClosure(env: Env) returns (o: Outcome)
      modifies eventStore, outboxRepo
      ensures (State(), o) == Closure(old(State()), env)
    {
      var cartID := env.parse(env.input.cartID);
      if cartID.Malformed? {
        return Aborted(cartID.Err());
      }
      var loaded := eventStore.LoadEvents(cartID.id);
      if loaded.Failure? && loaded.error.code != NotFound {
        return Aborted(loaded.error);
      }
      var loadedEvents := History(loaded);
      var cart := new Cart();
      if |loadedEvents| > 0 {
        var hydrationErr := cart.Hydration(loadedEvents);
        if hydrationErr.Some? {
          // Hydration never reports an error
          assert false;
        }
      }
      var err := cart.ExecutePurchaseCartCommand(env.eventID, env.now);
      if err.Some? {
        return Aborted(err.value);
      }
      err := eventStore.SaveEvents(cart.GetAggregateID(), cart.GetUncommittedEvents());
      if err.Some? {
        return Aborted(err.value);
      }
      var events := cart.GetUncommittedEvents();
      if |events| > 0 {
        err := outboxRepo.SaveEvents(cart.GetAggregateID(), events, env.marshal, env.now);
        if err.Some? {
          return Aborted(err.value);
        }
      }
      events := cart.GetUncommittedEvents();
      o := Committed(cart.GetAggregateID(), cart.GetVersion(), []);
      cart.MarkEventsAsCommitted();
    }
  }
}
