/**
 * The cart read model: a created event opens a view, each item-added event
 * appends a line and recomputes the total as the sum of line prices, and a
 * submitted event marks the view SUBMITTED. Every other event is ignored.
 */
module CartProjector {
  import opened Common
  import opened Event
  import opened Projection

  const StatusOpen: string := "OPEN"
  const StatusSubmitted: string := "SUBMITTED"
  const CartNotFound: string := "cart not found"

  /**
   * `dto.CartItemViewDTO`. The item-added event has no name accessor, so a
   * line's name is always empty here.
   */
  datatype CartItemView = CartItemView(id: string, cartID: string, name: string, price: real)

  /** `dto.CartViewDTO`. */
  datatype CartView = CartView(
    id: string, userID: string, status: string, totalAmount: real, itemCount: int,
    items: seq<CartItemView>, createdAt: Time, updatedAt: Time, purchasedAt: Option<Time>, version: int)

  function SumPrices(items: seq<CartItemView>): real {
    if |items| == 0 then 0.0 else SumPrices(items[..|items| - 1]) + items[|items| - 1].price
  }

  /** The count and the total a view reports agree with its lines. */
  predicate Consistent(v: CartView) {
    v.itemCount == |v.items| && v.totalAmount == SumPrices(v.items)
  }

  /** The event kinds the projector handles. */
  predicate Relevant(e: Event) {
    e.CartCreated? || e.ItemAddedToCart? || e.CartSubmitted?
  }

  /** `applyToView`. */
  function ViewAfter(view: Option<CartView>, e: Event): Option<CartView> {
    match e
    case CartCreated(aggregateID, userID, _, _, timestamp, version) =>
      Some(CartView(aggregateID, userID, StatusOpen, 0.0, 0, [], timestamp, timestamp, None, version))
    case ItemAddedToCart(aggregateID, itemID, _, price, _, timestamp, version) =>
      if view.None? then None
      else
        var items := view.value.items + [CartItemView(itemID, aggregateID, "", price)];
        Some(view.value.(totalAmount := SumPrices(items), itemCount := |items|, items := items,
                         updatedAt := timestamp, version := version))
    case CartSubmitted(_, _, _, _, timestamp, version) =>
      if view.None? then None
      else Some(view.value.(status := StatusSubmitted, updatedAt := timestamp, version := version))
    case _ => view
  }

  /** One `Handle` call. */
  function HandleSpec(st: ProjectorState<CartView>, o: StoreOracles<CartView>, e: Event)
    : (ProjectorState<CartView>, Option<Error>)
  {
    Project(st, o, e.eventID, e.aggregateID, Relevant(e), v => ViewAfter(v, e))
  }

  // ------------------------------------------------------------- properties

  /**
   * A created event opens a fresh, empty, OPEN view at the event's version
   * and time, whatever was stored; an item-added or submitted event needs an
   * existing view and keeps its id, user, creation and purchase times; other
   * events leave the view alone.
   */
  lemma ViewAfterSpec(view: Option<CartView>, e: Event)
    ensures e.CartCreated? ==>
      ViewAfter(view, e) ==
        Some(CartView(e.aggregateID, e.userID, StatusOpen, 0.0, 0, [], e.timestamp, e.timestamp, None, e.version))
    ensures (e.ItemAddedToCart? || e.CartSubmitted?) ==> (ViewAfter(view, e).Some? <==> view.Some?)
    ensures (e.ItemAddedToCart? || e.CartSubmitted?) && view.Some? ==>
      var v, v1 := view.value, ViewAfter(view, e).value;
      && v1.id == v.id && v1.userID == v.userID && v1.createdAt == v.createdAt
      && v1.purchasedAt == v.purchasedAt && v1.updatedAt == e.timestamp && v1.version == e.version
    ensures e.ItemAddedToCart? && view.Some? ==>
      var v, v1 := view.value, ViewAfter(view, e).value;
      && v1.status == v.status
      && v1.items == v.items + [CartItemView(e.itemID, e.aggregateID, "", e.price)]
    ensures e.CartSubmitted? && view.Some? ==>
      var v, v1 := view.value, ViewAfter(view, e).value;
      v1.status == StatusSubmitted && v1.items == v.items && v1.totalAmount == v.totalAmount
      && v1.itemCount == v.itemCount
    ensures !Relevant(e) ==> ViewAfter(view, e) == view
  {
  }

  /**
   * Folding an event into a consistent view gives a consistent view, and an
   * item-added event raises the total by exactly the line's price: the
   * quantity takes no part.
   */
  lemma ViewAfterKeepsConsistent(view: Option<CartView>, e: Event)
    requires view.Some? ==> Consistent(view.value)
    ensures ViewAfter(view, e).Some? ==> Consistent(ViewAfter(view, e).value)
    ensures e.ItemAddedToCart? && view.Some? ==>
      ViewAfter(view, e).value.totalAmount == view.value.totalAmount + e.price &&
      ViewAfter(view, e).value.itemCount == view.value.itemCount + 1
  {
    if e.ItemAddedToCart? && view.Some? {
      var items := view.value.items + [CartItemView(e.itemID, e.aggregateID, "", e.price)];
      assert items[..|items| - 1] == view.value.items;
    }
  }

  /** Two item-added events that differ only in quantity project identically. */
  lemma QuantityIgnored(view: Option<CartView>, e: Event, quantity: int)
    requires e.ItemAddedToCart?
    ensures ViewAfter(view, e.(quantity := quantity)) == ViewAfter(view, e)
  {
  }

  /**
   * With a store that never fails, handling a new event leaves the cart's
   * stored view equal to the fold of the event into the previous one.
   */
  lemma HandleFaultless(st: ProjectorState<CartView>, o: StoreOracles<CartView>, e: Event)
    requires Faultless(o) && e.eventID !in st.seen
    ensures var (st1, err) := HandleSpec(st, o, e);
      && err == None && st1.seen == st.seen + {e.eventID}
      && Lookup(st1.views, e.aggregateID) == ViewAfter(Lookup(st.views, e.aggregateID), e)
      && forall id :: id != e.aggregateID ==> Lookup(st1.views, id) == Lookup(st.views, id)
  {
    ProjectFaultless(st, o, e.eventID, e.aggregateID, Relevant(e), v => ViewAfter(v, e));
    ProjectFrame(st, o, e.eventID, e.aggregateID, Relevant(e), v => ViewAfter(v, e));
    ViewAfterSpec(Lookup(st.views, e.aggregateID), e);
  }

  /**
   * The history of a cart with two lines, then submitted, projects into a
   * SUBMITTED view with both lines, their summed price and the last version.
   */
  lemma SubmittedCartScenario(o: StoreOracles<CartView>, cart: Uuid, user: Uuid, tenant: Uuid, t: Time)
    requires Faultless(o)
    ensures
      var created := CartCreated(cart, user, tenant, "e1", t, 1);
      var add1 := ItemAddedToCart(cart, "i1", 2, 100.0, "e2", t + 1, 2);
      var add2 := ItemAddedToCart(cart, "i2", 1, 50.0, "e3", t + 2, 3);
      var submitted := CartSubmitted(cart, 250.0, t + 3, "e4", t + 3, 4);
      var s1 := HandleSpec(ProjectorState({}, map[]), o, created).0;
      var s2 := HandleSpec(s1, o, add1).0;
      var s3 := HandleSpec(s2, o, add2).0;
      var s4 := HandleSpec(s3, o, submitted).0;
      && Lookup(s4.views, cart).Some?
      && var v := Lookup(s4.views, cart).value;
      && v.status == StatusSubmitted && v.itemCount == 2 && v.totalAmount == 150.0
      && v.items == [CartItemView("i1", cart, "", 100.0), CartItemView("i2", cart, "", 50.0)]
      && v.version == 4 && v.createdAt == t && v.updatedAt == t + 3
  {
    var created := CartCreated(cart, user, tenant, "e1", t, 1);
    var add1 := ItemAddedToCart(cart, "i1", 2, 100.0, "e2", t + 1, 2);
    var add2 := ItemAddedToCart(cart, "i2", 1, 50.0, "e3", t + 2, 3);
    var submitted := CartSubmitted(cart, 250.0, t + 3, "e4", t + 3, 4);
    var s0 := ProjectorState({}, map[]);
    HandleFaultless(s0, o, created);
    var s1 := HandleSpec(s0, o, created).0;
    HandleFaultless(s1, o, add1);
    var s2 := HandleSpec(s1, o, add1).0;
    HandleFaultless(s2, o, add2);
    var s3 := HandleSpec(s2, o, add2).0;
    HandleFaultless(s3, o, submitted);
    var v2 := Lookup(s2.views, cart).value;
    assert v2.items == [CartItemView("i1", cart, "", 100.0)];
    ViewAfterKeepsConsistent(Lookup(s1.views, cart), add1);
    ViewAfterKeepsConsistent(Lookup(s2.views, cart), add2);
  }

  // ----------------------------------------------------------------- class

  class CartProjectorImpl {
    const viewRepo: ViewStore<CartView>
    var seen: set<string>

    constructor (viewRepo: ViewStore<CartView>)
      ensures this.viewRepo == viewRepo && seen == {}
    {
      this.viewRepo := viewRepo;
      seen := {};
    }

    function State(): ProjectorState<CartView>
      reads this, viewRepo
    {
      ProjectorState(seen, viewRepo.views)
    }

    method Handle(e: Event) returns (err: Option<Error>)
      modifies this, viewRepo
      ensures (State(), err) == HandleSpec(old(State()), viewRepo.Oracles(), e)
    {
      var eventID := e.GetEventID();
      if eventID in seen {
        return None;
      }
      seen := seen + {eventID};
      if !(e.CartCreated? || e.ItemAddedToCart? || e.CartSubmitted?) {
        return None;
      }
      var aggID := e.GetAggregateID();
      var got := viewRepo.Get(aggID);
      var current: Option<CartView>;
      if got.Failure? {
        if got.error.code == NotFound {
          current := None;
        } else {
          return Some(got.error);
        }
      } else {
        current := Some(got.value);
      }
      var updated := ApplyToView(current, e);
      if updated.Some? {
        err := viewRepo.Upsert(aggID, updated.value);
        return err;
      }
      return None;
    }

    method Start(bus: EventBus) returns (err: Option<Error>)
      modifies bus
      ensures bus.handlers == old(bus.handlers) + [CartProjectorHandler] && err == None
    {
      bus.Subscribe(CartProjectorHandler);
      return None;
    }

    /** `applyToView`, with its summing loop over the new line list. */
    method ApplyToView(view: Option<CartView>, e: Event) returns (r: Option<CartView>)
      ensures r == ViewAfter(view, e)
    {
      match e {
        case CartCreated(aggregateID, userID, _, _, timestamp, version) =>
          return Some(CartView(aggregateID, userID, StatusOpen, 0.0, 0, [], timestamp, timestamp, None, version));
        case ItemAddedToCart(aggregateID, itemID, _, price, _, timestamp, version) =>
          if view.None? {
            return None;
          }
          var newItems := view.value.items + [CartItemView(itemID, aggregateID, "", price)];
          var totalAmount := 0.0;
          var itemCount := 0;
          for k := 0 to |newItems|
            invariant totalAmount == SumPrices(newItems[..k]) && itemCount == k
          {
            assert newItems[..k + 1][..k] == newItems[..k];
            totalAmount := totalAmount + newItems[k].price;
            itemCount := itemCount + 1;
          }
          assert newItems[..|newItems|] == newItems;
          return Some(view.value.(totalAmount := totalAmount, itemCount := itemCount, items := newItems,
                                  updatedAt := timestamp, version := version));
        case CartSubmitted(_, _, _, _, timestamp, version) =>
          if view.None? {
            return None;
          }
          return Some(view.value.(status := StatusSubmitted, updatedAt := timestamp, version := version));
        case _ =>
          return view;
      }
    }
  }
}
