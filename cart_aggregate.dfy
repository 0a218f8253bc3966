/**
 * The cart aggregate: a versioned state machine whose version is -1 until
 * the first command, whose lines are merged by item id, and which records
 * the events each command produces in an uncommitted list.
 *
 * The pure functions `AddItem`, `Purchase`, `ApplyEvent` and `Hydrate`
 * specify the class methods; the lemmas at the end are stated about them.
 */
module CartAggregate {
  import opened Common
  import opened Value
  import opened Entity
  import opened Event

  const ErrCartClosed: Error := Error(UnpermittedOp, "cart is already purchased")
  const ErrEmptyCart: Error := Error(UnpermittedOp, "cannot purchase empty cart")

  /** `CartStatus`; ABANDONED is declared by the source but never assigned. */
  datatype CartStatus = Open | Closed | Abandoned

  /**
   * `command.AddItemToCartCommand`. The aggregate reads `UserID`, a field the
   * command struct no longer declares; the model keeps it.
   */
  datatype AddItemToCartCommand =
    AddItemToCartCommand(cartID: Uuid, userID: Uuid, itemID: Uuid, quantity: int, price: real)

  /** The whole state of a `CartAggregate`. */
  datatype CartState = CartState(
    aggregateID: Uuid,
    userID: Uuid,
    items: seq<CartItem>,
    status: CartStatus,
    version: int,
    uncommitted: seq<Event>)

  /** `NewCartAggregate()`. */
  const NewCart: CartState := CartState(NilUuid, NilUuid, [], Open, -1, [])

  // ------------------------------------------------------------ specification

  /** Index of the first line with the given item id, or -1 when there is none. */
  function FindItem(items: seq<CartItem>, itemID: Uuid): (i: int)
    ensures -1 <= i < |items|
    ensures i == -1 <==> forall k :: 0 <= k < |items| ==> items[k].itemID != itemID
    ensures 0 <= i ==> items[i].itemID == itemID && forall k :: 0 <= k < i ==> items[k].itemID != itemID
  {
    if |items| == 0 then -1
    else if items[0].itemID == itemID then 0
    else
      var j := FindItem(items[1..], itemID);
      if j == -1 then -1 else j + 1
  }

  /** Sum of price times quantity over the lines, accumulated from the first line. */
  function SumTotals(items: seq<CartItem>): real {
    if |items| == 0 then 0.0 else SumTotals(items[..|items| - 1]) + items[|items| - 1].GetTotal()
  }

  /** `GetTotalAmount`: the sum, or 0 when `NewPrice` rejects it (its error is discarded). */
  function TotalAmount(items: seq<CartItem>): Price {
    NewPrice(SumTotals(items)).GetOr(Price(0.0))
  }

  /** The creation step of add-item on a new cart. */
  function Created(s: CartState, cmd: AddItemToCartCommand, createdEventID: Uuid, now: Time): CartState {
    if s.version == -1 then
      // The source passes three arguments to a four-argument constructor; the
      // missing tenant id is the zero UUID here.
      s.(aggregateID := cmd.cartID, userID := cmd.userID, status := Open, version := 1,
         uncommitted := s.uncommitted + [NewCartCreatedEvent(cmd.cartID, 1, cmd.userID, NilUuid, createdEventID, now)])
    else s
  }

  /** `ExecuteAddItemToCartCommand`: the new state and the returned error. */
  function AddItem(s: CartState, cmd: AddItemToCartCommand, createdEventID: Uuid,
                   addedEventID: Uuid, now: Time): (CartState, Option<Error>)
  {
    if s.status == Closed then (s, Some(ErrCartClosed))
    else
      var s1 := Created(s, cmd, createdEventID, now);
      var q := NewQuantity(cmd.quantity);
      var p := NewPrice(cmd.price);
      if q.Failure? then (s1, Some(q.error))
      else if p.Failure? then (s1, Some(p.error))
      else
        var i := FindItem(s1.items, cmd.itemID);
        var evt := NewItemAddedToCartEvent(s1.aggregateID, s1.version + 1, cmd.itemID,
                                           q.value.Int(), p.value.Float64(), addedEventID, now);
        if i >= 0 then
          var merged := s1.items[i].quantity.Add(q.value);
          if merged.Failure? then (s1, Some(merged.error))
          else
            (s1.(items := s1.items[i := NewCartItem(cmd.itemID, merged.value, p.value)],
                 version := s1.version + 1, uncommitted := s1.uncommitted + [evt]), None)
        else
          (s1.(items := s1.items + [NewCartItem(cmd.itemID, q.value, p.value)],
               version := s1.version + 1, uncommitted := s1.uncommitted + [evt]), None)
  }

  /** `ExecutePurchaseCartCommand`: the new state and the returned error. */
  function Purchase(s: CartState, eventID: Uuid, now: Time): (CartState, Option<Error>) {
    if s.version == -1 then (s, Some(ErrEmptyCart))
    else if s.status == Closed then (s, Some(ErrCartClosed))
    else if |s.items| == 0 then (s, Some(ErrEmptyCart))
    else
      var evt := NewCartPurchasedEvent(s.aggregateID, s.version + 1, TotalAmount(s.items).Float64(), eventID, now);
      (s.(version := s.version + 1, uncommitted := s.uncommitted + [evt]), None)
  }

  /**
   * One step of `Hydration`. Validation errors are discarded: a rejected
   * quantity, price or merged quantity becomes the zero value.
   */
  function ApplyEvent(s: CartState, e: Event): CartState {
    match e
    case CartCreated(aggregateID, userID, _, _, _, version) =>
      s.(aggregateID := aggregateID, userID := userID, status := Open, version := version)
    case ItemAddedToCart(_, itemID, quantity, price, _, _, version) =>
      var q := NewQuantity(quantity).GetOr(Quantity(0));
      var p := NewPrice(price).GetOr(Price(0.0));
      var i := FindItem(s.items, itemID);
      if i >= 0 then
        var merged := s.items[i].quantity.Add(q).GetOr(Quantity(0));
        s.(items := s.items[i := NewCartItem(itemID, merged, p)], version := version)
      else
        s.(items := s.items + [NewCartItem(itemID, q, p)], version := version)
    case CartPurchased(_, _, _, _, _, version) =>
      s.(status := Closed, version := version)
    case _ => s
  }

  /** `Hydration(events)`: the events applied in list order. */
  function Hydrate(s: CartState, events: seq<Event>): CartState {
    if |events| == 0 then s else ApplyEvent(Hydrate(s, events[..|events| - 1]), events[|events| - 1])
  }

  /** How a caller rebuilds a cart: `NewCartAggregate()`, then `Hydration` when there is any history. */
  function FromHistory(history: seq<Event>): CartState {
    if |history| > 0 then Hydrate(NewCart, history) else NewCart
  }

  // ------------------------------------------------------------ properties

  /** Every line holds a quantity `NewQuantity` accepts and a price `NewPrice` accepts. */
  predicate ValidLines(items: seq<CartItem>) {
    forall k :: 0 <= k < |items| ==>
      NewQuantity(items[k].quantity.Int()).Success? && NewPrice(items[k].price.Float64()).Success?
  }

  /**
   * Every line holds a non-negative quantity and price. Unlike `ValidLines`
   * this allows the zero quantity a replayed line falls back to.
   */
  predicate NonNegativeLines(items: seq<CartItem>) {
    forall k :: 0 <= k < |items| ==> items[k].quantity.n >= 0 && items[k].price.p >= 0.0
  }

  /** A CLOSED cart rejects add-item with `ErrCartClosed` and nothing changes. */
  lemma ClosedCartRejectsAdd(s: CartState, cmd: AddItemToCartCommand, c: Uuid, a: Uuid, now: Time)
    requires s.status == Closed
    ensures AddItem(s, cmd, c, a, now) == (s, Some(ErrCartClosed))
  {
  }

  /**
   * On a new cart, add-item first creates the cart (version 1, one creation
   * event), then adds the line: two events, version 2.
   */
  lemma AddItemOnNewCart(s: CartState, cmd: AddItemToCartCommand, c: Uuid, a: Uuid, now: Time)
    requires s.version == -1 && s.status != Closed && FindItem(s.items, cmd.itemID) == -1
    requires NewQuantity(cmd.quantity).Success? && NewPrice(cmd.price).Success?
    ensures var r := AddItem(s, cmd, c, a, now);
      && r.1 == None
      && r.0.aggregateID == cmd.cartID && r.0.userID == cmd.userID && r.0.status == Open
      && r.0.version == 2
      && r.0.items == s.items + [CartItem(cmd.itemID, Quantity(cmd.quantity), Price(cmd.price))]
      && |r.0.uncommitted| == |s.uncommitted| + 2
      && r.0.uncommitted[..|s.uncommitted|] == s.uncommitted
      && r.0.uncommitted[|s.uncommitted|] == CartCreated(cmd.cartID, cmd.userID, NilUuid, c, now, 1)
      && r.0.uncommitted[|s.uncommitted| + 1] ==
           ItemAddedToCart(cmd.cartID, cmd.itemID, cmd.quantity, cmd.price, a, now, 2)
  {
  }

  /**
   * Quantity and price are checked after the creation step: on a new cart an
   * invalid one is reported, yet the cart is already at version 1 with its
   * creation event recorded.
   */
  lemma InvalidInputOnNewCart(s: CartState, cmd: AddItemToCartCommand, c: Uuid, a: Uuid, now: Time)
    requires s.version == -1 && s.status != Closed
    requires NewQuantity(cmd.quantity).Failure? || NewPrice(cmd.price).Failure?
    ensures var r := AddItem(s, cmd, c, a, now);
      && r.1 == Some(if NewQuantity(cmd.quantity).Failure? then NewQuantity(cmd.quantity).error
                     else NewPrice(cmd.price).error)
      && r.0.version == 1 && r.0.items == s.items
      && r.0.uncommitted == s.uncommitted + [CartCreated(cmd.cartID, cmd.userID, NilUuid, c, now, 1)]
  {
  }

  /**
   * On an existing cart add-item is all or nothing: success raises the version
   * by one and appends exactly one item-added event carrying the command's own
   * quantity and price; failure changes nothing.
   */
  lemma AddItemOnExistingCart(s: CartState, cmd: AddItemToCartCommand, c: Uuid, a: Uuid, now: Time)
    requires s.version != -1
    ensures var r := AddItem(s, cmd, c, a, now);
      && (r.1.None? ==>
            && r.0.version == s.version + 1
            && r.0.aggregateID == s.aggregateID && r.0.userID == s.userID && r.0.status == s.status
            && r.0.uncommitted == s.uncommitted +
                 [ItemAddedToCart(s.aggregateID, cmd.itemID, cmd.quantity, cmd.price, a, now, s.version + 1)])
      && (r.1.Some? ==> r.0 == s)
  {
  }

  /**
   * Re-adding an item id merges into its line: quantities add up, the price
   * is replaced, the number of lines stays; a merged quantity above 1000 is
   * rejected and the cart is unchanged.
   */
  lemma AddItemMergesLine(s: CartState, cmd: AddItemToCartCommand, c: Uuid, a: Uuid, now: Time, i: int)
    requires s.version != -1 && s.status != Closed
    requires NewQuantity(cmd.quantity).Success? && NewPrice(cmd.price).Success?
    requires 0 <= i < |s.items| && s.items[i].itemID == cmd.itemID && s.items[i].quantity.Int() >= 0
    requires forall k :: 0 <= k < i ==> s.items[k].itemID != cmd.itemID
    ensures var r := AddItem(s, cmd, c, a, now);
      var sum := s.items[i].quantity.Int() + cmd.quantity;
      && (sum <= MaxQuantity ==>
            && r.1 == None && |r.0.items| == |s.items|
            && r.0.items[i] == CartItem(cmd.itemID, Quantity(sum), Price(cmd.price))
            && forall k :: 0 <= k < |s.items| && k != i ==> r.0.items[k] == s.items[k])
      && (sum > MaxQuantity ==> r == (s, Some(ErrQuantityTooLarge)))
  {
    assert FindItem(s.items, cmd.itemID) == i;
  }

  /** Add-item keeps every line within the quantity and price bounds. */
  lemma AddItemKeepsLinesValid(s: CartState, cmd: AddItemToCartCommand, c: Uuid, a: Uuid, now: Time)
    requires ValidLines(s.items)
    ensures ValidLines(AddItem(s, cmd, c, a, now).0.items)
  {
    var r := AddItem(s, cmd, c, a, now);
    if s.status != Closed && r.1.None? {
      var i := FindItem(s.items, cmd.itemID);
      forall k | 0 <= k < |r.0.items|
        ensures NewQuantity(r.0.items[k].quantity.Int()).Success? && NewPrice(r.0.items[k].price.Float64()).Success?
      {
        if k == i || k == |s.items| {
        } else {
          assert r.0.items[k] == s.items[k];
        }
      }
    }
  }

  /** With non-negative lines the sum of line totals is non-negative. */
  lemma {:induction false} SumTotalsNonNegative(items: seq<CartItem>)
    requires NonNegativeLines(items)
    ensures SumTotals(items) >= 0.0
  {
    if |items| > 0 {
      var last := items[|items| - 1];
      assert NonNegativeLines(items[..|items| - 1]) by {
        forall k | 0 <= k < |items| - 1 ensures items[..|items| - 1][k] == items[k] { }
      }
      SumTotalsNonNegative(items[..|items| - 1]);
      ProductNonNegative(last.price.Float64(), last.quantity.Int() as real);
    }
  }

  lemma ProductNonNegative(x: real, y: real)
    requires x >= 0.0 && y >= 0.0
    ensures x * y >= 0.0
  {
  }

  /** The total is the exact sum when it is at most 1000000, and 0 above that. */
  lemma TotalAmountOfLines(items: seq<CartItem>)
    requires NonNegativeLines(items)
    ensures SumTotals(items) <= MaxPrice ==> TotalAmount(items) == Price(SumTotals(items))
    ensures SumTotals(items) > MaxPrice ==> TotalAmount(items) == Price(0.0)
  {
    SumTotalsNonNegative(items);
  }

  /** Lines `NewQuantity` and `NewPrice` accept are non-negative. */
  lemma ValidLinesAreNonNegative(items: seq<CartItem>)
    requires ValidLines(items)
    ensures NonNegativeLines(items)
  {
    forall k | 0 <= k < |items| ensures items[k].quantity.n >= 0 && items[k].price.p >= 0.0 {
      assert NewQuantity(items[k].quantity.Int()).Success? && NewPrice(items[k].price.Float64()).Success?;
    }
  }

  /**
   * Replaying an event keeps every line non-negative: a rejected quantity,
   * price or merged quantity falls back to zero.
   */
  lemma ApplyEventKeepsNonNegativeLines(s: CartState, e: Event)
    requires NonNegativeLines(s.items)
    ensures NonNegativeLines(ApplyEvent(s, e).items)
  {
    if e.ItemAddedToCart? {
      var i := FindItem(s.items, e.itemID);
      var r := ApplyEvent(s, e);
      forall k | 0 <= k < |r.items| ensures r.items[k].quantity.n >= 0 && r.items[k].price.p >= 0.0 {
        if k == i || k == |s.items| {
        } else {
          assert r.items[k] == s.items[k];
        }
      }
    }
  }

  lemma {:induction false} HydrateKeepsNonNegativeLines(s: CartState, events: seq<Event>)
    requires NonNegativeLines(s.items)
    ensures NonNegativeLines(Hydrate(s, events).items)
  {
    if |events| > 0 {
      HydrateKeepsNonNegativeLines(s, events[..|events| - 1]);
      ApplyEventKeepsNonNegativeLines(Hydrate(s, events[..|events| - 1]), events[|events| - 1]);
    }
  }

  /** Add-item keeps every line non-negative, so every reachable cart has a total of at least 0. */
  lemma AddItemKeepsNonNegativeLines(s: CartState, cmd: AddItemToCartCommand, c: Uuid, a: Uuid, now: Time)
    requires NonNegativeLines(s.items)
    ensures NonNegativeLines(AddItem(s, cmd, c, a, now).0.items)
  {
    var r := AddItem(s, cmd, c, a, now);
    if s.status != Closed && r.1.None? {
      var i := FindItem(s.items, cmd.itemID);
      forall k | 0 <= k < |r.0.items| ensures r.0.items[k].quantity.n >= 0 && r.0.items[k].price.p >= 0.0 {
        if k == i || k == |s.items| {
        } else {
          assert r.0.items[k] == s.items[k];
        }
      }
    }
  }

  /**
   * Purchase succeeds exactly on a created, not CLOSED cart with at least one
   * line; it then raises the version by one and appends one purchased event
   * carrying the total, without changing the status. Otherwise nothing changes,
   * and the error is "cannot purchase empty cart" for a cart never created or
   * without lines, and "cart is already purchased" for a CLOSED cart.
   */
  lemma PurchaseOutcome(s: CartState, eventID: Uuid, now: Time)
    ensures var r := Purchase(s, eventID, now);
      && (r.1.None? <==> s.version != -1 && s.status != Closed && |s.items| > 0)
      && (r.1.Some? ==> r.0 == s)
      && (s.version == -1 ==> r.1 == Some(ErrEmptyCart))
      && (s.version != -1 && s.status == Closed ==> r.1 == Some(ErrCartClosed))
      && (s.version != -1 && s.status != Closed && |s.items| == 0 ==> r.1 == Some(ErrEmptyCart))
      && (r.1.None? ==>
            && r.0 == s.(version := s.version + 1, uncommitted := r.0.uncommitted)
            && r.0.uncommitted == s.uncommitted +
                 [CartPurchased(s.aggregateID, TotalAmount(s.items).p, now, eventID, now, s.version + 1)])
  {
  }

  /** Hydrating a concatenation is hydrating the two parts one after the other. */
  lemma {:induction false} HydrateAppend(s: CartState, a: seq<Event>, b: seq<Event>)
    ensures Hydrate(s, a + b) == Hydrate(Hydrate(s, a), b)
    decreases |b|
  {
    if |b| == 0 {
      assert a + b == a;
    } else {
      assert (a + b)[..|a + b| - 1] == a + b[..|b| - 1];
      HydrateAppend(s, a, b[..|b| - 1]);
    }
  }

  /** Hydration never touches the uncommitted list. */
  lemma {:induction false} HydrateKeepsUncommitted(s: CartState, events: seq<Event>)
    ensures Hydrate(s, events).uncommitted == s.uncommitted
  {
    if |events| > 0 {
      HydrateKeepsUncommitted(s, events[..|events| - 1]);
    }
  }

  /** An event that hydration applies: created, item-added or purchased. */
  predicate Applied(e: Event) {
    e.CartCreated? || e.ItemAddedToCart? || e.CartPurchased?
  }

  /** The version after hydration is that of the last applied event, or the old one if none applies. */
  lemma {:induction false} HydrateVersion(s: CartState, events: seq<Event>)
    ensures (forall k :: 0 <= k < |events| ==> !Applied(events[k])) ==> Hydrate(s, events) == s
    ensures forall k :: 0 <= k < |events| && Applied(events[k]) &&
                        (forall m :: k < m < |events| ==> !Applied(events[m])) ==>
                        Hydrate(s, events).version == events[k].version
  {
    if |events| > 0 {
      var n := |events| - 1;
      var init, last := events[..n], events[n];
      HydrateVersion(s, init);
      ApplyVersion(Hydrate(s, init), last);
      assert Hydrate(s, events) == ApplyEvent(Hydrate(s, init), last);
      forall k | 0 <= k < |events| && Applied(events[k]) && (forall m :: k < m < |events| ==> !Applied(events[m]))
        ensures Hydrate(s, events).version == events[k].version
      {
        if k < n {
          assert !Applied(events[n]);
          assert init[k] == events[k];
          assert forall m :: k < m < |init| ==> init[m] == events[m];
        }
      }
      if forall k :: 0 <= k < |events| ==> !Applied(events[k]) {
        assert forall k :: 0 <= k < |init| ==> init[k] == events[k];
        assert !Applied(events[n]);
      }
    }
  }

  /** An applied event sets the version it carries; any other event changes nothing. */
  lemma ApplyVersion(s: CartState, e: Event)
    ensures Applied(e) ==> ApplyEvent(s, e).version == e.version
    ensures !Applied(e) ==> ApplyEvent(s, e) == s
  {
  }

  /**
   * Replay consistency of add-item: hydrating the cart it started from with
   * the events a successful add-item recorded rebuilds the very state the
   * command produced (apart from the uncommitted list).
   */
  lemma AddItemReplay(s: CartState, cmd: AddItemToCartCommand, c: Uuid, a: Uuid, now: Time)
    ensures var r := AddItem(s, cmd, c, a, now);
      && |r.0.uncommitted| >= |s.uncommitted|
      && r.0.uncommitted[..|s.uncommitted|] == s.uncommitted
      && (r.1.None? ==> Hydrate(s, r.0.uncommitted[|s.uncommitted|..]) == r.0.(uncommitted := s.uncommitted))
  {
    var r := AddItem(s, cmd, c, a, now);
    if s.status != Closed && r.1.None? {
      var n := |s.uncommitted|;
      var added := r.0.uncommitted[|r.0.uncommitted| - 1];
      if s.version == -1 {
        var created := r.0.uncommitted[n];
        assert r.0.uncommitted[n..] == [created, added];
        assert [created, added][..1] == [created];
        var h1 := Hydrate(s, [created]);
        assert [created][..0] == [];
        assert Hydrate(s, []) == s;
        assert h1 == ApplyEvent(Hydrate(s, [created][..0]), created);
        assert h1 == Created(s, cmd, c, now).(uncommitted := s.uncommitted);
      } else {
        assert r.0.uncommitted[n..] == [added];
      }
    }
  }

  /**
   * Replay of a purchase closes the cart, although the command itself leaves
   * the status as it was; after the replay add-item is rejected.
   */
  lemma PurchaseReplay(s: CartState, eventID: Uuid, now: Time, cmd: AddItemToCartCommand, c: Uuid, a: Uuid)
    requires Purchase(s, eventID, now).1.None?
    ensures var r := Purchase(s, eventID, now).0;
      var replayed := Hydrate(s, r.uncommitted[|s.uncommitted|..]);
      && r.status == s.status
      && replayed == r.(status := Closed, uncommitted := s.uncommitted)
      && AddItem(replayed, cmd, c, a, now) == (replayed, Some(ErrCartClosed))
  {
    var r := Purchase(s, eventID, now).0;
    var evt := r.uncommitted[|s.uncommitted|];
    assert r.uncommitted[|s.uncommitted|..] == [evt];
    assert Hydrate(s, [evt]) == ApplyEvent(Hydrate(s, []), evt);
  }

  /**
   * The worked scenario: a new cart gets a line at 100, then a second line
   * at 50, then is purchased: versions 2, 3, 4 and a purchase total of 150.
   */
  lemma AddAddPurchaseScenario(cart: Uuid, user: Uuid, item1: Uuid, item2: Uuid,
                               e1: Uuid, e2: Uuid, e3: Uuid, e4: Uuid, e5: Uuid, now: Time)
    requires item1 != item2
    ensures var s1 := AddItem(NewCart, AddItemToCartCommand(cart, user, item1, 1, 100.0), e1, e2, now);
      var s2 := AddItem(s1.0, AddItemToCartCommand(cart, user, item2, 1, 50.0), e3, e4, now);
      var s3 := Purchase(s2.0, e5, now);
      && s1.1 == None && s1.0.version == 2 && |s1.0.uncommitted| == 2
      && s2.1 == None && s2.0.version == 3 && |s2.0.uncommitted| == 3 && |s2.0.items| == 2
      && s3.1 == None && s3.0.version == 4
      && s3.0.uncommitted[3] == CartPurchased(cart, 150.0, now, e5, now, 4)
  {
    var s1 := AddItem(NewCart, AddItemToCartCommand(cart, user, item1, 1, 100.0), e1, e2, now);
    assert s1.0.items == [CartItem(item1, Quantity(1), Price(100.0))];
    var s2 := AddItem(s1.0, AddItemToCartCommand(cart, user, item2, 1, 50.0), e3, e4, now);
    assert FindItem(s1.0.items, item2) == -1;
    assert s2.0.items == [CartItem(item1, Quantity(1), Price(100.0)), CartItem(item2, Quantity(1), Price(50.0))];
    assert s2.0.items[..1] == [CartItem(item1, Quantity(1), Price(100.0))];
    assert s2.0.items[..1][..0] == [];
    assert SumTotals(s2.0.items[..1]) == 100.0;
    assert SumTotals(s2.0.items) == 150.0;
  }

  // ---------------------------------------------------------------- the class

  class Cart {
    var aggregateID: Uuid
    var userID: Uuid
    var items: seq<CartItem>
    var status: CartStatus
    var version: int
    var uncommittedEvents: seq<Event>

    function State(): CartState
      reads this
    {
      CartState(aggregateID, userID, items, status, version, uncommittedEvents)
    }

    /** `NewCartAggregate`: no lines, OPEN, version -1, nothing uncommitted. */
    constructor ()
      ensures State() == NewCart
    {
      aggregateID, userID := NilUuid, NilUuid;
      items, status, version, uncommittedEvents := [], Open, -1, [];
    }

    function GetAggregateID(): Uuid reads this { aggregateID }
    function GetVersion(): int reads this { version }
    function GetUncommittedEvents(): seq<Event> reads this { uncommittedEvents }

    /** `MarkEventsAsCommitted`: empties the uncommitted list and changes nothing else. */
    method MarkEventsAsCommitted()
      modifies this
      ensures State() == old(State()).(uncommitted := [])
    {
      uncommittedEvents := [];
    }

    /** The loop over the lines that both add-item and hydration run. */
    method IndexOfItem(itemID: Uuid) returns (idx: int)
      ensures idx == FindItem(items, itemID)
    {
      idx := 0;
      while idx < |items|
        invariant 0 <= idx <= |items|
        invariant forall k :: 0 <= k < idx ==> items[k].itemID != itemID
      {
        if items[idx].itemID == itemID {
          return;
        }
        idx := idx + 1;
      }
      idx := -1;
    }

    method ExecuteAddItemToCartCommand(cmd: AddItemToCartCommand, createdEventID: Uuid,
                                       addedEventID: Uuid, now: Time) returns (err: Option<Error>)
      modifies this
      ensures (State(), err) == AddItem(old(State()), cmd, createdEventID, addedEventID, now)
    {
      if status == Closed {
        return Some(ErrCartClosed);
      }
      if version == -1 {
        aggregateID := cmd.cartID;
        userID := cmd.userID;
        status := Open;
        version := 1;
        var evt := NewCartCreatedEvent(aggregateID, version, userID, NilUuid, createdEventID, now);
        uncommittedEvents := uncommittedEvents + [evt];
      }
      assert State() == Created(old(State()), cmd, createdEventID, now);
      var quantity := NewQuantity(cmd.quantity);
      if quantity.Failure? {
        return Some(quantity.error);
      }
      var price := NewPrice(cmd.price);
      if price.Failure? {
        return Some(price.error);
      }
      var i := IndexOfItem(cmd.itemID);
      if i >= 0 {
        var newQuantity := items[i].quantity.Add(quantity.value);
        if newQuantity.Failure? {
          return Some(newQuantity.error);
        }
        items := items[i := NewCartItem(cmd.itemID, newQuantity.value, price.value)];
        version := version + 1;
        var evt := NewItemAddedToCartEvent(aggregateID, version, cmd.itemID,
                                           quantity.value.Int(), price.value.Float64(), addedEventID, now);
        uncommittedEvents := uncommittedEvents + [evt];
        return None;
      }
      items := items + [NewCartItem(cmd.itemID, quantity.value, price.value)];
      version := version + 1;
      var evt := NewItemAddedToCartEvent(aggregateID, version, cmd.itemID,
                                         quantity.value.Int(), price.value.Float64(), addedEventID, now);
      uncommittedEvents := uncommittedEvents + [evt];
      return None;
    }

    /** The running sum of line totals, passed through `NewPrice` with its error dropped. */
    method GetTotalAmount() returns (total: Price)
      ensures total == TotalAmount(items)
      ensures 0.0 <= total.Float64() <= MaxPrice
    {
      var sum := 0.0;
      var i := 0;
      while i < |items|
        invariant 0 <= i <= |items|
        invariant sum == SumTotals(items[..i])
      {
        assert items[..i + 1][..i] == items[..i];
        sum := sum + items[i].GetTotal();
        i := i + 1;
      }
      assert items[..i] == items;
      total := NewPrice(sum).GetOr(Price(0.0));
    }

    method ExecutePurchaseCartCommand(eventID: Uuid, now: Time) returns (err: Option<Error>)
      modifies this
      ensures (State(), err) == Purchase(old(State()), eventID, now)
    {
      if version == -1 {
        return Some(ErrEmptyCart);
      }
      if status == Closed {
        return Some(ErrCartClosed);
      }
      if |items| == 0 {
        return Some(ErrEmptyCart);
      }
      version := version + 1;
      var totalAmount := GetTotalAmount();
      var evt := NewCartPurchasedEvent(aggregateID, version, totalAmount.Float64(), eventID, now);
      uncommittedEvents := uncommittedEvents + [evt];
      return None;
    }

    /** Replays the events in order; never fails and never touches the uncommitted list. */
    method Hydration(events: seq<Event>) returns (err: Option<Error>)
      modifies this
      ensures State() == Hydrate(old(State()), events)
      ensures err == None
    {
      var j := 0;
      while j < |events|
        invariant 0 <= j <= |events|
        invariant State() == Hydrate(old(State()), events[..j])
      {
        assert events[..j + 1][..j] == events[..j];
        var e := events[j];
        match e {
          case CartCreated(_, _, _, _, _, _) =>
            aggregateID := e.GetAggregateID();
            userID := e.userID;
            status := Open;
            version := e.GetVersion();
          case ItemAddedToCart(_, _, _, _, _, _, _) =>
            var quantity := NewQuantity(e.quantity).GetOr(Quantity(0));
            var price := NewPrice(e.price).GetOr(Price(0.0));
            var i := IndexOfItem(e.itemID);
            if i >= 0 {
              var newQuantity := items[i].quantity.Add(quantity).GetOr(Quantity(0));
              items := items[i := NewCartItem(e.itemID, newQuantity, price)];
            } else {
              items := items + [NewCartItem(e.itemID, quantity, price)];
            }
            version := e.GetVersion();
          case CartPurchased(_, _, _, _, _, _) =>
            status := Closed;
            version := e.GetVersion();
          case _ =>
        }
        j := j + 1;
      }
      assert events[..j] == events;
      return None;
    }
  }
}
