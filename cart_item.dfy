/** One line of a cart: an item id with its merged quantity and latest unit price. */
module Entity {
  import opened Common
  import opened Value

  datatype CartItem = CartItem(itemID: Uuid, quantity: Quantity, price: Price) {
    function GetItemID(): Uuid { itemID }
    function GetQuantity(): Quantity { quantity }
    function GetPrice(): Price { price }

    /** Unit price times quantity. */
    function GetTotal(): real {
      price.Float64() * quantity.Int() as real
    }
  }

  /** Stores exactly the three given values, read back by the getters. */
  function NewCartItem(itemID: Uuid, quantity: Quantity, price: Price): (r: CartItem)
    ensures r.GetItemID() == itemID && r.GetQuantity() == quantity && r.GetPrice() == price
  {
    CartItem(itemID, quantity, price)
  }

  /** A line built from validated values is worth at least its unit price, which is non-negative. */
  lemma TotalAtLeastPrice(id: Uuid, q: int, p: real)
    requires NewQuantity(q).Success? && NewPrice(p).Success?
    ensures var item := NewCartItem(id, NewQuantity(q).value, NewPrice(p).value);
      item.GetTotal() >= item.GetPrice().Float64() >= 0.0
  {
    var item := NewCartItem(id, NewQuantity(q).value, NewPrice(p).value);
    assert item.GetTotal() == p * q as real;
    assert p * q as real - p == p * (q - 1) as real;
    assert p * (q - 1) as real >= 0.0;
  }
}
