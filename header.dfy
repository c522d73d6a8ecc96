/** The header's cart badge and theme switch. */
module Header {
  import opened Wrappers
  import opened Sequences
  import opened Catalog
  import opened CartStore

  function Quantity(item: CartItem): int {
    item.quantity
  }

  /**
   * The badge count: the line items' quantities added up from the left,
   * starting at zero. It is the sum of the quantities of all line items.
   */
  function TotalItems(cart: Cart): (total: int)
    ensures total == Sum(cart, Quantity)
  {
    ReduceIsSum(cart, Quantity, 0);
    Reduce(cart, Quantity, 0)
  }

  /** The badge: rendered, with the count, exactly when the count is positive. */
  function Badge(cart: Cart): (badge: Option<int>)
    ensures badge.Some? <==> TotalItems(cart) > 0
    ensures badge.Some? ==> badge.value == TotalItems(cart)
  {
    var total := TotalItems(cart);
    if total > 0 then Some(total) else None
  }

  /** When every line item holds a unit, the badge shows exactly when the cart has line items. */
  lemma BadgeShownIffNonEmpty(cart: Cart)
    requires AllPositive(cart)
    ensures Badge(cart).Some? <==> cart != []
  {
    SumAtLeastLength(cart, Quantity);
  }

  /** With unique ids, `addToCart` raises the badge count by one. */
  lemma TotalItemsAfterAdd(cart: Cart, product: Product)
    requires UniqueIds(cart)
    ensures TotalItems(AddItem(cart, product)) == TotalItems(cart) + 1
  {
    if HasId(cart, product.id) {
      var k :| 0 <= k < |cart| && cart[k].product.id == product.id;
      SumAfterAddToPresent(cart, product, k, Quantity);
    } else {
      SumAppend(cart, [CartItem(product, 1)], Quantity);
    }
  }

  /** The theme button: "dark" switches to "light", anything else (including no theme yet) to "dark". */
  function ToggleTheme(theme: Option<string>): (next: string)
    ensures next == "light" || next == "dark"
    ensures next == "light" <==> theme == Some("dark")
  {
    if theme == Some("dark") then "light" else "dark"
  }

  /** Pressing the theme button twice from "dark" or "light" returns to it. */
  lemma ToggleThemeTwice(theme: string)
    requires theme == "dark" || theme == "light"
    ensures ToggleTheme(Some(ToggleTheme(Some(theme)))) == theme
  {
  }
}
