/**
 * The cart page: the order summary, the quantity buttons and the simulated
 * checkout. Money is in whole cents.
 */
module CartPage {
  import opened Wrappers
  import opened Sequences
  import opened Catalog
  import opened CartStore
  import Header

  /** Shipping is free above $50.00 ... */
  const FreeShippingThreshold := 5000
  /** ... and $10.00 otherwise. */
  const FlatShippingFee := 1000

  function LineTotal(item: CartItem): int {
    item.product.price * item.quantity
  }

  /**
   * The subtotal: the line totals added up from the left, starting at zero.
   * It is the sum over the line items of price times quantity.
   */
  function TotalPrice(cart: Cart): (subtotal: int)
    ensures subtotal == Sum(cart, LineTotal)
  {
    ReduceIsSum(cart, LineTotal, 0);
    Reduce(cart, LineTotal, 0)
  }

  /** Free shipping strictly above the threshold, the flat fee otherwise. */
  function ShippingFee(subtotal: int): (fee: int)
    ensures fee == 0 || fee == FlatShippingFee
    ensures fee == 0 <==> subtotal > FreeShippingThreshold
  {
    if subtotal > FreeShippingThreshold then 0 else FlatShippingFee
  }

  /** A larger subtotal never pays more shipping; exactly $50.00 still pays the fee. */
  lemma ShippingFeeMonotone(a: int, b: int)
    requires a <= b
    ensures ShippingFee(b) <= ShippingFee(a)
    ensures ShippingFee(FreeShippingThreshold) == FlatShippingFee
    ensures ShippingFee(FreeShippingThreshold + 1) == 0
  {
  }

  function FinalTotal(cart: Cart): (total: int)
    ensures total - TotalPrice(cart) == ShippingFee(TotalPrice(cart))
    ensures total > FreeShippingThreshold
         || total == TotalPrice(cart) + FlatShippingFee
  {
    var subtotal := TotalPrice(cart);
    subtotal + ShippingFee(subtotal)
  }

  /**
   * The hint "Add $x more to get free shipping", shown while a fee is charged.
   * As written it names the distance to the threshold itself.
   */
  function FreeShippingHint(subtotal: int): (more: Option<int>)
    ensures more.Some? <==> ShippingFee(subtotal) > 0
    ensures more.Some? ==> more.value >= 0 && subtotal + more.value == FreeShippingThreshold
  {
    if ShippingFee(subtotal) > 0 then Some(FreeShippingThreshold - subtotal) else None
  }

  /** Adding exactly the amount the hint names still leaves the fee charged. */
  lemma HintAmountStillPaysShipping(subtotal: int)
    requires FreeShippingHint(subtotal).Some?
    ensures ShippingFee(subtotal + FreeShippingHint(subtotal).value) == FlatShippingFee
  {
  }

  /** The hint as intended: the least amount in cents whose addition makes shipping free. */
  function CorrectedFreeShippingHint(subtotal: int): (more: Option<int>)
    ensures more.Some? <==> ShippingFee(subtotal) > 0
    ensures more.Some? ==> more.value >= 1 && ShippingFee(subtotal + more.value) == 0
    ensures more.Some? ==> ShippingFee(subtotal + more.value - 1) > 0
  {
    if ShippingFee(subtotal) > 0 then Some(FreeShippingThreshold + 1 - subtotal) else None
  }

  /** The minus button: one unit less than shown, but never below one unit. */
  function DecrementRequest(quantity: int): (requested: int)
    ensures requested >= 1
    ensures requested <= quantity || quantity < 1
    ensures quantity > 1 ==> requested == quantity - 1
    ensures quantity <= 1 ==> requested == 1
  {
    if quantity - 1 > 1 then quantity - 1 else 1
  }

  /** The plus button: one unit more than shown, which the minus button undoes. */
  function IncrementRequest(quantity: int): (requested: int)
    ensures requested > quantity
    ensures quantity < 1 ==> requested == quantity + 1
    ensures quantity >= 1 ==> DecrementRequest(requested) == quantity
  {
    quantity + 1
  }

  /** What the user can do to the cart from the interface. */
  datatype UiAction =
    | AddProduct(product: Product)
    | Decrement(line: nat)
    | Increment(line: nat)
    | RemoveLine(line: nat)
    | CompleteCheckout

  /**
   * The update an action causes; a button for a line the page does not show
   * does nothing. No action lowers a line item below one unit or introduces a
   * second line item for an id.
   */
  function Apply(cart: Cart, action: UiAction): (next: Cart)
    ensures AllPositive(cart) ==> AllPositive(next)
    ensures UniqueIds(cart) ==> UniqueIds(next)
  {
    match action
    case AddProduct(product) => AddItem(cart, product)
    case Decrement(k) =>
      if k < |cart| then SetQuantity(cart, cart[k].product.id, DecrementRequest(cart[k].quantity)) else cart
    case Increment(k) =>
      if k < |cart| then SetQuantity(cart, cart[k].product.id, IncrementRequest(cart[k].quantity)) else cart
    case RemoveLine(k) =>
      if k < |cart| then
        RemoveItemKeepsUniqueIds(cart, cart[k].product.id);
        RemoveItem(cart, cart[k].product.id)
      else cart
    case CompleteCheckout => []
  }

  function ApplyAll(cart: Cart, actions: seq<UiAction>): Cart
    decreases |actions|
  {
    if actions == [] then cart else ApplyAll(Apply(cart, actions[0]), actions[1..])
  }

  /** Driven only from the interface, no line item ever falls below one unit. */
  lemma {:induction false} UiKeepsQuantitiesPositive(cart: Cart, actions: seq<UiAction>)
    requires AllPositive(cart)
    ensures AllPositive(ApplyAll(cart, actions))
    decreases |actions|
  {
    if actions != [] {
      UiKeepsQuantitiesPositive(Apply(cart, actions[0]), actions[1..]);
    }
  }

  /** Driven only from the interface, the ids stay unique. */
  lemma {:induction false} UiKeepsIdsUnique(cart: Cart, actions: seq<UiAction>)
    requires UniqueIds(cart)
    ensures UniqueIds(ApplyAll(cart, actions))
    decreases |actions|
  {
    if actions != [] {
      UiKeepsIdsUnique(Apply(cart, actions[0]), actions[1..]);
    }
  }

  /**
   * The summary's "(n items)" counts line items, not units: never more than
   * the badge count, and equal to it only when every line item holds one unit.
   */
  lemma ItemsLabelCountsLines(cart: Cart)
    requires AllPositive(cart)
    ensures |cart| <= Header.TotalItems(cart)
    ensures |cart| == Header.TotalItems(cart) <==> forall i :: 0 <= i < |cart| ==> cart[i].quantity == 1
  {
    SumAtLeastLength(cart, Header.Quantity);
  }

  /** The price per unit that `addToCart(p)` adds: the one already in the cart for p's id, else p's own. */
  function AddedUnitPrice(cart: Cart, product: Product): int {
    match Find(cart, product.id)
    case Some(item) => item.product.price
    case None => product.price
  }

  /**
   * With unique ids, `addToCart(p)` raises the subtotal by one unit at the
   * price the cart already holds for p's id, or at p's price when p is new.
   */
  lemma TotalPriceAfterAdd(cart: Cart, product: Product)
    requires UniqueIds(cart)
    ensures TotalPrice(AddItem(cart, product)) == TotalPrice(cart) + AddedUnitPrice(cart, product)
  {
    if HasId(cart, product.id) {
      var k :| 0 <= k < |cart| && cart[k].product.id == product.id;
      FindUnique(cart, product.id, k);
      OneMoreUnit(cart[k]);
      SumAfterAddToPresentBy(cart, product, k, LineTotal, cart[k].product.price);
    } else {
      SumAppend(cart, [CartItem(product, 1)], LineTotal);
    }
  }

  lemma OneMoreUnit(item: CartItem)
    ensures LineTotal(item.(quantity := item.quantity + 1)) == LineTotal(item) + item.product.price
  {
  }

  /** An empty cart: no subtotal, no badge count, and the flat fee. */
  lemma EmptyCartSummary()
    ensures TotalPrice([]) == 0 && Header.TotalItems([]) == 0
    ensures FinalTotal([]) == FlatShippingFee
  {
  }

  /** Adding any product twice to an empty cart gives one line item holding two units. */
  lemma TwiceAddedScenario(product: Product)
    ensures AddItem(AddItem([], product), product) == [CartItem(product, 2)]
  {
    AddTimesToEmpty(product, 2);
    assert AddTimes([], product, 2) == AddItem(AddItem([], product), product);
  }

  /** Two units at $19.99: the summary reads $39.98 + $10.00 = $49.98. */
  lemma TwoAt1999Summary(item: CartItem)
    requires item.product.price == 1999 && item.quantity == 2
    ensures TotalPrice([item]) == 3998
    ensures ShippingFee(TotalPrice([item])) == 1000
    ensures FinalTotal([item]) == 4998
  {
    var line := [item];
    assert line[1..] == [];
    assert TotalPrice(line) == Reduce(line[1..], LineTotal, 0 + LineTotal(item));
  }

  /** A $60.00 subtotal ships free, so the total is $60.00. */
  lemma FreeShippingScenario(cart: Cart)
    requires TotalPrice(cart) == 6000
    ensures ShippingFee(TotalPrice(cart)) == 0
    ensures FinalTotal(cart) == 6000
  {
  }

  /** The values the progress bar takes when it starts from 0. */
  ghost predicate ProgressReachable(p: int) {
    0 <= p <= 100 && p % 25 == 0
  }

  /**
   * The interval's updater: stop at 100, otherwise advance by 25. From a
   * reachable value a tick stays reachable, never lowers the progress and
   * never passes 100; it reaches 100 exactly from 75 upwards.
   */
  function NextProgress(previous: int): (next: int)
    ensures ProgressReachable(previous) ==> ProgressReachable(next) && previous <= next <= 100
    ensures next >= 100 <==> previous >= 75
    ensures previous < 100 ==> next == previous + 25
  {
    if previous >= 100 then 100 else previous + 25
  }

  /** The progress after n ticks from 0. */
  function ProgressAfter(n: nat): int {
    if n == 0 then 0 else NextProgress(ProgressAfter(n - 1))
  }

  /** After n ticks the bar shows min(25 n, 100). */
  lemma {:induction false} ProgressAfterTicks(n: nat)
    ensures ProgressAfter(n) == if 25 * n >= 100 then 100 else 25 * n
  {
    if n > 0 {
      ProgressAfterTicks(n - 1);
    }
  }

  /** The page's checkout state: `isCheckingOut` and `checkoutProgress`. */
  class Checkout {
    var checkingOut: bool
    var progress: int

    ghost predicate Valid()
      reads this
    {
      ProgressReachable(progress)
    }

    constructor ()
      ensures !checkingOut && progress == 0
      ensures Valid()
    {
      checkingOut := false;
      progress := 0;
    }

    /** `handleCheckout`; the button is disabled while a checkout runs. */
    method HandleCheckout()
      modifies this
      ensures checkingOut
      ensures progress == if old(checkingOut) then old(progress) else 0
      ensures old(Valid()) ==> Valid()
    {
      if !checkingOut {
        checkingOut := true;
        progress := 0;
      }
    }

    /** One firing of the interval, which runs only while checking out. */
    method Tick()
      requires Valid()
      modifies this
      ensures Valid()
      ensures checkingOut == old(checkingOut)
      ensures progress == if old(checkingOut) then NextProgress(old(progress)) else old(progress)
      ensures old(progress) <= progress <= 100
    {
      if checkingOut {
        progress := NextProgress(progress);
      }
    }

    /** The timeout at the end of checkout: the cart is cleared and the flag drops. */
    method Complete(store: ShoppingCart)
      modifies this, store
      ensures store.cart == []
      ensures store.Persisted()
      ensures !checkingOut && progress == old(progress)
    {
      store.ClearCart();
      checkingOut := false;
    }
  }
}
