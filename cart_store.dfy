/**
 * The shopping-cart store: the line items held for the session, the four
 * updates the provider exposes, and the storage snapshot written after every
 * change and read back at start-up.
 */
module CartStore {
  import opened Wrappers
  import opened Sequences
  import opened Catalog

  /** A product's fields plus the quantity held. A line item's identity is its product id. */
  datatype CartItem = CartItem(product: Product, quantity: int)

  /** Line items in the order they were first added. */
  type Cart = seq<CartItem>

  function Ids(cart: Cart): seq<int> {
    seq(|cart|, i requires 0 <= i < |cart| => cart[i].product.id)
  }

  ghost predicate HasId(cart: Cart, id: int) {
    exists i :: 0 <= i < |cart| && cart[i].product.id == id
  }

  /** No two line items share a product id. */
  ghost predicate UniqueIds(cart: Cart) {
    forall i, j :: 0 <= i < j < |cart| ==> cart[i].product.id != cart[j].product.id
  }

  /** Every line item holds at least one unit. */
  ghost predicate AllPositive(cart: Cart) {
    forall i :: 0 <= i < |cart| ==> cart[i].quantity >= 1
  }

  /** Looks up a line item by product id. */
  function Find(cart: Cart, id: int): (found: Option<CartItem>)
    ensures found.Some? <==> HasId(cart, id)
    ensures found.Some? ==> found.value in cart && found.value.product.id == id
    decreases |cart|
  {
    if cart == [] then None
    else if cart[0].product.id == id then Some(cart[0])
    else
      assert forall i :: 1 <= i < |cart| ==> cart[i] == cart[1..][i - 1];
      Find(cart[1..], id)
  }

  /**
   * The `addToCart` updater: a product already present gains one unit and
   * keeps its stored fields; a new product is appended with one unit.
   */
  function AddItem(cart: Cart, product: Product): (r: Cart)
    ensures HasId(r, product.id)
    ensures HasId(cart, product.id) ==>
      && |r| == |cart|
      && (forall i :: 0 <= i < |cart| ==> r[i].product == cart[i].product)
      && (forall i :: 0 <= i < |cart| && cart[i].product.id != product.id ==> r[i] == cart[i])
      && (forall i :: 0 <= i < |cart| && cart[i].product.id == product.id ==> r[i].quantity == cart[i].quantity + 1)
    ensures !HasId(cart, product.id) ==> r == cart + [CartItem(product, 1)]
    ensures UniqueIds(cart) ==> UniqueIds(r)
    ensures AllPositive(cart) ==> AllPositive(r)
  {
    match Find(cart, product.id)
    case Some(_) =>
      var r := seq(|cart|, i requires 0 <= i < |cart| =>
        if cart[i].product.id == product.id then cart[i].(quantity := cart[i].quantity + 1) else cart[i]);
      assert forall i :: 0 <= i < |cart| ==> r[i].product == cart[i].product;
      r
    case None =>
      assert (cart + [CartItem(product, 1)])[|cart|].product.id == product.id;
      cart + [CartItem(product, 1)]
  }

  /** The `removeFromCart` updater: keeps the line items whose id differs, in order. */
  function RemoveItem(cart: Cart, id: int): (r: Cart)
    ensures !HasId(r, id)
    ensures SubsequenceOf(r, cart)
    ensures forall item :: multiset(r)[item] == if item.product.id != id then multiset(cart)[item] else 0
    ensures !HasId(cart, id) ==> r == cart
    ensures AllPositive(cart) ==> AllPositive(r)
  {
    var r := Filter(cart, (item: CartItem) => item.product.id != id);
    assert forall i :: 0 <= i < |r| ==> r[i] in r;
    r
  }

  /** The `updateQuantity` updater: the matching line items take `quantity`, unchecked. */
  function SetQuantity(cart: Cart, id: int, quantity: int): (r: Cart)
    ensures |r| == |cart| && Ids(r) == Ids(cart)
    ensures forall i :: 0 <= i < |cart| ==> r[i].product == cart[i].product
    ensures forall i :: 0 <= i < |cart| && cart[i].product.id == id ==> r[i].quantity == quantity
    ensures forall i :: 0 <= i < |cart| && cart[i].product.id != id ==> r[i] == cart[i]
    ensures !HasId(cart, id) ==> r == cart
    ensures UniqueIds(cart) ==> UniqueIds(r)
  {
    seq(|cart|, i requires 0 <= i < |cart| =>
      if cart[i].product.id == id then cart[i].(quantity := quantity) else cart[i])
  }

  /** With unique ids, `find` returns the one line item carrying the id. */
  lemma {:induction false} FindUnique(cart: Cart, id: int, k: nat)
    requires UniqueIds(cart) && k < |cart| && cart[k].product.id == id
    ensures Find(cart, id) == Some(cart[k])
    decreases k
  {
    if k > 0 {
      FindUnique(cart[1..], id, k - 1);
    }
  }

  /** With unique ids, adding a present product is a one-position update of its line item. */
  lemma AddItemToPresent(cart: Cart, product: Product, k: nat)
    requires UniqueIds(cart) && k < |cart| && cart[k].product.id == product.id
    ensures AddItem(cart, product) == cart[k := cart[k].(quantity := cart[k].quantity + 1)]
  {
    assert HasId(cart, product.id);
  }

  /** With unique ids, updating a present id is a one-position update of its line item. */
  lemma SetQuantityAtPresent(cart: Cart, id: int, quantity: int, k: nat)
    requires UniqueIds(cart) && k < |cart| && cart[k].product.id == id
    ensures SetQuantity(cart, id, quantity) == cart[k := cart[k].(quantity := quantity)]
  {
  }

  /** `updateQuantity` validates nothing: a present id can be set to zero units, leaving a line item with none. */
  lemma UpdateQuantityIsUnchecked(cart: Cart, id: int, k: nat)
    requires k < |cart| && cart[k].product.id == id
    ensures !AllPositive(SetQuantity(cart, id, 0))
  {
    assert SetQuantity(cart, id, 0)[k].quantity == 0;
  }

  /** A subsequence of a cart with unique ids has unique ids. */
  lemma {:induction false} SubsequenceKeepsUniqueIds(sub: Cart, cart: Cart)
    requires SubsequenceOf(sub, cart) && UniqueIds(cart)
    ensures UniqueIds(sub)
    decreases |cart|
  {
    if sub != [] {
      if sub[0] == cart[0] && SubsequenceOf(sub[1..], cart[1..]) {
        SubsequenceKeepsUniqueIds(sub[1..], cart[1..]);
        forall j | 1 <= j < |sub|
          ensures sub[0].product.id != sub[j].product.id
        {
          assert sub[j] == sub[1..][j - 1];
          SubsequenceMembers(sub[1..], cart[1..], sub[j]);
        }
        forall i, j | 1 <= i < j < |sub|
          ensures sub[i].product.id != sub[j].product.id
        {
          assert sub[i] == sub[1..][i - 1] && sub[j] == sub[1..][j - 1];
        }
      } else {
        SubsequenceKeepsUniqueIds(sub, cart[1..]);
      }
    }
  }

  /** Removing a line item keeps the ids unique. */
  lemma RemoveItemKeepsUniqueIds(cart: Cart, id: int)
    ensures UniqueIds(cart) ==> UniqueIds(RemoveItem(cart, id))
  {
    if UniqueIds(cart) {
      SubsequenceKeepsUniqueIds(RemoveItem(cart, id), cart);
    }
  }

  /** The units held of one product id, over every line item carrying it. */
  function QuantityWeight(id: int): CartItem -> int {
    (item: CartItem) => if item.product.id == id then item.quantity else 0
  }

  function QuantityOf(cart: Cart, id: int): int {
    Sum(cart, QuantityWeight(id))
  }

  /** With unique ids, the units held of a present id are its line item's quantity; of an absent id, none. */
  lemma {:induction false} QuantityOfUnique(cart: Cart, id: int)
    requires UniqueIds(cart)
    ensures !HasId(cart, id) ==> QuantityOf(cart, id) == 0
    ensures forall k :: 0 <= k < |cart| && cart[k].product.id == id ==> QuantityOf(cart, id) == cart[k].quantity
    decreases |cart|
  {
    if cart != [] {
      QuantityOfUnique(cart[1..], id);
      if cart[0].product.id == id {
        SumOfZeros(cart[1..], QuantityWeight(id));
      } else {
        forall k | 1 <= k < |cart| && cart[k].product.id == id
          ensures QuantityOf(cart, id) == cart[k].quantity
        {
          assert cart[1..][k - 1] == cart[k];
        }
      }
    }
  }

  /** With unique ids, `addToCart(p)` adds exactly one unit to p's id and changes no other id's count. */
  lemma AddItemQuantity(cart: Cart, product: Product, id: int)
    requires UniqueIds(cart)
    ensures QuantityOf(AddItem(cart, product), id) == QuantityOf(cart, id) + (if id == product.id then 1 else 0)
  {
    var w := QuantityWeight(id);
    if HasId(cart, product.id) {
      var k :| 0 <= k < |cart| && cart[k].product.id == product.id;
      SumAfterAddToPresent(cart, product, k, w);
    } else {
      SumAppend(cart, [CartItem(product, 1)], w);
    }
  }

  /** With unique ids, adding a present product changes any weighted sum only at its line item. */
  lemma SumAfterAddToPresent(cart: Cart, product: Product, k: nat, w: CartItem -> int)
    requires UniqueIds(cart) && k < |cart| && cart[k].product.id == product.id
    ensures Sum(AddItem(cart, product), w)
         == Sum(cart, w) - w(cart[k]) + w(cart[k].(quantity := cart[k].quantity + 1))
  {
    AddItemToPresent(cart, product, k);
    SumUpdate(cart, k, cart[k].(quantity := cart[k].quantity + 1), w);
  }

  /** The same, for a weight that one more unit raises by `d`. */
  lemma SumAfterAddToPresentBy(cart: Cart, product: Product, k: nat, w: CartItem -> int, d: int)
    requires UniqueIds(cart) && k < |cart| && cart[k].product.id == product.id
    requires w(cart[k].(quantity := cart[k].quantity + 1)) == w(cart[k]) + d
    ensures Sum(AddItem(cart, product), w) == Sum(cart, w) + d
  {
    SumAfterAddToPresent(cart, product, k, w);
  }

  /** `addToCart` called once for each product of `products`, in order. */
  function AddAll(cart: Cart, products: seq<Product>): Cart
    decreases |products|
  {
    if products == [] then cart else AddAll(AddItem(cart, products[0]), products[1..])
  }

  /** How many of `products` carry the id. */
  function CountId(products: seq<Product>, id: int): nat
    decreases |products|
  {
    if products == [] then 0 else (if products[0].id == id then 1 else 0) + CountId(products[1..], id)
  }

  /**
   * Any run of `addToCart` calls keeps the ids unique, and each id ends up
   * holding as many more units as there were calls with it.
   */
  lemma {:induction false} AddAllQuantities(cart: Cart, products: seq<Product>, id: int)
    requires UniqueIds(cart)
    ensures UniqueIds(AddAll(cart, products))
    ensures QuantityOf(AddAll(cart, products), id) == QuantityOf(cart, id) + CountId(products, id)
    decreases |products|
  {
    if products != [] {
      AddItemQuantity(cart, products[0], id);
      AddAllQuantities(AddItem(cart, products[0]), products[1..], id);
    }
  }

  /** `addToCart(p)` called n times on an empty cart gives a single line item holding n units. */
  function AddTimes(cart: Cart, product: Product, n: nat): Cart {
    if n == 0 then cart else AddItem(AddTimes(cart, product, n - 1), product)
  }

  lemma {:induction false} AddTimesToEmpty(product: Product, n: nat)
    requires n >= 1
    ensures AddTimes([], product, n) == [CartItem(product, n)]
  {
    if n > 1 {
      AddTimesToEmpty(product, n - 1);
      AddItemToPresent([CartItem(product, n - 1)], product, 0);
    }
  }

  /**
   * The value kept under the storage key "cart": the text `JSON.stringify`
   * wrote for a cart, or text that `JSON.parse` rejects.
   */
  datatype Snapshot = Serialized(items: Cart) | Unparsable(text: string)

  function Serialize(cart: Cart): Snapshot {
    Serialized(cart)
  }

  function Parse(snapshot: Snapshot): Option<Cart> {
    match snapshot
    case Serialized(items) => Some(items)
    case Unparsable(_) => None
  }

  /** What the snapshot restores: every field of every line item, in order. */
  lemma ParseSerialize(cart: Cart)
    ensures Parse(Serialize(cart)) == Some(cart)
  {
  }

  const ProviderMissing := "useShoppingCart must be used within a ShoppingCartProvider"

  /** The cart provider: the current line items and the storage key it writes. */
  class ShoppingCart {
    var cart: Cart
    /** The storage key "cart"; `None` when the key is absent. */
    var stored: Option<Snapshot>

    /** The snapshot matches the line items in memory. */
    ghost predicate Persisted()
      reads this
    {
      stored == Some(Serialize(cart))
    }

    /**
     * Mounting the provider: the cart starts empty, the load effect reads the
     * key, the save effect of the first render writes the empty cart, and a
     * snapshot that parsed is then adopted and written back.
     */
    constructor (saved: Option<Snapshot>)
      ensures Persisted()
      ensures saved.None? ==> cart == []
      ensures saved.Some? && Parse(saved.value).None? ==> cart == []
      ensures saved.Some? && Parse(saved.value).Some? ==> cart == Parse(saved.value).value
    {
      cart := [];
      stored := saved;
      new;
      var loaded: Option<Cart> := None;
      if saved.Some? {
        loaded := Parse(saved.value);
      }
      stored := Some(Serialize(cart));
      if loaded.Some? {
        cart := loaded.value;
        stored := Some(Serialize(cart));
      }
    }

    /** The save effect. */
    method Save()
      modifies this
      ensures cart == old(cart)
      ensures Persisted()
    {
      stored := Some(Serialize(cart));
    }

    method AddToCart(product: Product)
      modifies this
      ensures cart == AddItem(old(cart), product)
      ensures UniqueIds(old(cart)) ==> UniqueIds(cart)
      ensures Persisted()
    {
      cart := AddItem(cart, product);
      Save();
    }

    method RemoveFromCart(id: int)
      modifies this
      ensures cart == RemoveItem(old(cart), id)
      ensures UniqueIds(old(cart)) ==> UniqueIds(cart)
      ensures Persisted()
    {
      if UniqueIds(cart) {
        RemoveItemKeepsUniqueIds(cart, id);
      }
      cart := RemoveItem(cart, id);
      Save();
    }

    method UpdateQuantity(id: int, quantity: int)
      modifies this
      ensures cart == SetQuantity(old(cart), id, quantity)
      ensures UniqueIds(old(cart)) ==> UniqueIds(cart)
      ensures Persisted()
    {
      cart := SetQuantity(cart, id, quantity);
      Save();
    }

    method ClearCart()
      modifies this
      ensures cart == []
      ensures Persisted()
    {
      cart := [];
      Save();
    }
  }

  /** `useShoppingCart`: the provider in scope, or the error it throws outside one. */
  function UseShoppingCart(context: Option<ShoppingCart>): (r: Result<ShoppingCart, string>)
    ensures r.Success? <==> context.Some?
    ensures r.Success? ==> r.value == context.value
    ensures r.Failure? ==> r.error == ProviderMissing
  {
    match context
    case Some(provider) => Success(provider)
    case None => Failure(ProviderMissing)
  }
}
