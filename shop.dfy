/**
 * The cart and order views of the accounts app over three tables: carts, cart items
 * and orders. Each view is a function from the tables and the request to the new
 * tables and the outcome, and a method of `CartStore` that performs the same ORM
 * steps in the source's order.
 */
module Shop {
  import opened Web
  import opened Tables

  /** A product's `uid`. */
  type ProductId = string

  /** A cart row: owner, whether it was paid, the applied coupon's key. */
  datatype Cart = Cart(user: UserId, isPaid: bool, coupon: Option<nat>)

  /** A cart item row: its cart's key, the product, the size variant's key and the
      quantity (an unconstrained integer column). */
  datatype CartItem = CartItem(cart: nat, product: ProductId, size: nat, quantity: int)

  /** An order row; `date` is the order timestamp. */
  datatype Order = Order(orderId: string, user: UserId, date: int)

  /** The product uids in the catalogue and the SizeVariant table (by `size_name`). */
  datatype Catalog = Catalog(products: set<ProductId>, sizes: Table<string>)

  datatype CartState = CartState(carts: Table<Cart>, items: Table<CartItem>, orders: Table<Order>)

  /** The filter `user=user, is_paid=False` on carts. */
  function UnpaidOf(user: UserId): Cart -> bool
  {
    (c: Cart) => c.user == user && !c.isPaid
  }

  /** The filter `cart=cart, product=product, size_variant=size` on items. */
  function ItemIs(cart: nat, product: ProductId, size: nat): CartItem -> bool
  {
    (i: CartItem) => i.cart == cart && i.product == product && i.size == size
  }

  /** No user has two unpaid carts. */
  ghost predicate OneUnpaidCart(carts: map<nat, Cart>)
  {
    forall a, b :: a in carts && b in carts && !carts[a].isPaid && !carts[b].isPaid && carts[a].user == carts[b].user ==> a == b
  }

  /** No two items share cart, product and size. */
  ghost predicate UniqueItems(items: map<nat, CartItem>)
  {
    forall a, b ::
      a in items && b in items && items[a].cart == items[b].cart && items[a].product == items[b].product &&
      items[a].size == items[b].size
      ==> a == b
  }

  /** Every item belongs to a stored cart. */
  ghost predicate ItemsInCarts(items: map<nat, CartItem>, carts: map<nat, Cart>)
  {
    forall k :: k in items ==> items[k].cart in carts
  }

  /** At most one unpaid cart per user; one item per (cart, product, size); every item
      belongs to a stored cart. */
  ghost predicate ValidCarts(s: CartState)
  {
    Wf(s.carts) && Wf(s.items) && Wf(s.orders) &&
    OneUnpaidCart(s.carts.rows) && UniqueItems(s.items.rows) && ItemsInCarts(s.items.rows, s.carts.rows)
  }

  /** The user's unpaid cart, if there is one. */
  function UnpaidCart(s: CartState, user: UserId): (r: Option<nat>)
    requires ValidCarts(s)
    ensures r.Some? <==> exists k :: k in s.carts.rows && s.carts.rows[k].user == user && !s.carts.rows[k].isPaid
    ensures r.Some? ==> r.value in s.carts.rows && s.carts.rows[r.value].user == user && !s.carts.rows[r.value].isPaid
    ensures r.Some? ==> forall k :: k in s.carts.rows && s.carts.rows[k].user == user && !s.carts.rows[k].isPaid ==> k == r.value
  {
    var r := First(s.carts, UnpaidOf(user));
    if r.None? then
      assert forall k :: k in s.carts.rows ==> !UnpaidOf(user)(s.carts.rows[k]);
      r
    else
      assert forall k :: k in s.carts.rows && UnpaidOf(user)(s.carts.rows[k]) ==> k == r.value;
      r
  }

  /** `Cart.objects.get_or_create(user=user, is_paid=False)`: the user's unpaid cart, or
      a new one without a coupon. */
  function GetOrCreateCart(s: CartState, user: UserId): (r: (CartState, nat))
    requires ValidCarts(s)
    ensures ValidCarts(r.0) && r.0.items == s.items && r.0.orders == s.orders
    ensures UnpaidCart(s, user).Some? ==> r.0 == s && r.1 == UnpaidCart(s, user).value
    ensures UnpaidCart(s, user).None? ==>
      r.1 == s.carts.next && r.0.carts == Insert(s.carts, Cart(user, false, None))
    ensures UnpaidCart(r.0, user) == Some(r.1)
  {
    match UnpaidCart(s, user)
    case Some(k) => (s, k)
    case None =>
      var s' := s.(carts := Insert(s.carts, Cart(user, false, None)));
      assert ValidCarts(s');
      assert UnpaidCart(s', user) == Some(s.carts.next);
      (s', s.carts.next)
  }

  // ---------------------------------------------------------------------------
  // add_to_cart
  // ---------------------------------------------------------------------------

  /** The outcomes of `add_to_cart`: no size given; no product with the uid (404); no
      size variant with the name (404), or several (the exception of `get`); the item
      that was created or incremented. */
  datatype AddOutcome = SelectSize | ProductNotFound | SizeNotFound | SizeAmbiguous | Added(item: nat)

  datatype Step<T> = Step(state: CartState, outcome: T)

  /** The size variant named `name`. */
  function SizeNamed(name: string): string -> bool
  {
    (n: string) => n == name
  }

  /** `CartItem.objects.get_or_create(cart=cart, product=uid, size_variant=sz)` followed
      by the increment of an item that already existed. */
  function AddItem(s: CartState, cart: nat, uid: ProductId, sz: nat): (r: Step<AddOutcome>)
    requires ValidCarts(s) && cart in s.carts.rows
    ensures ValidCarts(r.state) && r.state.carts == s.carts && r.state.orders == s.orders
    ensures r.outcome.Added?
    ensures var k := r.outcome.item;
      k in r.state.items.rows && r.state.items.rows[k] .cart == cart &&
      r.state.items.rows[k].product == uid && r.state.items.rows[k].size == sz &&
      r.state.items.rows.Keys == s.items.rows.Keys + {k} &&
      (forall j :: j in s.items.rows && j != k ==> r.state.items.rows[j] == s.items.rows[j]) &&
      (k in s.items.rows ==> r.state.items.rows[k].quantity == s.items.rows[k].quantity + 1) &&
      (k !in s.items.rows ==> (k == s.items.next && r.state.items.rows[k].quantity == 1 &&
         forall j :: j in s.items.rows ==> !ItemIs(cart, uid, sz)(s.items.rows[j])))
  {
    match First(s.items, ItemIs(cart, uid, sz))
    case Some(k) =>
      var item := s.items.rows[k];
      var s' := s.(items := Put(s.items, k, item.(quantity := item.quantity + 1)));
      assert UniqueItems(s'.items.rows);
      Step(s', Added(k))
    case None =>
      var s' := s.(items := Insert(s.items, CartItem(cart, uid, sz, 1)));
      assert UniqueItems(s'.items.rows);
      Step(s', Added(s.items.next))
  }

  /** The size lookup `get_object_or_404(SizeVariant, size_name=name)` and, when it
      finds one variant, the item step. The cart is already in place. */
  function SizeStep(c: Catalog, s: CartState, cart: nat, uid: ProductId, name: string): (r: Step<AddOutcome>)
    requires ValidCarts(s) && Wf(c.sizes) && cart in s.carts.rows
    ensures ValidCarts(r.state) && r.state.carts == s.carts && r.state.orders == s.orders
    ensures r.outcome == SizeNotFound <==> forall k :: k in c.sizes.rows ==> c.sizes.rows[k] != name
    ensures !r.outcome.Added? ==> r.state.items == s.items
    ensures r.outcome.Added? ==>
      (Get(c.sizes, SizeNamed(name)).Found? &&
       c.sizes.rows[Get(c.sizes, SizeNamed(name)).key] == name &&
       r == AddItem(s, cart, uid, Get(c.sizes, SizeNamed(name)).key))
  {
    match Get(c.sizes, SizeNamed(name))
    case DoesNotExist => Step(s, SizeNotFound)
    case MultipleObjectsReturned =>
      assert exists k :: k in c.sizes.rows && SizeNamed(name)(c.sizes.rows[k]);
      Step(s, SizeAmbiguous)
    case Found(sz) =>
      assert SizeNamed(name)(c.sizes.rows[sz]);
      AddItem(s, cart, uid, sz)
  }

  /** `add_to_cart`: a missing size and an unknown product change nothing; otherwise the
      unpaid cart is found or created first, then the size is looked up, then the item is
      found and incremented by one, or created with quantity 1. */
  function AddToCart(c: Catalog, s: CartState, user: UserId, uid: ProductId, size: Option<string>): (r: Step<AddOutcome>)
    requires ValidCarts(s) && Wf(c.sizes)
    ensures ValidCarts(r.state) && r.state.orders == s.orders
    ensures !Truthy(size) ==> r == Step(s, SelectSize)
    ensures Truthy(size) && uid !in c.products ==> r == Step(s, ProductNotFound)
    ensures Truthy(size) && uid in c.products ==>
      r.state.carts == GetOrCreateCart(s, user).0.carts &&
      UnpaidCart(r.state, user) == Some(GetOrCreateCart(s, user).1)
    ensures r.outcome == SizeNotFound <==>
      Truthy(size) && uid in c.products && forall k :: k in c.sizes.rows ==> c.sizes.rows[k] != size.value
    ensures !r.outcome.Added? ==> r.state.items == s.items
  {
    if !Truthy(size) then Step(s, SelectSize)
    else if uid !in c.products then Step(s, ProductNotFound)
    else
      var s1 := GetOrCreateCart(s, user).0;
      var cart := GetOrCreateCart(s, user).1;
      var r := SizeStep(c, s1, cart, uid, size.value);
      assert UnpaidCart(r.state, user) == UnpaidCart(s1, user);
      r
  }

  /** What an added item is: in the user's unpaid cart, with the product and a size
      variant of that name; the only item that changed; one more than before, or 1 when
      new. */
  lemma {:induction false} AddedItem(c: Catalog, s: CartState, user: UserId, uid: ProductId, size: Option<string>)
    requires ValidCarts(s) && Wf(c.sizes) && AddToCart(c, s, user, uid, size).outcome.Added?
    ensures var r := AddToCart(c, s, user, uid, size);
      var k := r.outcome.item;
      k in r.state.items.rows && Some(r.state.items.rows[k].cart) == UnpaidCart(r.state, user) &&
      r.state.items.rows[k].product == uid &&
      r.state.items.rows[k].size in c.sizes.rows && c.sizes.rows[r.state.items.rows[k].size] == size.value &&
      r.state.items.rows.Keys == s.items.rows.Keys + {k} &&
      (forall j :: j in s.items.rows && j != k ==> r.state.items.rows[j] == s.items.rows[j]) &&
      (k in s.items.rows ==> r.state.items.rows[k].quantity == s.items.rows[k].quantity + 1) &&
      (k !in s.items.rows ==> r.state.items.rows[k].quantity == 1)
  {
    var (s1, cart) := GetOrCreateCart(s, user);
    var sz := Get(c.sizes, SizeNamed(size.value)).key;
    assert SizeNamed(size.value)(c.sizes.rows[sz]);
    var r := AddItem(s1, cart, uid, sz);
    assert r.state.carts == s1.carts;
  }

  /** Adding never gives a user a second unpaid cart: an existing unpaid cart is the one
      used, and otherwise exactly one is created. */
  lemma {:induction false} AddKeepsOneUnpaidCart(c: Catalog, s: CartState, user: UserId, uid: ProductId, size: Option<string>)
    requires ValidCarts(s) && Wf(c.sizes)
    ensures var r := AddToCart(c, s, user, uid, size);
      UnpaidCart(s, user).Some? ==> r.state.carts == s.carts
    ensures var r := AddToCart(c, s, user, uid, size);
      r.state.carts.rows.Keys <= s.carts.rows.Keys + {s.carts.next} &&
      forall k :: k in s.carts.rows ==> k in r.state.carts.rows && r.state.carts.rows[k] == s.carts.rows[k]
  {
    if Truthy(size) && uid in c.products {
      var r := AddToCart(c, s, user, uid, size);
      assert r.state.carts == GetOrCreateCart(s, user).0.carts;
    }
  }

  /** An unknown size name is only noticed after the cart step: a user who had no unpaid
      cart is left with a new, empty one. */
  lemma {:induction false} UnknownSizeLeavesCart(c: Catalog, s: CartState, user: UserId, uid: ProductId, name: string)
    requires ValidCarts(s) && Wf(c.sizes) && name != "" && uid in c.products
    requires UnpaidCart(s, user).None?
    requires forall k :: k in c.sizes.rows ==> c.sizes.rows[k] != name
    ensures var r := AddToCart(c, s, user, uid, Some(name));
      r.outcome == SizeNotFound && r.state.items == s.items &&
      r.state.carts.rows == s.carts.rows[s.carts.next := Cart(user, false, None)] &&
      forall k :: k in r.state.items.rows ==> r.state.items.rows[k].cart != s.carts.next
  {
    var r := AddToCart(c, s, user, uid, Some(name));
    assert forall k :: k in s.items.rows ==> s.items.rows[k].cart in s.carts.rows;
  }

  /** Adding the same product and size twice leaves one item of quantity two more than
      before the first call, or quantity 2 when the item was new. */
  lemma {:induction false} AddTwice(c: Catalog, s: CartState, user: UserId, uid: ProductId, size: Option<string>)
    requires ValidCarts(s) && Wf(c.sizes)
    requires AddToCart(c, s, user, uid, size).outcome.Added?
    ensures var r1 := AddToCart(c, s, user, uid, size);
      var r2 := AddToCart(c, r1.state, user, uid, size);
      var k := r1.outcome.item;
      r2.outcome == Added(k) && r2.state.carts == r1.state.carts &&
      r2.state.items.rows[k].quantity == r1.state.items.rows[k].quantity + 1 &&
      r2.state.items.rows.Keys == r1.state.items.rows.Keys
  {
    var r1 := AddToCart(c, s, user, uid, size);
    var k := r1.outcome.item;
    var cart := GetOrCreateCart(s, user).1;
    assert GetOrCreateCart(r1.state, user) == (r1.state, cart);
    var sz := r1.state.items.rows[k].size;
    assert Get(c.sizes, SizeNamed(size.value)) == Found(sz);
    assert ItemIs(cart, uid, sz)(r1.state.items.rows[k]);
    FirstOfUnique(r1.state.items, ItemIs(cart, uid, sz), k);
  }

  // ---------------------------------------------------------------------------
  // update_cart_item, remove_cart, remove_coupon
  // ---------------------------------------------------------------------------

  /** `k` is an item of the user's unpaid cart (`uid=k, cart__user=user,
      cart__is_paid=False`). */
  predicate OwnedItem(s: CartState, user: UserId, k: nat)
  {
    k in s.items.rows && s.items.rows[k].cart in s.carts.rows &&
    s.carts.rows[s.items.rows[k].cart].user == user && !s.carts.rows[s.items.rows[k].cart].isPaid
  }

  /** `update_cart_item`. `itemId` and `quantity` are None when the JSON body, the id or
      `int(...)` fails; then, or when the item is not in the user's unpaid cart, the
      answer is success=False and nothing changes. Otherwise the quantity is overwritten
      with the given integer, whatever its sign. */
  function UpdateCartItem(s: CartState, user: UserId, itemId: Option<nat>, quantity: Option<int>): (r: Step<bool>)
    requires ValidCarts(s)
    ensures ValidCarts(r.state)
    ensures r.outcome <==> itemId.Some? && quantity.Some? && OwnedItem(s, user, itemId.value)
    ensures !r.outcome ==> r.state == s
    ensures r.outcome ==> (r.state.carts == s.carts && r.state.orders == s.orders &&
      r.state.items.next == s.items.next &&
      r.state.items.rows == s.items.rows[itemId.value := s.items.rows[itemId.value].(quantity := quantity.value)])
  {
    if quantity.None? || itemId.None? || !OwnedItem(s, user, itemId.value) then Step(s, false)
    else
      var k := itemId.value;
      var s' := s.(items := Put(s.items, k, s.items.rows[k].(quantity := quantity.value)));
      assert ValidCarts(s');
      Step(s', true)
  }

  /** Repeating an update with the same value changes nothing more. */
  lemma UpdateIdempotent(s: CartState, user: UserId, itemId: Option<nat>, quantity: Option<int>)
    requires ValidCarts(s)
    ensures var r1 := UpdateCartItem(s, user, itemId, quantity);
      UpdateCartItem(r1.state, user, itemId, quantity) == r1
  {
  }

  /** The quantity is stored as given: zero and negative values are accepted too. */
  lemma UpdateStoresAnyQuantity(s: CartState, user: UserId, k: nat, q: int)
    requires ValidCarts(s) && OwnedItem(s, user, k)
    ensures UpdateCartItem(s, user, Some(k), Some(q)).outcome
    ensures UpdateCartItem(s, user, Some(k), Some(q)).state.items.rows[k].quantity == q
  {
  }

  /** `remove_cart`: the item is deleted when it is in the user's unpaid cart. */
  function RemoveCartItem(s: CartState, user: UserId, k: nat): (r: Step<bool>)
    requires ValidCarts(s)
    ensures ValidCarts(r.state)
    ensures r.outcome <==> OwnedItem(s, user, k)
    ensures !r.outcome ==> r.state == s
    ensures r.outcome ==> (r.state.carts == s.carts && r.state.orders == s.orders &&
      r.state.items == Remove(s.items, k) && k !in r.state.items.rows)
  {
    if !OwnedItem(s, user, k) then Step(s, false)
    else
      var s' := s.(items := Remove(s.items, k));
      assert ValidCarts(s');
      Step(s', true)
  }

  /** A second removal of the same item fails and changes nothing. */
  lemma RemoveTwice(s: CartState, user: UserId, k: nat)
    requires ValidCarts(s)
    ensures var r1 := RemoveCartItem(s, user, k);
      RemoveCartItem(r1.state, user, k) == Step(r1.state, false)
  {
  }

  /** `remove_coupon`: the coupon of the cart is cleared when it is the user's unpaid
      cart; every other row stays as it was. */
  function RemoveCoupon(s: CartState, user: UserId, cartId: nat): (r: Step<bool>)
    requires ValidCarts(s)
    ensures ValidCarts(r.state)
    ensures r.outcome <==> cartId in s.carts.rows && s.carts.rows[cartId].user == user && !s.carts.rows[cartId].isPaid
    ensures !r.outcome ==> r.state == s
    ensures r.outcome ==> (r.state.items == s.items && r.state.orders == s.orders && r.state.carts.next == s.carts.next &&
      r.state.carts.rows == s.carts.rows[cartId := s.carts.rows[cartId].(coupon := None)])
  {
    if cartId in s.carts.rows && s.carts.rows[cartId].user == user && !s.carts.rows[cartId].isPaid then
      var s' := s.(carts := Put(s.carts, cartId, s.carts.rows[cartId].(coupon := None)));
      assert ValidCarts(s');
      Step(s', true)
    else Step(s, false)
  }

  // ---------------------------------------------------------------------------
  // order_history, order_details
  // ---------------------------------------------------------------------------

  /** Keys of orders whose dates do not increase along the sequence. */
  ghost predicate NewestFirst(orders: map<nat, Order>, r: seq<nat>)
    requires forall i :: 0 <= i < |r| ==> r[i] in orders
  {
    forall i, j :: 0 <= i < j < |r| ==> orders[r[i]].date >= orders[r[j]].date
  }

  /** `Order.objects.filter(user=user).order_by("-order_date")`: the keys of exactly the
      user's orders, each once, newest first. Orders with equal dates keep key order. */
  method OrderHistory(orders: Table<Order>, user: UserId) returns (r: seq<nat>)
    requires Wf(orders)
    ensures forall i :: 0 <= i < |r| ==> r[i] in orders.rows && orders.rows[r[i]].user == user
    ensures forall k :: k in orders.rows && orders.rows[k].user == user ==> k in r
    ensures forall i, j :: 0 <= i < j < |r| ==> r[i] != r[j]
    ensures NewestFirst(orders.rows, r)
  {
    r := [];
    var k := 0;
    while k < orders.next
      invariant 0 <= k <= orders.next
      invariant forall x :: x in r ==> x < k && x in orders.rows && orders.rows[x].user == user
      invariant forall j :: j < k && j in orders.rows && orders.rows[j].user == user ==> j in r
      invariant forall i, j :: 0 <= i < j < |r| ==> r[i] != r[j]
      invariant NewestFirst(orders.rows, r)
    {
      if k in orders.rows && orders.rows[k].user == user {
        r := InsertByDate(orders.rows, r, k);
      }
      k := k + 1;
    }
  }

  /** Inserts order `k` after every order at least as new and before the older ones. */
  method InsertByDate(orders: map<nat, Order>, r: seq<nat>, k: nat) returns (t: seq<nat>)
    requires k in orders && forall i :: 0 <= i < |r| ==> r[i] in orders
    requires NewestFirst(orders, r)
    ensures |t| == |r| + 1
    ensures forall x :: x in t <==> x in r || x == k
    ensures forall i :: 0 <= i < |t| ==> t[i] in orders
    ensures (forall i, j :: 0 <= i < j < |r| ==> r[i] != r[j]) && k !in r ==> forall i, j :: 0 <= i < j < |t| ==> t[i] != t[j]
    ensures NewestFirst(orders, t)
  {
    var p := NewerCount(orders, r, orders[k].date);
    t := r[..p] + [k] + r[p..];
    InsertedAt(orders, r, k, p, t);
  }

  /** The number of leading orders at least as new as `d`; the orders after them are
      older. */
  method NewerCount(orders: map<nat, Order>, r: seq<nat>, d: int) returns (p: nat)
    requires forall i :: 0 <= i < |r| ==> r[i] in orders
    requires NewestFirst(orders, r)
    ensures p <= |r|
    ensures forall i :: 0 <= i < p ==> orders[r[i]].date >= d
    ensures forall i :: p <= i < |r| ==> orders[r[i]].date < d
  {
    p := 0;
    while p < |r| && orders[r[p]].date >= d
      invariant 0 <= p <= |r|
      invariant forall i :: 0 <= i < p ==> orders[r[i]].date >= d
    {
      p := p + 1;
    }
    assert forall i :: p <= i < |r| ==> orders[r[i]].date < d by {
      forall i | p <= i < |r| ensures orders[r[i]].date < d {
        assert orders[r[p]].date < d;
        if i > p { assert orders[r[p]].date >= orders[r[i]].date; }
      }
    }
  }

  /** Placing `k` at the boundary keeps the sequence newest first. */
  lemma InsertedAt(orders: map<nat, Order>, r: seq<nat>, k: nat, p: nat, t: seq<nat>)
    requires k in orders && forall i :: 0 <= i < |r| ==> r[i] in orders
    requires NewestFirst(orders, r) && p <= |r| && t == r[..p] + [k] + r[p..]
    requires forall i :: 0 <= i < p ==> orders[r[i]].date >= orders[k].date
    requires forall i :: p <= i < |r| ==> orders[r[i]].date < orders[k].date
    ensures |t| == |r| + 1
    ensures forall x :: x in t <==> x in r || x == k
    ensures forall i :: 0 <= i < |t| ==> t[i] in orders
    ensures (forall i, j :: 0 <= i < j < |r| ==> r[i] != r[j]) && k !in r ==> forall i, j :: 0 <= i < j < |t| ==> t[i] != t[j]
    ensures NewestFirst(orders, t)
  {
    InsertedIndices(r, k, p, t);
    assert forall x :: x in r <==> x in r[..p] || x in r[p..] by {
      assert r == r[..p] + r[p..];
    }
    InsertedOrdered(orders, r, k, p, t);
  }

  /** Where each element of `r[..p] + [k] + r[p..]` comes from. */
  lemma InsertedIndices(r: seq<nat>, k: nat, p: nat, t: seq<nat>)
    requires p <= |r| && t == r[..p] + [k] + r[p..]
    ensures |t| == |r| + 1 && t[p] == k
    ensures forall i :: 0 <= i < p ==> t[i] == r[i]
    ensures forall i :: p < i < |t| ==> t[i] == r[i - 1]
  {
  }

  lemma InsertedOrdered(orders: map<nat, Order>, r: seq<nat>, k: nat, p: nat, t: seq<nat>)
    requires k in orders && forall i :: 0 <= i < |r| ==> r[i] in orders
    requires NewestFirst(orders, r) && p <= |r| && |t| == |r| + 1 && t[p] == k
    requires forall i :: 0 <= i < p ==> t[i] == r[i]
    requires forall i :: p < i < |t| ==> t[i] == r[i - 1]
    requires forall i :: 0 <= i < p ==> orders[r[i]].date >= orders[k].date
    requires forall i :: p <= i < |r| ==> orders[r[i]].date < orders[k].date
    ensures forall i :: 0 <= i < |t| ==> t[i] in orders
    ensures NewestFirst(orders, t)
  {
    assert forall i :: 0 <= i < |t| ==> t[i] in orders by {
      forall i | 0 <= i < |t| ensures t[i] in orders {
        if i > p { assert t[i] == r[i - 1]; }
      }
    }
    forall i, j | 0 <= i < j < |t| ensures orders[t[i]].date >= orders[t[j]].date {
      if j < p {
      } else if j == p {
      } else if i < p {
        assert orders[r[i]].date >= orders[r[j - 1]].date;
      } else if i == p {
        assert t[j] == r[j - 1];
      } else {
        assert orders[r[i - 1]].date >= orders[r[j - 1]].date;
      }
    }
  }

  /** Outcome of `get_object_or_404(Order, order_id=..., user=request.user)`: 404, the
      order, or a server error (an anonymous request, whose user is not a key, or several
      orders with the id). */
  datatype OrderLookup = OrderNotFound | OrderShown(key: nat) | OrderError

  function OrderDetails(orders: Table<Order>, user: Option<UserId>, orderId: string): (r: OrderLookup)
    requires Wf(orders)
    ensures user.None? ==> r == OrderError
    ensures r.OrderShown? ==> (r.key in orders.rows && orders.rows[r.key].orderId == orderId &&
      Some(orders.rows[r.key].user) == user)
    ensures r == OrderNotFound <==> (user.Some? &&
      forall k :: k in orders.rows ==> !(orders.rows[k].orderId == orderId && orders.rows[k].user == user.value))
  {
    match user
    case None => OrderError
    case Some(u) =>
      match Get(orders, (o: Order) => o.orderId == orderId && o.user == u)
      case DoesNotExist => OrderNotFound
      case Found(k) => OrderShown(k)
      case MultipleObjectsReturned => OrderError
  }

  /** Another user's order is never shown. */
  lemma OtherUsersOrderHidden(orders: Table<Order>, user: UserId, k: nat)
    requires Wf(orders) && k in orders.rows && orders.rows[k].user != user
    ensures OrderDetails(orders, Some(user), orders.rows[k].orderId) != OrderShown(k)
  {
  }

  // ---------------------------------------------------------------------------
  // Deleting a user's rows
  // ---------------------------------------------------------------------------

  /** The rows that go when a user is deleted (carts, their items and orders cascade). */
  function DeleteUserRows(s: CartState, user: UserId): (r: CartState)
    requires ValidCarts(s)
    ensures ValidCarts(r)
    ensures forall k :: k in r.carts.rows <==> k in s.carts.rows && s.carts.rows[k].user != user
    ensures forall k :: k in r.orders.rows <==> k in s.orders.rows && s.orders.rows[k].user != user
    ensures forall k :: k in r.items.rows <==> k in s.items.rows && s.carts.rows[s.items.rows[k].cart].user != user
    ensures forall k :: k in r.carts.rows ==> r.carts.rows[k] == s.carts.rows[k]
    ensures forall k :: k in r.items.rows ==> r.items.rows[k] == s.items.rows[k]
    ensures forall k :: k in r.orders.rows ==> r.orders.rows[k] == s.orders.rows[k]
  {
    var carts := map k | k in s.carts.rows && s.carts.rows[k].user != user :: s.carts.rows[k];
    var items := map k | k in s.items.rows && s.carts.rows[s.items.rows[k].cart].user != user :: s.items.rows[k];
    var orders := map k | k in s.orders.rows && s.orders.rows[k].user != user :: s.orders.rows[k];
    CartState(Table(carts, s.carts.next), Table(items, s.items.next), Table(orders, s.orders.next))
  }

  // ---------------------------------------------------------------------------
  // The store
  // ---------------------------------------------------------------------------

  class CartStore {
    var carts: Table<Cart>
    var items: Table<CartItem>
    var orders: Table<Order>

    function State(): CartState
      reads this
    {
      CartState(carts, items, orders)
    }

    ghost predicate Valid()
      reads this
    {
      ValidCarts(State())
    }

    constructor()
      ensures Valid() && carts.rows == map[] && items.rows == map[] && orders.rows == map[]
    {
      carts := Table(map[], 0);
      items := Table(map[], 0);
      orders := Table(map[], 0);
    }

    /** `add_to_cart(request, uid)` with `size` from the query string. */
    method Add(c: Catalog, user: UserId, uid: ProductId, size: Option<string>) returns (outcome: AddOutcome)
      requires Valid() && Wf(c.sizes)
      modifies this
      ensures Valid()
      ensures Step(State(), outcome) == AddToCart(c, old(State()), user, uid, size)
    {
      if !Truthy(size) {
        return SelectSize;
      }
      if uid !in c.products {
        return ProductNotFound;
      }
      outcome := AddSized(c, user, uid, size.value);
    }

    /** The steps of `add_to_cart` once the size and the product are known. */
    method AddSized(c: Catalog, user: UserId, uid: ProductId, name: string) returns (outcome: AddOutcome)
      requires Valid() && Wf(c.sizes)
      modifies this
      ensures Valid()
      ensures Step(State(), outcome) ==
        SizeStep(c, GetOrCreateCart(old(State()), user).0, GetOrCreateCart(old(State()), user).1, uid, name)
    {
      var cart := FindOrCreateCart(user);
      ghost var s1 := State();
      var variant := Get(c.sizes, SizeNamed(name));
      if variant.DoesNotExist? {
        return SizeNotFound;
      }
      if variant.MultipleObjectsReturned? {
        return SizeAmbiguous;
      }
      outcome := AddOrIncrement(cart, uid, variant.key);
    }

    /** The `get_or_create` of the unpaid cart. */
    method FindOrCreateCart(user: UserId) returns (cart: nat)
      requires Valid()
      modifies this
      ensures Valid()
      ensures (State(), cart) == GetOrCreateCart(old(State()), user)
    {
      var found := UnpaidCart(State(), user);
      if found.Some? {
        cart := found.value;
      } else {
        cart := carts.next;
        carts := Insert(carts, Cart(user, false, None));
      }
    }

    /** The `get_or_create` of the item and the increment when it existed. */
    method AddOrIncrement(cart: nat, uid: ProductId, sz: nat) returns (outcome: AddOutcome)
      requires Valid() && cart in carts.rows
      modifies this
      ensures Valid()
      ensures Step(State(), outcome) == AddItem(old(State()), cart, uid, sz)
    {
      ghost var s0 := State();
      var existing := First(items, ItemIs(cart, uid, sz));
      if existing.Some? {
        var item := items.rows[existing.value];
        item := item.(quantity := item.quantity + 1);
        items := Put(items, existing.value, item);
        outcome := Added(existing.value);
      } else {
        outcome := Added(items.next);
        items := Insert(items, CartItem(cart, uid, sz, 1));
      }
      assert Step(State(), outcome) == AddItem(s0, cart, uid, sz);
    }

    /** `update_cart_item(request)`. */
    method SetQuantity(user: UserId, itemId: Option<nat>, quantity: Option<int>) returns (success: bool)
      requires Valid()
      modifies this
      ensures Valid()
      ensures Step(State(), success) == UpdateCartItem(old(State()), user, itemId, quantity)
    {
      if quantity.None? || itemId.None? || !OwnedItem(State(), user, itemId.value) {
        return false;
      }
      var item := items.rows[itemId.value];
      item := item.(quantity := quantity.value);
      items := Put(items, itemId.value, item);
      success := true;
    }

    /** `remove_cart(request, uid)`. */
    method RemoveItem(user: UserId, k: nat) returns (success: bool)
      requires Valid()
      modifies this
      ensures Valid()
      ensures Step(State(), success) == RemoveCartItem(old(State()), user, k)
    {
      if !OwnedItem(State(), user, k) {
        return false;
      }
      items := Remove(items, k);
      success := true;
    }

    /** `remove_coupon(request, cart_id)`. */
    method ClearCoupon(user: UserId, cartId: nat) returns (success: bool)
      requires Valid()
      modifies this
      ensures Valid()
      ensures Step(State(), success) == RemoveCoupon(old(State()), user, cartId)
    {
      if cartId in carts.rows && carts.rows[cartId].user == user && !carts.rows[cartId].isPaid {
        carts := Put(carts, cartId, carts.rows[cartId].(coupon := None));
        return true;
      }
      success := false;
    }

    /** The cascade of `user.delete()` over the shop tables. */
    method DeleteRowsOf(user: UserId)
      requires Valid()
      modifies this
      ensures Valid()
      ensures State() == DeleteUserRows(old(State()), user)
    {
      var s := DeleteUserRows(State(), user);
      carts, items, orders := s.carts, s.items, s.orders;
    }
  }
}
