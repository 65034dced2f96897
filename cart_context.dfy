/**
 * The browser-side cart. The server stores bare lines (`productId`,
 * `quantity`); the client joins each line with its product from the catalogue
 * to price it, and every edit rewrites the line list, strips the products off
 * again and sends the whole list back with a PUT.
 */
module CartContext {
  import opened Wrappers
  import opened Schema
  import opened Tables
  import opened Storage
  import Routes

  /** A cart line joined with its product. */
  datatype CartItem = CartItem(productId: int, quantity: int, product: Product)

  /** The cart the client holds: the server's cart with its lines joined. */
  datatype ClientCart = ClientCart(
    id: int, userId: Option<int>, sessionId: Option<string>, items: seq<CartItem>,
    createdAt: Time, updatedAt: Time)

  // ---------------------------------------------------------------- join and strip

  /** `({ product, ...item }) => item`, over a whole list. */
  function Strip(items: seq<CartItem>): (r: seq<CartLine>)
    ensures |r| == |items|
    ensures forall i :: 0 <= i < |r| ==> r[i] == CartLine(items[i].productId, items[i].quantity)
  {
    if |items| == 0 then [] else [CartLine(items[0].productId, items[0].quantity)] + Strip(items[1..])
  }

  /** The line names a product of the catalogue. */
  function Known(products: seq<Product>): CartLine -> bool {
    (l: CartLine) => exists i :: 0 <= i < |products| && products[i].id == l.productId
  }

  /** The first catalogue entry with this id: `products.find(p => p.id === productId)`. */
  function ProductById(products: seq<Product>, productId: int): (r: Option<Product>)
    ensures r.Some? ==> r.value in products && r.value.id == productId
    ensures r.None? <==> forall i :: 0 <= i < |products| ==> products[i].id != productId
  {
    Find(products, (p: Product) => p.id == productId)
  }

  /**
   * Each line joined with its product; a line whose product is not in the
   * catalogue is dropped.
   */
  function Join(lines: seq<CartLine>, products: seq<Product>): (r: seq<CartItem>)
    ensures |r| <= |lines|
    ensures forall i :: 0 <= i < |r| ==> r[i].product in products && r[i].product.id == r[i].productId
  {
    if |lines| == 0 then []
    else
      var rest := Join(lines[1..], products);
      match ProductById(products, lines[0].productId)
      case None => rest
      case Some(p) => [CartItem(lines[0].productId, lines[0].quantity, p)] + rest
  }

  /** Joining keeps exactly the lines with a known product, in their order, and nothing else. */
  lemma {:induction false} JoinKeepsKnownLines(lines: seq<CartLine>, products: seq<Product>)
    ensures Strip(Join(lines, products)) == Filter(lines, Known(products))
  {
    if |lines| > 0 {
      JoinKeepsKnownLines(lines[1..], products);
      var l := lines[0];
      match ProductById(products, l.productId)
      case None =>
      case Some(p) =>
        var item := CartItem(l.productId, l.quantity, p);
        assert Strip([item] + Join(lines[1..], products)) == [l] + Strip(Join(lines[1..], products));
    }
  }

  /** A joined list whose products are all known is its own lines again: join undoes strip. */
  lemma {:induction false} JoinStripRoundTrip(items: seq<CartItem>, products: seq<Product>)
    requires forall i :: 0 <= i < |items| ==> ProductById(products, items[i].productId) == Some(items[i].product)
    ensures Join(Strip(items), products) == items
  {
    if |items| > 0 {
      JoinStripRoundTrip(items[1..], products);
      assert Strip(items)[1..] == Strip(items[1..]);
    }
  }

  /**
   * The `useEffect` that sets the client cart: a cart with lines is joined,
   * a cart without lines is taken as it is.
   */
  function ToClient(c: Cart, products: seq<Product>): (r: ClientCart)
    ensures r.id == c.id && r.userId == c.userId && r.sessionId == c.sessionId
    ensures Strip(r.items) == Filter(c.items, Known(products))
  {
    JoinKeepsKnownLines(c.items, products);
    ClientCart(c.id, c.userId, c.sessionId, Join(c.items, products), c.createdAt, c.updatedAt)
  }

  // ---------------------------------------------------------------- totals

  /** `item.product.salePrice || item.product.price`: a missing or zero sale price falls back to the list price. */
  function UnitPrice(p: Product): (r: int)
    ensures p.salePrice.Some? && p.salePrice.value != 0 ==> r == p.salePrice.value
    ensures p.salePrice.None? || p.salePrice.value == 0 ==> r == p.price
  {
    match p.salePrice
    case Some(s) => if s != 0 then s else p.price
    case None => p.price
  }

  /** The sum of unit price times quantity over the items; never negative when no price or quantity is. */
  function Total(items: seq<CartItem>): (r: int)
    ensures items == [] ==> r == 0
    ensures (forall i :: 0 <= i < |items| ==> UnitPrice(items[i].product) >= 0 && items[i].quantity >= 0) ==> r >= 0
  {
    if |items| == 0 then 0 else UnitPrice(items[0].product) * items[0].quantity + Total(items[1..])
  }

  /** The sum of the quantities of the lines. */
  function ItemCount(lines: seq<CartLine>): (r: int)
    ensures lines == [] ==> r == 0
  {
    if |lines| == 0 then 0 else lines[0].quantity + ItemCount(lines[1..])
  }

  /** `cartTotal`: 0 when there is no cart. */
  function CartTotal(cart: Option<ClientCart>): (r: int)
    ensures cart.None? || cart.value.items == [] ==> r == 0
  {
    match cart
    case None => 0
    case Some(c) => Total(c.items)
  }

  /** `cartItemCount`: 0 when there is no cart. */
  function CartItemCount(cart: Option<ClientCart>): (r: int)
    ensures cart.None? || cart.value.items == [] ==> r == 0
  {
    match cart
    case None => 0
    case Some(c) => ItemCount(Strip(c.items))
  }

  /** The total of a concatenation is the sum of the totals: the reduce can be split anywhere. */
  lemma {:induction false} TotalAppend(a: seq<CartItem>, b: seq<CartItem>)
    ensures Total(a + b) == Total(a) + Total(b)
  {
    if |a| > 0 {
      assert (a + b)[1..] == a[1..] + b;
      TotalAppend(a[1..], b);
    } else {
      assert a + b == b;
    }
  }

  /** The item count of a concatenation is the sum of the item counts. */
  lemma {:induction false} ItemCountAppend(a: seq<CartLine>, b: seq<CartLine>)
    ensures ItemCount(a + b) == ItemCount(a) + ItemCount(b)
  {
    if |a| > 0 {
      assert (a + b)[1..] == a[1..] + b;
      ItemCountAppend(a[1..], b);
    } else {
      assert a + b == b;
    }
  }

  /** Lines of quantity at least 1 make every item count at least the number of lines. */
  lemma {:induction false} ItemCountAtLeastLines(lines: seq<CartLine>)
    requires PositiveQuantities(lines)
    ensures ItemCount(lines) >= |lines|
  {
    if |lines| > 0 {
      ItemCountAtLeastLines(lines[1..]);
    }
  }

  // ---------------------------------------------------------------- line rewrites

  /** How many lines carry this product. */
  function Occurrences(lines: seq<CartLine>, productId: int): (r: nat)
    ensures r <= |lines|
    ensures r == 0 <==> forall i :: 0 <= i < |lines| ==> lines[i].productId != productId
  {
    if |lines| == 0 then 0
    else (if lines[0].productId == productId then 1 else 0) + Occurrences(lines[1..], productId)
  }

  /** No two lines carry the same product. */
  ghost predicate DistinctProducts(lines: seq<CartLine>) {
    forall i, j :: 0 <= i < j < |lines| ==> lines[i].productId != lines[j].productId
  }

  /** Every line has a quantity of at least 1. */
  ghost predicate PositiveQuantities(lines: seq<CartLine>) {
    forall i :: 0 <= i < |lines| ==> lines[i].quantity >= 1
  }

  /** Every line carrying the product gets `quantity` more; the others are unchanged. */
  function Bump(lines: seq<CartLine>, productId: int, quantity: int): (r: seq<CartLine>)
    ensures |r| == |lines|
    ensures forall i :: 0 <= i < |r| ==> r[i].productId == lines[i].productId
    ensures forall i :: 0 <= i < |r| ==>
              r[i].quantity == (if lines[i].productId == productId then lines[i].quantity + quantity else lines[i].quantity)
  {
    if |lines| == 0 then []
    else
      var l := lines[0];
      [if l.productId == productId then l.(quantity := l.quantity + quantity) else l] + Bump(lines[1..], productId, quantity)
  }

  /**
   * `addToCart` on an existing cart: a product already in the cart has its
   * line(s) increased, a new one is appended as a line of its own.
   */
  function AddLine(lines: seq<CartLine>, productId: int, quantity: int): (r: seq<CartLine>)
    ensures Occurrences(lines, productId) > 0 ==> r == Bump(lines, productId, quantity)
    ensures Occurrences(lines, productId) == 0 ==> r == lines + [CartLine(productId, quantity)]
  {
    if exists i :: 0 <= i < |lines| && lines[i].productId == productId then Bump(lines, productId, quantity)
    else lines + [CartLine(productId, quantity)]
  }

  /** Multiplication distributes over the split of the occurrence count. */
  lemma AddTimes(q: int, a: int, b: int)
    ensures q * (a + b) == q * a + q * b
  {
  }

  /** Bumping adds `quantity` once per line of the product. */
  lemma {:induction false} BumpItemCount(lines: seq<CartLine>, productId: int, quantity: int)
    ensures ItemCount(Bump(lines, productId, quantity)) == ItemCount(lines) + quantity * Occurrences(lines, productId)
  {
    if |lines| > 0 {
      BumpItemCount(lines[1..], productId, quantity);
      var b := Bump(lines, productId, quantity);
      assert b[1..] == Bump(lines[1..], productId, quantity);
      var occ := Occurrences(lines[1..], productId);
      assert ItemCount(b) == b[0].quantity + ItemCount(b[1..]);
      assert ItemCount(lines) == lines[0].quantity + ItemCount(lines[1..]);
      if lines[0].productId == productId {
        assert b[0].quantity == lines[0].quantity + quantity;
        assert Occurrences(lines, productId) == 1 + occ;
        AddTimes(quantity, 1, occ);
      } else {
        assert b[0].quantity == lines[0].quantity;
        assert Occurrences(lines, productId) == occ;
      }
    }
  }

  /** In a list without duplicate products, a product that is present occurs exactly once. */
  lemma {:induction false} DistinctOccursOnce(lines: seq<CartLine>, productId: int, k: int)
    requires DistinctProducts(lines) && 0 <= k < |lines| && lines[k].productId == productId
    ensures Occurrences(lines, productId) == 1
  {
    if k == 0 {
      assert forall i :: 0 <= i < |lines[1..]| ==> lines[1..][i].productId != productId by {
        forall i | 0 <= i < |lines[1..]| ensures lines[1..][i].productId != productId {
          assert lines[1..][i] == lines[i + 1];
        }
      }
    } else {
      assert lines[0].productId != productId;
      assert lines[1..][k - 1] == lines[k];
      DistinctOccursOnce(lines[1..], productId, k - 1);
    }
  }

  /** Adding to a cart without duplicate products raises the item count by exactly the added quantity. */
  lemma AddLineItemCount(lines: seq<CartLine>, productId: int, quantity: int)
    requires DistinctProducts(lines)
    ensures ItemCount(AddLine(lines, productId, quantity)) == ItemCount(lines) + quantity
    ensures |AddLine(lines, productId, quantity)| == |lines| + (if Occurrences(lines, productId) == 0 then 1 else 0)
  {
    if Occurrences(lines, productId) > 0 {
      var k :| 0 <= k < |lines| && lines[k].productId == productId;
      DistinctOccursOnce(lines, productId, k);
      BumpItemCount(lines, productId, quantity);
    } else {
      ItemCountAppend(lines, [CartLine(productId, quantity)]);
    }
  }

  /** Adding never creates a second line for a product. */
  lemma AddLineKeepsDistinct(lines: seq<CartLine>, productId: int, quantity: int)
    requires DistinctProducts(lines)
    ensures DistinctProducts(AddLine(lines, productId, quantity))
  {
    var r := AddLine(lines, productId, quantity);
    if Occurrences(lines, productId) == 0 {
      forall i, j | 0 <= i < j < |r|
        ensures r[i].productId != r[j].productId
      {
        assert r[i] == lines[i];
        if j < |lines| { assert r[j] == lines[j]; } else { assert r[j].productId == productId; }
      }
    }
  }

  /** `removeFromCart`: every line of the product goes, the others keep their order. */
  function RemoveLines(lines: seq<CartLine>, productId: int): (r: seq<CartLine>)
    ensures forall i :: 0 <= i < |r| ==> r[i] in lines && r[i].productId != productId
    ensures forall i :: 0 <= i < |lines| && lines[i].productId != productId ==> lines[i] in r
    ensures Occurrences(r, productId) == 0
  {
    Filter(lines, (l: CartLine) => l.productId != productId)
  }

  /** Removing a product takes exactly its lines' quantities off the item count. */
  lemma {:induction false} RemoveLinesItemCount(lines: seq<CartLine>, productId: int)
    ensures ItemCount(lines) ==
            ItemCount(RemoveLines(lines, productId)) + ItemCount(Filter(lines, (l: CartLine) => l.productId == productId))
  {
    if |lines| > 0 {
      RemoveLinesItemCount(lines[1..], productId);
      var l := lines[0];
      var rest := RemoveLines(lines[1..], productId);
      var same := Filter(lines[1..], (l: CartLine) => l.productId == productId);
      if l.productId == productId {
        assert Filter(lines, (l: CartLine) => l.productId == productId) == [l] + same;
        assert RemoveLines(lines, productId) == [] + rest == rest;
        ItemCountAppend([l], same);
      } else {
        assert RemoveLines(lines, productId) == [l] + rest;
        assert Filter(lines, (l: CartLine) => l.productId == productId) == [] + same == same;
        ItemCountAppend([l], rest);
      }
    }
  }

  /** `if (quantity < 1) quantity = 1`. */
  function Clamp(quantity: int): (r: int)
    ensures r >= 1 && (quantity >= 1 ==> r == quantity)
  {
    if quantity < 1 then 1 else quantity
  }

  /** `updateCartItemQuantity`: every line of the product gets the clamped quantity; the others are unchanged. */
  function SetQuantity(lines: seq<CartLine>, productId: int, quantity: int): (r: seq<CartLine>)
    ensures |r| == |lines|
    ensures forall i :: 0 <= i < |r| ==> r[i].productId == lines[i].productId
    ensures forall i :: 0 <= i < |r| ==>
              r[i].quantity == (if lines[i].productId == productId then Clamp(quantity) else lines[i].quantity)
  {
    if |lines| == 0 then []
    else
      var l := lines[0];
      [if l.productId == productId then l.(quantity := Clamp(quantity)) else l] + SetQuantity(lines[1..], productId, quantity)
  }

  /** Setting a quantity keeps every quantity at least 1, and setting it again changes nothing. */
  lemma SetQuantityKeepsPositive(lines: seq<CartLine>, productId: int, quantity: int)
    requires PositiveQuantities(lines)
    ensures PositiveQuantities(SetQuantity(lines, productId, quantity))
    ensures SetQuantity(SetQuantity(lines, productId, quantity), productId, quantity) == SetQuantity(lines, productId, quantity)
  {
    var r := SetQuantity(lines, productId, quantity);
    var rr := SetQuantity(r, productId, quantity);
    assert forall i :: 0 <= i < |rr| ==> rr[i] == r[i];
  }

  // ---------------------------------------------------------------- the provider

  /**
   * `CartProvider`: the client's view of the cart of one session. Every edit
   * sends the rewritten line list to the server and, when the server accepts
   * it, fetches the session's cart again. A request the server refuses (a
   * status outside 2xx) is reported and nothing is fetched.
   */
  class CartProvider {
    const store: MemStorage
    const sessionId: string
    /** The last answer of `GET /api/carts/:sessionId`, if any. */
    var cartData: Option<Cart>
    /** The catalogue, once `GET /api/products` has answered. */
    var products: Option<seq<Product>>
    /** The joined cart shown to the user. */
    var cart: Option<ClientCart>

    constructor (store: MemStorage, sessionId: string)
      ensures this.store == store && this.sessionId == sessionId
      ensures cartData == None && products == None && cart == None
    {
      this.store := store;
      this.sessionId := sessionId;
      cartData, products, cart := None, None, None;
    }

    /** The cart the client would show after fetching the session's cart now. */
    function Fetched(now: Time): (r: ClientCart)
      requires products.Some?
      reads this, store
      ensures r.sessionId == Some(sessionId)
    {
      ToClient(Routes.GetCart(store, sessionId, now).body.cart, products.value)
    }

    /** The `useEffect`: once both the cart and the catalogue are known, the shown cart is their join. */
    method Sync()
      modifies this`cart
      ensures cartData.Some? && products.Some? ==> cart == Some(ToClient(cartData.value, products.value))
      ensures cartData.None? || products.None? ==> cart == old(cart)
    {
      if cartData.Some? && products.Some? {
        cart := Some(ToClient(cartData.value, products.value));
      }
    }

    /** `GET /api/products` answering. */
    method LoadProducts()
      modifies this`products, this`cart
      ensures products == Some(store.products)
      ensures cartData.Some? ==> cart == Some(ToClient(cartData.value, store.products))
      ensures cartData.None? ==> cart == old(cart)
    {
      products := Some(store.products);
      Sync();
    }

    /** `refetch()` of the session's cart. */
    method Refetch(now: Time)
      modifies this`cartData, this`cart
      ensures cartData == Some(Routes.GetCart(store, sessionId, now).body.cart)
      ensures products.Some? ==> cart == Some(Fetched(now))
      ensures products.None? ==> cart == old(cart)
    {
      cartData := Some(Routes.GetCart(store, sessionId, now).body.cart);
      Sync();
    }

    /** The POST of a new session cart holding just this line, then the refetch. */
    method CreateWithLine(productId: int, quantity: int, now: Time)
      requires store.Valid()
      modifies this`cartData, this`cart, store`carts, store`cartIdCounter
      ensures store.Valid()
      ensures store.carts == old(store.carts) +
                [NewCart(InsertCart(None, Some(sessionId), [CartLine(productId, quantity)]), old(store.cartIdCounter), now)]
      ensures store.cartIdCounter == old(store.cartIdCounter) + 1
      ensures products.Some? ==> cart == Some(Fetched(now))
    {
      var _ := Routes.PostCart(store, Success(InsertCart(None, Some(sessionId), [CartLine(productId, quantity)])), now);
      Refetch(now);
    }

    /**
     * The PUT of a rewritten line list for the cart `id` and, when the server
     * accepts it, the refetch. A missing cart is refused with a 404, so
     * nothing is fetched.
     */
    method SendLines(id: int, lines: seq<CartLine>, now: Time)
      requires store.Valid()
      modifies this`cartData, this`cart, store`carts
      ensures store.Valid()
      ensures old(store.GetCart(id)).None? ==>
                store.carts == old(store.carts) && cartData == old(cartData) && cart == old(cart)
      ensures old(store.GetCart(id)).Some? ==>
                IndexOfId(old(store.carts), CartId, id).Some? &&
                store.carts == old(store.carts)[IndexOfId(old(store.carts), CartId, id).value :=
                  MergeCart(old(store.GetCart(id)).value, CartPatch(None, None, Some(lines)), now)] &&
                (products.Some? ==> cart == Some(Fetched(now)))
    {
      var response := Routes.PutCart(store, id, CartPatch(None, None, Some(lines)), now);
      if response.status == 200 {
        Refetch(now);
      }
    }

    /** The stored-cart branch of `addToCart`: the line is merged in or appended, and the lines are sent. */
    method AddToStoredCart(productId: int, quantity: int, now: Time)
      requires store.Valid() && cart.Some? && cart.value.id != 0
      modifies this`cartData, this`cart, store`carts
      ensures store.Valid()
      ensures old(store.GetCart(cart.value.id)).None? ==>
                store.carts == old(store.carts) && cartData == old(cartData) && cart == old(cart)
      ensures old(store.GetCart(cart.value.id)).Some? ==>
                IndexOfId(old(store.carts), CartId, old(cart).value.id).Some? &&
                store.carts == old(store.carts)[IndexOfId(old(store.carts), CartId, old(cart).value.id).value :=
                  MergeCart(old(store.GetCart(cart.value.id)).value,
                            CartPatch(None, None, Some(AddLine(Strip(old(cart).value.items), productId, quantity))), now)] &&
                (products.Some? ==> cart == Some(Fetched(now)))
    {
      SendLines(cart.value.id, AddLine(Strip(cart.value.items), productId, quantity), now);
    }

    /**
     * `addToCart`: nothing happens before the catalogue is loaded or for an
     * unknown product; without a stored cart a new cart holding just this line
     * is created; otherwise the line is merged in or appended with a PUT.
     */
    method AddToCart(productId: int, quantity: int, now: Time)
      requires store.Valid()
      modifies this`cartData, this`cart, store`carts, store`cartIdCounter
      ensures store.Valid()
      ensures old(products).None? || ProductById(old(products).value, productId).None? ==>
                store.carts == old(store.carts) && store.cartIdCounter == old(store.cartIdCounter) &&
                cartData == old(cartData) && cart == old(cart)
      ensures old(products).Some? && ProductById(old(products).value, productId).Some? &&
              (old(cart).None? || old(cart).value.id == 0) ==>
                store.carts == old(store.carts) +
                  [NewCart(InsertCart(None, Some(sessionId), [CartLine(productId, quantity)]), old(store.cartIdCounter), now)] &&
                store.cartIdCounter == old(store.cartIdCounter) + 1 &&
                cart == Some(Fetched(now))
      ensures old(products).Some? && ProductById(old(products).value, productId).Some? &&
              old(cart).Some? && old(cart).value.id != 0 && old(store.GetCart(cart.value.id)).Some? ==>
                IndexOfId(old(store.carts), CartId, old(cart).value.id).Some? &&
                store.carts == old(store.carts)[IndexOfId(old(store.carts), CartId, old(cart).value.id).value :=
                  MergeCart(old(store.GetCart(cart.value.id)).value,
                            CartPatch(None, None, Some(AddLine(Strip(old(cart).value.items), productId, quantity))), now)] &&
                store.cartIdCounter == old(store.cartIdCounter) &&
                cart == Some(Fetched(now))
      ensures old(products).Some? && ProductById(old(products).value, productId).Some? &&
              old(cart).Some? && old(cart).value.id != 0 && old(store.GetCart(cart.value.id)).None? ==>
                store.carts == old(store.carts) && store.cartIdCounter == old(store.cartIdCounter) &&
                cartData == old(cartData) && cart == old(cart)
    {
      if products.None? || ProductById(products.value, productId).None? {
        return;
      }
      if cart.None? || cart.value.id == 0 {
        CreateWithLine(productId, quantity, now);
      } else {
        AddToStoredCart(productId, quantity, now);
      }
    }

    /** `removeFromCart`: without a stored cart nothing happens; otherwise every line of the product is dropped. */
    method RemoveFromCart(productId: int, now: Time)
      requires store.Valid()
      modifies this`cartData, this`cart, store`carts
      ensures store.Valid()
      ensures old(cart).None? || old(cart).value.id == 0 || old(store.GetCart(cart.value.id)).None? ==>
                store.carts == old(store.carts) && cartData == old(cartData) && cart == old(cart)
      ensures old(cart).Some? && old(cart).value.id != 0 && old(store.GetCart(cart.value.id)).Some? ==>
                IndexOfId(old(store.carts), CartId, old(cart).value.id).Some? &&
                store.carts == old(store.carts)[IndexOfId(old(store.carts), CartId, old(cart).value.id).value :=
                  MergeCart(old(store.GetCart(cart.value.id)).value, CartPatch(None, None, Some(RemoveLines(Strip(old(cart).value.items), productId))), now)] &&
                (products.Some? ==> cart == Some(Fetched(now)))
    {
      if cart.None? || cart.value.id == 0 {
        return;
      }
      SendLines(cart.value.id, RemoveLines(Strip(cart.value.items), productId), now);
    }

    /**
     * `updateCartItemQuantity`: without a stored cart nothing happens;
     * otherwise every line of the product gets the quantity, raised to 1 if lower.
     */
    method UpdateCartItemQuantity(productId: int, quantity: int, now: Time)
      requires store.Valid()
      modifies this`cartData, this`cart, store`carts
      ensures store.Valid()
      ensures old(cart).None? || old(cart).value.id == 0 || old(store.GetCart(cart.value.id)).None? ==>
                store.carts == old(store.carts) && cartData == old(cartData) && cart == old(cart)
      ensures old(cart).Some? && old(cart).value.id != 0 && old(store.GetCart(cart.value.id)).Some? ==>
                IndexOfId(old(store.carts), CartId, old(cart).value.id).Some? &&
                store.carts == old(store.carts)[IndexOfId(old(store.carts), CartId, old(cart).value.id).value :=
                  MergeCart(old(store.GetCart(cart.value.id)).value, CartPatch(None, None, Some(SetQuantity(Strip(old(cart).value.items), productId, quantity))), now)] &&
                (products.Some? ==> cart == Some(Fetched(now)))
    {
      if cart.None? || cart.value.id == 0 {
        return;
      }
      SendLines(cart.value.id, SetQuantity(Strip(cart.value.items), productId, quantity), now);
    }

    /**
     * `clearCart`: without a stored cart nothing happens; otherwise the cart is
     * deleted and a new empty cart is created for the session. If the delete is
     * refused, no cart is created.
     */
    method ClearCart(now: Time)
      requires store.Valid()
      modifies this`cartData, this`cart, store`carts, store`cartIdCounter
      ensures store.Valid()
      ensures old(cart).None? || old(cart).value.id == 0 || old(store.GetCart(cart.value.id)).None? ==>
                store.carts == old(store.carts) && store.cartIdCounter == old(store.cartIdCounter) &&
                cartData == old(cartData) && cart == old(cart)
      ensures old(cart).Some? && old(cart).value.id != 0 && old(store.GetCart(cart.value.id)).Some? ==>
                store.GetCart(old(cart).value.id).None? &&
                IndexOfId(old(store.carts), CartId, old(cart).value.id).Some? &&
                store.carts == RemoveAt(old(store.carts), IndexOfId(old(store.carts), CartId, old(cart).value.id).value) +
                               [NewCart(InsertCart(None, Some(sessionId), []), old(store.cartIdCounter), now)] &&
                store.cartIdCounter == old(store.cartIdCounter) + 1 &&
                (products.Some? ==> cart == Some(Fetched(now)))
    {
      if cart.None? || cart.value.id == 0 {
        return;
      }
      var ok := DeleteAndRecreate(cart.value.id, now);
      if ok {
        Refetch(now);
      }
    }

    /**
     * The two requests of `clearCart`: the DELETE of the cart and, only when it
     * succeeded, the POST of an empty cart for the session.
     */
    method DeleteAndRecreate(id: int, now: Time) returns (ok: bool)
      requires store.Valid()
      modifies store`carts, store`cartIdCounter
      ensures store.Valid()
      ensures ok <==> old(store.GetCart(id)).Some?
      ensures !ok ==> store.carts == old(store.carts) && store.cartIdCounter == old(store.cartIdCounter)
      ensures ok ==>
                store.GetCart(id).None? &&
                IndexOfId(old(store.carts), CartId, id).Some? &&
                store.carts == RemoveAt(old(store.carts), IndexOfId(old(store.carts), CartId, id).value) +
                               [NewCart(InsertCart(None, Some(sessionId), []), old(store.cartIdCounter), now)] &&
                store.cartIdCounter == old(store.cartIdCounter) + 1
    {
      var deleted := Routes.DeleteCart(store, id);
      if deleted.status != 204 {
        return false;
      }
      ghost var afterDelete := store.carts;
      var created := Routes.PostCart(store, Success(InsertCart(None, Some(sessionId), [])), now);
      assert store.carts == afterDelete + [created.body.cart];
      assert CartId(created.body.cart) != id;
      ok := true;
    }
  }
}
