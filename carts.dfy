/** The shopping-cart handlers: creating and deleting carts, and adding and
    removing the products in a cart. */
module Carts {
  import opened Common
  import opened Db

  /** The cart items that pair `cartId` with `productId`. */
  function CartPairItems(items: map<CartItemId, CartItem>, cartId: CartId, productId: ProductId)
    : map<CartItemId, CartItem>
  {
    map k | k in items && items[k].cartId == cartId && items[k].productId == productId :: items[k]
  }

  /** Adding a pair that is not yet in the cart, with a positive quantity, keeps every
      (cart, product) pair unique and every quantity positive. */
  lemma InsertKeepsCartItemsValid(items: map<CartItemId, CartItem>, k: CartItemId, item: CartItem)
    requires CartPairsUnique(items) && CartQuantitiesPositive(items)
    requires k !in items && !HasCartPair(items, item.cartId, item.productId) && item.quantity > 0
    ensures CartPairsUnique(items[k := item]) && CartQuantitiesPositive(items[k := item])
  {
  }

  /** `createCart`: the caller must be known; inserts one cart owned by the caller. */
  method CreateCart(db: Store, caller: Option<UserId>) returns (code: Code)
    requires db.Valid()
    modifies db`carts, db`nextId
    ensures db.Valid()
    ensures code == (
      if caller.None? then Unauthorized
      else if caller.value !in db.users then NotFound(NoUser)
      else Created)
    ensures code != Created ==> db.carts == old(db.carts) && db.nextId == old(db.nextId)
    ensures code == Created ==>
      old(db.nextId) !in old(db.carts) && db.carts == old(db.carts)[old(db.nextId) := Cart(caller.value)]
  {
    if caller.None? {
      return Unauthorized;
    }
    var userId := caller.value;
    if userId !in db.users {
      return NotFound(NoUser);
    }
    var id := db.nextId;
    db.carts := db.carts[id := Cart(userId)];
    db.nextId := db.nextId + 1;
    code := Created;
  }

  /** `deleteCart`: deletes exactly the cart with that id, 404 when there is none. */
  method DeleteCart(db: Store, cartId: CartId) returns (code: Code)
    requires db.Valid()
    modifies db`carts
    ensures db.Valid()
    ensures code == if cartId in old(db.carts) then Success else NotFound(NoCart)
    ensures db.carts == old(db.carts) - {cartId}
  {
    if cartId !in db.carts {
      return NotFound(NoCart);
    }
    db.carts := db.carts - {cartId};
    code := Success;
  }

  /** `addProductToCart`: checks in turn that the cart exists, that the product is not
      already in it, that the quantity is present and positive, and that the product
      exists; then inserts one cart item. */
  method AddProductToCart(db: Store, cartId: CartId, productId: ProductId, quantity: Option<int>)
    returns (code: Code)
    requires db.Valid()
    modifies db`cartItems, db`nextId
    ensures db.Valid()
    ensures code == (
      if cartId !in db.carts then NotFound(NoCart)
      else if HasCartPair(old(db.cartItems), cartId, productId) then BadRequest(AlreadyInCart)
      else if quantity.None? || quantity.value <= 0 then BadRequest(InvalidQuantity)
      else if productId !in db.products then NotFound(NoProduct)
      else Created)
    ensures code != Created ==> db.cartItems == old(db.cartItems) && db.nextId == old(db.nextId)
    ensures code == Created ==>
      && old(db.nextId) !in old(db.cartItems)
      && db.cartItems == old(db.cartItems)[old(db.nextId) := CartItem(cartId, productId, quantity.value)]
  {
    if cartId !in db.carts {
      return NotFound(NoCart);
    }
    if HasCartPair(db.cartItems, cartId, productId) {
      return BadRequest(AlreadyInCart);
    }
    if quantity.None? || quantity.value <= 0 {
      return BadRequest(InvalidQuantity);
    }
    if productId !in db.products {
      return NotFound(NoProduct);
    }
    var id := db.nextId;
    var item := CartItem(cartId, productId, quantity.value);
    InsertKeepsCartItemsValid(db.cartItems, id, item);
    db.cartItems := db.cartItems[id := item];
    db.nextId := db.nextId + 1;
    code := Created;
  }

  /** `deleteProductFromCart`: 404 when the cart or the product's item in it is
      absent; otherwise deletes the rows pairing the cart with the product. */
  method DeleteProductFromCart(db: Store, cartId: CartId, productId: ProductId) returns (code: Code)
    requires db.Valid()
    modifies db`cartItems
    ensures db.Valid()
    ensures code == (
      if cartId !in db.carts then NotFound(NoCart)
      else if !HasCartPair(old(db.cartItems), cartId, productId) then NotFound(NoCartItem)
      else Success)
    ensures code != Success ==> db.cartItems == old(db.cartItems)
    ensures code == Success ==>
      db.cartItems == old(db.cartItems) - CartPairItems(old(db.cartItems), cartId, productId).Keys
  {
    if cartId !in db.carts {
      return NotFound(NoCart);
    }
    if !HasCartPair(db.cartItems, cartId, productId) {
      return NotFound(NoCartItem);
    }
    db.cartItems := db.cartItems - CartPairItems(db.cartItems, cartId, productId).Keys;
    code := Success;
  }

  /** Under the uniqueness of pairs, deleting a product from a cart removes exactly one
      row, and afterwards the pair is gone while every other row is kept. */
  lemma DeletePairRemovesOneRow(items: map<CartItemId, CartItem>, cartId: CartId, productId: ProductId)
    requires CartPairsUnique(items)
    requires HasCartPair(items, cartId, productId)
    ensures |CartPairItems(items, cartId, productId)| == 1
    ensures !HasCartPair(items - CartPairItems(items, cartId, productId).Keys, cartId, productId)
    ensures forall k :: k in items && (items[k].cartId != cartId || items[k].productId != productId) ==>
      k in items - CartPairItems(items, cartId, productId).Keys
  {
    var k :| k in items && items[k].cartId == cartId && items[k].productId == productId;
    var pair := CartPairItems(items, cartId, productId);
    assert pair.Keys == {k};
    assert pair == map[k := items[k]];
  }
}
