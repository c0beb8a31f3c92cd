/** The cart provider's state: the cart, its copy in local storage, and the messages
    shown to the user, updated by the three cart operations. */
module CartStore {
  import opened Cart

  /** findIndex over the cart: the first position holding the product, or -1.
      The last two ensures follow from the first and IndexOf's contract; they are
      spelled out for callers. */
  method FindIndex(items: seq<Item>, id: int) returns (i: int)
    ensures i == IndexOf(items, id)
    ensures i == -1 <==> forall k :: 0 <= k < |items| ==> items[k].product.id != id
    ensures i != -1 ==> 0 <= i < |items| && items[i].product.id == id
  {
    i := 0;
    while i < |items|
      invariant 0 <= i <= |items|
      invariant forall k :: 0 <= k < i ==> items[k].product.id != id
    {
      if items[i].product.id == id {
        assert FirstMatch(items, id, i);
        return;
      }
      i := i + 1;
    }
    i := -1;
  }

  class Store {
    /** The published cart. */
    var cart: seq<Item>
    /** The cart as last written under the cart key of local storage; None when the cart key is absent from local storage or holds the empty string. */
    var stored: Option<seq<Item>>
    /** Every error message shown so far, oldest first. */
    var toasts: seq<string>

    /** Local storage always holds the published cart, except while the cart key is
        absent or empty, when the cart is empty. */
    ghost predicate Valid()
      reads this
    {
      stored == Some(cart) || (stored == None && cart == [])
    }

    /** The cart starts as the stored list, or empty when the cart key is absent or empty. */
    constructor (storedCart: Option<seq<Item>>)
      ensures Valid()
      ensures cart == (if storedCart.Some? then storedCart.value else [])
      ensures stored == storedCart && toasts == []
    {
      cart := if storedCart.Some? then storedCart.value else [];
      stored := storedCart;
      toasts := [];
    }

    /** updateProductAmount, with the stock service's answer for the product as `stock`. */
    method UpdateProductAmount(productId: int, delta: int, stock: int)
      requires Valid()
      modifies this
      ensures Valid()
      ensures Update(old(cart), productId, delta, stock).Changed? ==>
        cart == Update(old(cart), productId, delta, stock).items &&
        stored == Some(cart) && toasts == old(toasts)
      ensures Update(old(cart), productId, delta, stock).Failed? ==>
        cart == old(cart) && stored == old(stored) &&
        toasts == old(toasts) + [Update(old(cart), productId, delta, stock).message]
    {
      ghost var r := Update(cart, productId, delta, stock);
      var i := FindIndex(cart, productId);
      if i == -1 {
        assert r == Failed(ErrUpdate);
        toasts := toasts + [ErrUpdate];
        return;
      }
      if cart[i].amount == stock && delta != -1 {
        assert r == Failed(ErrStock);
        toasts := toasts + [ErrStock];
        return;
      }
      assert r == Changed(cart[i := cart[i].(amount := cart[i].amount + delta)]);
      cart := cart[i := cart[i].(amount := cart[i].amount + delta)];
      stored := Some(cart);
    }

    /** removeProduct: splice out the first line item of the product. */
    method RemoveProduct(productId: int)
      requires Valid()
      modifies this
      ensures Valid()
      ensures Remove(old(cart), productId).Changed? ==>
        cart == Remove(old(cart), productId).items &&
        stored == Some(cart) && toasts == old(toasts)
      ensures Remove(old(cart), productId).Failed? ==>
        cart == old(cart) && stored == old(stored) &&
        toasts == old(toasts) + [Remove(old(cart), productId).message]
    {
      ghost var r := Remove(cart, productId);
      var i := FindIndex(cart, productId);
      if i == -1 {
        assert r == Failed(ErrRemove);
        toasts := toasts + [ErrRemove];
        return;
      }
      assert r == Changed(cart[..i] + cart[i + 1..]);
      var newArray := cart[..i] + cart[i + 1..];
      stored := Some(newArray);
      cart := newArray;
    }

    /** addProduct, given the catalog read from local storage (None when absent) and the
        stock answer used when the product is already in the cart. */
    method AddProduct(catalog: Option<seq<Product>>, productId: int, stock: int)
      requires Valid()
      modifies this
      ensures Valid()
      ensures Add(old(cart), catalog, productId, stock).Changed? ==>
        cart == Add(old(cart), catalog, productId, stock).items &&
        stored == Some(cart) && toasts == old(toasts)
      ensures Add(old(cart), catalog, productId, stock).Failed? ==>
        cart == old(cart) && stored == old(stored) &&
        toasts == old(toasts) + [Add(old(cart), catalog, productId, stock).message]
    {
      ghost var r := Add(cart, catalog, productId, stock);
      if catalog.None? || productId == 0 {
        assert r == Failed(ErrAdd);
        toasts := toasts + [ErrAdd];
        return;
      }
      var found := Lookup(catalog.value, productId);
      if found.None? {
        assert r == Failed(ErrAdd);
        toasts := toasts + [ErrAdd];
        return;
      }
      var newCartProduct := found.value;
      var i := FindIndex(cart, newCartProduct.id);
      if i != -1 {
        assert r == Update(cart, productId, 1, stock);
        UpdateProductAmount(productId, 1, stock);
      } else {
        assert r == Changed(cart + [Item(newCartProduct, 1)]);
        var cartValue := cart + [Item(newCartProduct, 1)];
        stored := Some(cartValue);
        cart := cartValue;
      }
    }
  }

  /** Empty cart, a catalog with product 42, and a stock of 5: one add and four
      increments reach 5; a fifth increment is refused as out of stock. */
  method ShoeScenario() returns (amount: int, lastToast: string)
    ensures amount == 5 && lastToast == ErrStock
  {
    var shoe := Product(42, "Shoe", 100, "shoe.png");
    var s := new Store(None);
    s.AddProduct(Some([shoe]), 42, 5);
    assert s.cart == [Item(shoe, 1)];
    s.UpdateProductAmount(42, 1, 5);
    assert s.cart == [Item(shoe, 2)];
    s.UpdateProductAmount(42, 1, 5);
    assert s.cart == [Item(shoe, 3)];
    s.UpdateProductAmount(42, 1, 5);
    assert s.cart == [Item(shoe, 4)];
    s.UpdateProductAmount(42, 1, 5);
    assert s.cart == [Item(shoe, 5)];
    s.UpdateProductAmount(42, 1, 5);
    assert s.cart == [Item(shoe, 5)];
    amount := s.cart[0].amount;
    lastToast := s.toasts[|s.toasts| - 1];
  }
}
