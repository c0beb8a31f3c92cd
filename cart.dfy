/** The pure side of the RocketShoes cart: line items, the lookups by product id,
    and what each of the three cart operations does to a cart, as a value. */
module Cart {

  datatype Option<+T> = None | Some(value: T)

  /** A catalog entry. The display fields are carried along unchanged; the price,
      a JavaScript number in the storefront, is kept as an integer here. */
  datatype Product = Product(id: int, title: string, price: int, image: string)

  /** A line item: the catalog entry spread into the cart, with its quantity. */
  datatype Item = Item(product: Product, amount: int)

  /** The result of one operation: the new cart, or the one message shown to the user. */
  datatype Outcome = Changed(items: seq<Item>) | Failed(message: string)

  const ErrAdd := "Erro na adição do produto"
  const ErrRemove := "Erro na remoção do produto"
  const ErrUpdate := "Erro na alteração de quantidade do produto"
  const ErrStock := "Quantidade solicitada fora de estoque"

  /** Index i holds the first line item of the given product. */
  ghost predicate FirstMatch(items: seq<Item>, id: int, i: int) {
    0 <= i < |items| && items[i].product.id == id &&
    forall k :: 0 <= k < i ==> items[k].product.id != id
  }

  /** Index j holds the first catalog entry with the given id. */
  ghost predicate FirstProduct(catalog: seq<Product>, id: int, j: int) {
    0 <= j < |catalog| && catalog[j].id == id &&
    forall k :: 0 <= k < j ==> catalog[k].id != id
  }

  ghost predicate InCart(items: seq<Item>, id: int) {
    exists k :: 0 <= k < |items| && items[k].product.id == id
  }

  /** At most one line item per product id. */
  ghost predicate DistinctIds(items: seq<Item>) {
    forall i, j :: 0 <= i < j < |items| ==> items[i].product.id != items[j].product.id
  }

  /** The product ids of the cart, in cart order. */
  function Ids(items: seq<Item>): seq<int>
  {
    seq(|items|, k requires 0 <= k < |items| => items[k].product.id)
  }

  /** Array.prototype.findIndex on the cart by product id: -1 when absent. */
  function IndexOf(items: seq<Item>, id: int): (r: int)
    ensures r == -1 <==> !InCart(items, id)
    ensures r != -1 ==> FirstMatch(items, id, r)
  {
    if |items| == 0 then -1
    else if items[0].product.id == id then 0
    else
      var j := IndexOf(items[1..], id);
      assert forall k :: 1 <= k < |items| ==> items[k] == items[1..][k - 1];
      if j == -1 then -1 else j + 1
  }

  /** Array.prototype.find on the catalog by id: the first entry with that id, if any. */
  function Lookup(catalog: seq<Product>, id: int): (r: Option<Product>)
    ensures r.None? <==> forall k :: 0 <= k < |catalog| ==> catalog[k].id != id
    ensures r.Some? ==> r.value.id == id && r.value in catalog
    ensures forall j :: FirstProduct(catalog, id, j) ==> r == Some(catalog[j])
  {
    if |catalog| == 0 then None
    else if catalog[0].id == id then Some(catalog[0])
    else
      var r := Lookup(catalog[1..], id);
      assert forall k :: 1 <= k < |catalog| ==> catalog[k] == catalog[1..][k - 1];
      assert forall j :: FirstProduct(catalog, id, j) ==> FirstProduct(catalog[1..], id, j - 1);
      r
  }

  /** updateProductAmount with the stock lookup already answered: amount is a signed delta,
      and the change is refused when the current amount equals the stock and the delta is
      not a decrement by one. */
  function Update(cart: seq<Item>, productId: int, delta: int, stock: int): (r: Outcome)
    ensures !InCart(cart, productId) ==> r == Failed(ErrUpdate)
    ensures InCart(cart, productId) ==>
      var i := IndexOf(cart, productId);
      if cart[i].amount == stock && delta != -1 then r == Failed(ErrStock)
      else
        r.Changed? && |r.items| == |cart| &&
        r.items[i].product == cart[i].product &&
        r.items[i].amount == cart[i].amount + delta &&
        forall k :: 0 <= k < |cart| && k != i ==> r.items[k] == cart[k]
  {
    var i := IndexOf(cart, productId);
    if i == -1 then Failed(ErrUpdate)
    else if cart[i].amount == stock && delta != -1 then Failed(ErrStock)
    else Changed(cart[i := cart[i].(amount := cart[i].amount + delta)])
  }

  /** removeProduct: splice out the first line item of the product. */
  function Remove(cart: seq<Item>, productId: int): (r: Outcome)
    ensures !InCart(cart, productId) ==> r == Failed(ErrRemove)
    ensures InCart(cart, productId) ==>
      var i := IndexOf(cart, productId);
      r.Changed? && |r.items| == |cart| - 1 &&
      (forall k :: 0 <= k < i ==> r.items[k] == cart[k]) &&
      (forall k :: i <= k < |r.items| ==> r.items[k] == cart[k + 1])
  {
    var i := IndexOf(cart, productId);
    if i == -1 then Failed(ErrRemove)
    else Changed(cart[..i] + cart[i + 1..])
  }

  /** addProduct as intended: with no catalog, a zero id, or an id the catalog lacks, the
      add fails; a product already in the cart is incremented through Update; any other is
      appended with amount 1. The source fails on an id the catalog lacks only when the cart
      is non-empty; AddAsWritten below gives its behaviour on an empty cart. */
  function Add(cart: seq<Item>, catalog: Option<seq<Product>>, productId: int, stock: int): (r: Outcome)
    ensures catalog.None? || productId == 0 ==> r == Failed(ErrAdd)
    ensures catalog.Some? && (forall k :: 0 <= k < |catalog.value| ==> catalog.value[k].id != productId) ==>
      r == Failed(ErrAdd)
    ensures catalog.Some? && productId != 0 && Lookup(catalog.value, productId).Some? ==>
      if InCart(cart, productId) then r == Update(cart, productId, 1, stock)
      else r == Changed(cart + [Item(Lookup(catalog.value, productId).value, 1)])
  {
    if catalog.None? || productId == 0 then Failed(ErrAdd)
    else
      match Lookup(catalog.value, productId)
      case None => Failed(ErrAdd)
      case Some(p) =>
        if IndexOf(cart, p.id) != -1 then Update(cart, productId, 1, stock)
        else Changed(cart + [Item(p, 1)])
  }

  /** A decrement by one is never refused by the stock guard. */
  lemma DecrementNeverBlocked(cart: seq<Item>, productId: int, stock: int)
    ensures InCart(cart, productId) ==> Update(cart, productId, -1, stock).Changed?
  {
  }

  /** An update keeps every product id in its place: order and identity are preserved. */
  lemma UpdateKeepsIds(cart: seq<Item>, productId: int, delta: int, stock: int)
    ensures Update(cart, productId, delta, stock).Changed? ==>
      Ids(Update(cart, productId, delta, stock).items) == Ids(cart)
  {
  }

  /** A removal deletes exactly the first matching item: the ids are those of the old
      cart with the one at that index dropped, and the multiset of line items loses
      exactly that item. */
  lemma RemoveDropsOne(cart: seq<Item>, productId: int, i: int)
    requires FirstMatch(cart, productId, i)
    ensures Remove(cart, productId).Changed?
    ensures Ids(Remove(cart, productId).items) == Ids(cart)[..i] + Ids(cart)[i + 1..]
    ensures multiset(Remove(cart, productId).items) + multiset{cart[i]} == multiset(cart)
  {
    assert IndexOf(cart, productId) == i;
    var r := Remove(cart, productId).items;
    assert r == cart[..i] + cart[i + 1..];
    assert cart == cart[..i] + [cart[i]] + cart[i + 1..];
  }

  /** Keeping ids distinct: an append happens only when the id is absent. */
  lemma AddKeepsDistinct(cart: seq<Item>, catalog: Option<seq<Product>>, productId: int, stock: int)
    requires DistinctIds(cart)
    ensures Add(cart, catalog, productId, stock).Changed? ==> DistinctIds(Add(cart, catalog, productId, stock).items)
  {
  }

  lemma RemoveKeepsDistinct(cart: seq<Item>, productId: int)
    requires DistinctIds(cart)
    ensures Remove(cart, productId).Changed? ==> DistinctIds(Remove(cart, productId).items)
  {
  }

  lemma UpdateKeepsDistinct(cart: seq<Item>, productId: int, delta: int, stock: int)
    requires DistinctIds(cart)
    ensures Update(cart, productId, delta, stock).Changed? ==> DistinctIds(Update(cart, productId, delta, stock).items)
  {
  }

  /** A successful add of a product the cart lacks happens only when the catalog has the
      product, and leaves exactly one line item for it. */
  lemma AddNewLeavesOneLine(cart: seq<Item>, catalog: Option<seq<Product>>, productId: int, stock: int)
    requires !InCart(cart, productId)
    ensures Add(cart, catalog, productId, stock).Changed? ==>
      catalog.Some? && Lookup(catalog.value, productId).Some?
    ensures Add(cart, catalog, productId, stock).Changed? ==>
      multiset(Ids(Add(cart, catalog, productId, stock).items))[productId] == 1
  {
    var r := Add(cart, catalog, productId, stock);
    if r.Changed? {
      var p := Lookup(catalog.value, productId).value;
      assert r.items == cart + [Item(p, 1)];
      var ids := Ids(cart);
      assert Ids(r.items) == ids + [productId];
      assert productId !in ids;
      assert multiset(ids + [productId]) == multiset(ids) + multiset{productId};
    }
  }

  /** Adding a product the cart already holds is the +1 update, and appends no second line. */
  lemma AddExistingIsIncrement(cart: seq<Item>, catalog: Option<seq<Product>>, productId: int, stock: int)
    requires InCart(cart, productId)
    requires catalog.Some? && productId != 0 && Lookup(catalog.value, productId).Some?
    ensures Add(cart, catalog, productId, stock) == Update(cart, productId, 1, stock)
    ensures Add(cart, catalog, productId, stock).Changed? ==> Ids(Add(cart, catalog, productId, stock).items) == Ids(cart)
  {
  }

  /** A line item as the storefront can hold it: the spread of whatever `find` returned
      plus an amount. Spreading `undefined` gives the bare object `{amount: 1}`, a line
      with no product. */
  datatype Line = Line(product: Option<Product>, amount: int)

  datatype RawOutcome = RawChanged(lines: seq<Line>) | RawFailed(message: string)

  function Lift(items: seq<Item>): seq<Line> {
    seq(|items|, k requires 0 <= k < |items| => Line(Some(items[k].product), items[k].amount))
  }

  function LiftOutcome(o: Outcome): RawOutcome {
    match o
    case Changed(items) => RawChanged(Lift(items))
    case Failed(message) => RawFailed(message)
  }

  /** addProduct exactly as written. When the catalog lacks the id, `newCartProduct` is
      undefined and reading its `id` throws, but only inside the callback of `cart.find`,
      which runs once per cart element: on an empty cart nothing throws, and the line
      `{amount: 1}` is appended, stored and published. */
  function AddAsWritten(cart: seq<Item>, catalog: Option<seq<Product>>, productId: int, stock: int): (r: RawOutcome)
    ensures cart == [] && catalog.Some? && productId != 0 && Lookup(catalog.value, productId).None? ==>
      r == RawChanged([Line(None, 1)])
    ensures cart != [] || catalog.None? || productId == 0 || Lookup(catalog.value, productId).Some? ==>
      r == LiftOutcome(Add(cart, catalog, productId, stock))
  {
    if catalog.None? || productId == 0 then RawFailed(ErrAdd)
    else
      match Lookup(catalog.value, productId)
      case None => if cart == [] then RawChanged([Line(None, 1)]) else RawFailed(ErrAdd)
      case Some(p) =>
        if IndexOf(cart, p.id) != -1 then LiftOutcome(Update(cart, productId, 1, stock))
        else
          assert Lift(cart + [Item(p, 1)]) == Lift(cart) + [Line(Some(p), 1)];
          RawChanged(Lift(cart) + [Line(Some(p), 1)])
  }

  /** Outside the one case of an empty cart and an id the catalog lacks, the add as
      written and the add as intended agree. */
  lemma AddAsWrittenAgrees(cart: seq<Item>, catalog: Option<seq<Product>>, productId: int, stock: int)
    requires cart != [] || catalog.None? || productId == 0 || Lookup(catalog.value, productId).Some?
    ensures AddAsWritten(cart, catalog, productId, stock) == LiftOutcome(Add(cart, catalog, productId, stock))
  {
  }

  /** The discrepancy: adding an id the catalog lacks to an empty cart succeeds as written,
      leaving one line with no product and no line carrying the id, where the intended add
      fails with the add error. */
  lemma AddAsWrittenBlankLine(catalog: seq<Product>, productId: int, stock: int)
    requires productId != 0
    requires forall k :: 0 <= k < |catalog| ==> catalog[k].id != productId
    ensures AddAsWritten([], Some(catalog), productId, stock) == RawChanged([Line(None, 1)])
    ensures Add([], Some(catalog), productId, stock) == Failed(ErrAdd)
  {
  }
}
