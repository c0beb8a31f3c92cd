# RocketShoes cart store, modelled in Dafny

This project models the cart of the RocketShoes storefront (`src/hooks/useCart.tsx`). The cart is an ordered list of line items. Each line item is a catalog product plus an integer `amount`. The store offers three operations:

- `addProduct` appends a new product with amount 1. If the product is already in the cart, it hands off to `updateProductAmount` with +1, so the stock guard applies.
- `removeProduct` deletes the first line item of a product.
- `updateProductAmount` adds a signed delta to the first line item of a product. It refuses the change when the current amount equals the product's stock and the delta is not -1.

After every successful change, the new list is written to local storage. Every failure shows exactly one error message and leaves both the cart and local storage as they were.

Files:

- `cart.dfy`, module `Cart`: the value datatypes (`Product`, `Item`, `Outcome`), the messages, the two searches (`IndexOf` for `findIndex` on the cart, `Lookup` for `find` on the catalog), and `Add`, `Remove` and `Update`. These three functions say what each operation does to a cart. The lemmas about them are here too. `AddAsWritten` gives `addProduct` exactly as the code behaves on an empty cart and an id the catalog lacks (see Findings); `Add` is the corrected form that the store uses.
- `cart_store.dfy`, module `CartStore`: the class `Store`. Its fields are the published `cart`, the `stored` copy under the cart key of local storage (`None` when the cart key is absent from local storage or holds the empty string) and the `toasts` shown so far. `Valid()` says local storage always holds the published cart, except while the cart key is absent or empty, when the cart is empty. `FindIndex` is the `findIndex` loop. The three methods each change the state exactly as the matching function of `Cart` says.

Inputs that the source gets from outside are passed in as parameters:

- the product catalog read from local storage: `Option<seq<Product>>`, where `None` stands for a missing or empty entry;
- the stock amount returned by `GET /stock/{id}`: an `int`. The step that runs in the `.then` callback runs immediately with that value.

A "falsy" product id is modelled as `0`.

`updateProductAmount` tests only `amount === stock` (`src/hooks/useCart.tsx:94`). So a line item's amount has neither a positivity bound nor a stock ceiling:

- a decrement by one can take the amount to 0 or below;
- an item already above stock can still be incremented;
- a delta other than -1 can jump past the stock.

No such invariant is claimed.

## Model

| member | source | states |
|---|---|---|
| Cart.IndexOf | src/hooks/useCart.tsx:67 | `findIndex` by product id: -1 exactly when no line item has the id, otherwise the first index whose item has it |
| Cart.Lookup | src/hooks/useCart.tsx:40 | `find` on the catalog: none exactly when no entry has the id; otherwise the first entry with that id, which is a catalog member carrying that id |
| CartStore.FindIndex | src/hooks/useCart.tsx:89 | the loop finds -1 exactly when the id is absent, otherwise an index whose item has the id; it agrees with `IndexOf`, so the index is the first match |
| Cart.Update | src/hooks/useCart.tsx:84-112 | an id not in the cart fails with 'Erro na alteração de quantidade do produto'; if the first match's amount equals stock and the delta is not -1, it fails with 'Quantidade solicitada fora de estoque'; otherwise the length is unchanged, the first match keeps its product and its amount becomes old + delta, and every other item is identical |
| Cart.Remove | src/hooks/useCart.tsx:65-82 | an id not in the cart fails with 'Erro na remoção do produto'; otherwise the length drops by one, the items before the first match are unchanged, and every later item moves down one place |
| Cart.Add | src/hooks/useCart.tsx:35-63 | the corrected add: a missing catalog, a zero id, or an id no catalog entry has fails with 'Erro na adição do produto' (the code does so for an id the catalog lacks only on a non-empty cart, see Findings); an id already in the cart gives exactly the `Update` with delta +1; otherwise the result is the old cart followed by the first catalog entry with that id and amount 1 |
| Cart.DecrementNeverBlocked | src/hooks/useCart.tsx:94 | for an id in the cart, a delta of -1 always succeeds, whatever the amount and stock |
| Cart.UpdateKeepsIds | src/hooks/useCart.tsx:99-102 | a successful update leaves the sequence of product ids identical (order and identity) |
| Cart.RemoveDropsOne | src/hooks/useCart.tsx:67-74 | removing a present id succeeds; its ids are the old ids without the one at the first matching index; its multiset of line items plus the removed item is the old multiset |
| Cart.AddKeepsDistinct | src/hooks/useCart.tsx:41-55 | if the product ids were pairwise distinct before an add, they are after a successful add |
| Cart.RemoveKeepsDistinct | src/hooks/useCart.tsx:67-74 | distinct ids stay distinct after a successful remove |
| Cart.UpdateKeepsDistinct | src/hooks/useCart.tsx:94-102 | distinct ids stay distinct after a successful update |
| Cart.AddNewLeavesOneLine | src/hooks/useCart.tsx:45-54 | for the corrected add: a successful add of a product the cart lacked happens only when the catalog has the id, and then exactly one line item carries it |
| Cart.AddAsWritten | src/hooks/useCart.tsx:35-63 | `addProduct` exactly as written: on an empty cart with a nonzero id the catalog lacks it succeeds with the single line `{amount: 1}` (no product); on every other input it gives the corrected `Add`'s outcome |
| Cart.AddAsWrittenAgrees | src/hooks/useCart.tsx:39-54 | except on an empty cart with an id the catalog lacks, the add as the code is written gives the same outcome as the corrected add |
| Cart.AddAsWrittenBlankLine | src/hooks/useCart.tsx:40-54 | on an empty cart and a nonzero id that no catalog entry has, the add as written succeeds with the single line `{amount: 1}` (no product), while the corrected add fails with 'Erro na adição do produto' |
| Cart.AddExistingIsIncrement | src/hooks/useCart.tsx:41-44 | adding a product already in the cart (with a catalog entry for it) is exactly the +1 update, and no second line item appears |
| CartStore.Store.constructor | src/hooks/useCart.tsx:25-33 | the cart starts as the stored list, or empty when none is stored; nothing has been shown yet |
| CartStore.Store.UpdateProductAmount | src/hooks/useCart.tsx:84-112 | on success, cart and local storage both become `Update`'s new list and no message is shown; on failure, cart and storage are unchanged and exactly `Update`'s message is appended; `Valid()` is kept |
| CartStore.Store.RemoveProduct | src/hooks/useCart.tsx:65-82 | the same for `Remove`: splice, write to storage, publish; or unchanged with one message |
| CartStore.Store.AddProduct | src/hooks/useCart.tsx:35-63 | the same for the corrected `Add`, delegating to `UpdateProductAmount` with +1 when the product is already in the cart |
| CartStore.ShoeScenario | src/hooks/useCart.tsx:35-112 | starting empty with product 42 in the catalog and stock 5: one add and four +1 updates reach amount 5, and a fifth update leaves it at 5 and shows the out-of-stock message |

## Findings

| source | as written | input that shows it | evidently intended | confidence | as-written member | corrected member |
|---|---|---|---|---|---|---|
| src/hooks/useCart.tsx:40-54 | when `find` on the catalog returns `undefined`, the throw on `newCartProduct.id` happens only inside the callback of `cart.find`, so an empty cart skips it and `[{amount: 1}]` is stored and published with no message | empty cart, catalog `[]` (or any catalog without the id), `addProduct(7)` | the add fails with 'Erro na adição do produto', as it does on a non-empty cart | not executed; high, from the semantics of `Array.prototype.find` and object spread | Cart.AddAsWrittenBlankLine | Cart.Add |

## Left out

- The React context, provider, hook and JSX wiring (lines 15-22 and 114-127): this is UI framework plumbing, not cart logic.
- The network request to `/stock/{id}` (line 92): only its resolved `amount` is modelled, as a parameter. A rejected request has no handler in the source, so it silently does nothing; this is not modelled.
- The stale closure across the asynchronous callback: the source's update reads `cart` as it was when the request was sent. The model runs the callback at once, so it does not capture two quick calls both passing the stock check.
- Local storage I/O and `JSON.parse`/`JSON.stringify` (lines 26-29, 37, 40, 53, 73, 101): storage is the `stored` field, and the catalog is an input. No serialisation round trip is modelled.
- The toast library: only the message each failure shows is recorded, in `toasts`.
- The in-place write `cart[updateIndex].amount += amount` (line 99): the model makes a new list instead of changing the line item object in place. So it does not capture that the write also mutates the previously published state object.
- JavaScript numbers: ids, amounts, stock and prices are unbounded integers. Floating point, `NaN` as a falsy id, and fractional amounts are not modelled.
- Catalog entries that already carry an `amount` field: the spread at lines 49-50 overrides such a field with 1, and `Product` has no amount field to override.
- CartStore.Store.AddProduct: follows the corrected `Add`, so on an empty cart with an id the catalog lacks it shows 'Erro na adição do produto' where the code publishes `[{amount: 1}]`; that behaviour is modelled only by `Cart.AddAsWritten`, and a line with no product is not part of the store's line items.
- Cart.AddNewLeavesOneLine: is stated of the corrected add; of the code as written it fails on an empty cart with an id the catalog lacks (see Findings).
