# Cart state of the GoMarketplace storefront

This project is a Dafny model of the cart hook of a small React Native storefront (`src/hooks/cart.tsx`).
The cart is an ordered list of `Product` line items. Each item has an id, a title, an image URL, a price and a quantity.
Three operations change the list:

- `increment(id)` raises the quantity of the first entry with that id by one.
- `decrement(id)` removes the entry when its quantity is 1. Otherwise it lowers the quantity by one, in place.
- `addToCart(product)` increments an entry that is already there. Otherwise it appends the product with quantity 1.

The provider loads the list from one storage slot, `@GoMarketplace:products`, at mount.
An empty cart is used when nothing is stored.
After every change, the whole list is written back to that slot.
`useCart` fails when it is called outside a provider.

The project has two files:

- `cart_state.dfy` (module `CartState`) holds the list logic as functions on `seq<Product>`, with the lemmas about them.
  The lemmas cover uniqueness of ids, positive quantities, position preservation and filter order.
  The source never totals quantities. The unit-count lemmas (`TotalQuantityAdjusted`, `TotalQuantityConcat`, `TotalQuantityRemoveAt`, `IncrementAddsOne`, `DecrementRemovesOne`, `AddToCartAddsOne`) are extra properties of the model. They state how much each operation changes the cart. They do not model the source lines they cite.
- `cart_provider.dfy` (module `CartProvider`) holds the imperative side.
  The class `Provider` has a `products` field and a `storage` field, a `map<string, seq<Product>>`.
  Its methods copy the list into a fresh array and assign the target index in place, as the source does.
  Each method then calls `SetProducts`, which models `setProducts` followed by the persist effect.
  Every method is proved equal to the matching `CartState` function.
  `UseCart` models the provider check.

`price` is a `real` that is copied along and never computed on. The source field `image_url` is named `imageUrl`.

Two details of the persistence code:

- In the quantity > 1 branch, `decrement` writes the slot twice: once through the effect and once explicitly. Both writes store the same list.
- `loadProducts` does not catch a parse failure of the stored blob. The promise then rejects and `setProducts` is never called, so `products` keeps its initial `[]`. The persist effect that runs at mount has already written the empty list to the slot. The user sees an empty cart and an empty slot, and the rejection goes unhandled.

## Model

| member | source | states |
|---|---|---|
| CartState.FindIndex | src/hooks/cart.tsx:61 | returns -1 exactly when no entry has the id; otherwise returns the first position whose entry has the id |
| CartState.Without | src/hooks/cart.tsx:82 | the result holds exactly the entries of the input whose id differs; no entry with the id is left; it is no longer than the input |
| CartState.Matching | src/hooks/cart.tsx:106 | the result holds exactly the entries with the id; it is non-empty exactly when the id is present |
| CartState.Increment | src/hooks/cart.tsx:59-73 | with the id present: same length; the first entry with the id gets quantity + 1 and keeps every other field; every other position is unchanged |
| CartState.Decrement | src/hooks/cart.tsx:75-102 | with the id present: if the first matching entry has quantity 1, the result is the order-keeping filter `Without` of the id, so every entry with it is gone; otherwise same length, that entry gets quantity - 1, and every other position is unchanged |
| CartState.AddToCart | src/hooks/cart.tsx:104-121 | an existing id: the first entry with it gets quantity + 1 and nothing else changes; a new id: exactly one entry is appended, equal to the product with quantity 1, and the earlier entries are unchanged |
| CartState.WithoutConcat | src/hooks/cart.tsx:82 | filtering distributes over concatenation, so the kept entries stay in their relative order |
| CartState.WithoutAbsent | src/hooks/cart.tsx:82 | filtering out an id that is not present returns the list unchanged |
| CartState.WithoutUniqueAt | src/hooks/cart.tsx:82 | with unique ids, filtering out the id at position k yields the list with exactly position k removed |
| CartState.AdjustedKeepsUnique | src/hooks/cart.tsx:65-68 | a quantity change at one entry keeps every id in place, so ids stay unique exactly when they were |
| CartState.RemoveAtPreservesValid | src/hooks/cart.tsx:81-86 | removing one position from a valid cart leaves a valid cart |
| CartState.IncrementPreservesValid | src/hooks/cart.tsx:59-73 | increment keeps ids unique and quantities at least 1 |
| CartState.DecrementPreservesValid | src/hooks/cart.tsx:75-102 | decrement keeps ids unique and quantities at least 1: it removes the entry instead of reaching 0 |
| CartState.AddToCartPreservesValid | src/hooks/cart.tsx:104-121 | add keeps ids unique and quantities at least 1, for any product, whatever quantity it carries |
| CartState.AddExistingIsIncrement | src/hooks/cart.tsx:106-111 | adding a product whose id is present equals increment of that id; no entry is added and the stored id, title, image and price are kept |
| CartState.DecrementLastRemoves | src/hooks/cart.tsx:81-86 | with unique ids, decrementing an entry of quantity 1 removes exactly its position and keeps the rest in order |
| CartState.DecrementUndoesIncrement | src/hooks/cart.tsx:59-94 | when the first entry with the id has quantity at least 1, decrement after increment of the same id restores the original list, also with duplicate ids |
| CartState.TotalQuantityAdjusted | src/hooks/cart.tsx:65-68 | changing one entry's quantity by delta changes the total units by delta; an extra property of the model, not a total the source computes |
| CartState.TotalQuantityConcat | src/hooks/cart.tsx:118 | the total units of a concatenation is the sum of the totals; an extra property of the model, not a total the source computes |
| CartState.TotalQuantityRemoveAt | src/hooks/cart.tsx:81-86 | removing position k lowers the total units by that entry's quantity; an extra property of the model, not a total the source computes |
| CartState.IncrementAddsOne | src/hooks/cart.tsx:59-73 | increment raises the total units by exactly one; an extra property of the model, not a total the source computes |
| CartState.DecrementRemovesOne | src/hooks/cart.tsx:75-94 | with unique ids, decrement lowers the total units by exactly one, in both branches; an extra property of the model, not a total the source computes |
| CartState.AddToCartAddsOne | src/hooks/cart.tsx:104-121 | add raises the total units by exactly one, whether the id is new or present; an extra property of the model, not a total the source computes |
| CartProvider.Loaded | src/hooks/cart.tsx:33-42 | an absent slot loads as the empty cart; a present slot loads as exactly the stored list |
| CartProvider.Persisted | src/hooks/cart.tsx:48-57 | after a write, loading yields exactly the written list; other keys are untouched |
| CartProvider.PersistLoadedIsIdentity | src/hooks/cart.tsx:37-39 | writing back the list just loaded from a present slot leaves the store unchanged |
| CartProvider.UseCart | src/hooks/cart.tsx:131-139 | fails with the not-in-provider error exactly when there is no provider; otherwise returns that provider |
| CartProvider.Provider.constructor | src/hooks/cart.tsx:29 | the in-memory list starts empty; the store is what the device holds |
| CartProvider.Provider.UpdateProducts | src/hooks/cart.tsx:48-57 | the slot is overwritten with the current list; the list is unchanged |
| CartProvider.Provider.SetProducts | src/hooks/cart.tsx:70 | the list becomes the new value and the slot is overwritten with it |
| CartProvider.Provider.LoadProducts | src/hooks/cart.tsx:31-46 | the list becomes the stored list or the empty cart; the slot then holds it; a present slot is left as it was |
| CartProvider.Provider.Increment | src/hooks/cart.tsx:59-73 | the list becomes `CartState.Increment` of the old list; validity is preserved; the slot holds the new list |
| CartProvider.Provider.Decrement | src/hooks/cart.tsx:75-102 | the list becomes `CartState.Decrement` of the old list; validity is preserved; the slot holds the new list |
| CartProvider.Provider.AddToCart | src/hooks/cart.tsx:104-121 | the list becomes `CartState.AddToCart` of the old list; validity is preserved; the slot holds the new list |
| CartProvider.AddTwiceRemoveTwice | src/hooks/cart.tsx:59-121 | on an empty store, adding a product twice and decrementing it twice ends with an empty cart and an empty stored list |

## Left out

- React machinery is not modelled: `createContext`, `useState`, `useEffect`, `useCallback`, `useMemo`, the provider component and re-rendering. The context value is a parameter of `UseCart`.
- AsyncStorage is not modelled. Storage is a map whose value is the list itself. JSON serialisation and parsing are foreign library calls and are left out.
- The asynchronous scheduling is not modelled. Each operation is one atomic list update followed by one write. This leaves out stale closures in `increment`/`decrement` and the functional update in `addToCart`.
- The mount-time race is not modelled. At mount the persist effect also runs with the initial empty list, concurrently with the load.
- The duplicate explicit write in `decrement` is not modelled. It stores the same list that the effect stores, so the model writes once.
- CartState.Increment: requires the id to be present. The source does not guard against a missing id: `findIndex` returns -1 and the code indexes with it. That is a defect, so it is excluded rather than modelled.
- CartState.Decrement: requires the id to be present, for the same reason as `increment`.
- CartProvider.Provider.Increment: requires the id to be present, for the same reason.
- CartProvider.Provider.Decrement: requires the id to be present, for the same reason.
- Arithmetic on `price`, a float, is not modelled. The source never computes on it.
- `quantity` is an unbounded integer. JavaScript numbers lose precision above 2^53, which the model does not capture.
- Storage failures are not modelled. A read or write to the map always succeeds, so there is no failed write that could leave the in-memory list ahead of the slot.
- A stored value that does not parse is not modelled, because parsing is left out. In the code the load then rejects, and the cart stays at its initial empty list, which the mount-time write has already stored.
- A loaded list is taken as stored. It need not have unique ids or positive quantities, so `ValidCart` is preserved by the operations but is not established by a load.
