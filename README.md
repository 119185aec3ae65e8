# Storefront state engines, modelled in Dafny

This project models the client-side state of a mobile storefront. The model covers three
Redux slices and one paging rule:

- **Cart** (`cart.dfy`, module `Cart`). The cart is an insertion-ordered list of line items.
  Each line item is a product snapshot plus a quantity. Five commands change it:
  `addToCart` merges by product id or appends with quantity 1, then come `increaseQuantity`,
  `decreaseQuantity` (which removes the line when it would reach zero), `removeFromCart` and
  `clearCart`. Two selectors read it: the item count (sum of quantities) and the subtotal
  (sum of price × quantity).
- **Favorites** (`favorites.dfy`, module `Favorites`). The favorites are an insertion-ordered
  list of products with no repeated id. Four commands change it: toggle, add-if-absent,
  remove and clear. One query reads it: membership (`selectIsFavorite`).
- **Theme** (`theme.dfy`, module `Theme`). The theme is a light/dark mode that starts as
  light. Three commands change it: `toggleTheme`, `setTheme` and `loadTheme`. A saved value
  is checked at startup, and only the exact strings `"light"` and `"dark"` are accepted.
- **Paging** (`pagination.dfy`, module `Pagination`). `getNextPageParam` of the infinite
  product list gives the `skip` offset of the next page from the pages loaded so far. The
  first page is requested at offset 0, and every page asks for 20 products.

Shared pieces:

- `seqs.dfy` (module `Seqs`) gives the array methods the slices rely on, generic in the
  record type and its id: `findIndex`/`find`, `some` and `filter`. It also defines the
  invariant that no id occurs twice.
- `catalog.dfy` holds the `Product` record.
- `wrappers.dfy` holds `Option`.

The transition functions and selectors model these source lines:

- `Cart.Added`: slices/cartSlice.ts:12-19.
- `Cart.Increased`: slices/cartSlice.ts:21-26.
- `Cart.Decreased`: slices/cartSlice.ts:28-37.
- `Cart.Removed`: slices/cartSlice.ts:39-41.
- `Cart.ItemCount`: slices/cartSlice.ts:58-59.
- `Cart.Subtotal`: slices/cartSlice.ts:60-61.
- `Favorites.Toggled`: slices/favoritesSlice.tsx:12-19.
- `Favorites.WithFavorite`: slices/favoritesSlice.tsx:21-25.
- `Favorites.WithoutFavorite`: slices/favoritesSlice.tsx:27-29.
- `Favorites.IsFavorite`: slices/favoritesSlice.tsx:45-46.
- `Pagination.TotalLoaded`: hooks/useProducts.ts:14.
- `Pagination.Request`: hooks/useProducts.ts:7-12.
- `Pagination.NextPageParam`: hooks/useProducts.ts:13-19.
- `Seqs.Contains`: slices/favoritesSlice.tsx:46.

Each slice whose reducers mutate state in place is a class:

- `Cart.CartState` holds `items: seq<CartItem>`.
- `Favorites.FavoritesState` holds `items: seq<Product>`.
- `Theme.ThemeState` holds `mode`.

Each reducer is a method with a `modifies` clause. Its `ensures` says what the new state is,
in terms of a pure transition function of the old state (`Added`, `Increased`, `Decreased`,
`Removed`, `Toggled`, `WithFavorite`, `WithoutFavorite`, `Flip`), or, for the clear, set and
load commands, the new value itself. The methods also keep the
class invariant `Valid()`. The properties of the transitions are proved as lemmas about
those functions.

The look-ups run as a left-to-right scan with loop invariants (`Seqs.FindIndex`), as
`find`/`findIndex` do. The selectors that are folds (`selectCartItemCount`,
`selectCartSubtotal`, the `reduce` in `getNextPageParam`) are recursive functions over the
prefix, that is, left folds. The plain field reads (`selectCartItems`, `selectFavorites`,
`selectThemeMode`) are the classes' `items` and `mode` fields.

Three details of the code that the model follows:

- The favorites are an ordered array; toggling splices out the *first* entry with the id.
  The guarantee that toggling negates membership
  (`ToggleFlipsMembership`) therefore needs the no-repeated-ids invariant, and the model
  requires it.
- `decreaseQuantity` removes the line whenever its quantity is not above 1, not only at
  exactly 1. Under the cart invariant the two readings agree.
- In `slices/themeSlice.ts` no reducer writes to storage. The saved-value writes appear only
  in the second copy, `slices/themeSlice.tsx`. Both copies have the same transitions, which
  are modelled once.

## Model

| member | source | states |
|---|---|---|
| `Seqs.IndexOf` | slices/cartSlice.ts:29 | The result is the first position holding the id, and no earlier position holds it. It is None exactly when no element has the id. |
| `Seqs.FindIndex` | slices/favoritesSlice.tsx:13 | The scan returns -1 exactly when no element has the id. Otherwise it returns a position holding the id with none before it, which is the position `IndexOf` gives. |
| `Seqs.IndexOfAt` | slices/favoritesSlice.tsx:13 | When ids are distinct, the id held at position i is found at i. |
| `Seqs.Without` | slices/cartSlice.ts:40 | After the filter, no element has the id, and the result is no longer than the input. |
| `Seqs.WithoutMembers` | slices/favoritesSlice.tsx:28 | Every kept element comes from the input, and every input element with another id is kept. |
| `Seqs.WithoutAbsent` | slices/favoritesSlice.tsx:28 | Filtering out an id that does not occur returns the input unchanged. |
| `Seqs.WithoutAt` | slices/cartSlice.ts:40 | When ids are distinct, filtering out the id at position i is the same as cutting out position i. The other elements keep their order. |
| `Seqs.WithoutTwice` | slices/cartSlice.ts:40 | Filtering twice gives the same result as filtering once. |
| `Seqs.WithoutDistinct` | slices/cartSlice.ts:40 | Filtering keeps ids pairwise distinct. |
| `Seqs.AppendDistinct` | slices/cartSlice.ts:17 | Appending an element whose id is not present keeps ids distinct. |
| `Seqs.SpliceDistinct` | slices/cartSlice.ts:34 | Cutting out one position keeps ids distinct. |
| `Seqs.UpdateDistinct` | slices/cartSlice.ts:15 | Replacing an element by one with the same id keeps ids distinct. |
| `Cart.ItemCountAtLeastLines` | slices/cartSlice.ts:58-59 | In a well-formed cart, the item count is at least the number of lines. |
| `Cart.SubtotalNonNegative` | slices/cartSlice.ts:60-61 | In a well-formed cart with no negative prices, the subtotal is not negative. |
| `Cart.SumsOfConcat` | slices/cartSlice.ts:58-61 | The count and the subtotal of a concatenation are the sums of the parts' counts and subtotals. |
| `Cart.SumsOfSingle` | slices/cartSlice.ts:58-61 | A one-line cart counts that line's quantity and costs its price × quantity. |
| `Cart.LineTotalStep` | slices/cartSlice.ts:61 | One more unit of a line adds its stored price to the line's total, and one fewer takes it away. |
| `Cart.SumsAround` | slices/cartSlice.ts:58-61 | Each sum splits at a line into the part before it, the line itself and the part after it. |
| `Cart.SumsOfUpdate` | slices/cartSlice.ts:58-61 | Replacing one line changes each sum by the difference between the new and the old line. |
| `Cart.SumsOfSplice` | slices/cartSlice.ts:58-61 | Cutting out one line lowers each sum by that line's share. |
| `Cart.AddNew` | slices/cartSlice.ts:12-18 | Adding a product whose id is absent appends one line with quantity 1 and the product's fields. Earlier lines are unchanged. The count rises by 1 and the subtotal by the product's price. |
| `Cart.AddExisting` | slices/cartSlice.ts:13-15 | Adding an id present at position i changes only that line, by quantity + 1. The stored snapshot is kept and the argument's price is ignored. Position and length are unchanged. The count rises by 1 and the subtotal by the stored price. |
| `Cart.IncreasePresent` | slices/cartSlice.ts:21-26 | On a present id, only that line's quantity rises, by 1. The count rises by 1 and the subtotal by the stored price. |
| `Cart.IncreaseAbsent` | slices/cartSlice.ts:22-23 | On an absent id, `increaseQuantity` changes nothing. |
| `Cart.DecreasePresent` | slices/cartSlice.ts:28-37 | Above 1, the quantity drops by 1 and nothing else changes. At 1, the line is cut out and the others keep their order. Either way the count drops by 1 and the subtotal by the stored price. |
| `Cart.DecreaseAbsent` | slices/cartSlice.ts:29-30 | On an absent id, `decreaseQuantity` changes nothing. |
| `Cart.RemoveEffect` | slices/cartSlice.ts:39-41 | Afterwards no line has the id. A present line is cut out and the others keep their order. An absent id is a no-op, and removing twice is removing once. |
| `Cart.AddedWellFormed` | slices/cartSlice.ts:12-19 | `addToCart` keeps ids distinct and every quantity at least 1. |
| `Cart.IncreasedWellFormed` | slices/cartSlice.ts:21-26 | `increaseQuantity` keeps the cart invariant. |
| `Cart.DecreasedWellFormed` | slices/cartSlice.ts:28-37 | `decreaseQuantity` keeps the cart invariant. A quantity that would fall to 0 removes its line instead. |
| `Cart.RemovedWellFormed` | slices/cartSlice.ts:39-41 | `removeFromCart` keeps the cart invariant. |
| `Cart.AddSameTwice` | slices/cartSlice.ts:12-18 | Adding the same id twice to an empty cart gives one line with quantity 2 and the first call's snapshot. The subtotal is twice the first price. |
| `Cart.TwoLineTotals` | slices/cartSlice.ts:58-61 | Lines at 10.00 × 2 and 5.50 × 1 give count 3 and subtotal 25.50 (prices in cents). |
| `Cart.CartState.constructor` | slices/cartSlice.ts:4-6 | The cart starts empty and well-formed. |
| `Cart.CartState.AddToCart` | slices/cartSlice.ts:12-19 | The new items are `Added(old items, p)`, and the invariant is kept. |
| `Cart.CartState.IncreaseQuantity` | slices/cartSlice.ts:21-26 | The new items are `Increased(old items, id)`, and the invariant is kept. |
| `Cart.CartState.DecreaseQuantity` | slices/cartSlice.ts:28-37 | The new items are `Decreased(old items, id)`, and the invariant is kept. |
| `Cart.CartState.RemoveFromCart` | slices/cartSlice.ts:39-41 | The new items are the filtered old items, no line has the id, and the invariant is kept. |
| `Cart.CartState.ClearCart` | slices/cartSlice.ts:43-45 | The cart is empty whatever it held, so the count and the subtotal are 0. |
| `Favorites.ToggleAbsent` | slices/favoritesSlice.tsx:12-18 | Toggling an absent id appends the product at the end. |
| `Favorites.TogglePresent` | slices/favoritesSlice.tsx:13-15 | Toggling an id present at i cuts out that entry, and the others keep their order. This equals removing the id. |
| `Favorites.ToggleTwice` | slices/favoritesSlice.tsx:12-18 | Toggling the same product twice, starting with its id absent, restores the list. |
| `Favorites.ToggleFlipsMembership` | slices/favoritesSlice.tsx:12-18 | `selectIsFavorite` of the toggled id is negated, and membership of every other id is unchanged. |
| `Favorites.AddFavoriteEffect` | slices/favoritesSlice.tsx:21-25 | `addFavorite` appends when the id is absent and is a no-op when present. Applying it twice equals applying it once. With distinct ids, exactly one entry then has the id. |
| `Favorites.RemoveFavoriteEffect` | slices/favoritesSlice.tsx:27-29 | No entry has the id afterwards. A present entry is cut out and the others keep their order. An absent id is a no-op. |
| `Favorites.ToggledDistinct` | slices/favoritesSlice.tsx:12-18 | `toggleFavorite` keeps ids pairwise distinct. |
| `Favorites.WithFavoriteDistinct` | slices/favoritesSlice.tsx:21-25 | `addFavorite` keeps ids pairwise distinct. |
| `Favorites.WithoutFavoriteDistinct` | slices/favoritesSlice.tsx:27-29 | `removeFavorite` keeps ids pairwise distinct. |
| `Favorites.FavoritesState.constructor` | slices/favoritesSlice.tsx:4-6 | The favorites list starts empty. |
| `Favorites.FavoritesState.ToggleFavorite` | slices/favoritesSlice.tsx:12-19 | The new items are `Toggled(old items, p)`. Membership of `p.id` is negated, and ids stay distinct. |
| `Favorites.FavoritesState.AddFavorite` | slices/favoritesSlice.tsx:21-25 | The new items are `WithFavorite(old items, p)`. `p.id` is then a favorite, and ids stay distinct. |
| `Favorites.FavoritesState.RemoveFavorite` | slices/favoritesSlice.tsx:27-29 | The new items are the filtered old items. The id is no longer a favorite, and ids stay distinct. |
| `Favorites.FavoritesState.ClearFavorites` | slices/favoritesSlice.tsx:31-33 | The list is empty, and membership is false for every id. |
| `Theme.Flip` | slices/themeSlice.ts:13 | The flipped mode always differs from the given one, so light becomes dark and dark becomes light. |
| `Theme.FlipTwice` | slices/themeSlice.ts:13 | Flipping twice is the identity. |
| `Theme.ParseMode` | navigation/appNavigator.tsx:18 | A mode is accepted exactly for the strings `"light"` and `"dark"`, and the accepted mode's name is that string. |
| `Theme.ParseModeName` | slices/themeSlice.tsx:15 | The name a mode is saved under parses back to that mode. |
| `Theme.ThemeState.constructor` | slices/themeSlice.ts:4-6 | The initial mode is light. |
| `Theme.ThemeState.ToggleTheme` | slices/themeSlice.ts:12-14 | The new mode is the flip of the old one: light becomes dark and dark becomes light. |
| `Theme.ThemeState.SetTheme` | slices/themeSlice.ts:16-18 | The new mode is the argument, whatever it was before. Setting twice therefore equals setting once. |
| `Theme.ThemeState.LoadTheme` | slices/themeSlice.ts:20-22 | It has the same effect as `SetTheme`: the new mode is the argument. |
| `Theme.ThemeState.RestoreSaved` | navigation/appNavigator.tsx:17-20 | A saved value that parses is set. A missing, unreadable or unrecognised value leaves the mode unchanged. |
| `Pagination.NextOffsetIsEndOfLoaded` | hooks/useProducts.ts:13-19 | A next parameter exists exactly while fewer products are loaded than the last page's total. It is then the position just past every loaded product, read page after page. |
| `Pagination.FlattenLength` | hooks/useProducts.ts:14 | The summed page lengths equal the number of products loaded. |
| `Pagination.AppendPage` | hooks/useProducts.ts:14 | A new page adds its length to the loaded count and its products after the loaded products. |
| `Pagination.Serve` | utils/api.tsx:21 | The assumed catalog answer holds at most `limit` products, and at least one while `skip` is inside the catalog. Its total is the catalog's size. |
| `Pagination.FirstPage` | hooks/useProducts.ts:7-20 | The first request, at the initial parameter 0 with `skip` equal to the parameter and `limit` 20, loads the catalog's first min(20, size) products. |
| `Pagination.NextPage` | hooks/useProducts.ts:13-19 | Fetching the returned parameter appends the catalog's next products with no gap and no overlap. The loaded count strictly rises. |
| `Pagination.LastPage` | hooks/useProducts.ts:15-18 | When no next parameter is returned, every product of the catalog has been loaded, in order. |

## Left out

- Prices are whole numbers of cents, so the count and subtotal laws are exact. The source
  uses JavaScript floating-point numbers, and their rounding is not modelled. The same goes
  for the display-only original-price computation.
- Product ids are compared as mathematical integers. JavaScript `===` on numbers (NaN,
  signed zero) is not modelled.
- `Pagination.Serve`: the remote catalog (utils/api.tsx) is not part of this model. `Serve`
  only states an assumed consistent answer, in order to prove that the paging rule loads the
  whole result list. The HTTP fetches, JSON decoding and `FetchError` wrapping are left out.
- The `useInfiniteQuery`/`useQuery` wiring, query keys, caching and the other hooks in
  hooks/useProducts.ts are library glue with no rule to state. Only `getNextPageParam`,
  `initialPageParam` and the request arguments are modelled.
- The asynchronous `AsyncStorage.setItem` writes (slices/themeSlice.tsx:15,20) and the
  asynchronous startup read (navigation/appNavigator.tsx:14-27) are I/O. The read is a
  parameter of `Theme.ThemeState.RestoreSaved`, with a failed read given as None. The
  writes are not modelled, and the mode's saved name is `Theme.ModeName`.
- Screens, components, navigation, theme hooks, colour tables and store wiring are rendering
  and configuration. The screens' own count and subtotal folds repeat the cart selectors.
- Redux Toolkit's action creators and Immer's copy-on-write mechanics are not modelled. Each
  reducer is a direct in-place transition of its slice's state object.
- The cart and favorites methods require the class invariant `Valid()`. It holds from
  construction on, because only these methods change the state.
