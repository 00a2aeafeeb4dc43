# Storefront cart and remote catalog — a Dafny model

This project models the state logic of a single-page storefront (`my-app/app/page.tsx`):

- the **store** (`AppProvider`) holding the selected product (or none) and the cart, with
  `selectProduct`, which replaces the selection, and `addToCart`, which appends a product
  unless an entry with the same `id` is already present;
- the **cart summary total**, a `reduce` over the cart's prices;
- the **remote search** (`RemoteProducts.fetchFromDummy`), which raises a `loading` flag,
  maps the endpoint's records into the local product shape (the thumbnail falls back to the
  first image), publishes them as `results` (the empty list on any error), and drops the flag.

Files:

- `product.dfy` (module `Products`): the `Product` record, `Option`, and the predicates
  "some entry has this id" and "ids are unique".
- `cart.dfy` (module `Cart`): the `find`-by-id lookup and the cart update as pure functions.
  It also holds a fold of many adds and the lemmas about dedup, order and idempotence.
- `total.dfy` (module `CartTotal`): the total and its lemmas.
- `store.dfy` (module `Store`): class `AppStore`, with fields updated in place by its methods.
- `remote.dfy` (module `Remote`): record normalisation and class `RemoteProducts` with the
  `loading`/`results` state.

Prices are exact `real` amounts. Ids are unbounded integers compared with `==`, as `===` compares them.
The network request is a parameter of type `FetchOutcome`: `Success` carries the body's
`products` list (or `None` when the body has none), and `Failure` stands for any transport or parse error.

The thumbnail follows `p.thumbnail || p.images?.[0]`: an empty-string thumbnail counts as
missing, and the first image is taken as it is, even when it is the empty string.

The total is stable under reordering the adds only when the products added have pairwise
distinct ids. When one id is offered at different prices, the first offer is kept, so the
total depends on the order of the adds.

## Model

| member | source | states |
|---|---|---|
| `Cart.Find` | my-app/app/page.tsx:48 | the lookup finds something exactly when some cart entry has the id; what it returns has that id and is the first such entry |
| `Cart.AddToCart` | my-app/app/page.tsx:45-50 | when the id is already in the cart, the cart is returned unchanged, whatever the new product's other fields are; otherwise the product is appended at the end |
| `Cart.AddToCartContains` | my-app/app/page.tsx:45-50 | after an add, the cart has an entry with the added product's id |
| `Cart.AddToCartIdempotent` | my-app/app/page.tsx:45-50 | adding the same product twice gives the same cart as adding it once |
| `Cart.AddToCartPreservesUnique` | my-app/app/page.tsx:45-50 | an add keeps the cart free of two entries with the same id |
| `Cart.AddAllUnique` | my-app/app/page.tsx:39-50 | any sequence of adds starting from a cart with unique ids (such as the initial empty cart) keeps the ids unique |
| `Cart.AddAllKeepsFirst` | my-app/app/page.tsx:48 | after any sequence of adds, the entry for each id is the first product ever offered with that id |
| `Cart.AddAllIsFirstOccurrences` | my-app/app/page.tsx:45-50 | adds from the empty cart yield the offered products whose id did not occur earlier, in call order (order of first insertion) |
| `Cart.DistinctAddsKeepOrder` | my-app/app/page.tsx:49 | adding products with pairwise distinct ids to the empty cart keeps all of them in call order |
| `CartTotal.TotalAppend` | my-app/app/page.tsx:85 | appending an item adds exactly its price to the total |
| `CartTotal.TotalConcat` | my-app/app/page.tsx:85 | the total of two carts joined is the sum of their totals |
| `CartTotal.TotalPermutation` | my-app/app/page.tsx:85 | the total does not depend on the order of the entries |
| `CartTotal.TotalNonNegative` | my-app/app/page.tsx:85 | with non-negative prices the total is non-negative |
| `CartTotal.TotalAfterAdd` | my-app/app/page.tsx:85 | a kept add raises the total by the product's price; a duplicate add leaves it unchanged |
| `CartTotal.LocalThenRemoteScenario` | my-app/app/page.tsx:17-21 | adding local item 1 (4999) then a remote item 101 (19.9) to an empty cart gives the cart [1, 101] with total 5018.9 |
| `CartTotal.TotalReorderedAdds` | my-app/app/page.tsx:45-50 | reordering adds of products with pairwise distinct ids, starting from the empty cart, gives the same total |
| `CartTotal.TotalDependsOnAddOrder` | my-app/app/page.tsx:48 | when two products share an id but differ in price, the one added first is kept, so the two add orders give different totals |
| `Store.AppStore.constructor` | my-app/app/page.tsx:38-39 | a new store has no selection and an empty cart |
| `Store.AppStore.SelectProduct` | my-app/app/page.tsx:41-43 | the selection becomes exactly the argument, possibly none, and the cart is unchanged |
| `Store.AppStore.AddToCart` | my-app/app/page.tsx:45-50 | the cart is unchanged if the id is present, else the old cart plus the product at the end; unique ids are preserved; the selection is unchanged |
| `Store.AddTwice` | my-app/app/page.tsx:45-50 | two adds of one product through the store leave the cart of a single add |
| `Remote.ResolveThumbnail` | my-app/app/page.tsx:112 | a non-empty thumbnail wins, else the first image if there is one, else none |
| `Remote.Normalise` | my-app/app/page.tsx:107-113 | id, title, description and price are copied unchanged and the thumbnail is the resolved one |
| `Remote.NormaliseAll` | my-app/app/page.tsx:107-113 | the mapping yields one product per record, same length, same order |
| `Remote.FirstImageFallback` | my-app/app/page.tsx:112 | a record with no thumbnail (or an empty one) and images ["u1"] gets thumbnail "u1" |
| `Remote.ResultsFor` | my-app/app/page.tsx:107-117 | failure, or a body without products, publishes the empty list; otherwise the normalised records, in order |
| `Remote.RemoteProducts.constructor` | my-app/app/page.tsx:98-99 | the component starts not loading and with no results (idle) |
| `Remote.RemoteProducts.BeginFetch` | my-app/app/page.tsx:104 | loading is raised and the previous results are kept while the request is pending |
| `Remote.RemoteProducts.FinishFetch` | my-app/app/page.tsx:105-120 | on any outcome, loading ends false and results are present: the empty list on failure, the normalised records on success |
| `Remote.RemoteProducts.FetchFromDummy` | my-app/app/page.tsx:102-121 | a whole run of the handler ends loaded, with the outcome's results and loading false |
| `Remote.RemoteProducts.OverlappingFetches` | my-app/app/page.tsx:102-121 | two requests started before either completes: the first completion already clears loading, and the results are those of the last completion |

## Left out

- Rendering, styling and the UI widget components (page.tsx:59-95, 126-212), including `toFixed(2)` formatting, are presentational.
- The HTTP request, `res.json()` and `console.error` (page.tsx:105-106, 116) are I/O. The request's result is the `FetchOutcome` parameter, and logging has no modelled effect.
- Overlapping fetches are modelled only as sequences of `BeginFetch`/`FinishFetch` calls, which may interleave across requests (`OverlappingFetches`: the last completion wins). The order in which the network completes requests is not modelled.
- The React context plumbing and the `useAppState` error outside a provider (page.tsx:29-35) are framework wiring.
- The unused `query` and `name` inputs and the empty effect (page.tsx:97, 123-124, 157) have no behaviour.
- IEEE-754 floating point in prices and sums: prices are exact reals.
- Records whose `id`, `title`, `description` or `price` are missing or of another type are not modelled. Neither is a `null` entry in the `products` list, which would throw inside `map` and so be handled as a failure.
- `CartTotal.TotalNonNegative` assumes non-negative prices; the code does not enforce them.
