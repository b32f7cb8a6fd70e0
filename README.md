# ProductShop storefront screens in Dafny

ProductShop is a React Native storefront. It fetches a product catalog,
lists it with a live prefix search, marks favourites, and shows one product
per detail screen. Nearly all of the code is layout. This project models the
two screens that hold logic.

- `screens/HomeScreen.tsx`: the list screen. It has a state of four fields
  (`products`, `filteredProducts`, `searchQuery`, `loading`). The fetch
  completion and `handleSearch` update that state; here they are methods of
  the class `Home.HomeScreen`. The case-insensitive prefix filter, the
  favourite mark, the 40-character description cut and the count label are
  pure derivations, so they are functions with lemmas about them.
- `screens/ProductDetailScreen.tsx`: the detail screen. Its state
  (`product`, `loading`, `isExpanded`, `showReadMore`, `textLines`) is the
  class `ProductDetail.ProductDetailScreen`. There is one method per event:
  fetch success, fetch failure, `onTextLayout`, a read-more press and a
  favourite press. `View` picks the spinner, "Product not found." or the
  detail view.

Modules: `Text` holds trim, ASCII lowercase, `startsWith` and decimal text.
`Catalog` holds the product record and the favourite test that both screens
share. `Home` and `ProductDetail` hold one screen each.

`handleSearch` trims the text only to decide whether the query is blank
(`text.trim() === ''`). It then matches `text.toLowerCase()` without
trimming, so leading spaces take part in the match.
`Home.SearchExampleNoMatch` shows that `" apple"` finds nothing in a catalog
whose titles start with "Apple" and "apple".

Some preconditions stand for facts of the screens' structure:
- `Home.HomeScreen.HandleSearch` requires `!loading`. The search field is
  drawn only after loading ends (HomeScreen.tsx lines 103-111).
- The home screen's fetch completions require `loading`. The effect has an
  empty dependency list, so it completes once, while the spinner is up.
- `ProductDetail.ProductDetailScreen.PressReadMore` requires the button to
  be visible, because the button exists only then (line 139).

Together these keep the invariant `filteredProducts == SearchResult(products,
searchQuery)` on the list screen. On the detail screen they keep the invariant
that the latch has fired whenever the text is expanded.

## Model

| member | source | states |
|---|---|---|
| `Text.TrimStart` | screens/HomeScreen.tsx:52 | the result is a suffix of the input, the dropped prefix is all trim characters, and the result does not start with one |
| `Text.TrimEnd` | screens/HomeScreen.tsx:52 | the result is a prefix of the input, the dropped suffix is all trim characters, and the result does not end with one |
| `Text.Trim` | screens/HomeScreen.tsx:52 | `text.trim()` is never longer than the text and neither starts nor ends with a white-space or line-terminator character |
| `Text.TrimIsSlice` | screens/HomeScreen.tsx:52 | what `trim` keeps is a contiguous slice of the text with only blank characters before and after it |
| `Text.KeptCharNotBlank` | screens/HomeScreen.tsx:52 | a text holding one character that `trim` keeps is not blank |
| `Text.TrimEmptyIff` | screens/HomeScreen.tsx:52 | `text.trim() === ''` holds exactly when every character is JavaScript white space or a line terminator (the empty text included) |
| `Text.LowerChar` | screens/HomeScreen.tsx:56-58 | one lowercased character is never an ASCII capital; it is the character itself or, for a capital, the letter 32 code points above |
| `Text.Lower` | screens/HomeScreen.tsx:56-58 | `toLowerCase` keeps the length, leaves no ASCII capital, and changes each position only from a capital to its small letter |
| `Text.LowerKeepsBlank` | screens/HomeScreen.tsx:52-56 | a query is blank exactly when its lowercased form is |
| `Text.StartsWith` | screens/HomeScreen.tsx:58 | `s.startsWith(prefix)` holds exactly when the prefix is no longer than `s` and agrees with it position by position |
| `Text.StartsWithIffConcat` | screens/HomeScreen.tsx:58 | `s.startsWith(prefix)` holds exactly when `s` is the prefix followed by some rest |
| `Text.Decimal` | screens/HomeScreen.tsx:141 | the rendered number is a non-empty run of digits with no leading zero |
| `Text.DecimalRoundTrip` | screens/HomeScreen.tsx:141 | reading the rendered digits back gives the number |
| `Catalog.IsFavorite` | screens/HomeScreen.tsx:65 | `favorites.some(fav => fav.id === id)` holds exactly when some favourite carries the id |
| `Catalog.MemberIsFavorite` | screens/HomeScreen.tsx:65 | a product in the favourites list is marked as a favourite |
| `Home.Matches` | screens/HomeScreen.tsx:58 | a product can match only a query no longer than its title, and the empty query matches every product |
| `Home.FilterByPrefix` | screens/HomeScreen.tsx:56-59 | a product is in the result exactly when it is in the list and its lowercased title starts with the query; each matching product occurs as often as in the list and every other product not at all; the result is no longer than the list |
| `Home.FilterIsSubsequence` | screens/HomeScreen.tsx:57-59 | the filter keeps the products' original relative order |
| `Home.FilterNarrows` | screens/HomeScreen.tsx:56-59 | filtering the hits of a query again by a longer query gives that longer query's hits |
| `Home.SearchResult` | screens/HomeScreen.tsx:52-60 | the filtered list is never longer than the loaded list and holds only loaded products |
| `Home.SearchBlankShowsAll` | screens/HomeScreen.tsx:52-54 | a whitespace-only or empty query gives exactly the loaded list |
| `Home.SearchNonBlankSpec` | screens/HomeScreen.tsx:56-60 | any other query gives an ordered selection of the loaded list whose titles all start with the lowercased, untrimmed query, and that holds every product whose title does |
| `Home.SearchIgnoresCase` | screens/HomeScreen.tsx:56-58 | two queries with the same lowercase form give the same result |
| `Home.SearchIsSubsequence` | screens/HomeScreen.tsx:52-60 | every search result is an ordered selection of the loaded list |
| `Home.ShortDescription` | screens/HomeScreen.tsx:66-69 | a description of at most 40 characters is shown whole; a longer one becomes its first 40 characters and `...`, 43 in all |
| `Home.ShortDescriptionStable` | screens/HomeScreen.tsx:66-69 | the card text is at most 43 characters long, and cutting it again changes nothing |
| `Home.RenderItem` | screens/HomeScreen.tsx:64-69 | the card carries the item itself, is marked exactly when some favourite shares the item's id, and shows the cut description |
| `Home.CountLabel` | screens/HomeScreen.tsx:141 | the count label ends with " products found", and what precedes it is a run of decimal digits with no leading zero that reads back as the count |
| `Home.HomeScreen.constructor` | screens/HomeScreen.tsx:28-31 | the screen mounts loading, with empty lists and an empty query |
| `Home.HomeScreen.FetchSucceeded` | screens/HomeScreen.tsx:37-41 | both lists become the fetched data and loading ends |
| `Home.HomeScreen.FetchFailed` | screens/HomeScreen.tsx:42-45 | loading ends and both lists stay empty |
| `Home.HomeScreen.HandleSearch` | screens/HomeScreen.tsx:50-61 | the raw text becomes the query, the loaded list is untouched, and the filtered list becomes the search result of the text |
| `Home.HomeScreen.FilteredIsSubsequence` | screens/HomeScreen.tsx:50-61 | on a consistent screen the filtered list is an ordered selection of the loaded list |
| `Home.HomeScreen.View` | screens/HomeScreen.tsx:103-165 | spinner exactly while loading; then the count label of the filtered list, one card per filtered product in order with its favourite mark and its cut description, and the empty notice exactly when nothing is left |
| `Home.SearchExampleApple` | screens/HomeScreen.tsx:56-58 | in the catalog "Apple Phone", "Banana Case", "apple Watch", the queries "apple" and "APPLE" find the first and third items, in order |
| `Home.SearchExampleBlank` | screens/HomeScreen.tsx:52-54 | the queries "" and "  " show the whole catalog |
| `Home.SearchExampleNoMatch` | screens/HomeScreen.tsx:56-58 | "xyz" finds nothing, and neither does " apple", because leading spaces are matched |
| `ProductDetail.ProductDetailScreen.constructor` | screens/ProductDetailScreen.tsx:33-37 | the screen mounts loading, with no product, collapsed, and with the latch not fired |
| `ProductDetail.ProductDetailScreen.FetchSucceeded` | screens/ProductDetailScreen.tsx:43-46 | the parsed body becomes the product (None stands for a falsy body: JSON `null`, `false`, `0` or `""`, which all render "Product not found.") and loading ends |
| `ProductDetail.ProductDetailScreen.FetchFailed` | screens/ProductDetailScreen.tsx:47-49 | loading ends and the product is left as it was |
| `ProductDetail.ProductDetailScreen.OnTextLayout` | screens/ProductDetailScreen.tsx:127-132 | the first layout above 3 lines fires the latch and records its count; any other layout changes nothing; once fired, the latch stays fired and the count is never overwritten |
| `ProductDetail.ProductDetailScreen.ButtonVisible` | screens/ProductDetailScreen.tsx:139 | on a screen that keeps the latch invariant, the read-more button is drawn exactly when the latch has fired |
| `ProductDetail.ProductDetailScreen.ButtonVisibleIffLatched` | screens/ProductDetailScreen.tsx:139 | under the latch invariant the button is visible exactly when the latch has fired, and its recorded count is above 3 |
| `ProductDetail.ProductDetailScreen.PressReadMore` | screens/ProductDetailScreen.tsx:140 | a press flips expanded and collapsed and changes nothing else |
| `ProductDetail.ProductDetailScreen.PressFavorite` | screens/ProductDetailScreen.tsx:99 | `toggleFavorite` is called, with the loaded product, exactly when there is one |
| `ProductDetail.ProductDetailScreen.View` | screens/ProductDetailScreen.tsx:55-145 | spinner exactly while loading; "not found" exactly when loading ended without a product; otherwise the detail view with the product's favourite mark, the 3-line clamp exactly when the text is collapsed and the latch has fired, and a button that is drawn exactly when visible and reads "Read less" exactly when expanded |
| `ProductDetail.FavoriteMarkAgrees` | screens/ProductDetailScreen.tsx:74 | given the same favourites, the detail screen's mark equals the list card's mark for a product with the same id |
| `ProductDetail.PressFavoriteInDetail` | screens/ProductDetailScreen.tsx:97-99 | in the detail view the favourite press always reaches `toggleFavorite`, with the product on screen |
| `ProductDetail.PressTwice` | screens/ProductDetailScreen.tsx:140-142 | two presses of the read-more button restore the screen's state |

## Left out

- The network calls (`fetch`, `response.json()`), the async effects, and the `console.error` logging of a failed fetch (HomeScreen.tsx line 43, ProductDetailScreen.tsx line 48). Only their outcomes are modelled: a fetch that returned data, or a fetch that threw. Races where a stale response lands after a newer one are concurrency and are not modelled.
- `toggleFavorite` and the favourites context. `context/FavouritesContext` is not part of this model. Favourites are an input sequence here, and a press only reports which product it would hand to `toggleFavorite`.
- `Text.LowerChar`: lowercases the ASCII letters only. JavaScript's `toLowerCase` follows full Unicode case mapping, which can also change a string's length.
- `Home.ShortDescription`: counts characters as code points. JavaScript's `length` and `slice` count UTF-16 code units, so the two differ for characters outside the Basic Multilingual Plane.
- ProductDetail.ProductDetailScreen.FetchSucceeded: a truthy body that is not a product (such as `{}` or `[]`) is not modelled. The source puts it in `product`, passes the `!product` test on line 65 into the detail branch, and `product.price.toFixed(2)` then throws during render (ProductDetailScreen.tsx lines 45, 65 and 119).
- Price formatting with `toFixed(2)`, the rating line, and the SVG and window-size arithmetic. These are floating point and layout.
- Navigation (`navigate`, `goBack`), images, icons, `StatusBar` and every `StyleSheet`.
- A change of the route's `id` on a mounted detail screen. No screen of the app navigates from one detail screen to another, so `id` is a constant of each screen here.
- `screens/FavoritesScreen.tsx`, a read-only listing of the favourites with a singular/plural label, and `App.tsx`, which only wires up the navigation stack.
