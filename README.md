# aliccedress storefront: navigator, home cart, catalog and product lookup

A Dafny model of the front end of the aliccedress clothing shop demo. The shop has
no back end: four pieces of its React front end carry its logic, and these are modelled.

- **The application shell** (`App`). It keeps two pieces of state, the current page
  (`home | bascket | product | catalog | profile`) and the selected product id. It has
  handlers for the four header buttons and for choosing a product. Which header button
  is shown active, and which page component is mounted, follow from that state.
  `AppState` is a class with these two fields and one method per handler.
- **The home page** (`HomePage`). It keeps a local cart of product ids: adding an id
  appends it only if absent, and a clear empties the cart. The page also shows a
  "Bestsellers" strip: the first three products, with the price as bare digits.
- **The catalog page** (`CatalogPage`). It holds no state. It shows its copy of the
  product table, each price labelled `"<price> ₽"`. Its handlers coerce an id with
  `Number` and pass it to the parent's callback. When the parent gave no callback,
  add to cart looks the id up and alerts its title, and details alerts the raw id.
- **The product detail page** (`ProductCardPage`). The id arrives as text. The page
  reads it with `Number` and finds the entry in its own nine-entry table. A miss shows
  an explicit "not found" view. The effect only writes the selection when the id is
  truthy, so an absent or empty id keeps the previous selection.

Two shared modules support these. `Numbers` models JavaScript numbers as an integer
or NaN, with `Number(string)`, `toString` and the round trip between them. `Products`
holds the shared product records, the first-match `find`, and the add-to-cart alert text.

## Model

| member | source | states |
|---|---|---|
| `Numbers.ParseDecimal` | frontend/src/pages/ProductCardPage.tsx:170 | yields a value exactly for an optionally signed digit string: the digits' value, negated after a leading `-` (so `"+5"` is 5 and `"-07"` is -7) |
| `Numbers.StringToNumber` | frontend/src/pages/ProductCardPage.tsx:170 | `Number(s)`: the empty string is 0, a digit string is its value, a signed literal is its signed value, a string that is not a decimal literal is NaN |
| `Numbers.ToNumber` | frontend/src/pages/CatalogPage.tsx:98 | `Number(v)` on `string \| number`: a number is kept unchanged, a string is read as `Number(s)` |
| `Numbers.NatToString` | frontend/src/App.tsx:182 | `toString` of a natural number is a non-empty digit string with no leading zero except for "0" |
| `Numbers.IntToString` | frontend/src/App.tsx:182 | `toString` of an integer is non-empty; it is all digits exactly when the value is non-negative and starts with `-` exactly when it is negative |
| `Numbers.NumberToString` | frontend/src/App.tsx:182 | `toString` of any number, NaN included, is never the empty (falsy) string |
| `Numbers.IdText` | frontend/src/pages/CatalogPage.tsx:117 | `${productId}` keeps a string id unchanged and writes a numeric id as non-empty text that `Number` reads back as that id |
| `Numbers.DigitsOfNatToString` | frontend/src/App.tsx:182 | reading back the digits written for `n` gives `n` |
| `Numbers.ParseIntToString` | frontend/src/App.tsx:182 | parsing `n.toString()` gives `n` back, for every integer |
| `Numbers.NumberRoundTrip` | frontend/src/pages/ProductCardPage.tsx:170 | `Number(x.toString())` is `x` again, NaN included: the id the shell writes is the id the detail page reads |
| `Numbers.NatToStringOfDigits` | frontend/src/pages/ProductCardPage.tsx:170 | the converse direction: a digit string without leading zeros is exactly what `toString` writes for its value |
| `Numbers.NumberToStringInjective` | frontend/src/App.tsx:182 | distinct numbers are written as distinct strings |
| `Products.Find` | frontend/src/App.tsx:114 | `find` returns the first entry whose id matches; it misses exactly when no entry matches |
| `Products.FindNumber` | frontend/src/pages/ProductCardPage.tsx:170 | `find(p => p.id === x)`: NaN matches no entry; for an integer it is the first-match `find`; a hit is a table entry strictly equal to `x`; a miss means that no entry is |
| `Products.FindFirst` | frontend/src/pages/CatalogPage.tsx:106 | an entry whose id no earlier entry shares is the one `find` returns |
| `Products.FindInNumberedTable` | frontend/src/pages/ProductCardPage.tsx:170 | in a table numbered 1..n, a number finds the entry at index id - 1, and any other number finds nothing |
| `Products.TitleText` | frontend/src/App.tsx:116 | `${product?.title}` is the title on a hit and "undefined" on a miss |
| `Products.AddedAlert` | frontend/src/App.tsx:116 | the add-to-cart alert starts with the title in double quotes |
| `Products.BackClick` | frontend/src/pages/CatalogPage.tsx:122-128 | the back handler calls `onBack` exactly when it is supplied and goes back in the history otherwise (ProductCardPage.tsx:184-190 is the same handler) |
| `Products.ToDisplay` | frontend/src/pages/CatalogPage.tsx:149-152 | the mapped list has the input's length and order, with ids, images, titles and descriptions unchanged, and each price replaced by its decimal text followed by the suffix |
| `Products.PriceLabelRoundTrip` | frontend/src/pages/CatalogPage.tsx:151 | a price label ends in the suffix, and reading with `Number` what precedes the suffix gives back the numeric price |
| `CatalogPage.ClothingProducts` | frontend/src/pages/CatalogPage.tsx:19-83 | the catalog's table has nine entries, with ids 1..9 in order |
| `CatalogPage.CatalogProducts` | frontend/src/pages/CatalogPage.tsx:149-152 | the list given to `Catalog` has the table's length, order, ids, titles, images and descriptions; only the price becomes `"<price> ₽"` |
| `CatalogPage.CatalogPriceLabels` | frontend/src/pages/CatalogPage.tsx:151 | every catalog price label ends in " ₽", and what precedes it reads back as the numeric price |
| `CatalogPage.HandleAddToCart` | frontend/src/pages/CatalogPage.tsx:97-110 | when a callback is supplied, the numeric id is forwarded unchanged; otherwise the handler alerts the title that the local lookup finds |
| `CatalogPage.FallbackAddToCart` | frontend/src/pages/CatalogPage.tsx:105-108 | without a callback, a table id alerts that entry's title, and any other id alerts "undefined": a miss is never a failure |
| `CatalogPage.HandleDetailsClick` | frontend/src/pages/CatalogPage.tsx:113-119 | the numeric id goes to `onProductSelect` when that callback is supplied; otherwise the handler alerts the raw id |
| `CatalogPage.ShowsBackButton` | frontend/src/pages/CatalogPage.tsx:135-139 | the back button is rendered only when `onBack` is supplied, so a click on it always calls `onBack` |
| `ProductCardPage.ClothingProducts` | frontend/src/pages/ProductCardPage.tsx:35-153 | the detail table has nine entries, with ids 1..9 in order, so the ids are distinct |
| `ProductCardPage.Lookup` | frontend/src/pages/ProductCardPage.tsx:170 | `find(p => p.id === Number(productId))` over ids 1..9: a parsed id 1..9 selects the entry at index id - 1, and every other input is not found, whether it parses to another number or to NaN; the empty string reads as 0, so it is also not found |
| `ProductCardPage.HitIsUnique` | frontend/src/pages/ProductCardPage.tsx:170 | whichever entry matches the parsed id is the one selected: a hit is unique |
| `ProductCardPage.LookupOfToString` | frontend/src/pages/ProductCardPage.tsx:170 | round trip with the shell: the page selects for `x.toString()` what `find` selects for `x`, which is entry `x` for ids 1..9 and nothing otherwise |
| `ProductCardPage.ProductCardState.constructor` | frontend/src/pages/ProductCardPage.tsx:166 | the selection starts as null |
| `ProductCardPage.ProductCardState.SyncWithProductId` | frontend/src/pages/ProductCardPage.tsx:168-174 | a truthy id sets the selection to the lookup result, which is null on a miss; an absent or empty id leaves the selection as it was |
| `ProductCardPage.ProductCardState.HandleAddToCart` | frontend/src/pages/ProductCardPage.tsx:177-181 | the handler alerts only when a product is selected, naming that product, and changes no state |
| `ProductCardPage.Render` | frontend/src/pages/ProductCardPage.tsx:192-242 | the page shows the not-found view exactly when nothing is selected; otherwise its heading is the title, and the card gets the product's id, image, title and description unchanged, with a formatted price and " ₽" |
| `HomePage.AddId` | frontend/src/pages/HomePage.tsx:28-34 | adding an absent id appends it at the end; adding a present id leaves the cart unchanged; either way the id is then present, nothing else enters, and no duplicate appears |
| `HomePage.AddAllProperties` | frontend/src/pages/HomePage.tsx:28-34 | after any sequence of adds, the cart holds no duplicate. It holds exactly the ids it held or was given, and it keeps its earlier contents as a prefix |
| `HomePage.AddIdIdempotent` | frontend/src/pages/HomePage.tsx:33 | adding the same id twice is the same as adding it once |
| `HomePage.HomeCart.constructor` | frontend/src/pages/HomePage.tsx:23 | the cart starts empty |
| `HomePage.HomeCart.HandleAddToCart` | frontend/src/pages/HomePage.tsx:25-36 | the cart is updated by `AddId` with `Number(productId)` and keeps its no-duplicates invariant; that same number goes to `onAddToCart` on every call, repeats included |
| `HomePage.HomeCart.ClearCart` | frontend/src/pages/HomePage.tsx:42-45 | the cart is empty afterwards, whatever it held, and the "cart cleared" alert is shown |
| `HomePage.HomeCart.ShowsClearButton` | frontend/src/pages/HomePage.tsx:52 | the clear button is shown exactly when the cart holds some id |
| `HomePage.HandleDetailsClick` | frontend/src/pages/HomePage.tsx:38-40 | `onProductSelect` gets `Number(productId)`: a numeric id unchanged, a string id read as a number |
| `HomePage.Bestsellers` | frontend/src/pages/HomePage.tsx:91-95 | the strip lists the first min(3, \|products\|) products in order, with the same ids, images, titles and descriptions; each price is the plain decimal string, with no suffix, that reads back as the price |
| `App.ClothingProducts` | frontend/src/App.tsx:24-88 | the shell's table has nine entries, with ids 1..9 in order |
| `App.ActiveButton` | frontend/src/App.tsx:129-152 | a button is active exactly when its page is the current page, so at most one button is active; none is active on the product page |
| `App.HandleAddToCart` | frontend/src/App.tsx:112-117 | the shell's add-to-cart alert names the table entry for ids 1..9 and "undefined" for any other number, NaN included: a miss, not a failure |
| `Products.AddedAlertInNumberedTable` | frontend/src/App.tsx:114-116 | in a table numbered 1..n, the add-to-cart alert names entry id - 1 for a table id and "undefined" for any other number, NaN included |
| `App.OptionalToString` | frontend/src/App.tsx:182 | `selectedProductId?.toString()` is undefined for null; otherwise it is a non-empty string that `Number` reads back as the id |
| `App.MountedPages` | frontend/src/App.tsx:164-190 | exactly one page component is mounted, the one for the current page; the detail page gets the selected id as a decimal string (undefined when there is none), and the catalog page gets every callback |
| `App.AppState.constructor` | frontend/src/App.tsx:91-92 | the app starts on the home page with no product selected |
| `App.AppState.NavigateToHome` | frontend/src/App.tsx:95-98 | the page becomes home and the selection is cleared |
| `App.AppState.NavigateToCatalog` | frontend/src/App.tsx:101-103 | the page becomes catalog, and the selection stays as it was |
| `App.AppState.HandleProductSelect` | frontend/src/App.tsx:106-109 | the page becomes product and the selection becomes the given id, together |
| `App.AppState.OpenBascket` | frontend/src/App.tsx:143 | the Корзина button changes only the page |
| `App.AppState.OpenProfile` | frontend/src/App.tsx:149 | the Профиль button changes only the page |
| `App.AppState.Click` | frontend/src/App.tsx:129-152 | after a click on a header button, that button is the active one; only Главная clears the selection; every handler keeps the invariant that the product page has a selection |
| `App.ProductPageGetsId` | frontend/src/App.tsx:180-185 | for every `AppState` satisfying its invariant (which every handler keeps), exactly one page is mounted, and on the product page the detail page gets a truthy id |
| `App.SelectedProductIsShown` | frontend/src/App.tsx:182 | end to end: with selection `x`, the mounted detail page looks up exactly `x`; for ids 1..9 the product it shows has the id, title and price of the shell's entry |
| `App.CatalogProps` | frontend/src/App.tsx:173-177 | the shell gives the catalog page all three callbacks |
| `App.CatalogDetailsShowTile` | frontend/src/pages/CatalogPage.tsx:113-116 | "details" on catalog tile `i` forwards the tile's id; the detail page then selects its entry `i`, which has the tile's id and title |
| `App.CatalogTableAgrees` | frontend/src/pages/CatalogPage.tsx:19-83 | the catalog page's table is the shell's table (frontend/src/App.tsx:24-88), entry for entry |
| `App.DetailTableAgrees` | frontend/src/pages/ProductCardPage.tsx:35-153 | the detail table has the shell's ids, images, titles and prices; its descriptions equal the shell's only for ids 7-9 |
| `App.HomeShowsFirstThree` | frontend/src/pages/HomePage.tsx:92 | the home page's bestsellers are the shell's products 1, 2 and 3 |

## Left out

- `alert`, `window.history.back()`: browser I/O. An alert is a returned message string, and going back is the `HistoryBack` action.
- `formatPrice` (`Intl.NumberFormat('ru-RU')`): a locale library. `ProductCardPage.Render` takes it as a function parameter.
- JavaScript `Number` beyond decimal integer literals: surrounding whitespace, fractions (`"5.0"`), exponents, hex, `Infinity`, `-0` as distinct from 0, and the 2^53 precision limit. Every such string reads as NaN here, except `"-0"`, which reads as 0. Numbers are unbounded integers.
- The ui-library `Product` type allows string ids and prices. All three tables use numbers, so the records here have integer ids and prices. The `price as number` casts in HomePage.tsx and CatalogPage.tsx are type-only.
- React scheduling: each state setter is a direct field write. The detail page's `useEffect` is the method `SyncWithProductId`, called when `productId` changes. Unmounting, which discards a page's local state, is not modelled.
- Image imports: each `imageUrl` is the asset's file name, as an opaque string.
- Markup, CSS classes, inline styles, the header, the footer and the LookBook section.
- `HomePage`'s `onNavigateToCatalog` prop: the component never reads it.
- `ui-library` components (`Catalog`, `ProductCard`, `Bascket`, `Profile`) and their test: presentational, with no logic beyond event propagation and default props.
- `BascketPage.tsx`, `ProfilePage.tsx`: prop pass-through and layout. The cart and profile pages are placeholders with nothing to model.
- A cart with quantities, totals and removal, login and registration, and local-storage persistence: no modelled file implements them.
