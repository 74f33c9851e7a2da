# Product page client state, modelled in Dafny

This project models the client-side state of a single-product shop page:

- **Cart store** (`cart_context.dfy`, module `CartContext`). It holds a list of line items. `addItem` merges an item into the line with the same identity key (product id, name, colour, size), adding the item's quantity (missing or 0 counts as 1). Otherwise it appends a new line. `removeItem` drops every line of a product, whatever its colour or size. `clear` empties the cart. `totals` gives the sum of the quantities and the sum of quantity × price, with a missing price counting as 0. After every change the list is written to storage under `cartItems`. On load, absent or unparsable data gives an empty cart. The cart is the class `CartStore` over a `seq` field. The updates it computes are the pure functions `Added` and `Removed`, and the totals are `Count` and `Amount`.
- **Bundle pricing** (`product_bundle.dfy`, module `ProductBundle`). The bundle has three items: the product shown, then add-ons at 24.99 and 19.99. The total is a left fold over their prices. The discount is 10 % of the total and the bundle price is the total minus the discount. The badge shows `round(discount / total × 100)`. The module also models the bundle button's on/off flag.
- **Colour comparison** (`compare_colors.dfy`, module `CompareColors`). The dialog is open or closed. It holds the list of selected colour ids. A click toggles an id: every occurrence is removed if the id is present, else it is appended. The compared colours are the catalogue colours whose id is selected, in catalogue order.
- **Variant pickers** (`product_variants.dfy`, module `ProductVariants`). Picking a colour or size updates the choice and writes it to storage under `selectedColor` or `selectedSize`. On mount, a stored value is put back only if it is present and non-empty.
- **Image gallery** (`image_gallery.dfy`, module `ImageGallery`). The main image starts as the first image, or none when there are no images; with none, the "No images" view (`Gallery.ShowsPlaceholder`) is shown. The scroll arrows appear only for more than five images (`ShowsArrows`); the thumbnail strip then scrolls right by 150 and left by 150, clamped at 0, and without them it stays at 0. Clicking a thumbnail makes it the main image.

`wrappers.dfy` holds `Option`, which stands for JavaScript's `undefined`/`null`. `sequences.dfy` holds the subsequence and no-duplicates predicates.

Three behaviours of the code are worth stating plainly:
- The SAVE badge does not guard a zero total, so the model shows `NaN` there. For the card's own items this happens only at a main price of -44.98.
- The variant pickers never default to the first colour or size. Their initial choice comes from the page, and only stored values are restored.
- Child ordering of the catalogue is done by the database query and is not modelled.

## Model

| member | source | states |
|---|---|---|
| CartContext.DefaultedQuantity | frontend/src/context/CartContext.jsx:32-35 | the `quantity` fallback to 1: a missing or zero quantity becomes exactly 1, any other quantity is kept, so the result is never 0 and is at least 1 for a non-negative one |
| CartContext.FindLine | frontend/src/context/CartContext.jsx:29 | `findIndex` on the identity key: the index of the first line with that key, or none when no line has it |
| CartContext.Added | frontend/src/context/CartContext.jsx:28-36 | the list `addItem` computes: old lines keep their keys in place, at most one line is appended and it carries the item's key, and some line has that key afterwards; the merge and append cases are in AddMergesMatchingLine and AddAppendsWhenNoMatch |
| CartContext.Removed | frontend/src/context/CartContext.jsx:40 | the list `removeItem` computes: never longer, and no line of the removed product is left; membership and order are in RemovedMembers and RemovedKeepsOrder |
| CartContext.Count | frontend/src/context/CartContext.jsx:46 | the sum of the quantities; how add changes it is in AddGrowsCount, AddMergesMatchingLine and AddAppendsWhenNoMatch |
| CartContext.Amount | frontend/src/context/CartContext.jsx:47 | the sum of quantity × price, a missing price counting as 0; how add changes it is in AddMergesMatchingLine and AddAppendsWhenNoMatch |
| CartContext.TotalsOf | frontend/src/context/CartContext.jsx:45-49 | the pair (count, amount); worked values are in AddSameVariantTwice |
| CartContext.Load | frontend/src/context/CartContext.jsx:12-19 | the stored list, or empty for absent or unparsable data; proved in LoadAfterSave |
| CartContext.Serialize | frontend/src/context/CartContext.jsx:23 | `JSON.stringify`: loading what it writes gives back the same list |
| CartContext.AddAll | frontend/src/context/CartContext.jsx:27-36 | a run of adds in order; the count grows by the sum of the defaulted quantities, and the one-line results are in RepeatedAddsMergeIntoLine and RepeatedAddsMakeOneLine |
| CartContext.AddMergesMatchingLine | frontend/src/context/CartContext.jsx:29-33 | with a line holding the item's key, add keeps length and positions, raises that line's quantity by the defaulted quantity, keeps its price/name/colour/size snapshot, leaves all other lines equal; count grows by the quantity and amount by quantity × the line's own price |
| CartContext.AddAppendsWhenNoMatch | frontend/src/context/CartContext.jsx:35 | with no line holding the key, add keeps the prefix and appends one line with the item's key and price and the defaulted quantity; the totals grow by that line |
| CartContext.AddGrowsCount | frontend/src/context/CartContext.jsx:27-47 | for any cart, the count after add is the count before plus the defaulted quantity |
| CartContext.AddKeepsKeysUnique | frontend/src/context/CartContext.jsx:29-35 | add preserves "no two lines share an identity key" |
| CartContext.AddKeepsQuantitiesPositive | frontend/src/context/CartContext.jsx:32-35 | when the supplied quantity is missing or non-negative, every stored quantity stays at least 1 |
| CartContext.RepeatedAddsMergeIntoLine | frontend/src/context/CartContext.jsx:29-33 | any run of adds under an existing line's key leaves one line there, holding its old quantity plus the sum of the defaulted quantities, and keeps every other line and uniqueness |
| CartContext.RepeatedAddsMakeOneLine | frontend/src/context/CartContext.jsx:29-35 | a run of adds of a key the cart lacks yields exactly one new line at the end, with the sum of the defaulted quantities, prefix unchanged, keys still unique |
| CartContext.RemovedMembers | frontend/src/context/CartContext.jsx:40 | after `removeItem(p)` a line is present iff it was present and its product id is not p, whatever its colour or size |
| CartContext.RemovedKeepsOrder | frontend/src/context/CartContext.jsx:40 | the remaining lines keep their original relative order (a subsequence of the old list) |
| CartContext.RemoveKeepsKeysUnique | frontend/src/context/CartContext.jsx:40 | remove preserves uniqueness of identity keys |
| CartContext.RemoveKeepsQuantitiesPositive | frontend/src/context/CartContext.jsx:40 | remove preserves "every quantity is at least 1" |
| CartContext.LoadAfterSave | frontend/src/context/CartContext.jsx:12-24 | loading a saved list gives it back; absent or unparsable data loads as the empty cart |
| CartContext.CartStore.constructor | frontend/src/context/CartContext.jsx:12-25 | mount loads the stored list (empty on absent or corrupt data), then the persist effect writes it if the write succeeds |
| CartContext.CartStore.Persist | frontend/src/context/CartContext.jsx:21-25 | a successful write stores the current list; a failed write is swallowed and leaves storage as it was; the items do not change |
| CartContext.CartStore.AddItem | frontend/src/context/CartContext.jsx:27-37 | the new list is the merge-or-append result, storage follows it, key uniqueness is kept, and the count grows by the defaulted quantity |
| CartContext.CartStore.RemoveItem | frontend/src/context/CartContext.jsx:39-41 | the new list is the product-id filter: exactly the old lines of other products; storage follows; uniqueness kept |
| CartContext.CartStore.Clear | frontend/src/context/CartContext.jsx:43 | the list becomes empty and storage follows |
| CartContext.CartStore.Totals | frontend/src/context/CartContext.jsx:45-49 | the totals of the current list, recomputed on each read; their behaviour under add is in AddItem's contract and the lemmas above |
| CartContext.AddSameVariantTwice | frontend/src/context/CartContext.jsx:27-49 | adding one variant at 10.00 without a quantity, then with quantity 2, gives one line of quantity 3 and totals 3 and 30.00 |
| CartContext.RemoveDropsEveryVariant | frontend/src/context/CartContext.jsx:27-41 | a red and a blue line of one product are two lines, and removing the product leaves none |
| CartContext.AddThenReload | frontend/src/context/CartContext.jsx:12-37 | after an add whose write succeeds, a fresh load gives the list the add computed |
| ProductBundle.BundleItems | frontend/src/components/ProductBundle.jsx:6-25 | the three fixed items; their prices and total are proved in BundleTotal |
| ProductBundle.SumFrom | frontend/src/components/ProductBundle.jsx:27 | the `reduce` left fold; shown equal to the plain sum in FoldIsSum |
| ProductBundle.TotalPrice | frontend/src/components/ProductBundle.jsx:27 | the fold from 0; its value for the card is in BundleTotal and its bounds in PricesBounded |
| ProductBundle.FoldIsSum | frontend/src/components/ProductBundle.jsx:27 | the `reduce` fold adds exactly the sum of the prices to its start value |
| ProductBundle.PriceSumNonNegative | frontend/src/components/ProductBundle.jsx:27 | a sum of non-negative prices is non-negative |
| ProductBundle.BundleTotal | frontend/src/components/ProductBundle.jsx:6-27 | the bundle is three items (main price, 24.99, 19.99), and the total is the main price plus 44.98 |
| ProductBundle.BundleDiscount | frontend/src/components/ProductBundle.jsx:28 | the discount is a tenth of the total |
| ProductBundle.BundlePrice | frontend/src/components/ProductBundle.jsx:29 | the bundle price is nine tenths of the total, and with the discount it adds up to the total |
| ProductBundle.PricesBounded | frontend/src/components/ProductBundle.jsx:27-29 | with no negative price, 0 ≤ discount and 0 ≤ bundle price ≤ total |
| ProductBundle.Round | frontend/src/components/ProductBundle.jsx:35 | `Math.round` gives the integer within half a unit, halves going up |
| ProductBundle.SavePercent | frontend/src/components/ProductBundle.jsx:35 | the badge is `NaN` exactly for a zero total, and shows 10 for any other total when the discount is the card's own |
| ProductBundle.SavePercentOfBundle | frontend/src/components/ProductBundle.jsx:6-35 | for the card's items the badge is NaN exactly when the main price is -44.98, and 10 otherwise |
| ProductBundle.BundleCard.constructor | frontend/src/components/ProductBundle.jsx:4 | the bundle starts selected |
| ProductBundle.BundleCard.ClickBundleButton | frontend/src/components/ProductBundle.jsx:89 | a click negates the selection |
| ProductBundle.ClickTwice | frontend/src/components/ProductBundle.jsx:89 | two clicks restore the original selection |
| CompareColors.Without | frontend/src/components/CompareColors.jsx:20 | the filter keeps exactly the ids other than the removed one, and never lengthens the list |
| CompareColors.WithoutAbsent | frontend/src/components/CompareColors.jsx:20 | filtering out an id that is not there changes nothing |
| CompareColors.WithoutAppend | frontend/src/components/CompareColors.jsx:20 | the filter distributes over appending one id |
| CompareColors.WithoutKeepsNoDuplicates | frontend/src/components/CompareColors.jsx:20 | the filter keeps a duplicate-free list duplicate-free |
| CompareColors.Toggled | frontend/src/components/CompareColors.jsx:19-21 | after a toggle an id is selected iff it was selected or is the toggled one, but not both |
| CompareColors.ToggleKeepsNoDuplicates | frontend/src/components/CompareColors.jsx:20 | toggling keeps the selection free of duplicates |
| CompareColors.ToggleTwiceAbsent | frontend/src/components/CompareColors.jsx:20 | toggling an unselected id twice restores the list exactly |
| CompareColors.ToggleTwicePresent | frontend/src/components/CompareColors.jsx:20 | toggling a selected id twice gives the same set of ids, with that id moved to the end |
| CompareColors.SelectedColorObjects | frontend/src/components/CompareColors.jsx:24-26 | the compared colours are exactly the catalogue colours whose id is selected |
| CompareColors.SelectedInCatalogueOrder | frontend/src/components/CompareColors.jsx:25 | the compared colours come in catalogue order |
| CompareColors.SelectionOrderIrrelevant | frontend/src/components/CompareColors.jsx:25 | two selections with the same ids, in any order, compare the same colours |
| CompareColors.ShowsComparison | frontend/src/components/CompareColors.jsx:85 | the grid is shown for two picks or more; with ShowsWarning it is covered by ExactlyOnePanel |
| CompareColors.ShowsWarning | frontend/src/components/CompareColors.jsx:105 | the warning is shown for fewer than two picks; see ExactlyOnePanel |
| CompareColors.ExactlyOnePanel | frontend/src/components/CompareColors.jsx:85-105 | exactly one of the comparison grid (≥ 2 picks) and the warning (< 2 picks) is shown |
| CompareColors.ColorComparison.constructor | frontend/src/components/CompareColors.jsx:3-5 | the dialog starts closed with an empty selection |
| CompareColors.ColorComparison.Open | frontend/src/components/CompareColors.jsx:31 | the trigger button opens the dialog and keeps the selection |
| CompareColors.ColorComparison.Close | frontend/src/components/CompareColors.jsx:40-49 | the backdrop, the close cross and Done (line 122) close the dialog and keep the selection |
| CompareColors.ColorComparison.KeyDown | frontend/src/components/CompareColors.jsx:7-16 | Escape closes an open dialog; other keys, and any key while closed, change nothing |
| CompareColors.ColorComparison.ToggleColor | frontend/src/components/CompareColors.jsx:18-22 | a colour click, possible only while the dialog is open (line 65 sits inside line 37's guard): the selection becomes the toggled list, stays duplicate-free, and the open flag is kept |
| CompareColors.ColorComparison.ClearSelection | frontend/src/components/CompareColors.jsx:116 | Clear Selection, present only while the dialog is open, empties the selection |
| ProductVariants.GetItem | frontend/src/components/ProductVariants.jsx:12-13 | `localStorage.getItem`: null exactly when the key was never written, otherwise the written string; see also KeysIndependent |
| ProductVariants.Restored | frontend/src/components/ProductVariants.jsx:14-15 | `if (saved) onChange(saved)`; its rule is proved in RestoreRule |
| ProductVariants.RestoreRule | frontend/src/components/ProductVariants.jsx:12-15 | a stored value replaces the choice iff it is present and non-empty; otherwise the choice is left as it was |
| ProductVariants.KeysIndependent | frontend/src/components/ProductVariants.jsx:18-26 | writing the colour key leaves the size key as it was and vice versa, and a written key reads back its value |
| ProductVariants.VariantPicker.constructor | frontend/src/components/ProductVariants.jsx:3-10 | the pickers start from the page's current choice and storage |
| ProductVariants.VariantPicker.Mount | frontend/src/components/ProductVariants.jsx:11-16 | mount restores each stored, non-empty choice and leaves storage unchanged |
| ProductVariants.VariantPicker.HandleColorChange | frontend/src/components/ProductVariants.jsx:18-21 | the colour becomes c and storage gets `selectedColor` = c; the size and the `selectedSize` key are untouched |
| ProductVariants.VariantPicker.HandleSizeChange | frontend/src/components/ProductVariants.jsx:23-26 | the size becomes s and storage gets `selectedSize` = s; the colour and the `selectedColor` key are untouched |
| ProductVariants.ChoiceCarriesAcrossProducts | frontend/src/components/ProductVariants.jsx:11-21 | a non-empty colour picked on one product's page is what a later mount restores on any product's page, because the key names no product and the restore never checks the colour against the product's colour list |
| ProductVariants.EmptyChoiceNotRestored | frontend/src/components/ProductVariants.jsx:12-20 | picking the empty string is written but not restored on the next mount |
| ImageGallery.InitialMainImage | frontend/src/components/ImageGallery.jsx:5 | the first image or null: none exactly for an empty list, otherwise the first image |
| ImageGallery.NextScroll | frontend/src/components/ImageGallery.jsx:26-32 | a left scroll never gives a negative offset nor one above the old offset, and from a non-negative offset no scroll gives a negative one; exact steps are in ScrollSteps |
| ImageGallery.ScrollAfter | frontend/src/components/ImageGallery.jsx:26-31 | after any run of left and right scrolls from offset 0 or more, the offset is still at least 0 |
| ImageGallery.Highlighted | frontend/src/components/ImageGallery.jsx:108-112 | the outline test `mainImage.id === image.id`; proved to single out the clicked image in OnlyClickedHighlighted |
| ImageGallery.ShowsArrows | frontend/src/components/ImageGallery.jsx:82 | the arrows are shown only for more than five images; Gallery.ScrollThumbnails requires it, and the gallery's invariant keeps the offset at 0 without it |
| ImageGallery.ScrollSteps | frontend/src/components/ImageGallery.jsx:26-32 | a right scroll adds exactly 150; a left scroll subtracts 150 clamped at 0; neither leaves a negative offset |
| ImageGallery.RightThenLeft | frontend/src/components/ImageGallery.jsx:28-30 | right then left restores any non-negative offset |
| ImageGallery.LeftThenRight | frontend/src/components/ImageGallery.jsx:28-30 | left then right restores the offset iff it was at least 150 |
| ImageGallery.OnlyClickedHighlighted | frontend/src/components/ImageGallery.jsx:107-109 | with distinct ids, the clicked thumbnail is the only one outlined |
| ImageGallery.Gallery.constructor | frontend/src/components/ImageGallery.jsx:5-9 | the main image is the first image, or none, in which case the placeholder is shown, exactly when there are no images; the offset starts at 0 |
| ImageGallery.Gallery.ShowsPlaceholder | frontend/src/components/ImageGallery.jsx:34-36 | the "No images" view replaces the gallery when there is no main image; the constructor's contract ties it to an empty image list |
| ImageGallery.Gallery.ScrollThumbnails | frontend/src/components/ImageGallery.jsx:26-32 | an arrow click, possible only for more than five images (line 82): the offset becomes the clamped step, stays non-negative, and the main image is unchanged |
| ImageGallery.Gallery.SelectThumbnail | frontend/src/components/ImageGallery.jsx:107-109 | the clicked image becomes the main image and, with distinct ids, the only outlined thumbnail |

## Left out

- Real JSON text and `localStorage` encoding. Stored cart data is an abstract value: absent (null or the empty string), unparsable, or a list of lines. JSON that parses to something other than a list is not modelled.
- The cart's `price || 0` and `quantity || 1` on values that are not numbers (NaN, strings). Quantities and prices are integers, with prices in cents. JavaScript floating-point rounding in the totals is not modelled.
- CartContext.CartStore.Totals is recomputed from the list on every read, as in the source. React's `useMemo` caching and effect scheduling are not modelled. The persist effect runs synchronously after each change, and its success is a parameter.
- ProductBundle: prices are exact reals, so floating-point error in `0.1 * total` and the `toFixed(2)` display are not modelled.
- ProductVariants: `localStorage.setItem` is assumed to succeed. The source does not catch a throwing write, and that path is not modelled. The choice's initial value comes from the page, which is not part of this model.
- ImageGallery: the zoom position, the zoom transform and the DOM geometry are not modelled because they are floating-point and layout arithmetic. The scroll offset has no upper bound, as in the source. The main image is fixed at mount and does not follow a later change of `images`.
- CompareColors: event propagation (the dialog body stopping clicks from reaching the backdrop) is not modelled. Each close control is a call to `Close`.
- Backend routing, database seeding, the health check and the static components are not part of this model.
