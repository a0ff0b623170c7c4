# Digital Savannah marketplace: cart pricing, page guards and dashboard figures

A Dafny model of the parts of the Digital Savannah front end that hold logic
rather than layout:

- **Cart page** (`src/pages/Cart.tsx`). The order summary is a set of pure
  functions over the cart subtotal: shipping (free strictly above KES 5,000,
  otherwise KES 300), 16% VAT rounded to a whole shilling, the grand total,
  and the "add X more for free shipping" hint. The quantity box's
  `parseInt(text) || 1` is modelled too, including JavaScript's `parseInt`.
  The event handlers are methods of class `CartPage.Page`. The cart container
  (`useCart`) is outside the model, so the page holds the cart record it was
  given, and every container command it calls is appended to a log
  (`commands`). The page never changes the cart itself. Checkout appends the
  route it schedules to `navigations`.
- **Marketplace page** (`src/pages/DigitalSavannaMarketplace.tsx`).
  - Class `SavannaPage.MarketplacePage` holds the page's own list cart, the
    theme record and the deals revealed by the baobab tree. Its methods are
    the click handlers.
  - The theme updaters passed to `setTheme` are pure functions on a `Theme`
    value, with lemmas about them.
  - Module `SavannaHelpers` holds the urgency-border and pride-badge
    classifiers and the supplier-initials expression. The initials are
    proved equal to an independent definition: the first character of every
    word.
- **Platform status dashboard** (`src/pages/PlatformStatus.tsx`).
  - The headline figures are `reduce` folds over the constant page list.
    They are proved equal to reference sums.
  - The rounded mean of completion is proved to lie between the lowest and
    the highest completion.
  - The status colour and icon classifiers are modelled with their defaults.

Amounts are whole Kenyan shillings. Over integers, `(16 * a + 50) / 100`
(Dafny's `/` is floor division for a positive divisor) is exactly
`Math.round(a * 0.16)`. `CartPricing.NoRoundingTie` shows that a tie never
arises, so the direction in which ties are rounded never matters.

Two notes on adding and checking out:

- Whether the cart container merges a product added twice into one line is
  not known here, because the container is not part of this model. The only
  add operation in the modelled code, the marketplace page's `addToCart`,
  appends a second entry (`SavannaPage.AddingAgainDuplicates`).
- Checkout hands over to the billing page by scheduling navigation to
  `/billing`; the model records that route and nothing more.

## Model

| member | source | states |
|---|---|---|
| `CartPricing.Shipping` | src/pages/Cart.tsx:73 | shipping is 0 exactly when the subtotal is strictly above 5000, and otherwise it is the flat 300 fee |
| `CartPricing.Tax` | src/pages/Cart.tsx:74 | the tax is within half a shilling of 16% of the subtotal (16% VAT rounded to a whole shilling) |
| `CartPricing.NoRoundingTie` | src/pages/Cart.tsx:74 | 16% of a whole-shilling subtotal never falls exactly on a half shilling, so the rounding is strict |
| `CartPricing.TaxIsNearest` | src/pages/Cart.tsx:74 | every other whole amount is strictly farther from 16% of the subtotal than the computed tax |
| `CartPricing.TaxMonotone` | src/pages/Cart.tsx:74 | a larger subtotal never carries less tax |
| `CartPricing.OrderSummary` | src/pages/Cart.tsx:73-75 | the summary carries the subtotal, its shipping and its tax, and the total exceeds the subtotal by exactly shipping plus tax |
| `CartPricing.TotalCoversSubtotal` | src/pages/Cart.tsx:75 | for a non-negative subtotal the total is at least the subtotal, and the surcharge lies between the tax and the tax plus 300 |
| `CartPricing.SummaryExamples` | src/pages/Cart.tsx:73-75 | 4000 gives shipping 300, tax 640 and total 4940; 6000 gives shipping 0, tax 960 and total 6960 |
| `CartPricing.TotalDropsAcrossThreshold` | src/pages/Cart.tsx:73-75 | a 5001 subtotal has a smaller grand total than a 5000 subtotal, because the fee is waived |
| `CartPricing.QualifiesForFreeShipping` | src/pages/Cart.tsx:287 | the free-shipping line is shown exactly when the subtotal is strictly above 5000 |
| `CartPricing.FreeShippingHint` | src/pages/Cart.tsx:294-302 | the hint is shown exactly when the subtotal is below 5000, and the amount it names brings the subtotal to exactly 5000 |
| `CartPricing.HintOnlyWhileShippingCharged` | src/pages/Cart.tsx:287-302 | the hint implies shipping is charged, and the hint and the free-shipping line are never shown together |
| `CartPricing.HintFallsShort` | src/pages/Cart.tsx:294-302 | adding the advertised amount still leaves shipping at 300; at 5000 neither the hint nor the free-shipping line is shown |
| `CartPricing.CorrectedFreeShippingHint` | src/pages/Cart.tsx:294-302 | the corrected hint is shown exactly when shipping is charged, and its amount is positive |
| `CartPricing.CorrectedHintEarnsFreeShipping` | src/pages/Cart.tsx:294-302 | exactly one of the corrected hint and the free-shipping line is shown; the named top-up earns free shipping and no smaller one does |
| `QuantityInput.ParseInt` | src/pages/Cart.tsx:211 | JavaScript's `parseInt`: a number comes out exactly when digits follow the white space, sign and any `0x` prefix; a negative result needs a typed minus sign and a positive one excludes it |
| `QuantityInput.TypedQuantity` | src/pages/Cart.tsx:208-212 | the typed quantity is never 0: it is the parsed number when that is a nonzero number, and 1 when parsing gives NaN or 0 |
| `QuantityInput.NumeralValue` | src/pages/Cart.tsx:207 | reading the decimal digits of a shown quantity gives back that quantity |
| `QuantityInput.ParseNumeral` | src/pages/Cart.tsx:211 | parseInt's digit reading returns a numeral's value and stops at the first character that is neither a digit nor an x |
| `QuantityInput.ParseRendered` | src/pages/Cart.tsx:207-212 | parseInt reads back any rendered integer followed by text that starts with neither a digit nor an x (such as a fraction) |
| `QuantityInput.TypedQuantityRoundTrip` | src/pages/Cart.tsx:205-212 | typing back a shown nonzero quantity hands that same quantity to the guard |
| `QuantityInput.EmptyBoxIsOne` | src/pages/Cart.tsx:211 | an emptied box, or one holding only a minus sign, becomes quantity 1 |
| `CartPage.AcceptsQuantity` | src/pages/Cart.tsx:28 | the quantity guard passes exactly the positive quantities |
| `CartPage.MinusEnabled` | src/pages/Cart.tsx:199 | the minus button is enabled exactly when the quantity is not at most 1 |
| `CartPage.MinusEnabledMatchesGuard` | src/pages/Cart.tsx:196-199 | the minus button is enabled exactly when the decremented quantity passes the positive-quantity guard |
| `CartPage.TypedQuantityGuard` | src/pages/Cart.tsx:208-212 | a typed quantity is refused exactly when the text parses to a negative number; unparsable text becomes 1 |
| `CartPage.Page.constructor` | src/pages/Cart.tsx:24 | the page starts with the container's cart, no commands called and nothing scheduled |
| `CartPage.Page.Render` | src/pages/Cart.tsx:24 | a re-render replaces the page's cart with the container's current one |
| `CartPage.Page.HandleQuantityChange` | src/pages/Cart.tsx:27-31 | `updateQuantity` is called, once and with these arguments, exactly when the new quantity is positive; otherwise nothing changes |
| `CartPage.Page.DecrementClicked` | src/pages/Cart.tsx:193-203 | the minus button calls `updateQuantity` with quantity - 1 exactly when the quantity exceeds 1 |
| `CartPage.Page.IncrementClicked` | src/pages/Cart.tsx:218-227 | the plus button calls `updateQuantity` with quantity + 1 whenever that is positive |
| `CartPage.Page.QuantityTyped` | src/pages/Cart.tsx:205-216 | typing calls `updateQuantity` with the typed quantity unless the text parses to a negative number |
| `CartPage.Page.HandleRemoveItem` | src/pages/Cart.tsx:33-39 | removal always calls `removeFromCart` with the product id |
| `CartPage.Page.HandleClearCart` | src/pages/Cart.tsx:41-49 | `clearCart` is called exactly when the cart holds items; on an empty cart nothing happens |
| `CartPage.Page.HandleCheckout` | src/pages/Cart.tsx:51-70 | checkout with zero items returns early; otherwise it schedules navigation to `/billing` and calls no cart command |
| `CartPage.EmptyCartIsInert` | src/pages/Cart.tsx:27-70 | on an empty cart, clear, checkout and a non-positive quantity change leave the commands, the navigations and the cart unchanged |
| `SavannaHelpers.UrgencyBorder` | src/pages/DigitalSavannaMarketplace.tsx:245-256 | the border class is empty exactly when the urgency is not high, medium or low |
| `SavannaHelpers.UrgencyBorderDistinguishes` | src/pages/DigitalSavannaMarketplace.tsx:245-256 | high, medium and low get pairwise different border classes |
| `SavannaHelpers.PrideBadge` | src/pages/DigitalSavannaMarketplace.tsx:258-281 | an unknown pride level gets the grey fallback badge |
| `SavannaHelpers.UnknownLevelReadsAsCub` | src/pages/DigitalSavannaMarketplace.tsx:272-279 | the fallback has the cub's text "Cub" and paw icon but a different colour; alpha and lion never read "Cub" |
| `SavannaHelpers.Split` | src/pages/DigitalSavannaMarketplace.tsx:644 | splitting on a space gives one more piece than there are spaces, no piece holds a space, and joining the pieces with single spaces gives back the name |
| `SavannaHelpers.Join` | src/pages/DigitalSavannaMarketplace.tsx:644 | the inverse of the split: the pieces with a single space between each two |
| `SavannaHelpers.SplitAfterWord` | src/pages/DigitalSavannaMarketplace.tsx:644 | splitting a space-free word, a space and more text gives the word followed by the pieces of the rest |
| `SavannaHelpers.SplitSpaceFree` | src/pages/DigitalSavannaMarketplace.tsx:644 | a name without spaces splits into the one piece that is the whole name |
| `SavannaHelpers.SplitJoin` | src/pages/DigitalSavannaMarketplace.tsx:644 | joining space-free pieces with single spaces and splitting again gives back the pieces, so split and join are inverses |
| `SavannaHelpers.FirstChars` | src/pages/DigitalSavannaMarketplace.tsx:645-646 | mapping each piece to its first character and joining gives at most one character per piece |
| `SavannaHelpers.FirstCharsAppend` | src/pages/DigitalSavannaMarketplace.tsx:645-646 | each further piece adds its own first character, or nothing when it is empty, after those of the pieces before it |
| `SavannaHelpers.Initials` | src/pages/DigitalSavannaMarketplace.tsx:643-646 | the initials are no longer than the number of space-separated pieces |
| `SavannaHelpers.SplitStarts` | src/pages/DigitalSavannaMarketplace.tsx:643-646 | the first piece is empty exactly when the name is empty or starts with a space; the later pieces give the word starts after the first character |
| `SavannaHelpers.InitialsAreWordStarts` | src/pages/DigitalSavannaMarketplace.tsx:643-646 | the initials are exactly the first letters of the words of the name, in order; extra spaces add nothing |
| `SavannaPage.ToggleTimeOfDay` | src/pages/DigitalSavannaMarketplace.tsx:328-331 | the updater turns midday into dusk and any other time into midday, keeping every other field |
| `SavannaPage.ToggleSound` | src/pages/DigitalSavannaMarketplace.tsx:346-349 | the updater flips `soundEnabled` and keeps every other field |
| `SavannaPage.ToggleArMode` | src/pages/DigitalSavannaMarketplace.tsx:364 | the updater flips `arMode` and keeps every other field |
| `SavannaPage.SetViewMode` | src/pages/DigitalSavannaMarketplace.tsx:477-487 | the updater sets `viewMode` to the chosen mode (grid at line 478, list at line 487) and keeps every other field |
| `SavannaPage.TimeOfDayToggle` | src/pages/DigitalSavannaMarketplace.tsx:327-331 | the toggle always changes the time and lands on midday or dusk; applying it twice restores the theme exactly when it started at midday or dusk; other fields are kept |
| `SavannaPage.ToggleFieldsIndependently` | src/pages/DigitalSavannaMarketplace.tsx:345-364 | the sound and AR toggles flip only their own field and undo themselves; choosing a view mode sets only that field and is idempotent |
| `SavannaPage.CartBadge` | src/pages/DigitalSavannaMarketplace.tsx:377-380 | the badge is shown exactly when the cart is non-empty, and then it shows the number of entries |
| `SavannaPage.AddingAgainDuplicates` | src/pages/DigitalSavannaMarketplace.tsx:223-224 | adding a product already in the cart adds one more occurrence rather than merging |
| `SavannaPage.MarketplacePage.constructor` | src/pages/DigitalSavannaMarketplace.tsx:100-116 | the page starts at midday, sound off, AR off, grid view, with an empty cart and no deals revealed |
| `SavannaPage.MarketplacePage.AddToCart` | src/pages/DigitalSavannaMarketplace.tsx:223-229 | the product is appended, the length grows by one, earlier entries are unchanged, and the badge shows the new length |
| `SavannaPage.MarketplacePage.ShakeBaobabTree` | src/pages/DigitalSavannaMarketplace.tsx:231-243 | the tree shakes and the revealed deals become exactly the hidden deals; they are replaced, not appended |
| `SavannaPage.MarketplacePage.BaobabSettled` | src/pages/DigitalSavannaMarketplace.tsx:242 | the delayed callback stops the shaking |
| `SavannaPage.MarketplacePage.ToggleTimeOfDayClicked` | src/pages/DigitalSavannaMarketplace.tsx:327-331 | midday becomes dusk and any other time becomes midday; the time stays on the midday/dusk cycle |
| `SavannaPage.MarketplacePage.ToggleSoundClicked` | src/pages/DigitalSavannaMarketplace.tsx:345-349 | only `soundEnabled` is flipped |
| `SavannaPage.MarketplacePage.ToggleArModeClicked` | src/pages/DigitalSavannaMarketplace.tsx:363-364 | only `arMode` is flipped |
| `SavannaPage.MarketplacePage.ViewModeClicked` | src/pages/DigitalSavannaMarketplace.tsx:474-488 | only `viewMode` is set, to the chosen mode |
| `SavannaPage.RepeatedClicks` | src/pages/DigitalSavannaMarketplace.tsx:231-243 | two shakes reveal the same deals as one; two time-of-day clicks restore the theme |
| `PlatformStatus.Reduce` | src/pages/PlatformStatus.tsx:142-145 | the `reduce((acc, page) => acc + f(page), start)` fold, page by page from the first; its value is stated by `ReduceIsSum` |
| `PlatformStatus.ReduceIsSum` | src/pages/PlatformStatus.tsx:142-145 | the `reduce` fold with any starting value equals that value plus the reference sum |
| `PlatformStatus.SumCons` | src/pages/PlatformStatus.tsx:142-145 | the reference sum peels off the first page |
| `PlatformStatus.FeaturesImplemented` | src/pages/PlatformStatus.tsx:141-146 | "Features Implemented" is the total number of features over all pages |
| `PlatformStatus.RoundedMean` | src/pages/PlatformStatus.tsx:137 | `Math.round(sum / count)` is the nearest integer to the mean, with halves rounded up |
| `PlatformStatus.AverageCompletion` | src/pages/PlatformStatus.tsx:135-138 | an average exists exactly when there is a page (an empty list would show NaN), and it is the rounded mean of the completions' total over the number of pages |
| `PlatformStatus.PlatformStats` | src/pages/PlatformStatus.tsx:129-149 | the page count is the list length, the feature figure is the total of features, and the average completion is the rounded mean of the completions |
| `PlatformStatus.SumBounds` | src/pages/PlatformStatus.tsx:137 | when every value lies in [lo, hi], the sum lies between count * lo and count * hi |
| `PlatformStatus.RoundedMeanBounds` | src/pages/PlatformStatus.tsx:137 | the rounded mean of a sum within [count * lo, count * hi] lies in [lo, hi] |
| `PlatformStatus.AverageCompletionBounds` | src/pages/PlatformStatus.tsx:135-138 | the average completion lies between the lowest and the highest completion, so it is 100 when every page is at 100 |
| `PlatformStatus.DashboardCompletion` | src/pages/PlatformStatus.tsx:129-138 | the listed dashboard shows 9 operational pages and an average completion of 100 |
| `PlatformStatus.DashboardFeatures` | src/pages/PlatformStatus.tsx:439-442 | the listed pages hold 28 features, which the stats card and the summary paragraph both show |
| `PlatformStatus.StatusColor` | src/pages/PlatformStatus.tsx:151-162 | any status other than operational, degraded or down gets the grey default |
| `PlatformStatus.StatusIcon` | src/pages/PlatformStatus.tsx:164-175 | the clock icon is used exactly for unknown statuses, and the check icon exactly for operational |
| `PlatformStatus.StatusColorsDistinct` | src/pages/PlatformStatus.tsx:151-175 | a known status never shares its colour with another status; degraded and down share the warning icon; grey goes with exactly the clock |

## Left out

- The cart container (`useCart`, `updateQuantity`, `removeFromCart`, `clearCart`) is not part of this model. Its commands are only recorded, so nothing is claimed about line totals, merging or uniqueness of ids.
- Toasts, `console.log` and `toLocaleString` formatting are output only. `navigate` is modelled only as a scheduled route. The 1.5-second and 3-second `setTimeout` delays appear only as separate steps: `BaobabSettled`, and the scheduled navigation.
- Money is whole shillings. Fractional unit prices and floating-point error in `a * 0.16` are not modelled. For whole shillings, 16% of the subtotal is a multiple of 0.04, so it never comes near a half.
- `parseInt` is modelled on characters. These are not modelled:
  - white space beyond the listed characters;
  - loss of precision above 2^53;
  - the distinction between `-0` and `0`, both falsy like `0`.
- Supplier initials work on characters. JavaScript's `n[0]` takes a UTF-16 code unit, which splits characters outside the Basic Multilingual Plane.
- The marketplace's audio effect is left out (browser I/O), as is the bulk-discount progress percentage (floating point).
- The search text, category filter, selected product and hovered supplier are plain setters with no logic. They are left out.
- The mock product catalogue is left out except the hidden deal, whose price and urgency matter. The rating is left out (floating point).
- The empty-cart view is rendering only, so it is left out. It is shown when `totalItems` is 0, and it has no checkout or clear button.
- Navigation (`SavannahNavigation`), the landing page (`Index`) and the error boundary are layout and framework glue. They are not part of this model.

## Findings

| source | as written | input that shows it | evidently intended | confidence | as-written member | corrected member |
|---|---|---|---|---|---|---|
| src/pages/Cart.tsx:294-302 | the hint names `5000 - subtotal`, but line 73 makes shipping free only when the subtotal is strictly above 5000 | subtotal 4000: the hint says add 1000, and at 5000 shipping is still 300; at 5000 itself neither the hint nor "You qualified for free shipping" is shown | the hint appears whenever shipping is charged and names `5001 - subtotal` (or the threshold test is `>= 5000`) | high for whole-shilling subtotals; not executed | `CartPricing.HintFallsShort` | `CartPricing.CorrectedHintEarnsFreeShipping` |
