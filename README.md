# ProductActions decision layer

A Dafny model of the decision logic in ScandiPWA's `ProductActions` React
component, the block of a product page that holds the price, the add-to-cart
controls and the product's schema.org markup. The model leaves out the JSX
and keeps what the component decides:

- which record the price, schema and SKU sections describe: the selected
  variant, or the base product (`VariantResolver`);
- the schema.org offer values: offer count, `Offer` / `AggregateOffer` type,
  `InStock` / `OutOfStock` availability, the stock label and the review
  rating (`OfferSchema`);
- the canonical link `origin + getLink()` with the query removed
  (`MetaLink`);
- which sections appear, first as a visibility table (`SectionVisibility`)
  and then as the ordered list of sections `render()` emits, with the values
  each child widget receives (`ProductActionsRender`);
- the validation-error handlers. These replay the `animate` class on the
  configurable-options element or on the grouped-products element
  (`ValidationRouter`, a class over mutable element handles).

The files are `product_data.dfy`, `variant_resolver.dfy`, `offer_schema.dfy`,
`meta_link.dfy`, `section_visibility.dfy`, `product_actions_render.dfy` and
`validation_router.dfy`. There is one module per file.

Two behaviours of the code are easy to miss:

- An empty `variants` array gives `https://schema.org/Offer` (line 411),
  with an offer count of 0, just as a product without variants does.
- The default `configurableVariantIndex` is `0` (line 63). So by default the
  first variant is selected and the "As Low as" badge is hidden.

The canonical link is built with `replace(/\?.*/, '')`. A JavaScript
regular-expression `.` does not match a line terminator (`\n`, `\r`, U+2028,
U+2029), so the removed run stops at the first line terminator after the
first `?`. `ReplaceQueryMatch` models exactly that. For any link without a
line terminator, which covers every URL, `MetaLinkStripsQuery` proves the
result equals `QueryPrefix`:

- it contains no `?`;
- it is a prefix of the link;
- it is the whole link when the link has no `?`;
- applying the operation again changes nothing.

`LineBreakEndsMatch` shows a link with a line break for which a `?`
survives. The removal also drops a fragment that follows the query
(`QueryAndFragmentRemoved`), although RFC 3986 section 3.5 treats the
fragment as a separate component.

Inputs that the component reads from outside are parameters of `Props`:

- `getLink()` becomes `link`;
- `window.location.origin` becomes `origin`;
- `isMobile.any()` becomes `isMobile`.

JavaScript `undefined` is `Option.None`. Truthiness is spelled out as
`TruthyString` (defined and not empty) and `TruthyNumber` (defined and not 0).

## Model

| member | source | states |
|---|---|---|
| ProductData.Props.VariantIndex | src/app/component/ProductActions/ProductActions.component.js:62-64 | No contract of its own: the index after `defaultProps`, 0 when the prop is absent. VariantResolver.DefaultIndexSelectsFirstVariant and SectionVisibility.BadgeNeedsNoSelection state what that default selects and hides |
| OfferSchema.OfferCountMeta | src/app/component/ProductActions/ProductActions.component.js:351-353 | No contract of its own: the `offerCount` meta entry for a count above one. OfferSchema.OfferCountMetaEmitted states when it appears and what it carries |
| VariantResolver.At | src/app/component/ProductActions/ProductActions.component.js:129-130 | Indexing an array gives the element exactly when the index is in range, negative indices included; otherwise it gives undefined |
| VariantResolver.ResolveForSku | src/app/component/ProductActions/ProductActions.component.js:129-131 | The SKU section's record is `variants[i]` exactly when variants is defined and 0 <= i < length; otherwise it is the product unchanged |
| VariantResolver.ResolveForPrice | src/app/component/ProductActions/ProductActions.component.js:389-393 | Same result for the price section's form that defaults variants to an empty array and falls back to the product |
| VariantResolver.DefaultIndexSelectsFirstVariant | src/app/component/ProductActions/ProductActions.component.js:62-64 | With the default index 0, a product with variants resolves to its first variant in both sections |
| VariantResolver.ResolutionsAgree | src/app/component/ProductActions/ProductActions.component.js:386-393 | The two differently written selections always pick the same record |
| OfferSchema.OfferCount | src/app/component/ProductActions/ProductActions.component.js:336-344 | 0 without a variants array, otherwise the number of variants (0 for an empty array) |
| OfferSchema.OfferCountMetaEmitted | src/app/component/ProductActions/ProductActions.component.js:346-353 | The offerCount meta entry is emitted exactly when there are at least two variants, and then carries their number |
| OfferSchema.OfferType | src/app/component/ProductActions/ProductActions.component.js:409-415 | The type is AggregateOffer if and only if variants is defined and non-empty; otherwise it is Offer, for an empty array and for an absent one |
| OfferSchema.StockMeta | src/app/component/ProductActions/ProductActions.component.js:110-114 | OutOfStock URI exactly for `OUT_OF_STOCK`; InStock URI for every other status, unknown and absent ones included |
| OfferSchema.StockLabel | src/app/component/ProductActions/ProductActions.component.js:104-108 | "Out of stock" label exactly for `OUT_OF_STOCK`; "In stock" label for everything else |
| OfferSchema.StockLabelAgreesWithMeta | src/app/component/ProductActions/ProductActions.component.js:104-114 | The label and the availability URI always take the same branch |
| OfferSchema.RatingHundredths | src/app/component/ProductActions/ProductActions.component.js:465-466 | For an integer summary the rating in hundredths is exactly summary/20; a 0-100 summary gives 0.00-5.00 |
| OfferSchema.RatingExamples | src/app/component/ProductActions/ProductActions.component.js:465-466 | A summary of 100 reads 5.00 and one of 60 reads 3.00 |
| MetaLink.FirstIndexIn | src/app/component/ProductActions/ProductActions.component.js:118 | Gives the first index whose character is a target, or the length when there is none: no earlier character is a target |
| MetaLink.FirstIndexInIs | src/app/component/ProductActions/ProductActions.component.js:118 | Any index with those three properties is the first index |
| MetaLink.QueryPrefix | src/app/component/ProductActions/ProductActions.component.js:118 | The longest prefix of the link without a `?`: it is a prefix, has no `?`, and is followed by a `?` unless it is the whole link |
| MetaLink.ReplaceQueryMatch | src/app/component/ProductActions/ProductActions.component.js:118 | `replace(/\?.*/, '')`: returns the link unchanged without a `?` and shortens it with one. The result is the query prefix followed by a tail of the link. The removed run starts at the first `?` and holds no line terminator, and the tail is empty or starts at a line terminator. So the removed run ends exactly at the first line terminator after the `?`, or at the end of the link |
| MetaLink.MetaLinkOf | src/app/component/ProductActions/ProductActions.component.js:116-119 | The meta link starts with the origin, is no longer than origin plus link, and is origin plus link when the link has no `?` |
| MetaLink.QueryPrefixIdempotent | src/app/component/ProductActions/ProductActions.component.js:118 | Stripping the query prefix twice gives the same result as once |
| MetaLink.MetaLinkStripsQuery | src/app/component/ProductActions/ProductActions.component.js:116-119 | For a one-line link, the meta link is origin plus the part before the first `?`. That part has no `?`, is a prefix of the link, is the whole link without a `?`, and is unchanged by a second replace |
| MetaLink.QueryAndFragmentRemoved | src/app/component/ProductActions/ProductActions.component.js:118 | `path?query#fragment` on one line becomes `path` |
| MetaLink.LineBreakEndsMatch | src/app/component/ProductActions/ProductActions.component.js:118 | For `/p?a\n?b` the result is `/p\n?b`, which still contains a `?` |
| SectionVisibility.Policy | src/app/component/ProductActions/ProductActions.component.js:163-509 | The visibility table. Configurable attributes and grouped items never both show. Customizable options exclude both. The badge implies the price block and a configurable product. The price block and the quantity input show exactly when the grouped list does not |
| SectionVisibility.GroupedLayout | src/app/component/ProductActions/ProductActions.component.js:287-298 | For a grouped product the price block and the quantity input are both absent and the grouped list is present |
| SectionVisibility.BadgeNeedsNoSelection | src/app/component/ProductActions/ProductActions.component.js:367-372 | The "As Low as" badge shows if and only if the product is configurable and the index is `<= -1`; with the default index it never shows |
| SectionVisibility.ShortDescriptionRule | src/app/component/ProductActions/ProductActions.component.js:212-218 | The short description shows if and only if `html` is truthy or `id` is falsy |
| SectionVisibility.ReviewsNeedRating | src/app/component/ProductActions/ProductActions.component.js:458-463 | Reviews are suppressed whenever `rating_summary` is falsy, including 0 and absent |
| ProductActionsRender.RenderSchema | src/app/component/ProductActions/ProductActions.component.js:346-365 | No contract of its own: the schema's offer count, availability, URL and name. PriceBlockContents states each of them for the price block |
| ProductActionsRender.RenderConfigurablePriceBadge | src/app/component/ProductActions/ProductActions.component.js:367-384 | No contract of its own: the badge, shown only for a configurable product with an index `<= -1`. GuardsMatchPolicy ties it to the table's badge flag |
| ProductActionsRender.RenderPriceWithSchema | src/app/component/ProductActions/ProductActions.component.js:386-407 | No contract of its own: the badge, the schema and the resolved record. PriceBlockContents and ConfigurableScenario state its values |
| ProductActionsRender.RenderPriceWithGlobalSchema | src/app/component/ProductActions/ProductActions.component.js:417-437 | No contract of its own: `null` for a grouped product, otherwise the price block with its offer type. GuardsMatchPolicy, PriceBlockContents and OfferTypeIgnoresSelection state its behaviour |
| ProductActionsRender.RenderShortDescriptionContent | src/app/component/ProductActions/ProductActions.component.js:199-210 | No contract of its own: the wrapped HTML or a placeholder. ShortDescriptionFallback states both cases |
| ProductActionsRender.RenderShortDescription | src/app/component/ProductActions/ProductActions.component.js:212-230 | No contract of its own: `null` for a loaded product without HTML. ShortDescriptionFallback and GuardsMatchPolicy state all three cases |
| ProductActionsRender.RenderCustomizableOptions | src/app/component/ProductActions/ProductActions.component.js:263-285 | No contract of its own: shown only for a simple product off mobile. TypeSpecificBlocks states that in terms of the rendered plan |
| ProductActionsRender.RenderQuantityInput | src/app/component/ProductActions/ProductActions.component.js:287-312 | No contract of its own: `null` for a grouped product, otherwise the quantity and its limits. GroupedRender and GuardsMatchPolicy state when it appears |
| ProductActionsRender.RenderAddToCart | src/app/component/ProductActions/ProductActions.component.js:314-334 | No contract of its own: always emitted, with the index and quantity. AlwaysRendered states that it is in every plan |
| ProductActionsRender.RenderProductWishlistButton | src/app/component/ProductActions/ProductActions.component.js:439-456 | No contract of its own: always emitted, with the index and quantity. AlwaysRendered states that it is in every plan |
| ProductActionsRender.RenderReviews | src/app/component/ProductActions/ProductActions.component.js:458-480 | No contract of its own: `null` for a falsy summary. ReviewsContents and GuardsMatchPolicy state when it appears and what it carries |
| ProductActionsRender.RenderNameAndBrand | src/app/component/ProductActions/ProductActions.component.js:232-261 | No contract of its own: always emitted, with the brand and name. AlwaysRendered states that it is in every plan |
| ProductActionsRender.RenderSkuAndStock | src/app/component/ProductActions/ProductActions.component.js:121-161 | No contract of its own: the resolved record's SKU and stock label. StockLabelMatchesAvailability and ConfigurableScenario state its values |
| ProductActionsRender.RenderConfigurableAttributes | src/app/component/ProductActions/ProductActions.component.js:163-197 | No contract of its own: shown only for a configurable product. TypeSpecificBlocks states that in terms of the rendered plan |
| ProductActionsRender.RenderGroupedItems | src/app/component/ProductActions/ProductActions.component.js:482-509 | No contract of its own: shown only for a grouped product. TypeSpecificBlocks and GroupedRender state that in terms of the rendered plan |
| ProductActionsRender.RenderTierPrices | src/app/component/ProductActions/ProductActions.component.js:511-519 | No contract of its own: always emitted, with the product-or-variant record. AlwaysRendered states that it is in every plan |
| ProductActionsRender.Render | src/app/component/ProductActions/ProductActions.component.js:521-540 | No contract of its own: the sections in document order. RenderFollowsPolicy, RenderedIffShown and TypeSpecificBlocks state which sections it holds and in what order |
| ProductActionsRender.TypeSpecificBlocks | src/app/component/ProductActions/ProductActions.component.js:163-509 | The configurable attributes are in the plan if and only if the product is configurable, the grouped list if and only if it is grouped, and the customizable options if and only if it is simple and not on mobile |
| ProductActionsRender.GuardsMatchPolicy | src/app/component/ProductActions/ProductActions.component.js:163-509 | Each `render*` guard, written as the code writes it, emits its section exactly when the table's flag is set (the badge included) |
| ProductActionsRender.RenderFollowsPolicy | src/app/component/ProductActions/ProductActions.component.js:521-538 | The kinds of the sections `render()` emits are exactly the table's visible sections, in document order |
| ProductActionsRender.RenderedIffShown | src/app/component/ProductActions/ProductActions.component.js:521-538 | A section kind is in the rendered plan if and only if the table shows it |
| ProductActionsRender.GroupedRender | src/app/component/ProductActions/ProductActions.component.js:417-424 | A grouped product's plan has no price block, no quantity input, no configurable attributes and no customizable options, but has the grouped list |
| ProductActionsRender.AlwaysRendered | src/app/component/ProductActions/ProductActions.component.js:527-537 | Add-to-cart, wishlist, name and brand, SKU and stock, and tier prices are in every plan |
| ProductActionsRender.PriceBlockContents | src/app/component/ProductActions/ProductActions.component.js:386-437 | The price block's offer type comes from the product's own variants. The price source and availability come from the resolved record. The count entry appears for two or more variants. The badge follows the table |
| ProductActionsRender.OfferTypeIgnoresSelection | src/app/component/ProductActions/ProductActions.component.js:417-420 | Changing the selected variant never changes the offer type |
| ProductActionsRender.StockLabelMatchesAvailability | src/app/component/ProductActions/ProductActions.component.js:133-153 | The SKU block's stock label and the price block's availability take the same branch |
| ProductActionsRender.ShortDescriptionFallback | src/app/component/ProductActions/ProductActions.component.js:199-230 | The short description shows the item-prop-wrapped HTML when it is truthy. It shows a placeholder while `id` is falsy, and is absent for a loaded product without HTML |
| ProductActionsRender.ReviewsContents | src/app/component/ProductActions/ProductActions.component.js:458-479 | With a truthy summary the reviews section passes on the summary and a rating equal to summary/20 |
| ProductActionsRender.ConfigurableScenario | src/app/component/ProductActions/ProductActions.component.js:121-161 | A configurable product with two variants and index 1: SKU, stock and price describe the second variant. The offer is an aggregate over 2, and no badge shows |
| ValidationRouter.RetriggerAnimation | src/app/component/ProductActions/ProductActions.component.js:85-88 | After remove-then-add, `animate` is present and no other class has changed |
| ValidationRouter.RetriggerIdempotent | src/app/component/ProductActions/ProductActions.component.js:85-88 | Replaying the animation a second time leaves the same class set |
| ValidationRouter.ProductActions.constructor | src/app/component/ProductActions/ProductActions.component.js:66-68 | Two fresh, distinct refs pointing at the mounted elements |
| ValidationRouter.ProductActions.OnProductError | src/app/component/ProductActions/ProductActions.component.js:74-89 | A null ref does nothing. An unmounted element throws before any change. Otherwise the element's classes become old plus `animate` |
| ValidationRouter.ProductActions.OnConfigurableProductError | src/app/component/ProductActions/ProductActions.component.js:70 | Bound to the configurable options ref; same effect on that element only |
| ValidationRouter.ProductActions.OnGroupedProductError | src/app/component/ProductActions/ProductActions.component.js:72 | Bound to the grouped products ref; same effect on that element only |
| ValidationRouter.ProductActions.OnProductValidationError | src/app/component/ProductActions/ProductActions.component.js:91-102 | A configurable failure touches only the configurable element and a grouped failure only the grouped element. Any other type changes nothing |
| ValidationRouter.ProductActions.RepeatedConfigurableFailure | src/app/component/ProductActions/ProductActions.component.js:74-102 | Two configurable failures in a row both animate and leave the same classes as one |

## Left out

- JSX and every child component are left out: `ProductPrice`, `AddToCart`, `ProductWishlistButton`, `ProductConfigurableAttributes`, `ProductCustomizableOptions`, `GroupedProductList`, `ProductReviewRating`, `TierPrices`, `Html`, `TextPlaceholder`, `Field`. Their source is not part of this model. A section records only the values the component hands over: the index, quantity, limits, summary, rating, SKU, label, brand, name, record and readiness.
- `showOnlyIfLoaded` is an injected callback. The SKU and stock block and the brand line are always emitted, with their values; whether a placeholder replaces them is decided by that callback and is not modelled.
- `options`, `configurable_options`, `parameters`, `groupedProductQuantity`, `customizableOptionsData` and the host callbacks (`setQuantity`, `updateConfigurableVariant`, `getIsConfigurableAttributeAvailable`, `setGroupedProductQuantity`, `clearGroupedProductQuantity`, `getSelectedCustomizableOptions`) are passed through to child widgets unchanged. They are not part of a section's payload.
- The `AddToCartWrapper` and `Schema` wrapper elements are not sections. The plan lists the quantity input, add-to-cart and wishlist in wrapper order, and the price block carries the offer type of its schema wrapper.
- `scrollIntoView` and the `offsetWidth` reflow are DOM side effects; only the class-set update is modelled.
- A class list is modelled as a set, so the DOMTokenList order is not modelled. After the handler runs, `animate` moves to the end of the list.
- React mounting and unmounting are not modelled, and neither is the rest of the ref lifecycle. The constructor takes the mounted elements, and a ref's `current` stays a field.
- RatingHundredths: models `(rating_summary / 20).toFixed(2)` for integer summaries only. Floating-point division and rounding for fractional summaries are not modelled.
- The `__()` translation lookup is not modelled: labels are the untranslated keys ("In stock", "Out of stock", "As Low as").
- JavaScript `null` is not distinguished from `undefined`: the model treats a `null` field as absent. For `variants` the code agrees at lines 129, 339 and 410, which test it for truthiness. At line 389 the `= []` default is skipped for `null`, so `variants[configurableVariantIndex]` at line 393 would throw a TypeError whenever the price block renders, that is for every product that is not grouped; the model resolves to the product instead. A `null` `review_summary` (line 459) or `attributes` (line 237) would make the destructuring throw, and the model treats those as absent too.
- Numbers are integers. A fractional or NaN `configurableVariantIndex`, `id` or `rating_summary` is not modelled.
- PropTypes checking is not modelled; only the default `configurableVariantIndex` of 0 is kept.
- `onProductValidationError` receives `type_id` as a string. Every string other than `configurable` and `grouped` is `Other` or `Simple`, and neither does anything.
