/** The render plan of the product-actions view: `render()` as the ordered
    list of the sections it emits, each `render*` method as a function
    returning its section or `None` for `null`, and each section with the
    values the component hands to the child widget that paints it. */
module ProductActionsRender {
  import opened ProductData
  import opened VariantResolver
  import opened OfferSchema
  import opened MetaLink
  import opened SectionVisibility

  /** Label key of the configurable price badge. */
  const AsLowAsLabel: string := "As Low as"

  /** The short-description body: the HTML wrapped in a `description`
      item, or a placeholder. */
  datatype DescriptionContent = DescriptionHtml(markup: string) | DescriptionPlaceholder

  /** What `renderSchema` emits: the optional offer count, the availability
      URI, the canonical URL and the name it links. */
  datatype Schema = Schema(offerCount: Option<nat>, availability: string, url: string, name: Option<string>)

  /** What `renderPriceWithSchema` emits: the badge, the schema, the record
      whose price is shown and the variant count given to the price widget. */
  datatype PriceWithSchema = PriceWithSchema(
    asLowAsBadge: Option<string>,
    schema: Schema,
    priceSource: Product,
    variantsCount: nat)

  datatype SectionKind =
    | PriceKind | ShortDescriptionKind | CustomizableOptionsKind | QuantityKind
    | AddToCartKind | WishlistKind | ReviewsKind | NameAndBrandKind
    | SkuAndStockKind | ConfigurableAttributesKind | GroupedItemsKind | TierPricesKind

  datatype Section =
    | PriceSection(offerType: string, price: PriceWithSchema)
    | ShortDescriptionSection(content: DescriptionContent)
    | CustomizableOptionsSection
    | QuantitySection(value: int, max: int, min: int)
    | AddToCartSection(configurableVariantIndex: int, quantity: int)
    | WishlistSection(configurableVariantIndex: int, quantity: int)
    | ReviewsSection(summary: int, ratingHundredths: int, reviewCount: Option<int>)
    | NameAndBrandSection(brand: Option<string>, name: Option<string>)
    | SkuAndStockSection(sku: Option<string>, stock: string)
    | ConfigurableAttributesSection(isReady: bool)
    | GroupedItemsSection
    | TierPricesSection(product: Product)
  {
    function Kind(): SectionKind {
      match this
      case PriceSection(_, _) => PriceKind
      case ShortDescriptionSection(_) => ShortDescriptionKind
      case CustomizableOptionsSection => CustomizableOptionsKind
      case QuantitySection(_, _, _) => QuantityKind
      case AddToCartSection(_, _) => AddToCartKind
      case WishlistSection(_, _) => WishlistKind
      case ReviewsSection(_, _, _) => ReviewsKind
      case NameAndBrandSection(_, _) => NameAndBrandKind
      case SkuAndStockSection(_, _) => SkuAndStockKind
      case ConfigurableAttributesSection(_) => ConfigurableAttributesKind
      case GroupedItemsSection => GroupedItemsKind
      case TierPricesSection(_) => TierPricesKind
    }
  }

  // ---------------------------------------------------------------------
  // The render* methods, guards as the component writes them

  function RenderSchema(p: Props, name: Option<string>, stockStatus: Option<string>): Schema {
    Schema(OfferCountMeta(OfferCount(p.product.variants)), StockMeta(stockStatus),
           MetaLinkOf(p.origin, p.link), name)
  }

  function RenderConfigurablePriceBadge(p: Props): Option<string> {
    if p.product.typeId != Configurable || p.VariantIndex() > -1 then None else Some(AsLowAsLabel)
  }

  function RenderPriceWithSchema(p: Props): PriceWithSchema {
    var record := ResolveForPrice(p.product, p.VariantIndex());
    PriceWithSchema(RenderConfigurablePriceBadge(p), RenderSchema(p, record.name, record.stockStatus),
                    record, OfferCount(p.product.variants))
  }

  function RenderPriceWithGlobalSchema(p: Props): Option<Section> {
    var offerType := OfferType(p.product.variants);
    if p.product.typeId == Grouped then None
    else Some(PriceSection(offerType, RenderPriceWithSchema(p)))
  }

  function RenderShortDescriptionContent(p: Props): DescriptionContent {
    var html := p.product.shortDescriptionHtml;
    if TruthyString(html) then DescriptionHtml("<div itemProp=\"description\">" + html.value + "</div>")
    else DescriptionPlaceholder
  }

  function RenderShortDescription(p: Props): Option<Section> {
    if !TruthyString(p.product.shortDescriptionHtml) && TruthyNumber(p.product.id) then None
    else Some(ShortDescriptionSection(RenderShortDescriptionContent(p)))
  }

  function RenderCustomizableOptions(p: Props): Option<Section> {
    if p.product.typeId != Simple || p.isMobile then None else Some(CustomizableOptionsSection)
  }

  function RenderQuantityInput(p: Props): Option<Section> {
    if p.product.typeId == Grouped then None
    else Some(QuantitySection(p.quantity, p.maxQuantity, p.minQuantity))
  }

  function RenderAddToCart(p: Props): Section {
    AddToCartSection(p.VariantIndex(), p.quantity)
  }

  function RenderProductWishlistButton(p: Props): Section {
    WishlistSection(p.VariantIndex(), p.quantity)
  }

  function RenderReviews(p: Props): Option<Section> {
    var rating := p.product.ratingSummary;
    if !TruthyNumber(rating) then None
    else Some(ReviewsSection(rating.value, RatingHundredths(rating.value), p.product.reviewCount))
  }

  function RenderNameAndBrand(p: Props): Section {
    NameAndBrandSection(p.product.brand, p.product.name)
  }

  function RenderSkuAndStock(p: Props): Section {
    var record := ResolveForSku(p.product, p.VariantIndex());
    SkuAndStockSection(record.sku, StockLabel(record.stockStatus))
  }

  function RenderConfigurableAttributes(p: Props): Option<Section> {
    if p.product.typeId != Configurable then None
    else Some(ConfigurableAttributesSection(p.areDetailsLoaded))
  }

  function RenderGroupedItems(p: Props): Option<Section> {
    if p.product.typeId != Grouped then None else Some(GroupedItemsSection)
  }

  function RenderTierPrices(p: Props): Section {
    TierPricesSection(p.productOrVariant)
  }

  /** A `render*` result inside JSX: `null` renders nothing. */
  function Emit(s: Option<Section>): seq<Section> {
    match s
    case None => []
    case Some(section) => [section]
  }

  /** `render()`: the sections in document order (the quantity input, the
      add-to-cart control and the wishlist button share one wrapper). */
  function Render(p: Props): seq<Section> {
    Emit(RenderPriceWithGlobalSchema(p))
    + Emit(RenderShortDescription(p))
    + Emit(RenderCustomizableOptions(p))
    + Emit(RenderQuantityInput(p))
    + [RenderAddToCart(p), RenderProductWishlistButton(p)]
    + Emit(RenderReviews(p))
    + [RenderNameAndBrand(p), RenderSkuAndStock(p)]
    + Emit(RenderConfigurableAttributes(p))
    + Emit(RenderGroupedItems(p))
    + [RenderTierPrices(p)]
  }

  // ---------------------------------------------------------------------
  // The plan against the visibility table

  function Kinds(plan: seq<Section>): (ks: seq<SectionKind>)
    ensures |ks| == |plan|
  {
    if plan == [] then [] else [plan[0].Kind()] + Kinds(plan[1..])
  }

  lemma {:induction false} KindsConcat(a: seq<Section>, b: seq<Section>)
    ensures Kinds(a + b) == Kinds(a) + Kinds(b)
  {
    if a != [] {
      assert (a + b)[0] == a[0] && (a + b)[1..] == a[1..] + b;
      KindsConcat(a[1..], b);
      assert Kinds(a + b) == [a[0].Kind()] + (Kinds(a[1..]) + Kinds(b));
    } else {
      assert a + b == b;
    }
  }

  function When(flag: bool, k: SectionKind): seq<SectionKind> {
    if flag then [k] else []
  }

  /** The section kinds the table allows, in document order. */
  function Layout(v: Visibility): seq<SectionKind> {
    When(v.priceWithSchema, PriceKind)
    + When(v.shortDescription, ShortDescriptionKind)
    + When(v.customizableOptions, CustomizableOptionsKind)
    + When(v.quantityInput, QuantityKind)
    + [AddToCartKind, WishlistKind]
    + When(v.reviews, ReviewsKind)
    + [NameAndBrandKind, SkuAndStockKind]
    + When(v.configurableAttributes, ConfigurableAttributesKind)
    + When(v.groupedItems, GroupedItemsKind)
    + [TierPricesKind]
  }

  /** Kinds of a ten-part plan, part by part. */
  lemma KindsOfTenParts(a: seq<Section>, b: seq<Section>, c: seq<Section>, d: seq<Section>,
                        e: seq<Section>, f: seq<Section>, g: seq<Section>, h: seq<Section>,
                        i: seq<Section>, j: seq<Section>)
    ensures Kinds(a + b + c + d + e + f + g + h + i + j)
         == Kinds(a) + Kinds(b) + Kinds(c) + Kinds(d) + Kinds(e)
            + Kinds(f) + Kinds(g) + Kinds(h) + Kinds(i) + Kinds(j)
  {
    KindsConcat(a, b);
    KindsConcat(a + b, c);
    KindsConcat(a + b + c, d);
    KindsConcat(a + b + c + d, e);
    KindsConcat(a + b + c + d + e, f);
    KindsConcat(a + b + c + d + e + f, g);
    KindsConcat(a + b + c + d + e + f + g, h);
    KindsConcat(a + b + c + d + e + f + g + h, i);
    KindsConcat(a + b + c + d + e + f + g + h + i, j);
  }

  /** The plan's kinds, part by part. */
  lemma KindsOfRender(p: Props)
    ensures Kinds(Render(p))
         == Kinds(Emit(RenderPriceWithGlobalSchema(p))) + Kinds(Emit(RenderShortDescription(p)))
            + Kinds(Emit(RenderCustomizableOptions(p))) + Kinds(Emit(RenderQuantityInput(p)))
            + [AddToCartKind, WishlistKind] + Kinds(Emit(RenderReviews(p)))
            + [NameAndBrandKind, SkuAndStockKind] + Kinds(Emit(RenderConfigurableAttributes(p)))
            + Kinds(Emit(RenderGroupedItems(p))) + [TierPricesKind]
  {
    var e := [RenderAddToCart(p), RenderProductWishlistButton(p)];
    var g := [RenderNameAndBrand(p), RenderSkuAndStock(p)];
    var j := [RenderTierPrices(p)];
    assert Kinds(e) == [AddToCartKind, WishlistKind];
    assert Kinds(g) == [NameAndBrandKind, SkuAndStockKind];
    assert Kinds(j) == [TierPricesKind];
    KindsOfTenParts(Emit(RenderPriceWithGlobalSchema(p)), Emit(RenderShortDescription(p)),
                    Emit(RenderCustomizableOptions(p)), Emit(RenderQuantityInput(p)), e,
                    Emit(RenderReviews(p)), g, Emit(RenderConfigurableAttributes(p)),
                    Emit(RenderGroupedItems(p)), j);
  }

  /** Each `render*` guard, as the component writes it, lets its section
      through exactly when the table's flag is set. */
  lemma GuardsMatchPolicy(p: Props)
    ensures RenderPriceWithGlobalSchema(p).Some? <==> Policy(p).priceWithSchema
    ensures RenderShortDescription(p).Some? <==> Policy(p).shortDescription
    ensures RenderCustomizableOptions(p).Some? <==> Policy(p).customizableOptions
    ensures RenderQuantityInput(p).Some? <==> Policy(p).quantityInput
    ensures RenderReviews(p).Some? <==> Policy(p).reviews
    ensures RenderConfigurableAttributes(p).Some? <==> Policy(p).configurableAttributes
    ensures RenderGroupedItems(p).Some? <==> Policy(p).groupedItems
    ensures RenderConfigurablePriceBadge(p).Some? <==> Policy(p).asLowAsBadge
  {
  }

  // The kinds each optional part contributes, one part at a time.

  lemma EmittedPriceWithGlobalSchema(p: Props)
    ensures Kinds(Emit(RenderPriceWithGlobalSchema(p))) == When(Policy(p).priceWithSchema, PriceKind)
  {
  }

  lemma EmittedShortDescription(p: Props)
    ensures Kinds(Emit(RenderShortDescription(p))) == When(Policy(p).shortDescription, ShortDescriptionKind)
  {
  }

  lemma EmittedCustomizableOptions(p: Props)
    ensures Kinds(Emit(RenderCustomizableOptions(p))) == When(Policy(p).customizableOptions, CustomizableOptionsKind)
  {
  }

  lemma EmittedQuantityInput(p: Props)
    ensures Kinds(Emit(RenderQuantityInput(p))) == When(Policy(p).quantityInput, QuantityKind)
  {
  }

  lemma EmittedReviews(p: Props)
    ensures Kinds(Emit(RenderReviews(p))) == When(Policy(p).reviews, ReviewsKind)
  {
  }

  lemma EmittedConfigurableAttributes(p: Props)
    ensures Kinds(Emit(RenderConfigurableAttributes(p))) == When(Policy(p).configurableAttributes, ConfigurableAttributesKind)
  {
  }

  lemma EmittedGroupedItems(p: Props)
    ensures Kinds(Emit(RenderGroupedItems(p))) == When(Policy(p).groupedItems, GroupedItemsKind)
  {
  }

  /** Every guard agrees with its flag in the table: `render()` emits
      exactly the sections the table allows, in document order. */
  lemma RenderFollowsPolicy(p: Props)
    ensures Kinds(Render(p)) == Layout(Policy(p))
  {
    KindsOfRender(p);
    EmittedPriceWithGlobalSchema(p);
    EmittedShortDescription(p);
    EmittedCustomizableOptions(p);
    EmittedQuantityInput(p);
    EmittedReviews(p);
    EmittedConfigurableAttributes(p);
    EmittedGroupedItems(p);
  }

  // ---------------------------------------------------------------------
  // Properties of the plan

  /** Whether the table lets a section of kind `k` appear. */
  function Shown(v: Visibility, k: SectionKind): bool {
    match k
    case PriceKind => v.priceWithSchema
    case ShortDescriptionKind => v.shortDescription
    case CustomizableOptionsKind => v.customizableOptions
    case QuantityKind => v.quantityInput
    case ReviewsKind => v.reviews
    case ConfigurableAttributesKind => v.configurableAttributes
    case GroupedItemsKind => v.groupedItems
    case _ => true
  }

  lemma InLayout(v: Visibility, k: SectionKind)
    ensures k in Layout(v) <==> Shown(v, k)
  {
  }

  /** A section appears in the plan exactly when the table lets it. */
  lemma RenderedIffShown(p: Props, k: SectionKind)
    ensures k in Kinds(Render(p)) <==> Shown(Policy(p), k)
  {
    RenderFollowsPolicy(p);
    InLayout(Policy(p), k);
  }

  /** A grouped product gets no price block and no quantity input, and
      gets the grouped list. */
  lemma GroupedRender(p: Props)
    requires p.product.typeId == Grouped
    ensures PriceKind !in Kinds(Render(p)) && QuantityKind !in Kinds(Render(p))
    ensures GroupedItemsKind in Kinds(Render(p))
    ensures ConfigurableAttributesKind !in Kinds(Render(p)) && CustomizableOptionsKind !in Kinds(Render(p))
  {
    RenderedIffShown(p, PriceKind);
    RenderedIffShown(p, QuantityKind);
    RenderedIffShown(p, GroupedItemsKind);
    RenderedIffShown(p, ConfigurableAttributesKind);
    RenderedIffShown(p, CustomizableOptionsKind);
  }

  /** Each type-specific block is in the plan for exactly one product type:
      the configurable attributes for a configurable product, the grouped
      list for a grouped one, the customizable options for a simple product
      off mobile. */
  lemma TypeSpecificBlocks(p: Props)
    ensures ConfigurableAttributesKind in Kinds(Render(p)) <==> p.product.typeId == Configurable
    ensures GroupedItemsKind in Kinds(Render(p)) <==> p.product.typeId == Grouped
    ensures CustomizableOptionsKind in Kinds(Render(p)) <==> p.product.typeId == Simple && !p.isMobile
  {
    RenderedIffShown(p, ConfigurableAttributesKind);
    RenderedIffShown(p, GroupedItemsKind);
    RenderedIffShown(p, CustomizableOptionsKind);
  }

  /** Add-to-cart, wishlist, name and brand, SKU and stock and tier prices
      are in every plan. */
  lemma AlwaysRendered(p: Props)
    ensures AddToCartKind in Kinds(Render(p)) && WishlistKind in Kinds(Render(p))
    ensures NameAndBrandKind in Kinds(Render(p)) && SkuAndStockKind in Kinds(Render(p))
    ensures TierPricesKind in Kinds(Render(p))
  {
    RenderFollowsPolicy(p);
  }

  /** The price block of a non-grouped product: the offer type comes from
      the product's own variants list, the price and the availability from
      the resolved record, the count entry appears for two or more
      variants, and the badge follows the table. */
  lemma PriceBlockContents(p: Props)
    requires p.product.typeId != Grouped
    ensures RenderPriceWithGlobalSchema(p).Some?
    ensures var s := RenderPriceWithGlobalSchema(p).value;
      && (s.offerType == AggregateOfferUri <==> p.product.variants.Some? && |p.product.variants.value| > 0)
      && s.price.priceSource == ResolveForPrice(p.product, p.VariantIndex())
      && s.price.schema.availability == StockMeta(s.price.priceSource.stockStatus)
      && s.price.schema.name == s.price.priceSource.name
      && s.price.schema.url == MetaLinkOf(p.origin, p.link)
      && (s.price.schema.offerCount.Some? <==> p.product.variants.Some? && |p.product.variants.value| >= 2)
      && (s.price.asLowAsBadge.Some? <==> Policy(p).asLowAsBadge)
  {
    OfferCountMetaEmitted(p.product.variants);
  }

  /** The selected variant changes the price source but never the offer type. */
  lemma OfferTypeIgnoresSelection(p: Props, index: int)
    requires p.product.typeId != Grouped
    ensures RenderPriceWithGlobalSchema(p.(configurableVariantIndex := Some(index))).value.offerType
         == RenderPriceWithGlobalSchema(p).value.offerType
  {
  }

  /** The SKU block's label and the price block's availability describe the
      same record and take the same branch. */
  lemma StockLabelMatchesAvailability(p: Props)
    requires p.product.typeId != Grouped
    ensures RenderSkuAndStock(p).stock == OutOfStockLabel
        <==> RenderPriceWithGlobalSchema(p).value.price.schema.availability == OutOfStockUri
  {
    ResolutionsAgree(p.product, p.VariantIndex());
    StockLabelAgreesWithMeta(ResolveForSku(p.product, p.VariantIndex()).stockStatus);
  }

  /** The short description shows its HTML when there is some, a placeholder
      while the product has no truthy id, and nothing otherwise. */
  lemma ShortDescriptionFallback(p: Props)
    ensures TruthyString(p.product.shortDescriptionHtml) ==>
              RenderShortDescription(p) == Some(ShortDescriptionSection(DescriptionHtml(
                "<div itemProp=\"description\">" + p.product.shortDescriptionHtml.value + "</div>")))
    ensures !TruthyString(p.product.shortDescriptionHtml) && !TruthyNumber(p.product.id) ==>
              RenderShortDescription(p) == Some(ShortDescriptionSection(DescriptionPlaceholder))
    ensures !TruthyString(p.product.shortDescriptionHtml) && TruthyNumber(p.product.id) ==>
              RenderShortDescription(p).None?
  {
  }

  /** Reviews show the summary and the rating in hundredths of a star. */
  lemma ReviewsContents(p: Props)
    requires TruthyNumber(p.product.ratingSummary)
    ensures RenderReviews(p).Some?
    ensures RenderReviews(p).value.summary == p.product.ratingSummary.value
    ensures RenderReviews(p).value.ratingHundredths * 20 == p.product.ratingSummary.value * 100
  {
  }

  /** A configurable product with variants [v0, v1] and index 1: the SKU
      block and the price describe v1, the offer is still an aggregate
      offer over two variants, and no badge shows. */
  lemma ConfigurableScenario(p: Props, v0: Product, v1: Product)
    requires p.product.typeId == Configurable
    requires p.product.variants == Some([v0, v1])
    requires p.configurableVariantIndex == Some(1)
    ensures RenderSkuAndStock(p).sku == v1.sku
    ensures RenderSkuAndStock(p).stock == StockLabel(v1.stockStatus)
    ensures RenderPriceWithGlobalSchema(p).value.offerType == AggregateOfferUri
    ensures RenderPriceWithGlobalSchema(p).value.price.priceSource == v1
    ensures RenderPriceWithGlobalSchema(p).value.price.schema.offerCount == Some(2)
    ensures RenderPriceWithGlobalSchema(p).value.price.asLowAsBadge.None?
  {
    assert SelectsVariant(p.product, 1);
  }
}
