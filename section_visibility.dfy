/** The visibility table of the product-actions view: one flag per section
    that a `render*` guard can switch off. The guards themselves, written as
    the component writes them, are in ProductActionsRender; lemmas there
    tie each guard to its flag here. */
module SectionVisibility {
  import opened ProductData

  datatype Visibility = Visibility(
    priceWithSchema: bool,
    asLowAsBadge: bool,
    shortDescription: bool,
    customizableOptions: bool,
    quantityInput: bool,
    configurableAttributes: bool,
    groupedItems: bool,
    reviews: bool)

  /** The table, stated positively: when each section appears. */
  function Policy(p: Props): (v: Visibility)
    ensures !(v.configurableAttributes && v.groupedItems)
    ensures !(v.customizableOptions && (v.configurableAttributes || v.groupedItems))
    ensures v.asLowAsBadge ==> v.priceWithSchema && v.configurableAttributes
    ensures v.priceWithSchema == v.quantityInput && v.quantityInput == !v.groupedItems
  {
    var t := p.product.typeId;
    Visibility(
      priceWithSchema := t != Grouped,
      asLowAsBadge := t == Configurable && p.VariantIndex() <= -1,
      shortDescription := TruthyString(p.product.shortDescriptionHtml) || !TruthyNumber(p.product.id),
      customizableOptions := t == Simple && !p.isMobile,
      quantityInput := t != Grouped,
      configurableAttributes := t == Configurable,
      groupedItems := t == Grouped,
      reviews := TruthyNumber(p.product.ratingSummary))
  }

  /** A grouped product has no price block and no quantity input, but has
      the grouped list, whatever its other fields. */
  lemma GroupedLayout(p: Props)
    requires p.product.typeId == Grouped
    ensures !Policy(p).priceWithSchema && !Policy(p).quantityInput
    ensures Policy(p).groupedItems
    ensures !Policy(p).configurableAttributes && !Policy(p).customizableOptions && !Policy(p).asLowAsBadge
  {
  }

  /** The "As Low as" badge needs a configurable product and an index of
      -1 or less; with the default index 0 it never shows. */
  lemma BadgeNeedsNoSelection(p: Props)
    ensures Policy(p).asLowAsBadge <==> p.product.typeId == Configurable && p.VariantIndex() <= -1
    ensures p.configurableVariantIndex.None? ==> !Policy(p).asLowAsBadge
  {
  }

  /** The short description shows when there is HTML to show, or while the
      product is not loaded (no truthy id); only a loaded product without
      HTML hides it. */
  lemma ShortDescriptionRule(p: Props)
    ensures Policy(p).shortDescription <==>
              TruthyString(p.product.shortDescriptionHtml) || !TruthyNumber(p.product.id)
    ensures !Policy(p).shortDescription <==>
              !TruthyString(p.product.shortDescriptionHtml) && p.product.id.Some? && p.product.id.value != 0
  {
  }

  /** Reviews need a truthy rating summary: an absent one and 0 both hide them. */
  lemma ReviewsNeedRating(p: Props)
    ensures p.product.ratingSummary.None? ==> !Policy(p).reviews
    ensures p.product.ratingSummary == Some(0) ==> !Policy(p).reviews
    ensures Policy(p).reviews <==> p.product.ratingSummary.Some? && p.product.ratingSummary.value != 0
  {
  }
}
