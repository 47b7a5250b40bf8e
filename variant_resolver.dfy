/** Which record the price, schema and SKU sections describe: the selected
    variant, or the base product when no variant is selected. */
module VariantResolver {
  import opened ProductData

  /** JavaScript `array[i]`: the element, or `undefined` outside the array
      (negative indices included). */
  function At(s: seq<Product>, i: int): (r: Option<Product>)
    ensures r.Some? <==> 0 <= i < |s|
    ensures r.Some? ==> r.value == s[i]
  {
    if 0 <= i < |s| then Some(s[i]) else None
  }

  /** The product has a variants array and `index` points into it. */
  predicate SelectsVariant(product: Product, index: int) {
    product.variants.Some? && 0 <= index < |product.variants.value|
  }

  /** The selection in the SKU section:
      `variants && variants[i] !== undefined ? variants[i] : product`. */
  function ResolveForSku(product: Product, index: int): (r: Product)
    ensures SelectsVariant(product, index) ==> r == product.variants.value[index]
    ensures !SelectsVariant(product, index) ==> r == product
  {
    match product.variants
    case None => product
    case Some(variants) =>
      match At(variants, index)
      case Some(v) => v
      case None => product
  }

  /** The selection in the price section: `variants` defaults to `[]`, then
      `variants[i] || product` (a variant object is always truthy). */
  function ResolveForPrice(product: Product, index: int): (r: Product)
    ensures SelectsVariant(product, index) ==> r == product.variants.value[index]
    ensures !SelectsVariant(product, index) ==> r == product
  {
    At(product.variants.GetOr([]), index).GetOr(product)
  }

  /** Without an explicit index the default 0 selects the first variant,
      not the base product. */
  lemma DefaultIndexSelectsFirstVariant(p: Props)
    requires p.configurableVariantIndex.None?
    requires p.product.variants.Some? && |p.product.variants.value| > 0
    ensures ResolveForSku(p.product, p.VariantIndex()) == p.product.variants.value[0]
    ensures ResolveForPrice(p.product, p.VariantIndex()) == p.product.variants.value[0]
  {
  }

  /** The two differently written selections pick the same record, so the
      SKU section and the price section always describe one record. */
  lemma ResolutionsAgree(product: Product, index: int)
    ensures ResolveForSku(product, index) == ResolveForPrice(product, index)
  {
  }
}
