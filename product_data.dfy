/** The product record and the component's props, with JavaScript's notion
    of "truthy" spelled out for the few field kinds the guards test. */
module ProductData {

  /** A JavaScript value that may be `undefined`. */
  datatype Option<+T> = None | Some(value: T) {
    function GetOr(default: T): T {
      match this
      case Some(v) => v
      case None => default
    }
  }

  /** `type_id`; every string other than the three known ones is `Other`. */
  datatype ProductType = Simple | Configurable | Grouped | Other

  /** A product, or one of its variants (a variant has the same shape and
      normally no variants of its own). `id` and the review numbers are
      JavaScript numbers, here integers. */
  datatype Product = Product(
    typeId: ProductType,
    sku: Option<string>,
    id: Option<int>,
    name: Option<string>,
    stockStatus: Option<string>,
    shortDescriptionHtml: Option<string>,
    ratingSummary: Option<int>,
    reviewCount: Option<int>,
    brand: Option<string>,
    variants: Option<seq<Product>>)

  /** A string is truthy when it is defined and not empty. */
  predicate TruthyString(s: Option<string>) {
    s.Some? && s.value != ""
  }

  /** A number is truthy when it is defined and not 0 (NaN is not modelled). */
  predicate TruthyNumber(n: Option<int>) {
    n.Some? && n.value != 0
  }

  /** `defaultProps.configurableVariantIndex`. */
  const DefaultVariantIndex: int := 0

  /** The props the component reads. `link` is what the injected `getLink()`
      returns, `origin` is `window.location.origin`, `isMobile` is
      `isMobile.any()`; `productOrVariant` is a separate prop computed by
      the container. */
  datatype Props = Props(
    product: Product,
    productOrVariant: Product,
    configurableVariantIndex: Option<int>,
    quantity: int,
    minQuantity: int,
    maxQuantity: int,
    areDetailsLoaded: bool,
    link: string,
    origin: string,
    isMobile: bool)
  {
    /** The index after React has applied `defaultProps`. */
    function VariantIndex(): int {
      configurableVariantIndex.GetOr(DefaultVariantIndex)
    }
  }
}
