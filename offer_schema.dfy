/** The schema.org values the price section emits: the offer count, the
    offer type and the item availability, with the visible stock label and
    the review rating that go beside them. */
module OfferSchema {
  import opened ProductData

  const OfferUri: string := "https://schema.org/Offer"
  const AggregateOfferUri: string := "https://schema.org/AggregateOffer"
  const InStockUri: string := "https://schema.org/InStock"
  const OutOfStockUri: string := "https://schema.org/OutOfStock"

  /** The one `stock_status` value that is treated as out of stock. */
  const OutOfStockStatus: string := "OUT_OF_STOCK"

  /** Label keys, before the injected translation. */
  const InStockLabel: string := "In stock"
  const OutOfStockLabel: string := "Out of stock"

  /** `getOfferCount`: the number of variants, 0 without a variants array. */
  function OfferCount(variants: Option<seq<Product>>): (n: nat)
    ensures variants.None? ==> n == 0
    ensures variants.Some? ==> n == |variants.value|
  {
    match variants
    case None => 0
    case Some(vs) => if |vs| >= 1 then |vs| else 0
  }

  /** The `offerCount` meta entry of `renderSchema`: present only for a
      count above one. */
  function OfferCountMeta(count: nat): Option<nat> {
    if count > 1 then Some(count) else None
  }

  /** `getOfferType`: an aggregate offer exactly when there is at least one
      variant; an empty array is a single offer, like no array at all. */
  function OfferType(variants: Option<seq<Product>>): (t: string)
    ensures t == OfferUri || t == AggregateOfferUri
    ensures t == AggregateOfferUri <==> variants.Some? && |variants.value| > 0
  {
    match variants
    case None => OfferUri
    case Some(vs) => if |vs| >= 1 then AggregateOfferUri else OfferUri
  }

  /** `renderStockMeta`: out of stock only for `OUT_OF_STOCK`; every other
      value, an absent one included, is in stock. */
  function StockMeta(stockStatus: Option<string>): (uri: string)
    ensures uri == OutOfStockUri <==> stockStatus == Some(OutOfStockStatus)
    ensures uri == InStockUri <==> stockStatus != Some(OutOfStockStatus)
  {
    if stockStatus == Some(OutOfStockStatus) then OutOfStockUri else InStockUri
  }

  /** `renderStock`: the visible label, on the same test. */
  function StockLabel(stockStatus: Option<string>): (text: string)
    ensures text == OutOfStockLabel <==> stockStatus == Some(OutOfStockStatus)
    ensures text == InStockLabel <==> stockStatus != Some(OutOfStockStatus)
  {
    if stockStatus == Some(OutOfStockStatus) then OutOfStockLabel else InStockLabel
  }

  /** The visible label and the availability URI always take the same branch. */
  lemma StockLabelAgreesWithMeta(stockStatus: Option<string>)
    ensures StockLabel(stockStatus) == OutOfStockLabel <==> StockMeta(stockStatus) == OutOfStockUri
    ensures StockLabel(stockStatus) == InStockLabel <==> StockMeta(stockStatus) == InStockUri
  {
  }

  /** The offer-count entry appears exactly when there are two or more
      variants, and then carries their number. */
  lemma OfferCountMetaEmitted(variants: Option<seq<Product>>)
    ensures OfferCountMeta(OfferCount(variants)).Some? <==> variants.Some? && |variants.value| >= 2
    ensures OfferCountMeta(OfferCount(variants)).Some? ==>
              OfferCountMeta(OfferCount(variants)).value == |variants.value|
  {
  }

  /** `(rating_summary / 20).toFixed(2)` in hundredths, for an integer
      summary: the 0-100 summary becomes a 0-5 rating. */
  function RatingHundredths(ratingSummary: int): (h: int)
    ensures h * 20 == ratingSummary * 100
    ensures 0 <= ratingSummary <= 100 ==> 0 <= h <= 500
  {
    ratingSummary * 5
  }

  /** A summary of 100 reads 5.00 and one of 60 reads 3.00. */
  lemma RatingExamples()
    ensures RatingHundredths(100) == 500
    ensures RatingHundredths(60) == 300
  {
  }
}
