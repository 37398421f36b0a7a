/** The pricing documents the backend serves, as typed records. Only the
    fields the modelled code reads are kept; a field the code guards with
    optional chaining or a truthiness test is an `Option`. */
module Catalog {
  import opened Common

  /** `product.attributes`. */
  datatype Attributes = Attributes(regionCode: Option<string>, usagetype: Option<string>, location: Option<string>)

  /** One entry of `products` (keyed by SKU). */
  datatype Product = Product(sku: Option<string>, attributes: Option<Attributes>)

  /** `priceDimension.pricePerUnit`; `USD` is the price already parsed. */
  datatype Money = Money(USD: Option<real>)

  /** One price dimension of a term. */
  datatype PriceDimension = PriceDimension(pricePerUnit: Option<Money>, unit: Option<string>, description: Option<string>)

  /** One term of a SKU: its price dimensions, keyed. */
  datatype Term = Term(priceDimensions: Option<Entries<PriceDimension>>)

  /** `terms.<TermType>`: SKU -> term key -> term. */
  type SkuTerms = Entries<Entries<Term>>

  /** `index-current-version.json`. */
  datatype PricingDoc = PricingDoc(products: Option<Entries<Product>>, terms: Option<Entries<SkuTerms>>)

  /** One entry of `index-current-region.json`'s `regions`. */
  datatype RegionInfo = RegionInfo(regionCode: Option<string>)

  /** `index-current-region.json`. */
  datatype RegionIndex = RegionIndex(regions: Option<Entries<RegionInfo>>)

  /** One entry of `index-version.json`'s `versions`. */
  datatype VersionInfo = VersionInfo(versionEffectiveBeginDate: Option<string>, versionEffectiveEndDate: Option<string>)

  /** `index-version.json`. */
  datatype VersionIndex = VersionIndex(versions: Option<Entries<VersionInfo>>)

  /** One entry of the services catalog's `offers`. */
  datatype Offer = Offer(offerCode: Option<string>)

  /** The services catalog `index.json`. */
  datatype ServiceIndex = ServiceIndex(offers: Option<Entries<Offer>>)
}
