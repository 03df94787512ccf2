/** The frontend view models the mapper layer produces. */
module ViewTypes {
  import opened Wrappers

  /** The stock classification owned by the stock-status collaborator. */
  datatype StockStatus = InStock | LowStock | OutOfStock

  datatype Gender = Mens | Womens | Unisex

  /** A category as the frontend sees it; `name` is only set by the single-record mapper. */
  datatype Category = Category(
    id: string,
    collectionId: string,
    collectionName: string,
    title: string,
    name: Option<string>,
    slug: string,
    image: Option<string>,           // a resolved URL
    isVisible: bool,
    sortOrder: int)

  datatype ProductVariant = ProductVariant(
    id: string,
    collectionId: string,
    collectionName: string,
    product: string,
    color: string,
    colorSwatch: Option<string>,
    size: string,
    sku: string,
    galleryImages: seq<string>,      // resolved URLs
    stockStatus: StockStatus,
    image: Option<string>,
    stockQuantity: Option<int>)

  datatype Product = Product(
    id: string,
    collectionId: string,
    collectionName: string,
    title: string,
    slug: string,
    description: Option<string>,
    price: string,
    priceValue: int,
    image: string,
    images: seq<string>,
    variants: Option<seq<ProductVariant>>,
    categories: Option<seq<Category>>,
    categoryIds: seq<string>,
    attributes: map<string, string>,
    isFeature: bool,
    hasVariants: bool,
    stockStatus: StockStatus,
    gender: Gender,
    stripePriceId: Option<string>)
}
