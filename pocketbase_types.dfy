/**
 * Shapes of the backend records that the mapper layer reads. Each response
 * type is the collection's record type together with the system fields
 * `id`, `collectionId` and `collectionName`. Field names keep the backend
 * schema's spelling, since that schema is a fixed external contract.
 * An optional field is an `Option`; `None` is `undefined` or `null`.
 */
module PocketBaseTypes {
  import opened Wrappers

  /** A category row (CategoriesRecord plus system fields). */
  datatype CategoriesResponse = CategoriesResponse(
    id: string,
    collectionId: string,
    collectionName: string,
    description: Option<string>,
    image: Option<string>,           // a stored file name
    is_visible: Option<bool>,
    name: string,
    slug: string,
    sort_order: Option<int>)

  /** A product variant row (ProductVariantsRecord plus system fields). */
  datatype ProductVariantsResponse = ProductVariantsResponse(
    id: string,
    collectionId: string,
    collectionName: string,
    color: string,
    color_swatch: Option<string>,
    gallery_images: Option<seq<string>>,  // stored file names
    product: string,
    size: string,
    sku: string,
    stock_quantity: Option<int>)     // None: missing or not a number

  /**
   * The product's `category` relation field. The generated type says a list
   * of ids, but the mapper also accepts a lone id, so the model accepts all three shapes.
   */
  datatype CategoryField = NoCategory | OneCategory(id: string) | CategoryList(ids: seq<string>)

  /** A product row (ProductsRecord plus system fields). */
  datatype ProductsResponse = ProductsResponse(
    id: string,
    collectionId: string,
    collectionName: string,
    attributes: Option<map<string, string>>,
    category: CategoryField,
    description: Option<string>,
    is_featured: Option<bool>,
    main_image: Option<string>,
    slug: string,
    stripe_price_id: Option<string>,
    stripe_product_id: Option<string>,
    title: string,
    // the variant rows expanded under the relation key 'product_variants(product)'
    expandedVariants: Option<seq<ProductVariantsResponse>>)

  /**
   * What the backend returns under a multi-select category relation: nothing,
   * a single record, or a list whose entries may be null.
   */
  datatype CategoriesExpand =
    | NoExpand
    | OneRecord(record: CategoriesResponse)
    | RecordList(entries: seq<Option<CategoriesResponse>>)
}
