/**
 * The record mappers: backend records in, frontend view models out.
 * The two collaborators the mappers call, the file-URL resolver and the
 * stock classifier, are not part of this model; they are passed in as
 * uninterpreted functions.
 */
module Mappers {
  import opened Wrappers
  import opened PocketBaseTypes
  import opened ViewTypes

  /** The collaborators: `getFileUrl(collection, recordId, filename)` and `computeStockStatus(quantity)`. */
  datatype Deps = Deps(
    getFileUrl: (string, string, string) -> string,
    computeStockStatus: int -> StockStatus)

  // ---------------------------------------------------------------------------
  // Gender mapping
  // ---------------------------------------------------------------------------

  /** Classifies a raw gender value by string equality. */
  function MapGender(dbGender: string): (g: Gender)
    ensures g == Mens <==> dbGender in {"men", "mens"}
    ensures g == Womens <==> dbGender in {"women", "womens"}
  {
    if dbGender == "men" || dbGender == "mens" then Mens
    else if dbGender == "women" || dbGender == "womens" then Womens
    else Unisex
  }

  // ---------------------------------------------------------------------------
  // Variant mapping
  // ---------------------------------------------------------------------------

  /** `Number(q) || 0`: a missing or non-numeric quantity counts as zero. */
  function Quantity(q: Option<int>): (r: int)
    ensures q.None? ==> r == 0
    ensures q.Some? ==> r == q.value
  {
    q.GetOr(0)
  }

  /** The variant's gallery file names, `[]` when the field is absent. */
  function GalleryNames(v: ProductVariantsResponse): (r: seq<string>)
    ensures v.gallery_images.None? ==> r == []
    ensures v.gallery_images.Some? ==> r == v.gallery_images.value
  {
    if v.gallery_images.Some? then v.gallery_images.value else []
  }

  /** Maps one variant row; gallery URLs are keyed by the variant's own collection and id. */
  function MapVariant(deps: Deps, v: ProductVariantsResponse): (r: ProductVariant)
    ensures |r.galleryImages| == |GalleryNames(v)|
    ensures forall i :: 0 <= i < |r.galleryImages| ==>
              r.galleryImages[i] == deps.getFileUrl(v.collectionId, v.id, GalleryNames(v)[i])
    ensures r.image.Some? <==> |r.galleryImages| > 0 && r.galleryImages[0] != ""
    ensures r.image.Some? ==> r.image.value == r.galleryImages[0]
    ensures r.colorSwatch.Some? <==> Present(v.color_swatch)
    ensures r.colorSwatch.Some? ==> r.colorSwatch == v.color_swatch
    ensures r.stockStatus == deps.computeStockStatus(Quantity(v.stock_quantity))
    ensures r.stockQuantity == v.stock_quantity
    ensures r.id == v.id && r.collectionId == v.collectionId && r.collectionName == v.collectionName
    ensures r.product == v.product && r.color == v.color && r.size == v.size && r.sku == v.sku
  {
    var names := GalleryNames(v);
    var galleryImages := seq(|names|, i requires 0 <= i < |names| => deps.getFileUrl(v.collectionId, v.id, names[i]));
    var image := if |galleryImages| > 0 && galleryImages[0] != "" then Some(galleryImages[0]) else None;
    ProductVariant(
      v.id, v.collectionId, v.collectionName,
      v.product, v.color,
      if Present(v.color_swatch) then v.color_swatch else None,
      v.size, v.sku,
      galleryImages,
      deps.computeStockStatus(Quantity(v.stock_quantity)),
      image,
      v.stock_quantity)
  }

  /** Maps a list of variant rows in order. */
  function MapVariants(deps: Deps, rs: seq<ProductVariantsResponse>): (r: seq<ProductVariant>)
    ensures |r| == |rs|
    ensures forall i :: 0 <= i < |rs| ==> r[i] == MapVariant(deps, rs[i])
  {
    if |rs| == 0 then [] else [MapVariant(deps, rs[0])] + MapVariants(deps, rs[1..])
  }

  /** `mapVariantsFromExpand`: no expanded rows give no variants. */
  function MapVariantsFromExpand(deps: Deps, expanded: Option<seq<ProductVariantsResponse>>): (r: seq<ProductVariant>)
    ensures expanded.None? ==> r == []
    ensures expanded.Some? ==>
              |r| == |expanded.value| && forall i :: 0 <= i < |r| ==> r[i] == MapVariant(deps, expanded.value[i])
  {
    if expanded.None? then [] else MapVariants(deps, expanded.value)
  }

  // ---------------------------------------------------------------------------
  // Colour-media reconciliation
  // ---------------------------------------------------------------------------

  /** The best media known for one colour. */
  datatype Media = Media(image: Option<string>, galleryImages: seq<string>)

  /** `filter(Boolean)` on a list of URLs: drops the empty strings, keeps the order. */
  function NonEmptyUrls(g: seq<string>): (r: seq<string>)
    ensures forall x :: x in r <==> x in g && x != ""
    ensures |r| <= |g|
    ensures (forall i :: 0 <= i < |g| ==> g[i] != "") ==> r == g
  {
    if |g| == 0 then []
    else if g[0] != "" then [g[0]] + NonEmptyUrls(g[1..])
    else NonEmptyUrls(g[1..])
  }

  /** `v.image || galleryImages[0] || undefined` over the filtered gallery. */
  function CandidateImage(v: ProductVariant): (r: Option<string>)
    ensures r.Some? ==> r.value != ""
    ensures r.None? <==> !Present(v.image) && |NonEmptyUrls(v.galleryImages)| == 0
    ensures Present(v.image) ==> r == v.image
    ensures !Present(v.image) && |NonEmptyUrls(v.galleryImages)| > 0 ==> r == Some(NonEmptyUrls(v.galleryImages)[0])
  {
    var galleryImages := NonEmptyUrls(v.galleryImages);
    if Present(v.image) then v.image
    else if |galleryImages| > 0 then (assert galleryImages[0] in galleryImages; Some(galleryImages[0]))
    else None
  }

  /** The media one variant contributes to its colour. */
  function MediaOf(v: ProductVariant): (r: Media)
    ensures r.image == CandidateImage(v) && r.galleryImages == NonEmptyUrls(v.galleryImages)
    ensures r.image.Some? ==> r.image.value != ""
    ensures forall u :: u in r.galleryImages ==> u != ""
    ensures r.image.None? ==> r.galleryImages == []
  {
    Media(CandidateImage(v), NonEmptyUrls(v.galleryImages))
  }

  /** One step of the media loop: how variant `v` updates the colour map. */
  function Absorb(m: map<string, Media>, v: ProductVariant): (r: map<string, Media>)
    ensures r.Keys == if CandidateImage(v).None? then m.Keys else m.Keys + {v.color}
    ensures forall c :: c in m && c != v.color ==> r[c] == m[c]
    ensures v.color in r && CandidateImage(v).Some? ==>
              |r[v.color].galleryImages| >= |NonEmptyUrls(v.galleryImages)|
    ensures v.color in m ==> |r[v.color].galleryImages| >= |m[v.color].galleryImages|
  {
    var galleryImages := NonEmptyUrls(v.galleryImages);
    var image := CandidateImage(v);
    if !Present(image) && |galleryImages| == 0 then m
    else if v.color !in m then m[v.color := Media(image, galleryImages)]
    else if |galleryImages| > |m[v.color].galleryImages| then m[v.color := Media(image, galleryImages)]
    else if !Present(m[v.color].image) && Present(image) then m[v.color := Media(image, m[v.color].galleryImages)]
    else m
  }

  /** The colour map after the media loop has seen all of `vs`, in order. */
  function MediaByColor(vs: seq<ProductVariant>): (r: map<string, Media>)
    ensures r.Keys <= set v | v in vs :: v.color
  {
    if |vs| == 0 then map[] else Absorb(MediaByColor(vs[..|vs| - 1]), vs[|vs| - 1])
  }

  /** The second pass for one variant: inherit the colour's gallery and image where missing. */
  function ReconcileVariant(v: ProductVariant, mediaByColor: map<string, Media>): (r: ProductVariant)
    ensures r.(galleryImages := v.galleryImages, image := v.image) == v
    ensures v.color in mediaByColor && |v.galleryImages| == 0 && |mediaByColor[v.color].galleryImages| > 0 ==>
              r.galleryImages == mediaByColor[v.color].galleryImages
    ensures v.color in mediaByColor && !Present(v.image) && Present(mediaByColor[v.color].image) ==>
              r.image == mediaByColor[v.color].image
  {
    if v.color !in mediaByColor then v
    else
      var media := mediaByColor[v.color];
      var galleryImages :=
        if |v.galleryImages| > 0 then v.galleryImages
        else if |media.galleryImages| > 0 then media.galleryImages
        else v.galleryImages;
      var image :=
        if Present(v.image) then v.image
        else if Present(media.image) then media.image
        else if |galleryImages| > 0 && galleryImages[0] != "" then Some(galleryImages[0])
        else None;
      v.(galleryImages := galleryImages, image := image)
  }

  /** The second pass over all variants: same length and order, only media fields change. */
  function Reconcile(vs: seq<ProductVariant>, mediaByColor: map<string, Media>): (r: seq<ProductVariant>)
    ensures |r| == |vs|
    ensures forall i :: 0 <= i < |vs| ==>
              r[i].(galleryImages := vs[i].galleryImages, image := vs[i].image) == vs[i]
    ensures forall i :: 0 <= i < |vs| && |vs[i].galleryImages| > 0 ==> r[i].galleryImages == vs[i].galleryImages
    ensures forall i :: 0 <= i < |vs| && Present(vs[i].image) ==> r[i].image == vs[i].image
    ensures forall i :: 0 <= i < |vs| && vs[i].color !in mediaByColor ==> r[i] == vs[i]
    ensures forall i | 0 <= i < |vs| && vs[i].color in mediaByColor && |vs[i].galleryImages| == 0
              && |mediaByColor[vs[i].color].galleryImages| > 0
              :: r[i].galleryImages == mediaByColor[vs[i].color].galleryImages
    ensures forall i | 0 <= i < |vs| && vs[i].color in mediaByColor && !Present(vs[i].image)
              && Present(mediaByColor[vs[i].color].image)
              :: r[i].image == mediaByColor[vs[i].color].image
  {
    seq(|vs|, i requires 0 <= i < |vs| => ReconcileVariant(vs[i], mediaByColor))
  }

  /** The variants of a product after colour-media reconciliation. */
  function ReconciledVariants(raw: seq<ProductVariant>): (r: seq<ProductVariant>)
    ensures |r| == |raw|
    ensures forall i :: 0 <= i < |raw| ==> r[i].(galleryImages := raw[i].galleryImages, image := raw[i].image) == raw[i]
    ensures forall i :: 0 <= i < |raw| && |raw[i].galleryImages| > 0 ==> r[i].galleryImages == raw[i].galleryImages
    ensures forall i :: 0 <= i < |raw| && Present(raw[i].image) ==> r[i].image == raw[i].image
  {
    Reconcile(raw, MediaByColor(raw))
  }

  // ---------------------------------------------------------------------------
  // Product mapping
  // ---------------------------------------------------------------------------

  /** The sum of the variants' quantities, missing ones counting as zero. */
  function TotalStock(vs: seq<ProductVariant>): (r: int)
    ensures |vs| == 0 ==> r == 0
    ensures (forall i :: 0 <= i < |vs| ==> Quantity(vs[i].stockQuantity) >= 0) ==> r >= 0
  {
    if |vs| == 0 then 0 else TotalStock(vs[..|vs| - 1]) + Quantity(vs[|vs| - 1].stockQuantity)
  }

  /** The category field normalised to a list of ids. */
  function CategoryIds(f: CategoryField): (r: seq<string>)
    ensures f.CategoryList? ==> r == f.ids
    ensures f.OneCategory? ==> (r == [f.id] <==> f.id != "") && (r == [] <==> f.id == "")
    ensures f.NoCategory? ==> r == []
  {
    match f
    case CategoryList(ids) => ids
    case OneCategory(id) => if id != "" then [id] else []
    case NoCategory => []
  }

  /** `record.collectionId || 'products'`. */
  function CollectionIdOf(record: ProductsResponse): (r: string)
    ensures r != ""
    ensures record.collectionId != "" ==> r == record.collectionId
  {
    if record.collectionId != "" then record.collectionId else "products"
  }

  /** The resolved main image URL, or "" when the record has no main image. */
  function MainImageUrl(deps: Deps, record: ProductsResponse): (r: string)
    ensures !Present(record.main_image) ==> r == ""
    ensures Present(record.main_image) ==>
              r == deps.getFileUrl(CollectionIdOf(record), record.id, record.main_image.value)
  {
    if Present(record.main_image)
    then deps.getFileUrl(CollectionIdOf(record), record.id, record.main_image.value)
    else ""
  }

  /** `categories.some(c => c.slug === a || c.slug === b)`. */
  predicate SomeSlug(categories: seq<Category>, a: string, b: string)
    ensures SomeSlug(categories, a, b) <==> exists c | c in categories :: c.slug == a || c.slug == b
    ensures |categories| == 0 ==> !SomeSlug(categories, a, b)
  {
    exists i | 0 <= i < |categories| :: categories[i].slug == a || categories[i].slug == b
  }

  /**
   * The gender of a product read off its supplied categories through the
   * raw-value classifier: mens if any slug classifies as mens, else womens if
   * any classifies as womens, else unisex.
   */
  ghost function CategoryGender(categories: Option<seq<Category>>): Gender {
    if categories.None? then Unisex
    else if exists i :: 0 <= i < |categories.value| && MapGender(categories.value[i].slug) == Mens then Mens
    else if exists i :: 0 <= i < |categories.value| && MapGender(categories.value[i].slug) == Womens then Womens
    else Unisex
  }

  /** The slug tests of the product mapper agree with the raw-value classifier. */
  lemma SomeSlugClassifies(categories: seq<Category>)
    ensures SomeSlug(categories, "mens", "men") <==>
              exists i :: 0 <= i < |categories| && MapGender(categories[i].slug) == Mens
    ensures SomeSlug(categories, "womens", "women") <==>
              exists i :: 0 <= i < |categories| && MapGender(categories[i].slug) == Womens
  {
    forall i | 0 <= i < |categories|
      ensures (categories[i].slug == "mens" || categories[i].slug == "men") <==> MapGender(categories[i].slug) == Mens
      ensures (categories[i].slug == "womens" || categories[i].slug == "women") <==> MapGender(categories[i].slug) == Womens
    {
    }
  }

  /** Every field of the product view that `mapRecordToProduct` builds from its inputs. */
  ghost predicate IsProductOf(deps: Deps, record: ProductsResponse, categories: Option<seq<Category>>, p: Product) {
    IsProductWith(deps, record, categories, ReconciledVariants(MapVariantsFromExpand(deps, record.expandedVariants)), p)
  }

  /** The product view built from a record, its supplied categories and its reconciled variants `vs`. */
  ghost predicate IsProductWith(deps: Deps, record: ProductsResponse, categories: Option<seq<Category>>,
                                vs: seq<ProductVariant>, p: Product) {
    var mainImage := MainImageUrl(deps, record);
    && p.id == (if record.slug != "" then record.slug else record.id)
    && p.collectionId == CollectionIdOf(record)
    && p.collectionName == record.collectionName
    && p.title == record.title
    && p.slug == record.slug
    && p.description == record.description
    && p.price == "Loading..."
    && p.priceValue == 0
    && p.image == (
         if mainImage != "" then mainImage
         else if |vs| == 0 then ""
         else if Present(vs[0].image) then vs[0].image.value
         else if |vs[0].galleryImages| > 0 then vs[0].galleryImages[0]
         else "")
    && p.images == (if p.image != "" then [p.image] else [])
    && p.variants == (if |vs| > 0 then Some(vs) else None)
    && p.categories == categories
    && p.categoryIds == CategoryIds(record.category)
    && p.attributes == (if record.attributes.Some? then record.attributes.value else map[])
    && p.isFeature == (record.is_featured == Some(true))
    && p.hasVariants == (|vs| > 0)
    && p.stockStatus == (if |vs| > 0 then deps.computeStockStatus(TotalStock(vs)) else OutOfStock)
    && p.gender == CategoryGender(categories)
    && p.stripePriceId == record.stripe_price_id
  }

  /** The media loop of `mapRecordToProduct`: fills the colour map one variant at a time. */
  method CollectMediaByColor(vs: seq<ProductVariant>) returns (mediaByColor: map<string, Media>)
    ensures mediaByColor == MediaByColor(vs)
  {
    mediaByColor := map[];
    for i := 0 to |vs|
      invariant mediaByColor == MediaByColor(vs[..i])
    {
      assert vs[..i + 1][..i] == vs[..i];
      var v := vs[i];
      var galleryImages := NonEmptyUrls(v.galleryImages);
      var image := CandidateImage(v);
      if !Present(image) && |galleryImages| == 0 {
        continue;
      }
      if v.color !in mediaByColor {
        mediaByColor := mediaByColor[v.color := Media(image, galleryImages)];
        continue;
      }
      var existing := mediaByColor[v.color];
      if |galleryImages| > |existing.galleryImages| {
        mediaByColor := mediaByColor[v.color := Media(image, galleryImages)];
        continue;
      }
      if !Present(existing.image) && Present(image) {
        mediaByColor := mediaByColor[v.color := Media(image, existing.galleryImages)];
      }
    }
    assert vs[..|vs|] == vs;

  }

  /** The gender step of `mapRecordToProduct`: unisex unless a supplied category slug says mens, then womens. */
  method DeriveGender(categories: Option<seq<Category>>) returns (gender: Gender)
    ensures gender == CategoryGender(categories)
  {
    gender := Unisex;
    if categories.Some? {
      SomeSlugClassifies(categories.value);
      if SomeSlug(categories.value, "mens", "men") {
        gender := Mens;
      } else if SomeSlug(categories.value, "womens", "women") {
        gender := Womens;
      }
    }
  }

  /** `mapRecordToProduct`: maps the variants, reconciles their media by colour, then assembles the view. */
  method MapRecordToProduct(deps: Deps, record: ProductsResponse, categories: Option<seq<Category>>)
    returns (p: Product)
    ensures IsProductOf(deps, record, categories, p)
  {
    var rawVariants := MapVariantsFromExpand(deps, record.expandedVariants);
    var mediaByColor := CollectMediaByColor(rawVariants);
    var variants := Reconcile(rawVariants, mediaByColor);
    p := AssembleProduct(deps, record, categories, variants);
  }

  /**
   * The rest of `mapRecordToProduct` once the variants are reconciled: base
   * image, stock status, category ids and gender.
   */
  method AssembleProduct(deps: Deps, record: ProductsResponse, categories: Option<seq<Category>>,
                         variants: seq<ProductVariant>)
    returns (p: Product)
    ensures IsProductWith(deps, record, categories, variants, p)
  {
    var collectionId := CollectionIdOf(record);
    var mainImage := MainImageUrl(deps, record);
    var hasVariants := |variants| > 0;

    var baseImage := mainImage;
    if baseImage == "" {
      if |variants| == 0 {
        baseImage := "";
      } else if Present(variants[0].image) {
        baseImage := variants[0].image.value;
      } else if |variants[0].galleryImages| > 0 {
        baseImage := variants[0].galleryImages[0];
      } else {
        baseImage := "";
      }
    }
    var baseImages := if baseImage != "" then [baseImage] else [];

    var totalVariantStock := TotalStock(variants);
    var stockStatus := if hasVariants then deps.computeStockStatus(totalVariantStock) else OutOfStock;

    var categoryIds := CategoryIds(record.category);

    var gender := DeriveGender(categories);

    p := Product(
      if record.slug != "" then record.slug else record.id,
      collectionId,
      record.collectionName,
      record.title,
      record.slug,
      record.description,
      "Loading...",
      0,
      baseImage,
      baseImages,
      if hasVariants then Some(variants) else None,
      categories,
      categoryIds,
      if record.attributes.Some? then record.attributes.value else map[],
      record.is_featured == Some(true),
      hasVariants,
      stockStatus,
      gender,
      record.stripe_price_id);
  }

  // ---------------------------------------------------------------------------
  // Category mapping
  // ---------------------------------------------------------------------------

  /** The category image rule: a URL under the 'categories' collection only when a file name is present. */
  function CategoryImageUrl(deps: Deps, c: CategoriesResponse): (r: Option<string>)
    ensures r.Some? <==> Present(c.image)
    ensures r.Some? ==> r.value == deps.getFileUrl("categories", c.id, c.image.value)
  {
    if Present(c.image) then Some(deps.getFileUrl("categories", c.id, c.image.value)) else None
  }

  /** `mapRecordToCategory`: the only category mapper that sets `name`. */
  function MapRecordToCategory(deps: Deps, record: CategoriesResponse): (r: Category)
    ensures r.id == record.id && r.title == record.name && r.name == Some(record.name) && r.slug == record.slug
    ensures r.collectionId == record.collectionId && r.collectionName == record.collectionName
    ensures r.image.Some? <==> Present(record.image)
    ensures r.isVisible <==> record.is_visible == Some(true)
    ensures r.sortOrder == (if record.sort_order.Some? then record.sort_order.value else 0)
  {
    Category(
      record.id, record.collectionId, record.collectionName,
      record.name, Some(record.name), record.slug,
      CategoryImageUrl(deps, record),
      record.is_visible == Some(true),
      record.sort_order.GetOr(0))
  }

  /** The view the two expand mappers build for a present record: like the single mapper, but without `name`. */
  function ExpandedCategory(deps: Deps, c: CategoriesResponse): (r: Category)
    ensures r.id == c.id && r.title == c.name && r.name.None? && r.slug == c.slug
    ensures r.collectionId == c.collectionId && r.collectionName == c.collectionName
    ensures r.image.Some? <==> Present(c.image)
    ensures r.isVisible <==> c.is_visible == Some(true)
    ensures r.sortOrder == (if c.sort_order.Some? then c.sort_order.value else 0)
  {
    Category(
      c.id, c.collectionId, c.collectionName,
      c.name, None, c.slug,
      CategoryImageUrl(deps, c),
      c.is_visible == Some(true),
      c.sort_order.GetOr(0))
  }

  /** `mapCategoryFromExpand`: an absent record passes through as absent. */
  function MapCategoryFromExpand(deps: Deps, expanded: Option<CategoriesResponse>): (r: Option<Category>)
    ensures r.Some? <==> expanded.Some?
    ensures r.Some? ==> r.value.id == expanded.value.id && r.value.name.None?
  {
    if expanded.None? then None else Some(ExpandedCategory(deps, expanded.value))
  }

  /** Drops the null entries of a list and maps the rest, in order. */
  function MapPresentCategories(deps: Deps, entries: seq<Option<CategoriesResponse>>): (r: seq<Category>)
    ensures |r| <= |entries|
    ensures (forall i :: 0 <= i < |entries| ==> entries[i].None?) ==> r == []
    ensures forall c :: c in r ==> exists i :: 0 <= i < |entries| && entries[i].Some? && c == ExpandedCategory(deps, entries[i].value)
  {
    if |entries| == 0 then []
    else if entries[0].None? then MapPresentCategories(deps, entries[1..])
    else [ExpandedCategory(deps, entries[0].value)] + MapPresentCategories(deps, entries[1..])
  }

  /** `mapCategoriesFromExpand`: a lone record is treated as a one-element list. */
  function MapCategoriesFromExpand(deps: Deps, expanded: CategoriesExpand): (r: seq<Category>)
    ensures expanded.NoExpand? ==> r == []
    ensures expanded.OneRecord? ==> r == [ExpandedCategory(deps, expanded.record)]
    ensures expanded.RecordList? ==> |r| <= |expanded.entries|
  {
    match expanded
    case NoExpand => []
    case OneRecord(c) => MapPresentCategories(deps, [Some(c)])
    case RecordList(entries) => MapPresentCategories(deps, entries)
  }
}
