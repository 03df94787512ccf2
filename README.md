# Storefront record mappers in Dafny

This project models the mapper layer of an e-commerce storefront built on a
PocketBase backend. The mappers turn backend records into frontend view
models:

- **`mapRecordToProduct`** turns a product row into a product view. The row may
  carry its variant rows, expanded under the relation key
  `product_variants(product)`. The mapper maps those variants. It then
  reconciles media per colour: a loop fills a colour-to-media map, keeping for
  each colour the variant with the longest filtered gallery, and the first one
  seen wins ties. A second pass lets variants without their own gallery or
  image inherit their colour's media. Finally it derives the base image, the
  aggregate stock status, the category id list and a gender from the supplied
  categories, with mens checked first.
- **`mapVariantsFromExpand`** maps variant rows in order. It resolves each
  gallery file name to a URL keyed by the variant's own collection and id. Its
  primary image is the first URL.
- **`mapRecordToCategory`**, **`mapCategoryFromExpand`** and
  **`mapCategoriesFromExpand`** share one rule. A category gets an image URL
  only when it names a file. `isVisible` is true only for `true`, and
  `sortOrder` defaults to 0. The plural mapper takes one record or a list and
  drops null entries. Only `mapRecordToCategory` sets `name`.
- **`mapGender`** classifies a raw gender value by string equality. The product
  mapper keeps its own category-based path.

Files:

- `wrappers.dfy`: `Option`, plus `Present`, JavaScript truthiness for an
  optional string (absent and `""` are falsy).
- `pocketbase_types.dfy`: the record shapes, each with the system fields
  `id`, `collectionId` and `collectionName`. Field names keep the backend
  schema's spelling.
- `view_types.dfy`: the view models `Product`, `ProductVariant` and `Category`,
  plus the closed enumerations `StockStatus` and `Gender`.
- `mappers.dfy`: the operations. `mapRecordToProduct` is imperative, and its
  steps are three methods. `Mappers.CollectMediaByColor` is the `for` loop over
  a local `map`. `Mappers.AssembleProduct` is the tail of the function, which
  reassigns `baseImage`. `Mappers.DeriveGender` reassigns `gender`.
  `Mappers.MapRecordToProduct` chains the three steps. Each method is proved
  against a specification: the left fold `MediaByColor`, the gender function
  `CategoryGender`, and the predicate `IsProductOf`, which fixes every field of
  the view. The map/filter/reduce expressions are functions.
- `mapper_properties.dfy`: the lemmas.

The two collaborators, `getFileUrl(collection, id, filename)` and
`computeStockStatus(quantity)`, are opaque here. They travel as the
function-valued fields of `Mappers.Deps`. Nothing is assumed about them:
no URL shape and no stock thresholds.

Two behaviours of the code are worth knowing. The model keeps both:

- Only `mapRecordToCategory` sets a category's `name`. The two expand mappers
  leave it unset (`MapperProperties.ExpandOmitsName`).
- A mens slug anywhere in the category list wins over a womens slug. The
  product mapper looks for mens across the whole list before it looks for
  womens (`MapperProperties.GenderExamples`).

## Model

| member | source | states |
|---|---|---|
| `Mappers.MapGender` | src/lib/server/mappers.ts:22-26 | the result is mens iff the value is `men`/`mens`, womens iff it is `women`/`womens`, otherwise unisex |
| `Mappers.Quantity` | src/lib/server/mappers.ts:108 | `Number(q) \|\| 0`: a missing quantity counts as 0, a present one is its value |
| `Mappers.GalleryNames` | src/lib/server/mappers.ts:172-174 | the `Array.isArray` branch: the row's gallery file names, `[]` when the field is absent |
| `Mappers.MapVariant` | src/lib/server/mappers.ts:171-193 | the gallery has one URL per file name, and entry i is `getFileUrl(variant collectionId, variant id, name i)`; the image is the first URL when that is non-empty, else absent; the swatch is kept only when non-empty; status is `computeStockStatus(quantity or 0)`; quantity and the identity fields pass through |
| `Mappers.MapVariants` | src/lib/server/mappers.ts:171-194 | same length as the input, and position i is the mapping of row i (order kept) |
| `Mappers.MapVariantsFromExpand` | src/lib/server/mappers.ts:166-195 | no expanded rows give `[]`; otherwise the output has the same length and order, each row mapped |
| `Mappers.NonEmptyUrls` | src/lib/server/mappers.ts:59 | `filter(Boolean)`: an element is kept iff it is a non-empty entry of the input; the result is never longer, and equals the input when no entry is empty (order: `NonEmptyUrlsAppend`) |
| `Mappers.MediaOf` | src/lib/server/mappers.ts:65 | the `{ image, galleryImages }` entry a variant contributes: its candidate image and filtered gallery, no empty URL in either, and no gallery without an image |
| `Mappers.CandidateImage` | src/lib/server/mappers.ts:60-61 | the variant's own image when it is non-empty, else the first filtered gallery URL, else absent; never `""`; absent exactly when the variant has no image and an empty filtered gallery (the skip test) |
| `Mappers.Absorb` | src/lib/server/mappers.ts:59-76 | one loop step: the colour is added exactly when the variant has media; other colours' entries are unchanged; the colour's gallery never gets shorter and is at least as long as the variant's filtered gallery |
| `Mappers.MediaByColor` | src/lib/server/mappers.ts:51-77 | the map after the loop has seen all variants in order; its colours are colours of the variants |
| `Mappers.CollectMediaByColor` | src/lib/server/mappers.ts:51-77 | the loop's map equals the fold of the get/set step over all variants, in order |
| `Mappers.ReconcileVariant` | src/lib/server/mappers.ts:80-95 | only `galleryImages` and `image` change; an empty own gallery takes the colour's non-empty gallery; a missing own image takes the colour's image |
| `Mappers.Reconcile` | src/lib/server/mappers.ts:79-96 | same length and order; only `galleryImages` and `image` change; a non-empty own gallery and a non-empty own image are kept; an empty own gallery takes the colour entry's non-empty gallery; a missing own image takes the entry's image; a variant whose colour has no entry is unchanged |
| `Mappers.ReconciledVariants` | src/lib/server/mappers.ts:79-96 | the second pass over the loop's map: same length; only `galleryImages` and `image` change; a non-empty own gallery and a non-empty own image are kept |
| `Mappers.TotalStock` | src/lib/server/mappers.ts:108 | the `reduce` sum of quantities, missing ones as 0: 0 for no variants, and never negative when no quantity is negative |
| `Mappers.CollectionIdOf` | src/lib/server/mappers.ts:36 | the record's `collectionId` when non-empty, else `products`; never empty |
| `Mappers.MainImageUrl` | src/lib/server/mappers.ts:39 | `""` without a main image file name, else `getFileUrl(collection id, record id, main_image)` |
| `Mappers.CategoryIds` | src/lib/server/mappers.ts:112-117 | a list is kept as is, a lone id `x` gives `[x]` when non-empty and `[]` when empty, an absent field gives `[]` |
| `Mappers.SomeSlug` | src/lib/server/mappers.ts:122-123 | `categories.some(...)`: some category in the list has one of the two slugs; never for an empty list |
| `Mappers.SomeSlugClassifies` | src/lib/server/mappers.ts:120-124 | the product mapper's `men`/`mens` and `women`/`womens` slug tests hold iff some slug classifies as mens/womens under `mapGender` |
| `Mappers.MapRecordToProduct` | src/lib/server/mappers.ts:35-161 | the view satisfies `IsProductOf`: id = slug or raw id; price placeholders; base image = main image URL, else the first variant's image, else its first gallery entry, else `""`; images = `[image]` or `[]`; variants reconciled, absent when empty; `hasVariants` iff non-empty; stock is `out_of_stock` without variants, else the status of the summed quantity; category ids normalised; gender from the categories, mens first |
| `Mappers.AssembleProduct` | src/lib/server/mappers.ts:98-160 | given the reconciled variants, the view satisfies `IsProductWith`: the same field-by-field description as for `MapRecordToProduct` |
| `Mappers.DeriveGender` | src/lib/server/mappers.ts:119-124 | the reassigned gender equals `CategoryGender`: mens if some supplied slug classifies as mens, else womens if some classifies as womens, else unisex (also when no categories are supplied) |
| `Mappers.CategoryImageUrl` | src/lib/server/mappers.ts:215 | the image is defined iff the file name is non-empty, and is then `getFileUrl('categories', id, name)` |
| `Mappers.MapRecordToCategory` | src/lib/server/mappers.ts:204-219 | title and name are the record's name; the image is defined iff a file name is given; visible iff `is_visible` is true; sort order defaults to 0; `collectionId` and `collectionName` are copied |
| `Mappers.ExpandedCategory` | src/lib/server/mappers.ts:229-242 | same rule as the single mapper, with `name` left unset; `collectionId` and `collectionName` are copied |
| `Mappers.MapCategoryFromExpand` | src/lib/server/mappers.ts:224-243 | defined iff the input is; the id is kept and `name` is unset |
| `Mappers.MapPresentCategories` | src/lib/server/mappers.ts:258-271 | never longer than the input; all-null input gives `[]`; every output is the mapping of some present entry |
| `Mappers.MapCategoriesFromExpand` | src/lib/server/mappers.ts:248-272 | absent input gives `[]`; a lone record gives the one-element list of its mapping |
| `MapperProperties.FirstLongestUnique` | src/lib/server/mappers.ts:69-73 | under strict `>` replacement, at most one variant of a colour is the first one with the longest filtered gallery |
| `MapperProperties.MediaImagesSet` | src/lib/server/mappers.ts:58-77 | after the loop, every entry of the colour map has a non-empty image |
| `MapperProperties.MediaKeys` | src/lib/server/mappers.ts:58-66 | the colour map has an entry for a colour iff some variant of that colour has an image or a non-empty filtered gallery |
| `MapperProperties.MediaLongestFirst` | src/lib/server/mappers.ts:63-76 | each entry is the media (candidate image and filtered gallery) of the first variant of its colour whose filtered gallery is longest |
| `MapperProperties.HasMedia` | src/lib/server/mappers.ts:61 | the negated skip test: a variant has media iff it has a candidate image, iff its media entry has an image |
| `MapperProperties.ReconciledImageDefined` | src/lib/server/mappers.ts:79-96 | a variant whose colour has any variant with media ends with a non-empty image |
| `MapperProperties.NonEmptyUrlsAppend` | src/lib/server/mappers.ts:59 | `filter(Boolean)` distributes over concatenation, so order and duplicates are kept |
| `MapperProperties.NonEmptyUrlsSingle` | src/lib/server/mappers.ts:59 | a single URL is kept exactly when it is non-empty |
| `MapperProperties.ReconciledImageInherited` | src/lib/server/mappers.ts:89 | a variant without its own image gets exactly the image of its colour's entry |
| `MapperProperties.ReconciledGalleryInherited` | src/lib/server/mappers.ts:83-88 | a variant without a gallery gets the first-longest filtered gallery of its colour, or stays `[]` if that is empty |
| `MapperProperties.RedPairExample` | src/lib/server/mappers.ts:51-96 | two red variants with galleries `[a,b]` and `[]` both end with gallery `[a,b]` and image `a` |
| `MapperProperties.MappedStock` | src/lib/server/mappers.ts:188-192 | the mapped variants' summed quantity equals the rows' summed quantity |
| `MapperProperties.ReconciledStock` | src/lib/server/mappers.ts:79-108 | reconciliation does not change the summed quantity |
| `MapperProperties.ProductStock` | src/lib/server/mappers.ts:108-109 | without variant rows the product is `out_of_stock` with no variants; otherwise its status is `computeStockStatus` of the rows' summed quantity |
| `MapperProperties.SingleVariantStockAgrees` | src/lib/server/mappers.ts:108-109 | with one variant row, the product's stock status equals that variant's |
| `MapperProperties.ProductDeterminate` | src/lib/server/mappers.ts:35-161 | the view is a function of its inputs: two views of the same record and categories are equal |
| `MapperProperties.ProductImageFallback` | src/lib/server/mappers.ts:101-106 | without a main image, the image is the first variant's image, else its first gallery entry, else `""`; `images` is `[image]` iff the image is non-empty, and `[]` otherwise |
| `MapperProperties.BareProduct` | src/lib/server/mappers.ts:98-109 | no main image and no variants (no expanded rows, or an empty list) give `image == ""`, `images == []` and `out_of_stock` |
| `MapperProperties.ProductIdentity` | src/lib/server/mappers.ts:111-142 | the id is the slug when non-empty, else the raw id; lone id `cat1` gives `["cat1"]`, an absent field gives `[]`; price is `Loading...`/0 |
| `MapperProperties.CategoryGenderBySlug` | src/lib/server/mappers.ts:119-124 | gender is mens iff some slug is `men`/`mens`; womens iff none is and some is `women`/`womens`; no categories, or an empty list, give unisex |
| `MapperProperties.SingleCategoryGender` | src/lib/server/mappers.ts:119-124 | for one category the product gender equals `mapGender(slug)` |
| `MapperProperties.GenderExamples` | src/lib/server/mappers.ts:120-124 | `[mens, women]` and `[women, mens]` give mens; `[women]` gives womens |
| `MapperProperties.ExpandOmitsName` | src/lib/server/mappers.ts:204-243 | both expand mappers give the single mapper's view with `name` unset; an absent input gives absent |
| `MapperProperties.OneRecordIsList` | src/lib/server/mappers.ts:254-256 | a lone record maps the same as the list `[record]` |
| `MapperProperties.PresentCategoriesAppend` | src/lib/server/mappers.ts:258-271 | filtering and mapping distribute over concatenation, so order is kept |
| `MapperProperties.PresentCategoriesSingle` | src/lib/server/mappers.ts:258-271 | a null entry contributes nothing; a present one contributes its single-expand mapping |
| `MapperProperties.NullEntriesDropped` | src/lib/server/mappers.ts:259 | inserting a null anywhere in the list does not change the result |
| `MapperProperties.CategoryImageRule` | src/lib/server/mappers.ts:215-239 | the category image is `getFileUrl('categories', id, file)` when a file name is present, else absent, and it is the same in the single and expand mappers |
| `MapperProperties.MapVariantsAppend` | src/lib/server/mappers.ts:171-194 | variant mapping distributes over concatenation |
| `MapperProperties.MappedVariantHasMedia` | src/lib/server/mappers.ts:172-175 | a mapped variant contributes media to its colour iff one of its resolved gallery URLs is non-empty |

## Left out

- I/O and foreign code: `getFileUrl` and `computeStockStatus` (src/lib/server/pocketbase and src/lib/server/stock-status) are not part of this model. They are uninterpreted function parameters, with no thresholds and no URL format assumed.
- The frontend types in `$lib/types` are not part of this model. `Product`, `ProductVariant` and `Category` hold the fields the mappers write. `StockStatus` is assumed to be in-stock, low-stock or out-of-stock; the mappers only name `out_of_stock`.
- JavaScript `Number(...)` coercion: a quantity is `Option<int>`, and absent means "missing or not a number", which counts as 0. NaN, numeric strings and floating-point quantities are not modelled.
- `attributes` is modelled as a string-to-string map. The source casts an untyped value to a record; only the `|| {}` default is modelled.
- Casts and passthroughs (`record.expand as unknown as ...`, `collectionName`) are plain field copies. The expand payload is a typed optional field of the product row.
- Gallery entries are always strings. The `Array.isArray` checks on a mapped variant's gallery are always true, so they are not modelled as branches. `filter(Boolean)` is modelled as dropping `""`.
- The generated declarations in src/lib/pocketbase-types.ts (`Collections` and other enums, `ExpandType`, the create/update mapped types, `TypedPocketBase`) have no behaviour. Only the record shapes are used.
- Pricing resolution, the backend client and rendering are external. The mapper only emits the placeholders `Loading...` and 0.
- `Mappers.MapCategoriesFromExpand`: for a list input its own contract only bounds the length. The full filter-and-map behaviour (order, null entries dropped, each entry mapped) is stated by the `MapperProperties` lemmas on `MapPresentCategories`.
