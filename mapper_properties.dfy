/**
 * Properties of the record mappers: the invariants of the colour-media map,
 * what reconciliation preserves, how product stock relates to variant stock,
 * the two gender paths, and the category normalisation rule.
 */
module MapperProperties {
  import opened Wrappers
  import opened PocketBaseTypes
  import opened ViewTypes
  import opened Mappers

  // ---------------------------------------------------------------------------
  // The colour-media map
  // ---------------------------------------------------------------------------

  /** A variant contributes media to its colour: it has an image or a non-empty filtered gallery. */
  predicate HasMedia(v: ProductVariant)
    ensures HasMedia(v) <==> CandidateImage(v).Some?
    ensures HasMedia(v) <==> MediaOf(v).image.Some?
  {
    Present(v.image) || |NonEmptyUrls(v.galleryImages)| > 0
  }

  /** The length of a variant's filtered gallery. */
  function GalleryLength(v: ProductVariant): nat {
    |NonEmptyUrls(v.galleryImages)|
  }

  /**
   * Variant `j` is the first among the variants of colour `c` with media whose
   * filtered gallery is longest: no such variant has a longer one, and every
   * such variant before `j` has a strictly shorter one.
   */
  ghost predicate IsFirstLongest(vs: seq<ProductVariant>, c: string, j: int) {
    && 0 <= j < |vs|
    && vs[j].color == c
    && HasMedia(vs[j])
    && (forall k :: 0 <= k < |vs| && vs[k].color == c && HasMedia(vs[k]) ==> GalleryLength(vs[k]) <= GalleryLength(vs[j]))
    && (forall k :: 0 <= k < j && vs[k].color == c && HasMedia(vs[k]) ==> GalleryLength(vs[k]) < GalleryLength(vs[j]))
  }

  /** The first-longest variant of a colour is unique. */
  lemma FirstLongestUnique(vs: seq<ProductVariant>, c: string, j1: int, j2: int)
    requires IsFirstLongest(vs, c, j1) && IsFirstLongest(vs, c, j2)
    ensures j1 == j2
  {
  }

  /** Every entry of the colour map has an image. */
  lemma {:induction false} MediaImagesSet(vs: seq<ProductVariant>)
    ensures forall c :: c in MediaByColor(vs) ==> Present(MediaByColor(vs)[c].image)
  {
    if |vs| > 0 {
      MediaImagesSet(vs[..|vs| - 1]);
    }
  }

  /** The colour map has an entry for a colour iff some variant of that colour has media. */
  lemma {:induction false} MediaKeys(vs: seq<ProductVariant>)
    ensures forall c :: c in MediaByColor(vs) <==>
              exists j :: 0 <= j < |vs| && vs[j].color == c && HasMedia(vs[j])
  {
    if |vs| > 0 {
      var n := |vs| - 1;
      var ws := vs[..n];
      var m := MediaByColor(ws);
      MediaKeys(ws);
      assert MediaByColor(vs) == Absorb(m, vs[n]);
      assert HasMedia(vs[n]) <==> CandidateImage(vs[n]).Some?;
      forall c: string
        ensures c in MediaByColor(vs) <==> exists j :: 0 <= j < |vs| && vs[j].color == c && HasMedia(vs[j])
      {
        if c in MediaByColor(vs) {
          if c in m {
            var j :| 0 <= j < |ws| && ws[j].color == c && HasMedia(ws[j]);
            assert vs[j] == ws[j];
          } else {
            assert vs[n].color == c && HasMedia(vs[n]);
          }
        } else {
          assert c !in m;
          forall j | 0 <= j < |vs| && vs[j].color == c
            ensures !HasMedia(vs[j])
          {
            if j < n {
              assert vs[j] == ws[j];
            }
          }
        }
      }
    }
  }

  /** A later variant that does not beat the first longest one leaves it first longest. */
  lemma FirstLongestKept(ws: seq<ProductVariant>, v: ProductVariant, c: string, j: int)
    requires IsFirstLongest(ws, c, j)
    requires v.color == c && HasMedia(v) ==> GalleryLength(v) <= GalleryLength(ws[j])
    ensures IsFirstLongest(ws + [v], c, j)
  {
    var vs := ws + [v];
    assert forall k :: 0 <= k < |ws| ==> vs[k] == ws[k];
  }

  /** A variant with a strictly longer gallery than every earlier one of its colour becomes first longest. */
  lemma FirstLongestNew(ws: seq<ProductVariant>, v: ProductVariant)
    requires HasMedia(v)
    requires forall k :: 0 <= k < |ws| && ws[k].color == v.color && HasMedia(ws[k]) ==> GalleryLength(ws[k]) < GalleryLength(v)
    ensures IsFirstLongest(ws + [v], v.color, |ws|)
  {
    var vs := ws + [v];
    assert forall k :: 0 <= k < |ws| ==> vs[k] == ws[k];
  }

  /**
   * Each entry of the colour map is exactly the media of the first variant of
   * that colour whose filtered gallery is longest: replacement needs a strictly
   * longer gallery, so the first-seen variant wins ties.
   */
  lemma {:induction false} MediaLongestFirst(vs: seq<ProductVariant>)
    ensures forall c :: c in MediaByColor(vs) ==>
              exists j :: IsFirstLongest(vs, c, j) && MediaByColor(vs)[c] == MediaOf(vs[j])
  {
    if |vs| > 0 {
      var n := |vs| - 1;
      var ws := vs[..n];
      var v := vs[n];
      assert vs == ws + [v];
      var m := MediaByColor(ws);
      assert MediaByColor(vs) == Absorb(m, v);
      MediaLongestFirst(ws);
      MediaKeys(ws);
      MediaImagesSet(ws);
      forall c | c in MediaByColor(vs)
        ensures exists j :: IsFirstLongest(vs, c, j) && MediaByColor(vs)[c] == MediaOf(vs[j])
      {
        if c != v.color || !HasMedia(v) {
          var j :| IsFirstLongest(ws, c, j) && m[c] == MediaOf(ws[j]);
          FirstLongestKept(ws, v, c, j);
          assert vs[j] == ws[j];
        } else if c !in m {
          FirstLongestNew(ws, v);
        } else {
          var j :| IsFirstLongest(ws, c, j) && m[c] == MediaOf(ws[j]);
          if GalleryLength(v) > |m[c].galleryImages| {
            FirstLongestNew(ws, v);
          } else {
            FirstLongestKept(ws, v, c, j);
            assert vs[j] == ws[j];
          }
        }
      }
    }
  }

  /** The URL filter distributes over concatenation: order and duplicates are kept. */
  lemma {:induction false} NonEmptyUrlsAppend(g: seq<string>, h: seq<string>)
    ensures NonEmptyUrls(g + h) == NonEmptyUrls(g) + NonEmptyUrls(h)
  {
    if |g| > 0 {
      assert (g + h)[0] == g[0];
      assert (g + h)[1..] == g[1..] + h;
      NonEmptyUrlsAppend(g[1..], h);
    } else {
      assert g + h == h;
    }
  }

  /** A single URL is kept exactly when it is non-empty. */
  lemma NonEmptyUrlsSingle(x: string)
    ensures NonEmptyUrls([x]) == (if x != "" then [x] else [])
  {
    assert [x][1..] == [];
  }

  // ---------------------------------------------------------------------------
  // Reconciliation
  // ---------------------------------------------------------------------------

  /** A variant whose colour has a media entry always ends with a defined image. */
  lemma ReconciledImageDefined(vs: seq<ProductVariant>, i: int)
    requires 0 <= i < |vs|
    requires exists j :: 0 <= j < |vs| && vs[j].color == vs[i].color && HasMedia(vs[j])
    ensures Present(ReconciledVariants(vs)[i].image)
  {
    MediaKeys(vs);
    MediaImagesSet(vs);
  }

  /** A variant without an image of its own takes the image of its colour's entry. */
  lemma ReconciledImageInherited(vs: seq<ProductVariant>, i: int)
    requires 0 <= i < |vs| && !Present(vs[i].image) && vs[i].color in MediaByColor(vs)
    ensures ReconciledVariants(vs)[i].image == MediaByColor(vs)[vs[i].color].image
  {
    MediaImagesSet(vs);
  }

  /**
   * A variant without a gallery of its own inherits the filtered gallery of the
   * first longest variant of its colour, when that gallery is non-empty.
   */
  lemma ReconciledGalleryInherited(vs: seq<ProductVariant>, i: int, j: int)
    requires 0 <= i < |vs|
    requires |vs[i].galleryImages| == 0
    requires IsFirstLongest(vs, vs[i].color, j)
    ensures ReconciledVariants(vs)[i].galleryImages ==
              (if GalleryLength(vs[j]) > 0 then NonEmptyUrls(vs[j].galleryImages) else [])
  {
    var c := vs[i].color;
    MediaKeys(vs);
    MediaLongestFirst(vs);
    var j' :| IsFirstLongest(vs, c, j') && MediaByColor(vs)[c] == MediaOf(vs[j']);
    FirstLongestUnique(vs, c, j, j');
  }

  /** Two red variants, with galleries [a, b] and [], both end with gallery [a, b] and image a. */
  lemma RedPairExample(v1: ProductVariant, v2: ProductVariant, a: string, b: string)
    requires a != "" && b != ""
    requires v1.color == "red" && v2.color == "red"
    requires v1.galleryImages == [a, b] && v2.galleryImages == []
    requires v1.image.None? && v2.image.None?
    ensures var r := ReconciledVariants([v1, v2]);
              && r[0].galleryImages == [a, b] && r[0].image == Some(a)
              && r[1].galleryImages == [a, b] && r[1].image == Some(a)
  {
    var vs := [v1, v2];
    assert NonEmptyUrls([a, b]) == [a, b];
    assert NonEmptyUrls([]) == [];
    assert vs[..1] == [v1];
    assert vs[..1][..0] == [];
    assert MediaByColor(vs[..1]) == map["red" := Media(Some(a), [a, b])];
    assert MediaByColor(vs) == map["red" := Media(Some(a), [a, b])];
  }

  // ---------------------------------------------------------------------------
  // Stock
  // ---------------------------------------------------------------------------

  /** The summed quantity of variant rows, missing or non-numeric ones counting as zero. */
  function RecordStock(rs: seq<ProductVariantsResponse>): int {
    if |rs| == 0 then 0 else RecordStock(rs[..|rs| - 1]) + Quantity(rs[|rs| - 1].stock_quantity)
  }

  /** Lists with the same quantities at every position have the same total. */
  lemma {:induction false} TotalStockPointwise(vs: seq<ProductVariant>, ws: seq<ProductVariant>)
    requires |vs| == |ws|
    requires forall i :: 0 <= i < |vs| ==> vs[i].stockQuantity == ws[i].stockQuantity
    ensures TotalStock(vs) == TotalStock(ws)
  {
    if |vs| > 0 {
      TotalStockPointwise(vs[..|vs| - 1], ws[..|ws| - 1]);
    }
  }

  /** Variants carrying the rows' quantities position by position have the rows' total. */
  lemma {:induction false} StockMatchesRows(vs: seq<ProductVariant>, rs: seq<ProductVariantsResponse>)
    requires |vs| == |rs|
    requires forall i :: 0 <= i < |vs| ==> vs[i].stockQuantity == rs[i].stock_quantity
    ensures TotalStock(vs) == RecordStock(rs)
  {
    if |vs| > 0 {
      StockMatchesRows(vs[..|vs| - 1], rs[..|rs| - 1]);
    }
  }

  /** Mapping rows to variants keeps the total quantity. */
  lemma MappedStock(deps: Deps, rs: seq<ProductVariantsResponse>)
    ensures TotalStock(MapVariants(deps, rs)) == RecordStock(rs)
  {
    StockMatchesRows(MapVariants(deps, rs), rs);
  }

  /** Reconciliation never changes the total quantity. */
  lemma ReconciledStock(vs: seq<ProductVariant>)
    ensures TotalStock(ReconciledVariants(vs)) == TotalStock(vs)
  {
    var r := ReconciledVariants(vs);
    forall i | 0 <= i < |vs| ensures r[i].stockQuantity == vs[i].stockQuantity {
      assert r[i].(galleryImages := vs[i].galleryImages, image := vs[i].image) == vs[i];
    }
    TotalStockPointwise(r, vs);
  }

  /**
   * Product stock: out of stock without variant rows, otherwise the stock
   * classifier applied to the summed row quantities.
   */
  lemma ProductStock(deps: Deps, record: ProductsResponse, categories: Option<seq<Category>>, p: Product)
    requires IsProductOf(deps, record, categories, p)
    ensures record.expandedVariants.None? || |record.expandedVariants.value| == 0 ==>
              p.stockStatus == OutOfStock && !p.hasVariants && p.variants.None?
    ensures record.expandedVariants.Some? && |record.expandedVariants.value| > 0 ==>
              p.hasVariants && p.stockStatus == deps.computeStockStatus(RecordStock(record.expandedVariants.value))
  {
    var raw := MapVariantsFromExpand(deps, record.expandedVariants);
    ReconciledStock(raw);
    if record.expandedVariants.Some? {
      MappedStock(deps, record.expandedVariants.value);
    }
  }

  /** With a single variant row, the product and its variant carry the same stock status. */
  lemma SingleVariantStockAgrees(deps: Deps, record: ProductsResponse, categories: Option<seq<Category>>, p: Product)
    requires IsProductOf(deps, record, categories, p)
    requires record.expandedVariants.Some? && |record.expandedVariants.value| == 1
    ensures p.variants.Some? && |p.variants.value| == 1
    ensures p.stockStatus == p.variants.value[0].stockStatus
  {
    var rs := record.expandedVariants.value;
    var raw := MapVariantsFromExpand(deps, record.expandedVariants);
    var vs := ReconciledVariants(raw);
    assert raw[0] == MapVariant(deps, rs[0]);
    assert vs[0].(galleryImages := raw[0].galleryImages, image := raw[0].image) == raw[0];
    assert vs[0].stockQuantity == rs[0].stock_quantity;
    assert vs[0].stockStatus == deps.computeStockStatus(Quantity(rs[0].stock_quantity));
    assert vs[..0] == [];
    assert TotalStock(vs) == Quantity(rs[0].stock_quantity);
  }

  // ---------------------------------------------------------------------------
  // The product view
  // ---------------------------------------------------------------------------

  /** The product view is determined by its inputs: mapping the same record twice gives equal views. */
  lemma ProductDeterminate(deps: Deps, record: ProductsResponse, categories: Option<seq<Category>>, p1: Product, p2: Product)
    requires IsProductOf(deps, record, categories, p1)
    requires IsProductOf(deps, record, categories, p2)
    ensures p1 == p2
  {
  }

  /**
   * Without a main image the product image is the first variant's image, else
   * its first gallery entry, else "", and the image list has it exactly when it
   * is non-empty.
   */
  lemma ProductImageFallback(deps: Deps, record: ProductsResponse, categories: Option<seq<Category>>, p: Product)
    requires IsProductOf(deps, record, categories, p)
    requires !Present(record.main_image)
    ensures p.variants.None? ==> p.image == "" && p.images == []
    ensures p.variants.Some? ==>
              var first := p.variants.value[0];
              p.image == (if Present(first.image) then first.image.value
                          else if |first.galleryImages| > 0 then first.galleryImages[0] else "")
    ensures p.images == [] <==> p.image == ""
    ensures p.images != [] ==> p.images == [p.image]
  {
  }

  /** No main image and no variant rows: empty image, no images, out of stock. */
  lemma BareProduct(deps: Deps, record: ProductsResponse, categories: Option<seq<Category>>, p: Product)
    requires IsProductOf(deps, record, categories, p)
    requires !Present(record.main_image)
    requires record.expandedVariants.None? || record.expandedVariants.value == []
    ensures p.image == "" && p.images == [] && p.stockStatus == OutOfStock && !p.hasVariants
  {
  }

  /** Identity, category ids and the price placeholders. */
  lemma ProductIdentity(deps: Deps, record: ProductsResponse, categories: Option<seq<Category>>, p: Product)
    requires IsProductOf(deps, record, categories, p)
    ensures record.slug != "" ==> p.id == record.slug
    ensures record.slug == "" ==> p.id == record.id
    ensures record.category == OneCategory("cat1") ==> p.categoryIds == ["cat1"]
    ensures record.category == NoCategory ==> p.categoryIds == []
    ensures p.price == "Loading..." && p.priceValue == 0
  {
  }

  // ---------------------------------------------------------------------------
  // Gender
  // ---------------------------------------------------------------------------

  /** The category-derived gender stated directly through slugs, mens first. */
  lemma CategoryGenderBySlug(categories: seq<Category>)
    ensures CategoryGender(Some(categories)) == Mens <==>
              exists i :: 0 <= i < |categories| && categories[i].slug in {"men", "mens"}
    ensures CategoryGender(Some(categories)) == Womens <==>
              (forall i :: 0 <= i < |categories| ==> categories[i].slug !in {"men", "mens"}) &&
              exists i :: 0 <= i < |categories| && categories[i].slug in {"women", "womens"}
    ensures CategoryGender(None) == Unisex && CategoryGender(Some([])) == Unisex
  {
    assert forall i :: 0 <= i < |categories| ==>
      (MapGender(categories[i].slug) == Mens <==> categories[i].slug in {"men", "mens"});
  }

  /** For a single category the two gender paths agree. */
  lemma SingleCategoryGender(c: Category)
    ensures CategoryGender(Some([c])) == MapGender(c.slug)
  {
    if MapGender(c.slug) == Mens {
      assert [c][0] == c;
    } else if MapGender(c.slug) == Womens {
      assert [c][0] == c;
    }
  }

  /** Mens wins over womens whatever the order of the categories. */
  lemma GenderExamples(c1: Category, c2: Category)
    requires c1.slug == "mens" && c2.slug == "women"
    ensures CategoryGender(Some([c1, c2])) == Mens
    ensures CategoryGender(Some([c2, c1])) == Mens
    ensures CategoryGender(Some([c2])) == Womens
  {
    assert [c1, c2][0] == c1;
    assert [c2, c1][1] == c1;
    assert [c2][0] == c2;
  }

  // ---------------------------------------------------------------------------
  // Categories
  // ---------------------------------------------------------------------------

  /** The expand mappers apply the single mapper's rule but leave `name` unset. */
  lemma ExpandOmitsName(deps: Deps, c: CategoriesResponse)
    ensures MapCategoryFromExpand(deps, Some(c)) == Some(MapRecordToCategory(deps, c).(name := None))
    ensures MapCategoriesFromExpand(deps, OneRecord(c)) == [MapRecordToCategory(deps, c).(name := None)]
    ensures MapCategoryFromExpand(deps, None) == None
  {
  }

  /** A lone record is mapped as the one-element list holding it. */
  lemma OneRecordIsList(deps: Deps, c: CategoriesResponse)
    ensures MapCategoriesFromExpand(deps, OneRecord(c)) == MapCategoriesFromExpand(deps, RecordList([Some(c)]))
  {
  }

  /** Filtering and mapping distribute over concatenation: the order of the entries is kept. */
  lemma {:induction false} PresentCategoriesAppend(deps: Deps, xs: seq<Option<CategoriesResponse>>, ys: seq<Option<CategoriesResponse>>)
    ensures MapPresentCategories(deps, xs + ys) == MapPresentCategories(deps, xs) + MapPresentCategories(deps, ys)
  {
    if |xs| > 0 {
      assert (xs + ys)[1..] == xs[1..] + ys;
      PresentCategoriesAppend(deps, xs[1..], ys);
    } else {
      assert xs + ys == ys;
    }
  }

  /** A null entry contributes nothing; a present one contributes its mapped view. */
  lemma PresentCategoriesSingle(deps: Deps, x: Option<CategoriesResponse>)
    ensures x.None? ==> MapPresentCategories(deps, [x]) == []
    ensures x.Some? ==> MapPresentCategories(deps, [x]) == [MapCategoryFromExpand(deps, x).value]
  {
  }

  /** Null entries anywhere in the list are dropped. */
  lemma NullEntriesDropped(deps: Deps, xs: seq<Option<CategoriesResponse>>, ys: seq<Option<CategoriesResponse>>)
    ensures MapCategoriesFromExpand(deps, RecordList(xs + [None] + ys)) == MapCategoriesFromExpand(deps, RecordList(xs + ys))
  {
    calc {
      MapPresentCategories(deps, xs + [None] + ys);
      { PresentCategoriesAppend(deps, xs + [None], ys); }
      MapPresentCategories(deps, xs + [None]) + MapPresentCategories(deps, ys);
      { PresentCategoriesAppend(deps, xs, [None]); PresentCategoriesSingle(deps, None); }
      MapPresentCategories(deps, xs) + MapPresentCategories(deps, ys);
      { PresentCategoriesAppend(deps, xs, ys); }
      MapPresentCategories(deps, xs + ys);
    }
  }

  /** Each category image is a URL under 'categories' exactly when the record names a file. */
  lemma CategoryImageRule(deps: Deps, c: CategoriesResponse)
    ensures MapRecordToCategory(deps, c).image ==
              (if Present(c.image) then Some(deps.getFileUrl("categories", c.id, c.image.value)) else None)
    ensures MapRecordToCategory(deps, c).image == ExpandedCategory(deps, c).image
  {
  }

  // ---------------------------------------------------------------------------
  // Variants
  // ---------------------------------------------------------------------------

  /** Mapping variant rows distributes over concatenation. */
  lemma {:induction false} MapVariantsAppend(deps: Deps, xs: seq<ProductVariantsResponse>, ys: seq<ProductVariantsResponse>)
    ensures MapVariants(deps, xs + ys) == MapVariants(deps, xs) + MapVariants(deps, ys)
  {
    if |xs| > 0 {
      assert (xs + ys)[1..] == xs[1..] + ys;
      MapVariantsAppend(deps, xs[1..], ys);
    } else {
      assert xs + ys == ys;
    }
  }

  /** A mapped variant contributes media to its colour exactly when one of its gallery URLs is non-empty. */
  lemma MappedVariantHasMedia(deps: Deps, r: ProductVariantsResponse)
    ensures HasMedia(MapVariant(deps, r)) <==>
              exists i :: 0 <= i < |GalleryNames(r)| && deps.getFileUrl(r.collectionId, r.id, GalleryNames(r)[i]) != ""
  {
    var v := MapVariant(deps, r);
    if HasMedia(v) {
      if Present(v.image) {
        assert deps.getFileUrl(r.collectionId, r.id, GalleryNames(r)[0]) != "";
      } else {
        var g := NonEmptyUrls(v.galleryImages);
        assert g[0] in g;
        var i :| 0 <= i < |v.galleryImages| && v.galleryImages[i] == g[0];
        assert deps.getFileUrl(r.collectionId, r.id, GalleryNames(r)[i]) != "";
      }
    } else {
      forall i | 0 <= i < |GalleryNames(r)|
        ensures deps.getFileUrl(r.collectionId, r.id, GalleryNames(r)[i]) == ""
      {
        assert v.galleryImages[i] in v.galleryImages;
      }
    }
  }
}
