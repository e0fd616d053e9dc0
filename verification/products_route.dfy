/** GET /api/public/products: the published products, filtered by `category`,
    `featured=true` and `in_stock=true`, paginated, and mapped to the public shape. */
module ProductsRoute {
  import opened Js
  import opened Seqs
  import opened Listing
  import opened Media

  /** A stored product as the data-access layer returns it. */
  datatype Product = Product(
    id: string,
    title: Nullable<string>,
    name: Nullable<string>,
    slug: Nullable<string>,
    description: Nullable<string>,
    category: Nullable<string>,
    subcategory: Nullable<string>,
    price: Nullable<real>,
    currency: Nullable<string>,
    featuredImage: Nullable<string>,
    images: Nullable<seq<string>>,
    tags: Nullable<seq<string>>,
    featured: Nullable<bool>,
    inStock: Nullable<bool>,
    specifications: Nullable<map<string, string>>,
    seoTitle: Nullable<string>,
    seoDescription: Nullable<string>,
    createdAt: string,
    updatedAt: string)

  /** A product in the public response. `title` and `category` are copied through and
      may be absent; every other optional field is a value or `null`. */
  datatype PublicProduct = PublicProduct(
    id: string,
    title: Nullable<string>,
    slug: string,
    description: Option<string>,
    category: Nullable<string>,
    subcategory: Option<string>,
    price: Option<real>,
    currency: string,
    featuredImage: Option<string>,
    images: seq<string>,
    tags: seq<string>,
    featured: bool,
    inStock: Option<bool>,
    specifications: Option<map<string, string>>,
    seoTitle: Option<string>,
    seoDescription: Option<string>,
    createdAt: string,
    updatedAt: string)

  const DefaultCurrency: string := "KES"

  /** The record-to-public-shape mapping of the handler. */
  function ToPublic(p: Product, mediaUrl: string -> string): (r: PublicProduct)
    ensures r.id == p.id && r.createdAt == p.createdAt && r.updatedAt == p.updatedAt
    ensures r.images == ImageUrls(p.images, mediaUrl)
    ensures TruthyString(p.featuredImage) ==> r.featuredImage == Some(mediaUrl(p.featuredImage.value))
    ensures !TruthyString(p.featuredImage) && |r.images| > 0 && r.images[0] != "" ==> r.featuredImage == Some(r.images[0])
    ensures !TruthyString(p.featuredImage) && (|r.images| == 0 || r.images[0] == "") ==> r.featuredImage == None
    ensures r.title == if TruthyString(p.title) then p.title else p.name
    ensures TruthyString(p.slug) ==> r.slug == p.slug.value
    ensures !TruthyString(p.slug) ==> r.slug == p.id
    ensures r.currency == if TruthyString(p.currency) then p.currency.value else DefaultCurrency
    ensures r.price == RealOrNull(p.price)
    ensures r.price.Some? <==> p.price.Defined? && p.price.value != 0.0
    ensures r.description == StringOrNull(p.description)
    ensures r.subcategory == StringOrNull(p.subcategory)
    ensures r.specifications == ObjectOrNull(p.specifications)
    ensures r.seoTitle == StringOrNull(p.seoTitle) && r.seoDescription == StringOrNull(p.seoDescription)
    ensures r.inStock == match p.inStock
                         case Undefined => Some(true)
                         case Null => None
                         case Defined(b) => Some(b)
    ensures r.featured <==> p.featured == Defined(true)
    ensures p.tags.Defined? ==> r.tags == p.tags.value
    ensures !p.tags.Defined? ==> r.tags == []
    ensures r.category == p.category
  {
    var images := ImageUrls(p.images, mediaUrl);
    PublicProduct(
      id := p.id,
      title := if TruthyString(p.title) then p.title else p.name,
      slug := if TruthyString(p.slug) then p.slug.value else p.id,
      description := StringOrNull(p.description),
      category := p.category,
      subcategory := StringOrNull(p.subcategory),
      price := RealOrNull(p.price),
      currency := if TruthyString(p.currency) then p.currency.value else DefaultCurrency,
      featuredImage := FeaturedImageUrl(p.featuredImage, images, mediaUrl),
      images := images,
      tags := ArrayOrEmpty(p.tags),
      featured := BoolOrFalse(p.featured),
      inStock := if p.inStock.Undefined? then Some(true)
                 else if p.inStock.Null? then None
                 else Some(p.inStock.value),
      specifications := ObjectOrNull(p.specifications),
      seoTitle := StringOrNull(p.seoTitle),
      seoDescription := StringOrNull(p.seoDescription),
      createdAt := p.createdAt,
      updatedAt := p.updatedAt)
  }

  function PublicOf(mediaUrl: string -> string): Product -> PublicProduct {
    (p: Product) => ToPublic(p, mediaUrl)
  }

  /** `p.category === category`: a missing or null category never matches. */
  function InCategory(category: string): Product -> bool {
    (p: Product) => p.category == Defined(category)
  }

  /** `p.featured === true` */
  predicate IsFeatured(p: Product) {
    p.featured == Defined(true)
  }

  /** `p.in_stock === true` */
  predicate IsInStock(p: Product) {
    p.inStock == Defined(true)
  }

  /** The three filters applied one after the other, as the handler does. */
  function FilterProducts(products: seq<Product>, category: Option<string>, featured: bool, inStock: bool): (r: seq<Product>)
    ensures |r| <= |products|
    ensures forall i :: 0 <= i < |r| ==> r[i] in products
    ensures forall i :: 0 <= i < |r| ==> (category.Some? ==> r[i].category == Defined(category.value))
    ensures featured ==> forall i :: 0 <= i < |r| ==> r[i].featured == Defined(true)
    ensures inStock ==> forall i :: 0 <= i < |r| ==> r[i].inStock == Defined(true)
  {
    var byCategory := if category.Some? then Filter(products, InCategory(category.value)) else products;
    var byFeatured := if featured then Filter(byCategory, IsFeatured) else byCategory;
    if inStock then Filter(byFeatured, IsInStock) else byFeatured
  }

  /** A stored product satisfies every filter the query switches on. */
  predicate Matches(q: Query, p: Product) {
    && (TextFilter(q.category).Some? ==> p.category == Defined(TextFilter(q.category).value))
    && (FlagFilter(q.featured) ==> p.featured == Defined(true))
    && (FlagFilter(q.inStock) ==> p.inStock == Defined(true))
  }

  function MatchesQuery(q: Query): Product -> bool {
    (p: Product) => Matches(q, p)
  }

  function CategoryPass(category: Option<string>): Product -> bool {
    (p: Product) => category.Some? ==> p.category == Defined(category.value)
  }

  function FeaturedPass(featured: bool): Product -> bool {
    (p: Product) => featured ==> p.featured == Defined(true)
  }

  function InStockPass(inStock: bool): Product -> bool {
    (p: Product) => inStock ==> p.inStock == Defined(true)
  }

  /** Each filter of the chain is a filter by its pass predicate. */
  lemma FilterChainSteps(products: seq<Product>, category: Option<string>, featured: bool, inStock: bool)
    ensures FilterProducts(products, category, featured, inStock)
         == Filter(Filter(Filter(products, CategoryPass(category)), FeaturedPass(featured)), InStockPass(inStock))
  {
    var byCategory := if category.Some? then Filter(products, InCategory(category.value)) else products;
    var byFeatured := if featured then Filter(byCategory, IsFeatured) else byCategory;
    FilterWhen(products, category.Some?, InCategory(category.GetOr("")), CategoryPass(category));
    FilterWhen(byCategory, featured, IsFeatured, FeaturedPass(featured));
    FilterWhen(byFeatured, inStock, IsInStock, InStockPass(inStock));
  }

  /** The filters compose as a conjunction: the chain keeps exactly the products
      matching every requested filter, in their original order. */
  lemma FilterProductsMatches(products: seq<Product>, q: Query)
    ensures FilterProducts(products, TextFilter(q.category), FlagFilter(q.featured), FlagFilter(q.inStock))
         == Filter(products, MatchesQuery(q))
  {
    var pc := CategoryPass(TextFilter(q.category));
    var pf := FeaturedPass(FlagFilter(q.featured));
    var ps := InStockPass(FlagFilter(q.inStock));
    FilterChainSteps(products, TextFilter(q.category), FlagFilter(q.featured), FlagFilter(q.inStock));
    FilterConjunction(products, pc, pf);
    FilterConjunction(products, And(pc, pf), ps);
    PassesAreMatches(products, q);
  }

  lemma PassesAreMatches(products: seq<Product>, q: Query)
    ensures Filter(products, And(And(CategoryPass(TextFilter(q.category)), FeaturedPass(FlagFilter(q.featured))),
                                 InStockPass(FlagFilter(q.inStock))))
         == Filter(products, MatchesQuery(q))
  {
    var pc := CategoryPass(TextFilter(q.category));
    var pf := FeaturedPass(FlagFilter(q.featured));
    var ps := InStockPass(FlagFilter(q.inStock));
    FilterSamePredicate(products, And(And(pc, pf), ps), MatchesQuery(q));
  }

  /** What the public shape shows of the filters: the copied category, `featured` and `in_stock`. */
  predicate PublicMatches(q: Query, r: PublicProduct) {
    && (TextFilter(q.category).Some? ==> r.category == Defined(TextFilter(q.category).value))
    && (FlagFilter(q.featured) ==> r.featured)
    && (FlagFilter(q.inStock) ==> r.inStock == Some(true))
  }

  /** The handler, given the published products and the media URL helper. */
  function GetProducts(published: seq<Product>, mediaUrl: string -> string, q: Query): (r: ListResponse<PublicProduct>)
    ensures r.success
    ensures r.meta.total == |Filter(published, MatchesQuery(q))|
    ensures r.meta.limit == ParseLimit(q.limit) && r.meta.offset == ParseOffset(q.offset)
    ensures |r.data| <= r.meta.total
    ensures forall i :: 0 <= i < |r.data| ==> PublicMatches(q, r.data[i])
  {
    var filtered := FilterProducts(published, TextFilter(q.category), FlagFilter(q.featured), FlagFilter(q.inStock));
    FilterProductsMatches(published, q);
    var page := ListPage(filtered, q);
    ListPageFrom(filtered, q);
    forall i | 0 <= i < |page.data|
      ensures Matches(q, page.data[i])
    {
      FilterMembership(published, MatchesQuery(q), page.data[i]);
    }
    MapResponse(page, PublicOf(mediaUrl))
  }

  /** The total counts the filtered products and does not depend on `limit` or `offset`. */
  lemma ProductsTotalIgnoresWindow(published: seq<Product>, mediaUrl: string -> string, q1: Query, q2: Query)
    requires q1.category == q2.category && q1.featured == q2.featured && q1.inStock == q2.inStock
    ensures GetProducts(published, mediaUrl, q1).meta.total == GetProducts(published, mediaUrl, q2).meta.total
  {
    FilterSamePredicate(published, MatchesQuery(q1), MatchesQuery(q2));
  }

  /** For a non-negative window, the response holds the public shapes of exactly the
      filtered products from `offset` up to `offset + limit`, in order. */
  lemma ProductsPageWindow(published: seq<Product>, mediaUrl: string -> string, q: Query, limit: int, offset: int)
    requires ParseLimit(q.limit) == Some(limit) && ParseOffset(q.offset) == Some(offset)
    requires limit >= 0
    ensures var filtered := Filter(published, MatchesQuery(q));
            var window := filtered[Min(offset, |filtered|)..Min(offset + limit, |filtered|)];
            GetProducts(published, mediaUrl, q).data == Seqs.Map(window, PublicOf(mediaUrl))
  {
    var filtered := FilterProducts(published, TextFilter(q.category), FlagFilter(q.featured), FlagFilter(q.inStock));
    FilterProductsMatches(published, q);
    ListPageWindow(filtered, q, limit, offset);
  }

  /** `in_stock` reports `true` for a product whose stock flag was never set, yet
      `in_stock=true` does not select it: the filter compares the stored value. */
  lemma InStockDefaultNotSelected(p: Product, mediaUrl: string -> string, q: Query)
    requires p.inStock == Undefined
    requires FlagFilter(q.inStock)
    ensures ToPublic(p, mediaUrl).inStock == Some(true)
    ensures Filter([p], MatchesQuery(q)) == []
  {
  }

  /** An explicit `in_stock: false` is kept, and a zero price is reported as null. */
  lemma FalsyValuesInPublicShape(p: Product, mediaUrl: string -> string)
    requires p.inStock == Defined(false) && p.price == Defined(0.0)
    ensures ToPublic(p, mediaUrl).inStock == Some(false)
    ensures ToPublic(p, mediaUrl).price == None
  {
  }
}
