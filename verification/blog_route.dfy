/** GET /api/public/blog: every published post, paginated without any filter,
    and mapped to the public shape. */
module BlogRoute {
  import opened Js
  import opened Seqs
  import opened Listing

  /** A stored blog post as the data-access layer returns it. */
  datatype Post = Post(
    id: string,
    title: string,
    slug: string,
    excerpt: Nullable<string>,
    content: string,
    featuredImage: Nullable<string>,
    tags: Nullable<seq<string>>,
    category: Nullable<string>,
    published: bool,
    publishedAt: Nullable<string>,
    publishDate: Nullable<string>,
    readTime: Nullable<int>,
    seoTitle: Nullable<string>,
    seoDescription: Nullable<string>)

  /** A post in the public response. */
  datatype PublicPost = PublicPost(
    id: string,
    title: string,
    slug: string,
    excerpt: Option<string>,
    content: string,
    featuredImage: Option<string>,
    featuredImageKey: Option<string>,
    images: seq<string>,
    tags: seq<string>,
    category: Option<string>,
    published: bool,
    publishedAt: Option<string>,
    readTime: Option<int>,
    seoTitle: Option<string>,
    seoDescription: Option<string>)

  /** The record-to-public-shape mapping of the handler. */
  function ToPublic(p: Post, mediaUrl: string -> string): (r: PublicPost)
    ensures r.id == p.id && r.title == p.title && r.slug == p.slug
    ensures r.content == p.content && r.published == p.published
    ensures r.images == []
    ensures TruthyString(p.featuredImage) ==> r.featuredImage == Some(mediaUrl(p.featuredImage.value))
    ensures !TruthyString(p.featuredImage) ==> r.featuredImage == None
    ensures r.featuredImageKey.Some? <==> TruthyString(p.featuredImage)
    ensures r.featuredImageKey.Some? ==> p.featuredImage == Defined(r.featuredImageKey.value)
    ensures TruthyString(p.publishedAt) ==> r.publishedAt == Some(p.publishedAt.value)
    ensures !TruthyString(p.publishedAt) && TruthyString(p.publishDate) ==> r.publishedAt == Some(p.publishDate.value)
    ensures !TruthyString(p.publishedAt) && !TruthyString(p.publishDate) ==> r.publishedAt == None
    ensures r.excerpt == StringOrNull(p.excerpt) && r.category == StringOrNull(p.category)
    ensures r.readTime == IntOrNull(p.readTime)
    ensures r.seoTitle == StringOrNull(p.seoTitle) && r.seoDescription == StringOrNull(p.seoDescription)
    ensures p.tags.Defined? ==> r.tags == p.tags.value
    ensures !p.tags.Defined? ==> r.tags == []
  {
    PublicPost(
      id := p.id,
      title := p.title,
      slug := p.slug,
      excerpt := StringOrNull(p.excerpt),
      content := p.content,
      featuredImage := if TruthyString(p.featuredImage) then Some(mediaUrl(p.featuredImage.value)) else None,
      featuredImageKey := StringOrNull(p.featuredImage),
      images := [],
      tags := ArrayOrEmpty(p.tags),
      category := StringOrNull(p.category),
      published := p.published,
      publishedAt := if TruthyString(p.publishedAt) then Some(p.publishedAt.value)
                     else StringOrNull(p.publishDate),
      readTime := IntOrNull(p.readTime),
      seoTitle := StringOrNull(p.seoTitle),
      seoDescription := StringOrNull(p.seoDescription))
  }

  function PublicOf(mediaUrl: string -> string): Post -> PublicPost {
    (p: Post) => ToPublic(p, mediaUrl)
  }

  /** The handler, given the published posts and the media URL helper. */
  function GetPosts(published: seq<Post>, mediaUrl: string -> string, q: Query): (r: ListResponse<PublicPost>)
    ensures r.success
    ensures r.meta.total == |published|
    ensures r.meta.limit == ParseLimit(q.limit) && r.meta.offset == ParseOffset(q.offset)
    ensures |r.data| <= |published|
    ensures forall i :: 0 <= i < |r.data| ==> r.data[i].images == []
  {
    MapResponse(ListPage(published, q), PublicOf(mediaUrl))
  }

  /** For a non-negative window, the response holds the public shapes of exactly the
      posts from `offset` up to `offset + limit`, in order; the other parameters are ignored. */
  lemma PostsPageWindow(published: seq<Post>, mediaUrl: string -> string, q: Query, limit: int, offset: int)
    requires ParseLimit(q.limit) == Some(limit) && ParseOffset(q.offset) == Some(offset)
    requires limit >= 0
    ensures GetPosts(published, mediaUrl, q).data
         == Seqs.Map(published[Min(offset, |published|)..Min(offset + limit, |published|)], PublicOf(mediaUrl))
  {
    ListPageWindow(published, q, limit, offset);
  }

  /** Filter parameters have no effect on the blog list. */
  lemma PostsIgnoreFilters(published: seq<Post>, mediaUrl: string -> string, q: Query)
    ensures GetPosts(published, mediaUrl, q)
         == GetPosts(published, mediaUrl, q.(category := None, featured := None, inStock := None))
  {
  }
}
