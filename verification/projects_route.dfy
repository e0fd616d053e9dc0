/** GET /api/public/projects: the published projects, optionally only the
    featured ones, paginated and mapped to the public shape. */
module ProjectsRoute {
  import opened Js
  import opened Seqs
  import opened Listing
  import opened Media

  /** A stored project as the data-access layer returns it. */
  datatype Project = Project(
    id: string,
    title: string,
    slug: string,
    description: Nullable<string>,
    shortDescription: Nullable<string>,
    clientName: Nullable<string>,
    location: Nullable<string>,
    year: Nullable<int>,
    completionDate: Nullable<string>,
    featuredImage: Nullable<string>,
    images: Nullable<seq<string>>,
    tags: Nullable<seq<string>>,
    featured: Nullable<bool>)

  /** A project in the public response. */
  datatype PublicProject = PublicProject(
    id: string,
    title: string,
    slug: string,
    description: Option<string>,
    shortDescription: Option<string>,
    clientName: Option<string>,
    location: Option<string>,
    year: Option<int>,
    completionDate: Option<string>,
    featuredImage: Option<string>,
    featuredImageKey: Option<string>,
    images: seq<string>,
    tags: seq<string>,
    featured: bool,
    seoTitle: Option<string>,
    seoDescription: Option<string>)

  /** The record-to-public-shape mapping of the handler. */
  function ToPublic(p: Project, mediaUrl: string -> string): (r: PublicProject)
    ensures r.id == p.id && r.title == p.title && r.slug == p.slug
    ensures r.images == ImageUrls(p.images, mediaUrl)
    ensures TruthyString(p.featuredImage) ==> r.featuredImage == Some(mediaUrl(p.featuredImage.value))
    ensures !TruthyString(p.featuredImage) && |r.images| > 0 && r.images[0] != "" ==> r.featuredImage == Some(r.images[0])
    ensures !TruthyString(p.featuredImage) && (|r.images| == 0 || r.images[0] == "") ==> r.featuredImage == None
    ensures r.featuredImageKey.Some? <==> TruthyString(p.featuredImage)
    ensures r.featuredImageKey.Some? ==> p.featuredImage == Defined(r.featuredImageKey.value)
    ensures r.year == IntOrNull(p.year)
    ensures r.year.Some? <==> p.year.Defined? && p.year.value != 0
    ensures r.description == StringOrNull(p.description)
    ensures r.shortDescription == StringOrNull(p.shortDescription)
    ensures r.clientName == StringOrNull(p.clientName)
    ensures r.location == StringOrNull(p.location)
    ensures r.completionDate == StringOrNull(p.completionDate)
    ensures r.featured <==> p.featured == Defined(true)
    ensures p.tags.Defined? ==> r.tags == p.tags.value
    ensures !p.tags.Defined? ==> r.tags == []
    ensures r.seoTitle == None && r.seoDescription == None
  {
    var images := ImageUrls(p.images, mediaUrl);
    PublicProject(
      id := p.id,
      title := p.title,
      slug := p.slug,
      description := StringOrNull(p.description),
      shortDescription := StringOrNull(p.shortDescription),
      clientName := StringOrNull(p.clientName),
      location := StringOrNull(p.location),
      year := IntOrNull(p.year),
      completionDate := StringOrNull(p.completionDate),
      featuredImage := FeaturedImageUrl(p.featuredImage, images, mediaUrl),
      featuredImageKey := StringOrNull(p.featuredImage),
      images := images,
      tags := ArrayOrEmpty(p.tags),
      featured := BoolOrFalse(p.featured),
      seoTitle := None,
      seoDescription := None)
  }

  function PublicOf(mediaUrl: string -> string): Project -> PublicProject {
    (p: Project) => ToPublic(p, mediaUrl)
  }

  /** `p.featured === true` */
  predicate IsFeatured(p: Project) {
    p.featured == Defined(true)
  }

  /** A stored project satisfies the filter the query switches on. */
  predicate Matches(q: Query, p: Project) {
    FlagFilter(q.featured) ==> p.featured == Defined(true)
  }

  function MatchesQuery(q: Query): Project -> bool {
    (p: Project) => Matches(q, p)
  }

  /** The single filter of the handler is a filter by `Matches`. */
  lemma FilterProjectsMatches(projects: seq<Project>, q: Query)
    ensures (if FlagFilter(q.featured) then Filter(projects, IsFeatured) else projects)
         == Filter(projects, MatchesQuery(q))
  {
    FilterWhen(projects, FlagFilter(q.featured), IsFeatured, MatchesQuery(q));
  }

  /** The handler, given the published projects and the media URL helper. */
  function GetProjects(published: seq<Project>, mediaUrl: string -> string, q: Query): (r: ListResponse<PublicProject>)
    ensures r.success
    ensures r.meta.total == |Filter(published, MatchesQuery(q))|
    ensures !FlagFilter(q.featured) ==> r.meta.total == |published|
    ensures r.meta.limit == ParseLimit(q.limit) && r.meta.offset == ParseOffset(q.offset)
    ensures |r.data| <= r.meta.total
    ensures FlagFilter(q.featured) ==> forall i :: 0 <= i < |r.data| ==> r.data[i].featured
  {
    var filtered := if FlagFilter(q.featured) then Filter(published, IsFeatured) else published;
    FilterProjectsMatches(published, q);
    var page := ListPage(filtered, q);
    ListPageFrom(filtered, q);
    forall i | 0 <= i < |page.data|
      ensures Matches(q, page.data[i])
    {
      FilterMembership(published, MatchesQuery(q), page.data[i]);
    }
    MapResponse(page, PublicOf(mediaUrl))
  }

  /** The total counts the filtered projects and does not depend on `limit` or `offset`. */
  lemma ProjectsTotalIgnoresWindow(published: seq<Project>, mediaUrl: string -> string, q1: Query, q2: Query)
    requires q1.featured == q2.featured
    ensures GetProjects(published, mediaUrl, q1).meta.total == GetProjects(published, mediaUrl, q2).meta.total
  {
    FilterSamePredicate(published, MatchesQuery(q1), MatchesQuery(q2));
  }

  /** For a non-negative window, the response holds the public shapes of exactly the
      filtered projects from `offset` up to `offset + limit`, in order. */
  lemma ProjectsPageWindow(published: seq<Project>, mediaUrl: string -> string, q: Query, limit: int, offset: int)
    requires ParseLimit(q.limit) == Some(limit) && ParseOffset(q.offset) == Some(offset)
    requires limit >= 0
    ensures var filtered := Filter(published, MatchesQuery(q));
            var window := filtered[Min(offset, |filtered|)..Min(offset + limit, |filtered|)];
            GetProjects(published, mediaUrl, q).data == Seqs.Map(window, PublicOf(mediaUrl))
  {
    var filtered := if FlagFilter(q.featured) then Filter(published, IsFeatured) else published;
    FilterProjectsMatches(published, q);
    ListPageWindow(filtered, q, limit, offset);
  }
}
