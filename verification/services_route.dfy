/** GET /api/public/services: a fixed, in-memory list of six services,
    filtered by `category` and `featured=true`, then paginated. */
module ServicesRoute {
  import opened Js
  import opened Seqs
  import opened Listing

  /** One service as the endpoint returns it. `icon` and `featured_image` are
      always null and `images` always empty in the static data, so they are not
      fields here; the `created_at`/`updated_at` timestamps are left out. */
  datatype Service = Service(
    id: string,
    title: string,
    slug: string,
    description: string,
    category: string,
    featured: bool)

  /** The static service list, in the order the endpoint holds it. */
  const AllServices: seq<Service> :=
    [ Service("interior-design", "Interior Design", "interior-design",
              "Bespoke interior design solutions that reflect your personality and lifestyle.",
              "design", true),
      Service("luxury-tiles", "Luxury Tiles", "luxury-tiles",
              "Premium tiles sourced from the finest manufacturers around the world.",
              "products", true),
      Service("project-management", "Project Management", "project-management",
              "End-to-end project execution with meticulous attention to detail.",
              "services", false),
      Service("custom-fabrication", "Custom Fabrication", "custom-fabrication",
              "Tailored solutions for unique design requirements.",
              "services", false),
      Service("design-consultation", "Design Consultation", "design-consultation",
              "Expert advice to help you make informed design decisions.",
              "consultation", true),
      Service("installation-warranty", "Installation & Warranty", "installation-warranty",
              "Professional installation with comprehensive warranty coverage.",
              "services", false) ]

  /** `s.category === category` */
  function InCategory(category: string): Service -> bool {
    (s: Service) => s.category == category
  }

  /** `s.featured === true` */
  predicate IsFeatured(s: Service) {
    s.featured == true
  }

  /** The two filters applied one after the other: category first, then featured. */
  function FilterServices(services: seq<Service>, category: Option<string>, featured: bool): (r: seq<Service>)
    ensures |r| <= |services|
    ensures forall i :: 0 <= i < |r| ==> r[i] in services
    ensures forall i :: 0 <= i < |r| ==> (category.Some? ==> r[i].category == category.value)
    ensures featured ==> forall i :: 0 <= i < |r| ==> r[i].featured
  {
    var byCategory := if category.Some? then Filter(services, InCategory(category.value)) else services;
    if featured then Filter(byCategory, IsFeatured) else byCategory
  }

  /** A service satisfies every filter the query switches on. */
  predicate Matches(q: Query, s: Service) {
    && (TextFilter(q.category).Some? ==> s.category == TextFilter(q.category).value)
    && (FlagFilter(q.featured) ==> s.featured)
  }

  function MatchesQuery(q: Query): Service -> bool {
    (s: Service) => Matches(q, s)
  }

  function CategoryPass(category: Option<string>): Service -> bool {
    (s: Service) => category.Some? ==> s.category == category.value
  }

  function FeaturedPass(featured: bool): Service -> bool {
    (s: Service) => featured ==> s.featured
  }

  /** Applying the filters in sequence keeps exactly the services matching all of them, in order. */
  lemma FilterServicesMatches(services: seq<Service>, q: Query)
    ensures FilterServices(services, TextFilter(q.category), FlagFilter(q.featured))
         == Filter(services, MatchesQuery(q))
  {
    var category := TextFilter(q.category);
    var featured := FlagFilter(q.featured);
    var byCategory := if category.Some? then Filter(services, InCategory(category.value)) else services;
    FilterWhen(services, category.Some?, InCategory(category.GetOr("")), CategoryPass(category));
    FilterWhen(byCategory, featured, IsFeatured, FeaturedPass(featured));
    FilterConjunction(services, CategoryPass(category), FeaturedPass(featured));
    FilterSamePredicate(services, And(CategoryPass(category), FeaturedPass(featured)), MatchesQuery(q));
  }

  /** The handler's logic over a given service list. */
  function GetServicesFrom(services: seq<Service>, q: Query): (r: ListResponse<Service>)
    ensures r.success
    ensures r.meta.total == |Filter(services, MatchesQuery(q))|
    ensures forall i :: 0 <= i < |r.data| ==> Matches(q, r.data[i]) && r.data[i] in services
    ensures r.meta.limit == ParseLimit(q.limit) && r.meta.offset == ParseOffset(q.offset)
  {
    var filtered := FilterServices(services, TextFilter(q.category), FlagFilter(q.featured));
    FilterServicesMatches(services, q);
    var r := ListPage(filtered, q);
    ListPageFrom(filtered, q);
    forall i | 0 <= i < |r.data|
      ensures Matches(q, r.data[i]) && r.data[i] in services
    {
      FilterMembership(services, MatchesQuery(q), r.data[i]);
    }
    r
  }

  /** GET /api/public/services. */
  function GetServices(q: Query): (r: ListResponse<Service>)
    ensures r.success
    ensures r.meta.total == |Filter(AllServices, MatchesQuery(q))| && r.meta.total <= |AllServices|
    ensures r.meta.limit == ParseLimit(q.limit) && r.meta.offset == ParseOffset(q.offset)
    ensures forall i :: 0 <= i < |r.data| ==> Matches(q, r.data[i]) && r.data[i] in AllServices
  {
    GetServicesFrom(AllServices, q)
  }

  /** The total counts the filtered services and does not depend on `limit` or `offset`. */
  lemma ServicesTotalIgnoresWindow(services: seq<Service>, q1: Query, q2: Query)
    requires q1.category == q2.category && q1.featured == q2.featured
    ensures GetServicesFrom(services, q1).meta.total == GetServicesFrom(services, q2).meta.total
  {
    FilterSamePredicate(services, MatchesQuery(q1), MatchesQuery(q2));
  }

  /** For a non-negative window, the page is exactly the filtered services from
      `offset` up to `offset + limit`, in their original order. */
  lemma ServicesPageWindow(services: seq<Service>, q: Query, limit: int, offset: int)
    requires ParseLimit(q.limit) == Some(limit) && ParseOffset(q.offset) == Some(offset)
    requires limit >= 0
    ensures var filtered := Filter(services, MatchesQuery(q));
            GetServicesFrom(services, q).data == filtered[Min(offset, |filtered|)..Min(offset + limit, |filtered|)]
  {
    FilterServicesMatches(services, q);
    ListPageWindow(FilterServices(services, TextFilter(q.category), FlagFilter(q.featured)), q, limit, offset);
  }

  /** An empty `category` behaves exactly like a missing one. */
  lemma EmptyCategoryIsNoFilter(services: seq<Service>, q: Query)
    requires q.category == Some("")
    ensures GetServicesFrom(services, q) == GetServicesFrom(services, q.(category := None))
  {
  }

  /** `featured=false` (or any text other than "true") does not select non-featured services:
      it gives the same response as leaving the parameter out. */
  lemma FeaturedOnlyTrueFilters(services: seq<Service>, q: Query)
    requires q.featured != Some("true")
    ensures GetServicesFrom(services, q) == GetServicesFrom(services, q.(featured := None))
  {
  }

  lemma FeaturedServices()
    ensures Filter(AllServices, IsFeatured) == [AllServices[0], AllServices[1], AllServices[4]]
  {
    var all := AllServices;
    assert Filter(all[5..], IsFeatured) == [];
    assert Filter(all[4..], IsFeatured) == [all[4]];
    assert Filter(all[3..], IsFeatured) == [all[4]];
    assert Filter(all[2..], IsFeatured) == [all[4]];
    assert Filter(all[1..], IsFeatured) == [all[1], all[4]];
  }

  lemma ServicesCategory()
    ensures Filter(AllServices, InCategory("services")) == [AllServices[2], AllServices[3], AllServices[5]]
  {
    var all := AllServices;
    var p := InCategory("services");
    assert Filter(all[5..], p) == [all[5]];
    assert Filter(all[4..], p) == [all[5]];
    assert Filter(all[3..], p) == [all[3], all[5]];
    assert Filter(all[2..], p) == [all[2], all[3], all[5]];
    assert Filter(all[1..], p) == [all[2], all[3], all[5]];
  }

  /** On the static data: six services in all, three featured, three in category "services". */
  lemma StaticTotalAll()
    ensures GetServices(Query(None, None, None, None, None)).meta.total == 6
  {
    var q := Query(None, None, None, None, None);
    FilterServicesMatches(AllServices, q);
    assert FilterServices(AllServices, TextFilter(q.category), FlagFilter(q.featured)) == AllServices;
  }

  lemma StaticTotalFeatured()
    ensures GetServices(Query(None, None, None, Some("true"), None)).meta.total == 3
  {
    var q := Query(None, None, None, Some("true"), None);
    FilterServicesMatches(AllServices, q);
    FeaturedServices();
    assert FilterServices(AllServices, TextFilter(q.category), FlagFilter(q.featured))
        == Filter(AllServices, IsFeatured);
  }

  lemma StaticTotalCategory()
    ensures GetServices(Query(None, None, Some("services"), None, None)).meta.total == 3
  {
    var q := Query(None, None, Some("services"), None, None);
    FilterServicesMatches(AllServices, q);
    ServicesCategory();
    assert FilterServices(AllServices, TextFilter(q.category), FlagFilter(q.featured))
        == Filter(AllServices, InCategory("services"));
  }
}
