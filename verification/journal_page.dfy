/** The journal page: a fixed list of articles, filtered on the client by a
    case-insensitive search over title and excerpt combined with a category
    tab, and a featured article picked independently of either. */
module JournalPage {
  import opened Js
  import opened Seqs

  datatype Article = Article(
    id: int,
    title: string,
    excerpt: string,
    author: string,
    date: string,
    readTime: string,
    category: string,
    featured: bool,
    image: string)

  /** The articles, in the order the page lists them. */
  const Articles: seq<Article> :=
    [ Article(1, "2025 Tile Trends: What's Hot in Luxury Interiors",
              "Discover the latest trends shaping luxury interior design this year.",
              "Sarah Kamau", "2024-11-15", "5 min read", "Trends", true, "/blog/trends-2025.jpg"),
      Article(2, "Marble vs. Porcelain: Making the Right Choice",
              "A comprehensive guide to choosing between marble and porcelain tiles.",
              "David Ochieng", "2024-11-10", "7 min read", "Guides", false, "/blog/marble-porcelain.jpg"),
      Article(3, "Transforming Small Spaces with Strategic Tile Selection",
              "Expert tips for making small spaces feel larger through design.",
              "Amina Hassan", "2024-11-05", "6 min read", "Tips", true, "/blog/small-spaces.jpg"),
      Article(4, "Sustainable Materials in Modern Interior Design",
              "How eco-friendly materials are reshaping luxury interiors.",
              "James Mwangi", "2024-10-28", "8 min read", "Sustainability", false, "/blog/sustainable.jpg"),
      Article(5, "The Art of Mixing Patterns and Textures",
              "Master the skill of combining different tiles for stunning effects.",
              "Sarah Kamau", "2024-10-20", "6 min read", "Design", false, "/blog/patterns.jpg"),
      Article(6, "Maintaining Your Luxury Tiles: A Complete Guide",
              "Everything you need to know about caring for premium tiles.",
              "David Ochieng", "2024-10-15", "5 min read", "Maintenance", false, "/blog/maintenance.jpg") ]

  /** The category tabs; the selected category is always one of these. */
  const Categories: seq<string> :=
    ["All", "Trends", "Guides", "Tips", "Design", "Sustainability"]

  const InitialQuery: string := ""
  const InitialCategory: string := "All"

  /** The search part of the filter: an empty query matches everything, otherwise the
      lower-cased query must occur in the lower-cased title or excerpt. */
  predicate MatchesSearch(query: string, a: Article) {
    || query == ""
    || Includes(ToLower(a.title), ToLower(query))
    || Includes(ToLower(a.excerpt), ToLower(query))
  }

  /** The category part of the filter: "All" matches everything. */
  predicate MatchesCategory(category: string, a: Article) {
    category == "All" || a.category == category
  }

  function Keeps(query: string, category: string): Article -> bool {
    (a: Article) => MatchesSearch(query, a) && MatchesCategory(category, a)
  }

  function SearchOnly(query: string): Article -> bool {
    (a: Article) => MatchesSearch(query, a)
  }

  function CategoryOnly(category: string): Article -> bool {
    (a: Article) => a.category == category
  }

  /** The page's filter over a given article list. */
  function FilterArticles(articles: seq<Article>, query: string, category: string): (r: seq<Article>)
    ensures |r| <= |articles|
    ensures forall i :: 0 <= i < |r| ==> MatchesSearch(query, r[i]) && MatchesCategory(category, r[i])
  {
    Filter(articles, Keeps(query, category))
  }

  /** `filteredArticles` for the current search text and selected category. */
  function FilteredArticles(query: string, category: string): (r: seq<Article>)
    ensures |r| <= |Articles|
    ensures forall i :: 0 <= i < |r| ==> r[i] in Articles
    ensures forall i :: 0 <= i < |r| ==> MatchesSearch(query, r[i]) && MatchesCategory(category, r[i])
  {
    FilterArticles(Articles, query, category)
  }

  predicate IsFeatured(a: Article) {
    a.featured
  }

  /** `featuredArticle`: the first featured article, if any. */
  function FeaturedArticle(): (r: Option<Article>)
    ensures r.None? <==> forall i :: 0 <= i < |Articles| ==> !Articles[i].featured
    ensures r.Some? ==> r.value.featured && r.value in Articles
  {
    Find(Articles, IsFeatured)
  }

  /** An article is shown exactly when it is in the list and passes both parts of the filter. */
  lemma FilterArticlesMembership(articles: seq<Article>, query: string, category: string, a: Article)
    ensures a in FilterArticles(articles, query, category)
        <==> a in articles && MatchesSearch(query, a) && MatchesCategory(category, a)
  {
    FilterMembership(articles, Keeps(query, category), a);
  }

  /** The shown articles keep the order of the list. */
  lemma FilteredIsSubsequence(articles: seq<Article>, query: string, category: string)
    ensures IsSubsequence(FilterArticles(articles, query, category), articles)
  {
    FilterIsSubsequence(articles, Keeps(query, category));
  }

  /** With an empty search the category tab alone decides. */
  lemma EmptyQueryNoRestriction(articles: seq<Article>, category: string)
    ensures category == "All" ==> FilterArticles(articles, "", category) == articles
    ensures category != "All" ==> FilterArticles(articles, "", category) == Filter(articles, CategoryOnly(category))
  {
    if category == "All" {
      FilterKeepsAll(articles, Keeps("", category));
    } else {
      FilterSamePredicate(articles, Keeps("", category), CategoryOnly(category));
    }
  }

  /** Under "All" the search alone decides. */
  lemma AllNoRestriction(articles: seq<Article>, query: string)
    ensures FilterArticles(articles, query, "All") == Filter(articles, SearchOnly(query))
  {
    FilterSamePredicate(articles, Keeps(query, "All"), SearchOnly(query));
  }

  /** For a non-empty query, every shown article holds the lower-cased query in its
      lower-cased title or excerpt, at some position. */
  lemma ShownArticlesContainQuery(articles: seq<Article>, query: string, category: string, i: int)
    requires query != ""
    requires 0 <= i < |FilterArticles(articles, query, category)|
    ensures var a := FilterArticles(articles, query, category)[i];
            ((exists k :: OccursAt(ToLower(a.title), ToLower(query), k))
             || (exists k :: OccursAt(ToLower(a.excerpt), ToLower(query), k)))
  {
    var a := FilterArticles(articles, query, category)[i];
    IncludesIff(ToLower(a.title), ToLower(query));
    IncludesIff(ToLower(a.excerpt), ToLower(query));
  }

  /** The search does not distinguish upper from lower case in the query. */
  lemma SearchIgnoresCase(articles: seq<Article>, query: string, category: string)
    ensures FilterArticles(articles, ToLower(query), category) == FilterArticles(articles, query, category)
  {
    ToLowerIdempotent(query);
    assert ToLower(query) == "" <==> query == "";
    FilterSamePredicate(articles, Keeps(ToLower(query), category), Keeps(query, category));
  }

  /** The featured article is the first one (id 1), whatever is searched or selected. */
  lemma FeaturedArticleIsFirst()
    ensures FeaturedArticle() == Some(Articles[0])
    ensures FeaturedArticle().value.id == 1
  {
  }

  /** An article whose category no tab offers is shown only under "All". */
  lemma UntabbedOnlyUnderAll(articles: seq<Article>, query: string, category: string, a: Article)
    requires category in Categories
    requires a.category !in Categories
    ensures a in FilterArticles(articles, query, category) ==> category == "All"
  {
    FilterArticlesMembership(articles, query, category, a);
  }

  /** The "Maintenance" article has a category no tab offers: for every selectable
      category it is shown only under "All", where an empty search does show it. */
  lemma MaintenanceOnlyUnderAll(query: string, category: string)
    requires category in Categories
    ensures Articles[5] in FilteredArticles(query, category) ==> category == "All"
    ensures Articles[5] in FilteredArticles("", "All")
  {
    var all := Articles;
    assert all[5].category == "Maintenance";
    UntabbedOnlyUnderAll(all, query, category, all[5]);
    EmptyQueryNoRestriction(all, "All");
  }

  /** Initially, with no search and the "All" tab, every article is shown. */
  lemma InitialShowsAll()
    ensures FilteredArticles(InitialQuery, InitialCategory) == Articles
  {
    EmptyQueryNoRestriction(Articles, InitialCategory);
  }
}
