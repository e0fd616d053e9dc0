/** The work page: a fixed portfolio list filtered on the client by a category tab. */
module WorkPage {
  import opened Seqs

  datatype Project = Project(
    id: int,
    title: string,
    category: string,
    location: string,
    year: int,
    tags: seq<string>,
    image: string)

  /** The category tabs; the selected category is always one of these. */
  const Categories: seq<string> :=
    ["All", "Residential", "Commercial", "Hospitality", "Luxury"]

  /** The portfolio, in the order the page lists it. */
  const Projects: seq<Project> :=
    [ Project(1, "Modern Villa Retreat", "Residential", "Karen, Nairobi", 2024,
              ["Luxury", "Modern", "Villa"], "/projects/villa-1.jpg"),
      Project(2, "Urban Penthouse", "Residential", "Westlands, Nairobi", 2024,
              ["Contemporary", "Penthouse"], "/projects/penthouse.jpg"),
      Project(3, "Boutique Hotel Lobby", "Hospitality", "Mombasa", 2023,
              ["Luxury", "Hotel", "Hospitality"], "/projects/hotel.jpg"),
      Project(4, "Corporate Office Suite", "Commercial", "Upper Hill, Nairobi", 2023,
              ["Modern", "Office", "Commercial"], "/projects/office.jpg"),
      Project(5, "Luxury Apartment", "Residential", "Kilimani, Nairobi", 2023,
              ["Luxury", "Apartment"], "/projects/apartment.jpg"),
      Project(6, "Restaurant Interior", "Commercial", "Gigiri, Nairobi", 2024,
              ["Restaurant", "Hospitality"], "/projects/restaurant.jpg") ]

  const InitialCategory: string := "All"

  function InCategory(category: string): Project -> bool {
    (p: Project) => p.category == category
  }

  /** `filteredProjects` over a given list: "All" shows the list as it is, any other
      tab only the projects whose category is exactly that tab. */
  function FilterProjects(projects: seq<Project>, category: string): (r: seq<Project>)
    ensures |r| <= |projects|
    ensures category != "All" ==> forall i :: 0 <= i < |r| ==> r[i].category == category
  {
    if category == "All" then projects else Filter(projects, InCategory(category))
  }

  function FilteredProjects(category: string): (r: seq<Project>)
    ensures |r| <= |Projects|
    ensures category == "All" ==> r == Projects
    ensures category != "All" ==> forall i :: 0 <= i < |r| ==> r[i].category == category
  {
    FilterProjects(Projects, category)
  }

  /** A project is shown exactly when the tab is "All" or names its category. */
  lemma FilterProjectsMembership(projects: seq<Project>, category: string, p: Project)
    ensures p in FilterProjects(projects, category)
        <==> p in projects && (category == "All" || p.category == category)
  {
    if category != "All" {
      FilterMembership(projects, InCategory(category), p);
    }
  }

  /** The shown projects keep the order of the list, and "All" shows all of them. */
  lemma FilterProjectsOrder(projects: seq<Project>, category: string)
    ensures IsSubsequence(FilterProjects(projects, category), projects)
    ensures category == "All" ==> FilterProjects(projects, category) == projects
  {
    if category == "All" {
      IsSubsequenceReflexive(projects);
    } else {
      FilterIsSubsequence(projects, InCategory(category));
    }
  }

  /** Initially, on the "All" tab, every project is shown in list order. */
  lemma InitialShowsAll()
    ensures FilteredProjects(InitialCategory) == Projects
  {
  }

  /** The "Residential" tab shows projects 1, 2 and 5, in that order. */
  lemma ResidentialProjects()
    ensures FilteredProjects("Residential") == [Projects[0], Projects[1], Projects[4]]
    ensures FilteredProjects("Residential")[2].id == 5
  {
    var all := Projects;
    var p := InCategory("Residential");
    assert Filter(all[5..], p) == [];
    assert Filter(all[4..], p) == [all[4]];
    assert Filter(all[3..], p) == [all[4]];
    assert Filter(all[2..], p) == [all[4]];
    assert Filter(all[1..], p) == [all[1], all[4]];
  }

  /** The "Luxury" tab shows nothing although three projects carry a "Luxury" tag:
      the filter compares the category, never the tags. */
  lemma LuxuryTabIsEmpty()
    ensures "Luxury" in Categories
    ensures "Luxury" in Projects[0].tags && "Luxury" in Projects[2].tags && "Luxury" in Projects[4].tags
    ensures FilteredProjects("Luxury") == []
  {
    var all := Projects;
    forall i | 0 <= i < |all|
      ensures !InCategory("Luxury")(all[i])
    {
    }
    FilterKeepsNone(all, InCategory("Luxury"));
  }
}
