/** What the projects page and the home-page projects section share: the project record,
    the category filter and the project card (featured highlight and live-site link). */
module ProjectCards {
  import Seqs

  datatype Project = Project(
    id: int,
    title: string,
    client: string,
    description: string,
    technologies: seq<string>,
    image: string,
    liveUrl: string,
    category: string)

  const AllCategory := "All"

  /** The placeholder URL of a project without a live site. */
  const NoLiveUrl := "#"

  /** The category buttons, in display order (both components declare the same list). */
  const Categories: seq<string> := [
    "All", "Corporate", "Creative", "E-commerce", "Web Application", "Mobile App", "Education"
  ]

  function ByCategory(category: string): Project -> bool {
    (p: Project) => p.category == category
  }

  /** `filteredProjects`: all of them for 'All', otherwise those of the active category. */
  function FilterProjects(projects: seq<Project>, category: string): seq<Project> {
    if category == AllCategory then projects else Seqs.Filter(projects, ByCategory(category))
  }

  /** A project is listed exactly when it is one of the projects and 'All' or its own
      category is active. */
  lemma FilterProjectsIff(projects: seq<Project>, category: string, p: Project)
    ensures p in FilterProjects(projects, category) <==>
      p in projects && (category == AllCategory || p.category == category)
  {
    Seqs.FilterMembership(projects, ByCategory(category), p);
  }

  /** The listed projects keep the order of the data. */
  lemma FilterProjectsOrdered(projects: seq<Project>, category: string)
    ensures Seqs.IsSubsequence(FilterProjects(projects, category), projects)
  {
    Seqs.FilterIsSubsequence(projects, ByCategory(category));
    if category == AllCategory {
      Seqs.FilterKeepsAll(projects, (p: Project) => true);
      Seqs.FilterIsSubsequence(projects, (p: Project) => true);
    }
  }

  /** A category lists nothing exactly when no project has it. */
  lemma FilterProjectsEmptyIff(projects: seq<Project>, category: string)
    requires category != AllCategory
    ensures FilterProjects(projects, category) == [] <==>
      forall i :: 0 <= i < |projects| ==> projects[i].category != category
  {
    Seqs.FilterEmptyIff(projects, ByCategory(category));
  }

  /** The first two clients are featured. */
  predicate IsFeatured(p: Project) { p.id <= 2 }

  /** The card's link: label, `target` and `rel`, decided by the URL alone. */
  datatype CardLink = CardLink(href: string, live: bool, caption: string, target: string, rel: string)

  /** The project card's highlight and link. */
  datatype Card = Card(border: string, badge: bool, link: CardLink)

  /** A real URL opens in a new tab as "Visit Live Site"; the placeholder is a disabled-looking
      "Coming Soon" link with neither `target` nor `rel`. */
  function LinkFor(url: string): (r: CardLink)
    ensures r.href == url
    ensures r.live <==> url != NoLiveUrl
    ensures r.live ==> r.caption == "Visit Live Site" && r.target == "_blank"
    ensures !r.live ==> r.caption == "Coming Soon" && r.target == "" && r.rel == ""
  {
    if url != NoLiveUrl then CardLink(url, true, "Visit Live Site", "_blank", "noopener noreferrer")
    else CardLink(url, false, "Coming Soon", "", "")
  }

  /** A featured project gets the yellow border and the "Featured Client" badge; any other
      one neither. */
  function CardFor(p: Project): (r: Card)
    ensures r.badge <==> IsFeatured(p)
    ensures r.border == (if IsFeatured(p) then "border-2 border-yellow-400" else "")
    ensures r.link == LinkFor(p.liveUrl)
  {
    Card(if IsFeatured(p) then "border-2 border-yellow-400" else "", IsFeatured(p), LinkFor(p.liveUrl))
  }

  /** No link opens a new tab without `noopener noreferrer`. */
  lemma NewTabIsIsolated(url: string)
    ensures LinkFor(url).target == "_blank" ==> LinkFor(url).rel == "noopener noreferrer"
  {
  }
}
