/** The projects section of the home page (`src/components/ProjectsSection.tsx`): the same
    category buttons over the first three web projects, with no empty state. */
module ProjectsSection {
  import opened ProjectCards
  import ProjectsPage
  import Seqs

  /** The section's data is the first three projects of the projects page. */
  const SectionProjects: seq<Project> := ProjectsPage.WebProjects[..3]

  /** The three categories the section has a project for list exactly that project. */
  lemma CoveredCategories()
    ensures FilterProjects(SectionProjects, "Corporate") == [SectionProjects[0]]
    ensures FilterProjects(SectionProjects, "Creative") == [SectionProjects[1]]
    ensures FilterProjects(SectionProjects, "E-commerce") == [SectionProjects[2]]
  {
    Seqs.FilterUnique(SectionProjects, ByCategory("Corporate"), 0);
    Seqs.FilterUnique(SectionProjects, ByCategory("Creative"), 1);
    Seqs.FilterUnique(SectionProjects, ByCategory("E-commerce"), 2);
  }

  /** Three of its buttons list nothing, and the section then shows an empty grid. */
  lemma UncoveredCategories()
    ensures forall c :: c in ["Web Application", "Mobile App", "Education"] ==>
      c in Categories && FilterProjects(SectionProjects, c) == []
  {
    forall c | c in ["Web Application", "Mobile App", "Education"]
      ensures FilterProjects(SectionProjects, c) == []
    {
      FilterProjectsEmptyIff(SectionProjects, c);
    }
  }

  class Section {
    var activeCategory: string

    constructor ()
      ensures activeCategory == AllCategory && Listed() == SectionProjects
    {
      activeCategory := AllCategory;
    }

    function Listed(): seq<Project>
      reads this
    {
      FilterProjects(SectionProjects, activeCategory)
    }

    /** A category button. */
    method SelectCategory(category: string)
      modifies this
      ensures activeCategory == category
    {
      activeCategory := category;
    }
  }
}
