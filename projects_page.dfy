/** The projects page (`src/app/projects/page.tsx`): a tab switch between the web projects
    and the graphics portfolio, a category filter over six web projects and an empty state
    that resets the filter. */
module ProjectsPage {
  import opened ProjectCards

  const WebProjects: seq<Project> := [
    Project(1, "Mammot Digital Marketing", "Mammot",
      "A professional digital marketing agency website with modern UI, comprehensive service showcases, and interactive portfolio display.",
      ["Next.js", "TailwindCSS", "Framer Motion", "Responsive Design"],
      "/images/projects/corporate.jpg", "https://mammot.vercel.app/", "Corporate"),
    Project(2, "Revontulia", "Revontulia",
      "Minimalist and elegant website with creative animations and stunning visual design for enhanced user experience.",
      ["React", "CSS Animations", "Modern UI/UX"],
      "/images/projects/creative.jpg", "https://www.revontulia.com/", "Creative"),
    Project(3, "E-commerce Platform", "StyleShop",
      "A fully responsive e-commerce platform with advanced filtering, shopping cart, and secure payment integration.",
      ["Next.js", "Tailwind CSS", "Stripe", "MongoDB"],
      "/images/projects/ecommerce.jpg", "#", "E-commerce"),
    Project(4, "Real Estate Marketplace", "PropertyFinder",
      "Property listing application with search functionality, map integration, and agent contact forms.",
      ["React", "Node.js", "Express", "PostgreSQL"],
      "/images/projects/realestate.jpg", "#", "Web Application"),
    Project(5, "Educational Platform", "LearnHub",
      "Online learning platform with course management, video lessons, progress tracking, and certification.",
      ["Vue.js", "Firebase", "TailwindCSS"],
      "/images/projects/education.jpg", "#", "Education"),
    Project(6, "Health & Fitness Tracker", "FitLife",
      "Personalized fitness application with workout plans, nutrition tracking, and progress visualization.",
      ["React Native", "Redux", "Node.js", "MongoDB"],
      "/images/projects/fitness.jpg", "#", "Mobile App")
  ]

  /** The two tabs. */
  datatype Tab = Web | Graphics

  /** Exactly the featured clients have a live site. */
  lemma FeaturedAreLive()
    ensures forall p :: p in WebProjects ==> (IsFeatured(p) <==> LinkFor(p.liveUrl).live)
  {
  }

  /** Every category button lists at least one project, so the empty state cannot be reached
      from the buttons. */
  lemma EveryButtonSelectsSomething()
    ensures forall c :: c in Categories ==> FilterProjects(WebProjects, c) != []
  {
    var witnesses := map[
      "Corporate" := 0, "Creative" := 1, "E-commerce" := 2, "Web Application" := 3,
      "Education" := 4, "Mobile App" := 5];
    forall c | c in Categories ensures FilterProjects(WebProjects, c) != [] {
      if c != AllCategory {
        assert c in witnesses;
        FilterProjectsIff(WebProjects, c, WebProjects[witnesses[c]]);
      }
    }
  }

  class Page {
    var activeTab: Tab
    var activeCategory: string

    constructor ()
      ensures activeTab == Web && activeCategory == AllCategory
    {
      activeTab := Web;
      activeCategory := AllCategory;
    }

    /** The cards of the web tab. */
    function Listed(): seq<Project>
      reads this
    {
      FilterProjects(WebProjects, activeCategory)
    }

    /** "No projects found in this category." shows on the web tab when nothing is listed. */
    predicate EmptyStateShown()
      reads this
    {
      activeTab == Web && Listed() == []
    }

    /** The tab buttons; the category survives a tab switch. */
    method SelectTab(tab: Tab)
      modifies this`activeTab
      ensures activeTab == tab
    {
      activeTab := tab;
    }

    /** A category button. */
    method SelectCategory(category: string)
      modifies this`activeCategory
      ensures activeCategory == category
      ensures category in Categories ==> !EmptyStateShown()
    {
      activeCategory := category;
      EveryButtonSelectsSomething();
    }

    /** "Show All Projects" in the empty state: back to every project. */
    method ShowAll()
      modifies this`activeCategory
      ensures activeCategory == AllCategory && Listed() == WebProjects && !EmptyStateShown()
    {
      activeCategory := AllCategory;
    }
  }
}
