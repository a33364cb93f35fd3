/** The software catalog page (`src/app/software-catalog/page.tsx`): a fixed list of
    products narrowed by a category button and a case-insensitive text search. */
module SoftwareCatalog {
  import Seqs
  import Text

  datatype Software = Software(
    id: nat,
    name: string,
    provider: string,
    category: string,
    description: string,
    price: string,
    period: string,
    features: seq<string>,
    popular: bool,
    logoColor: string)

  /** A filter button: the category id it selects and its caption. */
  datatype Category = Category(id: string, caption: string)

  /** The category id that switches the category filter off. */
  const AllId := "all"

  const SoftwareData: seq<Software> := [
    Software(1, "Microsoft 365 Business Basic", "Microsoft", "productivity",
      "Web and mobile versions of Office apps with email, file storage, and online meetings",
      "$6.00", "user/month",
      ["Email with 50 GB mailbox", "Web versions of Office apps", "1 TB of OneDrive storage",
       "Microsoft Teams", "Webinar hosting"],
      false, "bg-blue-100 text-blue-600"),
    Software(2, "Microsoft 365 Business Standard", "Microsoft", "productivity",
      "Desktop, web, and mobile versions of Office apps with email, file storage, and online meetings",
      "$12.50", "user/month",
      ["Everything in Business Basic", "Desktop versions of Office apps",
       "Premium business apps: Bookings, MileIQ", "Advanced security features",
       "Device management capabilities"],
      true, "bg-blue-100 text-blue-600"),
    Software(3, "Adobe Creative Cloud Complete", "Adobe", "creative",
      "The entire collection of Adobe creative apps for desktop and mobile plus cloud services",
      "$52.99", "user/month",
      ["20+ creative desktop and mobile apps", "100GB cloud storage", "Adobe Fonts",
       "Adobe Portfolio", "Adobe Stock (standard assets)"],
      true, "bg-red-100 text-red-600"),
    Software(4, "Adobe Photoshop", "Adobe", "creative",
      "Professional image editing and compositing application",
      "$20.99", "user/month",
      ["Advanced image editing tools", "Neural filters powered by AI", "Content-aware fill",
       "Layer styles and effects", "Object selection and removal"],
      false, "bg-red-100 text-red-600"),
    Software(5, "Cloud Storage Basic", "TechSolutions", "cloud",
      "Secure cloud storage for all your business documents and files",
      "$9.99", "month",
      ["1TB storage capacity", "Automatic file backup", "File versioning (30 days)",
       "Multi-device sync", "File sharing and permissions"],
      false, "bg-indigo-100 text-indigo-600"),
    Software(6, "Cloud Storage Enterprise", "TechSolutions", "cloud",
      "Enterprise-grade cloud storage solution with advanced management",
      "$29.99", "month",
      ["5TB storage capacity", "Extended file versioning (180 days)", "Advanced access controls",
       "Audit logs and reporting", "24/7 priority support"],
      false, "bg-indigo-100 text-indigo-600"),
    Software(7, "Security Suite Pro", "TechSolutions", "security",
      "Comprehensive security solution for business endpoints and networks",
      "$15.99", "device/month",
      ["Advanced threat protection", "Malware and ransomware detection", "Phishing protection",
       "Endpoint encryption", "Network monitoring"],
      true, "bg-green-100 text-green-600"),
    Software(8, "Enterprise Firewall", "TechSolutions", "security",
      "Next-generation firewall with advanced threat intelligence",
      "$89.99", "month",
      ["Deep packet inspection", "Intrusion prevention system", "VPN support",
       "Traffic analysis", "Custom rule creation"],
      false, "bg-green-100 text-green-600")
  ]

  const Categories: seq<Category> := [
    Category("all", "All Software"),
    Category("productivity", "Productivity"),
    Category("creative", "Creative"),
    Category("cloud", "Cloud Services"),
    Category("security", "Security")
  ]

  /** The category condition: off for "all", otherwise string equality. */
  predicate CategoryAdmits(category: string, item: Software) {
    category == AllId || item.category == category
  }

  /** `searchQuery.trim() === ""`: the search condition is off. */
  predicate IsBlank(query: string) {
    Text.Trim(query) == ""
  }

  /** The lower-cased query, not trimmed, occurs in the lower-cased name, description or provider. */
  predicate MatchesSearch(item: Software, query: string) {
    var q := Text.LowerStr(query);
    Text.Includes(Text.LowerStr(item.name), q) ||
    Text.Includes(Text.LowerStr(item.description), q) ||
    Text.Includes(Text.LowerStr(item.provider), q)
  }

  predicate SearchAdmits(query: string, item: Software) {
    IsBlank(query) || MatchesSearch(item, query)
  }

  /** The condition of the category step, `item.category === activeCategory`. */
  function ByCategory(category: string): Software -> bool {
    (x: Software) => x.category == category
  }

  /** The condition of the search step, for an already lower-cased query. */
  function BySearch(q: string): Software -> bool {
    (x: Software) =>
      Text.Includes(Text.LowerStr(x.name), q) ||
      Text.Includes(Text.LowerStr(x.description), q) ||
      Text.Includes(Text.LowerStr(x.provider), q)
  }

  /** Both conditions at once, each counting only when it is switched on. */
  function Admits(category: string, query: string): Software -> bool {
    (x: Software) => CategoryAdmits(category, x) && SearchAdmits(query, x)
  }

  /** Reference definition of what the page shows: one pass over the catalog keeping the
      items that pass both conditions. */
  function Shown(catalog: seq<Software>, category: string, query: string): seq<Software> {
    Seqs.Filter(catalog, Admits(category, query))
  }

  /** The filter effect: starts from the whole catalog and narrows it first by category,
      then by search, each step only when its condition is on. */
  method FilterEffect(catalog: seq<Software>, category: string, query: string)
    returns (filtered: seq<Software>)
    ensures filtered == Shown(catalog, category, query)
  {
    filtered := catalog;
    if category != AllId {
      filtered := Seqs.Filter(filtered, ByCategory(category));
    }
    if Text.Trim(query) != "" {
      var q := Text.LowerStr(query);
      filtered := Seqs.Filter(filtered, BySearch(q));
    }
    // The two passes select what the single pass of Shown selects.
    var pCat := (x: Software) => CategoryAdmits(category, x);
    var pSearch := (x: Software) => SearchAdmits(query, x);
    if category != AllId {
      Seqs.FilterAgree(catalog, ByCategory(category), pCat);
    } else {
      Seqs.FilterKeepsAll(catalog, pCat);
    }
    var byCat := Seqs.Filter(catalog, pCat);
    if Text.Trim(query) != "" {
      Seqs.FilterAgree(byCat, BySearch(Text.LowerStr(query)), pSearch);
    } else {
      Seqs.FilterKeepsAll(byCat, pSearch);
    }
    Seqs.FilterThenFilter(catalog, pCat, pSearch, Admits(category, query));
  }

  /** With category "all" and a blank query the whole catalog is shown, in its order. */
  lemma UnfilteredShowsAll(catalog: seq<Software>, query: string)
    requires IsBlank(query)
    ensures Shown(catalog, AllId, query) == catalog
  {
    Seqs.FilterKeepsAll(catalog, Admits(AllId, query));
  }

  /** What is shown is an order-preserving subsequence of the catalog. */
  lemma ShownIsSubsequence(catalog: seq<Software>, category: string, query: string)
    ensures Seqs.IsSubsequence(Shown(catalog, category, query), catalog)
  {
    Seqs.FilterIsSubsequence(catalog, Admits(category, query));
  }

  /** An item is shown exactly when it is in the catalog and passes both conditions:
      soundness and completeness. */
  lemma ShownIff(catalog: seq<Software>, category: string, query: string, item: Software)
    ensures item in Shown(catalog, category, query) <==>
      item in catalog && CategoryAdmits(category, item) && SearchAdmits(query, item)
  {
    Seqs.FilterMembership(catalog, Admits(category, query), item);
  }

  /** With a category selected, every shown item has exactly that category. */
  lemma ShownHaveCategory(catalog: seq<Software>, category: string, query: string)
    requires category != AllId
    ensures forall x :: x in Shown(catalog, category, query) ==> x.category == category
  {
    forall x | x in Shown(catalog, category, query) ensures x.category == category {
      ShownIff(catalog, category, query, x);
    }
  }

  /** For a non-blank query an item of the category is shown exactly when the lower-cased,
      untrimmed query occurs in its lower-cased name, description or provider. */
  lemma SearchSelects(catalog: seq<Software>, category: string, query: string, item: Software)
    requires !IsBlank(query)
    requires item in catalog && CategoryAdmits(category, item)
    ensures item in Shown(catalog, category, query) <==>
      Text.Includes(Text.LowerStr(item.name), Text.LowerStr(query)) ||
      Text.Includes(Text.LowerStr(item.description), Text.LowerStr(query)) ||
      Text.Includes(Text.LowerStr(item.provider), Text.LowerStr(query))
  {
    ShownIff(catalog, category, query, item);
  }

  /** The search ignores case: queries that lower-case alike show the same items. */
  lemma SearchIgnoresCase(catalog: seq<Software>, category: string, q1: string, q2: string)
    requires Text.LowerStr(q1) == Text.LowerStr(q2)
    ensures Shown(catalog, category, q1) == Shown(catalog, category, q2)
  {
    Text.BlankIgnoresCase(q1, q2);
    Seqs.FilterAgree(catalog,
      Admits(category, q1), Admits(category, q2));
  }

  /** In particular a query and its lower-cased form show the same items. */
  lemma SearchLowerCaseQuery(catalog: seq<Software>, category: string, query: string)
    ensures Shown(catalog, category, Text.LowerStr(query)) == Shown(catalog, category, query)
  {
    Text.LowerStrIdempotent(query);
    SearchIgnoresCase(catalog, category, Text.LowerStr(query), query);
  }

  /** Without a search, a category button shows exactly the items of that category. */
  lemma CategoryWithoutSearch(catalog: seq<Software>, category: string, query: string)
    requires IsBlank(query) && category != AllId
    ensures Shown(catalog, category, query) == Seqs.Filter(catalog, ByCategory(category))
  {
    Seqs.FilterAgree(catalog, Admits(category, query), ByCategory(category));
  }

  /** On load the page shows the whole catalog. */
  lemma InitiallyAll()
    ensures Shown(SoftwareData, AllId, "") == SoftwareData
  {
    assert IsBlank("");
    UnfilteredShowsAll(SoftwareData, "");
  }

  /** Without a search, every category button other than "all" shows the two products of
      its category (the ones at `first` and `first + 1`), so the "No results found" panel is
      reached only through the search box. */
  lemma ButtonShowsPair(category: string, first: nat)
    requires (category, first) in {("productivity", 0), ("creative", 2), ("cloud", 4), ("security", 6)}
    ensures first + 1 < |SoftwareData|
    ensures SoftwareData[first] in Shown(SoftwareData, category, "")
    ensures SoftwareData[first + 1] in Shown(SoftwareData, category, "")
  {
    assert IsBlank("");
    ShownIff(SoftwareData, category, "", SoftwareData[first]);
    ShownIff(SoftwareData, category, "", SoftwareData[first + 1]);
  }

  /** The buttons of the page are "all" and the four categories of the catalog. */
  lemma ButtonsAreCategories()
    ensures forall c :: c in Categories ==> c.id in {AllId, "productivity", "creative", "cloud", "security"}
  {
  }

  /** What the results area displays for a filtered list. */
  datatype ResultsView = ResultsView(count: nat, cards: seq<Software>, noResultsPanel: bool)

  function View(filtered: seq<Software>): ResultsView {
    ResultsView(|filtered|, if |filtered| > 0 then filtered else [], |filtered| == 0)
  }

  /** The displayed count is the number of cards, and the "No results found" panel is shown
      exactly when there are none; the cards are the filtered items in order. */
  lemma ViewConsistent(filtered: seq<Software>)
    ensures View(filtered).count == |View(filtered).cards| == |filtered|
    ensures View(filtered).noResultsPanel <==> View(filtered).cards == []
    ensures View(filtered).cards == filtered
  {
  }

  /** The page's state: the selected category, the search box and the list the effect stores. */
  class CatalogPage {
    var activeCategory: string
    var searchQuery: string
    var filteredSoftware: seq<Software>

    /** After the filter effect has run, the stored list is what the two conditions select. */
    predicate Valid()
      reads this
    {
      filteredSoftware == Shown(SoftwareData, activeCategory, searchQuery)
    }

    constructor ()
      ensures Valid()
      ensures activeCategory == AllId && searchQuery == "" && filteredSoftware == SoftwareData
    {
      activeCategory := AllId;
      searchQuery := "";
      filteredSoftware := SoftwareData;
      new;
      InitiallyAll();
    }

    /** The effect, run after a render in which the category or the query changed. */
    method RunFilterEffect()
      modifies this`filteredSoftware
      ensures Valid()
    {
      filteredSoftware := FilterEffect(SoftwareData, activeCategory, searchQuery);
    }

    /** A category button, followed by the effect it triggers. */
    method SelectCategory(id: string)
      modifies this
      ensures activeCategory == id && searchQuery == old(searchQuery)
      ensures Valid()
    {
      activeCategory := id;
      RunFilterEffect();
    }

    /** Typing in the search box, followed by the effect. */
    method SetSearchQuery(query: string)
      modifies this
      ensures searchQuery == query && activeCategory == old(activeCategory)
      ensures Valid()
    {
      searchQuery := query;
      RunFilterEffect();
    }

    /** "Clear all filters": category "all", empty query, and so the whole catalog. */
    method ClearAllFilters()
      modifies this
      ensures activeCategory == AllId && searchQuery == ""
      ensures Valid() && filteredSoftware == SoftwareData
    {
      activeCategory := AllId;
      searchQuery := "";
      RunFilterEffect();
      InitiallyAll();
    }
  }
}
