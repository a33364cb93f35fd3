/** The orbital graphics portfolio (`src/components/GraphicsPortfolio.tsx`): a category
    filter over twelve graphics, an orbit of at most eight of them with a focus toggle,
    and a lightbox that steps through the filtered list. */
module GraphicsPortfolio {
  import opened Wrappers
  import Seqs

  datatype Graphic = Graphic(id: int, src: string, title: string, category: string)

  const AllCategory := "All"

  /** The orbit shows at most this many graphics. */
  const MaxOrbitItems := 8

  const Graphics: seq<Graphic> := [
    Graphic(1, "/images/graphics/g1.jpeg", "Brand Identity", "Branding"),
    Graphic(2, "/images/graphics/g2.jpeg", "Minimalist Logo", "Logo Design"),
    Graphic(3, "/images/graphics/g3.jpeg", "Product Showcase", "Marketing"),
    Graphic(4, "/images/graphics/g4.jpeg", "UI Elements", "Web Design"),
    Graphic(5, "/images/graphics/g5.jpeg", "Social Media Kit", "Marketing"),
    Graphic(6, "/images/graphics/g6.jpeg", "App Interface", "UI/UX"),
    Graphic(7, "/images/graphics/g7.jpeg", "Event Poster", "Print"),
    Graphic(8, "/images/graphics/g8.jpeg", "Corporate Brochure", "Print"),
    Graphic(9, "/images/graphics/g9.jpeg", "E-commerce Graphics", "Web Design"),
    Graphic(10, "/images/graphics/g10.jpeg", "Illustration Set", "Illustration"),
    Graphic(11, "/images/graphics/g11.jpeg", "Package Design", "Branding"),
    Graphic(12, "/images/graphics/g12.jpeg", "Motion Graphics", "Animation")
  ]

  /** The filter buttons, in display order. */
  const Categories: seq<string> := [
    "All", "Branding", "Logo Design", "Web Design", "UI/UX", "Marketing", "Print",
    "Illustration", "Animation"
  ]

  function ByCategory(category: string): Graphic -> bool {
    (g: Graphic) => g.category == category
  }

  /** `filteredGraphics`: everything for 'All', otherwise the graphics of that category. */
  function FilteredGraphics(category: string): seq<Graphic> {
    if category == AllCategory then Graphics else Seqs.Filter(Graphics, ByCategory(category))
  }

  /** A graphic is listed exactly when it is one of the twelve and 'All' or its own
      category is selected. */
  lemma FilteredIff(category: string, g: Graphic)
    ensures g in FilteredGraphics(category) <==>
      g in Graphics && (category == AllCategory || g.category == category)
  {
    Seqs.FilterMembership(Graphics, ByCategory(category), g);
  }

  /** The filtered list keeps the order of the twelve graphics. */
  lemma FilteredIsSubsequence(category: string)
    ensures Seqs.IsSubsequence(FilteredGraphics(category), Graphics)
  {
    Seqs.FilterIsSubsequence(Graphics, ByCategory(category));
    if category == AllCategory {
      Seqs.FilterKeepsAll(Graphics, (g: Graphic) => true);
      Seqs.FilterIsSubsequence(Graphics, (g: Graphic) => true);
    }
  }

  /** No two entries of a list share an id. */
  predicate DistinctIds(list: seq<Graphic>) {
    forall i, j :: 0 <= i < j < |list| ==> list[i].id != list[j].id
  }

  lemma GraphicsDistinct()
    ensures DistinctIds(Graphics)
  {
    assert forall i :: 0 <= i < |Graphics| ==> Graphics[i].id == i + 1;
  }

  lemma {:induction false} FilterKeepsDistinct(s: seq<Graphic>, p: Graphic -> bool)
    requires DistinctIds(s)
    ensures DistinctIds(Seqs.Filter(s, p))
    decreases |s|
  {
    if s != [] {
      var rest := Seqs.Filter(s[1..], p);
      FilterKeepsDistinct(s[1..], p);
      if p(s[0]) {
        forall j | 0 <= j < |rest| ensures rest[j].id != s[0].id {
          Seqs.FilterMembership(s[1..], p, rest[j]);
          var k :| 0 <= k < |s[1..]| && s[1..][k] == rest[j];
          assert s[k + 1] == rest[j];
        }
        var r := [s[0]] + rest;
        assert forall j :: 0 < j < |r| ==> r[j] == rest[j - 1];
      }
    }
  }

  /** Every filtered list has distinct ids, so an id names one position of it. */
  lemma FilteredDistinct(category: string)
    ensures DistinctIds(FilteredGraphics(category))
  {
    GraphicsDistinct();
    FilterKeepsDistinct(Graphics, ByCategory(category));
  }

  /** Every filter button selects at least one graphic: the lightbox list is never empty
      while a button's category is active. */
  lemma EveryButtonSelectsSomething()
    ensures forall c :: c in Categories ==> FilteredGraphics(c) != []
  {
    var witnesses := map[
      "Branding" := 0, "Logo Design" := 1, "Web Design" := 3, "UI/UX" := 5,
      "Marketing" := 2, "Print" := 6, "Illustration" := 9, "Animation" := 11];
    forall c | c in Categories ensures FilteredGraphics(c) != [] {
      if c != AllCategory {
        assert c in witnesses;
        FilteredIff(c, Graphics[witnesses[c]]);
      }
    }
  }

  // ---------------------------------------------------------------------------------
  // The orbit

  /** An orbit entry: the graphic with its display scale and stacking depth (its angle and
      position are floating-point geometry and are not modelled). */
  datatype OrbitItem = OrbitItem(graphic: Graphic, scale: real, depth: int)

  function Min(a: int, b: int): int { if a <= b then a else b }

  /** The graphics of the orbit, in orbit order. */
  function OrbitGraphics(items: seq<OrbitItem>): (r: seq<Graphic>)
    ensures |r| == |items| && forall i :: 0 <= i < |items| ==> r[i] == items[i].graphic
  {
    if items == [] then [] else [items[0].graphic] + OrbitGraphics(items[1..])
  }

  /** Each graphic as an orbit entry at rest: scale 1, depth 0. */
  function AtRest(gs: seq<Graphic>): (r: seq<OrbitItem>)
    ensures |r| == |gs|
    ensures forall i :: 0 <= i < |gs| ==> r[i] == OrbitItem(gs[i], 1.0, 0)
  {
    if gs == [] then [] else [OrbitItem(gs[0], 1.0, 0)] + AtRest(gs[1..])
  }

  /** Orbit setup: the first min(n, 8) filtered graphics, in order, all at rest. */
  function BuildOrbit(filtered: seq<Graphic>): (r: seq<OrbitItem>)
    ensures |r| == Min(|filtered|, MaxOrbitItems)
    ensures forall i :: 0 <= i < |r| ==> r[i] == OrbitItem(filtered[i], 1.0, 0)
    ensures OrbitGraphics(r) == filtered[..|r|]
  {
    AtRest(filtered[..Min(|filtered|, MaxOrbitItems)])
  }

  /** `handleFocus` on an id that is not focused: that item to the front (scale 1.5,
      depth 10), every other item back (scale 0.8, depth 0). */
  function FocusOn(items: seq<OrbitItem>, id: int): (r: seq<OrbitItem>)
    ensures |r| == |items|
    ensures forall i :: 0 <= i < |items| ==> r[i].graphic == items[i].graphic
    ensures forall i :: 0 <= i < |items| ==>
      if items[i].graphic.id == id then r[i].scale == 1.5 && r[i].depth == 10
      else r[i].scale == 0.8 && r[i].depth == 0
  {
    if items == [] then []
    else
      var head := if items[0].graphic.id == id then OrbitItem(items[0].graphic, 1.5, 10)
                  else OrbitItem(items[0].graphic, 0.8, 0);
      [head] + FocusOn(items[1..], id)
  }

  /** Focusing leaves the ids and their order alone. */
  lemma FocusKeepsGraphics(items: seq<OrbitItem>, id: int)
    ensures OrbitGraphics(FocusOn(items, id)) == OrbitGraphics(items)
  {
  }

  /** Focusing the same id twice is focusing it once. */
  lemma FocusIdempotent(items: seq<OrbitItem>, id: int)
    ensures FocusOn(FocusOn(items, id), id) == FocusOn(items, id)
  {
  }

  /** In an orbit with distinct ids exactly one item is in front after focusing one of them. */
  lemma FocusSingleFront(items: seq<OrbitItem>, k: nat)
    requires k < |items|
    requires DistinctIds(OrbitGraphics(items))
    ensures var r := FocusOn(items, items[k].graphic.id);
      r[k].depth == 10 && forall i :: 0 <= i < |r| && i != k ==> r[i].depth == 0
  {
    var gs := OrbitGraphics(items);
    forall i | 0 <= i < |items| && i != k ensures items[i].graphic.id != items[k].graphic.id {
      if i < k { assert gs[i].id != gs[k].id; } else { assert gs[k].id != gs[i].id; }
    }
  }

  // ---------------------------------------------------------------------------------
  // Lightbox navigation

  /** JavaScript's `%`: truncating, the remainder takes the sign of the dividend. */
  function JsRem(a: int, n: int): (r: int)
    requires n > 0
    ensures -n < r < n
    ensures a >= 0 ==> r >= 0
  {
    if a >= 0 then a % n else -((-a) % n)
  }

  /** For the dividends the handlers form, JavaScript's `%` lands on a valid index: a
      dividend in [0, 2n) wraps at most once, and -1 % 1 gives negative zero, which indexes
      as 0. */
  lemma JsRemIsIndex(a: int, n: int)
    requires n > 0 && -1 <= a < 2 * n && (a == -1 ==> n == 1)
    ensures JsRem(a, n) == (if a < 0 then 0 else if a < n then a else a - n)
  {
    if a == -1 {
      assert 1 % 1 == 0;
    } else if a < n {
      assert a == 0 * n + a;
    } else {
      assert a == 1 * n + (a - n);
    }
  }

  function HasId(id: int): Graphic -> bool {
    (g: Graphic) => g.id == id
  }

  /** `findIndex(item => item.id === id)`: -1 when the id is not listed. */
  function IndexOfId(list: seq<Graphic>, id: int): (r: int)
    ensures -1 <= r < |list|
    ensures r >= 0 ==> list[r].id == id && forall i :: 0 <= i < r ==> list[i].id != id
    ensures r == -1 <==> forall i :: 0 <= i < |list| ==> list[i].id != id
  {
    Seqs.FindIndex(list, HasId(id))
  }

  /** With distinct ids the index of an entry's id is that entry's position. */
  lemma IndexOfListed(list: seq<Graphic>, k: nat)
    requires DistinctIds(list) && k < |list|
    ensures IndexOfId(list, list[k].id) == k
  {
  }

  /** `nextImage`: the id at (i + 1) % n. An empty list makes the handler throw when it reads
      the id of `undefined`, which is `None` here. */
  function NextImageId(list: seq<Graphic>, selected: int): (r: Option<int>)
    ensures r.Some? <==> list != []
  {
    if list == [] then None
    else
      var i := IndexOfId(list, selected);
      JsRemIsIndex(i + 1, |list|);
      Some(list[JsRem(i + 1, |list|)].id)
  }

  /** `prevImage`: the id at (i - 1 + n) % n, with the same failure on an empty list. */
  function PrevImageId(list: seq<Graphic>, selected: int): (r: Option<int>)
    ensures r.Some? <==> list != []
  {
    if list == [] then None
    else
      var i := IndexOfId(list, selected);
      JsRemIsIndex(i - 1 + |list|, |list|);
      Some(list[JsRem(i - 1 + |list|, |list|)].id)
  }

  /** Stepping always lands on an id of the list. */
  lemma StepsStayInList(list: seq<Graphic>, selected: int)
    requires list != []
    ensures exists k :: 0 <= k < |list| && NextImageId(list, selected) == Some(list[k].id)
    ensures exists k :: 0 <= k < |list| && PrevImageId(list, selected) == Some(list[k].id)
  {
    var i := IndexOfId(list, selected);
    JsRemIsIndex(i + 1, |list|);
    JsRemIsIndex(i - 1 + |list|, |list|);
  }

  /** The position after `k`, wrapping from the last entry to the first. */
  function After(k: nat, n: nat): nat { if k + 1 < n then k + 1 else 0 }

  /** The position before `k`, wrapping from the first entry to the last. */
  function Before(k: nat, n: nat): nat requires n > 0 { if k > 0 then k - 1 else n - 1 }

  /** Stepping from a listed id moves one position, wrapping at both ends. */
  lemma StepPositions(list: seq<Graphic>, k: nat)
    requires DistinctIds(list) && k < |list|
    ensures NextImageId(list, list[k].id) == Some(list[After(k, |list|)].id)
    ensures PrevImageId(list, list[k].id) == Some(list[Before(k, |list|)].id)
  {
    IndexOfListed(list, k);
    JsRemIsIndex(k + 1, |list|);
    JsRemIsIndex(k - 1 + |list|, |list|);
  }

  /** For an id that is not listed `findIndex` gives -1: next goes to the first entry,
      previous to the one before the last (to the only one in a one-entry list). */
  lemma StepsFromUnlisted(list: seq<Graphic>, selected: int)
    requires list != [] && forall i :: 0 <= i < |list| ==> list[i].id != selected
    ensures NextImageId(list, selected) == Some(list[0].id)
    ensures PrevImageId(list, selected) == Some(list[if |list| >= 2 then |list| - 2 else 0].id)
  {
    JsRemIsIndex(0, |list|);
    JsRemIsIndex(-2 + |list|, |list|);
  }

  /** The graphic the lightbox shows: looked up by id among all twelve. */
  function LightboxGraphic(selected: int): (r: Option<Graphic>)
    ensures r.Some? <==> exists i :: 0 <= i < |Graphics| && Graphics[i].id == selected
    ensures r.Some? ==> r.value in Graphics && r.value.id == selected
  {
    Seqs.Find(Graphics, HasId(selected))
  }

  /** Stepping through any filtered list lands on a graphic the lightbox can show. */
  lemma StepsShowAGraphic(category: string, selected: int)
    requires FilteredGraphics(category) != []
    ensures LightboxGraphic(NextImageId(FilteredGraphics(category), selected).value).Some?
    ensures LightboxGraphic(PrevImageId(FilteredGraphics(category), selected).value).Some?
  {
    var list := FilteredGraphics(category);
    StepsStayInList(list, selected);
    var k :| 0 <= k < |list| && NextImageId(list, selected) == Some(list[k].id);
    var m :| 0 <= m < |list| && PrevImageId(list, selected) == Some(list[m].id);
    FilteredIff(category, list[k]);
    FilteredIff(category, list[m]);
    var a :| 0 <= a < |Graphics| && Graphics[a] == list[k];
    var b :| 0 <= b < |Graphics| && Graphics[b] == list[m];
  }

  /** Previous after next, and next after previous, come back to a listed selection. */
  lemma {:induction false} NextPrevRoundTrip(list: seq<Graphic>, k: nat)
    requires DistinctIds(list) && k < |list|
    ensures NextImageId(list, list[k].id).Some?
    ensures PrevImageId(list, NextImageId(list, list[k].id).value) == Some(list[k].id)
    ensures PrevImageId(list, list[k].id).Some?
    ensures NextImageId(list, PrevImageId(list, list[k].id).value) == Some(list[k].id)
  {
    var n := |list|;
    StepPositions(list, k);
    StepPositions(list, After(k, n));
    StepPositions(list, Before(k, n));
  }

  // ---------------------------------------------------------------------------------
  // The orbit-setup effect and when it re-runs

  /** As written, the setup effect depends on the `filteredGraphics` array. That array is
      `graphics` itself for 'All' but a fresh `filter` result on every render otherwise, so
      the effect re-runs after every render while another category is active. */
  predicate SetupRerunsAsWritten(previous: string, current: string) {
    current != AllCategory || previous != current
  }

  /** The evidently intended dependency: the filtered list changes only with the category. */
  predicate SetupRerunsIntended(previous: string, current: string) {
    previous != current
  }

  /** The orbit part of the state: the entries and the focused id. */
  datatype Orbit = Orbit(items: seq<OrbitItem>, focused: Option<int>)

  /** What one run of the setup leaves: the orbit of the category's graphics, unfocused. */
  function SetUp(category: string): Orbit {
    Orbit(BuildOrbit(FilteredGraphics(category)), None)
  }

  /** The orbit after a render whose category was `previous` before and is `current` now,
      with the dependency as written. */
  function AfterRenderAsWritten(previous: string, current: string, o: Orbit): Orbit {
    if SetupRerunsAsWritten(previous, current) then SetUp(current) else o
  }

  /** The same with the intended dependency. */
  function AfterRenderIntended(previous: string, current: string, o: Orbit): Orbit {
    if SetupRerunsIntended(previous, current) then SetUp(current) else o
  }

  /** With "Branding" active, clicking graphic 1 focuses it and re-renders; as written the
      setup then runs again, drops the focus and puts the graphic back at scale 1, while the
      intended dependency keeps both. */
  lemma FocusLostAsWritten()
    ensures var clicked := Orbit(FocusOn(SetUp("Branding").items, 1), Some(1));
      AfterRenderAsWritten("Branding", "Branding", clicked).focused == None &&
      AfterRenderAsWritten("Branding", "Branding", clicked) != clicked &&
      AfterRenderIntended("Branding", "Branding", clicked) == clicked
  {
    var clicked := Orbit(FocusOn(SetUp("Branding").items, 1), Some(1));
    assert clicked.focused != None;
  }

  /** With the intended dependency a render that keeps the category keeps the orbit, and one
      that changes it sets the orbit up afresh; as written only 'All' is stable. */
  lemma {:induction false} SetupRerunsIff(previous: string, current: string, o: Orbit)
    ensures AfterRenderIntended(previous, current, o) == (if previous == current then o else SetUp(current))
    ensures current != AllCategory ==> AfterRenderAsWritten(previous, current, o) == SetUp(current)
    ensures current == AllCategory ==>
      AfterRenderAsWritten(previous, current, o) == AfterRenderIntended(previous, current, o)
  {
  }

  // ---------------------------------------------------------------------------------
  // The component state

  class Portfolio {
    var activeCategory: string
    var selectedImage: Option<int>
    var isLightboxOpen: bool
    var orbitItems: seq<OrbitItem>
    var focused: Option<int>
    var autoRotate: bool
    /** The category of the last orbit setup: the effect's remembered dependency. */
    var orbitCategory: string

    /** The orbit shows the first graphics of the list it was last set up for. */
    predicate Valid()
      reads this
    {
      var filtered := FilteredGraphics(orbitCategory);
      OrbitGraphics(orbitItems) == filtered[..Min(|filtered|, MaxOrbitItems)]
    }

    /** Mounting, followed by the first run of the setup effect. */
    constructor ()
      ensures Valid()
      ensures activeCategory == AllCategory && orbitCategory == AllCategory
      ensures selectedImage == None && !isLightboxOpen && focused == None && autoRotate
      ensures orbitItems == BuildOrbit(Graphics)
    {
      activeCategory := AllCategory;
      selectedImage := None;
      isLightboxOpen := false;
      orbitItems := BuildOrbit(Graphics);
      focused := None;
      autoRotate := true;
      orbitCategory := AllCategory;
    }

    /** The rotation ticks only while auto-rotate is on and nothing is focused. */
    predicate IsRotating()
      reads this
    {
      autoRotate && focused == None
    }

    /** A category button. */
    method SelectCategory(category: string)
      modifies this`activeCategory
      ensures activeCategory == category
    {
      activeCategory := category;
    }

    /** The effects after a render, with the intended dependency: the orbit is rebuilt from
        the filtered list, at rest and unfocused, exactly when the category changed. */
    method CommitRender()
      requires Valid()
      modifies this`orbitItems, this`focused, this`orbitCategory
      ensures Valid() && orbitCategory == activeCategory
      ensures Orbit(orbitItems, focused) ==
        AfterRenderIntended(old(orbitCategory), activeCategory, Orbit(old(orbitItems), old(focused)))
    {
      if SetupRerunsIntended(orbitCategory, activeCategory) {
        orbitItems := BuildOrbit(FilteredGraphics(activeCategory));
        focused := None;
        orbitCategory := activeCategory;
      }
    }

    /** `handleFocus`: a click on the focused item clears the focus and leaves the orbit,
        scales included, as it is; a click on any other item focuses it. */
    method HandleFocus(id: int)
      requires Valid()
      modifies this`focused, this`orbitItems
      ensures Valid()
      ensures old(focused) == Some(id) ==> focused == None && orbitItems == old(orbitItems)
      ensures old(focused) != Some(id) ==>
        focused == Some(id) && orbitItems == FocusOn(old(orbitItems), id) && !IsRotating()
    {
      if focused == Some(id) {
        focused := None;
        return;
      }
      focused := Some(id);
      FocusKeepsGraphics(orbitItems, id);
      orbitItems := FocusOn(orbitItems, id);
    }

    /** "Reset View": clears the focus, leaving the scales as they are. */
    method ResetView()
      modifies this`focused
      ensures focused == None && (IsRotating() <==> autoRotate)
    {
      focused := None;
    }

    /** "Pause Rotation" / "Resume Rotation". */
    method ToggleAutoRotate()
      modifies this`autoRotate
      ensures autoRotate == !old(autoRotate)
    {
      autoRotate := !autoRotate;
    }

    /** A double click opens the lightbox on that graphic and stops the rotation. */
    method OpenLightbox(id: int)
      modifies this`selectedImage, this`isLightboxOpen, this`autoRotate
      ensures selectedImage == Some(id) && isLightboxOpen && !autoRotate && !IsRotating()
      ensures LightboxShown() <==> id != 0
    {
      selectedImage := Some(id);
      isLightboxOpen := true;
      autoRotate := false;
    }

    /** Closing resumes the rotation and keeps the selection. */
    method CloseLightbox()
      modifies this`isLightboxOpen, this`autoRotate
      ensures !isLightboxOpen && autoRotate && !LightboxShown()
      ensures IsRotating() <==> focused == None
    {
      isLightboxOpen := false;
      autoRotate := true;
    }

    /** The overlay renders when it is open and the selection is a truthy number. */
    predicate LightboxShown()
      reads this
    {
      isLightboxOpen && selectedImage.Some? && selectedImage.value != 0
    }

    /** `nextImage`: nothing without a selection; `ok` is false where the handler throws
        (an empty filtered list), and then nothing changes. */
    method NextImage() returns (ok: bool)
      modifies this`selectedImage
      ensures old(selectedImage) == None ==> ok && selectedImage == None
      ensures old(selectedImage).Some? ==>
        var r := NextImageId(FilteredGraphics(activeCategory), old(selectedImage).value);
        ok == r.Some? && selectedImage == (if ok then r else old(selectedImage))
    {
      ok := true;
      if selectedImage.Some? {
        var r := NextImageId(FilteredGraphics(activeCategory), selectedImage.value);
        if r.Some? {
          selectedImage := r;
        } else {
          ok := false;
        }
      }
    }

    /** `prevImage`, like `nextImage` in the other direction. */
    method PrevImage() returns (ok: bool)
      modifies this`selectedImage
      ensures old(selectedImage) == None ==> ok && selectedImage == None
      ensures old(selectedImage).Some? ==>
        var r := PrevImageId(FilteredGraphics(activeCategory), old(selectedImage).value);
        ok == r.Some? && selectedImage == (if ok then r else old(selectedImage))
    {
      ok := true;
      if selectedImage.Some? {
        var r := PrevImageId(FilteredGraphics(activeCategory), selectedImage.value);
        if r.Some? {
          selectedImage := r;
        } else {
          ok := false;
        }
      }
    }
  }
}
