/** The rotating services section of the home page (`src/components/ServicesSection.tsx`):
    eight service cards, of which the one titled "CTA" becomes the call-to-action button and
    the other seven orbit a centre card; the layout follows a three-way screen-size
    classification and hovering a card pauses the rotation. */
module ServicesSection {
  import opened Wrappers
  import Seqs

  datatype ScreenSize = Mobile | Tablet | Desktop

  /** The breakpoints of `checkScreenSize`, in CSS pixels. */
  const TabletMinWidth := 768
  const DesktopMinWidth := 1024

  /** `checkScreenSize` on `window.innerWidth`. */
  function Classify(width: int): (r: ScreenSize)
    ensures r == Mobile <==> width < TabletMinWidth
    ensures r == Tablet <==> TabletMinWidth <= width < DesktopMinWidth
    ensures r == Desktop <==> DesktopMinWidth <= width
  {
    if width < TabletMinWidth then Mobile
    else if width < DesktopMinWidth then Tablet
    else Desktop
  }

  /** Screen sizes ordered from narrow to wide. */
  function Rank(s: ScreenSize): nat {
    match s
    case Mobile => 0
    case Tablet => 1
    case Desktop => 2
  }

  /** A wider window never classifies as a narrower screen. */
  lemma ClassifyMonotone(w1: int, w2: int)
    requires w1 <= w2
    ensures Rank(Classify(w1)) <= Rank(Classify(w2))
  {
  }

  /** The orbit radius of `calculatePosition`, in pixels. */
  function Radius(s: ScreenSize): int {
    match s
    case Mobile => 140
    case Tablet => 200
    case Desktop => 260
  }

  /** The radius grows with the width of the window. */
  lemma {:induction false} RadiusMonotone(w1: int, w2: int)
    requires w1 <= w2
    ensures Radius(Classify(w1)) <= Radius(Classify(w2))
  {
    ClassifyMonotone(w1, w2);
    RadiusFollowsRank(Classify(w1), Classify(w2));
  }

  /** The radius at a window width: 140 below 768 pixels, 200 below 1024, 260 from there. */
  lemma RadiusTable(width: int)
    ensures Radius(Classify(width)) ==
      (if width < TabletMinWidth then 140 else if width < DesktopMinWidth then 200 else 260)
  {
  }

  lemma RadiusFollowsRank(a: ScreenSize, b: ScreenSize)
    requires Rank(a) <= Rank(b)
    ensures Radius(a) <= Radius(b)
  {
  }

  /** The grid spans of a card per screen size. */
  datatype Spans = Spans(mobile: string, tablet: string, desktop: string)

  datatype Service = Service(
    title: string,
    subtitle: Option<string>,
    hasIcon: bool,
    size: Spans,
    buttonText: Option<string>,
    color: Option<string>)

  const Quarter := Spans("col-span-12", "col-span-6", "col-span-3")

  const CtaTitle := "CTA"

  const Services: seq<Service> := [
    Service("Web Development", None, true, Quarter, None, Some("#4F46E5")),
    Service("Mobile App Development", None, true, Quarter, None, Some("#06B6D4")),
    Service("Digital Marketing", Some("and Growth"), true, Quarter, None, Some("#8B5CF6")),
    Service("Graphic & Video Design", None, true, Quarter, None, Some("#EC4899")),
    Service("Software Licenses", None, true, Quarter, None, Some("#10B981")),
    Service("IT Consulting", None, true, Quarter, None, Some("#F59E0B")),
    Service("Start Now", Some("Contact Us"), true, Spans("col-span-12", "col-span-12", "col-span-6"),
      None, Some("#3B82F6")),
    Service(CtaTitle, None, false, Quarter, Some("Get Started"), Some("#4F46E5"))
  ]

  function IsCta(): Service -> bool {
    (s: Service) => s.title == CtaTitle
  }

  function IsNotCta(): Service -> bool {
    (s: Service) => s.title != CtaTitle
  }

  /** `ctaCard`: the first entry titled "CTA". */
  function CtaCard(): Option<Service> {
    Seqs.Find(Services, IsCta())
  }

  /** `serviceCards`: the entries not titled "CTA", in order. */
  function ServiceCards(): seq<Service> {
    Seqs.Filter(Services, IsNotCta())
  }

  /** The call-to-action entry is the last one, and the orbit gets the seven before it. */
  lemma CtaSplit()
    ensures CtaCard() == Some(Services[7])
    ensures ServiceCards() == Services[..7]
    ensures |ServiceCards()| == 7
    ensures forall i :: 0 <= i < |ServiceCards()| ==> ServiceCards()[i].title != CtaTitle
  {
    assert forall i :: 0 <= i < 7 ==> Services[i].title != CtaTitle;
    Seqs.FilterPrefix(Services, IsNotCta(), 7);
  }

  /** The button's label, `ctaCard.buttonText || "Get Started"`; no button without a CTA entry. */
  function CtaLabel(cta: Option<Service>): (r: Option<string>)
    ensures r.Some? <==> cta.Some?
    ensures cta.Some? && cta.value.buttonText.Some? && cta.value.buttonText.value != "" ==>
      r == cta.value.buttonText
    ensures cta.Some? && (cta.value.buttonText.None? || cta.value.buttonText.value == "") ==>
      r == Some("Get Started")
  {
    match cta
    case None => None
    case Some(s) =>
      if s.buttonText.Some? && s.buttonText.value != "" then s.buttonText else Some("Get Started")
  }

  /** The section renders a "Get Started" button. */
  lemma CtaButtonShown()
    ensures CtaLabel(CtaCard()) == Some("Get Started")
  {
    CtaSplit();
  }

  /** Stacking: the hovered card is lifted above the others. */
  function ZIndex(hovered: Option<int>, index: int): (r: int)
    ensures r == 50 <==> hovered == Some(index)
    ensures r == 10 <==> hovered != Some(index)
  {
    if hovered == Some(index) then 50 else 10
  }

  /** At most one card is on top. */
  lemma OneCardOnTop(hovered: Option<int>, i: int, j: int)
    requires ZIndex(hovered, i) == 50 && ZIndex(hovered, j) == 50
    ensures i == j
  {
  }

  class RotatingServices {
    var hoveredIndex: Option<int>
    var screenSize: ScreenSize
    var isPaused: bool

    /** The rotation is paused exactly while a card is hovered. */
    predicate Valid()
      reads this
    {
      isPaused <==> hoveredIndex.Some?
    }

    /** The rotation animation runs while not paused. */
    predicate Rotating()
      reads this
    {
      !isPaused
    }

    /** Mounting: nothing hovered, not paused; the screen size starts as desktop until the
        first check. */
    constructor ()
      ensures Valid() && Rotating()
      ensures hoveredIndex == None && screenSize == Desktop && !isPaused
    {
      hoveredIndex := None;
      screenSize := Desktop;
      isPaused := false;
    }

    /** `checkScreenSize`, on mount and after each debounced resize. */
    method CheckScreenSize(width: int)
      modifies this`screenSize
      ensures screenSize == Classify(width)
    {
      if width < TabletMinWidth {
        screenSize := Mobile;
      } else if width < DesktopMinWidth {
        screenSize := Tablet;
      } else {
        screenSize := Desktop;
      }
    }

    /** The pointer enters card `index`: it is lifted and the rotation stops. */
    method MouseEnter(index: int)
      requires Valid()
      modifies this`hoveredIndex, this`isPaused
      ensures Valid() && !Rotating()
      ensures hoveredIndex == Some(index) && ZIndex(hoveredIndex, index) == 50
      ensures forall j :: j != index ==> ZIndex(hoveredIndex, j) == 10
    {
      hoveredIndex := Some(index);
      isPaused := true;
    }

    /** The pointer leaves a card: every card back at z-index 10 and the rotation resumes. */
    method MouseLeave()
      requires Valid()
      modifies this`hoveredIndex, this`isPaused
      ensures Valid() && Rotating()
      ensures hoveredIndex == None && forall j :: ZIndex(hoveredIndex, j) == 10
    {
      hoveredIndex := None;
      isPaused := false;
    }
  }
}
