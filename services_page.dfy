/** The services page (`src/app/services/page.tsx`): six services, each with a colour name
    that `getColorClasses` turns into Tailwind classes, and one in-view ref per service. */
module ServicesPage {

  /** The classes of one colour. */
  datatype ColorClasses = ColorClasses(
    light: string, medium: string, dark: string, border: string, text: string, hover: string)

  /** The colour names of the `ColorName` type, which are the keys of the colour map. */
  const ColorNames: seq<string> := ["blue", "purple", "pink", "green", "yellow", "red"]

  const FallbackColor := "blue"

  /** The class scheme every colour follows: shades 50, 100 and 600 for the backgrounds,
      200 for the border, 600 for the text, and a hover that fills with shade 600. */
  function Palette(c: string): ColorClasses {
    ColorClasses(
      "bg-" + c + "-50", "bg-" + c + "-100", "bg-" + c + "-600",
      "border-" + c + "-200", "text-" + c + "-600", "hover:bg-" + c + "-600 hover:text-white")
  }

  /** The entries of `colorMap`, written out as in the component. */
  const BlueClasses := ColorClasses("bg-blue-50", "bg-blue-100", "bg-blue-600", "border-blue-200",
    "text-blue-600", "hover:bg-blue-600 hover:text-white")
  const PurpleClasses := ColorClasses("bg-purple-50", "bg-purple-100", "bg-purple-600", "border-purple-200",
    "text-purple-600", "hover:bg-purple-600 hover:text-white")
  const PinkClasses := ColorClasses("bg-pink-50", "bg-pink-100", "bg-pink-600", "border-pink-200",
    "text-pink-600", "hover:bg-pink-600 hover:text-white")
  const GreenClasses := ColorClasses("bg-green-50", "bg-green-100", "bg-green-600", "border-green-200",
    "text-green-600", "hover:bg-green-600 hover:text-white")
  const YellowClasses := ColorClasses("bg-yellow-50", "bg-yellow-100", "bg-yellow-600", "border-yellow-200",
    "text-yellow-600", "hover:bg-yellow-600 hover:text-white")
  const RedClasses := ColorClasses("bg-red-50", "bg-red-100", "bg-red-600", "border-red-200",
    "text-red-600", "hover:bg-red-600 hover:text-white")

  /** `colorMap`. */
  const ColorMap: map<string, ColorClasses> := map[
    "blue" := BlueClasses, "purple" := PurpleClasses, "pink" := PinkClasses,
    "green" := GreenClasses, "yellow" := YellowClasses, "red" := RedClasses
  ]

  // Each entry checked against the scheme, the long hover class on its own.

  lemma BlueHover()
    ensures BlueClasses.hover == Palette("blue").hover
  {
  }

  lemma BlueEntry()
    ensures BlueClasses == Palette("blue")
  {
    var p := Palette("blue");
    BlueHover();
    assert BlueClasses.light == p.light && BlueClasses.medium == p.medium;
    assert BlueClasses.dark == p.dark && BlueClasses.border == p.border;
    assert BlueClasses.text == p.text;
  }

  lemma PurpleHover()
    ensures PurpleClasses.hover == Palette("purple").hover
  {
  }

  lemma PurpleEntry()
    ensures PurpleClasses == Palette("purple")
  {
    var p := Palette("purple");
    PurpleHover();
    assert PurpleClasses.light == p.light && PurpleClasses.medium == p.medium;
    assert PurpleClasses.dark == p.dark && PurpleClasses.border == p.border;
    assert PurpleClasses.text == p.text;
  }

  lemma PinkHover()
    ensures PinkClasses.hover == Palette("pink").hover
  {
  }

  lemma PinkEntry()
    ensures PinkClasses == Palette("pink")
  {
    var p := Palette("pink");
    PinkHover();
    assert PinkClasses.light == p.light && PinkClasses.medium == p.medium;
    assert PinkClasses.dark == p.dark && PinkClasses.border == p.border;
    assert PinkClasses.text == p.text;
  }

  lemma GreenHover()
    ensures GreenClasses.hover == Palette("green").hover
  {
  }

  lemma GreenEntry()
    ensures GreenClasses == Palette("green")
  {
    var p := Palette("green");
    GreenHover();
    assert GreenClasses.light == p.light && GreenClasses.medium == p.medium;
    assert GreenClasses.dark == p.dark && GreenClasses.border == p.border;
    assert GreenClasses.text == p.text;
  }

  lemma YellowHover()
    ensures YellowClasses.hover == Palette("yellow").hover
  {
  }

  lemma YellowEntry()
    ensures YellowClasses == Palette("yellow")
  {
    var p := Palette("yellow");
    YellowHover();
    assert YellowClasses.light == p.light && YellowClasses.medium == p.medium;
    assert YellowClasses.dark == p.dark && YellowClasses.border == p.border;
    assert YellowClasses.text == p.text;
  }

  lemma RedHover()
    ensures RedClasses.hover == Palette("red").hover
  {
  }

  lemma RedEntry()
    ensures RedClasses == Palette("red")
  {
    var p := Palette("red");
    RedHover();
    assert RedClasses.light == p.light && RedClasses.medium == p.medium;
    assert RedClasses.dark == p.dark && RedClasses.border == p.border;
    assert RedClasses.text == p.text;
  }

  /** Every entry of the written-out map follows the class scheme. */
  lemma EntryFollowsPalette(c: string)
    requires c in ColorMap
    ensures ColorMap[c] == Palette(c)
  {
    if c == "blue" { BlueEntry(); }
    else if c == "purple" { PurpleEntry(); }
    else if c == "pink" { PinkEntry(); }
    else if c == "green" { GreenEntry(); }
    else if c == "yellow" { YellowEntry(); }
    else { RedEntry(); }
  }

  /** The written-out map has exactly the six colour names as keys, and every entry follows
      the class scheme. */
  lemma ColorMapFollowsPalette()
    ensures forall c :: c in ColorMap <==> c in ColorNames
    ensures forall c :: c in ColorMap ==> ColorMap[c] == Palette(c)
  {
    forall c | c in ColorMap ensures ColorMap[c] == Palette(c) {
      EntryFollowsPalette(c);
    }
  }

  /** `getColorClasses`: the entry of a known colour, the blue entry for any other string. */
  function GetColorClasses(color: string): (r: ColorClasses)
    ensures color in ColorNames ==> r == Palette(color)
    ensures color !in ColorNames ==> r == Palette(FallbackColor)
  {
    ColorMapFollowsPalette();
    if color in ColorMap then ColorMap[color] else ColorMap[FallbackColor]
  }

  /** Different colour names get different classes, and the lookup can be undone from the
      dark background class alone: the colour is recoverable from what is rendered. */
  lemma ColorClassesInjective(a: string, b: string)
    requires a in ColorNames && b in ColorNames && a != b
    ensures GetColorClasses(a).dark != GetColorClasses(b).dark
  {
    var da := GetColorClasses(a).dark;
    var db := GetColorClasses(b).dark;
    assert da == "bg-" + a + "-600" && db == "bg-" + b + "-600";
    if |a| == |b| {
      var k :| 0 <= k < |a| && a[k] != b[k];
      assert da[3 + k] == a[k] && db[3 + k] == b[k];
    } else {
      assert da[3..|da| - 4] == a && db[3..|db| - 4] == b;
    }
  }

  datatype Service = Service(title: string, description: string, color: string, features: seq<string>)

  const Services: seq<Service> := [
    Service("Web Development",
      "Custom-built, responsive websites and web applications that engage visitors and drive business growth.",
      "blue",
      ["Responsive design", "CMS integration", "E-commerce functionality",
       "Performance optimization", "SEO-friendly structure"]),
    Service("Mobile App Development",
      "Intuitive, feature-rich mobile applications for iOS and Android that extend your reach to mobile users.",
      "purple",
      ["Native and cross-platform apps", "User-friendly interfaces", "Offline functionality",
       "Push notifications", "App store optimization"]),
    Service("UI/UX Design",
      "Thoughtfully designed user interfaces and experiences that enhance usability and user satisfaction.",
      "pink",
      ["User research", "Wireframing and prototyping", "Visual design", "Usability testing",
       "Design systems"]),
    Service("Digital Marketing",
      "Strategic marketing campaigns that increase brand awareness, drive traffic, and convert visitors into customers.",
      "green",
      ["SEO optimization", "Content marketing", "Social media management", "Email marketing",
       "Analytics and reporting"]),
    Service("E-commerce Solutions",
      "End-to-end e-commerce solutions that simplify online selling and enhance customer shopping experiences.",
      "yellow",
      ["Product catalog management", "Secure payment integration", "Inventory management",
       "Customer account management", "Order processing and fulfillment"]),
    Service("IT Consulting",
      "Expert guidance on leveraging technology to optimize operations, reduce costs, and achieve business objectives.",
      "red",
      ["Technology assessment", "Digital transformation strategy", "Process optimization",
       "System integration", "IT infrastructure planning"])
  ]

  /** One of the six `useInView` hooks, by its position in the declaration order. */
  datatype InViewRef = InViewRef(ordinal: nat)

  const ServiceRefs: seq<InViewRef> := [
    InViewRef(0), InViewRef(1), InViewRef(2), InViewRef(3), InViewRef(4), InViewRef(5)
  ]

  /** `serviceRefs[index]` is defined for every service the grid renders. */
  lemma RefsCoverServices()
    ensures |ServiceRefs| == |Services|
  {
  }

  /** Every service's colour is a key of the map, so no card falls back to blue. */
  lemma ServiceColorsAreMapped()
    ensures forall i :: 0 <= i < |Services| ==> Services[i].color in ColorNames
  {
  }

  /** The six services have pairwise distinct colours, hence pairwise distinct card classes. */
  lemma ServiceColorsDistinct()
    ensures forall i, j :: 0 <= i < j < |Services| ==> Services[i].color != Services[j].color
    ensures forall i, j :: 0 <= i < j < |Services| ==>
      GetColorClasses(Services[i].color) != GetColorClasses(Services[j].color)
  {
    forall i, j | 0 <= i < j < |Services|
      ensures GetColorClasses(Services[i].color) != GetColorClasses(Services[j].color)
    {
      ColorClassesInjective(Services[i].color, Services[j].color);
    }
  }

  /** Every service lists exactly five features. */
  lemma FiveFeaturesEach()
    ensures forall i :: 0 <= i < |Services| ==> |Services[i].features| == 5
  {
  }
}
