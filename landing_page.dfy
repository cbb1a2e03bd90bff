/** The landing-page result (components/LandingPageResult.tsx): the icon
    lookup its preview uses, the preview's feature cards, and the stand-alone
    HTML page it exports. */
module LandingPage {
  import opened Common
  import opened Types
  import opened Text

  /** An icon as the preview draws it: the icon component and its colour
      class; all six share the size classes `w-8 h-8`. */
  datatype IconGlyph = IconGlyph(component: string, colorClass: string)

  /** The `featureIcons` table (components/LandingPageResult.tsx:13-20). */
  function Glyph(i: Icon): IconGlyph
  {
    match i
    case Zap => IconGlyph("ZapIcon", "text-yellow-400")
    case ShieldCheck => IconGlyph("ShieldCheckIcon", "text-blue-400")
    case Users => IconGlyph("UsersIcon", "text-teal-400")
    case Globe => IconGlyph("GlobeAltIcon", "text-green-400")
    case TrendingUp => IconGlyph("TrendingUpIcon", "text-rose-400")
    case Star => IconGlyph("StarIcon", "text-amber-400")
  }

  /** Every icon has an entry of its own: no two share one. */
  lemma GlyphsDistinct(i: Icon, j: Icon)
    ensures Glyph(i) == Glyph(j) ==> i == j
  {
  }

  /** The icon drawn for a tag, with the star as the fallback
      (components/LandingPageResult.tsx:98): a known tag gets its own entry,
      anything else the star's. The lookup is total. */
  function IconFor(name: string): (g: IconGlyph)
    ensures forall i :: IconName(i) == name ==> g == Glyph(i)
    ensures ParseIcon(name).None? ==> g == Glyph(Star)
  {
    match ParseIcon(name)
    case Some(i) => Glyph(i)
    case None => Glyph(Star)
  }

  /** The star is drawn exactly for the tag "star" and for unknown tags. */
  lemma StarExactlyForStarOrUnknown(name: string)
    ensures IconFor(name) == Glyph(Star) <==> name == "star" || ParseIcon(name).None?
  {
    match ParseIcon(name)
    case Some(i) => GlyphsDistinct(i, Star);
    case None =>
  }

  /** The names every JavaScript object inherits from `Object.prototype`;
      looking one up in an object literal finds the inherited member. */
  const OBJECT_PROTOTYPE_MEMBERS: set<string> :=
    {"constructor", "hasOwnProperty", "isPrototypeOf", "propertyIsEnumerable",
     "toLocaleString", "toString", "valueOf", "__proto__",
     "__defineGetter__", "__defineSetter__", "__lookupGetter__", "__lookupSetter__"}

  /** What `featureIcons[tag] || featureIcons['star']` evaluates to. */
  datatype IconCell = Drawn(glyph: IconGlyph) | PrototypeMember(name: string)

  /** The lookup as written: bracket access on an object literal also finds
      the inherited members, which are truthy, so for those names the star
      fallback never applies. */
  function IconCellAsWritten(name: string): (c: IconCell)
    ensures c.Drawn? ==> c.glyph == IconFor(name)
    ensures c.PrototypeMember? <==> name in OBJECT_PROTOTYPE_MEMBERS
  {
    match ParseIcon(name)
    case Some(i) => Drawn(Glyph(i))
    case None => if name in OBJECT_PROTOTYPE_MEMBERS then PrototypeMember(name) else Drawn(Glyph(Star))
  }

  /** A tag such as "toString" gets no star: the cell holds the inherited
      function instead; with "__proto__" it holds `Object.prototype`, an object,
      which React refuses to render as a child. `IconFor` draws the star for
      both. */
  lemma PrototypeTagsMissTheFallback()
    ensures IconCellAsWritten("toString") == PrototypeMember("toString")
    ensures IconCellAsWritten("__proto__") == PrototypeMember("__proto__")
    ensures IconFor("toString") == Glyph(Star) && IconFor("__proto__") == Glyph(Star)
  {
  }

  /** For a feature whose icon is one the declared type allows, the lookup
      as written and the corrected one draw the same icon. */
  lemma WellTypedFeatureDrawn(f: LandingPageFeature)
    requires WellTypedFeature(f)
    ensures IconCellAsWritten(f.icon) == Drawn(IconFor(f.icon))
  {
  }

  /** One feature card of the preview. */
  datatype FeatureCard = FeatureCard(icon: IconGlyph, title: string, description: string)

  /** The preview's cards (components/LandingPageResult.tsx:96-102): one card
      per feature, in order, each with the feature's icon, title and
      description. */
  function PreviewCards(features: seq<LandingPageFeature>): (cards: seq<FeatureCard>)
    ensures |cards| == |features|
    ensures forall i :: 0 <= i < |features| ==>
      cards[i] == FeatureCard(IconFor(features[i].icon), features[i].title, features[i].description)
  {
    if features == [] then []
    else
      var f := features[0];
      [FeatureCard(IconFor(f.icon), f.title, f.description)] + PreviewCards(features[1..])
  }

  /** The fixed text around a feature's title and description in the
      exported page (components/LandingPageResult.tsx:26-31). */
  const BLOCK_OPEN: string :=
    "\n            <div class=\"bg-gray-800 p-6 rounded-lg text-center\">\n                <h3 class=\"text-xl font-bold mb-2\">"
  const BLOCK_MID: string :=
    "</h3>\n                <p class=\"text-gray-400\">"
  const BLOCK_CLOSE: string :=
    "</p>\n            </div>\n        "

  /** One feature's block of the exported page. */
  function FeatureBlock(f: LandingPageFeature): string
  {
    BLOCK_OPEN + f.title + BLOCK_MID + f.description + BLOCK_CLOSE
  }

  /** A block holds the title right after the opening markup and the
      description after the title, each whole. */
  lemma FeatureBlockLayout(f: LandingPageFeature)
    ensures var b := FeatureBlock(f); var t := |BLOCK_OPEN|; var d := t + |f.title| + |BLOCK_MID|;
      && d + |f.description| <= |b|
      && b[t..t + |f.title|] == f.title
      && t + |f.title| <= d
      && b[d..d + |f.description|] == f.description
  {
    FramedPair(BLOCK_OPEN, f.title, BLOCK_MID, f.description, BLOCK_CLOSE);
  }

  /** Two texts framed by three others sit whole at their offsets. */
  lemma FramedPair(o: string, x: string, m: string, y: string, c: string)
    ensures var b := o + x + m + y + c; var t := |o|; var d := t + |x| + |m|;
      && d + |y| <= |b|
      && b[t..t + |x|] == x
      && b[d..d + |y|] == y
  {
    var b := o + x + m + y + c;
    var t := |o|;
    var d := t + |x| + |m|;
    assert b == (o + x) + (m + y + c);
    assert b[t..t + |x|] == (o + x)[t..];
    assert b == (o + x + m) + (y + c);
    assert b[d..d + |y|] == (y + c)[..|y|];
  }

  /** The blocks of all features, one per feature and in order. */
  function FeatureBlocks(features: seq<LandingPageFeature>): (r: seq<string>)
    ensures |r| == |features|
    ensures forall i :: 0 <= i < |features| ==> r[i] == FeatureBlock(features[i])
  {
    if features == [] then [] else [FeatureBlock(features[0])] + FeatureBlocks(features[1..])
  }

  /** `featuresHtml`: the blocks with nothing between them (`join('')`). */
  function FeaturesHtml(features: seq<LandingPageFeature>): string
  {
    Concat(FeatureBlocks(features))
  }

  /** The blocks of two lists of features follow each other with nothing
      between them: the export is one block per feature, in input order. */
  lemma FeaturesHtmlAppend(a: seq<LandingPageFeature>, b: seq<LandingPageFeature>)
    ensures FeaturesHtml(a + b) == FeaturesHtml(a) + FeaturesHtml(b)
  {
    FeatureBlocksAppend(a, b);
    ConcatAppend(FeatureBlocks(a), FeatureBlocks(b));
  }

  /** The blocks of two lists are the blocks of the first, then of the
      second. */
  lemma {:induction false} FeatureBlocksAppend(a: seq<LandingPageFeature>, b: seq<LandingPageFeature>)
    ensures FeatureBlocks(a + b) == FeatureBlocks(a) + FeatureBlocks(b)
  {
    if a == [] {
      assert a + b == b;
    } else {
      assert (a + b)[0] == a[0];
      assert (a + b)[1..] == a[1..] + b;
      FeatureBlocksAppend(a[1..], b);
    }
  }

  /** Feature `i`'s block is found, whole, at the offset of the blocks before
      it. */
  lemma FeatureBlockAt(features: seq<LandingPageFeature>, i: nat)
    requires i < |features|
    ensures var bs := FeatureBlocks(features);
      && bs[i] == FeatureBlock(features[i])
      && OccursAt(FeaturesHtml(features), Offset(bs, i), bs[i])
  {
    ConcatPlacement(FeatureBlocks(features), i);
  }

  /** A feature's block ends before any later feature's block starts. */
  lemma FeatureBlocksInOrder(features: seq<LandingPageFeature>, i: nat, j: nat)
    requires i < j < |features|
    ensures var bs := FeatureBlocks(features);
      Offset(bs, i) + |bs[i]| <= Offset(bs, j)
  {
    OffsetsInOrder(FeatureBlocks(features), i, j);
  }

  /** Two feature lists that agree on every title and description, whatever
      their icons. */
  predicate SameText(a: seq<LandingPageFeature>, b: seq<LandingPageFeature>)
  {
    |a| == |b| && forall i :: 0 <= i < |a| ==> a[i].title == b[i].title && a[i].description == b[i].description
  }

  /** The exported features do not depend on the icons. */
  lemma FeaturesHtmlIgnoresIcons(a: seq<LandingPageFeature>, b: seq<LandingPageFeature>)
    requires SameText(a, b)
    ensures FeaturesHtml(a) == FeaturesHtml(b)
  {
    assert FeatureBlocks(a) == FeatureBlocks(b);
  }

  /** The fixed text of the exported page between the inserted values
      (components/LandingPageResult.tsx:33-67). */
  const PAGE_HEAD: string :=
    "\n<!DOCTYPE html>\n<html lang=\"en\">\n<head>\n    <meta charset=\"UTF-8\">\n"
    + "    <meta name=\"viewport\" content=\"width=device-width, initial-scale=1.0\">\n    <title>"
  const PAGE_AFTER_TITLE: string :=
    "</title>\n    <script src=\"https://cdn.tailwindcss.com\"></script>\n"
    + "    <link href=\"https://fonts.googleapis.com/css2?family=Inter:wght@400;500;700;800&display=swap\" rel=\"stylesheet\">\n"
    + "    <style>\n        body { font-family: 'Inter', sans-serif; }\n"
    + "        .gradient-text { background: linear-gradient(to right, #a78bfa, #6366f1); -webkit-background-clip: text; -webkit-text-fill-color: transparent; }\n"
    + "    </style>\n</head>\n<body class=\"bg-gray-900 text-white\">\n    <div class=\"max-w-4xl mx-auto p-8\">\n"
    + "        <header class=\"text-center py-16\">\n            <h1 class=\"text-5xl md:text-6xl font-extrabold mb-4\">"
  const PAGE_AFTER_HEADLINE: string :=
    "</h1>\n            <p class=\"text-xl text-gray-300 mb-8\">"
  const PAGE_AFTER_SUBHEADING: string :=
    "</p>\n            <a href=\"#\" class=\"bg-indigo-600 hover:bg-indigo-700 text-white font-bold py-3 px-8 rounded-full text-lg transition-transform transform hover:scale-105\">"
  const PAGE_AFTER_CTA: string :=
    "</a>\n        </header>\n        <main>\n            <section class=\"py-16\">\n"
    + "                <div class=\"grid md:grid-cols-3 gap-8\">\n                    "
  const PAGE_AFTER_FEATURES: string :=
    "\n                </div>\n            </section>\n        </main>\n"
    + "        <footer class=\"text-center py-8 border-t border-gray-800\">\n            <p class=\"text-gray-500\">&copy; "
  const PAGE_AFTER_YEAR: string := " "
  const PAGE_TAIL: string :=
    ". All rights reserved.</p>\n        </footer>\n    </div>\n</body>\n</html>\n        "

  /** A decimal digit. */
  function Digit(d: nat): char
    requires d < 10
  {
    "0123456789"[d]
  }

  /** The value of a decimal digit character. */
  function DigitValue(c: char): nat
  {
    if '0' <= c <= '9' then (c - '0') as nat else 0
  }

  /** How JavaScript writes a non-negative integer: its decimal digits, with
      no leading zero. */
  function DecimalText(n: nat): (s: string)
    ensures |s| >= 1
    ensures forall k :: 0 <= k < |s| ==> '0' <= s[k] <= '9'
    ensures n >= 10 ==> s[0] != '0'
  {
    if n < 10 then [Digit(n)] else DecimalText(n / 10) + [Digit(n % 10)]
  }

  /** Reading decimal digits back. */
  function DecimalValue(s: string): nat
  {
    if s == [] then 0 else 10 * DecimalValue(s[..|s| - 1]) + DigitValue(s[|s| - 1])
  }

  /** The year is written so that it reads back as the same number. */
  lemma {:induction false} DecimalRoundTrip(n: nat)
    ensures DecimalValue(DecimalText(n)) == n
  {
    var s := DecimalText(n);
    if n < 10 {
      assert s[..0] == [];
    } else {
      DecimalRoundTrip(n / 10);
      assert s[..|s| - 1] == DecimalText(n / 10);
    }
  }

  /** The pieces of the exported page, in order: fixed text at the even
      positions, and at the odd positions the project name (title), headline,
      subheading, call to action, features, year and project name (footer).
      `year` is `new Date().getFullYear()`, taken as an input. */
  function PageParts(c: LandingPageContent, projectName: string, year: nat): seq<string>
  {
    [PAGE_HEAD, projectName, PAGE_AFTER_TITLE, c.headline, PAGE_AFTER_HEADLINE, c.subheading,
     PAGE_AFTER_SUBHEADING, c.ctaButton, PAGE_AFTER_CTA, FeaturesHtml(c.features), PAGE_AFTER_FEATURES,
     DecimalText(year), PAGE_AFTER_YEAR, projectName, PAGE_TAIL]
  }

  /** `generateHtml` (components/LandingPageResult.tsx:25-68). */
  function GenerateHtml(c: LandingPageContent, projectName: string, year: nat): string
  {
    Concat(PageParts(c, projectName, year))
  }

  /** `x` is found, whole, at position `at` of `s`. */
  predicate OccursAt(s: string, at: nat, x: string)
  {
    at + |x| <= |s| && s[at..at + |x|] == x
  }

  /** Every piece of the page is found, whole, at the offset of the pieces
      before it; with the slot positions named by `PageParts` this places the
      project name in `<title>`, the headline, subheading and call to action
      in the header, the features in the main section, and the year and the
      project name in the footer. */
  lemma PagePiece(c: LandingPageContent, projectName: string, year: nat, k: nat)
    requires k < 15
    ensures var parts := PageParts(c, projectName, year);
      OccursAt(GenerateHtml(c, projectName, year), Offset(parts, k), parts[k])
  {
    ConcatPlacement(PageParts(c, projectName, year), k);
  }

  /** The pieces appear in their listed order, each ending before any later
      one begins. */
  lemma PagePiecesInOrder(c: LandingPageContent, projectName: string, year: nat, i: nat, j: nat)
    requires i < j < 15
    ensures var parts := PageParts(c, projectName, year);
      Offset(parts, i) + |parts[i]| <= Offset(parts, j)
  {
    OffsetsInOrder(PageParts(c, projectName, year), i, j);
  }

  /** The page opens with its fixed head, which ends in `<title>`: the
      project name comes first. */
  lemma PageStartsWithHead(c: LandingPageContent, projectName: string, year: nat)
    ensures Offset(PageParts(c, projectName, year), 1) == |PAGE_HEAD|
    ensures PAGE_HEAD[|PAGE_HEAD| - 7..] == "<title>"
  {
    var parts := PageParts(c, projectName, year);
    assert parts[..1] == [PAGE_HEAD];
    assert Concat(parts[..1]) == PAGE_HEAD by {
      assert parts[..1][1..] == [];
    }
  }

  /** The exported page does not depend on the icons of the features. */
  lemma PageIgnoresIcons(c: LandingPageContent, d: LandingPageContent, projectName: string, year: nat)
    requires c.headline == d.headline && c.subheading == d.subheading && c.ctaButton == d.ctaButton
    requires SameText(c.features, d.features)
    ensures GenerateHtml(c, projectName, year) == GenerateHtml(d, projectName, year)
  {
    FeaturesHtmlIgnoresIcons(c.features, d.features);
    assert PageParts(c, projectName, year) == PageParts(d, projectName, year);
  }
}
