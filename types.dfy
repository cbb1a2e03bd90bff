/** The records the application passes around (types.ts). They are plain
    values: nothing in the application updates one after it is built. */
module Types {
  import opened Common

  /** The suggested technology, one line each (types.ts:1-5). */
  datatype TechStack = TechStack(frontend: string, backend: string, database: string)

  /** One generated MVP plan: two strings, a tech stack and five ordered lists
      (types.ts:7-16). No list length is enforced. */
  datatype MVPPlan = MVPPlan(
    projectName: string,
    summary: string,
    coreFeatures: seq<string>,
    userPersonas: seq<string>,
    techStack: TechStack,
    userStories: seq<string>,
    monetizationStrategies: seq<string>,
    successMetrics: seq<string>)

  /** The closed set of six feature icons (types.ts:21, and the same list in
      the response schema at services/geminiService.ts:79). */
  datatype Icon = Zap | ShieldCheck | Users | Globe | TrendingUp | Star

  /** The tag each icon has in JSON. */
  function IconName(i: Icon): string
  {
    match i
    case Zap => "zap"
    case ShieldCheck => "shield-check"
    case Users => "users"
    case Globe => "globe"
    case TrendingUp => "trending-up"
    case Star => "star"
  }

  /** The icon a tag names, if it names one. The six tags are the only ones
      accepted, and each is read back as the icon it was written from. */
  function ParseIcon(name: string): (r: Option<Icon>)
    ensures forall i :: IconName(i) == name ==> r == Some(i)
    ensures r.Some? ==> IconName(r.value) == name
  {
    if name == "zap" then Some(Zap)
    else if name == "shield-check" then Some(ShieldCheck)
    else if name == "users" then Some(Users)
    else if name == "globe" then Some(Globe)
    else if name == "trending-up" then Some(TrendingUp)
    else if name == "star" then Some(Star)
    else None
  }

  /** Writing an icon's tag and reading it back gives the same icon, so the
      six tags are pairwise distinct. */
  lemma ParseIconName(i: Icon)
    ensures ParseIcon(IconName(i)) == Some(i)
  {
  }

  /** One highlighted feature (types.ts:18-22). The declared type of `icon` is
      the six-tag union, but the value arrives from `JSON.parse` of a model's
      answer, which nothing validates (services/geminiService.ts:149), so it is
      kept as the tag text; `ParseIcon` says whether it is one of the six. */
  datatype LandingPageFeature = LandingPageFeature(title: string, description: string, icon: string)

  /** A feature whose icon is one the declared type allows. */
  predicate WellTypedFeature(f: LandingPageFeature)
  {
    ParseIcon(f.icon).Some?
  }

  /** The landing-page copy (types.ts:24-29); `features` is ordered and its
      length is not enforced. */
  datatype LandingPageContent = LandingPageContent(
    headline: string,
    subheading: string,
    ctaButton: string,
    features: seq<LandingPageFeature>)

  /** One completed generation (types.ts:31-36). */
  datatype HistoryEntry = HistoryEntry(
    id: string,
    mvpPlan: MVPPlan,
    landingPageContent: LandingPageContent,
    createdAt: string)
}
