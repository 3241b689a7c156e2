/** The category summaries of client/src/components/AnalysisResults.jsx:
    `calculateCategoryScores` and the `socialShareStatus` expression, lifted
    out of the component as pure functions of the metadata record. */
module AnalysisResults {
  import opened Common
  import opened Metadata

  /** A category `status`: 'optimal', 'warning' or 'error'. */
  datatype CategoryStatus = OptimalCategory | WarningCategory | ErrorCategory

  datatype EssentialSummary = EssentialSummary(score: int, status: CategoryStatus, statusText: string)
  datatype CountedSummary = CountedSummary(status: CategoryStatus, statusText: string, count: nat)

  /** `categoriesScores`; before any data arrives the social and technical
      entries carry no count. */
  datatype CategoryScores = CategoryScores(
    essential: EssentialSummary,
    social: CountedSummary,
    technical: CountedSummary,
    hasCounts: bool)

  /** The state `useState` starts from. */
  function InitialScores(): (r: CategoryScores)
    ensures r.essential.status == ErrorCategory && r.social.status == ErrorCategory
    ensures r.technical.status == ErrorCategory && r.essential.score == 0 && !r.hasCounts
  {
    CategoryScores(
      EssentialSummary(0, ErrorCategory, "Missing essential tags"),
      CountedSummary(ErrorCategory, "No social tags detected", 0),
      CountedSummary(ErrorCategory, "Missing technical tags", 0),
      false)
  }

  /** How many of title, description, canonical and viewport are present. */
  function EssentialPresent(m: PageMetadata): (k: nat)
    ensures k <= 4
  {
    Indicator(m.title != "") + Indicator(m.metaTags.description.Some?)
      + Indicator(m.metaTags.canonical.Some?) + Indicator(m.metaTags.viewport.Some?)
  }

  /** `Math.round((k / 4) * 100)`. The quotient and product are exact in
      binary floating point for k in 0..4, so this is the half-up rounding
      of k * 100 / 4. */
  function EssentialScore(k: nat): (s: int)
    requires k <= 4
    ensures 8 * s <= 2 * k * 100 + 4 < 8 * s + 8
  {
    (2 * k * 100 + 4) / 8
  }

  function EssentialStatus(score: int): CategoryStatus {
    if score >= 80 then OptimalCategory else if score >= 50 then WarningCategory else ErrorCategory
  }

  function EssentialText(s: CategoryStatus): string {
    match s
    case OptimalCategory => "Well optimized"
    case WarningCategory => "Needs improvement"
    case ErrorCategory => "Missing essential tags"
  }

  function SocialStatus(og: nat, twitter: nat): CategoryStatus {
    if og > 0 && twitter > 0 then OptimalCategory
    else if og > 0 || twitter > 0 then WarningCategory
    else ErrorCategory
  }

  function SocialText(s: CategoryStatus): string {
    match s
    case OptimalCategory => "Complete"
    case WarningCategory => "Partial implementation"
    case ErrorCategory => "No social tags detected"
  }

  /** `data.metaTags.robots && ...hreflang.length > 0`; an array is truthy
      even when empty. */
  function TechnicalStatus(robots: bool, hreflang: nat): CategoryStatus {
    if robots && hreflang > 0 then OptimalCategory
    else if robots || hreflang > 0 then WarningCategory
    else ErrorCategory
  }

  function TechnicalText(s: CategoryStatus): string {
    match s
    case OptimalCategory => "Well implemented"
    case WarningCategory => "Partial implementation"
    case ErrorCategory => "Missing technical tags"
  }

  /** `calculateCategoryScores(data)`. */
  function CalculateCategoryScores(m: PageMetadata): (r: CategoryScores)
    ensures r.hasCounts
    ensures r.social.count == |m.socialTags.openGraph| + |m.socialTags.twitter|
    ensures r.technical.count == Indicator(m.metaTags.robots.Some?) + |m.linkTags.hreflang|
  {
    var es := EssentialScore(EssentialPresent(m));
    var ss := SocialStatus(|m.socialTags.openGraph|, |m.socialTags.twitter|);
    var ts := TechnicalStatus(m.metaTags.robots.Some?, |m.linkTags.hreflang|);
    CategoryScores(
      EssentialSummary(es, EssentialStatus(es), EssentialText(EssentialStatus(es))),
      CountedSummary(ss, SocialText(ss), |m.socialTags.openGraph| + |m.socialTags.twitter|),
      CountedSummary(ts, TechnicalText(ts), Indicator(m.metaTags.robots.Some?) + |m.linkTags.hreflang|),
      true)
  }

  /** The essential score is a quarter of 100 per present tag. */
  lemma EssentialScoreIsQuarters(m: PageMetadata)
    ensures CalculateCategoryScores(m).essential.score == 25 * EssentialPresent(m)
    ensures CalculateCategoryScores(m).essential.score in {0, 25, 50, 75, 100}
  {
    var k := EssentialPresent(m);
    var s := EssentialScore(k);
    assert 8 * s <= 200 * k + 4 < 8 * s + 8;
  }

  /** Optimal needs all four essential tags, warning two or three, error
      at most one. */
  lemma EssentialStatusByCount(m: PageMetadata)
    ensures var st, k := CalculateCategoryScores(m).essential.status, EssentialPresent(m);
      && (st == OptimalCategory <==> k == 4)
      && (st == WarningCategory <==> k == 2 || k == 3)
      && (st == ErrorCategory <==> k <= 1)
  {
    EssentialScoreIsQuarters(m);
  }

  lemma SocialStatusByLists(m: PageMetadata)
    ensures var st, og, tw := CalculateCategoryScores(m).social.status, |m.socialTags.openGraph|, |m.socialTags.twitter|;
      && (st == OptimalCategory <==> og > 0 && tw > 0)
      && (st == WarningCategory <==> (og > 0) != (tw > 0))
      && (st == ErrorCategory <==> og == 0 && tw == 0)
  {
  }

  lemma TechnicalStatusByTags(m: PageMetadata)
    ensures var st, rb, hl := CalculateCategoryScores(m).technical.status, m.metaTags.robots.Some?, |m.linkTags.hreflang| > 0;
      && (st == OptimalCategory <==> rb && hl)
      && (st == WarningCategory <==> rb != hl)
      && (st == ErrorCategory <==> !rb && !hl)
  {
  }

  /** The overview's `socialShareStatus`. */
  datatype ShareStatus = Complete | Partial | MissingShare

  /** Complete with both families, Partial with exactly one, Missing with
      neither. */
  function SocialShareStatus(m: PageMetadata): (r: ShareStatus)
    ensures r == Complete <==> |m.socialTags.openGraph| > 0 && |m.socialTags.twitter| > 0
    ensures r == Partial <==> (|m.socialTags.openGraph| > 0) != (|m.socialTags.twitter| > 0)
    ensures r == MissingShare <==> m.socialTags.openGraph == [] && m.socialTags.twitter == []
  {
    if |m.socialTags.openGraph| > 0 && |m.socialTags.twitter| > 0 then Complete
    else if |m.socialTags.openGraph| > 0 || |m.socialTags.twitter| > 0 then Partial
    else MissingShare
  }

  /** The overview badge and the social category always agree. */
  lemma ShareStatusMatchesSocial(m: PageMetadata)
    ensures var st := CalculateCategoryScores(m).social.status;
      && (SocialShareStatus(m) == Complete <==> st == OptimalCategory)
      && (SocialShareStatus(m) == Partial <==> st == WarningCategory)
      && (SocialShareStatus(m) == MissingShare <==> st == ErrorCategory)
  {
  }
}
