/** The rules of client/src/components/GooglePreview.jsx: the snippet
    quality badge and the two length bars under the preview. The component
    receives the page title and the description's `content`, which is
    undefined when the description tag is absent or has no `content`. */
module GooglePreview {
  import opened Common
  import opened Metadata
  import SeoAnalyzer
  import SeoUtils

  // ---------------------------------------------------------------------
  // getSnippetQuality

  datatype QualityStatus = OptimalQuality | WarningQuality | ErrorQuality

  /** The five `{ status, message }` values `getSnippetQuality` can return. */
  datatype SnippetQuality =
    | MissingMetaData
    | Optimized
    | CouldBeImproved
    | MissingDescription
    | MissingTitle

  function StatusOf(q: SnippetQuality): QualityStatus {
    match q
    case MissingMetaData => ErrorQuality
    case Optimized => OptimalQuality
    case _ => WarningQuality
  }

  function Message(q: SnippetQuality): string {
    match q
    case MissingMetaData => "Missing meta data"
    case Optimized => "Optimized for search results"
    case CouldBeImproved => "Could be improved"
    case MissingDescription => "Missing description"
    case MissingTitle => "Missing title"
  }

  /** The preview's own ranges: a title strictly between 10 and 60, a
      description strictly between 120 and 160. */
  predicate PreviewRanges(title: string, description: string) {
    10 < |title| < 60 && 120 < |description| < 160
  }

  function GetSnippetQuality(title: string, description: Option<string>): (q: SnippetQuality)
    ensures StatusOf(q) == ErrorQuality <==> title == "" && !Truthy(description)
    ensures title != "" && Truthy(description) ==>
      (q == Optimized <==> PreviewRanges(title, description.value))
      && (q != Optimized ==> q == CouldBeImproved)
    ensures q == MissingDescription <==> title != "" && !Truthy(description)
    ensures q == MissingTitle <==> title == "" && Truthy(description)
  {
    if title != "" && Truthy(description) then
      if PreviewRanges(title, description.value) then Optimized else CouldBeImproved
    else if title != "" then MissingDescription
    else if Truthy(description) then MissingTitle
    else MissingMetaData
  }

  /** The badge is optimal only when both fields are there. */
  lemma OptimalNeedsBoth(title: string, description: Option<string>)
    requires StatusOf(GetSnippetQuality(title, description)) == OptimalQuality
    ensures title != "" && Truthy(description)
  {
  }

  /** A page the scorer passes on title and description gets the optimal
      badge: the scorer's description range lies inside the preview's. */
  lemma ScorerPassImpliesOptimized(m: PageMetadata)
    requires Scorable(m)
    requires SeoAnalyzer.FieldReport(m, SeoAnalyzer.Title).passed == 1
    requires SeoAnalyzer.FieldReport(m, SeoAnalyzer.Description).passed == 1
    ensures m.metaTags.description.Some?
    ensures GetSnippetQuality(m.title, Some(DescriptionContent(m))) == Optimized
  {
  }

  /** The converse fails: a 158- or 159-character description earns the
      scorer's warning and the preview's optimal badge. */
  lemma PreviewOptimalWhereScorerWarns(m: PageMetadata)
    requires Scorable(m) && 10 < |m.title| < 60
    requires m.metaTags.description.Some? && 158 <= |DescriptionContent(m)| < 160
    ensures GetSnippetQuality(m.title, Some(DescriptionContent(m))) == Optimized
    ensures SeoAnalyzer.FieldReport(m, SeoAnalyzer.Description).warnings == 1
  {
  }

  // ---------------------------------------------------------------------
  // The length bars

  datatype BarColour = BarError | BarWarning | BarSuccess

  /** The title bar: error when absent, warning under 30, error over 60,
      success for 30..60 inclusive. */
  function TitleBar(title: string): (c: BarColour)
    ensures c == BarSuccess <==> 30 <= |title| <= 60
    ensures c == BarWarning <==> 0 < |title| < 30
    ensures c == BarError <==> title == "" || |title| > 60
  {
    if title == "" then BarError
    else if |title| < 30 then BarWarning
    else if |title| > 60 then BarError
    else BarSuccess
  }

  /** The description bar: error when absent, warning under 80, error over
      160, success for 80..160 inclusive. */
  function DescriptionBar(description: Option<string>): (c: BarColour)
    ensures !Truthy(description) ==> c == BarError
    ensures Truthy(description) ==>
      var n := |description.value|;
      && (c == BarSuccess <==> 80 <= n <= 160)
      && (c == BarWarning <==> n < 80)
      && (c == BarError <==> n > 160)
  {
    if !Truthy(description) then BarError
    else if |description.value| < 80 then BarWarning
    else if |description.value| > 160 then BarError
    else BarSuccess
  }

  /** The `N/60` and `N/160` counters: 0 when the field is absent. */
  function Counter(v: Option<string>): (n: nat)
    ensures !Truthy(v) ==> n == 0
    ensures Truthy(v) ==> n == |v.value| && n > 0
  {
    if Truthy(v) then |v.value| else 0
  }

  /** The guard in the counter changes nothing: it is the length of the
      value, with an absent one read as empty. */
  lemma CounterIsLength(v: Option<string>)
    ensures Counter(v) == |v.GetOr("")|
  {
  }

  function SeoUtilsColour(s: SeoUtils.Status): BarColour {
    match s
    case Good => BarSuccess
    case Warning => BarWarning
    case Error => BarError
  }

  /** The title bar is seoUtils' `analyzeTitle` status under another name. */
  lemma TitleBarMatchesAnalyzeTitle(title: string)
    ensures TitleBar(title) == SeoUtilsColour(SeoUtils.AnalyzeTitle(Some(title)).status)
  {
  }

  /** The description bar is not: seoUtils calls 70..79 characters good and
      anything over 160 a warning, where the bar shows a warning and an
      error. */
  lemma DescriptionBarDiffersFromAnalyzeDescription(d: string)
    ensures 70 <= |d| < 80 ==>
      DescriptionBar(Some(d)) == BarWarning && SeoUtils.AnalyzeDescription(Some(d)).status == SeoUtils.Good
    ensures |d| > 160 ==>
      DescriptionBar(Some(d)) == BarError && SeoUtils.AnalyzeDescription(Some(d)).status == SeoUtils.Warning
    ensures 80 <= |d| <= 160 ==>
      DescriptionBar(Some(d)) == BarSuccess && SeoUtils.AnalyzeDescription(Some(d)).status == SeoUtils.Good
  {
  }
}
