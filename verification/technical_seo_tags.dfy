/** The two cards of client/src/components/TechnicalSEOTags.jsx: the robots
    meta tag and the hreflang alternates. */
module TechnicalSeoTags {
  import opened Common
  import opened Metadata
  import AnalysisResults

  datatype TechName = RobotsTag | HreflangTags

  /** `{ name, content, status }`; the recommendation follows from `status`
      and is rendered by `Recommendation`. */
  datatype TechItem = TechItem(name: TechName, content: Option<string>, status: TagStatus)

  function RobotsSnippet(robots: Attrs): string {
    "<meta name=\"robots\" content=\"" + Interp(Attr(robots, "content")) + "\">"
  }

  /** One `<link rel="alternate" hreflang=… href=…>` line. */
  function HreflangLine(tag: Attrs): string {
    "<link rel=\"alternate\" hreflang=\"" + Interp(Attr(tag, "hreflang")) + "\" href=\"" + Interp(Attr(tag, "href")) + "\">"
  }

  function HreflangLines(tags: seq<Attrs>): (r: seq<string>)
    ensures |r| == |tags|
    ensures forall i :: 0 <= i < |tags| ==> r[i] == HreflangLine(tags[i])
  {
    seq(|tags|, i requires 0 <= i < |tags| => HreflangLine(tags[i]))
  }

  function RobotsItem(robots: Option<Attrs>): (r: TechItem)
    ensures r.name == RobotsTag
    ensures r.status == Optimal <==> robots.Some?
    ensures r.status == Missing <==> robots.None?
    ensures r.content.None? <==> robots.None?
  {
    match robots
    case Some(t) => TechItem(RobotsTag, Some(RobotsSnippet(t)), Optimal)
    case None => TechItem(RobotsTag, None, Missing)
  }

  function HreflangItem(hreflang: seq<Attrs>): (r: TechItem)
    ensures r.name == HreflangTags
    ensures r.status == Optimal <==> |hreflang| > 0
    ensures r.status == Missing <==> |hreflang| == 0
    ensures r.content.None? <==> |hreflang| == 0
  {
    if |hreflang| > 0 then TechItem(HreflangTags, Some(Join(HreflangLines(hreflang), "\n")), Optimal)
    else TechItem(HreflangTags, None, Missing)
  }

  /** `tagItems`: robots, then hreflang. */
  function TagItems(robots: Option<Attrs>, hreflang: seq<Attrs>): (r: seq<TechItem>)
    ensures |r| == 2 && r[0].name == RobotsTag && r[1].name == HreflangTags
    ensures r[0].status == Optimal <==> robots.Some?
    ensures r[0].status == Missing <==> robots.None?
    ensures robots.Some? ==> r[0].content == Some(RobotsSnippet(robots.value))
    ensures robots.None? ==> r[0].content.None?
    ensures r[1].status == Optimal <==> |hreflang| > 0
    ensures r[1].status == Missing <==> |hreflang| == 0
    ensures |hreflang| > 0 ==> r[1].content == Some(Join(HreflangLines(hreflang), "\n"))
    ensures |hreflang| == 0 ==> r[1].content.None?
  {
    [RobotsItem(robots), HreflangItem(hreflang)]
  }

  lemma {:induction false} NoSeparatorInFields(p: string, a: string, m: string, b: string, q: string, c: char)
    requires c !in p && c !in a && c !in m && c !in b && c !in q
    ensures c !in p + a + m + b + q
  {
  }

  /** A line carries no newline unless one of its attribute values does. */
  lemma LineHasNoNewline(tag: Attrs)
    requires '\n' !in Interp(Attr(tag, "hreflang")) && '\n' !in Interp(Attr(tag, "href"))
    ensures '\n' !in HreflangLine(tag)
  {
    NoSeparatorInFields("<link rel=\"alternate\" hreflang=\"", Interp(Attr(tag, "hreflang")), "\" href=\"",
                        Interp(Attr(tag, "href")), "\">", '\n');
  }

  /** The hreflang content holds one line per alternate, in order: splitting
      it on newlines gives back the lines, when no value holds a newline. */
  lemma HreflangContentSplits(hreflang: seq<Attrs>)
    requires |hreflang| > 0
    requires forall i :: 0 <= i < |hreflang| ==>
      '\n' !in Interp(Attr(hreflang[i], "hreflang")) && '\n' !in Interp(Attr(hreflang[i], "href"))
    ensures HreflangItem(hreflang).content.Some?
    ensures Split(HreflangItem(hreflang).content.value, '\n') == HreflangLines(hreflang)
    ensures |Split(HreflangItem(hreflang).content.value, '\n')| == |hreflang|
  {
    var lines := HreflangLines(hreflang);
    forall i | 0 <= i < |lines|
      ensures '\n' !in lines[i]
    {
      LineHasNoNewline(hreflang[i]);
    }
    SplitJoin(lines, '\n');
  }

  /** Counting the Optimal cards gives the results page's technical
      category: optimal with both, warning with one, error with none. */
  lemma CardsMatchTechnicalCategory(m: PageMetadata)
    ensures var items := TagItems(m.metaTags.robots, m.linkTags.hreflang);
      var optimal := (if items[0].status == Optimal then 1 else 0) + (if items[1].status == Optimal then 1 else 0);
      var st := AnalysisResults.CalculateCategoryScores(m).technical.status;
      && (st == AnalysisResults.OptimalCategory <==> optimal == 2)
      && (st == AnalysisResults.WarningCategory <==> optimal == 1)
      && (st == AnalysisResults.ErrorCategory <==> optimal == 0)
  {
    AnalysisResults.TechnicalStatusByTags(m);
  }

  // ---------------------------------------------------------------------
  // Recommendation texts

  const ImplementationMarker := "Implementation:"

  function MissingLead(n: TechName): string {
    match n
    case RobotsTag => "Missing robots meta tag. "
    case HreflangTags => "Missing hreflang tags. These are important if your site has multilingual content. "
  }

  function MissingSnippet(n: TechName): string {
    match n
    case RobotsTag => " <meta name=\"robots\" content=\"index, follow\">"
    case HreflangTags => " <link rel=\"alternate\" hreflang=\"en\" href=\"https://example.com/\">"
  }

  /** The recommendation a card shows for its status. */
  function Recommendation(item: TechItem): string {
    if item.status == Optimal then
      match item.name
      case RobotsTag => "Robots meta tag is properly implemented."
      case HreflangTags => "Hreflang tags are properly implemented."
    else MissingText(item.name)
  }

  function MissingText(n: TechName): string {
    MissingLead(n) + ImplementationMarker + MissingSnippet(n)
  }

  /** Every Missing card's recommendation contains the marker the snippet
      display splits on. */
  lemma MissingRecommendationHasMarker(item: TechItem)
    requires item.status == Missing
    ensures Contains(Recommendation(item), ImplementationMarker)
  {
    assert Recommendation(item) == MissingText(item.name);
    ContainsInfix(MissingLead(item.name), ImplementationMarker, MissingSnippet(item.name));
  }
}
