/** The `/api/analyze` handler of server/routes.ts, reduced to its rules: the
    `url` check and the filters that turn the page's raw `<meta>` and
    `<link>` attribute maps into the metadata record. URL parsing and the
    fetch are parameters. */
module Routes {
  import opened Common
  import opened Metadata

  // ---------------------------------------------------------------------
  // Extraction filters

  /** Some attribute is `property` and its value starts with `og:`. */
  predicate IsOgTag(tag: Attrs) {
    "property" in tag && StartsWith(tag["property"], "og:")
  }

  /** Some attribute is `name` and its value starts with `twitter:`. */
  predicate IsTwitterTag(tag: Attrs) {
    "name" in tag && StartsWith(tag["name"], "twitter:")
  }

  predicate IsRobots(tag: Attrs) { HasAttr(tag, "name", "robots") }
  predicate IsViewport(tag: Attrs) { HasAttr(tag, "name", "viewport") }
  predicate IsDescription(tag: Attrs) { HasAttr(tag, "name", "description") }
  predicate IsCanonical(tag: Attrs) { HasAttr(tag, "rel", "canonical") }

  /** `rel` is `alternate` and `hreflang` is a non-empty string. */
  predicate IsHreflang(tag: Attrs) {
    HasAttr(tag, "rel", "alternate") && Truthy(Attr(tag, "hreflang"))
  }

  predicate IsFavicon(tag: Attrs) {
    HasAttr(tag, "rel", "icon") || HasAttr(tag, "rel", "shortcut icon") || HasAttr(tag, "rel", "apple-touch-icon")
  }

  /** `analysisData` built from the page's `url`, `<title>` text and the
      attribute maps of its `<meta>` and `<link>` elements in document order. */
  function Extract(url: string, title: string, metas: seq<Attrs>, links: seq<Attrs>): (m: PageMetadata)
    ensures m.url == url && m.title == title && m.allMetaTags == metas && m.allLinkTags == links
    ensures m.socialTags.openGraph == Filter(IsOgTag, metas)
    ensures m.socialTags.twitter == Filter(IsTwitterTag, metas)
    ensures m.linkTags.hreflang == Filter(IsHreflang, links)
    ensures m.metaTags.robots == Find(IsRobots, metas)
    ensures m.metaTags.viewport == Find(IsViewport, metas)
    ensures m.metaTags.description == Find(IsDescription, metas)
    ensures m.metaTags.canonical == Find(IsCanonical, links)
    ensures m.linkTags.favicon == Find(IsFavicon, links)
  {
    PageMetadata(
      url, title,
      MetaTags(Find(IsDescription, metas), Find(IsViewport, metas), Find(IsRobots, metas), Find(IsCanonical, links)),
      SocialTags(Filter(IsOgTag, metas), Filter(IsTwitterTag, metas)),
      LinkTags(Filter(IsHreflang, links), Find(IsFavicon, links)),
      metas, links)
  }

  /** The social lists are exactly the `og:` / `twitter:` maps among the
      page's meta tags, and the hreflang list the matching links. */
  lemma ExtractedListsAreSubsets(url: string, title: string, metas: seq<Attrs>, links: seq<Attrs>)
    ensures var m := Extract(url, title, metas, links);
      && (forall i :: 0 <= i < |m.socialTags.openGraph| ==>
            m.socialTags.openGraph[i] in metas && IsOgTag(m.socialTags.openGraph[i]))
      && (forall i :: 0 <= i < |metas| && IsOgTag(metas[i]) ==> metas[i] in m.socialTags.openGraph)
      && (forall i :: 0 <= i < |m.socialTags.twitter| ==>
            m.socialTags.twitter[i] in metas && IsTwitterTag(m.socialTags.twitter[i]))
      && (forall i :: 0 <= i < |metas| && IsTwitterTag(metas[i]) ==> metas[i] in m.socialTags.twitter)
      && (forall i :: 0 <= i < |m.linkTags.hreflang| ==>
            m.linkTags.hreflang[i] in links && IsHreflang(m.linkTags.hreflang[i]))
  {
  }

  /** Extraction commutes with appending elements: the lists keep document
      order. */
  lemma ExtractKeepsOrder(metas: seq<Attrs>, more: seq<Attrs>, links: seq<Attrs>, moreLinks: seq<Attrs>)
    ensures Extract("", "", metas + more, links + moreLinks).socialTags.openGraph
      == Filter(IsOgTag, metas) + Filter(IsOgTag, more)
    ensures Extract("", "", metas + more, links + moreLinks).socialTags.twitter
      == Filter(IsTwitterTag, metas) + Filter(IsTwitterTag, more)
    ensures Extract("", "", metas + more, links + moreLinks).linkTags.hreflang
      == Filter(IsHreflang, links) + Filter(IsHreflang, moreLinks)
  {
    FilterConcat(IsOgTag, metas, more);
    FilterConcat(IsTwitterTag, metas, more);
    FilterConcat(IsHreflang, links, moreLinks);
  }

  /** `o` is what `s.find(p)` returns: the first element satisfying `p`, or
      nothing when none does. */
  predicate FirstMatch(p: Attrs -> bool, s: seq<Attrs>, o: Option<Attrs>) {
    && (o.None? <==> forall i :: 0 <= i < |s| ==> !p(s[i]))
    && (o.Some? ==> exists i :: 0 <= i < |s| && s[i] == o.value && p(o.value) && forall j :: 0 <= j < i ==> !p(s[j]))
  }

  lemma FindIsFirstMatch(p: Attrs -> bool, s: seq<Attrs>)
    ensures FirstMatch(p, s, Find(p, s))
  {
  }

  /** Each single-tag field is the first matching element of its list. */
  lemma ExtractedLookupsAreFirstMatch(metas: seq<Attrs>, links: seq<Attrs>)
    ensures var m := Extract("", "", metas, links);
      && FirstMatch(IsRobots, metas, m.metaTags.robots)
      && FirstMatch(IsViewport, metas, m.metaTags.viewport)
      && FirstMatch(IsDescription, metas, m.metaTags.description)
      && FirstMatch(IsCanonical, links, m.metaTags.canonical)
      && FirstMatch(IsFavicon, links, m.linkTags.favicon)
  {
    FindIsFirstMatch(IsRobots, metas);
    FindIsFirstMatch(IsViewport, metas);
    FindIsFirstMatch(IsDescription, metas);
    FindIsFirstMatch(IsCanonical, links);
    FindIsFirstMatch(IsFavicon, links);
  }

  /** A later duplicate of the robots tag is ignored. */
  lemma FirstRobotsWins(before: seq<Attrs>, tag: Attrs, after: seq<Attrs>)
    requires IsRobots(tag)
    requires forall i :: 0 <= i < |before| ==> !IsRobots(before[i])
    ensures Extract("", "", before + [tag] + after, []).metaTags.robots == Some(tag)
  {
    var s := before + [tag] + after;
    assert s[|before|] == tag;
    assert forall i :: 0 <= i < |before| ==> s[i] == before[i];
  }

  /** The names are compared exactly: `Robots` is not the robots tag. */
  lemma CapitalisedNameIsNotRobots()
    ensures !IsRobots(map["name" := "Robots"])
  {
    assert "Robots"[0] != "robots"[0];
  }

  /** A description meta tag without `content` makes the record unscorable:
      the scorer would read the length of an undefined value. */
  lemma DescriptionWithoutContentUnscorable(metas: seq<Attrs>)
    requires Find(IsDescription, metas).Some? && "content" !in Find(IsDescription, metas).value
    ensures !Scorable(Extract("", "", metas, []))
  {
  }

  // ---------------------------------------------------------------------
  // The handler

  /** The fetched document, already parsed: its `<title>` text and the
      attribute maps of its elements. */
  datatype Page = Page(title: string, metas: seq<Attrs>, links: seq<Attrs>)

  datatype Response =
    | BadRequest(message: string)
    | FetchFailed
    | Analyzed(data: PageMetadata)

  function StatusCode(r: Response): nat {
    match r
    case BadRequest(_) => 400
    case FetchFailed => 500
    case Analyzed(_) => 200
  }

  /** `POST /api/analyze` with body field `url`; `parses` stands for
      `new URL(url)` succeeding and `fetched` for the outcome of the fetch. */
  function Analyze(url: Option<string>, parses: string -> bool, fetched: Option<Page>): (r: Response)
    ensures !Truthy(url) ==> r == BadRequest("URL is required")
    ensures Truthy(url) && !parses(url.value) ==> r == BadRequest("Invalid URL format")
    ensures r.Analyzed? <==> Truthy(url) && parses(url.value) && fetched.Some?
    ensures r.Analyzed? ==> r.data == Extract(url.value, fetched.value.title, fetched.value.metas, fetched.value.links)
  {
    if !Truthy(url) then BadRequest("URL is required")
    else if !parses(url.value) then BadRequest("Invalid URL format")
    else match fetched
      case None => FetchFailed
      case Some(p) => Analyzed(Extract(url.value, p.title, p.metas, p.links))
  }

  /** Without a `url` the answer is 400 whatever the fetch would have
      returned: nothing is fetched. */
  lemma MissingUrlIsRejectedFirst(url: Option<string>, p: string -> bool, q: string -> bool, a: Option<Page>, b: Option<Page>)
    requires !Truthy(url)
    ensures StatusCode(Analyze(url, p, a)) == 400
    ensures Analyze(url, p, a) == Analyze(url, q, b)
  {
  }
}
