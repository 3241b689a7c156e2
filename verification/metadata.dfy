/** The record the server hands to the client after extracting a page's
    tags: `analysisData` in the repository. Every tag is the raw attribute
    map of its element; the title is the text of `<title>`, `""` when the
    page has none. */
module Metadata {
  import opened Common

  datatype MetaTags = MetaTags(
    description: Option<Attrs>,
    viewport: Option<Attrs>,
    robots: Option<Attrs>,
    canonical: Option<Attrs>)

  datatype SocialTags = SocialTags(openGraph: seq<Attrs>, twitter: seq<Attrs>)

  datatype LinkTags = LinkTags(hreflang: seq<Attrs>, favicon: Option<Attrs>)

  datatype PageMetadata = PageMetadata(
    url: string,
    title: string,
    metaTags: MetaTags,
    socialTags: SocialTags,
    linkTags: LinkTags,
    allMetaTags: seq<Attrs>,
    allLinkTags: seq<Attrs>)

  /** A present description must carry a `content` attribute: the scorer and
      the recommender read `description.content.length`, which throws in
      JavaScript when the attribute is missing. */
  predicate Scorable(m: PageMetadata) {
    m.metaTags.description.Some? ==> "content" in m.metaTags.description.value
  }

  /** The description's `content`, for a scorable page that has one. */
  function DescriptionContent(m: PageMetadata): string
    requires Scorable(m) && m.metaTags.description.Some?
  {
    m.metaTags.description.value["content"]
  }

  /** `tags.some(tag => tag[key] === value)`. */
  predicate SomeTagHas(tags: seq<Attrs>, key: string, value: string) {
    exists i :: 0 <= i < |tags| && HasAttr(tags[i], key, value)
  }

  /** The three-valued label the tag cards show: 'Optimal',
      'Needs Improvement' or 'Missing'. */
  datatype TagStatus = Optimal | NeedsImprovement | Missing

  /** Which way a length that needs improvement is said to be off:
      'too short' or 'too long'. */
  datatype Verdict = TooShort | TooLong
}
