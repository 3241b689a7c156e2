/** The tag lists of client/src/components/SocialMediaTags.jsx: one item per
    Open Graph or Twitter attribute map, with its name, its snippet and its
    status. */
module SocialMediaTags {
  import opened Common
  import opened Metadata
  import SeoHelpers

  datatype Network = OpenGraphNetwork | TwitterNetwork

  /** The attribute that names a tag: `property` for Open Graph, `name` for
      Twitter. */
  function KeyOf(n: Network): string {
    match n
    case OpenGraphNetwork => "property"
    case TwitterNetwork => "name"
  }

  /** The one tag whose length is judged. */
  function DescriptionName(n: Network): string {
    match n
    case OpenGraphNetwork => "og:description"
    case TwitterNetwork => "twitter:description"
  }

  /** `{ name, content, status }` of one tag. */
  datatype SocialItem = SocialItem(name: Option<string>, content: string, status: TagStatus)

  predicate IsDescriptionTag(n: Network, tag: Attrs) {
    Attr(tag, KeyOf(n)) == Some(DescriptionName(n))
  }

  /** `tag.content.length` is read only for the description tag, so only
      there must `content` be present. */
  predicate ItemArgsOk(n: Network, tag: Attrs) {
    IsDescriptionTag(n, tag) ==> "content" in tag
  }

  /** A description under 60 characters needs improvement. */
  predicate ShortDescription(n: Network, tag: Attrs)
    requires ItemArgsOk(n, tag)
  {
    IsDescriptionTag(n, tag) && |tag["content"]| < 60
  }

  /** `<meta property="P" content="C">` or `<meta name="N" content="C">`,
      the attribute values interpolated as they are. */
  function Snippet(n: Network, tag: Attrs): string {
    "<meta " + KeyOf(n) + "=\"" + Interp(Attr(tag, KeyOf(n))) + "\" content=\"" + Interp(Attr(tag, "content")) + "\">"
  }

  function Item(n: Network, tag: Attrs): (r: SocialItem)
    requires ItemArgsOk(n, tag)
    ensures r.name == Attr(tag, KeyOf(n))
    ensures r.status == NeedsImprovement <==> ShortDescription(n, tag)
    ensures r.status != Missing
  {
    SocialItem(Attr(tag, KeyOf(n)), Snippet(n, tag), if ShortDescription(n, tag) then NeedsImprovement else Optimal)
  }

  /** `ogTagItems` / `twitterTagItems`: the list mapped item by item. */
  function Items(n: Network, tags: seq<Attrs>): (r: seq<SocialItem>)
    requires forall i :: 0 <= i < |tags| ==> ItemArgsOk(n, tags[i])
    ensures |r| == |tags|
    ensures forall i :: 0 <= i < |tags| ==> r[i].name == Attr(tags[i], KeyOf(n))
    ensures forall i :: 0 <= i < |tags| ==> (r[i].status == NeedsImprovement <==> ShortDescription(n, tags[i]))
    ensures forall i :: 0 <= i < |tags| ==> r[i].status != Missing
  {
    seq(|tags|, i requires 0 <= i < |tags| => Item(n, tags[i]))
  }

  /** Mapping keeps the input order: the items of two lists in a row are the
      items of each, in a row. */
  lemma ItemsConcat(n: Network, a: seq<Attrs>, b: seq<Attrs>)
    requires forall i :: 0 <= i < |a| ==> ItemArgsOk(n, a[i])
    requires forall i :: 0 <= i < |b| ==> ItemArgsOk(n, b[i])
    ensures forall i :: 0 <= i < |a + b| ==> ItemArgsOk(n, (a + b)[i])
    ensures Items(n, a + b) == Items(n, a) + Items(n, b)
  {
    assert forall i :: 0 <= i < |a + b| ==> (a + b)[i] == if i < |a| then a[i] else b[i - |a|];
    var l, r := Items(n, a + b), Items(n, a) + Items(n, b);
    assert |l| == |r|;
    forall i | 0 <= i < |l|
      ensures l[i] == r[i]
    {
      if i < |a| {
        assert l[i] == Item(n, a[i]);
      } else {
        assert l[i] == Item(n, b[i - |a|]);
      }
    }
  }

  lemma {:induction false} ContainsFields(p: string, key: string, m: string, content: string, q: string)
    ensures Contains(p + key + m + content + q, key)
    ensures Contains(p + key + m + content + q, content)
  {
    ContainsInfix(p, key, m + content + q);
    assert p + key + m + content + q == p + key + (m + content + q);
    ContainsInfix(p + key + m, content, q);
  }

  /** The snippet shows both attribute values verbatim: nothing is escaped. */
  lemma SnippetIsVerbatim(n: Network, tag: Attrs)
    ensures Contains(Snippet(n, tag), Interp(Attr(tag, "content")))
    ensures Contains(Snippet(n, tag), Interp(Attr(tag, KeyOf(n))))
  {
    ContainsFields("<meta " + KeyOf(n) + "=\"", Interp(Attr(tag, KeyOf(n))), "\" content=\"", Interp(Attr(tag, "content")), "\">");
  }

  /** This component and seoHelpers' `getTagStatus` judge a description of
      11 to 59 characters differently: here it needs improvement, there it
      is optimal. */
  lemma DescriptionRulesDisagree(n: Network, tag: Attrs)
    requires IsDescriptionTag(n, tag) && "content" in tag && 10 < |tag["content"]| < 60
    ensures Item(n, tag).status == NeedsImprovement
    ensures SeoHelpers.GetTagStatus(DescriptionName(n), Some(SeoHelpers.AttrContent(tag))) == Optimal
  {
  }
}
