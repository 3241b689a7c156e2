/** The second rule set, client/src/lib/seoUtils.js: per-tag classifiers with
    their own (inclusive) thresholds, canonical-URL comparison, the mean of
    several scores, and the recommendation list built from an analysis. */
module SeoUtils {
  import opened Common

  const MaxTitleLength := 60
  const MinTitleLength := 30
  const MaxDescriptionLength := 160
  const MinDescriptionLength := 70

  /** An analysis `status`: "good", "warning" or "error". */
  datatype Status = Good | Warning | Error

  /** `{ status, message, score }`. */
  datatype Analysis = Analysis(status: Status, message: string, score: nat)

  /** `{ status, message, code, score }` of the canonical check. */
  datatype CanonicalAnalysis = CanonicalAnalysis(status: Status, message: string, code: string, score: nat)

  /** `!value` in JavaScript for a possibly undefined string. */
  predicate Missing(v: Option<string>) {
    !Truthy(v)
  }

  // ---------------------------------------------------------------------
  // analyzeTitle and analyzeDescription

  /** `analyzeTitle`: too long is an error, too short only a warning. */
  function AnalyzeTitle(title: Option<string>): (r: Analysis)
    ensures Missing(title) ==> r.status == Error && r.score == 0
    ensures !Missing(title) ==>
      var n := |title.value|;
      && (r.status == Good <==> MinTitleLength <= n <= MaxTitleLength)
      && (r.status == Warning <==> n < MinTitleLength)
      && (r.status == Error <==> n > MaxTitleLength)
      && r.score == (if n > MaxTitleLength then 50 else if n < MinTitleLength then 70 else 100)
  {
    if Missing(title) then Analysis(Error, "Missing title tag", 0)
    else
      var n := |title.value|;
      if n > MaxTitleLength then
        Analysis(Error, "Too long at " + Decimal(n) + " characters (max 60)", 50)
      else if n < MinTitleLength then
        Analysis(Warning, "Could be more descriptive (" + Decimal(n) + "/30-60)", 70)
      else
        Analysis(Good, "Optimal length (" + Decimal(n) + "/60)", 100)
  }

  /** `analyzeDescription`: both out-of-range cases are warnings, with
      different scores. */
  function AnalyzeDescription(description: Option<string>): (r: Analysis)
    ensures Missing(description) ==> r.status == Error && r.score == 0
    ensures !Missing(description) ==>
      var n := |description.value|;
      && r.status != Error
      && (r.status == Good <==> MinDescriptionLength <= n <= MaxDescriptionLength)
      && r.score == (if n > MaxDescriptionLength then 70 else if n < MinDescriptionLength then 80 else 100)
  {
    if Missing(description) then Analysis(Error, "Missing description meta tag", 0)
    else
      var n := |description.value|;
      if n > MaxDescriptionLength then
        Analysis(Warning, "Too long at " + Decimal(n) + " characters (max 160)", 70)
      else if n < MinDescriptionLength then
        Analysis(Warning, "Could be more descriptive (" + Decimal(n) + "/70-160)", 80)
      else
        Analysis(Good, "Optimal length (" + Decimal(n) + "/160)", 100)
  }

  /** Both classifiers: the score alone tells the status. */
  lemma ScoreDeterminesStatus(title: Option<string>, description: Option<string>)
    ensures AnalyzeTitle(title).status == Good <==> AnalyzeTitle(title).score == 100
    ensures AnalyzeTitle(title).status == Error <==> AnalyzeTitle(title).score <= 50
    ensures AnalyzeDescription(description).status == Good <==> AnalyzeDescription(description).score == 100
    ensures AnalyzeDescription(description).status == Error <==> AnalyzeDescription(description).score == 0
  {
  }

  // ---------------------------------------------------------------------
  // analyzeCanonical

  /** `s.replace(/\/$/, "")`: drops one trailing slash, if there is one. */
  function StripTrailingSlash(s: string): (r: string)
    ensures r == s || r + "/" == s
    ensures |s| > 0 && s[|s| - 1] == '/' ==> |r| == |s| - 1
  {
    if |s| > 0 && s[|s| - 1] == '/' then s[..|s| - 1] else s
  }

  /** Only one slash goes: "x//" and "x" do not match. */
  lemma StripOnlyOne(x: string)
    ensures StripTrailingSlash(x + "//") == x + "/"
  {
    assert (x + "//")[..|x| + 1] == x + "/";
  }

  function AnalyzeCanonical(canonical: Option<string>, currentUrl: string): (r: CanonicalAnalysis)
    ensures Missing(canonical) ==>
      r.status == Error && r.score == 0 && r.code == "<link rel=\"canonical\" href=\"" + currentUrl + "\">"
    ensures !Missing(canonical) ==> r.code == canonical.value && r.status != Error
    ensures !Missing(canonical) ==>
      (r.status == Good <==> StripTrailingSlash(canonical.value) == StripTrailingSlash(currentUrl))
    ensures r.score == (match r.status case Good => 100 case Warning => 50 case Error => 0)
  {
    if Missing(canonical) then
      CanonicalAnalysis(Error, "Missing canonical URL",
                        "<link rel=\"canonical\" href=\"" + currentUrl + "\">", 0)
    else if StripTrailingSlash(canonical.value) != StripTrailingSlash(currentUrl) then
      CanonicalAnalysis(Warning, "Canonical URL doesn't match the current URL", canonical.value, 50)
    else
      CanonicalAnalysis(Good, "Canonical URL is properly implemented", canonical.value, 100)
  }

  predicate EndsWithSlash(s: string) {
    |s| > 0 && s[|s| - 1] == '/'
  }

  /** Identical URLs match, and one trailing slash on the current URL makes
      no difference. */
  lemma CanonicalIgnoresOneSlash(c: string, u: string)
    requires c != ""
    ensures AnalyzeCanonical(Some(c), c).status == Good
    ensures !EndsWithSlash(u) ==>
      AnalyzeCanonical(Some(c), u + "/").status == AnalyzeCanonical(Some(c), u).status
  {
    if !EndsWithSlash(u) {
      assert (u + "/")[..|u|] == u;
    }
  }

  /** A second trailing slash is not ignored. */
  lemma DoubleSlashMismatch(x: string)
    requires x != "" && !EndsWithSlash(x)
    ensures AnalyzeCanonical(Some(x + "//"), x).status == Warning
  {
    StripOnlyOne(x);
    assert |StripTrailingSlash(x + "//")| == |x| + 1;
  }

  // ---------------------------------------------------------------------
  // calculateOverallScore

  function Sum(s: seq<int>): int {
    if s == [] then 0 else s[0] + Sum(s[1..])
  }

  /** `Math.round(t / n)` for `n > 0`: JavaScript rounds halves up, that is
      towards positive infinity, also for negative `t`. */
  function RoundedQuotient(t: int, n: int): (r: int)
    requires n > 0
    ensures 2 * n * r <= 2 * t + n < 2 * n * r + 2 * n
  {
    var d := 2 * n;
    var q := (2 * t + n) / d;
    assert 2 * t + n == q * d + (2 * t + n) % d;
    q
  }

  /** `calculateOverallScore`: the mean rounded half up, or 0 for no scores. */
  function CalculateOverallScore(scores: seq<int>): (r: int)
    ensures |scores| == 0 ==> r == 0
    ensures |scores| > 0 ==> 2 * |scores| * r <= 2 * Sum(scores) + |scores| < 2 * |scores| * r + 2 * |scores|
  {
    if |scores| == 0 then 0 else RoundedQuotient(Sum(scores), |scores|)
  }

  lemma {:induction false} SumBounds(s: seq<int>, lo: int, hi: int)
    requires forall i :: 0 <= i < |s| ==> lo <= s[i] <= hi
    ensures |s| * lo <= Sum(s) <= |s| * hi
    decreases |s|
  {
    if s != [] {
      SumBounds(s[1..], lo, hi);
      assert |s| * lo == lo + |s[1..]| * lo;
      assert |s| * hi == hi + |s[1..]| * hi;
    }
  }

  /** `a * c < b * c` with `c > 0` gives `a < b`. */
  lemma CancelPositive(a: int, b: int, c: int)
    requires c > 0 && a * c < b * c
    ensures a < b
  {
  }

  /** A half-up rounding of `t / n` with `t` between `n * lo` and `n * hi`
      lies between `lo` and `hi`. */
  lemma RoundedBetween(t: int, n: int, r: int, lo: int, hi: int)
    requires n > 0 && n * lo <= t <= n * hi
    requires 2 * n * r <= 2 * t + n < 2 * n * r + 2 * n
    ensures lo <= r <= hi
  {
    var d := 2 * n;
    assert r * d <= 2 * t + n;
    assert 2 * t == t * 2;
    assert hi * d == (n * hi) * 2;
    assert lo * d == (n * lo) * 2;
    assert (hi + 1) * d == hi * d + d;
    assert (r + 1) * d == r * d + d;
    CancelPositive(r, hi + 1, d);
    CancelPositive(lo, r + 1, d);
  }

  /** The overall score lies between the smallest and the largest input. */
  lemma OverallScoreBetween(scores: seq<int>, lo: int, hi: int)
    requires |scores| > 0
    requires forall i :: 0 <= i < |scores| ==> lo <= scores[i] <= hi
    ensures lo <= CalculateOverallScore(scores) <= hi
  {
    SumBounds(scores, lo, hi);
    RoundedBetween(Sum(scores), |scores|, CalculateOverallScore(scores), lo, hi);
  }

  /** Equal scores average to themselves. */
  lemma OverallScoreOfEqual(scores: seq<int>, v: int)
    requires |scores| > 0
    requires forall i :: 0 <= i < |scores| ==> scores[i] == v
    ensures CalculateOverallScore(scores) == v
  {
    OverallScoreBetween(scores, v, v);
  }

  // ---------------------------------------------------------------------
  // generateRecommendations

  /** An entry of `analysis.essentialTags`. */
  datatype EssentialTag = EssentialTag(
    name: string,
    status: Status,
    message: string,
    code: Option<string>,
    recommendedCode: Option<string>)

  /** A social tag's `type`. */
  datatype SocialKind = TwitterKind | OpenGraphKind

  /** An entry of `analysis.socialTags`. */
  datatype SocialTag = SocialTag(kind: SocialKind, status: Status, required: bool, recommendedCode: Option<string>)

  datatype Priority = High | Medium

  /** One recommendation by the branch that pushes it: a missing essential
      tag, an essential tag to improve, or the Twitter / Open Graph card with
      its joined code. */
  datatype Entry =
    | AddMissing(name: string, recommendedCode: Option<string>)
    | Improve(name: string, message: string, code: Option<string>)
    | SocialCard(kind: SocialKind, joined: string)

  function PriorityOf(e: Entry): Priority {
    if e.AddMissing? then High else Medium
  }

  /** The `code` field; undefined only for a warning tag that carries none. */
  function CodeOf(e: Entry): Option<string> {
    match e
    case AddMissing(_, rc) => Some(rc.GetOr(""))
    case Improve(_, _, c) => c
    case SocialCard(_, j) => Some(j)
  }

  /** `{ title, subtitle, description, code, priority, learnMoreUrl }`. */
  datatype UtilRecommendation = UtilRecommendation(
    title: string,
    subtitle: string,
    description: string,
    code: Option<string>,
    priority: Priority,
    learnMoreUrl: string)

  /** The five tag names the two lookup tables know. */
  predicate KnownTag(name: string) {
    name == "title" || name == "description" || name == "viewport" || name == "canonical" || name == "robots"
  }

  /** The texts `getTagDescription` returns, each a sentence about "the <tag>". */
  const TitleTagText := The("title tag is crucial for SEO as it tells search engines and users what your page is about. Aim for 50-60 characters.")
  const DescriptionTagText := The("meta description provides a summary of the page content and is often displayed in search results. Aim for 150-160 characters.")
  const ViewportTagText := The("viewport meta tag is essential for responsive design. This tag tells browsers how to control the page's dimensions and scaling on different devices.")
  const CanonicalTagText := The("canonical tag helps prevent duplicate content issues by specifying the preferred URL for a page.")
  const RobotsTagText := The("robots meta tag tells search engines how to crawl and index your page.")

  function The(rest: string): (r: string)
    ensures StartsWith(r, "The ") && r[4..] == rest
  {
    var r := "The " + rest;
    assert r[..4] == "The ";
    r
  }

  /** `getTagDescription`: a sentence about a known tag, nothing otherwise. */
  function GetTagDescription(name: string): (r: string)
    ensures !KnownTag(name) ==> r == ""
    ensures KnownTag(name) ==> StartsWith(r, "The ")
  {
    if name == "title" then TitleTagText
    else if name == "description" then DescriptionTagText
    else if name == "viewport" then ViewportTagText
    else if name == "canonical" then CanonicalTagText
    else if name == "robots" then RobotsTagText
    else ""
  }

  /** The links `getLearnMoreUrl` returns. */
  const TitleTagUrl := Https("moz.com/learn/seo/title-tag")
  const DescriptionTagUrl := Https("moz.com/learn/seo/meta-description")
  const ViewportTagUrl := Https("developer.mozilla.org/en-US/docs/Web/HTML/Viewport_meta_tag")
  const CanonicalTagUrl := Https("moz.com/learn/seo/canonicalization")
  const RobotsTagUrl := Https("developers.google.com/search/docs/advanced/robots/robots_meta_tag")

  /** An https link to `rest`. */
  function Https(rest: string): (r: string)
    ensures StartsWith(r, "https://") && r[8..] == rest
  {
    var r := "https://" + rest;
    assert r[..8] == "https://";
    r
  }

  /** `getLearnMoreUrl`: an https link for a known tag, nothing otherwise. */
  function GetLearnMoreUrl(name: string): (r: string)
    ensures !KnownTag(name) ==> r == ""
    ensures KnownTag(name) ==> StartsWith(r, "https://")
  {
    if name == "title" then TitleTagUrl
    else if name == "description" then DescriptionTagUrl
    else if name == "viewport" then ViewportTagUrl
    else if name == "canonical" then CanonicalTagUrl
    else if name == "robots" then RobotsTagUrl
    else ""
  }

  /** The entry for one essential tag: high priority for an error, medium for
      a warning, none for a good tag. */
  function EssentialEntry(tag: EssentialTag): (o: Option<Entry>)
    ensures o.Some? <==> tag.status != Good
    ensures o.Some? ==> (PriorityOf(o.value) == High <==> tag.status == Error)
    ensures o.Some? ==> !o.value.SocialCard? && o.value.name == tag.name
    ensures o.Some? && tag.status == Error ==> CodeOf(o.value) == Some(tag.recommendedCode.GetOr(""))
    ensures o.Some? && tag.status == Warning ==> CodeOf(o.value) == tag.code && o.value.Improve? && o.value.message == tag.message
  {
    match tag.status
    case Error => Some(AddMissing(tag.name, tag.recommendedCode))
    case Warning => Some(Improve(tag.name, tag.message, tag.code))
    case Good => None
  }

  /** Tags that draw an entry. */
  predicate NeedsWork(tag: EssentialTag) {
    tag.status != Good
  }

  /** The `forEach` over the essential tags. */
  function EssentialEntries(tags: seq<EssentialTag>): (r: seq<Entry>)
    ensures |r| == |Filter(NeedsWork, tags)|
    ensures forall i :: 0 <= i < |r| ==> !r[i].SocialCard?
  {
    if tags == [] then []
    else
      match EssentialEntry(tags[0])
      case Some(e) => [e] + EssentialEntries(tags[1..])
      case None => EssentialEntries(tags[1..])
  }

  /** Entry `k` is the entry of the `k`-th tag that needs work: nothing is
      reordered, skipped or invented. */
  lemma {:induction false} EssentialEntriesFollowTags(tags: seq<EssentialTag>, k: nat)
    requires k < |Filter(NeedsWork, tags)|
    ensures k < |EssentialEntries(tags)|
    ensures EssentialEntry(Filter(NeedsWork, tags)[k]) == Some(EssentialEntries(tags)[k])
    decreases |tags|
  {
    var f := Filter(NeedsWork, tags);
    var rest := Filter(NeedsWork, tags[1..]);
    if NeedsWork(tags[0]) {
      assert f == [tags[0]] + rest;
      assert EssentialEntries(tags) == [EssentialEntry(tags[0]).value] + EssentialEntries(tags[1..]);
      if k > 0 {
        EssentialEntriesFollowTags(tags[1..], k - 1);
      }
    } else {
      assert f == rest;
      assert EssentialEntries(tags) == EssentialEntries(tags[1..]);
      EssentialEntriesFollowTags(tags[1..], k);
    }
  }

  /** A tag `missingTwitter` / `missingOG` collects. */
  predicate MissingOf(kind: SocialKind, tag: SocialTag) {
    tag.kind == kind && tag.status == Error && tag.required
  }

  /** `missingTwitter` / `missingOG`. */
  function MissingTags(kind: SocialKind, tags: seq<SocialTag>): seq<SocialTag> {
    Filter(t => MissingOf(kind, t), tags)
  }

  lemma MissingTagsNonEmpty(kind: SocialKind, tags: seq<SocialTag>)
    ensures |MissingTags(kind, tags)| > 0 <==> exists i :: 0 <= i < |tags| && MissingOf(kind, tags[i])
  {
    var missing := MissingTags(kind, tags);
    if |missing| > 0 {
      assert missing[0] in tags;
    }
  }

  /** `tags.map(tag => tag.recommendedCode)` as `join` sees it: an undefined
      element is joined as the empty string. */
  function Codes(tags: seq<SocialTag>): (r: seq<string>)
    ensures |r| == |tags|
    ensures forall i :: 0 <= i < |tags| ==> r[i] == tags[i].recommendedCode.GetOr("")
  {
    if tags == [] then [] else [tags[0].recommendedCode.GetOr("")] + Codes(tags[1..])
  }

  /** The Twitter or Open Graph card: present exactly when some required tag
      of that kind is in error, its code their snippets one per line. */
  function SocialEntry(kind: SocialKind, tags: seq<SocialTag>): (o: Option<Entry>)
    ensures o.Some? <==> exists i :: 0 <= i < |tags| && MissingOf(kind, tags[i])
    ensures o.Some? ==> o.value == SocialCard(kind, Join(Codes(MissingTags(kind, tags)), "\n"))
  {
    MissingTagsNonEmpty(kind, tags);
    var missing := MissingTags(kind, tags);
    if |missing| == 0 then None else Some(SocialCard(kind, Join(Codes(missing), "\n")))
  }

  /** The code of a social entry splits back into the missing tags'
      recommended snippets, one per line, when none of them spans lines. */
  lemma SocialCodeSplits(kind: SocialKind, tags: seq<SocialTag>)
    requires SocialEntry(kind, tags).Some?
    requires forall i :: 0 <= i < |tags| ==> '\n' !in tags[i].recommendedCode.GetOr("")
    ensures Split(SocialEntry(kind, tags).value.joined, '\n') == Codes(MissingTags(kind, tags))
  {
    var missing := MissingTags(kind, tags);
    var codes := Codes(missing);
    forall i | 0 <= i < |codes|
      ensures '\n' !in codes[i]
    {
      assert missing[i] in tags;
    }
    MissingTagsNonEmpty(kind, tags);
    SplitJoin(codes, '\n');
  }

  datatype AnalysisInput = AnalysisInput(essentialTags: seq<EssentialTag>, socialTags: seq<SocialTag>)

  /** `generateRecommendations`: the essential entries in tag order, then the
      Twitter card, then the Open Graph card. */
  function GenerateRecommendations(a: AnalysisInput): (r: seq<Entry>)
    ensures |r| == |Filter(NeedsWork, a.essentialTags)|
      + |Emit(SocialEntry(TwitterKind, a.socialTags))| + |Emit(SocialEntry(OpenGraphKind, a.socialTags))|
    ensures r[..|EssentialEntries(a.essentialTags)|] == EssentialEntries(a.essentialTags)
  {
    var e := EssentialEntries(a.essentialTags);
    var r := e + Emit(SocialEntry(TwitterKind, a.socialTags)) + Emit(SocialEntry(OpenGraphKind, a.socialTags));
    assert r[..|e|] == e;
    r
  }

  function Emit(o: Option<Entry>): (r: seq<Entry>)
    ensures |r| == (if o.Some? then 1 else 0)
    ensures o.Some? ==> r[0] == o.value
  {
    match o
    case Some(x) => [x]
    case None => []
  }

  /** The cards come after all essential entries, Twitter before Open Graph,
      and no essential entry is a card. */
  lemma SocialEntriesLast(a: AnalysisInput)
    ensures var r, n := GenerateRecommendations(a), |EssentialEntries(a.essentialTags)|;
      && (SocialEntry(TwitterKind, a.socialTags).Some? ==> r[n] == SocialEntry(TwitterKind, a.socialTags).value)
      && (SocialEntry(OpenGraphKind, a.socialTags).Some? ==>
            r[|r| - 1] == SocialEntry(OpenGraphKind, a.socialTags).value)
      && (forall i :: n <= i < |r| ==> r[i].SocialCard?)
      && (forall i :: 0 <= i < n ==> !r[i].SocialCard?)
  {
  }

  // ---------------------------------------------------------------------
  // The rendered records

  const TwitterCardText :=
    "Twitter Card meta tags are missing, which means your content won't display rich previews when shared on Twitter. Add these tags to improve engagement."
  const OpenGraphCardText :=
    "Open Graph meta tags are missing, which means your content won't display rich previews when shared on social platforms like Facebook and LinkedIn. Add these tags to improve engagement."

  function Render(e: Entry): UtilRecommendation {
    match e
    case AddMissing(name, _) =>
      UtilRecommendation(
        "Add missing " + name + " tag",
        "Critical for SEO performance",
        "The " + name + " tag is missing, which is essential for proper SEO. " + GetTagDescription(name),
        CodeOf(e), High, GetLearnMoreUrl(name))
    case Improve(name, message, _) =>
      UtilRecommendation(
        "Improve " + name + " tag", "Enhance SEO effectiveness", message, CodeOf(e), Medium, GetLearnMoreUrl(name))
    case SocialCard(TwitterKind, _) =>
      UtilRecommendation(
        "Add Twitter Card meta tags", "Enhance Twitter link previews", TwitterCardText, CodeOf(e), Medium,
        "https://developer.twitter.com/en/docs/twitter-for-websites/cards/overview/abouts-cards")
    case SocialCard(OpenGraphKind, _) =>
      UtilRecommendation(
        "Add Open Graph meta tags", "Improve social media sharing", OpenGraphCardText, CodeOf(e), Medium,
        "https://ogp.me/")
  }

  /** Rendering keeps the priority and the code. */
  lemma RenderKeeps(e: Entry)
    ensures Render(e).priority == PriorityOf(e)
    ensures Render(e).code == CodeOf(e)
  {
  }

  /** `generateRecommendations` as the records it pushes. */
  function GenerateRecommendationRecords(a: AnalysisInput): (r: seq<UtilRecommendation>)
    ensures |r| == |GenerateRecommendations(a)|
    ensures forall i :: 0 <= i < |r| ==> r[i] == Render(GenerateRecommendations(a)[i])
  {
    var es := GenerateRecommendations(a);
    seq(|es|, i requires 0 <= i < |es| => Render(es[i]))
  }
}
