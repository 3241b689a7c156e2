/** The display helpers of client/src/lib/seoHelpers.js: truncation, HTML
    escaping, and a third status/recommendation rule set for single tags. */
module SeoHelpers {
  import opened Common
  import opened Metadata

  // ---------------------------------------------------------------------
  // truncateString

  /** `str.substring(0, k)`: a negative end counts as 0, one past the length
      as the length. */
  function Substring0(s: string, k: int): (r: string)
    ensures |r| == if k < 0 then 0 else if k > |s| then |s| else k
    ensures r == s[..|r|]
  {
    if k < 0 then [] else if k > |s| then s else s[..k]
  }

  /** `truncateString(str, length)`: undefined or empty gives `''`, a string
      that fits is returned as is, a longer one is cut to `length - 3`
      characters followed by `...`. */
  function TruncateString(str: Option<string>, length: int): (r: string)
    ensures !Truthy(str) ==> r == ""
    ensures Truthy(str) && |str.value| <= length ==> r == str.value
    ensures Truthy(str) && |str.value| > length && length >= 3 ==>
      |r| == length && r == str.value[..length - 3] + "..."
    ensures Truthy(str) && |str.value| > length && length < 3 ==> r == "..."
  {
    if !Truthy(str) then ""
    else if |str.value| <= length then str.value
    else Substring0(str.value, length - 3) + "..."
  }

  /** Truncating twice is truncating once, whatever the limit. */
  lemma TruncateIdempotent(str: Option<string>, length: int)
    ensures TruncateString(Some(TruncateString(str, length)), length) == TruncateString(str, length)
  {
    var r := TruncateString(str, length);
    if Truthy(str) && |str.value| > length && length < 3 {
      assert |r| == 3;
    }
  }

  // ---------------------------------------------------------------------
  // formatTagForDisplay

  /** `s.replace(/c/g, rep)`. */
  function ReplaceAll(s: string, c: char, rep: string): (r: string)
    ensures c !in rep ==> c !in r
    ensures forall x :: x != c && x !in rep ==> (x in r <==> x in s)
  {
    if s == [] then []
    else (if s[0] == c then rep else [s[0]]) + ReplaceAll(s[1..], c, rep)
  }

  /** The escape of one character, as a single-pass reference. */
  function EscapeChar(x: char): string {
    if x == '<' then "&lt;" else if x == '>' then "&gt;" else [x]
  }

  /** The one-pass escape: each character replaced by its escape. */
  function Escape(s: string): string {
    if s == [] then [] else EscapeChar(s[0]) + Escape(s[1..])
  }

  /** `formatTagForDisplay`: `''` for an undefined or empty tag, otherwise
      every `<` then every `>` replaced by its entity. */
  function FormatTagForDisplay(tag: Option<string>): (r: string)
    ensures '<' !in r && '>' !in r
    ensures !Truthy(tag) ==> r == ""
  {
    if !Truthy(tag) then ""
    else ReplaceAll(ReplaceAll(tag.value, '<', "&lt;"), '>', "&gt;")
  }

  lemma {:induction false} ReplaceAllConcat(a: string, b: string, c: char, rep: string)
    ensures ReplaceAll(a + b, c, rep) == ReplaceAll(a, c, rep) + ReplaceAll(b, c, rep)
    decreases |a|
  {
    if a == [] {
      assert a + b == b;
    } else {
      assert (a + b)[0] == a[0];
      assert (a + b)[1..] == a[1..] + b;
      ReplaceAllConcat(a[1..], b, c, rep);
    }
  }

  /** The two passes agree with the one-pass escape: every other character
      is kept, in order. */
  lemma {:induction false} TwoPassesEscape(s: string)
    ensures ReplaceAll(ReplaceAll(s, '<', "&lt;"), '>', "&gt;") == Escape(s)
    decreases |s|
  {
    if s != [] {
      var head := if s[0] == '<' then "&lt;" else [s[0]];
      var tail := ReplaceAll(s[1..], '<', "&lt;");
      assert ReplaceAll(s, '<', "&lt;") == head + tail;
      ReplaceAllConcat(head, tail, '>', "&gt;");
      TwoPassesEscape(s[1..]);
      if s[0] == '<' {
        assert ReplaceAll(head, '>', "&gt;") == "&lt;" by {
          assert head == ['&'] + "lt;";
          assert "lt;" == ['l'] + "t;";
          assert "t;" == ['t'] + ";";
          assert ";" == [';'] + [];
        }
      } else {
        assert head == [s[0]] + [];
      }
    }
  }

  /** How often `c` occurs in `s`. */
  function Count(s: string, c: char): nat {
    if s == [] then 0 else (if s[0] == c then 1 else 0) + Count(s[1..], c)
  }

  /** Each bracket grows by three characters, nothing else changes length. */
  lemma {:induction false} EscapeLength(s: string)
    ensures |Escape(s)| == |s| + 3 * Count(s, '<') + 3 * Count(s, '>')
    decreases |s|
  {
    if s != [] {
      EscapeLength(s[1..]);
    }
  }

  /** The displayed form of a non-empty tag is its one-pass escape. */
  lemma FormatIsEscape(tag: string)
    requires tag != ""
    ensures FormatTagForDisplay(Some(tag)) == Escape(tag)
    ensures |FormatTagForDisplay(Some(tag))| == |tag| + 3 * Count(tag, '<') + 3 * Count(tag, '>')
  {
    TwoPassesEscape(tag);
    EscapeLength(tag);
  }

  // ---------------------------------------------------------------------
  // getTagStatus

  /** The `tagContent` argument: the title is passed as its text, every
      other tag as its attribute map. */
  datatype TagContent = TextContent(text: string) | AttrContent(attrs: Attrs)

  /** `!tagContent`: only the empty string is falsy; an object never is. */
  predicate Absent(c: Option<TagContent>) {
    c.None? || c.value == TextContent("")
  }

  /** `tagContent.length`: a string's length; undefined on an attribute map. */
  function ContentLength(c: TagContent): Option<nat> {
    match c
    case TextContent(t) => Some(|t|)
    case AttrContent(_) => None
  }

  /** `tagContent.content`: undefined on a string. */
  function ContentAttr(c: TagContent): Option<string> {
    match c
    case TextContent(_) => None
    case AttrContent(a) => Attr(a, "content")
  }

  predicate MeasuredTag(name: string) {
    name == "og:title" || name == "og:description" || name == "twitter:title" || name == "twitter:description"
  }

  predicate ImageTag(name: string) {
    name == "og:image" || name == "twitter:image"
  }

  /** The tags whose status reads `tagContent.content.length`, which throws
      unless the content is present. */
  predicate ReadsContentLength(name: string) {
    name == "description" || MeasuredTag(name)
  }

  /** What `getTagStatus` demands of its caller. */
  predicate StatusArgsOk(name: string, c: Option<TagContent>) {
    !Absent(c) && ReadsContentLength(name) ==> ContentAttr(c.value).Some?
  }

  /** `getTagStatus(tagName, tagContent)`. */
  function GetTagStatus(name: string, c: Option<TagContent>): (r: TagStatus)
    requires StatusArgsOk(name, c)
    ensures r == Missing <==> Absent(c)
    ensures !Absent(c) && name == "title" ==>
      (r == Optimal <==> ContentLength(c.value).Some? && 10 < ContentLength(c.value).value < 60)
    ensures !Absent(c) && name == "description" ==>
      (r == Optimal <==> 120 < |ContentAttr(c.value).value| < 158)
    ensures !Absent(c) && MeasuredTag(name) ==> (r == Optimal <==> |ContentAttr(c.value).value| > 10)
    ensures !Absent(c) && ImageTag(name) ==>
      (r == Optimal <==> Truthy(ContentAttr(c.value)) && StartsWith(ContentAttr(c.value).value, "http"))
    ensures !Absent(c) && name != "title" && !ReadsContentLength(name) && !ImageTag(name) ==> r == Optimal
  {
    if Absent(c) then Missing
    else if name == "title" then
      match ContentLength(c.value)
      case Some(n) => if 10 < n < 60 then Optimal else NeedsImprovement
      case None => NeedsImprovement
    else if name == "description" then
      var n := |ContentAttr(c.value).value|;
      if 120 < n < 158 then Optimal else NeedsImprovement
    else if MeasuredTag(name) then
      if |ContentAttr(c.value).value| > 10 then Optimal else NeedsImprovement
    else if ImageTag(name) then
      var v := ContentAttr(c.value);
      if Truthy(v) && StartsWith(v.value, "http") then Optimal else NeedsImprovement
    else Optimal
  }

  // ---------------------------------------------------------------------
  // getTagRecommendation

  /** A recommendation by the branch that produces it. */
  datatype TagAdvice =
    | MissingAdvice(name: string)
    | LengthAdvice(name: string, length: Option<nat>, verdict: Verdict)
    | CouldBeImproved(name: string)
    | ProperlyImplemented(name: string)

  /** The tags whose Needs Improvement text reports a length. */
  predicate LengthTag(name: string) {
    name == "title" || name == "description"
  }

  /** What `getTagRecommendation` demands of its caller: a description that
      needs improvement is passed with its `content`. */
  predicate RecommendationArgsOk(name: string, status: TagStatus, c: Option<TagContent>) {
    status == NeedsImprovement && LengthTag(name) ==>
      c.Some? && (name == "description" ==> ContentAttr(c.value).Some?)
  }

  /** `getTagRecommendation(tagName, status, tagContent)` as written: the
      title's cut is 50 and the description's is 120, both `<`. */
  function GetTagRecommendation(name: string, status: TagStatus, c: Option<TagContent>): (r: TagAdvice)
    requires RecommendationArgsOk(name, status, c)
    ensures r.name == name
    ensures status == Missing <==> r.MissingAdvice?
    ensures status == NeedsImprovement <==> r.LengthAdvice? || r.CouldBeImproved?
    ensures r.LengthAdvice? <==> status == NeedsImprovement && LengthTag(name)
    ensures r.ProperlyImplemented? <==> status == Optimal
    ensures r.LengthAdvice? && name == "title" ==>
      r.length == ContentLength(c.value) && (r.verdict == TooShort <==> r.length.Some? && r.length.value < 50)
    ensures r.LengthAdvice? && name == "description" ==>
      r.length == Some(|ContentAttr(c.value).value|) && (r.verdict == TooShort <==> r.length.value < 120)
  {
    match status
    case Missing => MissingAdvice(name)
    case NeedsImprovement =>
      if name == "title" then
        var n := ContentLength(c.value);
        LengthAdvice(name, n, if n.Some? && n.value < 50 then TooShort else TooLong)
      else if name == "description" then
        var n := |ContentAttr(c.value).value|;
        LengthAdvice(name, Some(n), if n < 120 then TooShort else TooLong)
      else CouldBeImproved(name)
    case Optimal => ProperlyImplemented(name)
  }

  /** For a title the 50 cut is harmless: every title `getTagStatus` marks as
      Needs Improvement is at most 10 or at least 60 long, so the verdict
      always names the side it is on. */
  lemma TitleVerdictSound(t: string)
    requires t != ""
    requires GetTagStatus("title", Some(TextContent(t))) == NeedsImprovement
    ensures GetTagRecommendation("title", NeedsImprovement, Some(TextContent(t))).verdict == TooShort <==> |t| <= 10
  {
  }

  /** A description of exactly 120 characters needs improvement and is
      reported as too long. */
  lemma DescriptionAt120IsTooLong(a: Attrs)
    requires "content" in a && |a["content"]| == 120
    ensures GetTagStatus("description", Some(AttrContent(a))) == NeedsImprovement
    ensures GetTagRecommendation("description", NeedsImprovement, Some(AttrContent(a))).verdict == TooLong
  {
  }

  /** The description verdict with the cut at the bottom of the optimal
      range included, `length <= 120`. */
  function GetTagRecommendationFixed(name: string, status: TagStatus, c: Option<TagContent>): (r: TagAdvice)
    requires RecommendationArgsOk(name, status, c)
    ensures r.name == name
    ensures r.LengthAdvice? <==> status == NeedsImprovement && LengthTag(name)
    ensures !(name == "description" && r.LengthAdvice?) ==> r == GetTagRecommendation(name, status, c)
    ensures r.LengthAdvice? ==> r.length == GetTagRecommendation(name, status, c).length
    ensures r.LengthAdvice? && name == "description" ==> (r.verdict == TooShort <==> r.length.value <= 120)
  {
    var r := GetTagRecommendation(name, status, c);
    if r.LengthAdvice? && name == "description" then
      LengthAdvice(name, r.length, if r.length.value <= 120 then TooShort else TooLong)
    else r
  }

  /** With the fix, a description the status marks as Needs Improvement is
      called too short exactly when it is below the optimal range and too
      long exactly when it is above it. */
  lemma FixedDescriptionVerdictSound(a: Attrs)
    requires "content" in a
    requires GetTagStatus("description", Some(AttrContent(a))) == NeedsImprovement
    ensures var r := GetTagRecommendationFixed("description", NeedsImprovement, Some(AttrContent(a)));
      && (r.verdict == TooShort <==> |a["content"]| <= 120)
      && (r.verdict == TooLong <==> |a["content"]| >= 158)
  {
  }

  /** `"Missing " + rest`, the lead of every Missing text. */
  function MissingText(rest: string): (r: string)
    ensures StartsWith(r, "Missing ") && r[8..] == rest
  {
    var r := "Missing " + rest;
    assert r[..8] == "Missing ";
    r
  }

  const MissingTitleText := MissingText("title tag. Add a descriptive title between 50-60 characters.")
  const MissingDescriptionText := MissingText("meta description. Add a compelling description between 120-158 characters.")
  const MissingViewportText := MissingText("viewport meta tag. This is important for mobile optimization.")
  const MissingCanonicalText := MissingText("canonical URL tag. This helps prevent duplicate content issues.")
  const MissingRobotsText := MissingText("robots meta tag. This helps control how search engines crawl and index your page.")
  const MissingHreflangText := MissingText("hreflang tags. These are important if your site has multilingual content.")

  /** The verdict as the text words it. */
  function SideText(v: Verdict): string {
    if v == TooShort then "too short" else "too long"
  }

  /** `${tagContent.length}`: a title passed as an element has no length. */
  function CountText(n: Option<nat>): string {
    match n
    case Some(k) => Decimal(k)
    case None => "undefined"
  }

  /** The text of a recommendation: a Missing text starts "Missing ", a
      length text carries the interpolated count and the verdict, and the
      other two start with the tag's name. */
  function RenderTagAdvice(r: TagAdvice): (t: string)
    ensures r.MissingAdvice? ==> StartsWith(t, "Missing ")
    ensures r.LengthAdvice? ==> Contains(t, CountText(r.length)) && Contains(t, SideText(r.verdict))
    ensures r.CouldBeImproved? || r.ProperlyImplemented? ==> StartsWith(t, r.name)
  {
    match r
    case MissingAdvice(name) =>
      if name == "title" then MissingTitleText
      else if name == "description" then MissingDescriptionText
      else if name == "viewport" then MissingViewportText
      else if name == "canonical" then MissingCanonicalText
      else if name == "robots" then MissingRobotsText
      else if name == "hreflang" then MissingHreflangText
      else MissingText(name + " tag.")
    case LengthAdvice(name, n, v) =>
      var lead := if name == "title" then "Title length (" else "Description length (";
      var aim := if name == "title" then ". Aim for 50-60 characters." else ". Aim for 120-158 characters.";
      LengthText(lead, CountText(n), SideText(v), aim)
    case CouldBeImproved(name) => NameText(name, " tag could be improved.")
    case ProperlyImplemented(name) => NameText(name, " tag is properly implemented.")
  }

  /** `${lead}${count} characters) is ${side}${aim}`. */
  function LengthText(lead: string, count: string, side: string, aim: string): (t: string)
    ensures Contains(t, count) && Contains(t, side)
  {
    var mid := " characters) is ";
    var t := lead + count + mid + side + aim;
    assert t == lead + count + (mid + side + aim);
    ContainsInfix(lead, count, mid + side + aim);
    assert t == (lead + count + mid) + side + aim;
    ContainsInfix(lead + count + mid, side, aim);
    t
  }

  /** `${name}${rest}`. */
  function NameText(name: string, rest: string): (t: string)
    ensures StartsWith(t, name)
  {
    var t := name + rest;
    assert t[..|name|] == name;
    t
  }

  /** An Optimal tag's text depends on its name only. */
  lemma OptimalTextIgnoresContent(name: string, c: Option<TagContent>, d: Option<TagContent>)
    ensures RenderTagAdvice(GetTagRecommendation(name, Optimal, c)) == name + " tag is properly implemented."
    ensures GetTagRecommendation(name, Optimal, c) == GetTagRecommendation(name, Optimal, d)
  {
  }
}
