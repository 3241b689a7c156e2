/** The four cards of client/src/components/EssentialMetaTags.jsx: the
    `tagItems` array built from the title, description, canonical and
    viewport props, each with its content snippet, status and
    recommendation. */
module EssentialMetaTags {
  import opened Common
  import opened Metadata
  import SeoAnalyzer

  datatype ItemName = TitleTag | MetaDescription | CanonicalUrl | ViewportTag

  function DisplayName(n: ItemName): string {
    match n
    case TitleTag => "Title Tag"
    case MetaDescription => "Meta Description"
    case CanonicalUrl => "Canonical URL"
    case ViewportTag => "Viewport"
  }

  /** A card's recommendation, by the branch that produces it. */
  datatype ItemAdvice =
    | OptimalLength(length: nat)
    | LengthOff(length: nat, verdict: Verdict)
    | Implemented
    | MissingWithSnippet

  /** `{ name, content, status, recommendation }`; `content` is null for an
      absent tag. */
  datatype Item = Item(name: ItemName, content: Option<string>, status: TagStatus, advice: ItemAdvice)

  /** What the component reads: `description.content.length` throws unless a
      present description has `content`. */
  predicate PropsOk(description: Option<Attrs>) {
    description.Some? ==> "content" in description.value
  }

  // ---------------------------------------------------------------------
  // The verdicts as written, and as evidently intended

  /** Line 89: `title.length < 10 ? 'too short' : 'too long'`. */
  function TitleVerdict(n: nat): Verdict {
    if n < 10 then TooShort else TooLong
  }

  /** Line 101: `description.content.length < 120 ? 'too short' : 'too long'`. */
  function DescriptionVerdict(n: nat): Verdict {
    if n < 120 then TooShort else TooLong
  }

  /** A title of exactly 10 characters needs improvement and is called too long. */
  lemma TitleOfTenIsTooLong(t: string)
    requires |t| == 10
    ensures TitleItem(t).status == NeedsImprovement
    ensures TitleItem(t).advice == LengthOff(10, TooLong)
  {
  }

  /** A description of exactly 120 characters needs improvement and is
      called too long. */
  lemma DescriptionOf120IsTooLong(d: Attrs)
    requires "content" in d && |d["content"]| == 120
    ensures DescriptionItem(Some(d)).status == NeedsImprovement
    ensures DescriptionItem(Some(d)).advice == LengthOff(120, TooLong)
  {
  }

  /** The cut at the lower bound of the optimal range, included. */
  function TitleVerdictFixed(n: nat): Verdict {
    if n <= 10 then TooShort else TooLong
  }

  function DescriptionVerdictFixed(n: nat): Verdict {
    if n <= 120 then TooShort else TooLong
  }

  /** With the fix, a length outside the optimal range is called too short
      exactly when it is below it. */
  lemma FixedVerdictsSound(n: nat)
    ensures !(10 < n < 60) ==> (TitleVerdictFixed(n) == TooShort <==> n <= 10)
    ensures !(10 < n < 60) ==> (TitleVerdictFixed(n) == TooLong <==> n >= 60)
    ensures !(120 < n < 158) ==> (DescriptionVerdictFixed(n) == TooShort <==> n <= 120)
    ensures !(120 < n < 158) ==> (DescriptionVerdictFixed(n) == TooLong <==> n >= 158)
  {
  }

  /** As written, the verdict is wrong exactly at the lower bound. */
  lemma VerdictsDifferOnlyAtLowerBound(n: nat)
    ensures TitleVerdict(n) != TitleVerdictFixed(n) <==> n == 10
    ensures DescriptionVerdict(n) != DescriptionVerdictFixed(n) <==> n == 120
  {
  }

  // ---------------------------------------------------------------------
  // The four items

  /** Optimal strictly inside the bounds, Needs Improvement when present
      otherwise, Missing when absent. */
  function LengthStatus(present: bool, n: nat, lo: nat, hi: nat): (s: TagStatus)
    ensures s == Missing <==> !present
    ensures s == Optimal <==> present && lo < n < hi
  {
    if !present then Missing else if lo < n < hi then Optimal else NeedsImprovement
  }

  function TitleItemWith(title: string, verdict: nat -> Verdict): (r: Item)
    ensures r.name == TitleTag
    ensures r.content.None? <==> title == ""
    ensures r.status == LengthStatus(title != "", |title|, 10, 60)
    ensures r.status == Missing <==> r.advice == MissingWithSnippet
    ensures r.status == Optimal <==> r.advice == OptimalLength(|title|)
    ensures r.status == NeedsImprovement <==> r.advice == LengthOff(|title|, verdict(|title|))
  {
    var n := |title|;
    var status := LengthStatus(title != "", n, 10, 60);
    Item(TitleTag,
         if title != "" then Some("<title>" + title + "</title>") else None,
         status,
         match status
         case Missing => MissingWithSnippet
         case Optimal => OptimalLength(n)
         case NeedsImprovement => LengthOff(n, verdict(n)))
  }

  function DescriptionItemWith(description: Option<Attrs>, verdict: nat -> Verdict): (r: Item)
    requires PropsOk(description)
    ensures r.name == MetaDescription
    ensures r.content.None? <==> description.None?
    ensures description.None? ==> r.status == Missing && r.advice == MissingWithSnippet
    ensures description.Some? ==>
      var n := |description.value["content"]|;
      && r.status == LengthStatus(true, n, 120, 158)
      && (r.status == Optimal <==> r.advice == OptimalLength(n))
      && (r.status == NeedsImprovement <==> r.advice == LengthOff(n, verdict(n)))
  {
    match description
    case None => Item(MetaDescription, None, Missing, MissingWithSnippet)
    case Some(d) =>
      var n := |d["content"]|;
      var status := LengthStatus(true, n, 120, 158);
      Item(MetaDescription,
           Some("<meta name=\"description\" content=\"" + d["content"] + "\">"),
           status,
           if status == Optimal then OptimalLength(n) else LengthOff(n, verdict(n)))
  }

  /** The title card as written. */
  function TitleItem(title: string): Item {
    TitleItemWith(title, TitleVerdict)
  }

  /** The description card as written. */
  function DescriptionItem(description: Option<Attrs>): Item
    requires PropsOk(description)
  {
    DescriptionItemWith(description, DescriptionVerdict)
  }

  /** A presence-only card: Optimal with its snippet, or Missing with none. */
  function PresenceItem(name: ItemName, tag: Option<Attrs>, snippet: Attrs -> string): (r: Item)
    ensures r.name == name
    ensures r.content.None? <==> tag.None?
    ensures r.status == Optimal <==> tag.Some?
    ensures r.status == Missing <==> tag.None?
    ensures r.status == Missing <==> r.advice == MissingWithSnippet
  {
    match tag
    case Some(t) => Item(name, Some(snippet(t)), Optimal, Implemented)
    case None => Item(name, None, Missing, MissingWithSnippet)
  }

  function CanonicalSnippet(t: Attrs): string {
    "<link rel=\"canonical\" href=\"" + Interp(Attr(t, "href")) + "\">"
  }

  function ViewportSnippet(t: Attrs): string {
    "<meta name=\"viewport\" content=\"" + Interp(Attr(t, "content")) + "\">"
  }

  /** The four cards in order, with `tv` and `dv` as the title and
      description verdicts: each card's content is null exactly when its tag
      is absent; title and description are graded on their length (10<len<60
      and 120<len<158), canonical and viewport on presence alone; a card
      shows the missing-tag snippet exactly when it is Missing, and a length
      card needing improvement names its length and verdict. */
  predicate Cards(r: seq<Item>, title: string, description: Option<Attrs>, canonical: Option<Attrs>,
                  viewport: Option<Attrs>, tv: nat -> Verdict, dv: nat -> Verdict)
    requires PropsOk(description)
  {
    && |r| == 4
    && r[0].name == TitleTag && r[1].name == MetaDescription
    && r[2].name == CanonicalUrl && r[3].name == ViewportTag
    && (r[0].content.None? <==> title == "")
    && (r[1].content.None? <==> description.None?)
    && (r[2].content.None? <==> canonical.None?)
    && (r[3].content.None? <==> viewport.None?)
    && r[0].status == LengthStatus(title != "", |title|, 10, 60)
    && r[1].status == (if description.None? then Missing
                       else LengthStatus(true, |description.value["content"]|, 120, 158))
    && (r[2].status == Optimal <==> canonical.Some?) && (r[2].status == Missing <==> canonical.None?)
    && (r[3].status == Optimal <==> viewport.Some?) && (r[3].status == Missing <==> viewport.None?)
    && (forall i :: 0 <= i < 4 ==> (r[i].status == Missing <==> r[i].advice == MissingWithSnippet))
    && (r[0].status == NeedsImprovement ==> r[0].advice == LengthOff(|title|, tv(|title|)))
    && (description.Some? && r[1].status == NeedsImprovement ==>
          r[1].advice == LengthOff(|description.value["content"]|, dv(|description.value["content"]|)))
  }

  /** `tagItems` with the given title and description verdicts. */
  function TagItemsWith(title: string, description: Option<Attrs>, canonical: Option<Attrs>, viewport: Option<Attrs>,
                        tv: nat -> Verdict, dv: nat -> Verdict): (r: seq<Item>)
    requires PropsOk(description)
    ensures Cards(r, title, description, canonical, viewport, tv, dv)
  {
    var t := TitleItemWith(title, tv);
    var d := DescriptionItemWith(description, dv);
    var c := PresenceItem(CanonicalUrl, canonical, CanonicalSnippet);
    var v := PresenceItem(ViewportTag, viewport, ViewportSnippet);
    assert forall x :: x in [t, d, c, v] ==> (x.status == Missing <==> x.advice == MissingWithSnippet);
    [t, d, c, v]
  }

  /** `tagItems` as written. */
  function TagItems(title: string, description: Option<Attrs>, canonical: Option<Attrs>, viewport: Option<Attrs>): (r: seq<Item>)
    requires PropsOk(description)
    ensures Cards(r, title, description, canonical, viewport, TitleVerdict, DescriptionVerdict)
  {
    TagItemsWith(title, description, canonical, viewport, TitleVerdict, DescriptionVerdict)
  }

  /** `tagItems` with the lower-bound cut fixed: the same cards, the length
      cards needing improvement carrying the corrected verdicts. */
  function TagItemsFixed(title: string, description: Option<Attrs>, canonical: Option<Attrs>, viewport: Option<Attrs>): (r: seq<Item>)
    requires PropsOk(description)
    ensures Cards(r, title, description, canonical, viewport, TitleVerdictFixed, DescriptionVerdictFixed)
  {
    TagItemsWith(title, description, canonical, viewport, TitleVerdictFixed, DescriptionVerdictFixed)
  }

  // ---------------------------------------------------------------------
  // Against the scorer

  /** The title card's status is the scorer's title bucket under another
      name: Optimal for passed, Needs Improvement for a warning, Missing for
      an error. */
  lemma TitleStatusMatchesScorer(m: PageMetadata)
    requires Scorable(m)
    ensures var s := TitleItem(m.title).status; var r := SeoAnalyzer.FieldReport(m, SeoAnalyzer.Title);
      && (s == Optimal <==> r.passed == 1)
      && (s == NeedsImprovement <==> r.warnings == 1)
      && (s == Missing <==> r.errors == 1)
  {
  }

  /** So is the description card's. */
  lemma DescriptionStatusMatchesScorer(m: PageMetadata)
    requires Scorable(m)
    ensures var s := DescriptionItem(m.metaTags.description).status;
      var r := SeoAnalyzer.FieldReport(m, SeoAnalyzer.Description);
      && (s == Optimal <==> r.passed == 1)
      && (s == NeedsImprovement <==> r.warnings == 1)
      && (s == Missing <==> r.errors == 1)
  {
  }

  // ---------------------------------------------------------------------
  // Recommendation texts

  const ImplementationMarker := "Implementation:"

  /** The recommendation text a card shows. */
  function AdviceText(n: ItemName, a: ItemAdvice): string {
    match a
    case OptimalLength(k) =>
      if n == TitleTag then "Title has optimal length (" + Decimal(k) + " characters)."
      else "Description has optimal length (" + Decimal(k) + " characters)."
    case LengthOff(k, v) =>
      var side := if v == TooShort then "too short" else "too long";
      if n == TitleTag then "Title length (" + Decimal(k) + " characters) is " + side + ". Aim for 50-60 characters."
      else "Description length (" + Decimal(k) + " characters) is " + side + ". Aim for 120-158 characters."
    case Implemented =>
      if n == CanonicalUrl then "Canonical URL is properly implemented."
      else "Viewport meta tag is properly implemented."
    case MissingWithSnippet => MissingLead(n) + ImplementationMarker + MissingSnippet(n)
  }

  function MissingLead(n: ItemName): string {
    match n
    case TitleTag => "Missing title tag. "
    case MetaDescription => "Missing meta description. "
    case CanonicalUrl => "Missing canonical URL tag. "
    case ViewportTag => "Viewport meta tag is missing. This affects mobile optimization. "
  }

  function MissingSnippet(n: ItemName): string {
    match n
    case TitleTag => " <title>Your Page Title</title>"
    case MetaDescription => " <meta name=\"description\" content=\"Your page description here\">"
    case CanonicalUrl => " <link rel=\"canonical\" href=\"https://yourdomain.com/page-url\">"
    case ViewportTag => " <meta name=\"viewport\" content=\"width=device-width, initial-scale=1.0\">"
  }

  /** Every Missing card's text contains the marker the snippet display
      splits on. */
  lemma MissingTextHasMarker(n: ItemName)
    ensures Contains(AdviceText(n, MissingWithSnippet), ImplementationMarker)
  {
    ContainsInfix(MissingLead(n), ImplementationMarker, MissingSnippet(n));
  }
}
