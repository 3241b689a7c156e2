/** The scorer (`analyzeSeoScore`) and the recommender (`getRecommendations`)
    of client/src/lib/seoAnalyzer.js. Both inspect the same eight fields of a
    page; the scorer runs a fixed schedule of checks and adds up points, the
    recommender emits at most one entry per field in a fixed order. */
module SeoAnalyzer {
  import opened Common
  import opened Metadata

  /** The page fields both engines look at. */
  datatype Field = Title | Description | Canonical | Viewport | OpenGraph | Twitter | Robots | Hreflang

  // =====================================================================
  // Scorer

  /** Which counter a check increments: `passed`, `warnings` or `errors`. */
  datatype Bucket = PassedCheck | WarningCheck | ErrorCheck

  /** One evaluated check: the points it adds and the counter it bumps. */
  datatype Check = Check(points: nat, bucket: Bucket)

  /** `{ score, passed, warnings, errors }`; also used for partial sums. */
  datatype ScoreReport = ScoreReport(score: int, passed: nat, warnings: nat, errors: nat)

  /** How many checks a report accounts for. */
  function Checks(r: ScoreReport): nat {
    r.passed + r.warnings + r.errors
  }

  /** The report of a single check. */
  function Single(c: Check): ScoreReport
  {
    ScoreReport(c.points,
                if c.bucket == PassedCheck then 1 else 0,
                if c.bucket == WarningCheck then 1 else 0,
                if c.bucket == ErrorCheck then 1 else 0)
  }

  /** Running two groups of checks one after the other. */
  function Plus(a: ScoreReport, b: ScoreReport): ScoreReport
  {
    ScoreReport(a.score + b.score, a.passed + b.passed, a.warnings + b.warnings, a.errors + b.errors)
  }

  /** The shape shared by the title and description checks: absent is an
      error worth nothing, present and in range passes for 15, present and
      out of range is a warning worth 5. */
  function Graded(present: bool, inRange: bool): Check
  {
    if present then
      if inRange then Check(15, PassedCheck) else Check(5, WarningCheck)
    else Check(0, ErrorCheck)
  }

  /** A presence-only check: present passes for `points`, absent lands in `missing`. */
  function Presence(present: bool, points: nat, missing: Bucket): Check
    requires missing != PassedCheck
  {
    if present then Check(points, PassedCheck) else Check(0, missing)
  }

  /** One Open Graph / Twitter sub-check: +5 when the tag is there, else a warning. */
  function SubCheck(present: bool): Check
  {
    if present then Check(5, PassedCheck) else Check(0, WarningCheck)
  }

  /** One social tag family: an empty list is a single error and skips the
      sub-checks; otherwise the title, description and image tags are each
      worth 5 points or a warning. */
  function SocialReport(nonEmpty: bool, title: bool, description: bool, image: bool): (r: ScoreReport)
    ensures 0 <= r.score <= 15
    ensures r.score == 15 <==> nonEmpty && title && description && image
    ensures r.errors == (if nonEmpty then 0 else 1)
    ensures Checks(r) == (if nonEmpty then 3 else 1)
    ensures nonEmpty ==> r.passed == Indicator(title) + Indicator(description) + Indicator(image)
    ensures nonEmpty ==> r.score == 5 * r.passed && r.warnings == 3 - r.passed
    ensures !nonEmpty ==> r.score == 0 && r.passed == 0 && r.warnings == 0
  {
    if nonEmpty then
      var a, b, c := SubCheck(title), SubCheck(description), SubCheck(image);
      assert a.points <= 5 && b.points <= 5 && c.points <= 5;
      assert a.points == 5 <==> title;
      assert b.points == 5 <==> description;
      assert c.points == 5 <==> image;
      assert a.bucket != ErrorCheck && b.bucket != ErrorCheck && c.bucket != ErrorCheck;
      Plus(Single(a), Plus(Single(b), Single(c)))
    else Single(Check(0, ErrorCheck))
  }

  /** `tags.some(tag => tag[key] === ns + suffix)`, for the `og:` family
      (looked up by `property`) and the `twitter:` family (by `name`). */
  predicate HasOg(m: PageMetadata, suffix: string) {
    SomeTagHas(m.socialTags.openGraph, "property", "og:" + suffix)
  }

  predicate HasTwitter(m: PageMetadata, suffix: string) {
    SomeTagHas(m.socialTags.twitter, "name", "twitter:" + suffix)
  }

  /** What the scorer's checks for one field contribute: some points up to
      the field's maximum, and one error exactly when the field is absent. */
  function FieldReport(m: PageMetadata, f: Field): (r: ScoreReport)
    requires Scorable(m)
    ensures 0 <= r.score <= MaxPoints(f)
    ensures r.errors == (if FieldAbsent(m, f) then 1 else 0)
  {
    match f
    case Title => Single(Graded(m.title != "", 10 < |m.title| < 60))
    case Description =>
      Single(Graded(m.metaTags.description.Some?,
                    m.metaTags.description.Some? && 120 < |DescriptionContent(m)| < 158))
    case Canonical => Single(Presence(m.metaTags.canonical.Some?, 10, WarningCheck))
    case Viewport => Single(Presence(m.metaTags.viewport.Some?, 10, ErrorCheck))
    case OpenGraph =>
      SocialReport(|m.socialTags.openGraph| > 0, HasOg(m, "title"), HasOg(m, "description"), HasOg(m, "image"))
    case Twitter =>
      SocialReport(|m.socialTags.twitter| > 0, HasTwitter(m, "title"), HasTwitter(m, "description"), HasTwitter(m, "image"))
    case Robots => Single(Presence(m.metaTags.robots.Some?, 10, WarningCheck))
    case Hreflang => Single(Presence(|m.linkTags.hreflang| > 0, 10, WarningCheck))
  }

  /** The running sums before clamping, field by field in the scorer's order. */
  function Unclamped(m: PageMetadata): ScoreReport
    requires Scorable(m)
  {
    Plus(Plus(Plus(Plus(Plus(Plus(Plus(
      FieldReport(m, Title), FieldReport(m, Description)), FieldReport(m, Canonical)),
      FieldReport(m, Viewport)), FieldReport(m, OpenGraph)), FieldReport(m, Twitter)),
      FieldReport(m, Robots)), FieldReport(m, Hreflang))
  }

  /** The most points one field can contribute. */
  function MaxPoints(f: Field): nat {
    match f
    case Title => 15
    case Description => 15
    case OpenGraph => 15
    case Twitter => 15
    case _ => 10
  }

  /** The condition under which a field earns all of its points. */
  predicate FieldOptimal(m: PageMetadata, f: Field)
    requires Scorable(m)
  {
    match f
    case Title => 10 < |m.title| < 60
    case Description => m.metaTags.description.Some? && 120 < |DescriptionContent(m)| < 158
    case Canonical => m.metaTags.canonical.Some?
    case Viewport => m.metaTags.viewport.Some?
    case OpenGraph => HasOg(m, "title") && HasOg(m, "description") && HasOg(m, "image")
    case Twitter => HasTwitter(m, "title") && HasTwitter(m, "description") && HasTwitter(m, "image")
    case Robots => m.metaTags.robots.Some?
    case Hreflang => |m.linkTags.hreflang| > 0
  }

  /** The fields whose absence the scorer files as a warning, not an error. */
  predicate Optional(f: Field) {
    f == Canonical || f == Robots || f == Hreflang
  }

  /** The field's own absence: the cases the scorer files as an error. */
  predicate FieldAbsent(m: PageMetadata, f: Field) {
    match f
    case Title => m.title == ""
    case Description => m.metaTags.description.None?
    case Viewport => m.metaTags.viewport.None?
    case OpenGraph => |m.socialTags.openGraph| == 0
    case Twitter => |m.socialTags.twitter| == 0
    case _ => false
  }

  /** A field's points reach its maximum exactly when the field is optimal. */
  lemma FieldScore(m: PageMetadata, f: Field)
    requires Scorable(m)
    ensures FieldReport(m, f).score == MaxPoints(f) <==> FieldOptimal(m, f)
  {
    match f
    case OpenGraph => assert HasOg(m, "title") ==> |m.socialTags.openGraph| > 0;
    case Twitter => assert HasTwitter(m, "title") ==> |m.socialTags.twitter| > 0;
    case Title =>
    case Description =>
    case Canonical =>
    case Viewport =>
    case Robots =>
    case Hreflang =>
  }

  /** The social families run three checks unless their list is empty; every
      other field runs one. */
  lemma FieldCounts(m: PageMetadata, f: Field)
    requires Scorable(m)
    ensures Checks(FieldReport(m, f)) == (if (f == OpenGraph || f == Twitter) && !FieldAbsent(m, f) then 3 else 1)
  {
    match f
    case OpenGraph =>
    case Twitter =>
    case Title =>
    case Description =>
    case Canonical =>
    case Viewport =>
    case Robots =>
    case Hreflang =>
  }

  /** How many of a social family's title, description and image tags the
      page has; zero for the other fields. */
  function SubTags(m: PageMetadata, f: Field): nat {
    match f
    case OpenGraph => Indicator(HasOg(m, "title")) + Indicator(HasOg(m, "description")) + Indicator(HasOg(m, "image"))
    case Twitter =>
      Indicator(HasTwitter(m, "title")) + Indicator(HasTwitter(m, "description")) + Indicator(HasTwitter(m, "image"))
    case _ => 0
  }

  /** The scorer's schedule, field by field, as a table: an absent field is
      one error worth nothing; a present title or description passes for 15
      when optimal and is a warning worth 5 otherwise; canonical, robots and
      hreflang pass for 10 or are a warning, viewport passes for 10 or is an
      error; a present social family earns 5 and a pass per tag it has and a
      warning per tag it lacks. */
  function Schedule(m: PageMetadata, f: Field): ScoreReport
    requires Scorable(m)
  {
    if FieldAbsent(m, f) then ScoreReport(0, 0, 0, 1)
    else match f
      case Title => if FieldOptimal(m, f) then ScoreReport(15, 1, 0, 0) else ScoreReport(5, 0, 1, 0)
      case Description => if FieldOptimal(m, f) then ScoreReport(15, 1, 0, 0) else ScoreReport(5, 0, 1, 0)
      case Viewport => ScoreReport(10, 1, 0, 0)
      case OpenGraph => ScoreReport(5 * SubTags(m, f), SubTags(m, f), 3 - SubTags(m, f), 0)
      case Twitter => ScoreReport(5 * SubTags(m, f), SubTags(m, f), 3 - SubTags(m, f), 0)
      case _ => if FieldOptimal(m, f) then ScoreReport(10, 1, 0, 0) else ScoreReport(0, 0, 1, 0)
  }

  /** Each field's checks follow the schedule. */
  lemma FieldBuckets(m: PageMetadata, f: Field)
    requires Scorable(m)
    ensures FieldReport(m, f) == Schedule(m, f)
  {
    match f
    case OpenGraph => SocialBuckets(m, f);
    case Twitter => SocialBuckets(m, f);
    case Title => GradedBuckets(m, f);
    case Description => GradedBuckets(m, f);
    case Canonical => PresenceBuckets(m, f);
    case Viewport => PresenceBuckets(m, f);
    case Robots => PresenceBuckets(m, f);
    case Hreflang => PresenceBuckets(m, f);
  }

  lemma GradedBuckets(m: PageMetadata, f: Field)
    requires Scorable(m) && (f == Title || f == Description)
    ensures FieldReport(m, f)
      == if FieldAbsent(m, f) then ScoreReport(0, 0, 0, 1)
         else if FieldOptimal(m, f) then ScoreReport(15, 1, 0, 0) else ScoreReport(5, 0, 1, 0)
  {
  }

  lemma PresenceBuckets(m: PageMetadata, f: Field)
    requires Scorable(m) && (Optional(f) || f == Viewport)
    ensures FieldReport(m, f)
      == if FieldOptimal(m, f) then ScoreReport(10, 1, 0, 0)
         else if Optional(f) then ScoreReport(0, 0, 1, 0) else ScoreReport(0, 0, 0, 1)
  {
  }

  lemma SocialBuckets(m: PageMetadata, f: Field)
    requires Scorable(m) && (f == OpenGraph || f == Twitter)
    ensures FieldReport(m, f)
      == if FieldAbsent(m, f) then ScoreReport(0, 0, 0, 1)
         else ScoreReport(5 * SubTags(m, f), SubTags(m, f), 3 - SubTags(m, f), 0)
  {
  }

  /** A field's passes: its sub-tags for a social family, one if optimal
      for the others. */
  function PassedOf(m: PageMetadata, f: Field): nat
    requires Scorable(m)
  {
    if f == OpenGraph || f == Twitter then SubTags(m, f) else Indicator(FieldOptimal(m, f))
  }

  /** A field's warnings: the missing sub-tags of a present social family,
      one for any other field that is present but not optimal. */
  function WarningsOf(m: PageMetadata, f: Field): nat
    requires Scorable(m)
  {
    if f == OpenGraph || f == Twitter then (if FieldAbsent(m, f) then 0 else 3 - SubTags(m, f))
    else Indicator(!FieldAbsent(m, f) && !FieldOptimal(m, f))
  }

  lemma FieldCounters(m: PageMetadata, f: Field)
    requires Scorable(m)
    ensures FieldReport(m, f).passed == PassedOf(m, f)
    ensures FieldReport(m, f).warnings == WarningsOf(m, f)
  {
    FieldBuckets(m, f);
    if f == OpenGraph {
      assert FieldAbsent(m, f) ==> SubTags(m, f) == 0;
    } else if f == Twitter {
      assert FieldAbsent(m, f) ==> SubTags(m, f) == 0;
    }
  }

  function PassedCount(m: PageMetadata): nat
    requires Scorable(m)
  {
    PassedOf(m, Title) + PassedOf(m, Description) + PassedOf(m, Canonical) + PassedOf(m, Viewport)
    + PassedOf(m, OpenGraph) + PassedOf(m, Twitter) + PassedOf(m, Robots) + PassedOf(m, Hreflang)
  }

  function WarningCount(m: PageMetadata): nat
    requires Scorable(m)
  {
    WarningsOf(m, Title) + WarningsOf(m, Description) + WarningsOf(m, Canonical) + WarningsOf(m, Viewport)
    + WarningsOf(m, OpenGraph) + WarningsOf(m, Twitter) + WarningsOf(m, Robots) + WarningsOf(m, Hreflang)
  }

  /** The running `passed` and `warnings` counters add up the fields'. */
  lemma UnclampedCounters(m: PageMetadata)
    requires Scorable(m)
    ensures Unclamped(m).passed == PassedCount(m)
    ensures Unclamped(m).warnings == WarningCount(m)
  {
    assert Unclamped(m).passed
      == FieldReport(m, Title).passed + FieldReport(m, Description).passed + FieldReport(m, Canonical).passed
       + FieldReport(m, Viewport).passed + FieldReport(m, OpenGraph).passed + FieldReport(m, Twitter).passed
       + FieldReport(m, Robots).passed + FieldReport(m, Hreflang).passed;
    assert Unclamped(m).warnings
      == FieldReport(m, Title).warnings + FieldReport(m, Description).warnings + FieldReport(m, Canonical).warnings
       + FieldReport(m, Viewport).warnings + FieldReport(m, OpenGraph).warnings + FieldReport(m, Twitter).warnings
       + FieldReport(m, Robots).warnings + FieldReport(m, Hreflang).warnings;
    FieldCounters(m, Title);
    FieldCounters(m, Description);
    FieldCounters(m, Canonical);
    FieldCounters(m, Viewport);
    FieldCounters(m, OpenGraph);
    FieldCounters(m, Twitter);
    FieldCounters(m, Robots);
    FieldCounters(m, Hreflang);
  }

  /** Every field earns its maximum. */
  predicate AllOptimal(m: PageMetadata)
    requires Scorable(m)
  {
    && FieldOptimal(m, Title) && FieldOptimal(m, Description) && FieldOptimal(m, Canonical)
    && FieldOptimal(m, Viewport) && FieldOptimal(m, OpenGraph) && FieldOptimal(m, Twitter)
    && FieldOptimal(m, Robots) && FieldOptimal(m, Hreflang)
  }

  lemma AllOptimalMeansEveryField(m: PageMetadata)
    requires Scorable(m)
    ensures AllOptimal(m) <==> forall f :: FieldOptimal(m, f)
  {
    if AllOptimal(m) {
      forall f
        ensures FieldOptimal(m, f)
      {
        match f
        case Title =>
        case Description =>
        case Canonical =>
        case Viewport =>
        case OpenGraph =>
        case Twitter =>
        case Robots =>
        case Hreflang =>
      }
    }
  }

  function AbsentCount(m: PageMetadata): nat {
    (if FieldAbsent(m, Title) then 1 else 0) + (if FieldAbsent(m, Description) then 1 else 0)
    + (if FieldAbsent(m, Viewport) then 1 else 0) + (if FieldAbsent(m, OpenGraph) then 1 else 0)
    + (if FieldAbsent(m, Twitter) then 1 else 0)
  }

  /** The unclamped points: never negative, at most 100, exactly 100 when
      every field is optimal. */
  lemma UnclampedScore(m: PageMetadata)
    requires Scorable(m)
    ensures 0 <= Unclamped(m).score <= 100
    ensures Unclamped(m).score == 100 <==> AllOptimal(m)
  {
    assert Unclamped(m).score
      == FieldReport(m, Title).score + FieldReport(m, Description).score + FieldReport(m, Canonical).score
       + FieldReport(m, Viewport).score + FieldReport(m, OpenGraph).score + FieldReport(m, Twitter).score
       + FieldReport(m, Robots).score + FieldReport(m, Hreflang).score;
    FieldScore(m, Title);
    FieldScore(m, Description);
    FieldScore(m, Canonical);
    FieldScore(m, Viewport);
    FieldScore(m, OpenGraph);
    FieldScore(m, Twitter);
    FieldScore(m, Robots);
    FieldScore(m, Hreflang);
  }

  /** One error per absent field; eight checks, plus two for each non-empty
      social family. */
  lemma UnclampedCounts(m: PageMetadata)
    requires Scorable(m)
    ensures Unclamped(m).errors == AbsentCount(m)
    ensures Checks(Unclamped(m)) == 6 + (if FieldAbsent(m, OpenGraph) then 1 else 3) + (if FieldAbsent(m, Twitter) then 1 else 3)
  {
    assert Unclamped(m).errors
      == FieldReport(m, Title).errors + FieldReport(m, Description).errors + FieldReport(m, Canonical).errors
       + FieldReport(m, Viewport).errors + FieldReport(m, OpenGraph).errors + FieldReport(m, Twitter).errors
       + FieldReport(m, Robots).errors + FieldReport(m, Hreflang).errors;
    assert Checks(Unclamped(m))
      == Checks(FieldReport(m, Title)) + Checks(FieldReport(m, Description)) + Checks(FieldReport(m, Canonical))
       + Checks(FieldReport(m, Viewport)) + Checks(FieldReport(m, OpenGraph)) + Checks(FieldReport(m, Twitter))
       + Checks(FieldReport(m, Robots)) + Checks(FieldReport(m, Hreflang));
    FieldCounts(m, Title);
    FieldCounts(m, Description);
    FieldCounts(m, Canonical);
    FieldCounts(m, Viewport);
    FieldCounts(m, OpenGraph);
    FieldCounts(m, Twitter);
    FieldCounts(m, Robots);
    FieldCounts(m, Hreflang);
  }

  function Clamp(x: int): int {
    if x > 100 then 100 else if x < 0 then 0 else x
  }

  /** `analyzeSeoScore`: run every check, sum the points, clamp to 0..100. */
  function AnalyzeSeoScore(m: PageMetadata): (r: ScoreReport)
    requires Scorable(m)
    ensures 0 <= r.score <= 100
    ensures r.score == Unclamped(m).score
    ensures r.score == 100 <==> forall f :: FieldOptimal(m, f)
    ensures r.errors == AbsentCount(m)
    ensures var n := Checks(r); n == 6 + (if FieldAbsent(m, OpenGraph) then 1 else 3) + (if FieldAbsent(m, Twitter) then 1 else 3)
  {
    UnclampedScore(m);
    UnclampedCounts(m);
    AllOptimalMeansEveryField(m);
    var t := Unclamped(m);
    ScoreReport(Clamp(t.score), t.passed, t.warnings, t.errors)
  }

  /** `passed` counts the optimal single-check fields and the social
      sub-tags present; `warnings` counts the present but non-optimal fields
      and the missing sub-tags of a present social family. */
  lemma ScoreCounters(m: PageMetadata)
    requires Scorable(m)
    ensures AnalyzeSeoScore(m).passed == PassedCount(m)
    ensures AnalyzeSeoScore(m).warnings == WarningCount(m)
  {
    UnclampedCounters(m);
  }

  /** The clamp never fires: the checks alone keep the sum within 0..100. */
  lemma ClampIsIdle(m: PageMetadata)
    requires Scorable(m)
    ensures AnalyzeSeoScore(m) == Unclamped(m)
  {
  }

  lemma CheckCountIsEightTenOrTwelve(m: PageMetadata)
    requires Scorable(m)
    ensures var n := Checks(AnalyzeSeoScore(m)); n == 8 || n == 10 || n == 12
  {
  }

  /** A page with nothing on it. */
  predicate AllAbsent(m: PageMetadata) {
    && m.title == ""
    && m.metaTags.description.None? && m.metaTags.viewport.None?
    && m.metaTags.robots.None? && m.metaTags.canonical.None?
    && |m.socialTags.openGraph| == 0 && |m.socialTags.twitter| == 0
    && |m.linkTags.hreflang| == 0
  }

  /** On an empty page each field runs one zero-point check: an error for
      the five required fields, a warning for the three optional ones. */
  lemma AbsentFieldReport(m: PageMetadata, f: Field)
    requires AllAbsent(m)
    ensures FieldReport(m, f) == ScoreReport(0, 0, if Optional(f) then 1 else 0, if Optional(f) then 0 else 1)
  {
    match f
    case OpenGraph =>
    case Twitter =>
    case Title =>
    case Description =>
    case Canonical =>
    case Viewport =>
    case Robots =>
    case Hreflang =>
  }

  lemma AllAbsentScore(m: PageMetadata)
    requires AllAbsent(m)
    ensures AnalyzeSeoScore(m) == ScoreReport(0, 0, 3, 5)
  {
    AbsentFieldReport(m, Title);
    AbsentFieldReport(m, Description);
    AbsentFieldReport(m, Canonical);
    AbsentFieldReport(m, Viewport);
    AbsentFieldReport(m, OpenGraph);
    AbsentFieldReport(m, Twitter);
    AbsentFieldReport(m, Robots);
    AbsentFieldReport(m, Hreflang);
  }

  // =====================================================================
  // Recommender

  /** One recommendation of `getRecommendations`, by the branch that emits
      it; the length-triggered ones carry the interpolated character count. */
  datatype Advice =
    | AddTitle | TitleTooShort(length: nat) | TitleTooLong(length: nat)
    | AddDescription | DescriptionTooShort(length: nat) | DescriptionTooLong(length: nat)
    | AddViewport | AddCanonical | AddOpenGraph | CompleteOpenGraph | AddTwitter
    | AddRobots | ConsiderHreflang | GreatSeo

  /** A recommendation's `type`. */
  datatype RecType = Success | Warning | Error

  function TypeOf(a: Advice): (k: RecType)
    ensures k == Success <==> Subject(a).None?
    ensures k == Error <==> a.AddTitle? || a.AddDescription? || a.AddViewport? || a.AddOpenGraph?
    ensures k == Error ==> Subject(a).Some? && !Optional(Subject(a).value)
  {
    match a
    case AddTitle => Error
    case AddDescription => Error
    case AddViewport => Error
    case AddOpenGraph => Error
    case GreatSeo => Success
    case _ => Warning
  }

  /** The field an entry is about; the success fallback is about none. */
  function Subject(a: Advice): Option<Field> {
    match a
    case AddTitle => Some(Title)
    case TitleTooShort(_) => Some(Title)
    case TitleTooLong(_) => Some(Title)
    case AddDescription => Some(Description)
    case DescriptionTooShort(_) => Some(Description)
    case DescriptionTooLong(_) => Some(Description)
    case AddViewport => Some(Viewport)
    case AddCanonical => Some(Canonical)
    case AddOpenGraph => Some(OpenGraph)
    case CompleteOpenGraph => Some(OpenGraph)
    case AddTwitter => Some(Twitter)
    case AddRobots => Some(Robots)
    case ConsiderHreflang => Some(Hreflang)
    case GreatSeo => None
  }

  function TitleAdvice(title: string): (o: Option<Advice>)
    ensures o == Some(AddTitle) <==> title == ""
    ensures o == Some(TitleTooShort(|title|)) <==> 0 < |title| < 10
    ensures o == Some(TitleTooLong(|title|)) <==> |title| > 60
    ensures o.None? <==> 10 <= |title| <= 60
  {
    if title == "" then Some(AddTitle)
    else if |title| < 10 then Some(TitleTooShort(|title|))
    else if |title| > 60 then Some(TitleTooLong(|title|))
    else None
  }

  function DescriptionAdvice(m: PageMetadata): (o: Option<Advice>)
    requires Scorable(m)
    ensures o == Some(AddDescription) <==> m.metaTags.description.None?
    ensures m.metaTags.description.Some? ==>
      var n := |DescriptionContent(m)|;
      && (o == Some(DescriptionTooShort(n)) <==> n < 120)
      && (o == Some(DescriptionTooLong(n)) <==> n > 158)
      && (o.None? <==> 120 <= n <= 158)
  {
    if m.metaTags.description.None? then Some(AddDescription)
    else
      var n := |DescriptionContent(m)|;
      if n < 120 then Some(DescriptionTooShort(n))
      else if n > 158 then Some(DescriptionTooLong(n))
      else None
  }

  /** The recommendation, if any, the recommender emits for one field. */
  function FieldAdvice(m: PageMetadata, f: Field): (o: Option<Advice>)
    requires Scorable(m)
    ensures o.Some? ==> Subject(o.value) == Some(f)
  {
    match f
    case Title => TitleAdvice(m.title)
    case Description => DescriptionAdvice(m)
    case Viewport => if m.metaTags.viewport.None? then Some(AddViewport) else None
    case Canonical => if m.metaTags.canonical.None? then Some(AddCanonical) else None
    case OpenGraph =>
      var og := m.socialTags.openGraph;
      if |og| == 0 then Some(AddOpenGraph)
      else if !(HasOg(m, "title") && HasOg(m, "description") && HasOg(m, "image"))
      then Some(CompleteOpenGraph)
      else None
    case Twitter => if |m.socialTags.twitter| == 0 then Some(AddTwitter) else None
    case Robots => if m.metaTags.robots.None? then Some(AddRobots) else None
    case Hreflang => if |m.linkTags.hreflang| == 0 then Some(ConsiderHreflang) else None
  }

  /** The order in which the recommender visits the fields (viewport before
      canonical, unlike the scorer). */
  const RecommendationOrder: seq<Field> :=
    [Title, Description, Viewport, Canonical, OpenGraph, Twitter, Robots, Hreflang]

  function Rank(f: Field): nat {
    match f
    case Title => 0
    case Description => 1
    case Viewport => 2
    case Canonical => 3
    case OpenGraph => 4
    case Twitter => 5
    case Robots => 6
    case Hreflang => 7
  }

  /** Position of an entry's field in the visiting order; the fallback comes last. */
  function SubjectRank(a: Advice): nat {
    match Subject(a)
    case Some(f) => Rank(f)
    case None => 8
  }

  /** Entries strictly follow the visiting order, so no field appears twice. */
  predicate InOrder(r: seq<Advice>) {
    forall i, j :: 0 <= i < j < |r| ==> SubjectRank(r[i]) < SubjectRank(r[j])
  }

  predicate Mentions(r: seq<Advice>, f: Field) {
    exists i :: 0 <= i < |r| && Subject(r[i]) == Some(f)
  }

  function Emit(o: Option<Advice>): seq<Advice> {
    match o
    case Some(a) => [a]
    case None => []
  }

  /** The entries for the fields `fs`, visited in turn. */
  function Collect(m: PageMetadata, fs: seq<Field>): (r: seq<Advice>)
    requires Scorable(m)
    ensures |r| <= |fs|
    ensures forall i :: 0 <= i < |r| ==>
      Subject(r[i]).Some? && Subject(r[i]).value in fs && FieldAdvice(m, Subject(r[i]).value) == Some(r[i])
    ensures forall f :: f in fs && FieldAdvice(m, f).Some? ==> FieldAdvice(m, f).value in r
  {
    if fs == [] then [] else Emit(FieldAdvice(m, fs[0])) + Collect(m, fs[1..])
  }

  /** Prepending at most one entry ranked below everything after it keeps the order. */
  lemma InOrderCons(e: seq<Advice>, rest: seq<Advice>, k: nat)
    requires |e| <= 1
    requires forall i :: 0 <= i < |e| ==> SubjectRank(e[i]) == k
    requires InOrder(rest)
    requires forall j :: 0 <= j < |rest| ==> k < SubjectRank(rest[j])
    ensures InOrder(e + rest)
  {
  }

  lemma {:induction false} CollectInOrder(m: PageMetadata, fs: seq<Field>)
    requires Scorable(m)
    requires forall i, j :: 0 <= i < j < |fs| ==> Rank(fs[i]) < Rank(fs[j])
    ensures InOrder(Collect(m, fs))
    decreases |fs|
  {
    if fs != [] {
      CollectInOrder(m, fs[1..]);
      var rest := Collect(m, fs[1..]);
      forall k | 0 <= k < |rest|
        ensures Rank(fs[0]) < SubjectRank(rest[k])
      {
        var f := Subject(rest[k]).value;
        var j :| 0 <= j < |fs[1..]| && fs[1..][j] == f;
        assert fs[j + 1] == f;
      }
      var e := Emit(FieldAdvice(m, fs[0]));
      assert forall i :: 0 <= i < |e| ==> SubjectRank(e[i]) == Rank(fs[0]);
      InOrderCons(e, rest, Rank(fs[0]));
    }
  }

  /** Visiting every field in the recommender's order finds the advice of
      every field that has some. */
  lemma CollectFindsAll(m: PageMetadata)
    requires Scorable(m)
    ensures forall f :: FieldAdvice(m, f).Some? ==> Mentions(Collect(m, RecommendationOrder), f)
  {
    var found := Collect(m, RecommendationOrder);
    forall f | FieldAdvice(m, f).Some?
      ensures Mentions(found, f)
    {
      assert RecommendationOrder[Rank(f)] == f;
      var i :| 0 <= i < |found| && found[i] == FieldAdvice(m, f).value;
    }
  }

  /** ... and only advice about fields, so never the success fallback. */
  lemma CollectOnlyAdvice(m: PageMetadata)
    requires Scorable(m)
    ensures forall f :: Mentions(Collect(m, RecommendationOrder), f) ==> FieldAdvice(m, f).Some?
    ensures GreatSeo !in Collect(m, RecommendationOrder)
    ensures Collect(m, RecommendationOrder) != [] ==> exists f :: FieldAdvice(m, f).Some?
  {
    var found := Collect(m, RecommendationOrder);
    if found != [] {
      assert FieldAdvice(m, Subject(found[0]).value).Some?;
    }
    forall i | 0 <= i < |found|
      ensures found[i] != GreatSeo
    {
      assert Subject(found[i]).Some?;
    }
  }

  /** The entries `getRecommendations` emits, before rendering: the advice
      found, or the success entry alone when there is none. */
  function Advise(m: PageMetadata): (r: seq<Advice>)
    requires Scorable(m)
    ensures |r| >= 1
  {
    var found := Collect(m, RecommendationOrder);
    if found == [] then [GreatSeo] else found
  }

  /** Entries come in the visiting order, at most one per field. */
  lemma AdviseInOrder(m: PageMetadata)
    requires Scorable(m)
    ensures InOrder(Advise(m))
  {
    CollectInOrder(m, RecommendationOrder);
  }

  /** A field is mentioned exactly when it has advice, and its advice is listed. */
  lemma AdviseMentions(m: PageMetadata)
    requires Scorable(m)
    ensures forall f :: Mentions(Advise(m), f) <==> FieldAdvice(m, f).Some?
    ensures forall f :: FieldAdvice(m, f).Some? ==> FieldAdvice(m, f).value in Advise(m)
  {
    CollectFindsAll(m);
    CollectOnlyAdvice(m);
  }

  /** Every field entry listed is that field's advice. */
  lemma AdviseFaithful(m: PageMetadata)
    requires Scorable(m)
    ensures forall i :: 0 <= i < |Advise(m)| && Subject(Advise(m)[i]).Some? ==>
      FieldAdvice(m, Subject(Advise(m)[i]).value) == Some(Advise(m)[i])
  {
  }

  /** The success entry appears only alone, and exactly when no field has advice. */
  lemma AdviseGreat(m: PageMetadata)
    requires Scorable(m)
    ensures GreatSeo in Advise(m) <==> Advise(m) == [GreatSeo]
    ensures Advise(m) == [GreatSeo] <==> forall f :: FieldAdvice(m, f).None?
  {
    CollectOnlyAdvice(m);
    CollectFindsAll(m);
    var found := Collect(m, RecommendationOrder);
    if found != [] {
      assert found != [GreatSeo] by { assert found[0] != GreatSeo; }
    }
  }

  // ---------------------------------------------------------------------
  // Rendering to the source's { type, title, description } records

  datatype Recommendation = Recommendation(kind: RecType, title: string, description: string)

  function TitleText(a: Advice): string {
    match a
    case AddTitle => "Add Title Tag"
    case TitleTooShort(_) => "Improve Title Tag"
    case TitleTooLong(_) => "Shorten Title Tag"
    case AddDescription => "Add Meta Description"
    case DescriptionTooShort(_) => "Improve Meta Description"
    case DescriptionTooLong(_) => "Shorten Meta Description"
    case AddViewport => "Add Viewport Meta Tag"
    case AddCanonical => "Add Canonical URL Tag"
    case AddOpenGraph => "Add Open Graph Tags"
    case CompleteOpenGraph => "Complete Open Graph Tags"
    case AddTwitter => "Add Twitter Card Tags"
    case AddRobots => "Add Robots Meta Tag"
    case ConsiderHreflang => "Consider Adding Hreflang Tags"
    case GreatSeo => "Great SEO Implementation"
  }

  const TitleShortPrefix := "Your title is too short ("
  const TitleShortSuffix := " characters). Aim for 50-60 characters."
  const TitleLongPrefix := "Your title is too long ("
  const TitleLongSuffix := " characters). Keep it under 60 characters to avoid truncation in search results."
  const DescShortPrefix := "Your meta description is too short ("
  const DescShortSuffix := " characters). Aim for 120-158 characters to improve CTR."
  const DescLongPrefix := "Your meta description is too long ("
  const DescLongSuffix := " characters). Keep it under 158 characters to avoid truncation in search results."

  function DescriptionText(a: Advice): string {
    match a
    case AddTitle => "Missing page title. Add a descriptive title tag between 50-60 characters."
    case TitleTooShort(n) => TitleShortPrefix + Decimal(n) + TitleShortSuffix
    case TitleTooLong(n) => TitleLongPrefix + Decimal(n) + TitleLongSuffix
    case AddDescription => "Missing meta description. Add a compelling description between 120-158 characters."
    case DescriptionTooShort(n) => DescShortPrefix + Decimal(n) + DescShortSuffix
    case DescriptionTooLong(n) => DescLongPrefix + Decimal(n) + DescLongSuffix
    case AddViewport => "Missing viewport meta tag affects mobile optimization and search ranking."
    case AddCanonical => "Missing canonical URL tag. This helps prevent duplicate content issues."
    case AddOpenGraph => "Missing Open Graph tags. These improve how your content appears when shared on Facebook and other platforms."
    case CompleteOpenGraph => "Some Open Graph tags are missing. Ensure you have og:title, og:description, and og:image for better social sharing."
    case AddTwitter => "Missing Twitter Card tags. These improve how your content appears when shared on Twitter."
    case AddRobots => "Missing robots meta tag. This helps control how search engines crawl and index your page."
    case ConsiderHreflang => "If your site serves different languages, add hreflang tags to help search engines serve the correct version."
    case GreatSeo => "Your page has all the essential SEO tags properly implemented."
  }

  /** The record `getRecommendations` pushes for an entry: only the success
      fallback is about no field, and only the four missing-required-tag
      entries are errors, none of them about a field the scorer treats as
      optional. */
  function Render(a: Advice): (r: Recommendation)
    ensures r.kind == Success <==> Subject(a).None?
    ensures r.kind == Error <==> a.AddTitle? || a.AddDescription? || a.AddViewport? || a.AddOpenGraph?
    ensures r.kind == Error ==> Subject(a).Some? && !Optional(Subject(a).value)
  {
    Recommendation(TypeOf(a), TitleText(a), DescriptionText(a))
  }

  /** The entry with its count, if any, set to zero. */
  function Shape(a: Advice): Advice {
    match a
    case TitleTooShort(_) => TitleTooShort(0)
    case TitleTooLong(_) => TitleTooLong(0)
    case DescriptionTooShort(_) => DescriptionTooShort(0)
    case DescriptionTooLong(_) => DescriptionTooLong(0)
    case _ => a
  }

  /** Reads the branch back from a title, by its length and its first and
      fifth characters. */
  function ShapeOfTitle(t: string): Advice {
    if |t| < 5 then GreatSeo
    else if |t| == 13 then AddTitle
    else if |t| == 17 then (if t[0] == 'I' then TitleTooShort(0) else TitleTooLong(0))
    else if |t| == 20 then AddDescription
    else if |t| == 24 then
      (if t[0] == 'I' then DescriptionTooShort(0) else if t[0] == 'S' then DescriptionTooLong(0)
       else if t[0] == 'C' then CompleteOpenGraph else GreatSeo)
    else if |t| == 21 then (if t[4] == 'V' then AddViewport else if t[4] == 'C' then AddCanonical else AddTwitter)
    else if |t| == 19 then (if t[4] == 'O' then AddOpenGraph else AddRobots)
    else ConsiderHreflang
  }

  lemma ShapeOfTitleInverts(a: Advice)
    ensures ShapeOfTitle(TitleText(a)) == Shape(a)
  {
    var t := TitleText(a);
    match a
    case AddTitle => assert |t| == 13;
    case TitleTooShort(_) => assert |t| == 17 && t[0] == 'I';
    case TitleTooLong(_) => assert |t| == 17 && t[0] == 'S';
    case AddDescription => assert |t| == 20;
    case DescriptionTooShort(_) => assert |t| == 24 && t[0] == 'I';
    case DescriptionTooLong(_) => assert |t| == 24 && t[0] == 'S';
    case AddViewport => assert |t| == 21 && t[4] == 'V';
    case AddCanonical => assert |t| == 21 && t[4] == 'C';
    case AddOpenGraph => assert |t| == 19 && t[4] == 'O';
    case CompleteOpenGraph => assert |t| == 24 && t[0] == 'C';
    case AddTwitter => assert |t| == 21 && t[4] == 'T';
    case AddRobots => assert |t| == 19 && t[4] == 'R';
    case ConsiderHreflang => assert |t| == 29;
    case GreatSeo => assert |t| == 24 && t[0] == 'G';
  }

  /** Distinct branches have distinct titles. */
  lemma TitleDeterminesShape(a: Advice, b: Advice)
    requires TitleText(a) == TitleText(b)
    ensures Shape(a) == Shape(b)
  {
    ShapeOfTitleInverts(a);
    ShapeOfTitleInverts(b);
  }

  /** A fixed template around a count determines the count. */
  lemma TemplateInjective(prefix: string, n: nat, k: nat, suffix: string)
    requires prefix + Decimal(n) + suffix == prefix + Decimal(k) + suffix
    ensures n == k
  {
    CancelAround(prefix, Decimal(n), Decimal(k), suffix);
    DecimalInjective(n, k);
  }

  /** Whether the entry interpolates a character count. */
  predicate HasCount(a: Advice) {
    a.TitleTooShort? || a.TitleTooLong? || a.DescriptionTooShort? || a.DescriptionTooLong?
  }

  /** An entry is its shape plus, where it has one, its count. */
  lemma ShapeAndCount(a: Advice, b: Advice)
    requires Shape(a) == Shape(b)
    requires HasCount(a) ==> a.length == b.length
    ensures a == b
  {
  }

  /** The rendered record determines the entry, interpolated count included:
      nothing is lost by reasoning about `Advice` instead of strings. */
  lemma RenderInjective(a: Advice, b: Advice)
    requires Render(a) == Render(b)
    ensures a == b
  {
    TextsInjective(a, b);
  }

  /** The two texts alone already determine the entry. */
  lemma TextsInjective(a: Advice, b: Advice)
    requires TitleText(a) == TitleText(b)
    requires DescriptionText(a) == DescriptionText(b)
    ensures a == b
  {
    TitleDeterminesShape(a, b);
    if a.TitleTooShort? {
      TitleShortInjective(a.length, b.length);
    } else if a.TitleTooLong? {
      TitleLongInjective(a.length, b.length);
    } else if a.DescriptionTooShort? {
      DescriptionShortInjective(a.length, b.length);
    } else if a.DescriptionTooLong? {
      DescriptionLongInjective(a.length, b.length);
    }
    ShapeAndCount(a, b);
  }

  lemma TitleShortInjective(n: nat, k: nat)
    requires DescriptionText(TitleTooShort(n)) == DescriptionText(TitleTooShort(k))
    ensures n == k
  {
    TemplateInjective(TitleShortPrefix, n, k, TitleShortSuffix);
  }

  lemma TitleLongInjective(n: nat, k: nat)
    requires DescriptionText(TitleTooLong(n)) == DescriptionText(TitleTooLong(k))
    ensures n == k
  {
    TemplateInjective(TitleLongPrefix, n, k, TitleLongSuffix);
  }

  lemma DescriptionShortInjective(n: nat, k: nat)
    requires DescriptionText(DescriptionTooShort(n)) == DescriptionText(DescriptionTooShort(k))
    ensures n == k
  {
    TemplateInjective(DescShortPrefix, n, k, DescShortSuffix);
  }

  lemma DescriptionLongInjective(n: nat, k: nat)
    requires DescriptionText(DescriptionTooLong(n)) == DescriptionText(DescriptionTooLong(k))
    ensures n == k
  {
    TemplateInjective(DescLongPrefix, n, k, DescLongSuffix);
  }

  /** `getRecommendations`: each entry rendered, in order. */
  function GetRecommendations(m: PageMetadata): (r: seq<Recommendation>)
    requires Scorable(m)
    ensures |r| == |Advise(m)| >= 1
    ensures forall i :: 0 <= i < |r| ==> r[i] == Render(Advise(m)[i])
  {
    var adv := Advise(m);
    seq(|adv|, i requires 0 <= i < |adv| => Render(adv[i]))
  }

  /** A list of records typed as the entries are has a success record
      exactly when the entries contain the success fallback. */
  lemma SuccessKindMeansGreat(adv: seq<Advice>, r: seq<Recommendation>)
    requires |r| == |adv|
    requires forall i :: 0 <= i < |r| ==> r[i].kind == TypeOf(adv[i])
    ensures (exists i :: 0 <= i < |r| && r[i].kind == Success) <==> GreatSeo in adv
  {
    if GreatSeo in adv {
      var i :| 0 <= i < |adv| && adv[i] == GreatSeo;
      assert r[i].kind == Success;
    }
  }

  /** A success-typed record appears exactly when the list is the lone
      success entry. */
  lemma SuccessOnlyAlone(m: PageMetadata)
    requires Scorable(m)
    ensures (exists i :: 0 <= i < |GetRecommendations(m)| && GetRecommendations(m)[i].kind == Success)
      <==> Advise(m) == [GreatSeo]
  {
    var adv := Advise(m);
    var r := GetRecommendations(m);
    forall i | 0 <= i < |r|
      ensures r[i].kind == TypeOf(adv[i])
    {
      assert r[i] == Render(adv[i]);
    }
    SuccessKindMeansGreat(adv, r);
    AdviseGreat(m);
  }

  // =====================================================================
  // Scorer against recommender

  /** The scorer files an error for field `f`. */
  predicate ScoresError(m: PageMetadata, f: Field)
    requires Scorable(m)
  {
    FieldReport(m, f).errors > 0
  }

  /** The recommender emits an entry of type `k` about field `f`. */
  predicate Recommends(m: PageMetadata, f: Field, k: RecType)
    requires Scorable(m)
  {
    var r := Advise(m);
    exists i :: 0 <= i < |r| && Subject(r[i]) == Some(f) && TypeOf(r[i]) == k
  }

  lemma RecommendsByField(m: PageMetadata, f: Field, k: RecType)
    requires Scorable(m)
    ensures Recommends(m, f, k) <==> FieldAdvice(m, f).Some? && TypeOf(FieldAdvice(m, f).value) == k
  {
    RecommendsOnlyAdvice(m, f, k);
    RecommendsAllAdvice(m, f, k);
  }

  lemma RecommendsOnlyAdvice(m: PageMetadata, f: Field, k: RecType)
    requires Scorable(m)
    ensures Recommends(m, f, k) ==> FieldAdvice(m, f).Some? && TypeOf(FieldAdvice(m, f).value) == k
  {
    var r := Advise(m);
    AdviseFaithful(m);
    if i :| 0 <= i < |r| && Subject(r[i]) == Some(f) && TypeOf(r[i]) == k {
      assert FieldAdvice(m, f) == Some(r[i]);
    }
  }

  lemma RecommendsAllAdvice(m: PageMetadata, f: Field, k: RecType)
    requires Scorable(m)
    ensures FieldAdvice(m, f).Some? && TypeOf(FieldAdvice(m, f).value) == k ==> Recommends(m, f, k)
  {
    var r := Advise(m);
    if FieldAdvice(m, f).Some? && TypeOf(FieldAdvice(m, f).value) == k {
      AdviseMentions(m);
      var i :| 0 <= i < |r| && r[i] == FieldAdvice(m, f).value;
    }
  }

  lemma ScoresErrorIffAbsent(m: PageMetadata, f: Field)
    requires Scorable(m)
    ensures ScoresError(m, f) <==> FieldAbsent(m, f)
  {
    FieldCounts(m, f);
  }

  /** The recommender's own error entries mark exactly the absent fields,
      Twitter excepted. */
  lemma ErrorAdviceIffAbsent(m: PageMetadata, f: Field)
    requires Scorable(m)
    requires f != Twitter
    ensures FieldAdvice(m, f).Some? && TypeOf(FieldAdvice(m, f).value) == Error <==> FieldAbsent(m, f)
  {
    match f
    case Title =>
    case Description =>
    case Canonical =>
    case Viewport =>
    case OpenGraph =>
    case Robots =>
    case Hreflang =>
  }

  /** Every field but Twitter: the scorer counts an error exactly when the
      recommender emits an error-typed entry for it. */
  lemma ErrorsAgree(m: PageMetadata, f: Field)
    requires Scorable(m)
    requires f != Twitter
    ensures ScoresError(m, f) <==> Recommends(m, f, Error)
  {
    ScoresErrorIffAbsent(m, f);
    RecommendsByField(m, f, Error);
    ErrorAdviceIffAbsent(m, f);
  }

  /** An empty Twitter list is an error for the scorer but only a warning for
      the recommender, and a non-empty list with missing sub-tags loses points
      without any recommendation at all. */
  lemma TwitterAsymmetry(m: PageMetadata)
    requires Scorable(m)
    ensures ScoresError(m, Twitter) <==> Recommends(m, Twitter, Warning)
    ensures !Recommends(m, Twitter, Error)
    ensures |m.socialTags.twitter| > 0 ==> !Mentions(Advise(m), Twitter)
  {
    ScoresErrorIffAbsent(m, Twitter);
    RecommendsByField(m, Twitter, Warning);
    RecommendsByField(m, Twitter, Error);
    AdviseMentions(m);
  }

  /** Boundary lengths are scored as a warning yet draw no recommendation. */
  lemma SilentBoundaries(m: PageMetadata)
    requires Scorable(m)
    ensures (|m.title| == 10 || |m.title| == 60) ==>
      FieldReport(m, Title) == Single(Check(5, WarningCheck)) && !Mentions(Advise(m), Title)
    ensures m.metaTags.description.Some? && (|DescriptionContent(m)| == 120 || |DescriptionContent(m)| == 158) ==>
      FieldReport(m, Description) == Single(Check(5, WarningCheck)) && !Mentions(Advise(m), Description)
  {
    AdviseMentions(m);
  }

  /** With no field drawing advice, the rendered list is the success entry alone. */
  lemma NoAdviceIsGreat(m: PageMetadata)
    requires Scorable(m)
    requires forall f :: FieldAdvice(m, f).None?
    ensures GetRecommendations(m) == [Render(GreatSeo)]
  {
    var adv := Advise(m);
    AdviseGreat(m);
    assert adv == [GreatSeo];
    var r := GetRecommendations(m);
    assert |r| == 1 && r[0] == Render(adv[0]);
  }

  /** A perfect score leaves only the success entry; the converse fails (see
      `GreatSeoBelowHundred`). */
  lemma PerfectScoreIsGreat(m: PageMetadata)
    requires Scorable(m)
    requires AnalyzeSeoScore(m).score == 100
    ensures GetRecommendations(m) == [Render(GreatSeo)]
  {
    forall f
      ensures FieldAdvice(m, f).None?
    {
      assert FieldOptimal(m, f);
    }
    NoAdviceIsGreat(m);
  }

  /** A 10-character title with everything else ideal: only the success entry,
      yet the score is 90. */
  lemma GreatSeoBelowHundred(m: PageMetadata)
    requires Scorable(m)
    requires |m.title| == 10
    requires forall f :: f != Title ==> FieldOptimal(m, f)
    ensures GetRecommendations(m) == [Render(GreatSeo)]
    ensures AnalyzeSeoScore(m).score == 90
  {
    NinetyPoints(m);
    forall f
      ensures FieldAdvice(m, f).None?
    {
      if f != Title { assert FieldOptimal(m, f); }
    }
    NoAdviceIsGreat(m);
  }

  lemma NinetyPoints(m: PageMetadata)
    requires Scorable(m)
    requires |m.title| == 10
    requires forall f :: f != Title ==> FieldOptimal(m, f)
    ensures Unclamped(m).score == 90
  {
    FieldScore(m, Title);
    FieldScore(m, Description);
    FieldScore(m, Canonical);
    FieldScore(m, Viewport);
    FieldScore(m, OpenGraph);
    FieldScore(m, Twitter);
    FieldScore(m, Robots);
    FieldScore(m, Hreflang);
  }
}
