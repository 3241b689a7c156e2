# SEO rule engine — a Dafny model

This project models the rule engine of an SEO meta-tag analyser. The
analyser fetches a web page, extracts its title, meta tags and link tags
into a `PageMetadata` record, and then judges that record in several
independent ways:

- the scorer `analyzeSeoScore` gives points out of 100 and counts passed,
  warning and error checks;
- the recommender `getRecommendations` lists what to fix, in a fixed field
  order, with a "Great SEO Implementation" entry when nothing is wrong;
- the alternative rule sets of `seoUtils` and `seoHelpers`, each with its
  own thresholds: title and description analysis, canonical comparison,
  mean rounding, truncation, HTML escaping, tag status and tag advice;
- the rules embedded in the result components: category scores, the four
  essential tag cards, the Google snippet badge and length bars, the social
  tag lists and the two technical cards;
- the extraction filters of the `/api/analyze` route, the in-memory store
  of analysis results and users, and the URL form's scheme normalisation.

Every rule is a pure function over immutable datatypes. Tag records are
attribute maps (`Common.Attrs`); a JavaScript property read is `Attr`, an
`Option`, and a template interpolation of a missing attribute renders
`undefined` (`Common.Interp`). An absent title is the empty string, as the
route produces it. Where JavaScript would throw by reading the length of an
undefined value, the model makes the presence of that value a precondition
(`Metadata.Scorable`, `SeoHelpers.StatusArgsOk`, `SocialMediaTags.ItemArgsOk`,
`EssentialMetaTags.PropsOk`). String lengths are lengths of `seq<char>`.

Each rule set keeps its own constants; the model proves how they relate
instead of reconciling them. Examples are the scorer's Twitter error that
the recommender reports as a warning, the boundary lengths that score a
warning but draw no recommendation, and the preview's description range
that is wider than the scorer's.

Modules follow the source files: `Common` and `Metadata` hold the shared
types; then `SeoAnalyzer`, `SeoUtils`, `SeoHelpers`, `Routes`,
`AnalysisResults`, `EssentialMetaTags`, `GooglePreview`, `SocialMediaTags`,
`TechnicalSeoTags`, `Storage` and `UrlForm`.

## Model

| member | source | states |
|---|---|---|
| SeoAnalyzer.SocialReport | client/src/lib/seoAnalyzer.js:57-116 | An empty Open Graph or Twitter list is exactly one error and no points. A non-empty list runs three sub-checks: each of the title, description and image tags earns 5 points and a pass when present and a warning when not, so k present tags give 5k points, k passes and 3−k warnings. |
| SeoAnalyzer.FieldReport | client/src/lib/seoAnalyzer.js:14-133 | Each field's points lie between 0 and its maximum (15, 15, 10, 10, 15, 15, 10, 10). A field is counted as an error exactly when it is absent; canonical, robots and hreflang are never errors. |
| SeoAnalyzer.FieldScore | client/src/lib/seoAnalyzer.js:14-133 | A field's points reach its maximum exactly when the field is optimal: title 10<len<60, description 120<len<158, other fields present or non-empty. |
| SeoAnalyzer.FieldCounts | client/src/lib/seoAnalyzer.js:14-133 | Social fields count three checks when their list is non-empty and one otherwise; the other fields count one. |
| SeoAnalyzer.FieldBuckets | client/src/lib/seoAnalyzer.js:14-133 | The per-field schedule. An absent field is one error worth 0. A present title or description passes for 15 when in range and is a warning worth 5 otherwise. Canonical, robots and hreflang pass for 10 when present and are a warning worth 0 otherwise; viewport passes for 10 or is an error. A present social family earns 5 points and a pass per sub-tag present and a warning per sub-tag missing. |
| SeoAnalyzer.FieldCounters | client/src/lib/seoAnalyzer.js:14-133 | A field's passes are its present sub-tags for a social family and one-if-optimal otherwise; its warnings are the missing sub-tags of a present social family and one-if-present-but-not-optimal otherwise. |
| SeoAnalyzer.UnclampedScore | client/src/lib/seoAnalyzer.js:14-133 | The sum of the eight field scores lies in 0..100, and it is 100 exactly when every field is optimal. |
| SeoAnalyzer.UnclampedCounts | client/src/lib/seoAnalyzer.js:12-133 | The error count is the number of absent required fields. The check count is 6 plus one or three for each social list. |
| SeoAnalyzer.UnclampedCounters | client/src/lib/seoAnalyzer.js:8-133 | The running `passed` and `warnings` counters are the sums of the fields' passes and warnings. |
| SeoAnalyzer.AnalyzeSeoScore | client/src/lib/seoAnalyzer.js:6-144 | The reported score lies in 0..100, equals the unclamped sum, and is 100 exactly when every field is optimal. Errors count the absent required fields, and the check count is derived from the two social lists. |
| SeoAnalyzer.ScoreCounters | client/src/lib/seoAnalyzer.js:6-144 | The reported `passed` counts the optimal single-check fields plus the social sub-tags present. The reported `warnings` counts the present but non-optimal title and description, the missing canonical, robots and hreflang, and the missing sub-tags of a present social family. |
| SeoAnalyzer.ClampIsIdle | client/src/lib/seoAnalyzer.js:135-136 | Clamping to 0..100 never changes the report. |
| SeoAnalyzer.CheckCountIsEightTenOrTwelve | client/src/lib/seoAnalyzer.js:12-133 | passed + warnings + errors is always 8, 10 or 12. |
| SeoAnalyzer.AbsentFieldReport | client/src/lib/seoAnalyzer.js:14-133 | On metadata with every field absent, each field scores 0. Canonical, robots and hreflang each count one warning; every other field counts one error. |
| SeoAnalyzer.AllAbsentScore | client/src/lib/seoAnalyzer.js:6-144 | Metadata with every field absent scores 0, with 0 passed, 3 warnings and 5 errors. |
| SeoAnalyzer.TitleAdvice | client/src/lib/seoAnalyzer.js:155-173 | An empty title draws "add", a length below 10 draws "too short" and a length above 60 draws "too long", each carrying the real length. Lengths 10..60 draw nothing. All four are if-and-only-if. |
| SeoAnalyzer.DescriptionAdvice | client/src/lib/seoAnalyzer.js:176-197 | A missing description draws "add" exactly when it is absent. A present one draws "too short" below 120 and "too long" above 158, carrying the length, and nothing in 120..158. |
| SeoAnalyzer.FieldAdvice | client/src/lib/seoAnalyzer.js:155-265 | Whatever a field's block emits is about that field. |
| SeoAnalyzer.Collect | client/src/lib/seoAnalyzer.js:155-265 | Running the blocks over a list of fields emits at most one entry per field, each the advice of one of those fields, and it omits no field's advice. |
| SeoAnalyzer.CollectInOrder | client/src/lib/seoAnalyzer.js:155-265 | Fields visited in strictly increasing rank emit their entries in that rank order. |
| SeoAnalyzer.Advise | client/src/lib/seoAnalyzer.js:151-276 | The recommendation list is never empty. |
| SeoAnalyzer.AdviseInOrder | client/src/lib/seoAnalyzer.js:155-265 | Entries follow the order title, description, viewport, canonical, Open Graph, Twitter, robots, hreflang, with at most one entry per field. |
| SeoAnalyzer.AdviseMentions | client/src/lib/seoAnalyzer.js:155-265 | A field is mentioned in the list exactly when its own block emits advice, and that advice is in the list. |
| SeoAnalyzer.AdviseFaithful | client/src/lib/seoAnalyzer.js:155-265 | Every entry about a field is exactly that field's advice. |
| SeoAnalyzer.AdviseGreat | client/src/lib/seoAnalyzer.js:268-274 | The success entry appears only as the whole list, and it appears exactly when no field's block emits anything. |
| SeoAnalyzer.TypeOf | client/src/lib/seoAnalyzer.js:155-274 | Only the closing all-good entry is `success` and it is about no field; exactly the missing title, description, viewport and Open Graph entries are `error`, and none of those is about canonical, robots or hreflang. Everything else is `warning`. |
| SeoAnalyzer.Render | client/src/lib/seoAnalyzer.js:155-274 | The pushed record's `type` is `success` exactly for the entry about no field, and `error` exactly for the four missing-required-tag entries, none of them about a field the scorer treats as optional. |
| SeoAnalyzer.RenderInjective | client/src/lib/seoAnalyzer.js:155-274 | Distinct advice renders as distinct records, so the interpolated character counts can be read back from the text. |
| SeoAnalyzer.TitleShortInjective | client/src/lib/seoAnalyzer.js:165 | The "title too short" text determines the length it reports. |
| SeoAnalyzer.TitleLongInjective | client/src/lib/seoAnalyzer.js:171 | The "title too long" text determines the length it reports. |
| SeoAnalyzer.DescriptionShortInjective | client/src/lib/seoAnalyzer.js:188 | The "description too short" text determines the length it reports. |
| SeoAnalyzer.DescriptionLongInjective | client/src/lib/seoAnalyzer.js:194 | The "description too long" text determines the length it reports. |
| SeoAnalyzer.GetRecommendations | client/src/lib/seoAnalyzer.js:151-276 | The records are the rendered advice, one per entry, and there is at least one. |
| SeoAnalyzer.SuccessOnlyAlone | client/src/lib/seoAnalyzer.js:268-274 | A record of type success appears exactly when the list is the single success record. |
| SeoAnalyzer.RecommendsByField | client/src/lib/seoAnalyzer.js:155-265 | The list holds a record of a given type about a field exactly when that field's block emits advice of that type. |
| SeoAnalyzer.ScoresErrorIffAbsent | client/src/lib/seoAnalyzer.js:14-116 | The scorer counts an error for a field exactly when the field is absent. |
| SeoAnalyzer.ErrorAdviceIffAbsent | client/src/lib/seoAnalyzer.js:155-238 | For every field but Twitter, the recommender emits an error about the field exactly when it is absent. |
| SeoAnalyzer.ErrorsAgree | client/src/lib/seoAnalyzer.js:14-238 | For title, description, viewport and Open Graph (and, trivially, the optional fields), the scorer counts an error exactly when the recommender emits an error about that field. |
| SeoAnalyzer.TwitterAsymmetry | client/src/lib/seoAnalyzer.js:241-247 | An empty Twitter list is a scorer error (lines 114-116) but only a warning recommendation. The recommender never emits a Twitter error and says nothing about a non-empty list. |
| SeoAnalyzer.SilentBoundaries | client/src/lib/seoAnalyzer.js:161-196 | A title of 10 or 60 characters, or a description of 120 or 158, scores a warning yet draws no recommendation. |
| SeoAnalyzer.NoAdviceIsGreat | client/src/lib/seoAnalyzer.js:268-274 | When no block emits anything, the list is exactly the success record. |
| SeoAnalyzer.PerfectScoreIsGreat | client/src/lib/seoAnalyzer.js:14-274 | A score of 100 implies the list is exactly the success record. |
| SeoAnalyzer.GreatSeoBelowHundred | client/src/lib/seoAnalyzer.js:14-274 | The converse fails: a 10-character title with every other field optimal scores 90 and still gets only the success record. |
| SeoAnalyzer.NinetyPoints | client/src/lib/seoAnalyzer.js:14-133 | A 10-character title with every other field optimal scores 90 before clamping. |
| SeoUtils.AnalyzeTitle | client/src/lib/seoUtils.js:35-67 | A missing title is error/0, above 60 characters is error/50, below 30 is warning/70, and 30..60 inclusive is good/100. |
| SeoUtils.AnalyzeDescription | client/src/lib/seoUtils.js:70-102 | A missing description is error/0, above 160 characters is warning/70, below 70 is warning/80, and 70..160 inclusive is good/100. |
| SeoUtils.ScoreDeterminesStatus | client/src/lib/seoUtils.js:35-102 | In both analyses, status good goes with score 100 and status error with the lowest scores, in both directions. |
| SeoUtils.StripTrailingSlash | client/src/lib/seoUtils.js:116-117 | The result is the input, or the input minus one final slash, and a final slash is always removed. |
| SeoUtils.StripOnlyOne | client/src/lib/seoUtils.js:116-117 | Only one slash goes: `x//` becomes `x/`. |
| SeoUtils.AnalyzeCanonical | client/src/lib/seoUtils.js:105-133 | A missing canonical is error/0, with a `<link rel="canonical">` snippet for the current URL. A present one is good exactly when both URLs agree after one trailing slash is stripped, and warning otherwise. The score is 100, 50 or 0 to match the status. |
| SeoUtils.CanonicalIgnoresOneSlash | client/src/lib/seoUtils.js:116-119 | A canonical matches itself, and it matches the current URL whether or not one slash is appended. |
| SeoUtils.DoubleSlashMismatch | client/src/lib/seoUtils.js:116-119 | `x//` does not match `x`. |
| SeoUtils.CalculateOverallScore | client/src/lib/seoUtils.js:137-142 | An empty list gives 0. Otherwise the result is the mean rounded half up, stated as the integer whose distance from the exact mean is at most one half. |
| SeoUtils.OverallScoreBetween | client/src/lib/seoUtils.js:137-142 | When every score lies in lo..hi, so does the rounded mean. |
| SeoUtils.OverallScoreOfEqual | client/src/lib/seoUtils.js:137-142 | The mean of equal scores is that score. |
| SeoUtils.GetTagDescription | client/src/lib/seoUtils.js:208-222 | The five known tags (title, description, viewport, canonical, robots) get a sentence about "the" tag; any other name gets the empty string. |
| SeoUtils.GetLearnMoreUrl | client/src/lib/seoUtils.js:225-241 | The five known tags get an `https://` link; any other name gets the empty string. |
| SeoUtils.EssentialEntry | client/src/lib/seoUtils.js:149-169 | A tag yields an entry exactly when its status is not good. The priority is high exactly for an error, and the entry carries the tag's own name. An error carries the recommended code; a warning carries the tag's current code. |
| SeoUtils.EssentialEntries | client/src/lib/seoUtils.js:149-169 | There is one entry per tag that needs work, and none of them is a social card. |
| SeoUtils.EssentialEntriesFollowTags | client/src/lib/seoUtils.js:149-169 | The k-th entry is the entry of the k-th tag that needs work, so input order is kept. |
| SeoUtils.MissingTagsNonEmpty | client/src/lib/seoUtils.js:172-178 | The missing tags of one social kind are non-empty exactly when some required tag of that kind has status error. |
| SeoUtils.SocialEntry | client/src/lib/seoUtils.js:180-202 | A social card appears exactly when some required tag of its kind is in error. Its code is the recommended codes of those tags, joined by newlines. |
| SeoUtils.SocialCodeSplits | client/src/lib/seoUtils.js:180-202 | Splitting a card's code on newlines gives back the individual codes, when none of them holds a newline. |
| SeoUtils.GenerateRecommendations | client/src/lib/seoUtils.js:145-204 | The list starts with exactly the essential entries, in input order. |
| SeoUtils.SocialEntriesLast | client/src/lib/seoUtils.js:172-202 | After the essential entries come at most a Twitter card and then at most an Open Graph card, each present exactly when its kind has an error tag. |
| SeoUtils.GenerateRecommendationRecords | client/src/lib/seoUtils.js:145-204 | Each record renders one entry, keeping its priority and code. |
| SeoUtils.RenderKeeps | client/src/lib/seoUtils.js:145-204 | A rendered record keeps its entry's priority and code. |
| SeoHelpers.Substring0 | client/src/lib/seoHelpers.js:10 | `substring(0, k)` clamps k into 0..length and returns a prefix of that length. |
| SeoHelpers.TruncateString | client/src/lib/seoHelpers.js:7-11 | Empty or undefined input gives "". Input no longer than the limit is returned unchanged. Longer input is cut to limit−3 characters plus `...`. |
| SeoHelpers.TruncateIdempotent | client/src/lib/seoHelpers.js:7-11 | Truncating twice is truncating once, whatever the limit. |
| SeoHelpers.ReplaceAll | client/src/lib/seoHelpers.js:19-21 | Replacing a character removes it when the replacement lacks it, and leaves every other character's presence as it was. |
| SeoHelpers.FormatTagForDisplay | client/src/lib/seoHelpers.js:18-22 | The output contains no `<` or `>`, and an empty or undefined tag gives "". |
| SeoHelpers.TwoPassesEscape | client/src/lib/seoHelpers.js:19-21 | The two global replaces equal escaping character by character: `<` becomes `&lt;`, `>` becomes `&gt;`, and everything else is kept in order. |
| SeoHelpers.EscapeLength | client/src/lib/seoHelpers.js:19-21 | Escaping adds three characters for each angle bracket. |
| SeoHelpers.FormatIsEscape | client/src/lib/seoHelpers.js:18-22 | A present tag is displayed as its character-wise escape, with the length that implies. |
| SeoHelpers.GetTagStatus | client/src/lib/seoHelpers.js:45-64 | No content gives Missing. A title is Optimal exactly when 10<len<60 and a description exactly when 120<len<158. Social titles and descriptions are Optimal exactly when longer than 10, and social images exactly when non-empty and starting with `http`. Any other name is Optimal. |
| SeoHelpers.GetTagRecommendation | client/src/lib/seoHelpers.js:73-105 | Missing gives the snippet advice and Optimal gives "properly implemented". NeedsImprovement gives length advice for a title or description, and a generic text otherwise. A title is called too short exactly below 50 and a description exactly below 120. |
| SeoHelpers.TitleVerdictSound | client/src/lib/seoHelpers.js:96 | Although the cut is at 50, a title that needs improvement (at most 10 or at least 60 characters) is called too short exactly when it has at most 10. |
| SeoHelpers.DescriptionAt120IsTooLong | client/src/lib/seoHelpers.js:98 | A 120-character description needs improvement and is called "too long". |
| SeoHelpers.GetTagRecommendationFixed | client/src/lib/seoHelpers.js:73-105 | The corrected advice is the advice as written in every case but a description needing improvement; there it keeps the name and the reported length and calls the description too short exactly at or below 120 characters. |
| SeoHelpers.RenderTagAdvice | client/src/lib/seoHelpers.js:73-105 | Every Missing text starts with "Missing ". A length text carries the interpolated character count (`undefined` for a title passed without a length) and the words "too short" or "too long" matching the verdict. The could-be-improved and properly-implemented texts start with the tag name. |
| SeoHelpers.FixedDescriptionVerdictSound | client/src/lib/seoHelpers.js:98 | With the corrected cut, a description that needs improvement is called too short exactly when it has at most 120 characters. |
| SeoHelpers.OptimalTextIgnoresContent | client/src/lib/seoHelpers.js:104 | An Optimal tag's advice is `<name> tag is properly implemented.`, whatever its content. |
| Routes.Extract | server/routes.ts:59-113 | Open Graph, Twitter and hreflang are the order-preserving filters for `og:` properties, `twitter:` names and alternate links with an hreflang. Robots, viewport, description, canonical and favicon are the first exact match, or absent. |
| Routes.ExtractedListsAreSubsets | server/routes.ts:72-112 | Every Open Graph and Twitter entry is one of the meta tags, and every hreflang entry is one of the link tags. |
| Routes.ExtractKeepsOrder | server/routes.ts:72-86 | The filtered lists of a longer document are the lists of its first part followed by those of the rest. |
| Routes.FindIsFirstMatch | server/routes.ts:82-91 | A lookup returns the first matching tag, and none when no tag matches. |
| Routes.ExtractedLookupsAreFirstMatch | server/routes.ts:82-91 | The five single-tag lookups are each the first match of their predicate. |
| Routes.FirstRobotsWins | server/routes.ts:82 | When several robots tags are present, the first one is kept. |
| Routes.CapitalisedNameIsNotRobots | server/routes.ts:82 | Name matching is case-sensitive: `name="Robots"` is not a robots tag. |
| Routes.DescriptionWithoutContentUnscorable | server/routes.ts:84 | A description tag without `content` is still extracted, and the scorer cannot read its length. |
| Routes.Analyze | server/routes.ts:15-126 | A missing or empty url gives 400 "URL is required", and an unparsable one gives 400 "Invalid URL format". A fetch failure gives 500. Otherwise the answer is the extracted metadata. |
| Routes.MissingUrlIsRejectedFirst | server/routes.ts:15-19 | A missing url gets 400 whatever the parser and the fetch would do. |
| AnalysisResults.InitialScores | client/src/components/AnalysisResults.jsx:18-22 | Before data arrives, all three categories are in error with score 0 and no counts. |
| AnalysisResults.CalculateCategoryScores | client/src/components/AnalysisResults.jsx:38-106 | The social count is the sum of the two list lengths. The technical count is one for robots plus the hreflang length. |
| AnalysisResults.EssentialScoreIsQuarters | client/src/components/AnalysisResults.jsx:44-53 | The essential score is 25 times the number of present essential fields, one of 0, 25, 50, 75 and 100. |
| AnalysisResults.EssentialStatusByCount | client/src/components/AnalysisResults.jsx:55-61 | Essential is optimal with all four fields present, warning with two or three, and error with none or one. |
| AnalysisResults.SocialStatusByLists | client/src/components/AnalysisResults.jsx:64-75 | Social is optimal when both lists are non-empty, warning when exactly one is, and error otherwise. |
| AnalysisResults.TechnicalStatusByTags | client/src/components/AnalysisResults.jsx:78-87 | Technical is optimal when robots is present and hreflang is non-empty, warning when exactly one holds, and error otherwise. |
| AnalysisResults.SocialShareStatus | client/src/components/AnalysisResults.jsx:147-153 | The overview's social badge is Complete exactly when both the Open Graph and Twitter lists are non-empty, Partial exactly when one of them is, and Missing exactly when both are empty. |
| AnalysisResults.ShareStatusMatchesSocial | client/src/components/AnalysisResults.jsx:147-153 | The share badge is Complete, Partial or Missing exactly when the social category is optimal, warning or error. |
| EssentialMetaTags.LengthStatus | client/src/components/EssentialMetaTags.jsx:85 | Missing exactly when absent, and Optimal exactly when present and strictly inside the bounds. |
| EssentialMetaTags.TitleItemWith | client/src/components/EssentialMetaTags.jsx:84-90 | The title card has null content exactly when the title is empty, and its status follows the 10/60 bounds. Its advice is the snippet, "optimal length" or a length verdict according to the status. |
| EssentialMetaTags.DescriptionItemWith | client/src/components/EssentialMetaTags.jsx:94-102 | The description card follows the 120/158 bounds on content length, in the same way. |
| EssentialMetaTags.PresenceItem | client/src/components/EssentialMetaTags.jsx:106-118 | The canonical and viewport cards are Optimal exactly when present, and Missing with the snippet otherwise. |
| EssentialMetaTags.TagItems | client/src/components/EssentialMetaTags.jsx:80-120 | Four cards in order: title, description, canonical, viewport. Each card's content is null exactly when its tag is absent. Title is Optimal at 10<len<60 and description at 120<len<158, Needs Improvement when present otherwise, Missing when absent; canonical and viewport are Optimal exactly when present. A card shows the missing-tag snippet exactly when it is Missing, and a length card needing improvement names its length and the verdict as written (too short below 10 or 120). |
| EssentialMetaTags.TitleStatusMatchesScorer | client/src/components/EssentialMetaTags.jsx:85 | The title card is Optimal, NeedsImprovement or Missing exactly when the scorer passes, warns on or errors on the title. |
| EssentialMetaTags.DescriptionStatusMatchesScorer | client/src/components/EssentialMetaTags.jsx:96 | The same holds for the description card and the scorer's description check. |
| EssentialMetaTags.TitleOfTenIsTooLong | client/src/components/EssentialMetaTags.jsx:89 | A 10-character title needs improvement and is called "too long". |
| EssentialMetaTags.DescriptionOf120IsTooLong | client/src/components/EssentialMetaTags.jsx:101 | A 120-character description needs improvement and is called "too long". |
| EssentialMetaTags.FixedVerdictsSound | client/src/components/EssentialMetaTags.jsx:89-101 | Outside the optimal ranges, the corrected verdict is "too short" exactly at or below the lower bound and "too long" exactly at or above the upper one. |
| EssentialMetaTags.VerdictsDifferOnlyAtLowerBound | client/src/components/EssentialMetaTags.jsx:89-101 | The written and corrected verdicts differ only at 10 for titles and only at 120 for descriptions. |
| EssentialMetaTags.TagItemsFixed | client/src/components/EssentialMetaTags.jsx:80-120 | The same four cards with the same contents and statuses, except that a title or description card needing improvement carries the corrected verdict: too short at or below 10 (title) or 120 (description) characters. |
| EssentialMetaTags.MissingTextHasMarker | client/src/components/EssentialMetaTags.jsx:71 | Every Missing card's text contains `Implementation:`, the marker the snippet display splits on. |
| GooglePreview.GetSnippetQuality | client/src/components/GooglePreview.jsx:16-32 | With neither field the badge is the "Missing meta data" error. With both it is optimal exactly when 10<title<60 and 120<description<160, and "Could be improved" otherwise. With one it is a warning naming the missing one. |
| GooglePreview.OptimalNeedsBoth | client/src/components/GooglePreview.jsx:19-24 | An optimal badge needs both title and description. |
| GooglePreview.ScorerPassImpliesOptimized | client/src/components/GooglePreview.jsx:19-24 | When the scorer passes both title and description, the badge is optimal. |
| GooglePreview.PreviewOptimalWhereScorerWarns | client/src/components/GooglePreview.jsx:20 | A 158- or 159-character description earns the optimal badge but a scorer warning. |
| GooglePreview.TitleBar | client/src/components/GooglePreview.jsx:163-168 | The title bar is error when the title is absent or over 60, warning under 30, and success for 30..60. |
| GooglePreview.DescriptionBar | client/src/components/GooglePreview.jsx:183-188 | The description bar is error when the description is absent or over 160, warning under 80, and success for 80..160. |
| GooglePreview.Counter | client/src/components/GooglePreview.jsx:173 | A counter shows 0 for an absent field and the length otherwise. |
| GooglePreview.CounterIsLength | client/src/components/GooglePreview.jsx:193 | A counter is the length of the field read as "" when absent. |
| GooglePreview.TitleBarMatchesAnalyzeTitle | client/src/components/GooglePreview.jsx:163-168 | The title bar is seoUtils' title status under other colours. |
| GooglePreview.DescriptionBarDiffersFromAnalyzeDescription | client/src/components/GooglePreview.jsx:183-188 | The description bar is not seoUtils' status: 70..79 characters is good there but a warning bar, and over 160 is a warning there but an error bar. |
| SocialMediaTags.Item | client/src/components/SocialMediaTags.jsx:79-89 | An item is named by `property` (Open Graph) or `name` (Twitter). It needs improvement exactly when it is the description tag with fewer than 60 characters, and is never Missing. |
| SocialMediaTags.Items | client/src/components/SocialMediaTags.jsx:79-102 | There is one item per tag, in order, with that name and status rule. |
| SocialMediaTags.ItemsConcat | client/src/components/SocialMediaTags.jsx:79-102 | Mapping a joined list gives the joined item lists, so order is kept. |
| SocialMediaTags.SnippetIsVerbatim | client/src/components/SocialMediaTags.jsx:81 | The snippet shows the name and content values verbatim, without escaping. |
| SocialMediaTags.DescriptionRulesDisagree | client/src/components/SocialMediaTags.jsx:84-86 | A social description of 11 to 59 characters needs improvement here, but seoHelpers' `getTagStatus` calls it Optimal. |
| TechnicalSeoTags.RobotsItem | client/src/components/TechnicalSEOTags.jsx:84-91 | The robots card is Optimal exactly when present and Missing otherwise, with null content exactly when absent. |
| TechnicalSeoTags.HreflangItem | client/src/components/TechnicalSEOTags.jsx:92-101 | The hreflang card is Optimal exactly when the list is non-empty, with null content exactly when it is empty. |
| TechnicalSeoTags.HreflangLines | client/src/components/TechnicalSEOTags.jsx:94-96 | There is one `<link rel="alternate">` line per entry, in order. |
| TechnicalSeoTags.TagItems | client/src/components/TechnicalSEOTags.jsx:83-102 | Two cards, robots then hreflang. Robots is Optimal with its `<meta name="robots">` snippet when the tag is present and Missing with null content otherwise. Hreflang is Optimal with its `<link rel="alternate">` lines joined by newlines when the list is non-empty, and Missing with null content otherwise. |
| TechnicalSeoTags.HreflangContentSplits | client/src/components/TechnicalSEOTags.jsx:94-96 | Splitting the hreflang content on newlines gives back one line per entry, when no value holds a newline. |
| TechnicalSeoTags.CardsMatchTechnicalCategory | client/src/components/TechnicalSEOTags.jsx:83-102 | Two, one or zero Optimal cards correspond exactly to the results page's technical category being optimal, warning or error. |
| TechnicalSeoTags.MissingRecommendationHasMarker | client/src/components/TechnicalSEOTags.jsx:72 | Every Missing card's recommendation contains `Implementation:`. |
| Storage.Empty | server/storage.ts:19-24 | A new store is empty, and both counters start at 1. |
| Storage.GetSeoResult | server/storage.ts:60-62 | A found result is stored and has the requested id; nothing is found exactly when no stored result has it. In a valid store, result id k is the k-th stored result, and any other id finds nothing. |
| Storage.GetUser | server/storage.ts:26-28 | A found user is stored and has the requested id; nothing is found exactly when no stored user has it. In a valid store, user id k is the k-th stored user, and any other id finds nothing. |
| Storage.GetSeoResultByUrl | server/storage.ts:64-68 | The lookup returns the first stored result, in insertion order, whose url matches; it finds none exactly when no result has that url. |
| Storage.GetUserByUsername | server/storage.ts:30-34 | The lookup returns the first stored user, in insertion order, whose username matches; it finds none exactly when no user has that name. |
| Storage.CreateSeoResult | server/storage.ts:43-58 | The new result takes the current counter as its id, and the counter goes up by one. The result is appended and users are unchanged. Url, creation time, title, description, score and analysis data are stored as given, an omitted field as null. |
| Storage.CreateUser | server/storage.ts:36-41 | The new user takes the user counter as its id and is appended. The counter goes up by one and results are unchanged. |
| Storage.GetAfterCreate | server/storage.ts:43-62 | After creating a result, its id finds it and every other id finds what it found before. |
| Storage.GetUserAfterCreate | server/storage.ts:26-41 | After creating a user, its id finds it and every other id finds what it found before. |
| Storage.ByUrlKeepsEarliest | server/storage.ts:64-68 | Creating a result never changes a url lookup that already succeeded, and the new result is found by its url only when no earlier one has it. |
| Storage.ByUsernameKeepsEarliest | server/storage.ts:30-41 | Creating a user never changes a username lookup that already succeeded. |
| Storage.Insert | server/storage.ts:72-76 | Inserting into the sorted list adds exactly that one result. |
| Storage.InsertKeepsOrder | server/storage.ts:72-76 | Inserting into a newest-first list keeps it newest first. |
| Storage.SortNewestFirst | server/storage.ts:72-76 | Sorting is a permutation of the stored results. |
| Storage.SortIsNewestFirst | server/storage.ts:72-76 | The sorted list is newest first. |
| Storage.SliceEnd | server/storage.ts:78 | `slice(0, limit)` keeps min(limit, n) items for a non-negative limit and counts back from the end for a negative one. |
| Storage.GetRecentSeoResults | server/storage.ts:70-79 | There are as many results as the slice keeps, and each is a stored result. |
| Storage.RecentAreNewest | server/storage.ts:70-79 | The recent list is newest first, and no result left out is newer than any result returned. |
| Storage.RecentWithLargeLimitIsEverything | server/storage.ts:70-79 | A limit at least the number of results returns every stored result, each once. |
| UrlForm.Normalize | client/src/components/URLForm.jsx:27-30 | The result always starts with `http://` or `https://`, ignoring ASCII case. Input that already does is unchanged; otherwise `https://` is prepended. |
| UrlForm.NormalizeIdempotent | client/src/components/URLForm.jsx:27-30 | Normalising twice is normalising once. |
| UrlForm.UpperCaseSchemeIsKept | client/src/components/URLForm.jsx:28 | The scheme test ignores case: `HTTP://a` is kept. |
| UrlForm.OtherSchemeIsPrefixed | client/src/components/URLForm.jsx:28 | Other schemes are not recognised: `ftp://a` becomes `https://ftp://a`. |
| UrlForm.HandleSubmit | client/src/components/URLForm.jsx:13-45 | Empty input gives the "URL required" toast. An unparsable normalised URL gives the invalid-URL toast. Otherwise the form submits the normalised URL once. All three are if-and-only-if. |
| UrlForm.SubmittedUrlPassesServerChecks | client/src/components/URLForm.jsx:33-44 | A URL the form submits is never answered with either 400 by the route, given the same parser. |
| Common.Filter | server/routes.ts:72-79 | The filter keeps only matching elements, each from the input, and drops none that match. |
| Common.Find | server/routes.ts:82-91 | The lookup returns the first matching element, and none exactly when nothing matches. |

## Left out

- Network and parsing plumbing: the page fetch, HTML parsing, Express routing and the `/api/recent` handler are I/O and foreign libraries. The fetched title, meta tags and link tags are inputs of `Routes.Analyze`.
- The analysis route's call to `createSeoResult` (server/routes.ts:116-124) is not modelled; the store itself is.
- URL parsing (`new URL`) is the parameter `parses` of `Routes.Analyze` and `UrlForm.HandleSubmit`. Hostname and path extraction for display is not modelled.
- Floating-point progress-bar widths (client/src/components/GooglePreview.jsx:169, 189), percentage colours and SVG arcs are presentation arithmetic.
- React state, effects, toasts, the clipboard and report download are not modelled. `UrlForm.HandleSubmit` returns which toast or submission happens.
- URLInput.jsx repeats URLForm's scheme prefixing around an API call; it is modelled once as `UrlForm.Normalize`.
- Presentation components that only map statuses to colours or labels are not modelled.
- shared/schema.ts holds table declarations only; its record shapes are the `Storage` datatypes.
- `new Date(created_at)` is the parameter `timeOf` of `Storage.GetRecentSeoResults`. Dates that parse to NaN are not modelled.
- String lengths are lengths of `seq<char>`, not UTF-16 code units.
- SeoUtils.GetTagDescription and SeoUtils.GetLearnMoreUrl: the exact texts and links are constants of the model; the contracts state only which names get one and its shape.
- SeoUtils.AnalyzeTitle, SeoUtils.AnalyzeDescription and SeoUtils.AnalyzeCanonical: message texts are carried as data, and the contracts speak of status, score and code only.
- Storage.SortNewestFirst: the stability of JavaScript's array sort (ties keep insertion order) is not stated.
- EssentialMetaTags.TagItems and TechnicalSeoTags.TagItems: the recommendation texts of the cards are stated only through their `Implementation:` marker; the snippet display split itself is presentation.
- GooglePreview.GetSnippetQuality: the displayed message strings are `GooglePreview.Message`, not part of a contract.

## Findings

| source | as written | input that shows it | evidently intended | confidence | as-written member | corrected member |
|---|---|---|---|---|---|---|
| client/src/components/EssentialMetaTags.jsx:89 | a title needing improvement is "too short" only when under 10 characters | a 10-character title: not optimal (the range is 10<len<60), and reported "too long" | "too short" for every length at or below the lower bound 10 | not executed | EssentialMetaTags.TitleOfTenIsTooLong | EssentialMetaTags.FixedVerdictsSound |
| client/src/components/EssentialMetaTags.jsx:101 | a description needing improvement is "too short" only when under 120 characters | a 120-character description: not optimal (the range is 120<len<158), and reported "too long" | "too short" for every length at or below 120 | not executed | EssentialMetaTags.DescriptionOf120IsTooLong | EssentialMetaTags.TagItemsFixed |
| client/src/lib/seoHelpers.js:98 | a description needing improvement is "too short" only when under 120 characters | a 120-character description content: `getTagStatus` gives NeedsImprovement, and the advice says "too long" | "too short" for every length at or below 120 | not executed | SeoHelpers.DescriptionAt120IsTooLong | SeoHelpers.FixedDescriptionVerdictSound |
