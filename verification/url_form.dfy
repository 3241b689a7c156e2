/** `handleSubmit` of client/src/components/URLForm.jsx: reject an empty
    input, prefix `https://` when no `http://` or `https://` scheme is
    present, and submit the result if it parses as a URL. The URL parser is
    the parameter `parses`. */
module UrlForm {
  import opened Common
  import Routes

  /** The case folding of a JavaScript `/i` regular expression without the
      `u` flag, restricted to what the scheme pattern can meet: it maps
      ASCII capitals to small letters and never folds a non-ASCII character
      onto an ASCII one. */
  function FoldAscii(c: char): (d: char)
    ensures 'a' <= d <= 'z' ==> c == d || c == d - 'a' + 'A'
    ensures !('a' <= d <= 'z') ==> c == d
  {
    if 'A' <= c <= 'Z' then c - 'A' + 'a' else c
  }

  /** `s` starts with the lower-case `p`, ignoring ASCII case. */
  predicate StartsWithIgnoringCase(s: string, p: string) {
    |p| <= |s| && forall i :: 0 <= i < |p| ==> FoldAscii(s[i]) == p[i]
  }

  /** `/^https?:\/\//i.test(s)`. */
  predicate HasScheme(s: string) {
    StartsWithIgnoringCase(s, "http://") || StartsWithIgnoringCase(s, "https://")
  }

  /** The `processedUrl` of `handleSubmit`. */
  function Normalize(s: string): (r: string)
    ensures HasScheme(r)
    ensures HasScheme(s) ==> r == s
    ensures !HasScheme(s) ==> r == "https://" + s
  {
    if HasScheme(s) then s
    else
      var r := "https://" + s;
      assert forall i :: 0 <= i < 8 ==> r[i] == "https://"[i];
      r
  }

  /** Normalising twice is normalising once. */
  lemma NormalizeIdempotent(s: string)
    ensures Normalize(Normalize(s)) == Normalize(s)
  {
  }

  /** The scheme test ignores case, so an upper-case scheme is kept. */
  lemma UpperCaseSchemeIsKept()
    ensures Normalize("HTTP://a") == "HTTP://a"
  {
    var s := "HTTP://a";
    assert forall i :: 0 <= i < 7 ==> FoldAscii(s[i]) == "http://"[i];
  }

  /** Another scheme is not recognised: `ftp://a` becomes `https://ftp://a`. */
  lemma OtherSchemeIsPrefixed()
    ensures Normalize("ftp://a") == "https://ftp://a"
  {
    assert FoldAscii("ftp://a"[0]) != 'h';
  }

  /** What one submission does: show one of two error toasts, or call
      `onSubmit` once with the normalised URL. */
  datatype Outcome = UrlRequired | InvalidUrl | Submitted(url: string)

  function HandleSubmit(input: string, parses: string -> bool): (o: Outcome)
    ensures input == "" <==> o == UrlRequired
    ensures o == InvalidUrl <==> input != "" && !parses(Normalize(input))
    ensures o.Submitted? <==> input != "" && parses(Normalize(input))
    ensures o.Submitted? ==> o.url == Normalize(input) && HasScheme(o.url) && parses(o.url)
  {
    if input == "" then UrlRequired
    else
      var u := Normalize(input);
      if !parses(u) then InvalidUrl else Submitted(u)
  }

  /** A submitted URL passes the server's two checks when the server parses
      URLs as the browser does: it is never answered "URL is required" or
      "Invalid URL format". */
  lemma SubmittedUrlPassesServerChecks(input: string, parses: string -> bool, fetched: Option<Routes.Page>)
    requires HandleSubmit(input, parses).Submitted?
    ensures !Routes.Analyze(Some(HandleSubmit(input, parses).url), parses, fetched).BadRequest?
  {
    var u := HandleSubmit(input, parses).url;
    assert |u| >= 7;
  }
}
