/**
 * The single-field extractors of appsumo-crawler.js: the product name (384-394),
 * the summary (399-434), the homepage (558-646), the founding year (989-1015),
 * the audience categories (1020-1046), the rating (1060-1064) and the review
 * count (1069-1073).
 */
module Fields {
  import opened Wrappers
  import opened Text
  import opened Pages
  import Discovery

  // ---------------------------------------------------------------- product name

  const ProductsPath: string := "/products/"

  /** The characters `[^\/\?#]` excludes. */
  predicate IsStop(c: char) { c == '/' || c == '?' || c == '#' }

  predicate NoStop(s: string) { forall k :: 0 <= k < |s| ==> !IsStop(s[k]) }

  /** The length of the run of non-stop characters of s from j on. */
  function RunToStop(s: string, j: nat): (n: nat)
    ensures j + n <= |s| || n == 0
    ensures forall k :: j <= k < j + n ==> !IsStop(s[k])
    ensures j + n >= |s| || IsStop(s[j + n])
    decreases |s| - j
  {
    if j < |s| && !IsStop(s[j]) then 1 + RunToStop(s, j + 1) else 0
  }

  /** A run known to be free of stop characters up to the end of s has that length. */
  lemma {:induction false} RunToStopAll(s: string, j: nat, n: nat)
    requires j + n == |s| && forall k :: j <= k < |s| ==> !IsStop(s[k])
    ensures RunToStop(s, j) == n
    decreases n
  {
    if n > 0 {
      RunToStopAll(s, j + 1, n - 1);
    }
  }

  /** `/\/products\/([^\/\?#]+)/` matches at i. */
  predicate SlugMatchAt(s: string, i: nat) {
    OccursAt(s, ProductsPath, i) && i + |ProductsPath| < |s| && !IsStop(s[i + |ProductsPath|])
  }

  /** Where the leftmost match at or after i starts. */
  function SlugMatchFrom(s: string, i: nat): (r: Option<nat>)
    ensures r.Some? ==> i <= r.value && SlugMatchAt(s, r.value)
    ensures r.Some? ==> forall p :: i <= p < r.value ==> !SlugMatchAt(s, p)
    ensures r.None? ==> forall p :: i <= p ==> !SlugMatchAt(s, p)
    decreases |s| - i
  {
    if i >= |s| then None
    else if SlugMatchAt(s, i) then Some(i)
    else SlugMatchFrom(s, i + 1)
  }

  /** Group 1 of a match at p: the run of non-stop characters after "/products/". */
  function SlugAt(s: string, p: nat): (slug: string)
    requires SlugMatchAt(s, p)
    ensures |slug| > 0 && NoStop(slug)
  {
    var j := p + |ProductsPath|;
    var slug := s[j..j + RunToStop(s, j)];
    assert forall k :: 0 <= k < |slug| ==> slug[k] == s[j + k];
    slug
  }

  /** `extractProductName(url)`: the upper-cased slug after the first "/products/" that is
      followed by one, or None (null) for a missing or empty URL or no such slug. */
  function ExtractProductName(url: Option<string>): (r: Option<string>)
    ensures r.Some? ==> Truthy(url) && |r.value| > 0 && NoStop(r.value)
    ensures r.Some? ==> forall k :: 0 <= k < |r.value| ==> !IsLowerLetter(r.value[k])
    ensures r.None? <==> !Truthy(url) || forall p :: 0 <= p ==> !SlugMatchAt(url.value, p)
  {
    if !Truthy(url) then None
    else
      match SlugMatchFrom(url.value, 0)
      case None => None
      case Some(p) =>
        var slug := SlugAt(url.value, p);
        assert forall k :: 0 <= k < |slug| ==> Upper(slug)[k] == UpperChar(slug[k]);
        Some(Upper(slug))
  }

  /** The URLs discovery produces are named by their slug: lower-case
      `https://appsumo.com/products/<slug>` gives the upper-cased slug. */
  lemma NameOfDiscoveredUrl(slug: string)
    requires |slug| > 0 && Discovery.AllSlugChars(slug)
    ensures ExtractProductName(Some(Discovery.ProductPrefix + slug)) == Some(Upper(slug))
  {
    var u := Discovery.ProductPrefix + slug;
    assert u[..29] == "https://appsumo.com/products/";
    forall p | 0 <= p < 19 ensures !SlugMatchAt(u, p) {
      OccursAtIff(u, ProductsPath, p);
      if p + 10 <= |u| {
        assert u[p..p + 10][0] == u[p] && u[p..p + 10][1] == u[p + 1];
        assert u[p] != '/' || u[p + 1] != 'p';
      }
    }
    assert SlugMatchAt(u, 19) by {
      OccursAtIff(u, ProductsPath, 19);
      assert u[19..29] == ProductsPath;
      assert u[29] == slug[0];
    }
    assert forall k :: 29 <= k < |u| ==> u[k] == slug[k - 29];
    RunToStopAll(u, 29, |slug|);
    assert u[29..29 + |slug|] == slug;
    assert SlugMatchFrom(u, 0) == Some(19) by {
      var f := SlugMatchFrom(u, 0);
      assert f.Some?;
      assert f.value == 19;
    }
  }

  // ---------------------------------------------------------------- summary

  /** The length of a markdown link `[text](target)` starting at i, or 0 when none starts
      there; `text` has no `]` and `target` no `)`, and neither is empty. */
  function LinkAt(s: string, i: nat): (n: nat)
    ensures n == 0 || (i + n <= |s| && n >= 5)
  {
    if !(i < |s| && s[i] == '[') then 0
    else
      var t := RunWithout(s, i + 1, ']');
      var j := i + 1 + t;
      if t == 0 || j + 1 >= |s| || s[j] != ']' || s[j + 1] != '(' then 0
      else
        var u := RunWithout(s, j + 2, ')');
        var e := j + 2 + u;
        if u == 0 || e >= |s| || s[e] != ')' then 0 else e + 1 - i
  }

  /** The length of the run of characters other than c in s from j on. */
  function RunWithout(s: string, j: nat, c: char): (n: nat)
    ensures j + n <= |s| || n == 0
    ensures forall k :: j <= k < j + n ==> s[k] != c
    ensures j <= |s| ==> j + n == |s| || s[j + n] == c
    decreases |s| - j
  {
    if j < |s| && s[j] != c then 1 + RunWithout(s, j + 1, c) else 0
  }

  /** A run of n characters other than c, ended by c, has length n. */
  lemma {:induction false} RunWithoutUpTo(s: string, j: nat, n: nat, c: char)
    requires j + n < |s| && s[j + n] == c && forall k :: j <= k < j + n ==> s[k] != c
    ensures RunWithout(s, j, c) == n
    decreases n
  {
    if n > 0 {
      RunWithoutUpTo(s, j + 1, n - 1, c);
    }
  }

  /** `s.replace(/\[([^\]]+)\]\([^\)]+\)/g, '$1')` from position i on: each link is replaced by
      its text, scanning left to right. */
  function StripLinksFrom(s: string, i: nat): (r: string)
    ensures |r| <= |s| - i || i > |s|
    decreases |s| - i
  {
    if i >= |s| then []
    else
      var n := LinkAt(s, i);
      if n == 0 then [s[i]] + StripLinksFrom(s, i + 1)
      else s[i + 1..i + 1 + RunWithout(s, i + 1, ']')] + StripLinksFrom(s, i + n)
  }

  function StripLinks(s: string): string {
    StripLinksFrom(s, 0)
  }

  /** Text without a `[` has no link to strip. */
  lemma {:induction false} StripLinksNoBracket(s: string, i: nat)
    requires i <= |s| && '[' !in s[i..]
    ensures StripLinksFrom(s, i) == s[i..]
    decreases |s| - i
  {
    if i < |s| {
      assert s[i] == s[i..][0];
      assert s[i + 1..] == s[i..][1..];
      StripLinksNoBracket(s, i + 1);
    }
  }

  /** One link of a line: `[Zapier](https://zapier.com)` becomes `Zapier`. */
  lemma StripOneLink()
    ensures StripLinks("[Zapier](https://zapier.com)") == "Zapier"
  {
    var s := "[Zapier](https://zapier.com)";
    assert s[7] == ']';
    assert s[8] == '(';
    assert s[27] == ')';
    RunWithoutUpTo(s, 1, 6, ']');
    RunWithoutUpTo(s, 9, 18, ')');
    assert LinkAt(s, 0) == 28;
    assert StripLinksFrom(s, 28) == [];
    assert s[1..7] == "Zapier";
  }

  /** The line prefixes that line 410 skips: images, image links and bare URLs. */
  predicate SkippedLine(line: string) {
    StartsWith(line, "![") || StartsWith(line, "[!") || StartsWith(line, "http")
  }

  /** The filters of lines 418-427 on a cleaned line. */
  predicate SummaryCandidate(c: string) {
    50 < Utf16Length(c) < 400 && !StartsWith(c, "#")
    && !Contains(c, "AppSumo") && !Contains(c, "Deal") && !Contains(c, "reviews")
    && !Contains(c, "logo") && !Contains(c, "image") && !StartsWith(c, "From the")
    && !Contains(c, "From the Founders") && !Contains(c, "From the founders")
  }

  /** What line k of the markdown offers as a summary, if anything. */
  function SummaryOfLine(line: string): Option<string> {
    var t := Trim(line);
    if SkippedLine(t) then None
    else
      var c := StripLinks(t);
      if SummaryCandidate(c) then Some(c) else None
  }

  /** What each line offers, in order (the loop of lines 406-431 looks at them in turn). */
  function LineSummaries(lines: seq<string>): (r: seq<Option<string>>)
    ensures |r| == |lines| && forall j :: 0 <= j < |lines| ==> r[j] == SummaryOfLine(lines[j])
  {
    seq(|lines|, j requires 0 <= j < |lines| => SummaryOfLine(lines[j]))
  }

  /** The markdown's lines, as line 404 splits them. */
  function MarkdownLines(page: Page): seq<string> {
    Split(OrEmpty(page.markdown), '\n')
  }

  /** The first line that offers a summary, if any. */
  function FirstOffer(page: Page): Option<nat> {
    FirstSome(LineSummaries(MarkdownLines(page)), 0)
  }

  /** `extractSummary(page)`: the first markdown line that survives the filters, link-stripped,
      else the description, else "". */
  function ExtractSummary(page: Page): (r: string)
    ensures FirstOffer(page).None? ==> r == OrEmpty(Description(page))
    ensures FirstOffer(page).Some? ==>
      (FirstOffer(page).value < |MarkdownLines(page)|
       && Some(r) == SummaryOfLine(MarkdownLines(page)[FirstOffer(page).value])
       && SummaryCandidate(r))
    ensures FirstOffer(page).Some? ==>
      forall j :: 0 <= j < FirstOffer(page).value ==> SummaryOfLine(MarkdownLines(page)[j]).None?
  {
    var lines := MarkdownLines(page);
    var xs := LineSummaries(lines);
    match FirstSome(xs, 0)
    case Some(k) =>
      assert xs[k] == SummaryOfLine(lines[k]);
      OfferedIsCandidate(lines[k]);
      xs[k].value
    case None => OrEmpty(Description(page))
  }

  /** Whatever a line offers has passed the filters. */
  lemma OfferedIsCandidate(line: string)
    requires SummaryOfLine(line).Some?
    ensures SummaryCandidate(SummaryOfLine(line).value)
  {
  }

  /** A chosen summary line is strictly between 50 and 400 UTF-16 units long, so a line of
      exactly 50 units never is one. */
  lemma SummaryWindowStrict(line: string)
    requires Utf16Length(StripLinks(Trim(line))) == 50 || Utf16Length(StripLinks(Trim(line))) == 400
    ensures SummaryOfLine(line).None?
  {
  }

  /** The description is used when no line qualifies. */
  lemma SummaryFallsBackToDescription(page: Page)
    requires forall j :: 0 <= j < |MarkdownLines(page)| ==> SummaryOfLine(MarkdownLines(page)[j]).None?
    ensures ExtractSummary(page) == OrEmpty(Description(page))
  {
    var xs := LineSummaries(MarkdownLines(page));
    assert forall j :: 0 <= j < |xs| ==> xs[j].None?;
    assert FirstOffer(page).None?;
  }

  /** A qualifying line always wins over the description. */
  lemma SummaryLineWins(page: Page, j: nat)
    requires j < |MarkdownLines(page)| && SummaryOfLine(MarkdownLines(page)[j]).Some?
    ensures SummaryCandidate(ExtractSummary(page))
    ensures FirstOffer(page).Some? && FirstOffer(page).value <= j
  {
    var xs := LineSummaries(MarkdownLines(page));
    assert xs[j].Some?;
  }

  // ---------------------------------------------------------------- homepage

  /** `excludedDomains` of lines 567-570. */
  const ExcludedDomains: seq<string> := ["appsumo.com", "linkedin.com", "facebook.com", "twitter.com",
    "instagram.com", "youtube.com", "tiktok.com", "pinterest.com", "reddit.com", "capterra.com",
    "g2.com", "trustpilot.com", "getapp.com", "softwareadvice.com"]

  /** `excludedDomains.some(domain => url.includes(domain))`. */
  predicate Excluded(url: string) {
    exists d :: 0 <= d < |ExcludedDomains| && Contains(url, ExcludedDomains[d])
  }

  /** The links the filter of lines 572-575 keeps, in order. */
  function ValidLinks(links: seq<Link>): (r: seq<Link>)
    ensures |r| <= |links|
    ensures forall k :: 0 <= k < |r| ==> r[k] in links && !Excluded(r[k].url)
    ensures forall k :: 0 <= k < |links| && !Excluded(links[k].url) ==> links[k] in r
  {
    if links == [] then []
    else
      var rest := ValidLinks(links[1..]);
      assert forall k :: 1 <= k < |links| ==> links[k] == links[1..][k - 1];
      if Excluded(links[0].url) then rest else [links[0]] + rest
  }

  /** One link survives the filter exactly when it is not excluded. */
  lemma ValidLinksSingle(l: Link)
    ensures ValidLinks([l]) == if Excluded(l.url) then [] else [l]
  {
    assert [l][1..] == [];
  }

  /** The filter keeps order: filtering two lists one after the other is filtering each and
      putting the survivors one after the other. */
  lemma {:induction false} ValidLinksAppend(a: seq<Link>, b: seq<Link>)
    ensures ValidLinks(a + b) == ValidLinks(a) + ValidLinks(b)
  {
    if a == [] {
      assert a + b == b;
    } else {
      assert (a + b)[0] == a[0];
      assert (a + b)[1..] == a[1..] + b;
      ValidLinksAppend(a[1..], b);
    }
  }

  /** The length of "http://" or "https://" when url starts with one of them. */
  function SchemeLength(url: string): (n: nat)
    ensures n == 0 || n == 7 || n == 8
    ensures n == 8 <==> StartsWith(url, "https://")
    ensures n == 7 <==> !StartsWith(url, "https://") && StartsWith(url, "http://")
    ensures n <= |url|
  {
    if StartsWith(url, "https://") then 8 else if StartsWith(url, "http://") then 7 else 0
  }

  /** h, not empty and free of '/', stands at position p of url and reaches its end or a '/'. */
  predicate HostAt(url: string, p: nat, h: string) {
    |h| > 0 && p + |h| <= |url| && url[p..p + |h|] == h && '/' !in h
    && (p + |h| == |url| || url[p + |h|] == '/')
  }

  /** url holds "www." after a scheme of length n, followed by a character other than '/'. */
  predicate WwwHost(url: string, n: nat) {
    n <= |url| && StartsWith(url[n..], "www.") && n + 4 < |url| && url[n + 4] != '/'
  }

  /** Group 1 of `/^https?:\/\/(?:www\.)?([^\/]+)/`: the host after an optional "www.". The
      optional group is tried first, and is given up only when no host follows it. */
  function Domain(url: string): (r: Option<string>)
    ensures r.Some? ==> |r.value| > 0 && '/' !in r.value
    ensures r.None? <==> SchemeLength(url) == 0 || SchemeLength(url) == |url| || url[SchemeLength(url)] == '/'
    ensures r.Some? && WwwHost(url, SchemeLength(url)) ==> HostAt(url, SchemeLength(url) + 4, r.value)
    ensures r.Some? && !WwwHost(url, SchemeLength(url)) ==> HostAt(url, SchemeLength(url), r.value)
  {
    var n := SchemeLength(url);
    if n == 0 then None
    else
      var p := if WwwHost(url, n) then n + 4 else n;
      var run := RunWithout(url, p, '/');
      if run > 0 then
        var h := url[p..p + run];
        assert forall k :: 0 <= k < run ==> h[k] == url[p + k];
        assert HostAt(url, p, h);
        Some(h)
      else None
  }

  /** `/^https?:\/\/[^\/]+\/?$/`: a scheme, a host, at most one slash, nothing else. */
  predicate IsRootUrl(url: string) {
    var n := SchemeLength(url);
    n > 0 && var run := RunWithout(url, n, '/');
    run > 0 && (n + run == |url| || (n + run + 1 == |url| && url[n + run] == '/'))
  }

  /** The first link from k on satisfying the domain test: its domain, lower-cased, contains slug. */
  predicate DomainHas(url: string, slug: string) {
    var d := Domain(url);
    d.Some? && Contains(Lower(d.value), slug)
  }

  /** The links' URLs, in order. */
  function Urls(links: seq<Link>): (r: seq<string>)
    ensures |r| == |links| && forall j :: 0 <= j < |links| ==> r[j] == links[j].url
  {
    seq(|links|, j requires 0 <= j < |links| => links[j].url)
  }

  /** Which URLs pass the domain test. */
  function DomainFlags(urls: seq<string>, slug: string): (r: seq<bool>)
    ensures |r| == |urls| && forall j :: 0 <= j < |urls| ==> r[j] == DomainHas(urls[j], slug)
  {
    seq(|urls|, j requires 0 <= j < |urls| => DomainHas(urls[j], slug))
  }

  /** Which URLs are root URLs. */
  function RootFlags(urls: seq<string>): (r: seq<bool>)
    ensures |r| == |urls| && forall j :: 0 <= j < |urls| ==> r[j] == IsRootUrl(urls[j])
  {
    seq(|urls|, j requires 0 <= j < |urls| => IsRootUrl(urls[j]))
  }

  /** Position of the first link from k on whose domain contains slug. */
  function FirstDomainLink(links: seq<Link>, slug: string, k: nat): (r: Option<nat>)
    ensures r.Some? ==> k <= r.value < |links| && DomainHas(links[r.value].url, slug)
    ensures r.Some? ==> forall j :: k <= j < r.value ==> !DomainHas(links[j].url, slug)
    ensures r.None? ==> forall j :: k <= j < |links| ==> !DomainHas(links[j].url, slug)
  {
    FirstTrue(DomainFlags(Urls(links), slug), k)
  }

  /** Position of the first link from k on that is a root URL. */
  function FirstRootLink(links: seq<Link>, k: nat): (r: Option<nat>)
    ensures r.Some? ==> k <= r.value < |links| && IsRootUrl(links[r.value].url)
    ensures r.Some? ==> forall j :: k <= j < r.value ==> !IsRootUrl(links[j].url)
    ensures r.None? ==> forall j :: k <= j < |links| ==> !IsRootUrl(links[j].url)
  {
    FirstTrue(RootFlags(Urls(links)), k)
  }

  /** Position of the first standalone URL from k on whose domain contains slug. */
  function FirstDomainUrl(urls: seq<string>, slug: string, k: nat): (r: Option<nat>)
    ensures r.Some? ==> k <= r.value < |urls| && DomainHas(urls[r.value], slug)
    ensures r.Some? ==> forall j :: k <= j < r.value ==> !DomainHas(urls[j], slug)
    ensures r.None? ==> forall j :: k <= j < |urls| ==> !DomainHas(urls[j], slug)
  {
    FirstTrue(DomainFlags(urls, slug), k)
  }

  /** Position of the first standalone root URL from k on. */
  function FirstRootUrl(urls: seq<string>, k: nat): (r: Option<nat>)
    ensures r.Some? ==> k <= r.value < |urls| && IsRootUrl(urls[r.value])
    ensures r.Some? ==> forall j :: k <= j < r.value ==> !IsRootUrl(urls[j])
    ensures r.None? ==> forall j :: k <= j < |urls| ==> !IsRootUrl(urls[j])
  {
    FirstTrue(RootFlags(urls), k)
  }

  /** `url.replace(/[,.]$/, '')`. */
  function DropTrailingPunct(url: string): string {
    if |url| > 0 && (url[|url| - 1] == ',' || url[|url| - 1] == '.') then url[..|url| - 1] else url
  }

  /** There is a product name and url's domain, lower-cased, contains it lower-cased. */
  predicate NameInDomain(url: string, name: Option<string>) {
    name.Some? && DomainHas(url, Lower(name.value))
  }

  /** The homepage chosen among the markdown links (lines 577-616), None when no link survives
      the filter, else one of them: the first whose domain holds the product name, else the
      first root URL, else the first link. */
  function HomepageFromLinks(valid: seq<Link>, name: Option<string>): (r: Option<string>)
    ensures r.Some? <==> |valid| > 0
    ensures r.Some? ==> exists k :: 0 <= k < |valid| && r.value == DropTrailing(valid[k].url, '/')
  {
    if |valid| == 0 then None
    else
      var byDomain := if name.Some? then FirstDomainLink(valid, Lower(name.value), 0) else None;
      match byDomain
      case Some(k) => Some(DropTrailing(valid[k].url, '/'))
      case None =>
        match FirstRootLink(valid, 0)
        case Some(k) => Some(DropTrailing(valid[k].url, '/'))
        case None => Some(DropTrailing(valid[0].url, '/'))
  }

  /** The homepage chosen among the standalone URLs (lines 618-643): the first whose domain
      holds the product name, else the first root URL, else none. */
  function HomepageFromUrls(urls: seq<string>, name: Option<string>): (r: Option<string>)
    ensures r.Some? ==> exists k :: 0 <= k < |urls| && r.value == DropTrailingPunct(urls[k])
                                  && (IsRootUrl(urls[k]) || NameInDomain(urls[k], name))
    ensures r.None? <==>
      (forall k :: 0 <= k < |urls| ==> !IsRootUrl(urls[k]))
      && (forall k :: 0 <= k < |urls| ==> !NameInDomain(urls[k], name))
    ensures (exists k :: 0 <= k < |urls| && NameInDomain(urls[k], name)) ==>
      exists k :: 0 <= k < |urls| && NameInDomain(urls[k], name)
        && r == Some(DropTrailingPunct(urls[k]))
        && forall j :: 0 <= j < k ==> !NameInDomain(urls[j], name)
  {
    var byDomain := if name.Some? && |urls| > 0 then FirstDomainUrl(urls, Lower(name.value), 0) else None;
    match byDomain
    case Some(k) => Some(DropTrailingPunct(urls[k]))
    case None =>
      match FirstRootUrl(urls, 0)
      case Some(k) => Some(DropTrailingPunct(urls[k]))
      case None => None
  }

  /** Without a URL whose domain holds the name, the first root URL is taken. */
  lemma HomepageFromUrlsRootNext(urls: seq<string>, name: Option<string>, k: nat)
    requires forall j :: 0 <= j < |urls| ==> !NameInDomain(urls[j], name)
    requires k < |urls| && IsRootUrl(urls[k]) && forall j :: 0 <= j < k ==> !IsRootUrl(urls[j])
    ensures HomepageFromUrls(urls, name) == Some(DropTrailingPunct(urls[k]))
  {
    var f := FirstRootUrl(urls, 0);
    assert f.Some?;
    assert f.value == k;
  }

  /** `extractHomepage(page)`. When a markdown link survives the filter the homepage is one
      of them, never a link to AppSumo, a social network or a review site, and the
      standalone URLs are not looked at; otherwise it comes from the standalone URLs. */
  function ExtractHomepage(page: Page): (r: Option<string>)
    ensures var links := ContentScan(page).links;
      |ValidLinks(links)| > 0 ==>
        r.Some? && exists k :: 0 <= k < |links| && !Excluded(links[k].url) && r.value == DropTrailing(links[k].url, '/')
    ensures |ValidLinks(ContentScan(page).links)| == 0 ==>
      r == HomepageFromUrls(ContentScan(page).standaloneUrls, ExtractProductName(SourceUrl(page)))
  {
    var scan := ContentScan(page);
    var name := ExtractProductName(SourceUrl(page));
    var valid := ValidLinks(scan.links);
    if |valid| > 0 then HomepageFromLinks(valid, name)
    else HomepageFromUrls(scan.standaloneUrls, name)
  }

  /** A link whose domain contains the product slug wins over every root-domain link, and the
      first such link in page order is taken. */
  lemma HomepagePrefersSlugDomain(page: Page, k: nat)
    requires ExtractProductName(SourceUrl(page)).Some?
    requires var valid := ValidLinks(ContentScan(page).links);
      var slug := Lower(ExtractProductName(SourceUrl(page)).value);
      k < |valid| && DomainHas(valid[k].url, slug) && forall j :: 0 <= j < k ==> !DomainHas(valid[j].url, slug)
    ensures ExtractHomepage(page) == Some(DropTrailing(ValidLinks(ContentScan(page).links)[k].url, '/'))
  {
    var valid := ValidLinks(ContentScan(page).links);
    var slug := Lower(ExtractProductName(SourceUrl(page)).value);
    var f := FirstDomainLink(valid, slug, 0);
    assert f.Some?;
    assert f.value == k;
  }

  /** Without a slug-domain link the first root-domain link is taken, and without one of those
      the first surviving link. */
  lemma HomepageRootThenFirst(page: Page)
    requires var valid := ValidLinks(ContentScan(page).links);
      var name := ExtractProductName(SourceUrl(page));
      |valid| > 0 && (name.None? || FirstDomainLink(valid, Lower(name.value), 0).None?)
    ensures var valid := ValidLinks(ContentScan(page).links);
      match FirstRootLink(valid, 0)
      case Some(k) => ExtractHomepage(page) == Some(DropTrailing(valid[k].url, '/'))
      case None => ExtractHomepage(page) == Some(DropTrailing(valid[0].url, '/'))
  {
  }

  /** The standalone URLs are consulted only when no markdown link survives, and they have no
      "first link" step: a deep standalone URL that matches neither test gives no homepage. */
  lemma StandaloneNeedsDomainOrRoot(page: Page)
    requires |ValidLinks(ContentScan(page).links)| == 0
    requires forall j :: 0 <= j < |ContentScan(page).standaloneUrls| ==> !IsRootUrl(ContentScan(page).standaloneUrls[j])
    requires var name := ExtractProductName(SourceUrl(page));
      name.None? || forall j :: 0 <= j < |ContentScan(page).standaloneUrls| ==>
        !DomainHas(ContentScan(page).standaloneUrls[j], Lower(name.value))
    ensures ExtractHomepage(page) == None
  {
    var urls := ContentScan(page).standaloneUrls;
    var name := ExtractProductName(SourceUrl(page));
    if name.Some? && |urls| > 0 {
      assert FirstDomainUrl(urls, Lower(name.value), 0).None?;
    }
    assert FirstRootUrl(urls, 0).None?;
  }

  // ---------------------------------------------------------------- founding date

  /** A candidate year that line 1008 accepts. */
  predicate YearAccepted(year: Option<string>, currentYear: int) {
    year.Some? && year.value != ""
    && var n := ParseInt(year.value);
    n.Some? && 1900 <= n.value <= currentYear + 1
  }

  /** Which candidate years are accepted. */
  function YearFlags(years: seq<Option<string>>, currentYear: int): (r: seq<bool>)
    ensures |r| == |years| && forall j :: 0 <= j < |years| ==> r[j] == YearAccepted(years[j], currentYear)
  {
    seq(|years|, j requires 0 <= j < |years| => YearAccepted(years[j], currentYear))
  }

  /** The first pattern from k on whose year is accepted (the loop of lines 1001-1012). */
  function FirstYear(years: seq<Option<string>>, currentYear: int, k: nat): (r: Option<nat>)
    ensures r.Some? ==> k <= r.value < |years| && YearAccepted(years[r.value], currentYear)
    ensures r.Some? ==> forall j :: k <= j < r.value ==> !YearAccepted(years[j], currentYear)
    ensures r.None? ==> forall j :: k <= j < |years| ==> !YearAccepted(years[j], currentYear)
  {
    FirstTrue(YearFlags(years, currentYear), k)
  }

  /** `extractFoundingDate(page)`, with the current year as a parameter: the first accepted
      candidate, or None (null). */
  function ExtractFoundingDate(page: Page, currentYear: int): (r: Option<string>)
    ensures var years := ContentScan(page).foundingYears;
      match FirstYear(years, currentYear, 0)
      case Some(k) => r == years[k] && YearAccepted(r, currentYear)
      case None => r.None?
  {
    var years := ContentScan(page).foundingYears;
    match FirstYear(years, currentYear, 0)
    case Some(k) => years[k]
    case None => None
  }

  /** A four-digit year is returned exactly when it lies in [1900, currentYear + 1]. */
  lemma FoundingYearRange(y: string, currentYear: int)
    requires |y| == 4 && AllDigits(y)
    ensures YearAccepted(Some(y), currentYear) <==> 1900 <= DigitsValue(y) <= currentYear + 1
  {
  }

  /** A year after next year ("2030" when it is 2026) is passed over for the next pattern. */
  lemma FutureYearSkipped(currentYear: int)
    requires currentYear == 2026
    ensures FirstYear([Some("2030"), Some("2019")], currentYear, 0) == Some(1)
  {
    assert DigitsValue("2030") == 2030 by {
      assert "2030"[..3] == "203" && "203"[..2] == "20" && "20"[..1] == "2" && "2"[..0] == "";
    }
    assert DigitsValue("2019") == 2019 by {
      assert "2019"[..3] == "201" && "201"[..2] == "20" && "20"[..1] == "2" && "2"[..0] == "";
    }
  }

  // ---------------------------------------------------------------- categories

  /** `categoryKeywords` of lines 1025-1037, written in five groups. */
  const CategoryKeywords: seq<string> := KeywordsA + KeywordsB + KeywordsC + KeywordsD + KeywordsE

  const KeywordsA: seq<string> := ["Small businesses", "Marketers", "Marketing agencies", "Content creators",
    "Solopreneurs", "Bloggers", "Ecommerce", "Freelancers", "Developers"]
  const KeywordsB: seq<string> := ["Customer support", "SaaS", "Web design agencies", "Sales managers",
    "Consultants", "Course creators", "Educators", "Web designers", "C-suite"]
  const KeywordsC: seq<string> := ["Entrepreneur-curious", "Copywriters", "Graphic designers", "Online coaches",
    "IT/security agencies", "Event organizers", "Product managers", "Social media managers", "Accountants"]
  const KeywordsD: seq<string> := ["Influencers", "Project managers", "Remote teams", "Social media marketers",
    "YouTubers", "Recruiters", "Task Automation", "Photographers", "Real estate"]
  const KeywordsE: seq<string> := ["Authors", "Crypto", "Product designers", "Podcasters", "QA",
    "Videographers", "Nonprofits", "Virtual assistants", "Visual artists"]

  /** Every string of kws begins with a capital letter. */
  predicate Capitalised(kws: seq<string>) {
    forall k :: 0 <= k < |kws| ==> |kws[k]| > 0 && IsUpper(kws[k][0])
  }

  lemma CapitalisedAppend(a: seq<string>, b: seq<string>)
    requires Capitalised(a) && Capitalised(b)
    ensures Capitalised(a + b)
  {
    assert forall k :: |a| <= k < |a| + |b| ==> (a + b)[k] == b[k - |a|];
  }

  /** Every keyword begins with a capital letter. */
  lemma KeywordsCapitalised()
    ensures |CategoryKeywords| == 45 && Capitalised(CategoryKeywords)
  {
    assert Capitalised(KeywordsA);
    assert Capitalised(KeywordsB);
    assert Capitalised(KeywordsC);
    assert Capitalised(KeywordsD);
    assert Capitalised(KeywordsE);
    CapitalisedAppend(KeywordsA, KeywordsB);
    CapitalisedAppend(KeywordsA + KeywordsB, KeywordsC);
    CapitalisedAppend(KeywordsA + KeywordsB + KeywordsC, KeywordsD);
    CapitalisedAppend(KeywordsA + KeywordsB + KeywordsC + KeywordsD, KeywordsE);
  }

  /** The keywords, in order, that the lower-cased text contains. */
  function KeywordsIn(lowered: string, kws: seq<string>): seq<string> {
    if kws == [] then []
    else (if Contains(lowered, kws[0]) then [kws[0]] else []) + KeywordsIn(lowered, kws[1..])
  }

  /** `extractCategories(page)`: the forEach of lines 1039-1043 and the de-duplication of 1045.
      Every keyword has a capital and the text is lower-cased, so nothing is ever found. */
  method ExtractCategories(page: Page) returns (categories: seq<string>)
    ensures categories == Dedup(KeywordsIn(Lower(Content(page)), CategoryKeywords))
    ensures categories == []
  {
    var lowered := Lower(Content(page));
    KeywordsCapitalised();
    var found: seq<string> := [];
    var i := 0;
    while i < |CategoryKeywords|
      invariant 0 <= i <= |CategoryKeywords|
      invariant found == []
      invariant KeywordsIn(lowered, CategoryKeywords) == KeywordsIn(lowered, CategoryKeywords[i..])
    {
      var keyword := CategoryKeywords[i];
      NoUpperInLower(Content(page), keyword, 0);
      assert CategoryKeywords[i..] == [keyword] + CategoryKeywords[i + 1..];
      if Contains(lowered, keyword) {
        found := found + [keyword];
      }
      i := i + 1;
    }
    categories := Dedup(found);
  }

  // ---------------------------------------------------------------- rating and reviews

  /** 10 to the n. */
  function Pow10(n: nat): (r: nat)
    ensures r >= 1
  {
    if n == 0 then 1 else 10 * Pow10(n - 1)
  }

  /** The value of digits f written after a decimal point: f over 10 to the length of f. */
  function Fraction(f: string): (r: real)
    requires AllDigits(f)
    ensures 0.0 <= r
  {
    DigitsValue(f) as real / Pow10(|f|) as real
  }

  /** `parseFloat(s)` for the `\d+(?:\.\d+)?` text the rating pattern captures, as an exact
      rational: the leading digits, then the digits after a point. */
  function ParseDecimal(s: string): (r: Option<real>)
    ensures r.Some? ==> r.value >= 0.0
    ensures r.None? <==> (s == [] || !IsDigit(s[0]))
  {
    var w := LeadingDigits(s);
    if w == [] then None
    else
      var rest := s[|w|..];
      var f := if |rest| > 0 && rest[0] == '.' then LeadingDigits(rest[1..]) else [];
      Some(DigitsValue(w) as real + Fraction(f))
  }

  /** Digits up to position n, followed by anything but a digit or a point, read as that
      whole number. */
  lemma ParseDecimalWhole(s: string, n: nat)
    requires 0 < n <= |s| && AllDigits(s[..n])
    requires n == |s| || (!IsDigit(s[n]) && s[n] != '.')
    ensures ParseDecimal(s) == Some(DigitsValue(s[..n]) as real)
  {
    LeadingDigitsUpTo(s, n);
  }

  /** Digits up to position n, a point, and digits from n + 1 up to m, followed by anything
      but a digit, read as the whole number plus those tenths, hundredths and so on. A point
      with no digits after it adds nothing ("4." is 4). */
  lemma ParseDecimalFraction(s: string, n: nat, m: nat)
    requires 0 < n < m <= |s| && AllDigits(s[..n]) && s[n] == '.' && AllDigits(s[n + 1..m])
    requires m == |s| || !IsDigit(s[m])
    ensures ParseDecimal(s) == Some(DigitsValue(s[..n]) as real + Fraction(s[n + 1..m]))
  {
    LeadingDigitsUpTo(s, n);
    var rest := s[n..];
    assert rest[1..] == s[n + 1..];
    assert s[n + 1..][..m - n - 1] == s[n + 1..m];
    LeadingDigitsUpTo(rest[1..], m - n - 1);
  }

  /** "4.5" is four and a half. */
  lemma RatingFourAndAHalf()
    ensures ParseDecimal("4.5") == Some(4.5)
  {
    assert LeadingDigits("4.5") == "4" by { assert LeadingDigits("4.5"[1..]) == []; }
    assert "4.5"[1..] == ".5" && ".5"[1..] == "5";
    assert LeadingDigits("5") == "5" by { assert LeadingDigits("5"[1..]) == []; }
    assert DigitsValue("4") == 4 by { assert "4"[..0] == []; }
    assert DigitsValue("5") == 5 by { assert "5"[..0] == []; }
  }

  /** `extractRating(page)`: the captured number, or None (null). */
  function ExtractRating(page: Page): (r: Option<real>)
    ensures ContentScan(page).rating.None? ==> r.None?
    ensures ContentScan(page).rating.Some? ==> r == ParseDecimal(ContentScan(page).rating.value)
    ensures r.Some? ==> r.value >= 0.0
  {
    match ContentScan(page).rating
    case None => None
    case Some(t) => ParseDecimal(t)
  }

  /** `extractReviews(page)`: the captured count, or None (null). */
  function ExtractReviews(page: Page): (r: Option<int>)
    ensures ContentScan(page).reviewCount.None? ==> r.None?
    ensures var t := ContentScan(page).reviewCount;
      t.Some? && t.value != [] && AllDigits(t.value) ==> r == Some(DigitsValue(t.value))
  {
    match ContentScan(page).reviewCount
    case None => None
    case Some(t) => ParseInt(t)
  }
}
