/**
 * Finding what to crawl: `getCategoryUrl`, which turns the requested categories
 * and sort order into the listing page to scrape (appsumo-crawler.js:213-302),
 * and `extractProductUrls`, which collects the product links of that page
 * (appsumo-crawler.js:307-326).
 */
module Discovery {
  import opened Wrappers
  import opened Text
  import opened Pages

  // ---------------------------------------------------------------- listing URL

  const SoftwareUrl: string := "https://appsumo.com/software/"

  /** `categoryMap` of lines 215-263, in declaration order, which is the order
      `Object.entries` visits it in (every key is a non-index string). */
  const CategoryMap: seq<(string, string)> := [
    ("marketing", "marketing-sales"),
    ("marketers", "marketing-sales"),
    ("sales", "marketing-sales"),
    ("marketing & sales", "marketing-sales"),
    ("marketing-sales", "marketing-sales"),
    ("operations", "operations"),
    ("productivity", "operations"),
    ("project", "operations"),
    ("media", "media-tools"),
    ("media tools", "media-tools"),
    ("media-tools", "media-tools"),
    ("video", "media-tools"),
    ("audio", "media-tools"),
    ("design", "media-tools"),
    ("development", "development-it"),
    ("dev", "development-it"),
    ("it", "development-it"),
    ("development & it", "development-it"),
    ("development-it", "development-it"),
    ("developer", "development-it"),
    ("customer", "customer-experience"),
    ("customer experience", "customer-experience"),
    ("customer-experience", "customer-experience"),
    ("support", "customer-experience"),
    ("crm", "customer-experience"),
    ("finance", "finance"),
    ("accounting", "finance"),
    ("invoicing", "finance"),
    ("build", "build-it-yourself"),
    ("build it yourself", "build-it-yourself"),
    ("build-it-yourself", "build-it-yourself"),
    ("builder", "build-it-yourself"),
    ("website", "build-it-yourself"),
    ("app", "build-it-yourself")
  ]

  /** AppSumo's seven category pages. */
  predicate IsCategorySlug(v: string) {
    v == "marketing-sales" || v == "operations" || v == "media-tools" || v == "development-it"
    || v == "customer-experience" || v == "finance" || v == "build-it-yourself"
  }

  /** Every entry of the map leads to one of the seven category pages. */
  lemma CategoryMapValues()
    ensures forall i :: 0 <= i < |CategoryMap| ==> IsCategorySlug(CategoryMap[i].1)
  {
  }

  /** The first entry at or after `from` whose key is `key` (the property lookup `categoryMap[key]`). */
  function ExactEntry(m: seq<(string, string)>, key: string, from: nat): (r: Option<nat>)
    ensures r.Some? ==> from <= r.value < |m| && m[r.value].0 == key
    ensures r.Some? ==> forall j :: from <= j < r.value ==> m[j].0 != key
    ensures r.None? ==> forall j :: from <= j < |m| ==> m[j].0 != key
    decreases |m| - from
  {
    if from >= |m| then None
    else if m[from].0 == key then Some(from)
    else ExactEntry(m, key, from + 1)
  }

  /** `first.includes(key) || key.includes(first)`: the partial match of line 281. */
  predicate PartialMatch(first: string, key: string) {
    Contains(first, key) || Contains(key, first)
  }

  /** The first entry at or after `from` that partially matches (the loop of lines 280-286). */
  function PartialEntry(m: seq<(string, string)>, first: string, from: nat): (r: Option<nat>)
    ensures r.Some? ==> from <= r.value < |m| && PartialMatch(first, m[r.value].0)
    ensures r.Some? ==> forall j :: from <= j < r.value ==> !PartialMatch(first, m[j].0)
    ensures r.None? ==> forall j :: from <= j < |m| ==> !PartialMatch(first, m[j].0)
    decreases |m| - from
  {
    if from >= |m| then None
    else if PartialMatch(first, m[from].0) then Some(from)
    else PartialEntry(m, first, from + 1)
  }

  /** `categories[0].toLowerCase().trim()`. */
  function FirstCategory(categories: seq<string>): string
    requires |categories| > 0
  {
    Trim(Lower(categories[0]))
  }

  /** The category page the first category selects, None for the unfiltered page: the exact
      key when there is one (line 275), else the first partial match (lines 280-286). */
  function SlugFor(m: seq<(string, string)>, first: string): Option<string> {
    match ExactEntry(m, first, 0)
    case Some(i) => Some(m[i].1)
    case None =>
      match PartialEntry(m, first, 0)
      case Some(i) => Some(m[i].1)
      case None => None
  }

  /** The category page the request selects (lines 267-290). */
  function CategorySlug(categories: seq<string>): (r: Option<string>)
    ensures r.Some? ==> IsCategorySlug(r.value)
  {
    CategoryMapValues();
    if |categories| == 0 then None else SlugFor(CategoryMap, FirstCategory(categories))
  }

  /** `baseUrl`: the software page, or the page of the selected category. */
  function BaseUrl(categories: seq<string>): string {
    match CategorySlug(categories)
    case None => SoftwareUrl
    case Some(v) => SoftwareUrl + v + "/"
  }

  /** `getCategoryUrl(categories, sortBy)`: the listing page, with `?sort=<sortBy>` when sortBy is truthy. */
  function GetCategoryUrl(categories: seq<string>, sortBy: Option<string>): (url: string)
    ensures exists v :: ListingPage(url, v, sortBy)
  {
    var base := BaseUrl(categories);
    var url := if Truthy(sortBy) then base + "?sort=" + sortBy.value else base;
    assert ListingPage(url, CategorySlug(categories).GetOr(""), sortBy);
    url
  }

  /** url is the software page (v == ""), or the page of category v, followed by the sort suffix. */
  predicate ListingPage(url: string, v: string, sortBy: Option<string>) {
    (v == "" || IsCategorySlug(v))
    && var base := if v == "" then SoftwareUrl else SoftwareUrl + v + "/";
    url == (if Truthy(sortBy) then base + "?sort=" + sortBy.value else base)
  }

  // ---------------------------------------------------------------- listing URL: properties

  /** No categories: the unfiltered software page. */
  lemma NoCategoriesListing(sortBy: Option<string>)
    ensures GetCategoryUrl([], sortBy) == SoftwareUrl + (if Truthy(sortBy) then "?sort=" + sortBy.value else "")
  {
  }

  /** An exact key wins over any partial match (keys of an object are distinct, so the entry
      with that key is the first one). */
  lemma ExactMatchWins(m: seq<(string, string)>, first: string, i: nat)
    requires i < |m| && m[i].0 == first
    requires forall j :: 0 <= j < i ==> m[j].0 != first
    ensures SlugFor(m, first) == Some(m[i].1)
  {
    var e := ExactEntry(m, first, 0);
    assert e.Some?;
    assert e.value == i;
  }

  /** With no exact key, the first entry in declaration order where either string contains
      the other decides. */
  lemma FirstPartialMatchWins(m: seq<(string, string)>, first: string, i: nat)
    requires i < |m|
    requires forall j :: 0 <= j < |m| ==> m[j].0 != first
    requires PartialMatch(first, m[i].0)
    requires forall j :: 0 <= j < i ==> !PartialMatch(first, m[j].0)
    ensures SlugFor(m, first) == Some(m[i].1)
  {
    var p := PartialEntry(m, first, 0);
    assert ExactEntry(m, first, 0).None?;
    assert p.Some?;
    assert p.value == i;
  }

  /** A category that matches no key, not even partially, gives the unfiltered page. */
  lemma UnknownCategoryListing(m: seq<(string, string)>, first: string)
    requires forall j :: 0 <= j < |m| ==> !PartialMatch(first, m[j].0)
    ensures SlugFor(m, first) == None
  {
    assert OccursAt(first, first, 0) by { OccursAtIff(first, first, 0); }
    assert Contains(first, first);
    assert ExactEntry(m, first, 0).None?;
  }

  /** Only the first category is consulted. */
  lemma OnlyFirstCategoryCounts(c: string, rest1: seq<string>, rest2: seq<string>, sortBy: Option<string>)
    ensures GetCategoryUrl([c] + rest1, sortBy) == GetCategoryUrl([c] + rest2, sortBy)
  {
    assert ([c] + rest1)[0] == ([c] + rest2)[0];
  }

  /** Lower-casing leaves a string without capitals unchanged. */
  lemma LowerOfLower(s: string)
    requires forall k :: 0 <= k < |s| ==> !IsUpper(s[k])
    ensures Lower(s) == s
  {
  }

  /** A category already in lower case with no surrounding space is used as given. */
  lemma FirstCategoryOfKey(c: string)
    requires forall k :: 0 <= k < |c| ==> !IsUpper(c[k])
    requires |c| > 0 && !IsSpace(c[0]) && !IsSpace(c[|c| - 1])
    ensures FirstCategory([c]) == c
  {
    LowerOfLower(c);
  }

  /** "marketers" and "marketing & sales" are both exact keys of the same page. */
  lemma SynonymsShareListing()
    ensures CategorySlug(["marketers"]) == CategorySlug(["marketing & sales"]) == Some("marketing-sales")
  {
    MarketersListing();
    MarketingSalesListing();
  }

  lemma MarketersListing()
    ensures CategorySlug(["marketers"]) == Some("marketing-sales")
  {
    FirstCategoryOfKey("marketers");
    ExactMatchWins(CategoryMap, "marketers", 1);
  }

  lemma MarketingSalesListing()
    ensures CategorySlug(["marketing & sales"]) == Some("marketing-sales")
  {
    FirstCategoryOfKey("marketing & sales");
    ExactMatchWins(CategoryMap, "marketing & sales", 3);
  }

  /** The key "productivity", seventh in the map, contains "it". */
  lemma ProductivityContainsIt()
    ensures CategoryMap[6].0 == "productivity" && PartialMatch("it", "productivity")
  {
    OccursAtIff("productivity", "it", 9);
    assert "productivity"[9..11] == "it";
    ContainsIff("productivity", "it");
  }

  /** "it" is an exact key, so it selects development-it even though the earlier key
      "productivity" contains it (see ProductivityContainsIt). */
  lemma ExactBeatsEarlierPartial()
    ensures CategorySlug(["it"]) == Some("development-it")
  {
    FirstCategoryOfKey("it");
    assert forall j :: 0 <= j < 16 ==> |CategoryMap[j].0| != 2;
    ExactMatchWins(CategoryMap, "it", 16);
  }

  /** A blank category is contained in every key, so it matches "marketing", the first one. */
  lemma BlankCategoryIsMarketing()
    ensures CategorySlug([""]) == Some("marketing-sales")
  {
    assert FirstCategory([""]) == "";
    forall j | 0 <= j < |CategoryMap| ensures CategoryMap[j].0 != "" {
      assert |CategoryMap[j].0| > 0;
    }
    assert OccursAt("marketing", "", 0);
    FirstPartialMatchWins(CategoryMap, "", 0);
  }

  /** The sort order is appended as given, without checking it against the listed options. */
  lemma SortAppendedUnchecked(categories: seq<string>, s: string)
    requires s != ""
    ensures GetCategoryUrl(categories, Some(s)) == BaseUrl(categories) + "?sort=" + s
    ensures GetCategoryUrl(categories, Some("")) == GetCategoryUrl(categories, None) == BaseUrl(categories)
  {
  }

  // ---------------------------------------------------------------- product links

  /** `https://appsumo.com/products/`, which the case-insensitive pattern of line 309 starts with. */
  const ProductPrefix: string := "https://appsumo.com/products/"

  /** The class `[a-z0-9-]` under the `i` flag. */
  predicate IsSlugChar(c: char) {
    IsLetter(c) || IsDigit(c) || c == '-'
  }

  predicate AllSlugChars(s: string) {
    forall i :: 0 <= i < |s| ==> IsSlugChar(s[i])
  }

  /** The length of the run of slug characters of s that starts at j. */
  function SlugRun(s: string, j: nat): (n: nat)
    ensures j + n <= |s| || n == 0
    ensures forall k :: j <= k < j + n ==> IsSlugChar(s[k])
    ensures j + n >= |s| || !IsSlugChar(s[j + n])
    decreases |s| - j
  {
    if j < |s| && IsSlugChar(s[j]) then 1 + SlugRun(s, j + 1) else 0
  }

  /** The prefix, in any letter case, starts at position i of s. */
  predicate PrefixAt(s: string, i: nat) {
    i + |ProductPrefix| <= |s| && Lower(s[i..i + |ProductPrefix|]) == ProductPrefix
  }

  /** Where a match of `/https:\/\/appsumo\.com\/products\/([a-z0-9-]+)\//i` that starts at i ends.
      The slug class excludes '/', so the greedy run is the only candidate. */
  function MatchEnd(s: string, i: nat): (r: Option<nat>)
    ensures r.Some? ==> i + |ProductPrefix| + 2 <= r.value <= |s|
  {
    if !PrefixAt(s, i) then None
    else
      var j := i + |ProductPrefix|;
      var n := SlugRun(s, j);
      if n > 0 && j + n < |s| && s[j + n] == '/' then Some(j + n + 1) else None
  }

  /** A whole match of the product-link pattern: the prefix in any case, a slug, a slash. */
  predicate IsProductLink(m: string) {
    |m| >= |ProductPrefix| + 2 && Lower(m[..|ProductPrefix|]) == ProductPrefix
    && AllSlugChars(m[|ProductPrefix|..|m| - 1]) && m[|m| - 1] == '/'
  }

  /** A product link with its trailing slash removed. */
  predicate IsProductUrl(u: string) {
    |u| >= |ProductPrefix| + 1 && Lower(u[..|ProductPrefix|]) == ProductPrefix
    && AllSlugChars(u[|ProductPrefix|..])
  }

  /** A match found at i is a product link occurring at i. */
  lemma MatchIsLink(s: string, i: nat, e: nat)
    requires i < |s| && MatchEnd(s, i) == Some(e)
    ensures IsProductLink(s[i..e]) && OccursAt(s, s[i..e], i)
  {
    var m := s[i..e];
    var j := i + |ProductPrefix|;
    var n := SlugRun(s, j);
    assert PrefixAt(s, i) && e == j + n + 1 && s[j + n] == '/';
    assert m[..|ProductPrefix|] == s[i..j];
    var mid := m[|ProductPrefix|..|m| - 1];
    var slug := s[j..j + n];
    assert |mid| == n;
    assert forall k :: 0 <= k < n ==> mid[k] == slug[k];
    assert mid == slug;
    forall k | 0 <= k < |slug| ensures IsSlugChar(slug[k]) {
      assert slug[k] == s[j + k];
    }
    OccursAtIff(s, m, i);
  }

  /** `markdown.matchAll(urlRegex)` from position i on: leftmost matches, each search resuming
      where the previous match ended. */
  function ScanLinks(s: string, i: nat): (r: seq<string>)
    ensures forall k :: 0 <= k < |r| ==> IsProductLink(r[k])
    ensures forall k :: 0 <= k < |r| ==> ContainsFrom(s, r[k], i)
    decreases |s| - i
  {
    if i >= |s| then []
    else
      match MatchEnd(s, i)
      case Some(e) =>
        var rest := ScanLinks(s, e);
        MatchIsLink(s, i, e);
        forall k | 0 <= k < |rest| ensures ContainsFrom(s, rest[k], i) {
          ContainsFromMono(s, rest[k], i, e);
        }
        [s[i..e]] + rest
      case None =>
        var rest := ScanLinks(s, i + 1);
        forall k | 0 <= k < |rest| ensures ContainsFrom(s, rest[k], i) {
          ContainsFromMono(s, rest[k], i, i + 1);
        }
        rest
  }

  /** `url.replace(/\/$/, '')` on every match. */
  function CleanAll(ms: seq<string>): (r: seq<string>)
    ensures |r| == |ms|
    ensures forall k :: 0 <= k < |ms| ==> r[k] == DropTrailing(ms[k], '/')
  {
    if ms == [] then [] else [DropTrailing(ms[0], '/')] + CleanAll(ms[1..])
  }

  /** How many URLs the loop keeps at most: it pushes until `urls.length >= maxProducts`, and
      tests that only after a push. So the cap is the least whole number of at least one that
      reaches maxProducts: its ceiling, or one when maxProducts is at most one. */
  function Cap(maxProducts: real): (n: nat)
    ensures n >= 1 && n as real >= maxProducts
    ensures n == 1 || (n - 1) as real < maxProducts
  {
    if maxProducts <= 1.0 then 1
    else if maxProducts.Floor as real == maxProducts then maxProducts.Floor
    else maxProducts.Floor + 1
  }

  /** The cap reaches a fractional maxProducts: 2.5 lets three URLs through. */
  lemma CapRoundsUp()
    ensures Cap(2.5) == 3 && Cap(50.0) == 50 && Cap(0.0) == 1
  {
  }

  /** The first `cap` distinct cleaned matches, in order of first appearance. */
  function Capped(matches: seq<string>, cap: nat): seq<string> {
    var d := Dedup(CleanAll(matches));
    d[..if |d| < cap then |d| else cap]
  }

  /** What `extractProductUrls(markdown, maxProducts)` returns. */
  function ProductUrls(markdown: string, maxProducts: real): seq<string> {
    Capped(ScanLinks(markdown, 0), Cap(maxProducts))
  }

  /** The loop of lines 312-323: push each cleaned match not seen yet, stop once the cap is reached. */
  method PushUrls(matches: seq<string>, cap: nat) returns (urls: seq<string>)
    requires cap >= 1
    ensures urls == Capped(matches, cap)
  {
    ghost var cleaned := CleanAll(matches);
    urls := [];
    var i := 0;
    while i < |matches|
      invariant 0 <= i <= |matches|
      invariant urls == Dedup(cleaned[..i])
      invariant |urls| < cap
    {
      var cleanUrl := DropTrailing(matches[i], '/');
      assert cleanUrl == cleaned[i];
      DedupStep(cleaned, i);
      if cleanUrl !in urls {
        urls := urls + [cleanUrl];
      }
      i := i + 1;
      if |urls| >= cap {
        DedupPrefix(cleaned, i);
        return;
      }
    }
    assert cleaned[..i] == cleaned;
  }

  /** `extractProductUrls(markdown, maxProducts)`: the product links of lines 307-310, then the loop. */
  method ExtractProductUrls(markdown: string, maxProducts: real) returns (urls: seq<string>)
    ensures urls == ProductUrls(markdown, maxProducts)
  {
    var matches := ScanLinks(markdown, 0);
    urls := PushUrls(matches, Cap(maxProducts));
  }

  // ---------------------------------------------------------------- product links: properties

  /** Removing the slash from a matched link leaves a product URL. */
  lemma CleanedLink(m: string)
    requires IsProductLink(m)
    ensures IsProductUrl(DropTrailing(m, '/'))
  {
    var u := DropTrailing(m, '/');
    assert u == m[..|m| - 1];
    assert u[..|ProductPrefix|] == m[..|ProductPrefix|];
    assert u[|ProductPrefix|..] == m[|ProductPrefix|..|m| - 1];
  }

  /** Capping keeps distinct URLs in the order of their first occurrence. */
  lemma CappedDistinctInOrder(ms: seq<string>, cap: nat)
    ensures NoDuplicates(Capped(ms, cap))
    ensures forall k, l :: 0 <= k < l < |Capped(ms, cap)| ==>
      Capped(ms, cap)[k] in CleanAll(ms) && Capped(ms, cap)[l] in CleanAll(ms)
      && FirstIndex(CleanAll(ms), Capped(ms, cap)[k]) < FirstIndex(CleanAll(ms), Capped(ms, cap)[l])
  {
    var cleaned := CleanAll(ms);
    var d := Dedup(cleaned);
    var r := Capped(ms, cap);
    DedupNoDuplicates(cleaned);
    assert r == d[..|r|];
    forall k, l | 0 <= k < l < |r|
      ensures r[k] in cleaned && r[l] in cleaned && FirstIndex(cleaned, r[k]) < FirstIndex(cleaned, r[l])
    {
      DedupFirstOccurrenceOrder(cleaned, k, l);
    }
  }

  /** The URLs are distinct and keep the order in which they first appear on the page. */
  lemma ProductUrlsDistinctInOrder(markdown: string, maxProducts: real)
    ensures NoDuplicates(ProductUrls(markdown, maxProducts))
    ensures forall k, l :: 0 <= k < l < |ProductUrls(markdown, maxProducts)| ==>
      ProductUrls(markdown, maxProducts)[k] in CleanAll(ScanLinks(markdown, 0))
      && ProductUrls(markdown, maxProducts)[l] in CleanAll(ScanLinks(markdown, 0))
      && FirstIndex(CleanAll(ScanLinks(markdown, 0)), ProductUrls(markdown, maxProducts)[k])
         < FirstIndex(CleanAll(ScanLinks(markdown, 0)), ProductUrls(markdown, maxProducts)[l])
  {
    CappedDistinctInOrder(ScanLinks(markdown, 0), Cap(maxProducts));
  }

  /** Every URL is a product link of the page with its trailing slash removed. */
  lemma ProductUrlsAreLinks(markdown: string, maxProducts: real)
    ensures var r := ProductUrls(markdown, maxProducts);
      forall k :: 0 <= k < |r| ==> IsProductUrl(r[k]) && Contains(markdown, r[k] + "/")
  {
    var ms := ScanLinks(markdown, 0);
    var cleaned := CleanAll(ms);
    var d := Dedup(cleaned);
    var r := ProductUrls(markdown, maxProducts);
    forall k | 0 <= k < |r| ensures IsProductUrl(r[k]) && Contains(markdown, r[k] + "/") {
      assert r[k] == d[k] && d[k] in cleaned;
      var c :| 0 <= c < |cleaned| && cleaned[c] == d[k];
      CleanedLink(ms[c]);
      assert r[k] + "/" == ms[c];
    }
  }

  /** At most Cap(maxProducts) URLs: no more than maxProducts when that is a whole number of at
      least one, fewer than maxProducts + 1 when it is at least one; at least one whenever the
      page has a product link, even for maxProducts <= 0. */
  lemma ProductUrlsCount(markdown: string, maxProducts: real)
    ensures |ProductUrls(markdown, maxProducts)| <= Cap(maxProducts)
    ensures maxProducts >= 1.0 && maxProducts.Floor as real == maxProducts ==>
      |ProductUrls(markdown, maxProducts)| as real <= maxProducts
    ensures maxProducts >= 1.0 ==> (|ProductUrls(markdown, maxProducts)| as real) < maxProducts + 1.0
    ensures |ProductUrls(markdown, maxProducts)| == 0 <==> |ScanLinks(markdown, 0)| == 0
    ensures |ProductUrls(markdown, maxProducts)| <= |ScanLinks(markdown, 0)|
  {
    var cleaned := CleanAll(ScanLinks(markdown, 0));
    if |cleaned| > 0 {
      assert cleaned[0] in Dedup(cleaned);
    }
  }

  /** A listing whose markdown holds the same product link twice yields it once. */
  lemma DuplicateLinkOnce(markdown: string, maxProducts: real, k: nat, l: nat)
    requires k < l < |ScanLinks(markdown, 0)| && ScanLinks(markdown, 0)[k] == ScanLinks(markdown, 0)[l]
    ensures |ProductUrls(markdown, maxProducts)| < |ScanLinks(markdown, 0)|
  {
    var cleaned := CleanAll(ScanLinks(markdown, 0));
    DedupNoDuplicates(cleaned);
    DedupShorter(cleaned, k, l);
  }

  /** Dedup of a sequence with a repeated element is strictly shorter. */
  lemma {:induction false} DedupShorter<T(!new)>(s: seq<T>, k: nat, l: nat)
    requires k < l < |s| && s[k] == s[l]
    ensures |Dedup(s)| < |s|
  {
    var init := s[..|s| - 1];
    if l < |s| - 1 {
      DedupShorter(init, k, l);
    } else {
      assert init[k] == s[l];
    }
  }
}
