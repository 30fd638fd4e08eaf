/**
 * A scraped product page as the extractors of appsumo-crawler.js see it: the
 * markdown and HTML renderings, the metadata, and the results of the regular
 * expressions the extractors run over those texts.
 *
 * The simple matches (substrings, prefixes, splitting on a character, trimming,
 * case mapping) are computed from the text by the extractors themselves. The
 * complex patterns (look-arounds, bounded wildcards, nested groups) are not
 * re-implemented: their leftmost-match results are part of the page, one
 * `TextScan` per text, and the extractors' choices between them are modelled.
 */
module Pages {
  import opened Wrappers

  /** `page.metadata`; every property may be missing. */
  datatype Metadata = Metadata(sourceURL: Option<string>, title: Option<string>, description: Option<string>)

  /** A `[text](url)` link of the homepage pattern (appsumo-crawler.js:563). */
  datatype Link = Link(text: string, url: string)

  /** A profile URL match: the whole URL and its handle group. */
  datatype UrlMatch = UrlMatch(url: string, handle: string)

  /** An `<a href="/profile/<handle>">text</a>` anchor of line 683: the handle and the raw text. */
  datatype ProfileAnchor = ProfileAnchor(handle: string, text: string)

  /** A founder match made of a profile handle, a name and a LinkedIn URL (lines 715, 730). */
  datatype ProfileMatch = ProfileMatch(handle: string, name: string, linkedIn: string)

  /** The first-name / last-name JSON shape of line 660. */
  datatype FounderData = FounderData(username: string, firstName: string, lastName: string)

  /** One piece of `html.split(/One time payment of/i)` after the first, with what the
      patterns of lines 503, 509 and 513 found around the split point. */
  datatype PaymentSection = PaymentSection(tierName: Option<string>, price: Option<string>, regular: Option<string>)

  /** Results of the patterns run over the content text (`markdown || html || ''`). */
  datatype TextScan = TextScan(
    /** Full matches of the six tier-name patterns of lines 452-459, pattern by pattern. */
    tierNameMatches: seq<string>,
    /** Digits of the first `$X/lifetime` (line 540). */
    lifetimePrice: Option<string>,
    /** Digits of the first `$X regular` or `$X original` (line 545). */
    regularPrice: Option<string>,
    /** The `[text](http...)` links, in order (line 563). */
    links: seq<Link>,
    /** The standalone URLs of line 619, in order. */
    standaloneUrls: seq<string>,
    /** The first `[text](https://appsumo.com/profile/<user>)` link (line 747). */
    profileLink: Option<UrlMatch>,
    /** The first `[Name Name](linkedin URL)` link (line 774): the name and the URL. */
    linkedInAnchor: Option<Link>,
    /** Group 1 of each explicit founder pattern of lines 786-791, in order. */
    explicitNames: seq<Option<string>>,
    /** Whether the word "Founder" or "Co-founder" occurs (line 817). */
    founderKeyword: bool,
    /** Group 1 of each pattern of lines 825-829 within the 600-character window. */
    nearFounderNames: seq<Option<string>>,
    /** The first LinkedIn profile URL and its handle (line 848). */
    linkedInUrl: Option<UrlMatch>,
    /** The first AppSumo profile URL and its handle (line 849). */
    appSumoUrl: Option<UrlMatch>,
    /** Group 1 of the link-near-handle pattern of lines 855-856. */
    nearbyName: Option<string>,
    /** Group 1 of each founding-date pattern of lines 993-999, in order. */
    foundingYears: seq<Option<string>>,
    /** Group 1 of the rating pattern of line 1062. */
    rating: Option<string>,
    /** Group 1 of the review-count pattern of line 1071. */
    reviewCount: Option<string>
  )

  /** Results of the patterns run over the HTML text only. */
  datatype HtmlScan = HtmlScan(
    /** The first username / first-name / last-name JSON shape (line 660). */
    founderData: Option<FounderData>,
    /** The first LinkedIn profile URL of the HTML (lines 670, 704). */
    linkedIn: Option<string>,
    /** The profile anchors of line 683, in order. */
    profileLinks: seq<ProfileAnchor>,
    /** The profile / CEO-label / LinkedIn pattern of line 715: handle, image alt text, LinkedIn URL. */
    ceoMatch: Option<ProfileMatch>,
    /** The profile-link-then-LinkedIn pattern of line 730: handle, link text, LinkedIn URL. */
    profileWithLinkedIn: Option<ProfileMatch>,
    /** For a tier name, the price digits of the pattern of line 478, when it matches. */
    tierPrices: map<string, string>,
    paymentSections: seq<PaymentSection>
  )

  datatype Page = Page(
    markdown: Option<string>,
    html: Option<string>,
    metadata: Option<Metadata>,
    markdownScan: TextScan,
    htmlScan: TextScan,
    htmlParts: HtmlScan
  )

  /** What a pattern finds in the empty string: nothing. */
  const EmptyScan: TextScan := TextScan([], None, None, [], [], None, None, [], false, [], None, None, None, [], None, None)

  /** A string property is truthy: present and not empty. */
  predicate Truthy(s: Option<string>) {
    s.Some? && s.value != ""
  }

  /** `x || ''` for a string property. */
  function OrEmpty(s: Option<string>): string {
    if Truthy(s) then s.value else ""
  }

  /** `page.markdown || page.html || ''`. */
  function Content(page: Page): string {
    if Truthy(page.markdown) then page.markdown.value
    else if Truthy(page.html) then page.html.value
    else ""
  }

  /** The pattern results for `Content(page)`. */
  function ContentScan(page: Page): TextScan {
    if Truthy(page.markdown) then page.markdownScan
    else if Truthy(page.html) then page.htmlScan
    else EmptyScan
  }

  /** `page.metadata?.sourceURL`. */
  function SourceUrl(page: Page): Option<string> {
    if page.metadata.Some? then page.metadata.value.sourceURL else None
  }

  /** `page.metadata?.title`. */
  function Title(page: Page): Option<string> {
    if page.metadata.Some? then page.metadata.value.title else None
  }

  /** `page.metadata?.description`. */
  function Description(page: Page): Option<string> {
    if page.metadata.Some? then page.metadata.value.description else None
  }
}
