# AppSumo crawler: a Dafny model

This project models the core of an AppSumo product crawler and proves properties of the model. The crawler:

- turns a category and a sort order into a listing URL;
- finds the product links on the listing page;
- scrapes every product page in small batches, retrying on HTTP 429 and setting rate-limited URLs aside;
- extracts one product record from each page: name, summary, pricing tiers, homepage, founder, founding year, categories, rating and review count.

Beside the crawler, the project models:

- the scoring rule that the companion Product Hunt evaluation applies to crawled records;
- the input guards of the `/api/crawl` request handler.

## How the world is modelled

- **Scrapes.** The Firecrawl client is a set of oracles held in `Crawl.Env`:
  - `listing` is the listing scrape, returning its markdown or an error;
  - `scrape` is the product scrape. It is told the URL, the `onlyMainContent` flag and the attempt number, so retries can see different answers;
  - `scrapeLinkedIn` is the founder's LinkedIn scrape, returning the name it validated, if any.
- **Time.**
  - Every sleep is an event in the crawl's log: `Backoff(url, ms)` for a retry, `Sleep(ms)` for a cooldown.
  - The current year and the current instant are parameters.
- **Callbacks.** `Crawl.Callbacks` says which callbacks the caller registered, and every invocation is an event in the log.
- **Concurrency.** A mini-batch's two scrapes are run one after the other, in URL order.
- **Pattern matching.**
  - Simple text operations are written out in `Text`: substring tests, prefixes, splitting, trimming, ASCII case mapping, de-duplication and digit parsing. So are the product-link scanner, the `/products/` slug, markdown link stripping, domain extraction, the tier-number search and the handle splitting.
  - Patterns with look-arounds, bounded wildcards or nested groups are not re-implemented. Their leftmost-match results are fields of `Pages.Page`: one `TextScan` for the markdown, one for the HTML, and an `HtmlScan`. The content scan is the markdown scan when the markdown is present and non-empty, and the HTML scan otherwise. The extractors' choices between those matches are modelled in full.
- **Strings.** A string is a sequence of code points. The length tests that JavaScript applies with `.length` count UTF-16 units through `Text.Utf16Length`, so a character above U+FFFF counts twice.
- **Imperative code stays imperative.** The retry loop, the URL collector, the product loop, the pricing collectors, the keyword loop and the two crawl loops are methods with loop invariants. Each is proved equal to a specification function. The properties are proved as lemmas about those functions.

One behaviour of the source may look like a modelling slip: `extractCategories` always returns the empty list. Every keyword starts with a capital letter, and it is searched for in the lower-cased content. The model keeps this behaviour and proves it (`Fields.ExtractCategories`, `Fields.KeywordsCapitalised`).

## Model

| member | source | states |
|---|---|---|
| Retry.RetryWithBackoff | appsumo-crawler.js:21-38 | The attempt loop computes exactly the retry specification: the outcome, the delays slept and the number of attempts. |
| Retry.RetryAttempts | appsumo-crawler.js:22 | At most `maxRetries` attempts are made, and none exactly when `maxRetries` is 0 or less, which gives `undefined`. There is one delay fewer than attempts. |
| Retry.RetryDelaysDouble | appsumo-crawler.js:30 | The k-th delay is `baseDelay * 2^k`. |
| Retry.RetryOnlyOn429 | appsumo-crawler.js:26-35 | Every attempt before the last failed with a 429. The last attempt's answer is returned unchanged, whether a document or an error. |
| Retry.RetryNon429Once | appsumo-crawler.js:33-34 | An error other than 429 on the first attempt is rethrown at once, with no sleep. |
| Retry.RetryDefaultDelays | appsumo-crawler.js:21-30 | With the defaults, the only delays ever slept are 2000 ms and then 4000 ms. |
| Retry.RetryTwice429ThenSuccess | appsumo-crawler.js:21-38 | Two 429s and then a document give that document after sleeping 2000 ms and 4000 ms, in three attempts. |
| Discovery.CategoryMapValues | appsumo-crawler.js:215-263 | Every value of the category map is one of AppSumo's seven category pages. |
| Discovery.ExactEntry | appsumo-crawler.js:275 | Finds the first map entry whose key equals the category, and none when no key does. |
| Discovery.PartialEntry | appsumo-crawler.js:280-286 | Finds the first entry, in declaration order, where either string contains the other, and none when there is no such entry. |
| Discovery.CategorySlug | appsumo-crawler.js:267-294 | Any slug the first category resolves to is one of the seven category pages. |
| Discovery.GetCategoryUrl | appsumo-crawler.js:213-302 | The URL is a listing page: the software listing or a category listing, with `?sort=` appended only for a truthy sort. |
| Discovery.NoCategoriesListing | appsumo-crawler.js:268-301 | No categories give `https://appsumo.com/software/`, with the sort suffix when one is given. |
| Discovery.ExactMatchWins | appsumo-crawler.js:275-276 | An exact key match decides the slug. |
| Discovery.FirstPartialMatchWins | appsumo-crawler.js:280-286 | Without an exact match, the first entry in declaration order that contains the category, or is contained in it, decides the slug. |
| Discovery.UnknownCategoryListing | appsumo-crawler.js:289-292 | A category that matches no entry gives no slug, so the crawl falls back to the unfiltered listing. |
| Discovery.OnlyFirstCategoryCounts | appsumo-crawler.js:272 | Categories after the first have no effect on the URL. |
| Discovery.SynonymsShareListing | appsumo-crawler.js:215-263 | "marketers" and "marketing & sales" give the same listing. |
| Discovery.ExactBeatsEarlierPartial | appsumo-crawler.js:275-286 | "it" takes its own exact entry, although the earlier entry "productivity" contains it. |
| Discovery.BlankCategoryIsMarketing | appsumo-crawler.js:272-286 | A blank category is contained in every key, so it takes the first entry, the marketing listing. |
| Discovery.SortAppendedUnchecked | appsumo-crawler.js:297-301 | Any non-empty sort is appended as `?sort=` without validation. An empty or absent sort appends nothing. |
| Discovery.MatchEnd | appsumo-crawler.js:309-310 | A product-link match starting at a position ends after the prefix and at least two more characters. |
| Discovery.ScanLinks | appsumo-crawler.js:309-310 | Every match of the scan is a product link that occurs in the scanned text. |
| Discovery.CleanAll | appsumo-crawler.js:315 | Each match loses one trailing slash, and nothing else changes. |
| Discovery.Cap | appsumo-crawler.js:320-322 | The effective cap is the least whole number, at least 1, that reaches `maxProducts`. That is the ceiling of a fractional `maxProducts` and 1 for `maxProducts` of at most 1, because the cap is checked only after a push. |
| Discovery.CapRoundsUp | appsumo-crawler.js:320-322 | A `maxProducts` of 2.5 lets three URLs through, 50 lets 50, and 0 lets one. |
| Discovery.PushUrls | appsumo-crawler.js:312-323 | The push-and-break loop yields the de-duplicated matches cut at the cap. |
| Discovery.ExtractProductUrls | appsumo-crawler.js:307-326 | The method equals the URL-discovery specification. |
| Discovery.CleanedLink | appsumo-crawler.js:309-315 | A matched link, once its trailing slash is dropped, is a `/products/<slug>` URL. |
| Discovery.CappedDistinctInOrder | appsumo-crawler.js:316-322 | The capped list has no duplicates, and its entries keep their first-occurrence order. |
| Discovery.ProductUrlsDistinctInOrder | appsumo-crawler.js:316-318 | The discovered URLs have no duplicates and keep first-occurrence order. |
| Discovery.ProductUrlsAreLinks | appsumo-crawler.js:313-315 | Every discovered URL is a `/products/<slug>` URL that occurs in the markdown followed by its slash. |
| Discovery.ProductUrlsCount | appsumo-crawler.js:320-322 | At most the cap of URLs: at most `maxProducts` when that is a whole number of at least 1, and fewer than `maxProducts` + 1 when it is at least 1. None exactly when the markdown has no product link. Never more than the matches. |
| Discovery.DuplicateLinkOnce | appsumo-crawler.js:316 | A link that appears twice makes the result shorter than the list of matches. |
| Fields.ExtractProductName | appsumo-crawler.js:384-394 | A name is found exactly when the URL is truthy and has a `/products/` slug. It is non-empty, stops before `/`, `?` and `#`, and has no lower-case letter. |
| Fields.NameOfDiscoveredUrl | appsumo-crawler.js:384-394 | A discovered `/products/<slug>` URL is named by its upper-cased slug. |
| Fields.StripOneLink | appsumo-crawler.js:414 | Stripping markdown links keeps a link's text: `[Zapier](https://zapier.com)` becomes `Zapier`. |
| Fields.LineSummaries | appsumo-crawler.js:406-431 | Each markdown line is judged on its own, in order. |
| Fields.ExtractSummary | appsumo-crawler.js:399-434 | The summary is the first markdown line that passes the filters (its length counted in UTF-16 units), link-stripped, and every earlier line was rejected. Without such a line it is the metadata description, or else "". |
| Fields.SummaryWindowStrict | appsumo-crawler.js:417 | A line whose link-stripped text is exactly 50 or exactly 400 UTF-16 units long is never a summary. |
| Fields.SummaryFallsBackToDescription | appsumo-crawler.js:433 | With no acceptable line, the summary is the description or "". |
| Fields.SummaryLineWins | appsumo-crawler.js:406-431 | If any line is acceptable, the summary is an acceptable candidate, taken from the first such line or an earlier one. |
| Fields.ValidLinks | appsumo-crawler.js:572-575 | Exactly the links whose URL avoids the denylisted domains survive. |
| Fields.ValidLinksSingle | appsumo-crawler.js:572-575 | One link survives exactly when its URL avoids the denylist. |
| Fields.ValidLinksAppend | appsumo-crawler.js:572-575 | The filter keeps order: filtering two lists in turn equals filtering each and joining the survivors. |
| Fields.Domain | appsumo-crawler.js:588-590 | The domain is the maximal run of characters other than `/` right after the scheme, or after a following "www." when a host follows it; it reaches the end of the URL or a `/`. There is none exactly when the URL has no http(s) scheme or nothing but `/` or the end follows it. |
| Fields.FirstDomainLink | appsumo-crawler.js:580-597 | Finds the first surviving link whose domain contains the product slug. |
| Fields.FirstRootLink | appsumo-crawler.js:596-612 | Finds the first surviving link that is a root URL. |
| Fields.FirstDomainUrl | appsumo-crawler.js:621-634 | Finds the first standalone URL whose domain contains the product slug. |
| Fields.FirstRootUrl | appsumo-crawler.js:637-644 | Finds the first standalone URL that is a root URL. |
| Fields.HomepageFromLinks | appsumo-crawler.js:577-616 | A homepage exactly when a link survives the denylist, and then it is one of the surviving links without its trailing slash. |
| Fields.HomepageFromUrls | appsumo-crawler.js:618-643 | A homepage is a standalone URL, minus a trailing comma or point, that is a root URL or whose domain holds the product name. There is none exactly when no standalone URL is either. The first URL whose domain holds the name wins. |
| Fields.HomepageFromUrlsRootNext | appsumo-crawler.js:636-642 | Without a URL whose domain holds the name, the first root URL is taken, minus a trailing comma or point. |
| Fields.ExtractHomepage | appsumo-crawler.js:558-646 | When a link survives the denylist, the homepage comes from a surviving link, never an excluded one, with its trailing slash removed. Otherwise the standalone URLs decide. |
| Fields.HomepagePrefersSlugDomain | appsumo-crawler.js:580-597 | The first surviving link whose domain contains the slug wins over every other link. |
| Fields.HomepageRootThenFirst | appsumo-crawler.js:599-616 | Without a slug-domain link, the first root URL wins. Without one of those, the first surviving link wins. |
| Fields.StandaloneNeedsDomainOrRoot | appsumo-crawler.js:618-645 | With no surviving link, a standalone URL is used only when its domain contains the slug or it is a root URL. Otherwise there is no homepage. |
| Fields.FirstYear | appsumo-crawler.js:1001-1012 | Finds the first pattern whose year is accepted, and none when no year is. |
| Fields.ExtractFoundingDate | appsumo-crawler.js:989-1015 | The founding date is the first accepted year of the patterns, in pattern order. |
| Fields.FoundingYearRange | appsumo-crawler.js:1005-1010 | A four-digit year is accepted exactly when it lies in [1900, currentYear + 1]. |
| Fields.FutureYearSkipped | appsumo-crawler.js:1001-1012 | A year beyond next year is skipped in favour of a later pattern's year. |
| Fields.KeywordsCapitalised | appsumo-crawler.js:1025-1037 | All 45 keywords start with a capital letter. |
| Fields.ExtractCategories | appsumo-crawler.js:1020-1046 | The keyword loop gives the de-duplicated keywords found in the lower-cased content, and that list is always empty. |
| Fields.ParseDecimal | appsumo-crawler.js:1063 | A number is read exactly when the text starts with a digit, and it is never negative. |
| Fields.ParseDecimalWhole | appsumo-crawler.js:1063 | Digits followed by neither a digit nor a point read as their whole value. |
| Fields.ParseDecimalFraction | appsumo-crawler.js:1063 | Digits, a point and more digits read as the whole value plus the fraction, the digits after the point over 10 to their count. |
| Fields.RatingFourAndAHalf | appsumo-crawler.js:1060-1064 | "4.5" reads as 4.5. |
| Fields.ExtractRating | appsumo-crawler.js:1060-1064 | There is no rating without a rating match. With one, the rating is the `parseFloat` reading of the captured text, and it is never negative. |
| Fields.ExtractReviews | appsumo-crawler.js:1069-1073 | There is no count without a review match. A count is the integer value of the matched digits. |
| Pricing.Dollars | appsumo-crawler.js:542-547 | A price is present exactly when its matched digits are, and is those digits after `$`. |
| Pricing.TierOfName | appsumo-crawler.js:482-483 | A tier's id is the first run of digits in its name, or the whole name when there are none. |
| Pricing.Strategy1 | appsumo-crawler.js:472-492 | Strategy 1 yields no more tiers than there are tier names. |
| Pricing.TierNumberFrom | appsumo-crawler.js:518 | A tier number found in a section name is a non-empty run of digits. None means no tier word is followed by a number. |
| Pricing.TierNumberFromAt | appsumo-crawler.js:518 | The number found is group 1 of the leftmost match: when the pattern first matches at position q, the result is the number of that match. |
| Pricing.SectionNumber | appsumo-crawler.js:518-519 | A section's tier id is always a non-empty run of digits. |
| Pricing.SectionTier | appsumo-crawler.js:499-527 | A payment section gives a tier exactly when it has a price and a non-blank name. The tier keeps the trimmed name, its number, `$` plus the price, and the regular price. |
| Pricing.Strategy2 | appsumo-crawler.js:495-529 | Strategy 2 yields no more tiers than there are payment sections. |
| Pricing.SortTiers | appsumo-crawler.js:532 | Sorting keeps the number of tiers. |
| Pricing.CollectTierNames | appsumo-crawler.js:461-469 | The Set-filling loop gives the tier names de-duplicated in first-occurrence order. |
| Pricing.PriceNamedTiers | appsumo-crawler.js:475-491 | The Strategy 1 loop computes Strategy 1. |
| Pricing.PriceSections | appsumo-crawler.js:498-528 | The Strategy 2 loop computes Strategy 2. |
| Pricing.ExtractPricingTiers | appsumo-crawler.js:440-552 | The method computes the pricing specification: the tiers from the cascade, sorted, and the lifetime and regular prices derived from them. |
| Pricing.SortTiersCorrect | appsumo-crawler.js:532 | Sorting is a permutation. When every tier id is numeric, the result is ascending by tier number. |
| Pricing.Strategy2OnlyAsFallback | appsumo-crawler.js:472-495 | Strategy 2 is consulted only when Strategy 1 found no tier and the HTML is non-empty. |
| Pricing.LifetimeFromFirstTier | appsumo-crawler.js:535-549 | With tiers, the lifetime and regular prices are the first tier's. Without tiers, they come from the standalone patterns. |
| Pricing.LifetimeIsLowestTier | appsumo-crawler.js:532-537 | When every tier id is numeric, the lifetime price is that of a tier with the lowest number. |
| Pricing.LowestFirst | appsumo-crawler.js:532 | After sorting numeric tiers, the first tier has the lowest tier number. |
| Pricing.Strategy1Tiers | appsumo-crawler.js:475-491 | Every Strategy 1 tier is a listed name that the HTML prices. Its price is `$` plus that name's price match, its id is the name's first run of digits or else the name, and it has no regular price. |
| Pricing.Strategy2Numbering | appsumo-crawler.js:519 | The k-th Strategy 2 tier is numbered by the tier word's number in its name, or else by k + 1. |
| Pricing.Strategy1Append | appsumo-crawler.js:475-491 | One more name adds its tier at the end when the HTML prices it, and nothing otherwise. |
| Pricing.Strategy1Complete | appsumo-crawler.js:475-491 | Every name the HTML prices has its tier among the Strategy 1 tiers, and there are none exactly when no name is priced. |
| Pricing.Strategy2Append | appsumo-crawler.js:497-529 | One more section adds its tier at the end, numbered after the earlier tiers, when it has both a name and a price. |
| Pricing.Strategy2Empty | appsumo-crawler.js:497-529 | Strategy 2 finds no tier exactly when no section has both a name and a price. |
| Pricing.TierNumberExample | appsumo-crawler.js:518 | "Tier 2" gives tier number 2. |
| Pricing.LicenseTierExample | appsumo-crawler.js:518 | "License Tier 3" has no match at its start: "License" is a tier word there but is not followed by digits. |
| Pricing.LicenseTierNumber | appsumo-crawler.js:518 | "License Tier 3" is numbered 3: the pattern matches nowhere before "Tier 3". |
| Founder.AnchorName | appsumo-crawler.js:685-711 | A profile anchor gives its trimmed text as a name exactly when the text has no reject word, is a capitalised full name and is at most 30 UTF-16 units long. |
| Founder.FirstAnchor | appsumo-crawler.js:685-711 | Finds the first anchor that gives a name, and none when no anchor does. |
| Founder.HtmlStrategies | appsumo-crawler.js:658-744 | A result of the HTML strategies always carries a name. |
| Founder.ProfileLinkStrategy | appsumo-crawler.js:745-770 | The profile-link strategy keeps the profile URL. The name is the handle with `_` made a space, free of reject words, and made of letters. |
| Founder.LinkedInAnchorStrategy | appsumo-crawler.js:772-783 | The LinkedIn-anchor strategy gives a name and no AppSumo profile. |
| Founder.PhraseName | appsumo-crawler.js:795-813 | An explicit-phrase name has no reject word and at least two words. |
| Founder.NearName | appsumo-crawler.js:831-843 | A name near "Founder" is a trimmed match of at least two words. |
| Founder.FirstName | appsumo-crawler.js:795-843 | The first found name wins, together with the content's first LinkedIn and AppSumo profile URLs. Nothing wins only when no name was found. |
| Founder.HandleName | appsumo-crawler.js:868-885 | A name made from a profile handle is two capitalised words of at least three letters each. |
| Founder.HandleCamelName | appsumo-crawler.js:868-885 | A camel-case handle made of two words of three or more lower-case letters, the second one capitalised, is read as those two words, joined by a space, with the first capitalised. |
| Founder.HandleNameExample | appsumo-crawler.js:868-885 | "johnSmith" is read as "John Smith". |
| Founder.SocialStrategy | appsumo-crawler.js:846-884 | The social strategy names someone only when a profile URL exists, and it keeps both profile URLs. |
| Founder.UsernameName | appsumo-crawler.js:937-949 | A username gives a name only when it has at least two non-empty hyphen-separated parts. |
| Founder.LinkedInStrategy | appsumo-crawler.js:887-951 | The last resort needs a personal LinkedIn URL, one not containing "company". It keeps both profile URLs. |
| Founder.ContentStrategies | appsumo-crawler.js:745-951 | A result of the content strategies always carries a name. |
| Founder.AnyInIff | appsumo-crawler.js:694 | `words.some(w => s.includes(w))` holds exactly when some word occurs in the string. |
| Founder.JsonShapeWins | appsumo-crawler.js:660-678 | The JSON shape in the HTML, with a joined name of four or more UTF-16 units and two words, decides the result, whatever later strategies would find. |
| Founder.FullNameCountsUnits | appsumo-crawler.js:668 | The length test of a full name counts UTF-16 units: a name of three code points, one above U+FFFF, is long enough. |
| Founder.ExtractFounderInfo | appsumo-crawler.js:652-959 | A name is found exactly when an HTML strategy (with HTML) or a content strategy succeeds, and the HTML strategies take precedence; when they give nothing, the first content strategy that succeeds gives the result. Without a name, the result still holds the content's first LinkedIn and AppSumo profile URLs. |
| Founder.NoHtmlNoHtmlStrategies | appsumo-crawler.js:658 | Without HTML, only the content strategies decide. |
| Founder.RejectWordInsideName | appsumo-crawler.js:691-697 | Reject words are substring tests: "Chris Evans" holds "is" and is refused. |
| Founder.LinkedInAnchorHasNoProfile | appsumo-crawler.js:772-783 | When the LinkedIn anchor decides, the result is its trimmed text and URL with no AppSumo profile. |
| Founder.UsernameExample | appsumo-crawler.js:937-949 | "maxime-neau" is read as "Maxime Neau". |
| Founder.CompanyPageNotUsed | appsumo-crawler.js:887 | A LinkedIn company page never yields a name. |
| Products.ProductName | appsumo-crawler.js:354 | The name is the URL's product name, else the truthy title, else "Unknown Product". It is never empty. |
| Products.ProductPages | appsumo-crawler.js:347 | The kept pages are pages of the input whose source URL contains "/products/". |
| Products.BuildProduct | appsumo-crawler.js:348-367 | The method builds the record the specification gives for the page. |
| Products.ProcessPages | appsumo-crawler.js:341-374 | The loop gives one record per product page, in input order. |
| Products.ProcessProducts | appsumo-crawler.js:331-378 | A non-array input gives []. An array gives the records of its product pages. |
| Products.OneRecordPerProductPage | appsumo-crawler.js:341-374 | There are exactly as many records as product pages, and record k is built from product page k. |
| Products.ProductsOfAppend | appsumo-crawler.js:341-374 | Processing two lists of pages one after the other gives the same records as processing both together. |
| Products.ProductPagesAppend | appsumo-crawler.js:345-347 | Page filtering distributes over concatenation. |
| Products.AllOrNothing | appsumo-crawler.js:347 | Pages without "/products/" are all skipped. Product pages are all kept. |
| Products.DiscoveredUrlName | appsumo-crawler.js:384-394 | A page scraped from a discovered URL is kept, and is named by its upper-cased slug. |
| Crawl.PageFrom | appsumo-crawler.js:106-118 | A loaded page's source URL is the URL scraped. It keeps the title, description, markdown and HTML. |
| Crawl.FetchPage | appsumo-crawler.js:94-143 | One URL's scrape with retries gives that URL's outcome and logs its backoff sleeps. |
| Crawl.ScrapeMiniBatch | appsumo-crawler.js:90-153 | Scraping a range of URLs extends the pages and the rate-limited list by exactly that range's share, and logs their backoffs. |
| Crawl.RunMiniBatch | appsumo-crawler.js:82-162 | One mini-batch turn extends the results to the end of the mini-batch and logs its backoffs, its progress report and its cooldown. |
| Crawl.ScrapeBatch | appsumo-crawler.js:82-162 | The mini-batch loop computes the batch specification: the pages loaded, the URLs set aside and the log. |
| Crawl.SplitSuperBatches | appsumo-crawler.js:1166-1170 | The URLs are cut into consecutive super-batches of twenty. |
| Crawl.ProgressOf | appsumo-crawler.js:1196-1205 | A progress report is made exactly when `onProgress` is registered, and it carries the super-batch's number and the total. |
| Crawl.RunSuperBatch | appsumo-crawler.js:1178-1301 | One super-batch turn advances the running totals by exactly one super-batch. |
| Crawl.ProcessSuperBatches | appsumo-crawler.js:1178-1301 | The super-batch loop computes the totals of all super-batches. |
| Crawl.CrawlAppSumo | appsumo-crawler.js:46-189 | The one-shot crawl equals its specification: listing failure, no products, or the products and rate-limited URLs with the log. |
| Crawl.CrawlAppSumoProgressive | appsumo-crawler.js:1131-1325 | The progressive crawl equals its specification, including the error report. |
| Crawl.CrawlProductUrls | appsumo-crawler.js:1159-1316 | The progressive crawl over known URLs equals its specification, including the final report. |
| Crawl.UrlOutcome | appsumo-crawler.js:94-143 | Each URL takes one to three attempts, each retry following a 429. The last attempt decides: its document loads, a 429, timeout or 5xx sets the URL aside, and any other error drops it. |
| Crawl.PersistentRateLimit | appsumo-crawler.js:94-136 | Three 429s set the URL aside after sleeping 2000 ms and 4000 ms. |
| Crawl.SetAsideWithoutRetry | appsumo-crawler.js:120-136 | A timeout or server error is not retried: the URL is set aside at once. |
| Crawl.BatchPartition | appsumo-crawler.js:119-141 | Every URL of a batch ends up in exactly one of: loaded, set aside, dropped. |
| Crawl.SetAsideIndices | appsumo-crawler.js:132-136 | Each set-aside entry names a set-aside URL of the batch, by its 1-based position and its last path segment. |
| Crawl.SetAsideOrdered | appsumo-crawler.js:132-136 | Set-aside entries come in increasing position order. |
| Crawl.SetAsideUrls | appsumo-crawler.js:127-136 | The set-aside URLs are exactly the batch's URLs whose scrape ended set aside, in order. |
| Crawl.LoadedFromUrls | appsumo-crawler.js:106-153 | Every loaded page carries one of the batch's URLs as its source URL. |
| Crawl.BatchLogCounts | appsumo-crawler.js:82-162 | A batch of n URLs logs only backoffs, progress reports and pauses. It makes ceil(n/2) progress reports when `onProgress` is registered, and ceil(n/2) - 1 five-second pauses. |
| Crawl.SuperBatchShape | appsumo-crawler.js:1166-1170 | The super-batches concatenate back to the URL list. There are ceil(n/20) of them, each of 1 to 20 URLs, all but the last full. |
| Crawl.SuperTotals | appsumo-crawler.js:1178-1301 | After m super-batches, the products are those of every page loaded so far, and the rate-limited URLs are those set aside so far, in order. |
| Crawl.ProgressiveReport | appsumo-crawler.js:1159-1311 | A progressive crawl over n URLs succeeds. It has ceil(n/20) - 1 cooldowns, ceil(n/20) batch reports when `onBatchComplete` is registered, and exactly one final report, the last event, carrying all results. |
| Crawl.ProgressiveOverAll | appsumo-crawler.js:1178-1311 | The super-batches together yield the products of all pages loaded and all URLs set aside. No per-URL error aborts the run. |
| Crawl.ProgressiveMatchesOneShot | appsumo-crawler.js:1131-1325 | Outside "fast" mode, the progressive crawl finds what the one-shot crawl finds: the same failure, or the same products and rate-limited URLs. |
| Crawl.SuperIndicesLocal | appsumo-crawler.js:1208-1251 | In a progressive crawl, a rate-limited position counts from the start of its super-batch, so it lies in [1, 20]. |
| Crawl.ProgressiveIndicesLocal | appsumo-crawler.js:1208-1251 | Every rate-limited index of a progressive crawl lies in [1, 20]. |
| Evaluation.VotePoints | evaluation-engine.js:9-12 | Votes earn 10, 20, 30 or 40. 40 exactly when there are at least 500. 10 exactly when the votes are missing or under 100. |
| Evaluation.VotePointsMonotone | evaluation-engine.js:9-12 | More votes never earn fewer points. |
| Evaluation.KeywordPoints | evaluation-engine.js:15-20 | Keyword bonuses add up to between 0 and 35. |
| Evaluation.RecencyPoints | evaluation-engine.js:23-31 | Recency earns 15 exactly under 7 days. It earns 5 exactly at 30 days or more, or for a date that does not parse. Otherwise it earns 10. |
| Evaluation.RecencyPointsMonotone | evaluation-engine.js:23-31 | A later launch never earns fewer points. |
| Evaluation.SentimentPoints | evaluation-engine.js:34-37 | Tagline wording earns between 0 and 10. |
| Evaluation.Score | evaluation-engine.js:6-39 | Every score lies in [15, 100]. |
| Evaluation.CapNeverApplies | evaluation-engine.js:39 | The raw sum is already within [15, 100], so the cap never changes a score. |
| Evaluation.EvaluateProducts | evaluation-engine.js:5-42 | The output has one element per input, in order. Each keeps the input's fields and adds its score. |
| Evaluation.EvaluateAppend | evaluation-engine.js:5 | Each record is scored on its own: scoring a concatenation scores its parts. |
| Evaluation.ScoresInRange | evaluation-engine.js:9-39 | Every output score lies in [15, 100]. |
| Evaluation.ScoreMonotoneInVotes | evaluation-engine.js:9-39 | Raising the votes, all else equal, never lowers the score. |
| Evaluation.MissingVotesScoreTen | evaluation-engine.js:9-12 | Missing votes score like a count under 100. |
| Evaluation.AiInsideEmail | evaluation-engine.js:16-18 | "ai" is a substring test, so an "Email" tagline earns the AI bonus. |
| Evaluation.TaglineCaseIgnored | evaluation-engine.js:16-37 | An upper-case keyword in the tagline still counts. |
| Validation.Field | server.backup.js:19 | A destructuring default applies only to a key the body lacks. |
| Validation.Guards | server.backup.js:24-35 | The checks run in the order categories, maxPages, sortBy, and the first failure decides the 400. A request is accepted exactly when all three pass. |
| Validation.ValidateAsWritten | server.backup.js:17-35 | As written, with the catch at lines 78-83: a 500 exactly when the log line of line 21 throws. That happens when `categories` is not an array, or when a category, `maxPages` or a truthy `sortBy` cannot be converted to a string. Otherwise the guards decide. |
| Validation.Validate | server.backup.js:21-35 | Corrected, with the guards ahead of the log line: a non-array `categories` is refused with its 400, and a 500 arises exactly when the guards accept and a category cannot be converted to a string. |
| Validation.CategoriesCheckUnreachable | server.backup.js:21-26 | As written, the categories 400 is never answered. `{"categories": "crm"}` gets a 500, where the corrected handler gives the 400. |
| Validation.AsWrittenAgreement | server.backup.js:21-35 | The two handlers differ only by a 500 as written where the corrected one answers 400. They agree whenever the log line converts the body, and whenever the guards accept. |
| Validation.ToStringKeyThrows | server.backup.js:21-35 | An object with its own `toString` key as `maxPages` or `sortBy` draws a 500 as written and the 400 once corrected. As a category, it draws a 500 from both. |
| Validation.EmptyBodyDefaults | server.backup.js:19 | An empty body means all categories, 30 pages and no sort. |
| Validation.AcceptedWithinBounds | server.backup.js:28-35 | An accepted request has 1 to 100 pages, and a sort order that is absent or one of the eight listed. |
| Validation.NullSortByPasses | server.backup.js:19-33 | An explicit null `sortBy` passes. The request is accepted unless a category cannot be converted to a string. |
| Validation.StringMaxPagesRefused | server.backup.js:28 | `"maxPages": "30"` is not a number and is refused. |
| Validation.UnknownSortRefused | server.backup.js:32-34 | A sort order outside the list is refused. |
| Text.Lower | appsumo-crawler.js:272 | `toLowerCase` keeps the length, lower-cases each ASCII letter and leaves every other character alone. |
| Text.Upper | appsumo-crawler.js:390 | `toUpperCase` keeps the length, upper-cases each ASCII letter and leaves every other character alone. |
| Text.ContainsIff | appsumo-crawler.js:281 | `includes` holds exactly when the substring occurs at some position. |
| Text.NoUpperInLower | appsumo-crawler.js:1025-1043 | A string that starts with a capital never occurs in a lower-cased string. |
| Text.Trim | appsumo-crawler.js:407 | `trim` gives the slice of the string left after removing only white space at its start and end, with no white space at either end of the result; a trimmed string is left alone. White space is the full ECMAScript set. |
| Text.Utf16Length | appsumo-crawler.js:417 | The `.length` of a string in UTF-16 units: between its number of code points and twice that, and equal to it when no code point lies above U+FFFF. |
| Text.Utf16LengthExample | appsumo-crawler.js:417 | One code point above U+FFFF has length 2, unlike its one code point. |
| Text.DropTrailing | appsumo-crawler.js:315 | Removing a trailing slash removes exactly one final slash, if there is one. |
| Text.Split | appsumo-crawler.js:404 | `split` gives at least one piece, and no piece holds the separator. |
| Text.JoinSplit | appsumo-crawler.js:404 | Joining the pieces of a split gives back the string. |
| Text.SplitJoin | appsumo-crawler.js:404 | Splitting a join of separator-free pieces gives back the pieces. |
| Text.LastPiece | appsumo-crawler.js:134 | `split('/').pop()` is the separator-free tail of the URL, preceded by a separator when it is not the whole URL. |
| Text.SplitOnSpacesCount | appsumo-crawler.js:803 | Splitting on white space gives two or more pieces exactly when the string holds white space. |
| Text.Dedup | appsumo-crawler.js:316 | De-duplication keeps exactly the same elements and is never longer. |
| Text.DedupNoDuplicates | appsumo-crawler.js:316 | The de-duplicated list has no duplicates. |
| Text.DedupFirstOccurrenceOrder | appsumo-crawler.js:316 | De-duplicated elements keep the order of their first occurrences. |
| Text.NatToString | appsumo-crawler.js:519 | `String(n)` is a non-empty string of digits without a leading zero. |
| Text.DigitsOfNatToString | appsumo-crawler.js:519 | Reading back the digits of `String(n)` gives n. |
| Text.ParseInt | appsumo-crawler.js:532 | `parseInt` of a non-empty string of digits is its value. |
| Text.FirstDigitRun | appsumo-crawler.js:482 | `match(/(\d+)/)` finds a non-empty run of digits, and finds none exactly when the string has no digit. |
| Text.FirstDigitRunAt | appsumo-crawler.js:482 | The run `match(/(\d+)/)` finds starts at the first digit of the string and is the longest run of digits there. |

## Left out

- Network I/O: the Firecrawl listing scrape, product scrapes and LinkedIn scrape (appsumo-crawler.js:60, 97, 893-933, 1150, 1213) are oracles in `Crawl.Env`. The LinkedIn step is reduced to the name it validated, if any.
- Founder.ExtractFounderInfo: the LinkedIn re-scrape (lines 893-933) is the `scraped` parameter. Its title and markdown parsing are not modelled.
- Crawl.ScrapeMiniBatch: `Promise.all` is modelled sequentially in URL order. In the source, the order of rate-limited entries within a mini-batch follows completion order, which is nondeterministic. The model fixes it to URL order. Pages keep URL order in both.
- Real time: `sleep` and `setTimeout` are logged delays. `new Date()` is the `currentYear` parameter, and `Date.now()` is the `now` parameter in milliseconds.
- Full regular-expression semantics: complex patterns are pre-matched inputs of `Pages.Page`, as described above.
- Fields.ParseDecimal: `parseFloat` is modelled as an exact rational reading of the leading digits and one decimal point. Floating-point rounding is not modelled.
- Text.Lower: case mapping covers ASCII letters only. Unicode case mapping is not modelled.
- Text.Upper: case mapping covers ASCII letters only, as for `Text.Lower`. Letters outside ASCII, such as "é", are left unchanged, where `toUpperCase` would map them.
- Console logging, `displayResults`, `exportToJSON`, `writeFile`, `main`, and the wrappers `extractFounder*` and `extractPrice` (964-983, 1051-1055) are output plumbing.
- producthunt-crawler.js, server.js, and server.backup.js outside the guards at lines 17-35 and 78-83 are GraphQL and Express plumbing and are not part of this model. That includes the server passing the callbacks object into the `crawlMode` slot.
- The unused `targetCategories` parameter of `crawlAppSumo` is left out.
- Crawl.FetchPage: with `maxRetries` of 0 or less, `retryWithBackoff` returns `undefined` (modelled as `NoAttempt`), and reading its markdown would throw an unclassified error. The model drops such a URL. The crawl always passes 3, so this case never arises there.
- Pricing.SortTiersCorrect: makes no claim about order when a tier id is not numeric, because `parseInt` then gives NaN and the comparator's result is engine-defined. It still proves a permutation.
- Discovery.ExactEntry: the `categoryMap` lookup is over the declared keys only. Inherited object keys such as "constructor" are not modelled.
- Validation.ValidateAsWritten: JSON numbers are exact reals, not doubles.
- Evaluation.RecencyPoints: date parsing is reduced to an optional instant in milliseconds. The day division is replaced by a comparison of milliseconds, which is equivalent.
- Validation.ValidateAsWritten: the text of the 500 message is engine-defined and is not modelled. Only the status is.
- Crawl.CrawlAppSumo: only a failed listing scrape is modelled as a rethrown error. `processProducts` cannot throw on the modelled inputs, so the catch-and-rethrow around it is not modelled separately.
- Callback registration is four booleans in `Crawl.Callbacks`. What the callbacks themselves do is outside the crawler.

## Findings

| source | as written | input that shows it | evidently intended | confidence | as-written member | corrected member |
|---|---|---|---|---|---|---|
| server.backup.js:21 | The log line calls `categories.join` before the array check at line 24. A non-array `categories` throws a TypeError there, and the catch at line 78 answers 500. The same holds for a `maxPages` such as `{"toString": 1}`, which cannot be converted to a string. | `{"categories": "crm"}` | Answer 400 "Categories must be an array", as the check at lines 24-26 says | not executed | Validation.ValidateAsWritten (exhibited by Validation.CategoriesCheckUnreachable) | Validation.Validate |
