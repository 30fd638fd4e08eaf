/**
 * The two crawl loops of appsumo-crawler.js: `crawlAppSumo` (lines 46-189) and
 * `crawlAppSumoProgressive` (lines 1131-1325).
 *
 * Both scrape the listing page, take its product URLs, scrape the product pages in
 * mini-batches of two with `retryWithBackoff`, sort a failed URL into "rate limited"
 * (429, timeouts, 502/503/504) or dropped, and run `processProducts` over the pages
 * that loaded. The progressive crawl does this per super-batch of twenty URLs and
 * reports to the caller's callbacks.
 *
 * The Firecrawl client is two oracles (the listing scrape and the product scrape,
 * the latter told the attempt number); sleeping is an event in the log, and so is
 * every callback invocation. The two URLs of a mini-batch are scraped one after the
 * other in URL order.
 */
module Crawl {
  import opened Wrappers
  import opened Text
  import opened Pages
  import opened Retry
  import Discovery
  import Products

  const MiniBatchSize: nat := 2
  const MiniBatchDelay: int := 5000
  const SuperBatchSize: nat := 20
  const SuperBatchDelay: int := 45000
  const MaxRetries: int := 3
  const BaseDelay: int := 2000

  /** One call of `firecrawl.scrapeUrl` for a product page. */
  datatype ScrapeRequest = ScrapeRequest(url: string, onlyMainContent: bool, attempt: nat)

  /** The world the crawler talks to: the listing scrape (its markdown, if any), the
      product scrape, the founder's LinkedIn scrape and the current year. */
  datatype Env = Env(
    listing: string -> Fetched<Option<string>>,
    scrape: ScrapeRequest -> Fetched<Page>,
    scrapeLinkedIn: string -> Option<string>,
    currentYear: int
  )

  /** An entry of `rateLimitedUrls`: the URL, its last path segment and its 1-based
      position in the list being scraped. */
  datatype RateLimited = RateLimited(url: string, name: string, index: nat)

  /** Which callbacks the caller registered. */
  datatype Callbacks = Callbacks(onProgress: bool, onBatchComplete: bool, onComplete: bool, onError: bool)

  /** The super-batch numbers a progress report carries. */
  datatype ProgressTag = ProgressTag(superBatchNumber: nat, totalSuperBatches: nat)

  /** What the crawl does that the caller can observe besides its result. */
  datatype Event =
    | Backoff(url: string, ms: int)
    | Sleep(ms: int)
    | Progress(superBatchNumber: nat, totalSuperBatches: nat, miniBatchNumber: nat,
               totalMiniBatches: nat, productsScraped: nat, totalInSuperBatch: nat)
    | BatchComplete(batchNumber: nat, totalBatches: nat, products: seq<Products.Product>,
                    rateLimited: seq<RateLimited>, totalProducts: nat, totalRateLimited: nat)
    | Complete(products: seq<Products.Product>, rateLimited: seq<RateLimited>)
    | Error(error: FetchError)

  /** How the scrape of one URL ends. */
  datatype UrlResult = Loaded(page: Page) | SetAside | Dropped

  /** What a crawl returns: the empty array of `crawlAppSumo` when the listing has no
      product URL, the products and rate-limited URLs, or the error it rethrows. */
  datatype CrawlResult =
    | NoProducts
    | Crawled(products: seq<Products.Product>, rateLimited: seq<RateLimited>)
    | Failed(error: FetchError)

  datatype CrawlRun = CrawlRun(result: CrawlResult, log: seq<Event>)

  // ---------------------------------------------------------------- one URL

  /** The attempts `retryWithBackoff` makes for one URL. */
  function Attempts(scrape: ScrapeRequest -> Fetched<Page>, url: string, onlyMain: bool): nat -> Fetched<Page> {
    (k: nat) => scrape(ScrapeRequest(url, onlyMain, k))
  }

  function ScrapeRun(scrape: ScrapeRequest -> Fetched<Page>, url: string, onlyMain: bool): RetryRun<Page> {
    RetrySpec(Attempts(scrape, url, onlyMain), MaxRetries, BaseDelay)
  }

  /** The page kept for a scraped document: its markdown, HTML and pattern results, with
      the metadata rebuilt from the requested URL and the document's title and
      description (lines 109-117). */
  function PageFrom(url: string, doc: Page): (p: Page)
    ensures SourceUrl(p) == Some(url)
    ensures Title(p) == Title(doc) && Description(p) == Description(doc)
    ensures p.markdown == doc.markdown && p.html == doc.html
  {
    doc.(metadata := Some(Metadata(Some(url), Title(doc), Description(doc))))
  }

  /** How the scrape of `url` ends (lines 94-143): the page, set aside on a rate-limit,
      timeout or server error, or dropped on any other error. When `retryWithBackoff`
      makes no attempt it returns `undefined`, reading `.markdown` of which throws an
      error of none of those kinds. */
  function ResultOf(scrape: ScrapeRequest -> Fetched<Page>, url: string, onlyMain: bool): UrlResult {
    match ScrapeRun(scrape, url, onlyMain).outcome
    case Succeeded(doc) => Loaded(PageFrom(url, doc))
    case Threw(e) => if IsSetAside(e) then SetAside else Dropped
    case NoAttempt => Dropped
  }

  function BackoffEvents(url: string, delays: seq<int>): seq<Event> {
    seq(|delays|, k requires 0 <= k < |delays| => Backoff(url, delays[k]))
  }

  /** What scraping one URL comes to: how it ends and the retry sleeps on the way. */
  datatype UrlRun = UrlRun(result: UrlResult, delays: seq<int>)

  function RunOf(scrape: ScrapeRequest -> Fetched<Page>, url: string, onlyMain: bool): UrlRun {
    UrlRun(ResultOf(scrape, url, onlyMain), ScrapeRun(scrape, url, onlyMain).delays)
  }

  /** Every URL's run, under one scrape oracle and content mode. */
  function Runs(scrape: ScrapeRequest -> Fetched<Page>, onlyMain: bool): string -> UrlRun {
    url => RunOf(scrape, url, onlyMain)
  }

  /** `runs` tells how every URL is scraped. The batch methods below reason about `runs`
      alone and learn what it says of a URL only when they scrape it. */
  ghost predicate Agrees(runs: string -> UrlRun, scrape: ScrapeRequest -> Fetched<Page>, onlyMain: bool) {
    forall u {:trigger RunOf(scrape, u, onlyMain)} :: runs(u) == RunOf(scrape, u, onlyMain)
  }

  lemma RunsAgree(scrape: ScrapeRequest -> Fetched<Page>, onlyMain: bool)
    ensures Agrees(Runs(scrape, onlyMain), scrape, onlyMain)
  {
  }

  /** Scrapes one URL with retries. */
  method FetchPage(scrape: ScrapeRequest -> Fetched<Page>, url: string, onlyMain: bool, ghost runs: string -> UrlRun)
    returns (result: UrlResult, events: seq<Event>)
    requires Agrees(runs, scrape, onlyMain)
    ensures result == runs(url).result
    ensures events == BackoffEvents(url, runs(url).delays)
  {
    assert runs(url) == RunOf(scrape, url, onlyMain);
    var outcome, delays, attempts := RetryWithBackoff(Attempts(scrape, url, onlyMain), MaxRetries, BaseDelay);
    events := BackoffEvents(url, delays);
    match outcome {
      case Succeeded(doc) =>
        result := Loaded(PageFrom(url, doc));
      case Threw(e) =>
        if Is429(e) || IsTimeout(e) || IsServerError(e) {
          result := SetAside;
        } else {
          result := Dropped;
        }
      case NoAttempt =>
        result := Dropped;
    }
  }

  // ---------------------------------------------------------------- one list of URLs

  /** The pages that loaded, in URL order. */
  function LoadedPages(runs: string -> UrlRun, urls: seq<string>): seq<Page> {
    if urls == [] then []
    else
      var init := LoadedPages(runs, urls[..|urls| - 1]);
      match runs(urls[|urls| - 1]).result
      case Loaded(p) => init + [p]
      case _ => init
  }

  /** The URLs set aside, each with its 1-based position in `urls`. */
  function SetAsideOf(runs: string -> UrlRun, urls: seq<string>): seq<RateLimited> {
    if urls == [] then []
    else
      var init := SetAsideOf(runs, urls[..|urls| - 1]);
      var last := urls[|urls| - 1];
      if runs(last).result.SetAside? then init + [RateLimited(last, LastPiece(last, '/'), |urls|)]
      else init
  }

  /** The URLs dropped. */
  function DroppedOf(runs: string -> UrlRun, urls: seq<string>): seq<string> {
    if urls == [] then []
    else
      var init := DroppedOf(runs, urls[..|urls| - 1]);
      var last := urls[|urls| - 1];
      if runs(last).result.Dropped? then init + [last] else init
  }

  /** The retry sleeps of the URLs, in URL order. */
  function BackoffsIn(runs: string -> UrlRun, urls: seq<string>): seq<Event> {
    if urls == [] then []
    else
      var last := urls[|urls| - 1];
      BackoffsIn(runs, urls[..|urls| - 1]) + BackoffEvents(last, runs(last).delays)
  }

  /** `Math.ceil(n / 2)`: the number of mini-batches. */
  function NumMini(n: nat): nat {
    (n + 1) / 2
  }

  /** The end of mini-batch `j`: `urls.slice(2j, 2j + 2)`. */
  function MiniEnd(n: nat, j: nat): nat {
    if 2 * j + 2 < n then 2 * j + 2 else n
  }

  /** Where mini-batch `j` starts, or the end once every URL is done. */
  function MiniStart(n: nat, j: nat): nat {
    if 2 * j <= n then 2 * j else n
  }

  /** What mini-batch `j` logs: its progress report, the retry sleeps of its URLs and,
      unless it is the last, the 5-second pause. */
  function MiniLog(runs: string -> UrlRun, urls: seq<string>, progress: Option<ProgressTag>, j: nat): seq<Event>
    requires 2 * j < |urls|
  {
    var report := match progress
      case Some(t) => [Progress(t.superBatchNumber, t.totalSuperBatches, j + 1, NumMini(|urls|),
                                |LoadedPages(runs, urls[..2 * j])|, |urls|)]
      case None => [];
    var pause := if 2 * j + 2 < |urls| then [Sleep(MiniBatchDelay)] else [];
    report + BackoffsIn(runs, urls[2 * j..MiniEnd(|urls|, j)]) + pause
  }

  /** What the first `j` mini-batches log. */
  function BatchLog(runs: string -> UrlRun, urls: seq<string>, progress: Option<ProgressTag>, j: nat): seq<Event>
    requires j <= NumMini(|urls|)
  {
    if j == 0 then []
    else BatchLog(runs, urls, progress, j - 1) + MiniLog(runs, urls, progress, j - 1)
  }

  /** Scraping one more URL extends the three lists by what that URL yields. */
  lemma ScrapeStep(runs: string -> UrlRun, urls: seq<string>, i: nat, g: nat)
    requires i <= g < |urls|
    ensures var r := runs(urls[g]).result;
      && LoadedPages(runs, urls[..g + 1]) == LoadedPages(runs, urls[..g]) + (if r.Loaded? then [r.page] else [])
      && SetAsideOf(runs, urls[..g + 1])
           == SetAsideOf(runs, urls[..g]) + (if r.SetAside? then [RateLimited(urls[g], LastPiece(urls[g], '/'), g + 1)] else [])
      && BackoffsIn(runs, urls[i..g + 1]) == BackoffsIn(runs, urls[i..g]) + BackoffEvents(urls[g], runs(urls[g]).delays)
  {
    assert urls[..g + 1][..g] == urls[..g];
    assert urls[i..g + 1][..g - i] == urls[i..g];
  }

  /** Scrapes the URLs of one mini-batch, `urls[i..end]`, adding to what the earlier
      mini-batches collected (lines 90-152). */
  method ScrapeMiniBatch(scrape: ScrapeRequest -> Fetched<Page>, urls: seq<string>, onlyMain: bool,
                         ghost runs: string -> UrlRun, i: nat, end: nat,
                         pages0: seq<Page>, rateLimited0: seq<RateLimited>)
    returns (pages: seq<Page>, rateLimited: seq<RateLimited>, events: seq<Event>)
    requires Agrees(runs, scrape, onlyMain)
    requires i <= end <= |urls|
    requires pages0 == LoadedPages(runs, urls[..i])
    requires rateLimited0 == SetAsideOf(runs, urls[..i])
    ensures pages == LoadedPages(runs, urls[..end])
    ensures rateLimited == SetAsideOf(runs, urls[..end])
    ensures events == BackoffsIn(runs, urls[i..end])
  {
    pages, rateLimited, events := pages0, rateLimited0, [];
    var g := i;
    while g < end
      invariant i <= g <= end
      invariant pages == LoadedPages(runs, urls[..g])
      invariant rateLimited == SetAsideOf(runs, urls[..g])
      invariant events == BackoffsIn(runs, urls[i..g])
    {
      var url := urls[g];
      var result, backoffs := FetchPage(scrape, url, onlyMain, runs);
      ScrapeStep(runs, urls, i, g);
      events := events + backoffs;
      match result {
        case Loaded(p) =>
          pages := pages + [p];
        case SetAside =>
          rateLimited := rateLimited + [RateLimited(url, LastPiece(url, '/'), g + 1)];
        case Dropped =>
      }
      g := g + 1;
    }
  }

  /** Mini-batch `j`: its progress report, its URLs and its pause (one turn of the loops
      at lines 82-162 and 1188-1275). */
  method RunMiniBatch(scrape: ScrapeRequest -> Fetched<Page>, urls: seq<string>, onlyMain: bool,
                      ghost runs: string -> UrlRun, progress: Option<ProgressTag>, j: nat,
                      pages0: seq<Page>, rateLimited0: seq<RateLimited>)
    returns (pages: seq<Page>, rateLimited: seq<RateLimited>, events: seq<Event>)
    requires Agrees(runs, scrape, onlyMain)
    requires 2 * j < |urls|
    requires pages0 == LoadedPages(runs, urls[..2 * j])
    requires rateLimited0 == SetAsideOf(runs, urls[..2 * j])
    ensures pages == LoadedPages(runs, urls[..MiniEnd(|urls|, j)])
    ensures rateLimited == SetAsideOf(runs, urls[..MiniEnd(|urls|, j)])
    ensures events == MiniLog(runs, urls, progress, j)
  {
    var i := MiniBatchSize * j;
    var batchEnd := if i + MiniBatchSize < |urls| then i + MiniBatchSize else |urls|;
    var report: seq<Event> := [];
    if progress.Some? {
      report := [Progress(progress.value.superBatchNumber, progress.value.totalSuperBatches,
                          j + 1, (|urls| + 1) / 2, |pages0|, |urls|)];
    }
    var backoffs;
    pages, rateLimited, backoffs := ScrapeMiniBatch(scrape, urls, onlyMain, runs, i, batchEnd, pages0, rateLimited0);
    var pause: seq<Event> := [];
    if i + MiniBatchSize < |urls| {
      pause := [Sleep(MiniBatchDelay)];
    }
    events := report + backoffs + pause;
  }

  /** Scrapes a list of URLs in mini-batches of two (lines 82-162 and 1188-1275): the pages
      that loaded, the URLs set aside and the log. `progress` is present when progress
      reports are sent. */
  method ScrapeBatch(scrape: ScrapeRequest -> Fetched<Page>, urls: seq<string>, onlyMain: bool,
                     ghost runs: string -> UrlRun, progress: Option<ProgressTag>)
    returns (pages: seq<Page>, rateLimited: seq<RateLimited>, log: seq<Event>)
    requires Agrees(runs, scrape, onlyMain)
    ensures BatchRun(pages, rateLimited, log) == BatchOf(runs, urls, progress)
  {
    pages, rateLimited, log := [], [], [];
    var j: nat := 0;
    while 2 * j < |urls|
      invariant j <= NumMini(|urls|)
      invariant 2 * j <= |urls| + 1
      invariant pages == LoadedPages(runs, urls[..MiniStart(|urls|, j)])
      invariant rateLimited == SetAsideOf(runs, urls[..MiniStart(|urls|, j)])
      invariant log == BatchLog(runs, urls, progress, j)
    {
      var events;
      assert MiniStart(|urls|, j) == 2 * j;
      pages, rateLimited, events := RunMiniBatch(scrape, urls, onlyMain, runs, progress, j, pages, rateLimited);
      log := log + events;
      assert MiniStart(|urls|, j + 1) == MiniEnd(|urls|, j);
      j := j + 1;
    }
    assert MiniStart(|urls|, j) == |urls| && j == NumMini(|urls|);
    assert urls[..|urls|] == urls;
  }

  /** Whether a URL's run ended with the URL set aside. */
  function SetAsideBy(runs: string -> UrlRun): string -> bool {
    u => runs(u).result.SetAside?
  }

  /** The URLs of a list of set-aside entries. */
  function UrlsOf(rateLimited: seq<RateLimited>): seq<string> {
    if rateLimited == [] then []
    else UrlsOf(rateLimited[..|rateLimited| - 1]) + [rateLimited[|rateLimited| - 1].url]
  }

  datatype BatchRun = BatchRun(pages: seq<Page>, rateLimited: seq<RateLimited>, log: seq<Event>)

  /** The scrape of a list of URLs as a value: the pages that loaded, the URLs set aside,
      and the log. */
  function BatchOf(runs: string -> UrlRun, urls: seq<string>, progress: Option<ProgressTag>): BatchRun {
    BatchRun(LoadedPages(runs, urls), SetAsideOf(runs, urls), BatchLog(runs, urls, progress, NumMini(|urls|)))
  }

  // ---------------------------------------------------------------- super-batches

  /** `s` cut into consecutive pieces of `size`, the last one possibly shorter. */
  function Chunks<T>(s: seq<T>, size: nat): seq<seq<T>>
    requires size > 0
    decreases |s|
  {
    if s == [] then []
    else if |s| <= size then [s]
    else [s[..size]] + Chunks(s[size..], size)
  }

  function Concat<T>(ss: seq<seq<T>>): seq<T> {
    if ss == [] then [] else Concat(ss[..|ss| - 1]) + ss[|ss| - 1]
  }

  /** The super-batches of twenty URLs (lines 1166-1170). */
  method SplitSuperBatches(urls: seq<string>) returns (superBatches: seq<seq<string>>)
    ensures superBatches == Chunks(urls, SuperBatchSize)
  {
    superBatches := [];
    var i := 0;
    while i < |urls|
      invariant 0 <= i <= |urls|
      invariant superBatches + Chunks(urls[i..], SuperBatchSize) == Chunks(urls, SuperBatchSize)
      decreases |urls| - i
    {
      var end := if i + SuperBatchSize < |urls| then i + SuperBatchSize else |urls|;
      assert Chunks(urls[i..], SuperBatchSize) == [urls[i..end]] + Chunks(urls[end..], SuperBatchSize) by {
        if |urls[i..]| > SuperBatchSize {
          assert urls[i..][..SuperBatchSize] == urls[i..end];
          assert urls[i..][SuperBatchSize..] == urls[end..];
        } else {
          assert urls[i..] == urls[i..end];
          assert urls[end..] == [];
        }
      }
      superBatches := superBatches + [urls[i..end]];
      i := end;
    }
    assert urls[|urls|..] == [];
  }

  /** What the caller has seen after the first `m` super-batches: the products and
      rate-limited URLs so far, and the log. */
  datatype Totals = Totals(products: seq<Products.Product>, rateLimited: seq<RateLimited>, log: seq<Event>)

  /** `processProducts` under the crawl's LinkedIn oracle and year. */
  function Process(env: Env): seq<Page> -> seq<Products.Product> {
    pages => Products.ProductsOf(pages, env.scrapeLinkedIn, env.currentYear)
  }

  /** `process` turns pages into product records as `processProducts` does. */
  ghost predicate Processes(process: seq<Page> -> seq<Products.Product>, env: Env) {
    forall pages {:trigger Products.ProductsOf(pages, env.scrapeLinkedIn, env.currentYear)} ::
      process(pages) == Products.ProductsOf(pages, env.scrapeLinkedIn, env.currentYear)
  }

  lemma ProcessAgrees(env: Env)
    ensures Processes(Process(env), env)
  {
  }

  /** A batch of URLs scraped under `runs`, with or without progress reports. */
  function BatchFn(runs: string -> UrlRun): (seq<string>, Option<ProgressTag>) -> BatchRun {
    (urls, progress) => BatchOf(runs, urls, progress)
  }

  /** `batch` scrapes a batch as `runs` says. */
  ghost predicate Batches(batch: (seq<string>, Option<ProgressTag>) -> BatchRun, runs: string -> UrlRun) {
    forall urls, progress {:trigger BatchOf(runs, urls, progress)} :: batch(urls, progress) == BatchOf(runs, urls, progress)
  }

  lemma BatchesAgree(runs: string -> UrlRun)
    ensures Batches(BatchFn(runs), runs)
  {
  }

  /** The progress tag super-batch `m` of `total` passes to its batch: one when
      `onProgress` is registered. */
  function ProgressOf(cb: Callbacks, m: nat, total: nat): (r: Option<ProgressTag>)
    ensures r.Some? <==> cb.onProgress
    ensures r.Some? ==> r.value.superBatchNumber == m && r.value.totalSuperBatches == total
  {
    if cb.onProgress then Some(ProgressTag(m, total)) else None
  }

  /** The first `m` super-batches (lines 1178-1301): each scraped in mini-batches, its
      pages processed; its results reported when `onBatchComplete` is registered, and a
      45-second cooldown unless it is the last. */
  function SuperUpTo(process: seq<Page> -> seq<Products.Product>, batch: (seq<string>, Option<ProgressTag>) -> BatchRun,
                     cb: Callbacks, batches: seq<seq<string>>, m: nat): Totals
    requires m <= |batches|
  {
    if m == 0 then Totals([], [], [])
    else
      var prev := SuperUpTo(process, batch, cb, batches, m - 1);
      var progress := ProgressOf(cb, m, |batches|);
      var b := batch(batches[m - 1], progress);
      var products := process(b.pages);
      var all := prev.products + products;
      var allRateLimited := prev.rateLimited + b.rateLimited;
      Totals(all, allRateLimited,
             prev.log + b.log + SuperTail(cb, m, |batches|, products, b.rateLimited, |all|, |allRateLimited|))
  }

  /** What super-batch `m` of `total` logs after its batch: its report when
      `onBatchComplete` is registered, then a cooldown unless it is the last. */
  function SuperTail(cb: Callbacks, m: nat, total: nat, products: seq<Products.Product>, rateLimited: seq<RateLimited>,
                     allProducts: nat, allRateLimited: nat): seq<Event> {
    (if cb.onBatchComplete then [BatchComplete(m, total, products, rateLimited, allProducts, allRateLimited)] else [])
    + (if m < total then [Sleep(SuperBatchDelay)] else [])
  }

  /** Super-batch `idx` (one turn of the loop at lines 1178-1301). */
  method RunSuperBatch(env: Env, onlyMain: bool, ghost runs: string -> UrlRun,
                       ghost batch: (seq<string>, Option<ProgressTag>) -> BatchRun,
                       ghost process: seq<Page> -> seq<Products.Product>, cb: Callbacks,
                       superBatches: seq<seq<string>>, idx: nat, totals0: Totals)
    returns (totals: Totals)
    requires Agrees(runs, env.scrape, onlyMain)
    requires Batches(batch, runs)
    requires Processes(process, env)
    requires idx < |superBatches|
    requires totals0 == SuperUpTo(process, batch, cb, superBatches, idx)
    ensures totals == SuperUpTo(process, batch, cb, superBatches, idx + 1)
  {
    var superBatch := superBatches[idx];
    var progress := ProgressOf(cb, idx + 1, |superBatches|);
    var productPages, rateLimitedUrls, log := ScrapeBatch(env.scrape, superBatch, onlyMain, runs, progress);
    ghost var b := batch(superBatch, progress);
    assert b == BatchOf(runs, superBatch, progress);
    var products := Products.ProcessProducts(Some(productPages), env.scrapeLinkedIn, env.currentYear);
    assert products == process(b.pages);
    var allProducts := totals0.products + products;
    var allRateLimited := totals0.rateLimited + rateLimitedUrls;
    log := totals0.log + log;
    if cb.onBatchComplete {
      log := log + [BatchComplete(idx + 1, |superBatches|, products, rateLimitedUrls, |allProducts|, |allRateLimited|)];
    }
    if idx < |superBatches| - 1 {
      log := log + [Sleep(SuperBatchDelay)];
    }
    assert log == totals0.log + b.log + SuperTail(cb, idx + 1, |superBatches|, products, rateLimitedUrls, |allProducts|, |allRateLimited|);
    totals := Totals(allProducts, allRateLimited, log);
  }

  /** The super-batch loop of lines 1178-1301. */
  method ProcessSuperBatches(env: Env, onlyMain: bool, ghost runs: string -> UrlRun,
                             ghost batch: (seq<string>, Option<ProgressTag>) -> BatchRun,
                             ghost process: seq<Page> -> seq<Products.Product>, cb: Callbacks,
                             superBatches: seq<seq<string>>)
    returns (totals: Totals)
    requires Agrees(runs, env.scrape, onlyMain)
    requires Batches(batch, runs)
    requires Processes(process, env)
    ensures totals == SuperUpTo(process, batch, cb, superBatches, |superBatches|)
  {
    totals := Totals([], [], []);
    var idx := 0;
    while idx < |superBatches|
      invariant 0 <= idx <= |superBatches|
      invariant totals == SuperUpTo(process, batch, cb, superBatches, idx)
    {
      totals := RunSuperBatch(env, onlyMain, runs, batch, process, cb, superBatches, idx, totals);
      idx := idx + 1;
    }
  }

  // ---------------------------------------------------------------- the two crawls

  /** `crawlAppSumo(categories, maxProducts, sortBy)` as a value. Product pages are
      requested with all their content. */
  function CrawlSpec(env: Env, categories: seq<string>, maxProducts: real, sortBy: Option<string>): CrawlRun {
    match env.listing(Discovery.GetCategoryUrl(categories, sortBy))
    case Err(e) => CrawlRun(Failed(e), [])
    case Ok(markdown) =>
      var urls := Discovery.ProductUrls(OrEmpty(markdown), maxProducts);
      if urls == [] then CrawlRun(NoProducts, [])
      else
        var b := BatchOf(Runs(env.scrape, false), urls, None);
        CrawlRun(Crawled(Products.ProductsOf(b.pages, env.scrapeLinkedIn, env.currentYear), b.rateLimited), b.log)
  }

  /** `crawlAppSumoProgressive(categories, maxProducts, sortBy, crawlMode, callbacks)` as a
      value. Product pages are requested with their main content only in "fast" mode. */
  function ProgressiveSpec(env: Env, categories: seq<string>, maxProducts: real, sortBy: Option<string>,
                           crawlMode: string, cb: Callbacks): CrawlRun {
    match env.listing(Discovery.GetCategoryUrl(categories, sortBy))
    case Err(e) => CrawlRun(Failed(e), if cb.onError then [Error(e)] else [])
    case Ok(markdown) =>
      ProgressiveOver(env, crawlMode == "fast", cb, Discovery.ProductUrls(OrEmpty(markdown), maxProducts))
  }

  /** The progressive crawl once the product URLs are known. */
  function ProgressiveOver(env: Env, onlyMain: bool, cb: Callbacks, urls: seq<string>): CrawlRun {
    if urls == [] then CrawlRun(Crawled([], []), if cb.onComplete then [Complete([], [])] else [])
    else
      var batches := Chunks(urls, SuperBatchSize);
      var t := SuperUpTo(Process(env), BatchFn(Runs(env.scrape, onlyMain)), cb, batches, |batches|);
      CrawlRun(Crawled(t.products, t.rateLimited),
               t.log + if cb.onComplete then [Complete(t.products, t.rateLimited)] else [])
  }

  /** `crawlAppSumo` (lines 46-189). */
  method CrawlAppSumo(env: Env, categories: seq<string>, maxProducts: real, sortBy: Option<string>)
    returns (result: CrawlResult, log: seq<Event>)
    ensures CrawlRun(result, log) == CrawlSpec(env, categories, maxProducts, sortBy)
  {
    log := [];
    var listingUrl := Discovery.GetCategoryUrl(categories, sortBy);
    var listingPage := env.listing(listingUrl);
    if listingPage.Err? {
      return Failed(listingPage.error), log;
    }
    var productUrls := Discovery.ExtractProductUrls(OrEmpty(listingPage.doc), maxProducts);
    if |productUrls| == 0 {
      return NoProducts, log;
    }
    RunsAgree(env.scrape, false);
    var productPages, rateLimitedUrls;
    productPages, rateLimitedUrls, log := ScrapeBatch(env.scrape, productUrls, false, Runs(env.scrape, false), None);
    var products := Products.ProcessProducts(Some(productPages), env.scrapeLinkedIn, env.currentYear);
    return Crawled(products, rateLimitedUrls), log;
  }

  /** `crawlAppSumoProgressive` (lines 1131-1325). */
  method CrawlAppSumoProgressive(env: Env, categories: seq<string>, maxProducts: real, sortBy: Option<string>,
                                 crawlMode: string, cb: Callbacks)
    returns (result: CrawlResult, log: seq<Event>)
    ensures CrawlRun(result, log) == ProgressiveSpec(env, categories, maxProducts, sortBy, crawlMode, cb)
  {
    var onlyMainContent := crawlMode == "fast";
    var listingUrl := Discovery.GetCategoryUrl(categories, sortBy);
    var listingPage := env.listing(listingUrl);
    if listingPage.Err? {
      log := [];
      if cb.onError {
        log := log + [Error(listingPage.error)];
      }
      return Failed(listingPage.error), log;
    }
    var productUrls := Discovery.ExtractProductUrls(OrEmpty(listingPage.doc), maxProducts);
    result, log := CrawlProductUrls(env, onlyMainContent, cb, productUrls);
  }

  /** Lines 1159-1316: the super-batches of the product URLs and the final report. */
  method CrawlProductUrls(env: Env, onlyMain: bool, cb: Callbacks, productUrls: seq<string>)
    returns (result: CrawlResult, log: seq<Event>)
    ensures CrawlRun(result, log) == ProgressiveOver(env, onlyMain, cb, productUrls)
  {
    log := [];
    if |productUrls| == 0 {
      if cb.onComplete {
        log := log + [Complete([], [])];
      }
      return Crawled([], []), log;
    }
    var superBatches := SplitSuperBatches(productUrls);
    RunsAgree(env.scrape, onlyMain);
    BatchesAgree(Runs(env.scrape, onlyMain));
    ProcessAgrees(env);
    var totals := ProcessSuperBatches(env, onlyMain, Runs(env.scrape, onlyMain), BatchFn(Runs(env.scrape, onlyMain)),
                                      Process(env), cb, superBatches);
    log := totals.log;
    if cb.onComplete {
      log := log + [Complete(totals.products, totals.rateLimited)];
    }
    return Crawled(totals.products, totals.rateLimited), log;
  }

  // ---------------------------------------------------------------- properties of one URL

  /** Scraping a URL makes one to three attempts, each retry following a 429 and a sleep;
      the last attempt decides: its document loads, its error sets the URL aside when it
      is a 429, a timeout or a server error, and drops it otherwise. */
  lemma UrlOutcome(scrape: ScrapeRequest -> Fetched<Page>, url: string, onlyMain: bool)
    ensures var r := ScrapeRun(scrape, url, onlyMain);
      && 1 <= r.attempts <= MaxRetries
      && |r.delays| == r.attempts - 1
      && (forall k :: 0 <= k < r.attempts - 1 ==>
            scrape(ScrapeRequest(url, onlyMain, k)).Err? && Is429(scrape(ScrapeRequest(url, onlyMain, k)).error))
      && var last := scrape(ScrapeRequest(url, onlyMain, r.attempts - 1));
      && var result := ResultOf(scrape, url, onlyMain);
      && (result.Loaded? <==> last.Ok?)
      && (last.Ok? ==> result == Loaded(PageFrom(url, last.doc)))
      && (result.SetAside? <==> last.Err? && IsSetAside(last.error))
      && (result.Dropped? <==> last.Err? && !IsSetAside(last.error))
  {
    RetryAttempts(Attempts(scrape, url, onlyMain), MaxRetries, BaseDelay, 0);
    RetryOnlyOn429(Attempts(scrape, url, onlyMain), MaxRetries, BaseDelay, 0);
  }

  /** A URL answered with 429 three times is set aside after sleeping 2 s and then 4 s. */
  lemma PersistentRateLimit(scrape: ScrapeRequest -> Fetched<Page>, url: string, onlyMain: bool)
    requires forall k :: 0 <= k < 3 ==>
      scrape(ScrapeRequest(url, onlyMain, k)).Err? && Is429(scrape(ScrapeRequest(url, onlyMain, k)).error)
    ensures RunOf(scrape, url, onlyMain) == UrlRun(SetAside, [2000, 4000])
  {
    assert Pow2(1) == 2;
    var op := Attempts(scrape, url, onlyMain);
    assert op(0) == scrape(ScrapeRequest(url, onlyMain, 0));
    assert op(1) == scrape(ScrapeRequest(url, onlyMain, 1));
    assert op(2) == scrape(ScrapeRequest(url, onlyMain, 2));
  }

  /** A timeout or a server error is not retried: the URL is set aside at once. */
  lemma SetAsideWithoutRetry(scrape: ScrapeRequest -> Fetched<Page>, url: string, onlyMain: bool)
    requires scrape(ScrapeRequest(url, onlyMain, 0)).Err?
    requires var e := scrape(ScrapeRequest(url, onlyMain, 0)).error; !Is429(e) && (IsTimeout(e) || IsServerError(e))
    ensures RunOf(scrape, url, onlyMain) == UrlRun(SetAside, [])
  {
    var op := Attempts(scrape, url, onlyMain);
    assert op(0) == scrape(ScrapeRequest(url, onlyMain, 0));
    RetryNon429Once(op, MaxRetries, BaseDelay);
  }

  // ---------------------------------------------------------------- properties of a batch

  /** Every URL of a batch ends up in exactly one of the three lists. */
  lemma {:induction false} BatchPartition(runs: string -> UrlRun, urls: seq<string>)
    ensures |LoadedPages(runs, urls)| + |SetAsideOf(runs, urls)| + |DroppedOf(runs, urls)| == |urls|
  {
    if urls != [] {
      BatchPartition(runs, urls[..|urls| - 1]);
    }
  }

  /** A set-aside entry of `urls`: its 1-based position holds its URL, its name is the URL's
      last path segment, and that URL's run ended set aside. */
  predicate SetAsideEntry(runs: string -> UrlRun, urls: seq<string>, e: RateLimited) {
    && 1 <= e.index <= |urls|
    && urls[e.index - 1] == e.url
    && e.name == LastPiece(e.url, '/')
    && runs(e.url).result.SetAside?
  }

  /** Each set-aside entry names a URL of the batch that was set aside, by its 1-based
      position and its last path segment. */
  lemma {:induction false} SetAsideIndices(runs: string -> UrlRun, urls: seq<string>)
    ensures forall k :: 0 <= k < |SetAsideOf(runs, urls)| ==> SetAsideEntry(runs, urls, SetAsideOf(runs, urls)[k])
  {
    if urls != [] {
      var init := urls[..|urls| - 1];
      var last := urls[|urls| - 1];
      SetAsideIndices(runs, init);
      var r0 := SetAsideOf(runs, init);
      forall k | 0 <= k < |r0| ensures SetAsideEntry(runs, urls, r0[k]) {
        assert SetAsideEntry(runs, init, r0[k]);
        assert urls[r0[k].index - 1] == init[r0[k].index - 1];
      }
      if runs(last).result.SetAside? {
        var e := RateLimited(last, LastPiece(last, '/'), |urls|);
        assert SetAsideOf(runs, urls) == r0 + [e];
        assert SetAsideEntry(runs, urls, e);
      } else {
        assert SetAsideOf(runs, urls) == r0;
      }
    }
  }

  /** Entries whose positions strictly increase. */
  predicate IndicesIncreasing(rs: seq<RateLimited>) {
    forall a, b :: 0 <= a < b < |rs| ==> rs[a].index < rs[b].index
  }

  lemma IncreasingSnoc(rs: seq<RateLimited>, e: RateLimited, n: nat)
    requires IndicesIncreasing(rs) && IndicesWithin(rs, n) && n < e.index
    ensures IndicesIncreasing(rs + [e])
  {
    var s := rs + [e];
    forall a, b | 0 <= a < b < |s| ensures s[a].index < s[b].index {
      assert s[a] == rs[a];
      if b < |rs| {
        assert s[b] == rs[b];
      }
    }
  }

  /** The set-aside entries come in increasing position order. */
  lemma {:induction false} SetAsideOrdered(runs: string -> UrlRun, urls: seq<string>)
    ensures IndicesIncreasing(SetAsideOf(runs, urls))
  {
    if urls != [] {
      var init := urls[..|urls| - 1];
      var last := urls[|urls| - 1];
      SetAsideOrdered(runs, init);
      SetAsideWithin(runs, init, |init|);
      if runs(last).result.SetAside? {
        IncreasingSnoc(SetAsideOf(runs, init), RateLimited(last, LastPiece(last, '/'), |urls|), |init|);
      }
    }
  }

  /** The set-aside URLs of a batch are those whose run ended set aside, in order. */
  lemma {:induction false} SetAsideUrls(runs: string -> UrlRun, urls: seq<string>)
    ensures UrlsOf(SetAsideOf(runs, urls)) == Products.Filter(SetAsideBy(runs), urls)
  {
    if urls != [] {
      SetAsideUrls(runs, urls[..|urls| - 1]);
    }
  }

  /** Every page a batch keeps carries one of the batch's URLs as its source URL. */
  lemma {:induction false} LoadedFromUrls(scrape: ScrapeRequest -> Fetched<Page>, onlyMain: bool, urls: seq<string>)
    ensures forall k :: 0 <= k < |LoadedPages(Runs(scrape, onlyMain), urls)| ==>
      var p := LoadedPages(Runs(scrape, onlyMain), urls)[k];
      SourceUrl(p).Some? && SourceUrl(p).value in urls
  {
    if urls != [] {
      var init := urls[..|urls| - 1];
      var last := urls[|urls| - 1];
      LoadedFromUrls(scrape, onlyMain, init);
      UrlOutcome(scrape, last, onlyMain);
      assert forall u :: u in init ==> u in urls;
      var ps0 := LoadedPages(Runs(scrape, onlyMain), init);
      var ps := LoadedPages(Runs(scrape, onlyMain), urls);
      match RunOf(scrape, last, onlyMain).result
      case Loaded(p) =>
        assert ps == ps0 + [p];
        assert SourceUrl(p) == Some(last);
      case _ =>
        assert ps == ps0;
    }
  }

  /** Splitting a batch in two splits its loaded pages in two. */
  lemma {:induction false} LoadedAppend(runs: string -> UrlRun, a: seq<string>, b: seq<string>)
    ensures LoadedPages(runs, a + b) == LoadedPages(runs, a) + LoadedPages(runs, b)
    decreases |b|
  {
    if b == [] {
      assert a + b == a;
    } else {
      var b0 := b[..|b| - 1];
      LoadedAppend(runs, a, b0);
      assert (a + b)[..|a + b| - 1] == a + b0;
    }
  }

  /** Splitting a batch in two splits its set-aside URLs in two; only the positions
      change. */
  lemma SetAsideAppend(runs: string -> UrlRun, a: seq<string>, b: seq<string>)
    ensures UrlsOf(SetAsideOf(runs, a + b)) == UrlsOf(SetAsideOf(runs, a)) + UrlsOf(SetAsideOf(runs, b))
  {
    SetAsideUrls(runs, a + b);
    SetAsideUrls(runs, a);
    SetAsideUrls(runs, b);
    Products.FilterAppend(SetAsideBy(runs), a, b);
  }

  lemma {:induction false} UrlsOfAppend(a: seq<RateLimited>, b: seq<RateLimited>)
    ensures UrlsOf(a + b) == UrlsOf(a) + UrlsOf(b)
    decreases |b|
  {
    if b == [] {
      assert a + b == a;
    } else {
      var b0 := b[..|b| - 1];
      UrlsOfAppend(a, b0);
      assert (a + b)[..|a + b| - 1] == a + b0;
    }
  }

  // ---------------------------------------------------------------- counting events

  function Count<T>(p: T -> bool, s: seq<T>): nat {
    if s == [] then 0 else Count(p, s[..|s| - 1]) + if p(s[|s| - 1]) then 1 else 0
  }

  lemma {:induction false} CountAppend<T>(p: T -> bool, a: seq<T>, b: seq<T>)
    ensures Count(p, a + b) == Count(p, a) + Count(p, b)
    decreases |b|
  {
    if b == [] {
      assert a + b == a;
    } else {
      var b0 := b[..|b| - 1];
      CountAppend(p, a, b0);
      assert (a + b)[..|a + b| - 1] == a + b0;
    }
  }

  lemma TallySplit<T>(p: T -> bool, s: seq<T>, a: seq<T>, b: seq<T>)
    requires s == a + b
    ensures Count(p, s) == Count(p, a) + Count(p, b)
  {
    CountAppend(p, a, b);
  }

  lemma {:induction false} CountNone<T>(p: T -> bool, s: seq<T>)
    requires forall k :: 0 <= k < |s| ==> !p(s[k])
    ensures Count(p, s) == 0
  {
    if s != [] {
      CountNone(p, s[..|s| - 1]);
    }
  }

  lemma CountOne<T>(p: T -> bool, x: T)
    ensures Count(p, [x]) == if p(x) then 1 else 0
  {
    assert [x][..0] == [];
  }

  predicate IsProgress(e: Event) { e.Progress? }
  predicate IsPause(e: Event) { e == Sleep(MiniBatchDelay) }
  predicate IsCooldown(e: Event) { e == Sleep(SuperBatchDelay) }
  predicate IsBatchComplete(e: Event) { e.BatchComplete? }
  predicate IsComplete(e: Event) { e.Complete? }

  /** The events one batch logs: retry sleeps, progress reports and mini-batch pauses. */
  predicate BatchEvent(e: Event) { e.Backoff? || e.Progress? || e == Sleep(MiniBatchDelay) }

  lemma {:induction false} BackoffsOnly(runs: string -> UrlRun, urls: seq<string>)
    ensures forall k :: 0 <= k < |BackoffsIn(runs, urls)| ==> BackoffsIn(runs, urls)[k].Backoff?
  {
    if urls != [] {
      BackoffsOnly(runs, urls[..|urls| - 1]);
    }
  }

  /** A mini-batch logs only retry sleeps, a progress report and a pause. */
  lemma MiniLogEvents(runs: string -> UrlRun, urls: seq<string>, progress: Option<ProgressTag>, j: nat)
    requires 2 * j < |urls|
    ensures forall k :: 0 <= k < |MiniLog(runs, urls, progress, j)| ==> BatchEvent(MiniLog(runs, urls, progress, j)[k])
  {
    BackoffsOnly(runs, urls[2 * j..MiniEnd(|urls|, j)]);
  }

  /** A mini-batch logs one progress report when progress is reported, and one pause
      unless it is the batch's last. */
  lemma MiniLogTally(runs: string -> UrlRun, urls: seq<string>, progress: Option<ProgressTag>, j: nat)
    requires 2 * j < |urls|
    ensures Count(IsProgress, MiniLog(runs, urls, progress, j)) == if progress.Some? then 1 else 0
    ensures Count(IsPause, MiniLog(runs, urls, progress, j)) == if 2 * j + 2 < |urls| then 1 else 0
  {
    var backoffs := BackoffsIn(runs, urls[2 * j..MiniEnd(|urls|, j)]);
    BackoffsOnly(runs, urls[2 * j..MiniEnd(|urls|, j)]);
    var report := match progress
      case Some(t) => [Progress(t.superBatchNumber, t.totalSuperBatches, j + 1, NumMini(|urls|),
                                |LoadedPages(runs, urls[..2 * j])|, |urls|)]
      case None => [];
    var pause := if 2 * j + 2 < |urls| then [Sleep(MiniBatchDelay)] else [];
    assert MiniLog(runs, urls, progress, j) == report + backoffs + pause;
    CountAppend(IsProgress, report + backoffs, pause);
    CountAppend(IsProgress, report, backoffs);
    CountAppend(IsPause, report + backoffs, pause);
    CountAppend(IsPause, report, backoffs);
    CountNone(IsProgress, backoffs);
    CountNone(IsPause, backoffs);
    if progress.Some? {
      CountOne(IsProgress, report[0]);
      CountOne(IsPause, report[0]);
    }
    if pause != [] {
      CountOne(IsProgress, pause[0]);
      CountOne(IsPause, pause[0]);
    }
  }

  /** The first `j` mini-batches log only retry sleeps, progress reports and pauses. */
  lemma {:induction false} BatchLogEvents(runs: string -> UrlRun, urls: seq<string>, progress: Option<ProgressTag>, j: nat)
    requires j <= NumMini(|urls|)
    ensures forall k :: 0 <= k < |BatchLog(runs, urls, progress, j)| ==> BatchEvent(BatchLog(runs, urls, progress, j)[k])
  {
    if j > 0 {
      var before := BatchLog(runs, urls, progress, j - 1);
      var last := MiniLog(runs, urls, progress, j - 1);
      BatchLogEvents(runs, urls, progress, j - 1);
      MiniLogEvents(runs, urls, progress, j - 1);
      assert BatchLog(runs, urls, progress, j) == before + last;
      forall k | 0 <= k < |before + last| ensures BatchEvent((before + last)[k]) {
        if k >= |before| {
          assert (before + last)[k] == last[k - |before|];
        }
      }
    }
  }

  /** The number of pauses after the first `j` of the mini-batches of `n` URLs. */
  function PausesUpTo(n: nat, j: nat): nat {
    if j == 0 then 0 else if 2 * j < n then j else j - 1
  }

  lemma PausesStep(n: nat, j: nat)
    requires 0 < j <= NumMini(n)
    ensures PausesUpTo(n, j) == PausesUpTo(n, j - 1) + if 2 * (j - 1) + 2 < n then 1 else 0
  {
  }

  /** Mini-batch j - 1 of a batch of n URLs starts inside the batch. */
  lemma MiniInRange(n: nat, j: nat)
    requires 0 < j <= NumMini(n)
    ensures 2 * (j - 1) < n
  {
  }

  /** The logs of the first `j` mini-batches, one entry per mini-batch. */
  function MiniLogList(runs: string -> UrlRun, urls: seq<string>, progress: Option<ProgressTag>, j: nat): (r: seq<seq<Event>>)
    requires j <= NumMini(|urls|)
    ensures |r| == j
  {
    if j == 0 then [] else MiniLogList(runs, urls, progress, j - 1) + [MiniLog(runs, urls, progress, j - 1)]
  }

  lemma {:induction false} MiniLogListAt(runs: string -> UrlRun, urls: seq<string>, progress: Option<ProgressTag>, j: nat, k: nat)
    requires j <= NumMini(|urls|) && k < j
    ensures 2 * k < |urls| && MiniLogList(runs, urls, progress, j)[k] == MiniLog(runs, urls, progress, k)
  {
    MiniInRange(|urls|, j);
    if k < j - 1 {
      MiniLogListAt(runs, urls, progress, j - 1, k);
    }
  }

  lemma {:induction false} BatchLogConcat(runs: string -> UrlRun, urls: seq<string>, progress: Option<ProgressTag>, j: nat)
    requires j <= NumMini(|urls|)
    ensures BatchLog(runs, urls, progress, j) == Concat(MiniLogList(runs, urls, progress, j))
  {
    if j > 0 {
      BatchLogConcat(runs, urls, progress, j - 1);
      var ss := MiniLogList(runs, urls, progress, j);
      assert ss[..j - 1] == MiniLogList(runs, urls, progress, j - 1);
    }
  }

  /** Blocks that each hold one matching element, when `some`, and none otherwise. */
  lemma {:induction false} ConcatCountEach<T>(p: T -> bool, ss: seq<seq<T>>, some: bool)
    requires forall k :: 0 <= k < |ss| ==> Count(p, ss[k]) == if some then 1 else 0
    ensures Count(p, Concat(ss)) == if some then |ss| else 0
  {
    if ss != [] {
      ConcatCountEach(p, ss[..|ss| - 1], some);
      CountAppend(p, Concat(ss[..|ss| - 1]), ss[|ss| - 1]);
    }
  }

  /** Blocks of which each but the one ending a batch of n elements holds one matching element. */
  lemma {:induction false} ConcatCountButLast<T>(p: T -> bool, ss: seq<seq<T>>, n: nat)
    requires |ss| <= NumMini(n)
    requires forall k :: 0 <= k < |ss| ==> Count(p, ss[k]) == if 2 * k + 2 < n then 1 else 0
    ensures Count(p, Concat(ss)) == PausesUpTo(n, |ss|)
  {
    if ss != [] {
      ConcatCountButLast(p, ss[..|ss| - 1], n);
      CountAppend(p, Concat(ss[..|ss| - 1]), ss[|ss| - 1]);
      PausesStep(n, |ss|);
    }
  }

  /** The first `j` mini-batches log one progress report each when progress is reported. */
  lemma BatchProgressTally(runs: string -> UrlRun, urls: seq<string>, progress: Option<ProgressTag>, j: nat)
    requires j <= NumMini(|urls|)
    ensures Count(IsProgress, BatchLog(runs, urls, progress, j)) == if progress.Some? then j else 0
  {
    var ss := MiniLogList(runs, urls, progress, j);
    BatchLogConcat(runs, urls, progress, j);
    forall k | 0 <= k < j ensures Count(IsProgress, ss[k]) == if progress.Some? then 1 else 0 {
      MiniLogListAt(runs, urls, progress, j, k);
      MiniLogTally(runs, urls, progress, k);
    }
    ConcatCountEach(IsProgress, ss, progress.Some?);
  }

  /** The first `j` mini-batches log a pause after every one of them but the batch's last. */
  lemma BatchPauseTally(runs: string -> UrlRun, urls: seq<string>, progress: Option<ProgressTag>, j: nat)
    requires j <= NumMini(|urls|)
    ensures Count(IsPause, BatchLog(runs, urls, progress, j)) == PausesUpTo(|urls|, j)
  {
    var ss := MiniLogList(runs, urls, progress, j);
    BatchLogConcat(runs, urls, progress, j);
    forall k | 0 <= k < j ensures Count(IsPause, ss[k]) == if 2 * k + 2 < |urls| then 1 else 0 {
      MiniLogListAt(runs, urls, progress, j, k);
      MiniLogTally(runs, urls, progress, k);
    }
    ConcatCountButLast(IsPause, ss, |urls|);
  }

  /** A batch of `n` URLs logs `ceil(n / 2)` progress reports when progress is reported,
      none otherwise, and `ceil(n / 2) - 1` pauses of five seconds. */
  lemma BatchLogCounts(runs: string -> UrlRun, urls: seq<string>, progress: Option<ProgressTag>)
    requires urls != []
    ensures forall k :: 0 <= k < |BatchOf(runs, urls, progress).log| ==> BatchEvent(BatchOf(runs, urls, progress).log[k])
    ensures Count(IsProgress, BatchOf(runs, urls, progress).log) == if progress.Some? then NumMini(|urls|) else 0
    ensures Count(IsPause, BatchOf(runs, urls, progress).log) == NumMini(|urls|) - 1
  {
    BatchLogEvents(runs, urls, progress, NumMini(|urls|));
    BatchProgressTally(runs, urls, progress, NumMini(|urls|));
    BatchPauseTally(runs, urls, progress, NumMini(|urls|));
  }

  // ---------------------------------------------------------------- properties of the split

  lemma {:induction false} ConcatCons<T>(x: seq<T>, ss: seq<seq<T>>)
    ensures Concat([x] + ss) == x + Concat(ss)
    decreases |ss|
  {
    if ss == [] {
      assert [x] + ss == [x];
      assert [x][..0] == [];
    } else {
      var init := ss[..|ss| - 1];
      ConcatCons(x, init);
      assert ([x] + ss)[..|[x] + ss| - 1] == [x] + init;
    }
  }

  /** The super-batches hold the URLs in order, twenty to a batch except possibly the
      last, which is not empty: `ceil(n / 20)` of them. */
  lemma {:induction false} SuperBatchShape<T>(s: seq<T>)
    ensures Concat(Chunks(s, SuperBatchSize)) == s
    ensures |Chunks(s, SuperBatchSize)| == (|s| + SuperBatchSize - 1) / SuperBatchSize
    ensures forall k :: 0 <= k < |Chunks(s, SuperBatchSize)| ==> 0 < |Chunks(s, SuperBatchSize)[k]| <= SuperBatchSize
    ensures forall k :: 0 <= k < |Chunks(s, SuperBatchSize)| - 1 ==> |Chunks(s, SuperBatchSize)[k]| == SuperBatchSize
    decreases |s|
  {
    var c := Chunks(s, SuperBatchSize);
    if s == [] {
    } else if |s| <= SuperBatchSize {
      assert c == [s];
      ConcatCons(s, []);
    } else {
      var rest := Chunks(s[SuperBatchSize..], SuperBatchSize);
      SuperBatchShape(s[SuperBatchSize..]);
      assert c == [s[..SuperBatchSize]] + rest;
      ConcatCons(s[..SuperBatchSize], rest);
      assert s == s[..SuperBatchSize] + s[SuperBatchSize..];
      assert forall k :: 1 <= k < |c| ==> c[k] == rest[k - 1];
    }
  }

  // ---------------------------------------------------------------- properties of the super-batches

  /** After `m` super-batches the products are those of the pages loaded from all their
      URLs taken together, and the rate-limited URLs are those set aside among them. */
  lemma {:induction false} SuperTotals(env: Env, process: seq<Page> -> seq<Products.Product>, runs: string -> UrlRun,
                                       batch: (seq<string>, Option<ProgressTag>) -> BatchRun, cb: Callbacks, batches: seq<seq<string>>, m: nat)
    requires Processes(process, env)
    requires Batches(batch, runs)
    requires m <= |batches|
    ensures SuperUpTo(process, batch, cb, batches, m).products
      == Products.ProductsOf(LoadedPages(runs, Concat(batches[..m])), env.scrapeLinkedIn, env.currentYear)
    ensures UrlsOf(SuperUpTo(process, batch, cb, batches, m).rateLimited) == UrlsOf(SetAsideOf(runs, Concat(batches[..m])))
  {
    if m > 0 {
      SuperTotals(env, process, runs, batch, cb, batches, m - 1);
      var before := Concat(batches[..m - 1]);
      var b := batches[m - 1];
      var progress := ProgressOf(cb, m, |batches|);
      assert batch(b, progress) == BatchOf(runs, b, progress);
      assert batches[..m][..m - 1] == batches[..m - 1];
      assert Concat(batches[..m]) == before + b;
      LoadedAppend(runs, before, b);
      SetAsideAppend(runs, before, b);
      Products.ProductsOfAppend(LoadedPages(runs, before), LoadedPages(runs, b), env.scrapeLinkedIn, env.currentYear);
      UrlsOfAppend(SuperUpTo(process, batch, cb, batches, m - 1).rateLimited, SetAsideOf(runs, b));
    }
  }

  /** A batch logs no cooldown, no batch report and no completion. */
  lemma BatchLogQuiet(runs: string -> UrlRun, urls: seq<string>, progress: Option<ProgressTag>)
    ensures Count(IsCooldown, BatchOf(runs, urls, progress).log) == 0
    ensures Count(IsBatchComplete, BatchOf(runs, urls, progress).log) == 0
    ensures Count(IsComplete, BatchOf(runs, urls, progress).log) == 0
  {
    var log := BatchOf(runs, urls, progress).log;
    BatchLogEvents(runs, urls, progress, NumMini(|urls|));
    CountNone(IsCooldown, log);
    CountNone(IsBatchComplete, log);
    CountNone(IsComplete, log);
  }

  /** No batch `batch` returns logs an event `p` accepts. */
  ghost predicate Quiet(p: Event -> bool, batch: (seq<string>, Option<ProgressTag>) -> BatchRun) {
    forall urls, progress {:trigger batch(urls, progress)} :: Count(p, batch(urls, progress).log) == 0
  }

  /** A batch logs no cooldown, no batch report and no completion, whatever its URLs. */
  lemma QuietBatchFn(runs: string -> UrlRun)
    ensures Quiet(IsCooldown, BatchFn(runs))
    ensures Quiet(IsBatchComplete, BatchFn(runs))
    ensures Quiet(IsComplete, BatchFn(runs))
  {
    forall urls, progress ensures
      && Count(IsCooldown, BatchFn(runs)(urls, progress).log) == 0
      && Count(IsBatchComplete, BatchFn(runs)(urls, progress).log) == 0
      && Count(IsComplete, BatchFn(runs)(urls, progress).log) == 0
    {
      BatchLogQuiet(runs, urls, progress);
    }
  }

  lemma TallySplit3<T>(p: T -> bool, a: seq<T>, b: seq<T>, c: seq<T>)
    ensures Count(p, a + b + c) == Count(p, a) + Count(p, b) + Count(p, c)
  {
    CountAppend(p, a + b, c);
    CountAppend(p, a, b);
  }

  lemma CountUpToOne<T>(p: T -> bool, s: seq<T>)
    requires |s| <= 1
    ensures Count(p, s) == if s != [] && p(s[0]) then 1 else 0
  {
    if s != [] {
      CountOne(p, s[0]);
      assert s == [s[0]];
    }
  }

  lemma TailCounts(cb: Callbacks, m: nat, total: nat, products: seq<Products.Product>, rateLimited: seq<RateLimited>,
                   allProducts: nat, allRateLimited: nat)
    ensures Count(IsCooldown, SuperTail(cb, m, total, products, rateLimited, allProducts, allRateLimited))
      == if m < total then 1 else 0
    ensures Count(IsBatchComplete, SuperTail(cb, m, total, products, rateLimited, allProducts, allRateLimited))
      == if cb.onBatchComplete then 1 else 0
    ensures Count(IsComplete, SuperTail(cb, m, total, products, rateLimited, allProducts, allRateLimited)) == 0
  {
    var report: seq<Event> := if cb.onBatchComplete
      then [BatchComplete(m, total, products, rateLimited, allProducts, allRateLimited)] else [];
    var cooldown: seq<Event> := if m < total then [Sleep(SuperBatchDelay)] else [];
    CountAppend(IsCooldown, report, cooldown);
    CountAppend(IsBatchComplete, report, cooldown);
    CountAppend(IsComplete, report, cooldown);
    CountUpToOne(IsCooldown, report);
    CountUpToOne(IsBatchComplete, report);
    CountUpToOne(IsComplete, report);
    CountUpToOne(IsCooldown, cooldown);
    CountUpToOne(IsBatchComplete, cooldown);
    CountUpToOne(IsComplete, cooldown);
  }

  /** The number of cooldowns after the first `m` of `total` super-batches. */
  function CooldownsUpTo(total: nat, m: nat): nat {
    if m == total && m > 0 then m - 1 else m
  }

  lemma CooldownsStep(total: nat, m: nat)
    requires 0 < m <= total
    ensures CooldownsUpTo(total, m) == CooldownsUpTo(total, m - 1) + if m < total then 1 else 0
  {
  }

  /** What super-batch `m` adds to the counts of the log: those of its batch, plus a
      cooldown unless it is the last, plus a report when `onBatchComplete` is registered. */
  lemma SuperStepCooldowns(process: seq<Page> -> seq<Products.Product>,
                           batch: (seq<string>, Option<ProgressTag>) -> BatchRun,
                           cb: Callbacks, batches: seq<seq<string>>, m: nat)
    requires Quiet(IsCooldown, batch)
    requires 0 < m <= |batches|
    ensures Count(IsCooldown, SuperUpTo(process, batch, cb, batches, m).log)
      == Count(IsCooldown, SuperUpTo(process, batch, cb, batches, m - 1).log)
         + (if m < |batches| then 1 else 0)
  {
    var prev := SuperUpTo(process, batch, cb, batches, m - 1);
    var b := batch(batches[m - 1], ProgressOf(cb, m, |batches|));
    var products := process(b.pages);
    var tail := SuperTail(cb, m, |batches|, products, b.rateLimited, |prev.products + products|,
                          |prev.rateLimited + b.rateLimited|);
    TallySplit3(IsCooldown, prev.log, b.log, tail);
    TailCounts(cb, m, |batches|, products, b.rateLimited, |prev.products + products|,
               |prev.rateLimited + b.rateLimited|);
  }

  lemma SuperStepReports(process: seq<Page> -> seq<Products.Product>,
                         batch: (seq<string>, Option<ProgressTag>) -> BatchRun,
                         cb: Callbacks, batches: seq<seq<string>>, m: nat)
    requires Quiet(IsBatchComplete, batch)
    requires 0 < m <= |batches|
    ensures Count(IsBatchComplete, SuperUpTo(process, batch, cb, batches, m).log)
      == Count(IsBatchComplete, SuperUpTo(process, batch, cb, batches, m - 1).log)
         + (if cb.onBatchComplete then 1 else 0)
  {
    var prev := SuperUpTo(process, batch, cb, batches, m - 1);
    var b := batch(batches[m - 1], ProgressOf(cb, m, |batches|));
    var products := process(b.pages);
    var tail := SuperTail(cb, m, |batches|, products, b.rateLimited, |prev.products + products|,
                          |prev.rateLimited + b.rateLimited|);
    TallySplit3(IsBatchComplete, prev.log, b.log, tail);
    TailCounts(cb, m, |batches|, products, b.rateLimited, |prev.products + products|,
               |prev.rateLimited + b.rateLimited|);
  }

  lemma SuperStepCompletions(process: seq<Page> -> seq<Products.Product>,
                             batch: (seq<string>, Option<ProgressTag>) -> BatchRun,
                             cb: Callbacks, batches: seq<seq<string>>, m: nat)
    requires Quiet(IsComplete, batch)
    requires 0 < m <= |batches|
    ensures Count(IsComplete, SuperUpTo(process, batch, cb, batches, m).log)
      == Count(IsComplete, SuperUpTo(process, batch, cb, batches, m - 1).log)
  {
    var prev := SuperUpTo(process, batch, cb, batches, m - 1);
    var b := batch(batches[m - 1], ProgressOf(cb, m, |batches|));
    var products := process(b.pages);
    var tail := SuperTail(cb, m, |batches|, products, b.rateLimited, |prev.products + products|,
                          |prev.rateLimited + b.rateLimited|);
    TallySplit3(IsComplete, prev.log, b.log, tail);
    TailCounts(cb, m, |batches|, products, b.rateLimited, |prev.products + products|,
               |prev.rateLimited + b.rateLimited|);
  }

  /** The first `m` of the super-batches log a cooldown after each one but the last. */
  lemma {:induction false} SuperCooldownTally(process: seq<Page> -> seq<Products.Product>,
                                              batch: (seq<string>, Option<ProgressTag>) -> BatchRun,
                                              cb: Callbacks, batches: seq<seq<string>>, m: nat)
    requires Quiet(IsCooldown, batch)
    requires m <= |batches|
    ensures Count(IsCooldown, SuperUpTo(process, batch, cb, batches, m).log) == CooldownsUpTo(|batches|, m)
  {
    if m > 0 {
      SuperCooldownTally(process, batch, cb, batches, m - 1);
      SuperStepCooldowns(process, batch, cb, batches, m);
      CooldownsStep(|batches|, m);
    }
  }

  /** The first `m` super-batches log a report each when `onBatchComplete` is registered. */
  lemma {:induction false} SuperReportTally(process: seq<Page> -> seq<Products.Product>,
                                            batch: (seq<string>, Option<ProgressTag>) -> BatchRun,
                                            cb: Callbacks, batches: seq<seq<string>>, m: nat)
    requires Quiet(IsBatchComplete, batch)
    requires m <= |batches|
    ensures Count(IsBatchComplete, SuperUpTo(process, batch, cb, batches, m).log) == if cb.onBatchComplete then m else 0
  {
    if m > 0 {
      SuperReportTally(process, batch, cb, batches, m - 1);
      SuperStepReports(process, batch, cb, batches, m);
    }
  }

  /** The super-batches log no completion: that is reported once, after all of them. */
  lemma {:induction false} SuperCompleteTally(process: seq<Page> -> seq<Products.Product>,
                                              batch: (seq<string>, Option<ProgressTag>) -> BatchRun,
                                              cb: Callbacks, batches: seq<seq<string>>, m: nat)
    requires Quiet(IsComplete, batch)
    requires m <= |batches|
    ensures Count(IsComplete, SuperUpTo(process, batch, cb, batches, m).log) == 0
  {
    if m > 0 {
      SuperCompleteTally(process, batch, cb, batches, m - 1);
      SuperStepCompletions(process, batch, cb, batches, m);
    }
  }

  /** A progressive crawl over `n` product URLs reports `ceil(n / 20)` super-batches when
      `onBatchComplete` is registered, cools down between consecutive ones, and ends
      with exactly one completion report, carrying its results, when `onComplete` is
      registered. */
  lemma ProgressiveReport(env: Env, onlyMain: bool, cb: Callbacks, urls: seq<string>)
    requires urls != []
    ensures var r := ProgressiveOver(env, onlyMain, cb, urls);
      var n := (|urls| + SuperBatchSize - 1) / SuperBatchSize;
      && r.result.Crawled?
      && Count(IsCooldown, r.log) == n - 1
      && Count(IsBatchComplete, r.log) == (if cb.onBatchComplete then n else 0)
      && Count(IsComplete, r.log) == (if cb.onComplete then 1 else 0)
      && (cb.onComplete ==> r.log != [] && r.log[|r.log| - 1] == Complete(r.result.products, r.result.rateLimited))
  {
    var batches := Chunks(urls, SuperBatchSize);
    SuperBatchShape(urls);
    var t := SuperUpTo(Process(env), BatchFn(Runs(env.scrape, onlyMain)), cb, batches, |batches|);
    QuietBatchFn(Runs(env.scrape, onlyMain));
    SuperCooldownTally(Process(env), BatchFn(Runs(env.scrape, onlyMain)), cb, batches, |batches|);
    SuperReportTally(Process(env), BatchFn(Runs(env.scrape, onlyMain)), cb, batches, |batches|);
    SuperCompleteTally(Process(env), BatchFn(Runs(env.scrape, onlyMain)), cb, batches, |batches|);
    var done := if cb.onComplete then [Complete(t.products, t.rateLimited)] else [];
    assert ProgressiveOver(env, onlyMain, cb, urls).log == t.log + done;
    CountAppend(IsCooldown, t.log, done);
    CountAppend(IsBatchComplete, t.log, done);
    CountAppend(IsComplete, t.log, done);
    CountUpToOne(IsCooldown, done);
    CountUpToOne(IsBatchComplete, done);
    CountUpToOne(IsComplete, done);
  }

  /** Outside "fast" mode the progressive crawl finds what the one-shot crawl finds: the
      same failure, no products where it finds none, and otherwise the same products
      and the same rate-limited URLs in the same order. */
  lemma ProgressiveMatchesOneShot(env: Env, categories: seq<string>, maxProducts: real, sortBy: Option<string>,
                                  crawlMode: string, cb: Callbacks)
    requires crawlMode != "fast"
    ensures var one := CrawlSpec(env, categories, maxProducts, sortBy).result;
      var prog := ProgressiveSpec(env, categories, maxProducts, sortBy, crawlMode, cb).result;
      && (one.Failed? ==> prog == one)
      && (one.NoProducts? ==> prog == Crawled([], []))
      && (one.Crawled? ==>
            prog.Crawled? && prog.products == one.products && UrlsOf(prog.rateLimited) == UrlsOf(one.rateLimited))
  {
    match env.listing(Discovery.GetCategoryUrl(categories, sortBy))
    case Err(e) =>
    case Ok(markdown) =>
      var urls := Discovery.ProductUrls(OrEmpty(markdown), maxProducts);
      if urls != [] {
        ProgressiveOverAll(env, cb, urls);
        BatchesAgree(Runs(env.scrape, false));
      }
  }

  /** Taken together, the super-batches of a progressive crawl over `urls` yield the
      products of all the pages loaded from `urls` and the URLs set aside among them. */
  lemma ProgressiveOverAll(env: Env, cb: Callbacks, urls: seq<string>)
    requires urls != []
    ensures ProgressiveOver(env, false, cb, urls).result.Crawled?
    ensures ProgressiveOver(env, false, cb, urls).result.products
      == Products.ProductsOf(LoadedPages(Runs(env.scrape, false), urls), env.scrapeLinkedIn, env.currentYear)
    ensures UrlsOf(ProgressiveOver(env, false, cb, urls).result.rateLimited)
      == UrlsOf(SetAsideOf(Runs(env.scrape, false), urls))
  {
    var runs := Runs(env.scrape, false);
    var batches := Chunks(urls, SuperBatchSize);
    SuperBatchShape(urls);
    ProcessAgrees(env);
    BatchesAgree(runs);
    SuperTotals(env, Process(env), runs, BatchFn(runs), cb, batches, |batches|);
    assert batches[..|batches|] == batches;
  }

  /** Super-batch m adds its batch's rate-limited entries after the earlier ones. */
  lemma SuperStepRateLimited(process: seq<Page> -> seq<Products.Product>,
                             batch: (seq<string>, Option<ProgressTag>) -> BatchRun, cb: Callbacks, batches: seq<seq<string>>, m: nat)
    requires 0 < m <= |batches|
    ensures SuperUpTo(process, batch, cb, batches, m).rateLimited
      == SuperUpTo(process, batch, cb, batches, m - 1).rateLimited + batch(batches[m - 1], ProgressOf(cb, m, |batches|)).rateLimited
  {
  }

  /** Every entry's position lies in [1, n]. */
  predicate IndicesWithin(rs: seq<RateLimited>, n: nat) {
    forall k :: 0 <= k < |rs| ==> 1 <= rs[k].index <= n
  }

  lemma IndicesWithinAppend(a: seq<RateLimited>, b: seq<RateLimited>, n: nat)
    requires IndicesWithin(a, n) && IndicesWithin(b, n)
    ensures IndicesWithin(a + b, n)
  {
    forall k | 0 <= k < |a + b| ensures 1 <= (a + b)[k].index <= n {
      if k >= |a| {
        assert (a + b)[k] == b[k - |a|];
      }
    }
  }

  /** A batch's set-aside positions lie within the batch. */
  lemma SetAsideWithin(runs: string -> UrlRun, urls: seq<string>, n: nat)
    requires |urls| <= n
    ensures IndicesWithin(SetAsideOf(runs, urls), n)
  {
    SetAsideIndices(runs, urls);
    forall k | 0 <= k < |SetAsideOf(runs, urls)| ensures 1 <= SetAsideOf(runs, urls)[k].index <= n {
      assert SetAsideEntry(runs, urls, SetAsideOf(runs, urls)[k]);
    }
  }

  /** In a progressive crawl a rate-limited URL's position counts from the start of its
      super-batch, so it never exceeds twenty. */
  lemma {:induction false} SuperIndicesLocal(process: seq<Page> -> seq<Products.Product>, runs: string -> UrlRun,
                                             batch: (seq<string>, Option<ProgressTag>) -> BatchRun, cb: Callbacks, batches: seq<seq<string>>, m: nat)
    requires Batches(batch, runs)
    requires m <= |batches|
    requires forall k :: 0 <= k < |batches| ==> |batches[k]| <= SuperBatchSize
    ensures IndicesWithin(SuperUpTo(process, batch, cb, batches, m).rateLimited, SuperBatchSize)
  {
    if m > 0 {
      SuperIndicesLocal(process, runs, batch, cb, batches, m - 1);
      var progress := ProgressOf(cb, m, |batches|);
      assert batch(batches[m - 1], progress) == BatchOf(runs, batches[m - 1], progress);
      SetAsideWithin(runs, batches[m - 1], SuperBatchSize);
      SuperStepRateLimited(process, batch, cb, batches, m);
      IndicesWithinAppend(SuperUpTo(process, batch, cb, batches, m - 1).rateLimited,
                          batch(batches[m - 1], progress).rateLimited, SuperBatchSize);
    }
  }

  lemma ProgressiveIndicesLocal(env: Env, categories: seq<string>, maxProducts: real, sortBy: Option<string>,
                                crawlMode: string, cb: Callbacks)
    ensures var r := ProgressiveSpec(env, categories, maxProducts, sortBy, crawlMode, cb).result;
      r.Crawled? ==> forall k :: 0 <= k < |r.rateLimited| ==> 1 <= r.rateLimited[k].index <= SuperBatchSize
  {
    match env.listing(Discovery.GetCategoryUrl(categories, sortBy))
    case Err(e) =>
    case Ok(markdown) =>
      var urls := Discovery.ProductUrls(OrEmpty(markdown), maxProducts);
      if urls != [] {
        var batches := Chunks(urls, SuperBatchSize);
        SuperBatchShape(urls);
        var runs := Runs(env.scrape, crawlMode == "fast");
        BatchesAgree(runs);
        SuperIndicesLocal(Process(env), runs, BatchFn(runs), cb, batches, |batches|);
      }
  }
}
