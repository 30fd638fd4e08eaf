/**
 * `processProducts` (appsumo-crawler.js:331-378): one product record per scraped page
 * whose source URL contains "/products/", in page order.
 *
 * The `targetCategories` argument is never read by the source and is not a parameter
 * here. The LinkedIn profile scrape of the founder chain is the oracle `scrapeLinkedIn`
 * (URL to the validated name it yields, if any); the current year is a parameter.
 */
module Products {
  import opened Wrappers
  import opened Text
  import opened Pages
  import Discovery
  import Fields
  import Pricing
  import Founder

  datatype Product = Product(
    name: string,
    url: Option<string>,
    summary: string,
    description: string,
    pricing: Pricing.Pricing,
    rating: Option<real>,
    reviews: Option<int>,
    homepage: Option<string>,
    founder: Option<string>,
    founderLinkedIn: Option<string>,
    founderAppSumoProfile: Option<string>,
    foundingDate: Option<string>,
    categories: seq<string>
  )

  /** `page.metadata?.sourceURL?.includes('/products/')`, case-sensitive. */
  predicate IsProductPage(page: Page) {
    SourceUrl(page).Some? && Contains(SourceUrl(page).value, "/products/")
  }

  /** `extractProductName(sourceURL) || title || 'Unknown Product'`. */
  function ProductName(page: Page): (r: string)
    ensures r != []
    ensures Fields.ExtractProductName(SourceUrl(page)).Some? ==> r == Fields.ExtractProductName(SourceUrl(page)).value
    ensures Fields.ExtractProductName(SourceUrl(page)).None? && Truthy(Title(page)) ==> r == Title(page).value
    ensures Fields.ExtractProductName(SourceUrl(page)).None? && !Truthy(Title(page)) ==> r == "Unknown Product"
  {
    match Fields.ExtractProductName(SourceUrl(page))
    case Some(n) => n
    case None => if Truthy(Title(page)) then Title(page).value else "Unknown Product"
  }

  /** What the founder chain's LinkedIn scrape yields for the page. */
  function Scraped(page: Page, scrapeLinkedIn: string -> Option<string>): Option<string> {
    match ContentScan(page).linkedInUrl
    case Some(l) => scrapeLinkedIn(l.url)
    case None => None
  }

  /** The record built for a product page (lines 353-367). */
  function ProductOf(page: Page, scrapeLinkedIn: string -> Option<string>, currentYear: int): Product {
    var founderInfo := Founder.ExtractFounderInfo(page, Scraped(page, scrapeLinkedIn));
    Product(
      ProductName(page),
      SourceUrl(page),
      Fields.ExtractSummary(page),
      OrEmpty(Description(page)),
      Pricing.PricingOf(page),
      Fields.ExtractRating(page),
      Fields.ExtractReviews(page),
      Fields.ExtractHomepage(page),
      founderInfo.name,
      founderInfo.linkedIn,
      founderInfo.appSumoProfile,
      Fields.ExtractFoundingDate(page, currentYear),
      Dedup(Fields.KeywordsIn(Lower(Content(page)), Fields.CategoryKeywords)))
  }

  /** The elements of `xs` that `keep` accepts, in order. */
  function Filter<T>(keep: T -> bool, xs: seq<T>): (r: seq<T>)
    ensures |r| <= |xs|
    ensures forall k :: 0 <= k < |r| ==> keep(r[k]) && r[k] in xs
  {
    if xs == [] then []
    else
      var init := Filter(keep, xs[..|xs| - 1]);
      var last := xs[|xs| - 1];
      assert forall p :: p in xs[..|xs| - 1] ==> p in xs;
      if keep(last) then init + [last] else init
  }

  /** Filtering a concatenation filters each part: every element contributes itself when
      it is kept and nothing otherwise. */
  lemma {:induction false} FilterAppend<T>(keep: T -> bool, a: seq<T>, b: seq<T>)
    ensures Filter(keep, a + b) == Filter(keep, a) + Filter(keep, b)
    decreases |b|
  {
    if b == [] {
      assert a + b == a;
    } else {
      var b0 := b[..|b| - 1];
      FilterAppend(keep, a, b0);
      assert (a + b)[..|a + b| - 1] == a + b0;
    }
  }

  /** `f` applied to the elements of `xs` that `keep` accepts, in order. */
  function MapFilter<T, U>(f: T -> U, keep: T -> bool, xs: seq<T>): seq<U> {
    if xs == [] then []
    else
      var init := MapFilter(f, keep, xs[..|xs| - 1]);
      var last := xs[|xs| - 1];
      if keep(last) then init + [f(last)] else init
  }

  lemma {:induction false} MapFilterIndex<T, U>(f: T -> U, keep: T -> bool, xs: seq<T>)
    ensures |MapFilter(f, keep, xs)| == |Filter(keep, xs)|
    ensures forall k :: 0 <= k < |Filter(keep, xs)| ==> MapFilter(f, keep, xs)[k] == f(Filter(keep, xs)[k])
  {
    if xs != [] {
      MapFilterIndex(f, keep, xs[..|xs| - 1]);
    }
  }

  lemma {:induction false} MapFilterAppend<T, U>(f: T -> U, keep: T -> bool, a: seq<T>, b: seq<T>)
    ensures MapFilter(f, keep, a + b) == MapFilter(f, keep, a) + MapFilter(f, keep, b)
    decreases |b|
  {
    if b == [] {
      assert a + b == a;
    } else {
      var b0 := b[..|b| - 1];
      MapFilterAppend(f, keep, a, b0);
      assert (a + b)[..|a + b| - 1] == a + b0;
    }
  }

  /** The product pages of a list, in order. */
  function ProductPages(pages: seq<Page>): (r: seq<Page>)
    ensures |r| <= |pages|
    ensures forall k :: 0 <= k < |r| ==> IsProductPage(r[k]) && r[k] in pages
  {
    Filter(IsProductPage, pages)
  }

  /** The record builder of lines 353-367 for a given LinkedIn scrape and year. */
  function Record(scrapeLinkedIn: string -> Option<string>, currentYear: int): Page -> Product {
    p => ProductOf(p, scrapeLinkedIn, currentYear)
  }

  /** The records built for the product pages of a list, in order. */
  function ProductsOf(pages: seq<Page>, scrapeLinkedIn: string -> Option<string>, currentYear: int): seq<Product> {
    MapFilter(Record(scrapeLinkedIn, currentYear), IsProductPage, pages)
  }

  /** `record` builds every page's record as lines 353-367 do. The loop below reasons
      about `record` and not about the record's fields. */
  ghost predicate Records(record: Page -> Product, scrapeLinkedIn: string -> Option<string>, currentYear: int) {
    RecordsEach(record, scrapeLinkedIn, currentYear)
  }

  ghost predicate RecordsEach(record: Page -> Product, scrapeLinkedIn: string -> Option<string>, currentYear: int) {
    forall p {:trigger ProductOf(p, scrapeLinkedIn, currentYear)} :: record(p) == ProductOf(p, scrapeLinkedIn, currentYear)
  }

  lemma RecordsAgree(scrapeLinkedIn: string -> Option<string>, currentYear: int)
    ensures Records(Record(scrapeLinkedIn, currentYear), scrapeLinkedIn, currentYear)
  {
  }

  /** Processing two lists of pages one after the other yields the records of their
      concatenation. */
  lemma ProductsOfAppend(a: seq<Page>, b: seq<Page>, scrapeLinkedIn: string -> Option<string>, currentYear: int)
    ensures ProductsOf(a + b, scrapeLinkedIn, currentYear)
      == ProductsOf(a, scrapeLinkedIn, currentYear) + ProductsOf(b, scrapeLinkedIn, currentYear)
  {
    MapFilterAppend(Record(scrapeLinkedIn, currentYear), IsProductPage, a, b);
  }

  /** The record of one product page (lines 353-367). */
  method BuildProduct(page: Page, scrapeLinkedIn: string -> Option<string>, currentYear: int,
                      ghost record: Page -> Product)
    returns (product: Product)
    requires Records(record, scrapeLinkedIn, currentYear)
    ensures product == record(page)
  {
    var founderInfo := Founder.ExtractFounderInfo(page, Scraped(page, scrapeLinkedIn));
    var pricing := Pricing.ExtractPricingTiers(page);
    var categories := Fields.ExtractCategories(page);
    product := Product(
      ProductName(page),
      SourceUrl(page),
      Fields.ExtractSummary(page),
      OrEmpty(Description(page)),
      pricing,
      Fields.ExtractRating(page),
      Fields.ExtractReviews(page),
      Fields.ExtractHomepage(page),
      founderInfo.name,
      founderInfo.linkedIn,
      founderInfo.appSumoProfile,
      Fields.ExtractFoundingDate(page, currentYear),
      categories);
    assert product == ProductOf(page, scrapeLinkedIn, currentYear);
  }

  /** The loop of lines 341-373: a record for each page whose source URL contains
      "/products/", in page order. */
  method ProcessPages(pages: seq<Page>, scrapeLinkedIn: string -> Option<string>, currentYear: int,
                      ghost record: Page -> Product)
    returns (products: seq<Product>)
    requires Records(record, scrapeLinkedIn, currentYear)
    ensures products == MapFilter(record, IsProductPage, pages)
  {
    products := [];
    var idx := 0;
    while idx < |pages|
      invariant 0 <= idx <= |pages|
      invariant products == MapFilter(record, IsProductPage, pages[..idx])
    {
      var page := pages[idx];
      assert pages[..idx + 1][..idx] == pages[..idx];
      if SourceUrl(page).Some? && Contains(SourceUrl(page).value, "/products/") {
        var product := BuildProduct(page, scrapeLinkedIn, currentYear, record);
        products := products + [product];
      }
      idx := idx + 1;
    }
    assert pages[..|pages|] == pages;
  }

  /** `processProducts(pages)`; None stands for a value that is not an array. */
  method ProcessProducts(pages: Option<seq<Page>>, scrapeLinkedIn: string -> Option<string>, currentYear: int)
    returns (products: seq<Product>)
    ensures pages.None? ==> products == []
    ensures pages.Some? ==> products == ProductsOf(pages.value, scrapeLinkedIn, currentYear)
  {
    if pages.None? {
      return [];
    }
    RecordsAgree(scrapeLinkedIn, currentYear);
    products := ProcessPages(pages.value, scrapeLinkedIn, currentYear, Record(scrapeLinkedIn, currentYear));
  }

  // ---------------------------------------------------------------- properties

  /** One record per product page, the k-th record built from the k-th product page. */
  lemma {:induction false} OneRecordPerProductPage(pages: seq<Page>, scrapeLinkedIn: string -> Option<string>, currentYear: int)
    ensures var r := ProductsOf(pages, scrapeLinkedIn, currentYear);
      |r| == |ProductPages(pages)|
        && forall k :: 0 <= k < |r| ==> r[k] == ProductOf(ProductPages(pages)[k], scrapeLinkedIn, currentYear)
  {
    MapFilterIndex(Record(scrapeLinkedIn, currentYear), IsProductPage, pages);
  }

  /** The product pages of a concatenation are those of each part, in order: every page
      contributes itself when it is a product page and nothing otherwise. */
  lemma {:induction false} ProductPagesAppend(a: seq<Page>, b: seq<Page>)
    ensures ProductPages(a + b) == ProductPages(a) + ProductPages(b)
  {
    FilterAppend(IsProductPage, a, b);
  }

  lemma ProductPagesOne(p: Page)
    ensures ProductPages([p]) == if IsProductPage(p) then [p] else []
  {
    assert [p][..0] == [];
  }

  /** A page whose source URL lacks "/products/" yields no record, so a list of such pages
      yields none; a list of product pages yields one record for each. */
  lemma {:induction false} AllOrNothing(pages: seq<Page>)
    ensures (forall k :: 0 <= k < |pages| ==> !IsProductPage(pages[k])) ==> ProductPages(pages) == []
    ensures (forall k :: 0 <= k < |pages| ==> IsProductPage(pages[k])) ==> ProductPages(pages) == pages
  {
    if pages != [] {
      var init := pages[..|pages| - 1];
      AllOrNothing(init);
      assert pages == init + [pages[|pages| - 1]];
      assert forall k :: 0 <= k < |init| ==> init[k] == pages[k];
    }
  }

  /** A discovered product URL names its product by its upper-cased slug. */
  lemma DiscoveredUrlName(page: Page, slug: string)
    requires |slug| > 0 && Discovery.AllSlugChars(slug)
    requires SourceUrl(page) == Some(Discovery.ProductPrefix + slug)
    ensures IsProductPage(page) && ProductName(page) == Upper(slug)
  {
    Fields.NameOfDiscoveredUrl(slug);
    var u := Discovery.ProductPrefix + slug;
    assert u[19..29] == "/products/";
    OccursAtIff(u, "/products/", 19);
    ContainsFromIff(u, "/products/", 0);
  }
}
