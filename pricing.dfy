/**
 * `extractPricingTiers` (appsumo-crawler.js:440-552): tier names from the content,
 * priced from the HTML (Strategy 1); failing that, the "One time payment of" sections
 * of the HTML (Strategy 2); then a sort by tier number and the lifetime and regular
 * prices, with the standalone `$X/lifetime` and `$X regular` prices as the last resort.
 */
module Pricing {
  import opened Wrappers
  import opened Text
  import opened Pages

  datatype Tier = Tier(tier: string, name: string, price: string, regular: Option<string>)

  datatype Pricing = Pricing(lifetime: Option<string>, regular: Option<string>, tiers: seq<Tier>)

  /** `$${p}` for an optional price. */
  function Dollars(p: Option<string>): (r: Option<string>)
    ensures r.Some? <==> p.Some?
    ensures r.Some? ==> r.value == "$" + p.value
  {
    match p
    case None => None
    case Some(v) => Some("$" + v)
  }

  // ---------------------------------------------------------------- Strategy 1

  /** `tierName.match(/(\d+)/)`, else the name itself (lines 482-483). */
  function TierOfName(name: string): (r: string)
    ensures FirstDigitRun(name).Some? ==> r == FirstDigitRun(name).value && AllDigits(r)
    ensures FirstDigitRun(name).None? ==> r == name
  {
    match FirstDigitRun(name)
    case Some(d) => d
    case None => name
  }

  /** The tiers Strategy 1 pushes for the de-duplicated names, in order: one per name the
      HTML pattern of line 478 prices. */
  function Strategy1(names: seq<string>, prices: map<string, string>): (r: seq<Tier>)
    ensures |r| <= |names|
  {
    if names == [] then []
    else
      var init := Strategy1(names[..|names| - 1], prices);
      var name := names[|names| - 1];
      if name in prices then init + [Tier(TierOfName(name), name, "$" + prices[name], None)] else init
  }

  // ---------------------------------------------------------------- Strategy 2

  /** The four words of `/(?:Tier|Plan|Code|License)\s*(\d+)/i`, lower-cased. */
  const TierWords: seq<string> := ["tier", "plan", "code", "license"]

  /** Word number w of TierWords occurs at p, in any case. */
  predicate TierWordAt(s: string, p: nat, w: nat)
    requires w < |TierWords|
  {
    p + |TierWords[w]| <= |s| && Lower(s[p..p + |TierWords[w]|]) == TierWords[w]
  }

  /** Group 1 of a match of `/(?:Tier|Plan|Code|License)\s*(\d+)/i` starting at p: the
      words start with different letters, so at most one of them is at p; the greedy
      white space is followed by a non-empty run of digits. */
  function TierNumberAt(s: string, p: nat): (r: Option<string>)
    ensures r.Some? ==> r.value != [] && AllDigits(r.value)
  {
    if p > |s| then None
    else
      var w := if TierWordAt(s, p, 0) then 0 else if TierWordAt(s, p, 1) then 1
        else if TierWordAt(s, p, 2) then 2 else if TierWordAt(s, p, 3) then 3 else 4;
      if w == 4 then None
      else
        var q := p + |TierWords[w]|;
        var d := LeadingDigits(s[q + SpaceRun(s[q..])..]);
        if d == [] then None else Some(d)
  }

  /** The leftmost match from position p on. */
  function TierNumberFrom(s: string, p: nat): (r: Option<string>)
    ensures r.Some? ==> r.value != [] && AllDigits(r.value)
    ensures r.None? ==> forall q :: p <= q <= |s| ==> TierNumberAt(s, q).None?
    decreases |s| + 1 - p
  {
    if p > |s| then None
    else if TierNumberAt(s, p).Some? then TierNumberAt(s, p)
    else TierNumberFrom(s, p + 1)
  }

  /** The leftmost match from p on is at q: TierNumberFrom gives the number of the match at
      the first position where the pattern matches. */
  lemma {:induction false} TierNumberFromAt(s: string, p: nat, q: nat)
    requires p <= q <= |s| && TierNumberAt(s, q).Some?
    requires forall k :: p <= k < q ==> TierNumberAt(s, k).None?
    ensures TierNumberFrom(s, p) == TierNumberAt(s, q)
    decreases q - p
  {
    if p < q {
      TierNumberFromAt(s, p + 1, q);
    }
  }

  /** The tier number of a Strategy 2 tier named `name`, `count` tiers having been pushed
      before it (line 519). */
  function SectionNumber(name: string, count: nat): (r: string)
    ensures r != [] && AllDigits(r)
  {
    match TierNumberFrom(name, 0)
    case Some(d) => d
    case None => NatToString(count + 1)
  }

  /** What section i of the split offers, `count` tiers having been pushed before it
      (lines 499-529): a tier when both its name and its price are there. */
  function SectionTier(sec: PaymentSection, count: nat): (r: Option<Tier>)
    ensures r.Some? <==> Truthy(sec.price) && sec.tierName.Some? && Trim(sec.tierName.value) != []
    ensures r.Some? ==> r.value.name == Trim(sec.tierName.value)
    ensures r.Some? ==> r.value.tier == SectionNumber(r.value.name, count)
    ensures r.Some? ==> r.value.price == "$" + sec.price.value && r.value.regular == Dollars(sec.regular)
  {
    if !Truthy(sec.price) || sec.tierName.None? then None
    else
      var name := Trim(sec.tierName.value);
      if name == [] then None
      else Some(Tier(SectionNumber(name, count), name, "$" + sec.price.value, Dollars(sec.regular)))
  }

  /** The tiers Strategy 2 pushes, section by section. */
  function Strategy2(sections: seq<PaymentSection>): (r: seq<Tier>)
    ensures |r| <= |sections|
  {
    if sections == [] then []
    else
      var init := Strategy2(sections[..|sections| - 1]);
      match SectionTier(sections[|sections| - 1], |init|)
      case Some(t) => init + [t]
      case None => init
  }

  // ---------------------------------------------------------------- sort

  /** `parseInt(t.tier)`; None stands for NaN. */
  function Key(t: Tier): Option<int> {
    ParseInt(t.tier)
  }

  /** The comparator of line 532 over keys: a NaN difference counts as "equal". */
  function CompareBy<T>(key: T -> Option<int>, a: T, b: T): int {
    if key(a).Some? && key(b).Some? then key(a).value - key(b).value else 0
  }

  /** Inserts x after every element that does not compare greater than it. */
  function InsertBy<T>(key: T -> Option<int>, x: T, s: seq<T>): (r: seq<T>)
    ensures |r| == |s| + 1
    ensures multiset(r) == multiset(s) + multiset{x}
  {
    if s == [] then [x]
    else if CompareBy(key, x, s[0]) < 0 then [x] + s
    else
      assert s == [s[0]] + s[1..];
      [s[0]] + InsertBy(key, x, s[1..])
  }

  /** `array.sort(comparator)` as a stable insertion sort. */
  function SortBy<T>(key: T -> Option<int>, s: seq<T>): (r: seq<T>)
    ensures |r| == |s|
  {
    if s == [] then [] else InsertBy(key, s[|s| - 1], SortBy(key, s[..|s| - 1]))
  }

  /** `tiers.sort((a, b) => parseInt(a.tier) - parseInt(b.tier))`. */
  function SortTiers(s: seq<Tier>): (r: seq<Tier>)
    ensures |r| == |s|
  {
    SortBy(Key, s)
  }

  predicate AllKeyed<T>(key: T -> Option<int>, s: seq<T>) {
    forall k :: 0 <= k < |s| ==> key(s[k]).Some?
  }

  predicate SortedBy<T>(key: T -> Option<int>, s: seq<T>)
    requires AllKeyed(key, s)
  {
    forall i, j :: 0 <= i < j < |s| ==> key(s[i]).value <= key(s[j]).value
  }

  predicate AllNumeric(s: seq<Tier>) {
    AllKeyed(Key, s)
  }

  predicate SortedByTier(s: seq<Tier>)
    requires AllNumeric(s)
  {
    SortedBy(Key, s)
  }

  // ---------------------------------------------------------------- the whole extractor

  /** The tiers before sorting: Strategy 1 when the HTML is there and the content names a
      tier, then Strategy 2 when Strategy 1 pushed nothing and the HTML is there. */
  function UnsortedTiers(page: Page): seq<Tier> {
    var html := OrEmpty(page.html);
    var names := Dedup(ContentScan(page).tierNameMatches);
    var s1 := if |names| > 0 && html != "" then Strategy1(names, page.htmlParts.tierPrices) else [];
    if |s1| == 0 && html != "" then Strategy2(page.htmlParts.paymentSections) else s1
  }

  /** The value `extractPricingTiers(page)` returns. */
  function PricingOf(page: Page): Pricing {
    var tiers := SortTiers(UnsortedTiers(page));
    if |tiers| > 0 then Pricing(Some(tiers[0].price), tiers[0].regular, tiers)
    else Pricing(Dollars(ContentScan(page).lifetimePrice), Dollars(ContentScan(page).regularPrice), [])
  }

  /** The `Set` of tier names of lines 461-468, in insertion order. */
  method CollectTierNames(matches: seq<string>) returns (names: seq<string>)
    ensures names == Dedup(matches)
  {
    names := [];
    var i := 0;
    while i < |matches|
      invariant 0 <= i <= |matches|
      invariant names == Dedup(matches[..i])
    {
      assert matches[..i + 1][..i] == matches[..i];
      if matches[i] !in names {
        names := names + [matches[i]];
      }
      i := i + 1;
    }
    assert matches[..|matches|] == matches;
  }

  /** The Strategy 1 loop of lines 474-490. */
  method PriceNamedTiers(names: seq<string>, prices: map<string, string>) returns (tiers: seq<Tier>)
    ensures tiers == Strategy1(names, prices)
  {
    tiers := [];
    var j := 0;
    while j < |names|
      invariant 0 <= j <= |names|
      invariant tiers == Strategy1(names[..j], prices)
    {
      assert names[..j + 1] == names[..j] + [names[j]];
      Strategy1Append(names[..j], names[j], prices);
      var tierName := names[j];
      if tierName in prices {
        tiers := tiers + [Tier(TierOfName(tierName), tierName, "$" + prices[tierName], None)];
      }
      j := j + 1;
    }
    assert names[..|names|] == names;
  }

  /** The Strategy 2 loop of lines 497-529. */
  method PriceSections(sections: seq<PaymentSection>) returns (tiers: seq<Tier>)
    ensures tiers == Strategy2(sections)
  {
    tiers := [];
    var j := 0;
    while j < |sections|
      invariant 0 <= j <= |sections|
      invariant tiers == Strategy2(sections[..j])
    {
      Strategy2Next(sections, j);
      var t := SectionTier(sections[j], |tiers|);
      if t.Some? {
        tiers := tiers + [t.value];
      }
      j := j + 1;
    }
    assert sections[..|sections|] == sections;
  }

  /** `extractPricingTiers(page)`: the two strategies, the sort, and the lifetime and regular prices. */
  method ExtractPricingTiers(page: Page) returns (pricing: Pricing)
    ensures pricing == PricingOf(page)
  {
    var html := OrEmpty(page.html);
    var scan := ContentScan(page);
    var foundTierNames := CollectTierNames(scan.tierNameMatches);
    var tiers: seq<Tier> := [];
    if |foundTierNames| > 0 && html != "" {
      tiers := PriceNamedTiers(foundTierNames, page.htmlParts.tierPrices);
    }
    if |tiers| == 0 && html != "" {
      tiers := PriceSections(page.htmlParts.paymentSections);
    }
    assert tiers == UnsortedTiers(page);
    tiers := SortTiers(tiers);
    if |tiers| > 0 {
      pricing := Pricing(Some(tiers[0].price), tiers[0].regular, tiers);
    } else {
      pricing := Pricing(Dollars(scan.lifetimePrice), Dollars(scan.regularPrice), []);
    }
  }

  // ---------------------------------------------------------------- properties

  /** Sorting keeps exactly the elements it was given. */
  lemma {:induction false} SortByPermutation<T>(key: T -> Option<int>, s: seq<T>)
    ensures multiset(SortBy(key, s)) == multiset(s)
  {
    if s != [] {
      SortByPermutation(key, s[..|s| - 1]);
      assert s == s[..|s| - 1] + [s[|s| - 1]];
    }
  }

  /** Inserting keeps every element at or above a lower bound of the keys. */
  lemma {:induction false} InsertByLowerBound<T>(key: T -> Option<int>, x: T, s: seq<T>, b: int)
    requires key(x).Some? && key(x).value >= b
    requires forall k :: 0 <= k < |s| ==> key(s[k]).Some? && key(s[k]).value >= b
    ensures forall k :: 0 <= k < |InsertBy(key, x, s)| ==>
      key(InsertBy(key, x, s)[k]).Some? && key(InsertBy(key, x, s)[k]).value >= b
  {
    if s != [] && CompareBy(key, x, s[0]) >= 0 {
      InsertByLowerBound(key, x, s[1..], b);
      var t := InsertBy(key, x, s[1..]);
      assert forall k :: 1 <= k < |t| + 1 ==> InsertBy(key, x, s)[k] == t[k - 1];
    }
  }

  lemma {:induction false} InsertBySorted<T>(key: T -> Option<int>, x: T, s: seq<T>)
    requires key(x).Some? && AllKeyed(key, s) && SortedBy(key, s)
    ensures AllKeyed(key, InsertBy(key, x, s)) && SortedBy(key, InsertBy(key, x, s))
  {
    var r := InsertBy(key, x, s);
    if s == [] {
    } else if CompareBy(key, x, s[0]) < 0 {
      assert r == [x] + s;
      assert forall k :: 1 <= k < |r| ==> r[k] == s[k - 1];
    } else {
      var tail := s[1..];
      assert forall k :: 0 <= k < |tail| ==> tail[k] == s[k + 1];
      InsertBySorted(key, x, tail);
      InsertByLowerBound(key, x, tail, key(s[0]).value);
      var t := InsertBy(key, x, tail);
      assert r == [s[0]] + t;
      assert forall k :: 1 <= k < |r| ==> r[k] == t[k - 1];
    }
  }

  /** When every key is a number the result is ascending by key. */
  lemma {:induction false} SortBySorted<T>(key: T -> Option<int>, s: seq<T>)
    requires AllKeyed(key, s)
    ensures AllKeyed(key, SortBy(key, s)) && SortedBy(key, SortBy(key, s))
  {
    if s != [] {
      var init := s[..|s| - 1];
      assert AllKeyed(key, init) by {
        forall k | 0 <= k < |init| ensures key(init[k]).Some? { assert init[k] == s[k]; }
      }
      SortBySorted(key, init);
      InsertBySorted(key, s[|s| - 1], SortBy(key, init));
    }
  }

  /** The sorted tiers are the tiers that were pushed, and, when every tier number parses,
      they are ascending by tier number. */
  lemma SortTiersCorrect(s: seq<Tier>)
    ensures multiset(SortTiers(s)) == multiset(s)
    ensures AllNumeric(s) ==> AllNumeric(SortTiers(s)) && SortedByTier(SortTiers(s))
  {
    SortByPermutation(Key, s);
    if AllNumeric(s) {
      SortBySorted(Key, s);
    }
  }

  /** Strategy 2 is consulted only when Strategy 1 pushed nothing and the HTML is there; with
      no HTML there are no tiers at all. */
  lemma Strategy2OnlyAsFallback(page: Page)
    ensures var names := Dedup(ContentScan(page).tierNameMatches);
      var s1 := Strategy1(names, page.htmlParts.tierPrices);
      && (!Truthy(page.html) ==> UnsortedTiers(page) == [])
      && (Truthy(page.html) && |s1| > 0 ==> UnsortedTiers(page) == s1)
      && (Truthy(page.html) && |s1| == 0 ==> UnsortedTiers(page) == Strategy2(page.htmlParts.paymentSections))
  {
  }

  /** With tiers, the lifetime and regular prices are the first sorted tier's, whatever the
      standalone patterns found; without tiers they are the standalone prices. */
  lemma LifetimeFromFirstTier(page: Page)
    ensures var p := PricingOf(page);
      && multiset(p.tiers) == multiset(UnsortedTiers(page))
      && (|p.tiers| > 0 ==> p.lifetime == Some(p.tiers[0].price) && p.regular == p.tiers[0].regular)
      && (|UnsortedTiers(page)| == 0 ==>
            p.lifetime == Dollars(ContentScan(page).lifetimePrice) && p.regular == Dollars(ContentScan(page).regularPrice))
  {
    SortTiersCorrect(UnsortedTiers(page));
  }

  /** When every tier number parses, the lifetime price is that of a tier with the lowest
      tier number. */
  lemma LifetimeIsLowestTier(page: Page)
    requires |UnsortedTiers(page)| > 0 && AllNumeric(UnsortedTiers(page))
    ensures var u := UnsortedTiers(page);
      exists k :: 0 <= k < |u| && PricingOf(page).lifetime == Some(u[k].price)
        && forall j :: 0 <= j < |u| ==> Key(u[k]).value <= Key(u[j]).value
  {
    var u := UnsortedTiers(page);
    LowestFirst(u);
  }

  /** The first sorted tier has the lowest tier number. */
  lemma LowestFirst(u: seq<Tier>)
    requires |u| > 0 && AllNumeric(u)
    ensures exists k ::
      0 <= k < |u| && SortTiers(u)[0] == u[k] && forall j :: 0 <= j < |u| ==> Key(u[k]).value <= Key(u[j]).value
  {
    var s := SortTiers(u);
    SortTiersCorrect(u);
    assert forall m :: 0 <= m < |s| ==> Key(s[0]).value <= Key(s[m]).value by {
      assert SortedBy(Key, s);
    }
    assert s[0] in multiset(u);
    var k :| 0 <= k < |u| && u[k] == s[0];
    forall j | 0 <= j < |u| ensures Key(u[k]).value <= Key(u[j]).value {
      assert u[j] in multiset(s);
      var m :| 0 <= m < |s| && s[m] == u[j];
    }
  }

  /** Each Strategy 1 tier is a distinct name from the content, priced by the HTML pattern for
      that name and numbered by the name's first run of digits. */
  lemma {:induction false} Strategy1Tiers(names: seq<string>, prices: map<string, string>)
    ensures forall k :: 0 <= k < |Strategy1(names, prices)| ==>
      var t := Strategy1(names, prices)[k];
      t.name in names && t.name in prices && t.price == "$" + prices[t.name]
        && t.tier == TierOfName(t.name) && t.regular.None?
  {
    if names != [] {
      var init := names[..|names| - 1];
      Strategy1Tiers(init, prices);
      assert forall x :: x in init ==> x in names;
    }
  }

  /** Strategy 1 goes name by name: one more name adds its tier at the end when the HTML
      pattern prices it, and nothing otherwise. */
  lemma Strategy1Append(names: seq<string>, n: string, prices: map<string, string>)
    ensures Strategy1(names + [n], prices) == Strategy1(names, prices)
      + (if n in prices then [Tier(TierOfName(n), n, "$" + prices[n], None)] else [])
  {
    assert (names + [n])[..|names|] == names;
  }

  /** No priced name is missed: every name the HTML pattern prices has its tier among the
      Strategy 1 tiers, and the tiers are empty exactly when no name is priced. */
  lemma {:induction false} Strategy1Complete(names: seq<string>, prices: map<string, string>)
    ensures forall k :: 0 <= k < |names| && names[k] in prices ==>
      Tier(TierOfName(names[k]), names[k], "$" + prices[names[k]], None) in Strategy1(names, prices)
    ensures Strategy1(names, prices) == [] <==> forall k :: 0 <= k < |names| ==> names[k] !in prices
  {
    if names != [] {
      var init := names[..|names| - 1];
      Strategy1Complete(init, prices);
      assert forall k :: 0 <= k < |init| ==> init[k] == names[k];
    }
  }

  /** Strategy 2 goes section by section: one more section adds its tier at the end, numbered
      after the tiers before it, when it has both a name and a price. */
  lemma Strategy2Append(sections: seq<PaymentSection>, sec: PaymentSection)
    ensures Strategy2(sections + [sec]) == Strategy2(sections)
      + (match SectionTier(sec, |Strategy2(sections)|) case Some(t) => [t] case None => [])
  {
    assert (sections + [sec])[..|sections|] == sections;
  }

  /** One more section of the same list: the step of the Strategy 2 loop. */
  lemma Strategy2Next(sections: seq<PaymentSection>, j: nat)
    requires j < |sections|
    ensures Strategy2(sections[..j + 1]) == Strategy2(sections[..j])
      + (match SectionTier(sections[j], |Strategy2(sections[..j])|) case Some(t) => [t] case None => [])
  {
    assert sections[..j + 1] == sections[..j] + [sections[j]];
    Strategy2Append(sections[..j], sections[j]);
  }

  /** Strategy 2 finds no tier exactly when no section has both a name and a price. */
  lemma {:induction false} Strategy2Empty(sections: seq<PaymentSection>)
    ensures Strategy2(sections) == [] <==> forall k :: 0 <= k < |sections| ==> SectionTier(sections[k], 0).None?
  {
    if sections != [] {
      var init := sections[..|sections| - 1];
      Strategy2Empty(init);
      assert forall k :: 0 <= k < |init| ==> init[k] == sections[k];
      var last := sections[|sections| - 1];
      assert sections == init + [last];
      Strategy2Append(init, last);
      assert SectionTier(last, 0).None? <==> SectionTier(last, |Strategy2(init)|).None?;
    }
  }

  /** A Strategy 2 tier without a tier word in its name is numbered by its position: the k-th
      tier pushed gets String(k + 1). */
  lemma {:induction false} Strategy2Numbering(sections: seq<PaymentSection>)
    ensures forall k :: 0 <= k < |Strategy2(sections)| ==>
      var t := Strategy2(sections)[k];
      t.tier == SectionNumber(t.name, k)
  {
    if sections != [] {
      var init := sections[..|sections| - 1];
      Strategy2Numbering(init);
      assert sections == init + [sections[|sections| - 1]];
      Strategy2Append(init, sections[|sections| - 1]);
    }
  }

  /** "Tier 2" is numbered 2. */
  lemma TierNumberExample()
    ensures TierNumberFrom("Tier 2", 0) == Some("2")
  {
    var s := "Tier 2";
    assert s[0..4] == "Tier";
    assert Lower("Tier") == "tier";
    assert s[4..] == " 2" && SpaceRun(" 2") == 1 by { assert " 2"[1..] == "2"; }
    assert s[5..] == "2" && LeadingDigits("2") == "2" by { assert "2"[1..] == []; }
  }

  lemma LicenseTierExample()
    ensures TierNumberAt("License Tier 3", 0).None?
  {
    var t := "License Tier 3";
    LicenseWordFirst(t);
    assert t[7..] == " Tier 3" && SpaceRun(" Tier 3") == 1 by { assert " Tier 3"[1..] == "Tier 3"; }
    assert t[8..] == "Tier 3" && LeadingDigits("Tier 3") == [];
  }

  /** "License" is the tier word at the start of "License Tier 3". */
  lemma LicenseWordFirst(t: string)
    requires t == "License Tier 3"
    ensures !TierWordAt(t, 0, 0) && !TierWordAt(t, 0, 1) && !TierWordAt(t, 0, 2) && TierWordAt(t, 0, 3)
  {
    assert Lower(t[0..4])[0] == 'l';
    assert t[0..7] == "License";
    assert Lower("License") == "license";
  }

  /** No tier word starts at p when s[p], lower-cased, is not the word's first letter. */
  lemma NotTierWordAt(s: string, p: nat, w: nat)
    requires p < |s| && w < |TierWords| && LowerChar(s[p]) != TierWords[w][0]
    ensures !TierWordAt(s, p, w)
  {
    assert p + |TierWords[w]| <= |s| ==> Lower(s[p..p + |TierWords[w]|])[0] == LowerChar(s[p]);
  }

  /** No tier word of those starting with 't', 'p', 'c' or 'l' starts at p. */
  lemma NoTierWordAt(s: string, p: nat)
    requires p < |s| && LowerChar(s[p]) != 't' && LowerChar(s[p]) != 'p'
    requires LowerChar(s[p]) != 'c' && LowerChar(s[p]) != 'l'
    ensures TierNumberAt(s, p).None?
  {
    NotTierWordAt(s, p, 0);
    NotTierWordAt(s, p, 1);
    NotTierWordAt(s, p, 2);
    NotTierWordAt(s, p, 3);
  }

  /** "License Tier 3" is numbered 3: the pattern does not match at "License", which no digit
      follows, nor anywhere before "Tier 3". */
  lemma LicenseTierNumber()
    ensures TierNumberFrom("License Tier 3", 0) == Some("3")
  {
    var t := "License Tier 3";
    forall k | 0 <= k < 8 ensures TierNumberAt(t, k).None? {
      NoMatchBeforeTier(t, k);
    }
    SecondWordTier(t);
    TierNumberFromAt(t, 0, 8);
  }

  /** The pattern matches at none of the first eight positions of "License Tier 3". */
  lemma NoMatchBeforeTier(t: string, k: nat)
    requires t == "License Tier 3" && k < 8
    ensures TierNumberAt(t, k).None?
  {
    if k == 0 {
      LicenseTierExample();
    } else if k == 2 {
      NoMatchInCens(t);
    } else {
      NoTierWordAt(t, k);
    }
  }

  /** "cens" at position 2 is not "code". */
  lemma NoMatchInCens(t: string)
    requires t == "License Tier 3"
    ensures TierNumberAt(t, 2).None?
  {
    NotTierWordAt(t, 2, 0);
    NotTierWordAt(t, 2, 1);
    NotTierWordAt(t, 2, 3);
    assert t[2..6] == "cens";
    assert Lower("cens")[1] == 'e';
  }

  lemma SecondWordTier(t: string)
    requires t == "License Tier 3"
    ensures TierNumberAt(t, 8) == Some("3")
  {
    assert t[8..12] == "Tier";
    assert Lower("Tier") == "tier";
    assert t[12..] == " 3" && SpaceRun(" 3") == 1 by { assert " 3"[1..] == "3"; }
    assert t[13..] == "3" && LeadingDigits("3") == "3" by { assert "3"[1..] == []; }
  }
}
