/**
 * `extractFounderInfo` (appsumo-crawler.js:652-959): an ordered chain of strategies
 * over the page's pattern matches, the first that finds a name deciding the result.
 *
 * The secondary scrape of the LinkedIn profile (lines 893-933) is network I/O: its
 * outcome is the parameter `scraped`, the validated name it found or None when it
 * found none or failed.
 */
module Founder {
  import opened Wrappers
  import opened Text
  import opened Pages

  /** The value returned: the name and the two profile URLs, each possibly null. */
  datatype FounderInfo = FounderInfo(name: Option<string>, linkedIn: Option<string>, appSumoProfile: Option<string>)

  const ProfileUrl: string := "https://appsumo.com/profile/"

  // ---------------------------------------------------------------- name tests

  /** The reject words of lines 691-693. */
  const AnchorRejectWords: seq<string> := ["the", "from", "founder", "are", "is", "was", "beyond", "genius",
    "great", "amazing", "best", "team", "company", "recognized", "that",
    "who", "what", "when", "where", "why", "how", "this", "these", "those"]

  /** The reject words of lines 759-760. */
  const HandleRejectWords: seq<string> := ["the", "from", "founder", "are", "is", "was", "beyond", "genius",
    "great", "amazing", "best", "team", "company", "recognized", "that"]

  /** The reject words of lines 799-800: "founders" where the others have "founder". */
  const PhraseRejectWords: seq<string> := ["the", "from", "founders", "are", "is", "was", "beyond", "genius",
    "great", "amazing", "best", "team", "company", "recognized", "that"]

  /** `words.some(word => s.includes(word))`. */
  predicate AnyIn(s: string, words: seq<string>)
    decreases |words|
  {
    words != [] && (Contains(s, words[0]) || AnyIn(s, words[1..]))
  }

  lemma {:induction false} AnyInIff(s: string, words: seq<string>)
    ensures AnyIn(s, words) <==> exists k :: 0 <= k < |words| && Contains(s, words[k])
    decreases |words|
  {
    if words != [] {
      AnyInIff(s, words[1..]);
      assert forall k :: 1 <= k < |words| ==> words[k] == words[1..][k - 1];
    }
  }

  lemma AnyInAt(s: string, words: seq<string>, k: nat)
    requires k < |words| && Contains(s, words[k])
    ensures AnyIn(s, words)
  {
    AnyInIff(s, words);
  }

  /** `[A-Z][a-z]+`. */
  predicate CapWord(w: string) {
    |w| >= 2 && IsUpper(w[0]) && forall k :: 1 <= k < |w| ==> IsLowerLetter(w[k])
  }

  /** `[A-Za-z]+`. */
  predicate LetterWord(w: string) {
    |w| >= 1 && forall k :: 0 <= k < |w| ==> IsLetter(w[k])
  }

  /** `/^[A-Z][a-z]+(?:\s+[A-Z][a-z]+)+$/`: two or more capitalised words separated by white
      space, nothing before or after. A word holds no space, so these are the pieces between
      the runs of white space. */
  predicate IsFullName(s: string) {
    var words := SplitOnSpaces(s);
    |words| >= 2 && forall k :: 0 <= k < |words| ==> CapWord(words[k])
  }

  /** `/^[A-Za-z]+(?:\s+[A-Za-z]+)*$/`: one or more words of letters separated by white space. */
  predicate IsLetterWords(s: string) {
    var words := SplitOnSpaces(s);
    forall k :: 0 <= k < |words| ==> LetterWord(words[k])
  }

  /** `/^[A-Z][a-z]{2,}\s+[A-Z][a-z]{2,}$/`. */
  predicate IsTwoLongNames(s: string) {
    var words := SplitOnSpaces(s);
    |words| == 2 && CapWord(words[0]) && |words[0]| >= 3 && CapWord(words[1]) && |words[1]| >= 3
  }

  /** `p.charAt(0).toUpperCase() + p.slice(1).toLowerCase()`. */
  function Capitalise(p: string): (r: string)
    ensures |r| == |p|
    ensures |p| > 0 ==> r[0] == UpperChar(p[0]) && r[1..] == Lower(p[1..])
  {
    if p == [] then [] else [UpperChar(p[0])] + Lower(p[1..])
  }

  function CapitaliseAll(ps: seq<string>): (r: seq<string>)
    ensures |r| == |ps| && forall k :: 0 <= k < |ps| ==> r[k] == Capitalise(ps[k])
  {
    seq(|ps|, k requires 0 <= k < |ps| => Capitalise(ps[k]))
  }

  /** `s.replace(/c/g, ' ')`. */
  function ReplaceChar(s: string, c: char): (r: string)
    ensures |r| == |s| && forall k :: 0 <= k < |s| ==> r[k] == (if s[k] == c then ' ' else s[k])
  {
    seq(|s|, k requires 0 <= k < |s| => if s[k] == c then ' ' else s[k])
  }

  /** `s.replace(/([a-z])([A-Z])/g, '$1 $2')`: a space between each lower-case letter and the
      capital after it. */
  function SplitCamel(s: string): (r: string)
    ensures |r| >= |s|
    decreases |s|
  {
    if |s| < 2 then s
    else if IsLowerLetter(s[0]) && IsUpper(s[1]) then [s[0], ' ', s[1]] + SplitCamel(s[2..])
    else [s[0]] + SplitCamel(s[1..])
  }

  /** The pieces of s that are not empty: `.filter(p => p.length > 0)`. */
  function NonEmpty(ps: seq<string>): (r: seq<string>)
    ensures |r| <= |ps|
    ensures forall k :: 0 <= k < |r| ==> r[k] != [] && r[k] in ps
  {
    if ps == [] then []
    else
      var rest := NonEmpty(ps[1..]);
      if ps[0] == [] then rest else [ps[0]] + rest
  }

  // ---------------------------------------------------------------- Strategy 1: the HTML

  /** `${firstName} ${lastName}`.trim(). */
  function FullName(d: FounderData): string {
    Trim(d.firstName + " " + d.lastName)
  }

  /** The test of line 668, on the UTF-16 length. */
  predicate FullNameOk(name: string) {
    Utf16Length(name) >= 4 && |Split(name, ' ')| >= 2
  }

  /** The length test counts UTF-16 units: "A \U{1F680}" is three characters but four units,
      so it passes. */
  lemma FullNameCountsUnits()
    ensures FullNameOk("A \U{1F680}")
  {
    var t := "A \U{1F680}";
    assert t[1..] == " \U{1F680}" && t[1..][1..] == "\U{1F680}" && t[1..][1..][1..] == [];
    assert Utf16Length(t) == 4;
    assert t[1] == ' ';
  }

  /** What a profile anchor of pattern 1b gives: its trimmed text when no reject word occurs in
      it and it is a full name of at most 30 UTF-16 units. */
  function AnchorName(a: ProfileAnchor): (r: Option<string>)
    ensures r.Some? ==> r.value == Trim(a.text)
    ensures r.Some? <==> !AnyIn(Lower(Trim(a.text)), AnchorRejectWords) && IsFullName(Trim(a.text)) && Utf16Length(Trim(a.text)) <= 30
  {
    var displayName := Trim(a.text);
    if AnyIn(Lower(displayName), AnchorRejectWords) then None
    else if IsFullName(displayName) && Utf16Length(displayName) <= 30 then Some(displayName)
    else None
  }

  /** What each anchor gives, in order. */
  function AnchorNames(anchors: seq<ProfileAnchor>): (r: seq<Option<string>>)
    ensures |r| == |anchors| && forall j :: 0 <= j < |anchors| ==> r[j] == AnchorName(anchors[j])
  {
    seq(|anchors|, j requires 0 <= j < |anchors| => AnchorName(anchors[j]))
  }

  /** Position of the first anchor from k on that gives a name (the loop of lines 685-711). */
  function FirstAnchor(anchors: seq<ProfileAnchor>, k: nat): (r: Option<nat>)
    ensures r.Some? ==> k <= r.value < |anchors| && AnchorName(anchors[r.value]).Some?
    ensures r.Some? ==> forall j :: k <= j < r.value ==> AnchorName(anchors[j]).None?
    ensures r.None? <==> forall j :: k <= j < |anchors| ==> AnchorName(anchors[j]).None?
  {
    var names := AnchorNames(anchors);
    var r := FirstSome(names, k);
    assert r.Some? ==> names[r.value] == AnchorName(anchors[r.value]);
    r
  }

  /** Patterns 1a, 1b, 2 and 3 (lines 658-744), in that order. */
  function HtmlStrategies(h: HtmlScan): (r: Option<FounderInfo>)
    ensures r.Some? ==> r.value.name.Some?
  {
    if h.founderData.Some? && FullNameOk(FullName(h.founderData.value)) then
      Some(FounderInfo(Some(FullName(h.founderData.value)), h.linkedIn, Some(ProfileUrl + h.founderData.value.username)))
    else
      match FirstAnchor(h.profileLinks, 0)
      case Some(k) =>
        Some(FounderInfo(AnchorName(h.profileLinks[k]), h.linkedIn, Some(ProfileUrl + h.profileLinks[k].handle)))
      case None =>
        if h.ceoMatch.Some? then
          var m := h.ceoMatch.value;
          Some(FounderInfo(Some(Trim(m.name)), Some(m.linkedIn), Some(ProfileUrl + m.handle + "/")))
        else if h.profileWithLinkedIn.Some? then
          var m := h.profileWithLinkedIn.value;
          Some(FounderInfo(Some(Trim(m.name)), Some(m.linkedIn), Some(ProfileUrl + m.handle + "/")))
        else None
  }

  // ---------------------------------------------------------------- Strategies 2 to 5: the content

  /** The whole URL of a profile match, or null. */
  function UrlOf(m: Option<UrlMatch>): Option<string> {
    match m
    case None => None
    case Some(u) => Some(u.url)
  }

  /** Strategy 2 (lines 745-770): the AppSumo profile link, its username with `_` turned into
      spaces, when that has no reject word and is words of letters. */
  function ProfileLinkStrategy(scan: TextScan): (r: Option<FounderInfo>)
    ensures r.Some? ==> scan.profileLink.Some? && r.value.appSumoProfile == Some(scan.profileLink.value.url)
    ensures r.Some? ==> r.value.name == Some(ReplaceChar(scan.profileLink.value.handle, '_'))
    ensures r.Some? ==> !AnyIn(Lower(r.value.name.value), HandleRejectWords) && IsLetterWords(r.value.name.value)
  {
    match scan.profileLink
    case None => None
    case Some(m) =>
      var cleanedName := ReplaceChar(m.handle, '_');
      if !AnyIn(Lower(cleanedName), HandleRejectWords) && IsLetterWords(cleanedName) then
        Some(FounderInfo(Some(cleanedName), UrlOf(scan.linkedInUrl), Some(m.url)))
      else None
  }

  /** Strategy 3 (lines 772-783): a `[Name](linkedin URL)` link; no AppSumo profile. */
  function LinkedInAnchorStrategy(scan: TextScan): (r: Option<FounderInfo>)
    ensures r.Some? ==> r.value.name.Some? && r.value.appSumoProfile.None?
  {
    match scan.linkedInAnchor
    case None => None
    case Some(l) => Some(FounderInfo(Some(Trim(l.text)), Some(l.url), None))
  }

  /** What an explicit founder pattern's group gives (lines 795-813). */
  function PhraseName(g: Option<string>): (r: Option<string>)
    ensures r.Some? ==> !AnyIn(Lower(r.value), PhraseRejectWords) && |SplitOnSpaces(r.value)| >= 2
  {
    if !Truthy(g) then None
    else
      var name := Trim(g.value);
      if !AnyIn(Lower(name), PhraseRejectWords) && |SplitOnSpaces(name)| >= 2 then Some(name) else None
  }

  /** What a near-founder pattern's group gives (lines 831-843): it needs two words. */
  function NearName(g: Option<string>): (r: Option<string>)
    ensures r.Some? ==> Truthy(g) && r.value == Trim(g.value) && |SplitOnSpaces(g.value)| >= 2
  {
    if Truthy(g) && |SplitOnSpaces(g.value)| >= 2 then Some(Trim(g.value)) else None
  }

  /** The first name among per-pattern results, in pattern order, with the content's profiles. */
  function FirstName(names: seq<Option<string>>, scan: TextScan): (r: Option<FounderInfo>)
    ensures r.Some? ==> exists k :: 0 <= k < |names| && names[k].Some? && r.value.name == names[k]
    ensures r.Some? ==> r.value.linkedIn == UrlOf(scan.linkedInUrl) && r.value.appSumoProfile == UrlOf(scan.appSumoUrl)
    ensures r.None? <==> forall k :: 0 <= k < |names| ==> names[k].None?
  {
    if names == [] then None
    else if names[0].Some? then Some(FounderInfo(names[0], UrlOf(scan.linkedInUrl), UrlOf(scan.appSumoUrl)))
    else
      var r := FirstName(names[1..], scan);
      assert forall k :: 1 <= k < |names| ==> names[k] == names[1..][k - 1];
      r
  }

  function PhraseNames(gs: seq<Option<string>>): (r: seq<Option<string>>)
    ensures |r| == |gs| && forall k :: 0 <= k < |gs| ==> r[k] == PhraseName(gs[k])
  {
    seq(|gs|, k requires 0 <= k < |gs| => PhraseName(gs[k]))
  }

  function NearNames(gs: seq<Option<string>>): (r: seq<Option<string>>)
    ensures |r| == |gs| && forall k :: 0 <= k < |gs| ==> r[k] == NearName(gs[k])
  {
    seq(|gs|, k requires 0 <= k < |gs| => NearName(gs[k]))
  }

  /** The handle Strategy 5 works with: the LinkedIn one, else the AppSumo one (line 853). */
  function Handle(scan: TextScan): string {
    if scan.linkedInUrl.Some? then scan.linkedInUrl.value.handle
    else if scan.appSumoUrl.Some? then scan.appSumoUrl.value.handle
    else ""
  }

  /** The name guessed from a handle (lines 868-885): `-` and `_` become spaces, camel case is
      split, and the first two parts are capitalised and joined, if that gives two words of three
      or more letters. */
  function HandleName(handle: string): (r: Option<string>)
    ensures r.Some? ==> IsTwoLongNames(r.value)
  {
    var parts := SplitOnSpaces(SplitCamel(ReplaceChar(ReplaceChar(handle, '-'), '_')));
    if |parts| < 2 then None
    else
      var inferredName := Join(CapitaliseAll(parts[..2]), ' ');
      if IsTwoLongNames(inferredName) then Some(inferredName) else None
  }

  /** Strategy 5 (lines 846-884), when a LinkedIn or AppSumo profile URL occurs. */
  function SocialStrategy(scan: TextScan): (r: Option<FounderInfo>)
    ensures r.Some? ==> r.value.name.Some? && (scan.linkedInUrl.Some? || scan.appSumoUrl.Some?)
    ensures r.Some? ==> r.value.linkedIn == UrlOf(scan.linkedInUrl) && r.value.appSumoProfile == UrlOf(scan.appSumoUrl)
  {
    if scan.linkedInUrl.None? && scan.appSumoUrl.None? then None
    else if Truthy(scan.nearbyName) then
      Some(FounderInfo(Some(Trim(scan.nearbyName.value)), UrlOf(scan.linkedInUrl), UrlOf(scan.appSumoUrl)))
    else
      match HandleName(Handle(scan))
      case Some(n) => Some(FounderInfo(Some(n), UrlOf(scan.linkedInUrl), UrlOf(scan.appSumoUrl)))
      case None => None
  }

  /** The name made of a LinkedIn username (lines 937-949): its non-empty `-`-separated parts,
      capitalised and joined, when there are two or more. */
  function UsernameName(username: string): (r: Option<string>)
    ensures r.Some? ==> |NonEmpty(Split(username, '-'))| >= 2
  {
    var nameParts := NonEmpty(Split(username, '-'));
    if |nameParts| >= 2 then Some(Join(CapitaliseAll(nameParts), ' ')) else None
  }

  /** The last resort (lines 887-951): a LinkedIn URL that is not a company page; the scraped
      name if any, else the username's name. The username `/in/([a-zA-Z0-9-]+)` finds in the
      URL is the handle of the URL's own match. */
  function LinkedInStrategy(scan: TextScan, scraped: Option<string>): (r: Option<FounderInfo>)
    ensures r.Some? ==> r.value.name.Some? && scan.linkedInUrl.Some? && !Contains(scan.linkedInUrl.value.url, "company")
    ensures r.Some? ==> r.value.linkedIn == UrlOf(scan.linkedInUrl) && r.value.appSumoProfile == UrlOf(scan.appSumoUrl)
  {
    match scan.linkedInUrl
    case None => None
    case Some(l) =>
      if Contains(l.url, "company") then None
      else if scraped.Some? then Some(FounderInfo(scraped, Some(l.url), UrlOf(scan.appSumoUrl)))
      else
        match UsernameName(l.handle)
        case Some(n) => Some(FounderInfo(Some(n), Some(l.url), UrlOf(scan.appSumoUrl)))
        case None => None
  }

  /** The strategies over the content (Strategies 2 to the last resort), first success first. */
  function ContentStrategies(scan: TextScan, scraped: Option<string>): (r: Option<FounderInfo>)
    ensures r.Some? ==> r.value.name.Some?
  {
    var s2 := ProfileLinkStrategy(scan);
    if s2.Some? then s2
    else
      var s3 := LinkedInAnchorStrategy(scan);
      if s3.Some? then s3
      else
        var s4 := FirstName(PhraseNames(scan.explicitNames), scan);
        if s4.Some? then s4
        else
          var s5 := if scan.founderKeyword then FirstName(NearNames(scan.nearFounderNames), scan) else None;
          if s5.Some? then s5
          else
            var s6 := SocialStrategy(scan);
            if s6.Some? then s6 else LinkedInStrategy(scan, scraped)
  }

  /** `extractFounderInfo(page)`. The HTML strategies, when there is HTML, take precedence
      over the content ones. A name is found exactly when one of them succeeds; without one
      the result still carries the first LinkedIn and AppSumo profile URLs of the content. */
  function ExtractFounderInfo(page: Page, scraped: Option<string>): (r: FounderInfo)
    ensures r.name.Some? <==>
      (Truthy(page.html) && HtmlStrategies(page.htmlParts).Some?) || ContentStrategies(ContentScan(page), scraped).Some?
    ensures Truthy(page.html) && HtmlStrategies(page.htmlParts).Some? ==> r == HtmlStrategies(page.htmlParts).value
    ensures !(Truthy(page.html) && HtmlStrategies(page.htmlParts).Some?)
            && ContentStrategies(ContentScan(page), scraped).Some? ==>
      r == ContentStrategies(ContentScan(page), scraped).value
    ensures r.name.None? ==>
      r.linkedIn == UrlOf(ContentScan(page).linkedInUrl) && r.appSumoProfile == UrlOf(ContentScan(page).appSumoUrl)
  {
    var scan := ContentScan(page);
    var html := if Truthy(page.html) then HtmlStrategies(page.htmlParts) else None;
    if html.Some? then html.value
    else
      match ContentStrategies(scan, scraped)
      case Some(f) => f
      case None => FounderInfo(None, UrlOf(scan.linkedInUrl), UrlOf(scan.appSumoUrl))
  }

  // ---------------------------------------------------------------- properties

  /** The JSON shape of the HTML, with a joined name of four or more characters and two words,
      decides the result whatever the other strategies would find. */
  lemma JsonShapeWins(page: Page, scraped: Option<string>)
    requires Truthy(page.html) && page.htmlParts.founderData.Some?
    requires FullNameOk(FullName(page.htmlParts.founderData.value))
    ensures var d := page.htmlParts.founderData.value;
      ExtractFounderInfo(page, scraped) == FounderInfo(Some(FullName(d)), page.htmlParts.linkedIn, Some(ProfileUrl + d.username))
  {
  }

  /** The HTML strategies are not consulted without HTML. */
  lemma NoHtmlNoHtmlStrategies(page: Page, scraped: Option<string>)
    requires !Truthy(page.html)
    ensures var r := ExtractFounderInfo(page, scraped);
      var c := ContentStrategies(ContentScan(page), scraped);
      r == if c.Some? then c.value else FounderInfo(None, UrlOf(ContentScan(page).linkedInUrl), UrlOf(ContentScan(page).appSumoUrl))
  {
  }

  /** A profile anchor is skipped when its text contains a reject word anywhere, even inside a
      name: "Chris Evans" holds "is". */
  lemma RejectWordInsideName()
    ensures AnchorName(ProfileAnchor("chrisevans", "Chris Evans")).None?
  {
    var t := "Chris Evans";
    assert Trim(t) == t by {
      assert !IsSpace(t[0]) && !IsSpace(t[|t| - 1]);
    }
    ContainsIs(t);
    RejectedAnchor(ProfileAnchor("chrisevans", t));
  }

  lemma ContainsIs(t: string)
    requires t == "Chris Evans"
    ensures AnyIn(Lower(t), AnchorRejectWords)
  {
    var l := Lower(t);
    assert l[3] == 'i' && l[4] == 's';
    assert Contains(l, "is") by {
      OccursAtIff(l, "is", 3);
      ContainsFromIff(l, "is", 0);
    }
    AnyInAt(l, AnchorRejectWords, 4);
  }

  lemma RejectedAnchor(a: ProfileAnchor)
    requires AnyIn(Lower(Trim(a.text)), AnchorRejectWords)
    ensures AnchorName(a).None?
  {
  }

  /** The LinkedIn anchor of Strategy 3 never carries an AppSumo profile. */
  lemma LinkedInAnchorHasNoProfile(page: Page, scraped: Option<string>)
    requires !Truthy(page.html) || HtmlStrategies(page.htmlParts).None?
    requires ProfileLinkStrategy(ContentScan(page)).None? && ContentScan(page).linkedInAnchor.Some?
    ensures var a := ContentScan(page).linkedInAnchor.value;
      ExtractFounderInfo(page, scraped) == FounderInfo(Some(Trim(a.text)), Some(a.url), None)
  {
  }

  /** The username fallback: "maxime-neau" is read as "Maxime Neau". */
  lemma UsernameExample()
    ensures UsernameName("maxime-neau") == Some("Maxime Neau")
  {
    SplitExample();
    NonEmptyExample();
    CapitaliseExample();
    var parts := NonEmpty(Split("maxime-neau", '-'));
    assert parts == ["maxime", "neau"];
    var caps := CapitaliseAll(parts);
    assert caps == ["Maxime", "Neau"];
    JoinTwo("Maxime", "Neau", ' ');
    assert "Maxime" + [' '] + "Neau" == "Maxime Neau";
    assert Join(caps, ' ') == "Maxime Neau";
    assert UsernameName("maxime-neau") == Some(Join(caps, ' '));
  }

  /** A camel-case handle of two words of three or more lower-case letters, the second one
      capitalised, is split at the capital and read as the two words, the first capitalised. */
  lemma HandleCamelName(a: string, b: string)
    requires |a| >= 3 && |b| >= 3
    requires forall i :: 0 <= i < |a| ==> IsLowerLetter(a[i])
    requires IsUpper(b[0]) && forall i :: 1 <= i < |b| ==> IsLowerLetter(b[i])
    ensures HandleName(a + b) == Some(Capitalise(a) + " " + b)
  {
    HandleParts(a, b);
    var parts := SplitOnSpaces(SplitCamel(ReplaceChar(ReplaceChar(a + b, '-'), '_')));
    assert parts[..2] == [a, b];
    CapitalisedPair(a, b);
  }

  /** The handle's parts are its two words. */
  lemma HandleParts(a: string, b: string)
    requires |a| >= 1 && |b| >= 1
    requires forall i :: 0 <= i < |a| ==> IsLowerLetter(a[i])
    requires IsUpper(b[0]) && forall i :: 1 <= i < |b| ==> IsLowerLetter(b[i])
    ensures SplitOnSpaces(SplitCamel(ReplaceChar(ReplaceChar(a + b, '-'), '_'))) == [a, b]
  {
    var h := a + b;
    assert forall i :: 0 <= i < |h| ==> IsLetter(h[i]);
    ReplaceAbsent(h, '-');
    ReplaceAbsent(h, '_');
    CamelTwoWords(a, b);
    LettersNoSpace(a);
    LettersNoSpace(b);
    SplitOnSpacesTwo(a, b);
  }

  /** Letters are not white space. */
  lemma LettersNoSpace(a: string)
    requires forall i :: 0 <= i < |a| ==> IsLetter(a[i])
    ensures !HasSpace(a)
  {
  }

  /** The two words, the first capitalised, joined by a space, are two long names. */
  lemma CapitalisedPair(a: string, b: string)
    requires |a| >= 3 && |b| >= 3
    requires forall i :: 0 <= i < |a| ==> IsLowerLetter(a[i])
    requires IsUpper(b[0]) && forall i :: 1 <= i < |b| ==> IsLowerLetter(b[i])
    ensures Join(CapitaliseAll([a, b]), ' ') == Capitalise(a) + " " + b
    ensures IsTwoLongNames(Capitalise(a) + " " + b)
  {
    var ca := Capitalise(a);
    assert Capitalise(b) == b by {
      assert Lower(b[1..]) == b[1..];
      assert b == [b[0]] + b[1..];
    }
    assert CapitaliseAll([a, b]) == [ca, b];
    JoinTwo(ca, b, ' ');
    assert ca + [' '] + b == ca + " " + b;
    assert CapWord(ca) by {
      assert forall k :: 1 <= k < |ca| ==> ca[k] == Lower(a[1..])[k - 1];
    }
    LettersNoSpace(ca);
    LettersNoSpace(b);
    SplitOnSpacesTwo(ca, b);
  }

  /** The example of lines 868-885: "johnSmith" is read as "John Smith". */
  lemma HandleNameExample()
    ensures HandleName("johnSmith") == Some("John Smith")
  {
    JohnSmith();
    JohnSmithWords();
  }

  lemma JohnSmith()
    ensures HandleName("john" + "Smith") == Some("John" + " " + "Smith")
  {
    JohnSmithCamel();
    CapitaliseJohn();
  }

  lemma JohnSmithCamel()
    ensures HandleName("john" + "Smith") == Some(Capitalise("john") + " " + "Smith")
  {
    HandleCamelName("john", "Smith");
  }

  lemma CapitaliseJohn()
    ensures Capitalise("john") == "John"
  {
    assert "john"[1..] == "ohn" && Lower("ohn") == "ohn";
  }

  lemma JohnSmithWords()
    ensures "johnSmith" == "john" + "Smith" && "John Smith" == "John" + " " + "Smith"
  {
  }

  /** Replacing a character that does not occur changes nothing. */
  lemma ReplaceAbsent(s: string, c: char)
    requires c !in s
    ensures ReplaceChar(s, c) == s
  {
  }

  /** A lower-case word followed by a capitalised one is split in two at the capital. */
  lemma {:induction false} CamelTwoWords(a: string, b: string)
    requires |a| >= 1 && |b| >= 1
    requires forall i :: 0 <= i < |a| ==> IsLowerLetter(a[i])
    requires IsUpper(b[0]) && forall i :: 1 <= i < |b| ==> IsLowerLetter(b[i])
    ensures SplitCamel(a + b) == a + " " + b
    decreases |a|
  {
    var s := a + b;
    if |a| == 1 {
      var rest := b[1..];
      assert forall i :: 0 <= i < |rest| ==> rest[i] == b[i + 1];
      SplitCamelPlain(rest);
      CamelBreakAt(s);
      assert s[2..] == rest;
      assert a + " " + b == [a[0], ' ', b[0]] + rest;
    } else {
      var t := a[1..];
      assert forall i :: 0 <= i < |t| ==> t[i] == a[i + 1];
      CamelTwoWords(t, b);
      CamelKeep(s);
      assert s[1..] == t + b;
      assert a + " " + b == [a[0]] + (t + " " + b);
    }
  }

  lemma CamelKeep(s: string)
    requires |s| >= 2 && !(IsLowerLetter(s[0]) && IsUpper(s[1]))
    ensures SplitCamel(s) == [s[0]] + SplitCamel(s[1..])
  {
  }

  lemma CamelBreakAt(s: string)
    requires |s| >= 2 && IsLowerLetter(s[0]) && IsUpper(s[1])
    ensures SplitCamel(s) == [s[0], ' ', s[1]] + SplitCamel(s[2..])
  {
  }

  /** A string with no lower-case letter followed by a capital is left as it is. */
  lemma {:induction false} SplitCamelPlain(s: string)
    requires forall i :: 0 <= i < |s| - 1 ==> !(IsLowerLetter(s[i]) && IsUpper(s[i + 1]))
    ensures SplitCamel(s) == s
    decreases |s|
  {
    if |s| >= 2 {
      var t := s[1..];
      assert forall i :: 0 <= i < |t| ==> t[i] == s[i + 1];
      SplitCamelPlain(t);
      assert s == [s[0]] + t;
    }
  }

  lemma JoinTwo(a: string, b: string, sep: char)
    ensures Join([a, b], sep) == a + [sep] + b
  {
    assert [a, b][1..] == [b];
  }

  lemma SplitExample()
    ensures Split("maxime-neau", '-') == ["maxime", "neau"]
  {
    assert "maxime-neau" == "maxime" + ['-'] + "neau";
    SplitTwo("maxime", "neau", '-');
  }

  lemma SplitTwo(a: string, b: string, sep: char)
    requires sep !in a && sep !in b
    ensures Split(a + [sep] + b, sep) == [a, b]
  {
    var s := a + [sep] + b;
    IndexOfCharAt(s, sep, |a|);
    assert s[..|a|] == a && s[|a| + 1..] == b;
  }

  lemma NonEmptyExample()
    ensures NonEmpty(["maxime", "neau"]) == ["maxime", "neau"]
  {
    assert ["maxime", "neau"][1..] == ["neau"];
    assert ["neau"][1..] == [];
  }

  lemma CapitaliseExample()
    ensures CapitaliseAll(["maxime", "neau"]) == ["Maxime", "Neau"]
  {
    assert Capitalise("maxime") == "Maxime" by {
      assert "maxime"[1..] == "axime";
      assert Lower("axime") == "axime";
    }
    assert Capitalise("neau") == "Neau" by {
      assert "neau"[1..] == "eau";
      assert Lower("eau") == "eau";
    }
  }

  /** A LinkedIn company page is never used for the last resort: then no name comes of it. */
  lemma CompanyPageNotUsed(scan: TextScan, scraped: Option<string>)
    requires scan.linkedInUrl.Some? && Contains(scan.linkedInUrl.value.url, "company")
    ensures LinkedInStrategy(scan, scraped).None?
  {
  }
}
