/**
 * `evaluateProducts` of evaluation-engine.js (lines 3-43): each crawled Product Hunt
 * record gets a score that adds points for its votes, for keywords in its topics and
 * tagline, and for how recently it launched, capped at 100.
 */
module Evaluation {
  import opened Wrappers
  import opened Text
  import opened Pages

  /** A crawled record as the score sees it. `votes` is None when missing; `launchDate`
      is the launch time in milliseconds, None when it does not parse as a date; `rest`
      stands for the fields the score does not read, which the result carries over. */
  datatype Record<R> = Record(votes: Option<int>, topics: Option<string>, tagline: Option<string>,
                              launchDate: Option<int>, rest: R)

  /** `{ ...p, score }`: the record's own fields plus its score. */
  datatype Scored<R> = Scored(record: Record<R>, score: int)

  const MillisPerDay: int := 1000 * 60 * 60 * 24
  const MaxScore: int := 100

  /** Points for the number of votes (lines 9-12): a missing count compares false. */
  function VotePoints(votes: Option<int>): (r: int)
    ensures r == 10 || r == 20 || r == 30 || r == 40
    ensures r == 40 <==> votes.Some? && votes.value >= 500
    ensures r == 10 <==> votes.None? || votes.value < 100
  {
    if votes.Some? && votes.value >= 500 then 40
    else if votes.Some? && votes.value >= 250 then 30
    else if votes.Some? && votes.value >= 100 then 20
    else 10
  }

  /** More votes never earn fewer points. */
  lemma VotePointsMonotone(a: int, b: int)
    requires a <= b
    ensures VotePoints(Some(a)) <= VotePoints(Some(b))
  {
  }

  /** Points for the lower-cased topics and tagline (lines 15-20). */
  function KeywordPoints(topics: string, tagline: string): (r: int)
    ensures 0 <= r <= 35
  {
    (if Contains(topics, "ai") || Contains(tagline, "ai") then 20 else 0)
    + (if Contains(topics, "productivity") || Contains(tagline, "automation") then 10 else 0)
    + (if Contains(topics, "developer") || Contains(topics, "tools") then 5 else 0)
  }

  /** Points for the launch date (lines 23-31). Whole days are compared through their
      milliseconds: `elapsed / MillisPerDay < d` exactly when `elapsed < d * MillisPerDay`.
      A date that does not parse gives NaN, which compares false, and so earns 5. */
  function RecencyPoints(now: int, launchDate: Option<int>): (r: int)
    ensures r == 5 || r == 10 || r == 15
    ensures r == 15 <==> launchDate.Some? && now - launchDate.value < 7 * MillisPerDay
    ensures r == 5 <==> launchDate.None? || now - launchDate.value >= 30 * MillisPerDay
  {
    if launchDate.None? then 5
    else
      var elapsed := now - launchDate.value;
      if elapsed < 7 * MillisPerDay then 15
      else if elapsed < 30 * MillisPerDay then 10
      else 5
  }

  /** A later launch never earns fewer points. */
  lemma RecencyPointsMonotone(now: int, earlier: int, later: int)
    requires earlier <= later
    ensures RecencyPoints(now, Some(earlier)) <= RecencyPoints(now, Some(later))
  {
  }

  /** Points for the wording of the lower-cased tagline (lines 34-37). */
  function SentimentPoints(tagline: string): (r: int)
    ensures 0 <= r <= 10
  {
    (if Contains(tagline, "best") || Contains(tagline, "fast") || Contains(tagline, "easy") then 5 else 0)
    + (if Contains(tagline, "community") || Contains(tagline, "open source") then 5 else 0)
  }

  /** The sum before the cap: missing topics and taglines count as empty (lines 15-16). */
  function RawScore<R>(p: Record<R>, now: int): int {
    var topics := Lower(OrEmpty(p.topics));
    var tagline := Lower(OrEmpty(p.tagline));
    VotePoints(p.votes) + KeywordPoints(topics, tagline) + RecencyPoints(now, p.launchDate)
    + SentimentPoints(tagline)
  }

  /** The score of one record (lines 6-39): the sum, capped at 100. */
  function Score<R>(p: Record<R>, now: int): (r: int)
    ensures 15 <= r <= MaxScore
  {
    var raw := RawScore(p, now);
    if raw > MaxScore then MaxScore else raw
  }

  /** The cap at line 39 never takes effect: the points add up to at most
      40 + 20 + 10 + 5 + 15 + 5 + 5 = 100. */
  lemma CapNeverApplies<R>(p: Record<R>, now: int)
    ensures 15 <= RawScore(p, now) <= MaxScore
    ensures Score(p, now) == RawScore(p, now)
  {
  }

  /** `products.map(...)` (lines 5-42). */
  function EvaluateProducts<R>(products: seq<Record<R>>, now: int): (r: seq<Scored<R>>)
    ensures |r| == |products|
    ensures forall i :: 0 <= i < |r| ==> r[i].record == products[i] && r[i].score == Score(products[i], now)
  {
    seq(|products|, i requires 0 <= i < |products| => Scored(products[i], Score(products[i], now)))
  }

  /** Each record is scored on its own: scoring a concatenation scores its parts. */
  lemma EvaluateAppend<R>(a: seq<Record<R>>, b: seq<Record<R>>, now: int)
    ensures EvaluateProducts(a + b, now) == EvaluateProducts(a, now) + EvaluateProducts(b, now)
  {
    var l := EvaluateProducts(a + b, now);
    var rr := EvaluateProducts(a, now) + EvaluateProducts(b, now);
    forall i | 0 <= i < |l| ensures l[i] == rr[i] {
      if i >= |a| {
        assert (a + b)[i] == b[i - |a|];
      }
    }
  }

  /** Every score lies between 15 and 100. */
  lemma ScoresInRange<R>(products: seq<Record<R>>, now: int)
    ensures forall i :: 0 <= i < |products| ==> 15 <= EvaluateProducts(products, now)[i].score <= MaxScore
  {
  }

  /** Raising the votes, all else equal, never lowers the score. */
  lemma ScoreMonotoneInVotes<R>(p: Record<R>, now: int, more: int)
    requires p.votes.Some? && p.votes.value <= more
    ensures Score(p, now) <= Score(p.(votes := Some(more)), now)
  {
    VotePointsMonotone(p.votes.value, more);
    CapNeverApplies(p, now);
    CapNeverApplies(p.(votes := Some(more)), now);
  }

  /** A missing vote count scores like a count under 100. */
  lemma MissingVotesScoreTen()
    ensures VotePoints(None) == VotePoints(Some(0)) == 10
  {
  }

  /** `includes("ai")` is a substring test, so it also fires inside words: an "email"
      tagline earns the AI bonus. */
  lemma AiInsideEmail()
    ensures KeywordPoints("", Lower("Email")) >= 20
  {
    var t := Lower("Email");
    assert t == "email";
    assert t[2..4] == "ai";
    OccursAtIff(t, "ai", 2);
    ContainsIff(t, "ai");
  }

  /** Upper-case keywords in a tagline still count: the tagline is lower-cased first. */
  lemma TaglineCaseIgnored<R>(p: Record<R>, now: int)
    requires p.tagline == Some("FAST")
    ensures SentimentPoints(Lower(OrEmpty(p.tagline))) == 5
  {
    var t := Lower("FAST");
    assert t == "fast";
    OccursAtIff(t, "fast", 0);
    ContainsIff(t, "fast");
    NotContainsLonger(t, "community");
    NotContainsLonger(t, "open source");
  }

  /** A string longer than s does not occur in it. */
  lemma NotContainsLonger(s: string, sub: string)
    requires |s| < |sub|
    ensures !Contains(s, sub)
  {
    ContainsIff(s, sub);
  }
}
