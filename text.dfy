/**
 * The string operations the crawler applies to scraped text: substring and
 * prefix tests, case mapping, trimming, splitting on a character or on runs of
 * white space, removing one trailing character, order-preserving de-duplication
 * and the decimal conversions behind `parseInt` and `String(n)`. Each is written
 * as JavaScript evaluates it, except that case mapping covers ASCII letters only.
 * A string is a sequence of code points; `Utf16Length` gives the UTF-16 length
 * that `.length` reports.
 */
module Text {
  import opened Wrappers

  // ---------------------------------------------------------------- characters

  predicate IsUpper(c: char) { 'A' <= c <= 'Z' }
  predicate IsLowerLetter(c: char) { 'a' <= c <= 'z' }
  predicate IsLetter(c: char) { IsUpper(c) || IsLowerLetter(c) }
  predicate IsDigit(c: char) { '0' <= c <= '9' }

  /** White space as `String.prototype.trim` and the regular-expression class `\s` see it:
      the ECMAScript WhiteSpace and LineTerminator characters. These are tab, line feed,
      vertical tab, form feed, carriage return, the byte-order mark, the line and paragraph
      separators, and the space separators of Unicode category Zs. */
  predicate IsSpace(c: char) {
    c == ' ' || c == '\t' || c == '\n' || c == '\r' || c == '\U{000B}' || c == '\U{000C}'
    || c == '\U{00A0}' || c == '\U{FEFF}' || c == '\U{1680}' || '\U{2000}' <= c <= '\U{200A}'
    || c == '\U{2028}' || c == '\U{2029}' || c == '\U{202F}' || c == '\U{205F}' || c == '\U{3000}'
  }

  /** The length `.length` reports: UTF-16 code units, two for a character above U+FFFF
      (a surrogate pair) and one for every other. */
  function Utf16Length(s: string): (n: nat)
    ensures |s| <= n <= 2 * |s|
    ensures (forall k :: 0 <= k < |s| ==> s[k] <= '\U{FFFF}') ==> n == |s|
  {
    if s == [] then 0
    else
      assert forall k :: 1 <= k < |s| ==> s[1..][k - 1] == s[k];
      (if s[0] > '\U{FFFF}' then 2 else 1) + Utf16Length(s[1..])
  }

  /** A character outside the Basic Multilingual Plane counts twice: "\U{1F680}" has length 2,
      and so does "ab". */
  lemma Utf16LengthExample()
    ensures Utf16Length("\U{1F680}") == 2 && |"\U{1F680}"| == 1
    ensures Utf16Length("ab") == 2
  {
    assert "\U{1F680}"[1..] == [];
    assert "ab"[1..] == "b" && "b"[1..] == [];
  }

  function LowerChar(c: char): (d: char)
    ensures !IsUpper(d)
    ensures IsLetter(c) <==> IsLetter(d)
    ensures IsUpper(c) || d == c
  {
    if IsUpper(c) then (c as int + 32) as char else c
  }

  function UpperChar(c: char): (d: char)
    ensures !IsLowerLetter(d)
    ensures IsLetter(c) <==> IsLetter(d)
    ensures IsLowerLetter(c) || d == c
  {
    if IsLowerLetter(c) then (c as int - 32) as char else c
  }

  /** `toLowerCase()`, on ASCII letters. */
  function Lower(s: string): (r: string)
    ensures |r| == |s|
    ensures forall i :: 0 <= i < |s| ==> r[i] == LowerChar(s[i])
  {
    seq(|s|, i requires 0 <= i < |s| => LowerChar(s[i]))
  }

  /** `toUpperCase()`, on ASCII letters. */
  function Upper(s: string): (r: string)
    ensures |r| == |s|
    ensures forall i :: 0 <= i < |s| ==> r[i] == UpperChar(s[i])
  {
    seq(|s|, i requires 0 <= i < |s| => UpperChar(s[i]))
  }

  // ---------------------------------------------------------------- substrings

  /** p matches s from position i + k on, for its characters k, k+1, ... */
  predicate MatchesFrom(s: string, p: string, i: nat, k: nat)
    decreases |p| - k
  {
    k >= |p| || (i + k < |s| && s[i + k] == p[k] && MatchesFrom(s, p, i, k + 1))
  }

  /** p occurs in s starting at position i. */
  predicate OccursAt(s: string, p: string, i: nat) {
    i + |p| <= |s| && MatchesFrom(s, p, i, 0)
  }

  lemma {:induction false} MatchesFromIff(s: string, p: string, i: nat, k: nat)
    requires k <= |p| && i + |p| <= |s|
    ensures MatchesFrom(s, p, i, k) <==> s[i + k..i + |p|] == p[k..]
    decreases |p| - k
  {
    if k < |p| {
      MatchesFromIff(s, p, i, k + 1);
      assert s[i + k..i + |p|] == [s[i + k]] + s[i + k + 1..i + |p|];
      assert p[k..] == [p[k]] + p[k + 1..];
    }
  }

  lemma OccursAtIff(s: string, p: string, i: nat)
    ensures OccursAt(s, p, i) <==> i + |p| <= |s| && s[i..i + |p|] == p
  {
    if i + |p| <= |s| {
      MatchesFromIff(s, p, i, 0);
    }
  }

  /** `s.startsWith(p)`. */
  predicate StartsWith(s: string, p: string) { OccursAt(s, p, 0) }

  predicate ContainsFrom(s: string, sub: string, i: nat)
    decreases |s| - i
  {
    OccursAt(s, sub, i) || (i < |s| && ContainsFrom(s, sub, i + 1))
  }

  /** `s.includes(sub)`. */
  predicate Contains(s: string, sub: string) { ContainsFrom(s, sub, 0) }

  lemma {:induction false} ContainsFromIff(s: string, sub: string, i: nat)
    ensures ContainsFrom(s, sub, i) <==> exists j :: i <= j && OccursAt(s, sub, j)
    decreases |s| - i
  {
    if i < |s| {
      ContainsFromIff(s, sub, i + 1);
      if exists j :: i <= j && OccursAt(s, sub, j) {
        var j :| i <= j && OccursAt(s, sub, j);
        assert j == i || i + 1 <= j;
      }
    } else {
      forall j | i < j ensures !OccursAt(s, sub, j) { }
    }
  }

  /** An occurrence at or after j is one at or after any i <= j. */
  lemma {:induction false} ContainsFromMono(s: string, sub: string, i: nat, j: nat)
    requires i <= j && ContainsFrom(s, sub, j)
    ensures ContainsFrom(s, sub, i)
    decreases j - i
  {
    if i < j {
      ContainsFromMono(s, sub, i + 1, j);
    }
  }

  /** `includes` finds sub exactly when sub occurs at some position of s. */
  lemma ContainsIff(s: string, sub: string)
    ensures Contains(s, sub) <==> exists j :: OccursAt(s, sub, j)
  {
    ContainsFromIff(s, sub, 0);
  }

  /** A string containing an upper-case ASCII letter never occurs in a lower-cased string. */
  lemma {:induction false} NoUpperInLower(s: string, sub: string, k: nat)
    requires k < |sub| && IsUpper(sub[k])
    ensures !Contains(Lower(s), sub)
  {
    ContainsIff(Lower(s), sub);
    forall j: nat ensures !OccursAt(Lower(s), sub, j) {
      OccursAtIff(Lower(s), sub, j);
      if j + |sub| <= |s| {
        assert Lower(s)[j..j + |sub|][k] != sub[k];
      }
    }
  }

  /** The position of the first c in s. */
  function IndexOfChar(s: string, c: char): (i: nat)
    requires c in s
    ensures i < |s| && s[i] == c && c !in s[..i]
  {
    if s[0] == c then 0 else 1 + IndexOfChar(s[1..], c)
  }

  /** The first c is at n when s[n] is c and no earlier character is. */
  lemma {:induction false} IndexOfCharAt(s: string, c: char, n: nat)
    requires n < |s| && s[n] == c && c !in s[..n]
    ensures IndexOfChar(s, c) == n
  {
    if n > 0 {
      assert s[0] == s[..n][0];
      assert s[1..][..n - 1] == s[1..n];
      assert s[1..n] == s[..n][1..];
      IndexOfCharAt(s[1..], c, n - 1);
    }
  }

  // ---------------------------------------------------------------- trimming

  function TrimStart(s: string): (r: string)
    ensures |r| <= |s| && r == s[|s| - |r|..]
    ensures r == [] || !IsSpace(r[0])
    ensures forall i :: 0 <= i < |s| - |r| ==> IsSpace(s[i])
  {
    if |s| > 0 && IsSpace(s[0]) then TrimStart(s[1..]) else s
  }

  /** s[i..j] is a slice of s with only white space before and after it. */
  predicate SpaceAround(s: string, i: int, j: int) {
    0 <= i <= j <= |s| && (forall k :: 0 <= k < i ==> IsSpace(s[k])) && (forall k :: j <= k < |s| ==> IsSpace(s[k]))
  }

  /** Where s[lo..j] ends once the white space at its end is dropped. */
  function TrimEndAt(s: string, lo: nat, j: nat): (e: nat)
    requires lo <= j <= |s|
    ensures lo <= e <= j
    ensures forall k :: e <= k < j ==> IsSpace(s[k])
    ensures e == lo || !IsSpace(s[e - 1])
    decreases j
  {
    if j > lo && IsSpace(s[j - 1]) then TrimEndAt(s, lo, j - 1) else j
  }

  /** `s.trim()`: the longest slice of s that neither starts nor ends with white space. */
  function Trim(s: string): (r: string)
    ensures |r| <= |s|
    ensures r == [] || (!IsSpace(r[0]) && !IsSpace(r[|r| - 1]))
    ensures s == [] || (!IsSpace(s[0]) && !IsSpace(s[|s| - 1])) ==> r == s
    ensures exists i, j :: SpaceAround(s, i, j) && r == s[i..j]
  {
    var i := SpaceRun(s);
    var j := TrimEndAt(s, i, |s|);
    assert SpaceAround(s, i, j);
    assert i < j ==> s[i..j][0] == s[i] && s[i..j][j - i - 1] == s[j - 1];
    s[i..j]
  }

  /** `s.replace(/c$/, '')`: drops one trailing c. */
  function DropTrailing(s: string, c: char): (r: string)
    ensures r == s || (s == r + [c])
    ensures |s| > 0 && s[|s| - 1] == c ==> s == r + [c]
  {
    if |s| > 0 && s[|s| - 1] == c then s[..|s| - 1] else s
  }

  // ---------------------------------------------------------------- splitting

  /** The pieces joined back together with sep between them. */
  function Join(parts: seq<string>, sep: char): string {
    if parts == [] then []
    else if |parts| == 1 then parts[0]
    else parts[0] + [sep] + Join(parts[1..], sep)
  }

  /** `s.split(sep)` for a one-character separator. */
  function Split(s: string, sep: char): (r: seq<string>)
    ensures |r| >= 1
    ensures forall i :: 0 <= i < |r| ==> sep !in r[i]
  {
    if sep !in s then [s]
    else
      var i := IndexOfChar(s, sep);
      [s[..i]] + Split(s[i + 1..], sep)
  }

  /** Splitting and joining again gives back the string. */
  lemma {:induction false} JoinSplit(s: string, sep: char)
    ensures Join(Split(s, sep), sep) == s
  {
    if sep in s {
      var i := IndexOfChar(s, sep);
      var rest := Split(s[i + 1..], sep);
      var parts := Split(s, sep);
      JoinSplit(s[i + 1..], sep);
      assert parts == [s[..i]] + rest;
      assert parts[1..] == rest;
      assert Join(parts, sep) == s[..i] + [sep] + Join(rest, sep);
      assert s == s[..i] + [sep] + s[i + 1..];
    }
  }

  /** Joining pieces free of sep and splitting again gives back the pieces. */
  lemma {:induction false} SplitJoin(parts: seq<string>, sep: char)
    requires |parts| >= 1
    requires forall i :: 0 <= i < |parts| ==> sep !in parts[i]
    ensures Split(Join(parts, sep), sep) == parts
  {
    if |parts| > 1 {
      var rest := Join(parts[1..], sep);
      var s := Join(parts, sep);
      var n := |parts[0]|;
      SplitJoin(parts[1..], sep);
      assert s == parts[0] + [sep] + rest;
      assert s[n] == sep && s[..n] == parts[0] && s[n + 1..] == rest;
      IndexOfCharAt(s, sep, n);
      assert Split(s, sep) == [parts[0]] + Split(rest, sep);
      assert parts == [parts[0]] + parts[1..];
    }
  }

  /** The last piece of `s.split(sep)`: `s.split(sep).pop()`, everything after the last sep. */
  function LastPiece(s: string, sep: char): (r: string)
    ensures sep !in r
    ensures |r| <= |s| && r == s[|s| - |r|..]
    ensures |r| < |s| ==> s[|s| - |r| - 1] == sep
  {
    if |s| == 0 || s[|s| - 1] == sep then []
    else
      var init := s[..|s| - 1];
      var r := LastPiece(init, sep);
      var c := s[|s| - 1];
      assert forall i :: 0 <= i < |r| ==> (r + [c])[i] == r[i];
      assert s[|s| - |r| - 1..|s| - 1] == init[|init| - |r|..] == r;
      assert s[|s| - |r| - 1..] == s[|s| - |r| - 1..|s| - 1] + [c];
      r + [c]
  }

  /** The length of the run of white space at the start of s. */
  function SpaceRun(s: string): (n: nat)
    ensures n <= |s|
    ensures forall i :: 0 <= i < n ==> IsSpace(s[i])
    ensures n == |s| || !IsSpace(s[n])
  {
    if |s| > 0 && IsSpace(s[0]) then 1 + SpaceRun(s[1..]) else 0
  }

  predicate HasSpace(s: string) { exists i :: 0 <= i < |s| && IsSpace(s[i]) }

  function IndexOfSpace(s: string): (i: nat)
    requires HasSpace(s)
    ensures i < |s| && IsSpace(s[i]) && !HasSpace(s[..i])
  {
    if IsSpace(s[0]) then 0
    else
      assert HasSpace(s[1..]) by {
        var k :| 0 <= k < |s| && IsSpace(s[k]);
        assert s[1..][k - 1] == s[k];
      }
      var j := IndexOfSpace(s[1..]);
      assert !HasSpace(s[..j + 1]) by {
        forall k | 0 <= k < j + 1 ensures !IsSpace(s[k]) {
          if k > 0 { assert s[k] == s[1..][..j][k - 1]; }
        }
      }
      1 + j
  }

  /** `s.split(/\s+/)`: the pieces between maximal runs of white space (empty pieces kept at the ends). */
  function SplitOnSpaces(s: string): (r: seq<string>)
    ensures |r| >= 1
    ensures forall i :: 0 <= i < |r| ==> !HasSpace(r[i])
    decreases |s|
  {
    if !HasSpace(s) then [s]
    else
      var i := IndexOfSpace(s);
      var n := SpaceRun(s[i..]);
      [s[..i]] + SplitOnSpaces(s[i + n..])
  }

  /** `s.split(/\s+/)` has two or more pieces exactly when s holds white space. */
  lemma SplitOnSpacesCount(s: string)
    ensures |SplitOnSpaces(s)| >= 2 <==> HasSpace(s)
  {
  }

  // ---------------------------------------------------------------- de-duplication

  /** `[...new Set(s)]` and the loop `if (!r.includes(x)) r.push(x)`: first occurrences, in order. */
  function Dedup<T(==,!new)>(s: seq<T>): (r: seq<T>)
    ensures forall x :: x in r <==> x in s
    ensures |r| <= |s|
  {
    if s == [] then []
    else
      var d := Dedup(s[..|s| - 1]);
      if s[|s| - 1] in d then d else d + [s[|s| - 1]]
  }

  predicate NoDuplicates<T(==)>(s: seq<T>) {
    forall i, j :: 0 <= i < j < |s| ==> s[i] != s[j]
  }

  lemma {:induction false} DedupNoDuplicates<T(!new)>(s: seq<T>)
    ensures NoDuplicates(Dedup(s))
  {
    if s != [] {
      DedupNoDuplicates(s[..|s| - 1]);
    }
  }

  /** One more element: Dedup keeps it exactly when it is new. */
  lemma DedupStep<T(!new)>(s: seq<T>, i: nat)
    requires i < |s|
    ensures Dedup(s[..i + 1]) == if s[i] in Dedup(s[..i]) then Dedup(s[..i]) else Dedup(s[..i]) + [s[i]]
  {
    assert s[..i + 1][..i] == s[..i];
  }

  /** De-duplicating a prefix gives a prefix of the de-duplicated whole. */
  lemma {:induction false} DedupPrefix<T(!new)>(s: seq<T>, k: nat)
    requires k <= |s|
    ensures |Dedup(s[..k])| <= |Dedup(s)| && Dedup(s[..k]) == Dedup(s)[..|Dedup(s[..k])|]
    decreases |s| - k
  {
    if k < |s| {
      DedupPrefix(s[..|s| - 1], k);
      assert s[..|s| - 1][..k] == s[..k];
    } else {
      assert s[..k] == s;
    }
  }

  /** The position of the first occurrence of x in s. */
  function FirstIndex<T(==)>(s: seq<T>, x: T): (i: nat)
    requires x in s
    ensures i < |s| && s[i] == x && x !in s[..i]
  {
    if s[0] == x then 0 else 1 + FirstIndex(s[1..], x)
  }

  lemma {:induction false} FirstIndexAppend<T>(s: seq<T>, y: T, x: T)
    requires x in s
    ensures FirstIndex(s + [y], x) == FirstIndex(s, x)
  {
    if s[0] != x {
      assert (s + [y])[1..] == s[1..] + [y];
      FirstIndexAppend(s[1..], y, x);
    }
  }

  /** Dedup keeps the elements in the order of their first occurrence. */
  lemma {:induction false} DedupFirstOccurrenceOrder<T(!new)>(s: seq<T>, i: nat, j: nat)
    requires i < j < |Dedup(s)|
    ensures Dedup(s)[i] in s && Dedup(s)[j] in s
    ensures FirstIndex(s, Dedup(s)[i]) < FirstIndex(s, Dedup(s)[j])
  {
    var init := s[..|s| - 1];
    var x := s[|s| - 1];
    var d := Dedup(init);
    assert s == init + [x];
    if j < |d| {
      DedupFirstOccurrenceOrder(init, i, j);
      FirstIndexAppend(init, x, d[i]);
      FirstIndexAppend(init, x, d[j]);
    } else {
      FirstIndexAppend(init, x, d[i]);
      assert Dedup(s)[j] == x && x !in init;
      assert forall m :: 0 <= m < |init| ==> s[m] != x;
      assert FirstIndex(s, x) >= |init|;
    }
  }

  // ---------------------------------------------------------------- numbers

  predicate AllDigits(s: string) { forall i :: 0 <= i < |s| ==> IsDigit(s[i]) }

  /** The value of a string of decimal digits. */
  function DigitsValue(s: string): nat
    requires AllDigits(s)
  {
    if s == [] then 0 else 10 * DigitsValue(s[..|s| - 1]) + (s[|s| - 1] as int - '0' as int)
  }

  /** `String(n)` for a natural number. */
  function NatToString(n: nat): (r: string)
    ensures |r| >= 1 && AllDigits(r)
    ensures |r| > 1 ==> r[0] != '0'
  {
    var d := [('0' as int + n % 10) as char];
    if n < 10 then d else NatToString(n / 10) + d
  }

  lemma {:induction false} DigitsOfNatToString(n: nat)
    ensures DigitsValue(NatToString(n)) == n
  {
    var r := NatToString(n);
    if n >= 10 {
      DigitsOfNatToString(n / 10);
      assert r[..|r| - 1] == NatToString(n / 10);
    }
  }

  /** The longest prefix of s made of digits. */
  function LeadingDigits(s: string): (r: string)
    ensures AllDigits(r) && |r| <= |s| && r == s[..|r|]
    ensures |r| == |s| || !IsDigit(s[|r|])
  {
    if |s| > 0 && IsDigit(s[0]) then
      var t := LeadingDigits(s[1..]);
      assert s[..|t| + 1] == [s[0]] + s[1..][..|t|];
      [s[0]] + t
    else []
  }

  lemma {:induction false} LeadingDigitsOfDigits(s: string)
    requires AllDigits(s)
    ensures LeadingDigits(s) == s
  {
    if s != [] {
      LeadingDigitsOfDigits(s[1..]);
    }
  }

  /** The leading digits of s are its first n characters when those are digits and the
      next one is not. */
  lemma {:induction false} LeadingDigitsUpTo(s: string, n: nat)
    requires n <= |s| && AllDigits(s[..n]) && (n == |s| || !IsDigit(s[n]))
    ensures LeadingDigits(s) == s[..n]
  {
    if n > 0 {
      assert IsDigit(s[..n][0]);
      assert s[1..][..n - 1] == s[..n][1..];
      LeadingDigitsUpTo(s[1..], n - 1);
      assert s[..n] == [s[0]] + s[1..][..n - 1];
    }
  }

  /** `parseInt(s)` in base ten: leading white space, an optional sign, then digits; None stands for NaN. */
  function ParseInt(s: string): (r: Option<int>)
    ensures AllDigits(s) && s != [] ==> r == Some(DigitsValue(s))
  {
    var t := TrimStart(s);
    var neg := |t| > 0 && t[0] == '-';
    var u := if |t| > 0 && (t[0] == '-' || t[0] == '+') then t[1..] else t;
    var d := LeadingDigits(u);
    assert AllDigits(s) && s != [] ==> d == s by {
      if AllDigits(s) && s != [] {
        assert !IsSpace(s[0]);
        LeadingDigitsOfDigits(s);
      }
    }
    if d == [] then None else Some(if neg then -(DigitsValue(d) as int) else DigitsValue(d))
  }

  /** `s.match(/(\d+)/)`: the first maximal run of digits. */
  function FirstDigitRun(s: string): (r: Option<string>)
    ensures r.Some? ==> r.value != [] && AllDigits(r.value)
    ensures r.None? <==> forall i :: 0 <= i < |s| ==> !IsDigit(s[i])
  {
    if s == [] then None
    else if IsDigit(s[0]) then Some(LeadingDigits(s))
    else
      var r := FirstDigitRun(s[1..]);
      assert r.None? ==> forall i :: 0 <= i < |s| ==> !IsDigit(s[i]) by {
        if r.None? { forall i | 1 <= i < |s| ensures !IsDigit(s[i]) { assert s[i] == s[1..][i - 1]; } }
      }
      r
  }

  /** The run `match(/(\d+)/)` finds starts at the first digit of s and is the longest run of
      digits there. */
  lemma {:induction false} FirstDigitRunAt(s: string, i: nat)
    requires i < |s| && IsDigit(s[i]) && forall j :: 0 <= j < i ==> !IsDigit(s[j])
    ensures FirstDigitRun(s) == Some(LeadingDigits(s[i..]))
    decreases i
  {
    if i == 0 {
      assert s[0..] == s;
    } else {
      var t := s[1..];
      assert t[i - 1..] == s[i..];
      assert forall j :: 0 <= j < i - 1 ==> t[j] == s[j + 1];
      FirstDigitRunAt(t, i - 1);
    }
  }

  /** The first white space is at n when s[n] is white space and no earlier character is. */
  lemma {:induction false} IndexOfSpaceAt(s: string, n: nat)
    requires n < |s| && IsSpace(s[n]) && !HasSpace(s[..n])
    ensures IndexOfSpace(s) == n
    decreases n
  {
    if n > 0 {
      assert s[..n][0] == s[0];
      var t := s[1..];
      var u, v := t[..n - 1], s[..n];
      assert !HasSpace(u) by {
        forall k | 0 <= k < |u| ensures !IsSpace(u[k]) {
          assert u[k] == v[k + 1];
        }
      }
      assert t[n - 1] == s[n];
      IndexOfSpaceAt(t, n - 1);
    }
  }

  /** Two white-space-free words around one space split into those two words. */
  lemma SplitOnSpacesTwo(a: string, b: string)
    requires !HasSpace(a) && !HasSpace(b)
    ensures SplitOnSpaces(a + " " + b) == [a, b]
  {
    var s := a + " " + b;
    assert s[..|a|] == a;
    IndexOfSpaceAt(s, |a|);
    var r := " " + b;
    assert s[|a|..] == r && r[1..] == b;
    assert SpaceRun(r) == 1 by {
      if b != [] { assert r[1..][0] == b[0]; }
    }
    assert s[|a| + 1..] == b;
  }
}
