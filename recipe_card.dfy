/**
 * The recipe card of the recipe finder: the share of a recipe's ingredients the user
 * already has, as a whole percentage, and the slug of the recipe's page link.
 */
module RecipeCard {
  import opened Text

  /** `Math.round(x)` for an exact real: halves round up. */
  function Round(x: real): (n: int)
    ensures n as real - 0.5 <= x < n as real + 0.5
  {
    (x + 0.5).Floor
  }

  /**
   * The match badge: 0 when no used ingredient is listed, otherwise the rounded share
   * of used ingredients among the used and missed ones, in percent.
   */
  function MatchPercentage(used: nat, missed: nat): int {
    if used == 0 then 0
    else Round(used as real / (used + missed) as real * 100.0)
  }

  /** The same percentage in integer arithmetic: round(100u/t) is (200u + t) div 2t. */
  lemma MatchPercentageInIntegers(used: nat, missed: nat)
    requires used > 0
    ensures MatchPercentage(used, missed) == (200 * used + used + missed) / (2 * (used + missed))
  {
    var t := used + missed;
    ScaledShare(used, t);
    FloorOfQuotient(200 * used + t, 2 * t);
  }

  /** The floor of an exact quotient of integers is Euclidean integer division. */
  lemma FloorOfQuotient(n: int, d: int)
    requires d > 0
    ensures (n as real / d as real).Floor == n / d
  {
    var q := n / d;
    assert q * d <= n < q * d + d;
    ProductAsReal(q, d);
    QuotientBetween(n as real, d as real, q as real);
  }

  /** An integer product read as a real is the product of the reals. */
  lemma ProductAsReal(a: int, b: int)
    ensures (a * b) as real == a as real * b as real
  {
  }

  /** `n / d` lies in `[q, q + 1)` when `n` lies in `[q·d, q·d + d)`. */
  lemma QuotientBetween(n: real, d: real, q: real)
    requires d > 0.0 && q * d <= n < q * d + d
    ensures q <= n / d < q + 1.0
  {
    QuotientTimesDivisor(n, d);
    MultiplicationCancels(q, n / d, d);
    assert (q + 1.0) * d == q * d + d;
    MultiplicationCancels(n / d, q + 1.0, d);
  }

  lemma QuotientTimesDivisor(a: real, b: real)
    requires b != 0.0
    ensures a / b * b == a
  {
  }

  lemma MultiplicationCancels(a: real, b: real, c: real)
    requires c > 0.0
    ensures a * c <= b * c ==> a <= b
    ensures a * c < b * c ==> a < b
  {
  }

  lemma CancelFactor(a: real, b: real, c: real, n: real)
    requires c != 0.0 && a * c == n && b * c == n
    ensures a == b
  {
    assert a == n / c;
    assert b == n / c;
  }

  /** 100u/t + 1/2 as one fraction. */
  lemma ScaledShare(used: nat, t: nat)
    requires 0 < t
    ensures used as real / t as real * 100.0 + 0.5 == (200 * used + t) as real / (2 * t) as real
  {
    var tr, c := t as real, (2 * t) as real;
    var x := used as real / tr;
    var y := (200 * used + t) as real / c;
    QuotientTimesDivisor(used as real, tr);
    QuotientTimesDivisor((200 * used + t) as real, c);
    var z := x * 100.0 + 0.5;
    assert c == 2.0 * tr && c > 0.0;
    assert z * c == 200.0 * (x * tr) + tr;
    assert x * tr == used as real;
    assert (200 * used + t) as real == 200.0 * used as real + tr;
    assert z * c == (200 * used + t) as real;
    assert y * c == (200 * used + t) as real;
    CancelFactor(z, y, c, (200 * used + t) as real);
  }

  /** The badge always shows a percentage between 0 and 100. */
  lemma MatchPercentageBounds(used: nat, missed: nat)
    ensures 0 <= MatchPercentage(used, missed) <= 100
  {
    if used > 0 {
      MatchPercentageInIntegers(used, missed);
      var t := used + missed;
      QuotientBelow(200 * used + t, 2 * t, 101);
    }
  }

  lemma QuotientBelow(n: nat, d: int, k: int)
    requires d > 0 && n < d * k
    ensures 0 <= n / d < k
  {
    var q := n / d;
    assert n == d * q + n % d;
  }

  /** With nothing missed and something used, the match is complete. */
  lemma NothingMissedIsFullMatch(used: nat)
    requires used > 0
    ensures MatchPercentage(used, 0) == 100
  {
    assert used as real / used as real == 1.0;
  }

  /** One of two, one of three and two of three. */
  lemma MatchPercentageExamples()
    ensures MatchPercentage(1, 1) == 50
    ensures MatchPercentage(1, 2) == 33
    ensures MatchPercentage(2, 1) == 67
  {
    MatchPercentageInIntegers(1, 1);
    MatchPercentageInIntegers(1, 2);
    MatchPercentageInIntegers(2, 1);
  }

  /** `s.replace(/\s+/g, '-')`: every maximal run of whitespace becomes one `-`. */
  function CollapseWhitespace(s: string): (r: string)
    ensures HasNoWhitespace(r)
    ensures |r| <= |s|
    decreases |s|
  {
    if s == [] then []
    else if IsWhitespace(s[0]) then
      var rest := TrimStart(s);
      ['-'] + CollapseWhitespace(rest)
    else [s[0]] + CollapseWhitespace(s[1..])
  }

  /** Text without whitespace is left as it is, so collapsing twice is collapsing once. */
  lemma {:induction false} CollapseWithoutWhitespace(s: string)
    requires HasNoWhitespace(s)
    ensures CollapseWhitespace(s) == s
    decreases |s|
  {
    if s != [] {
      CollapseWithoutWhitespace(s[1..]);
    }
  }

  /** A run of whitespace between two words turns into exactly one `-`. */
  lemma {:induction false} CollapseRun(word: string, run: string, rest: string)
    requires HasNoWhitespace(word) && run != [] && HasOnlyWhitespace(run)
    requires rest == [] || !IsWhitespace(rest[0])
    ensures CollapseWhitespace(word + run + rest) == word + ['-'] + CollapseWhitespace(rest)
    decreases |word|
  {
    if word == [] {
      assert word + run + rest == run + rest;
      CollapseLeadingRun(run, rest);
    } else {
      NoWhitespaceSplits(word);
      CollapseRun(word[1..], run, rest);
      assert word[1..] + run + rest == word[1..] + (run + rest);
      CollapseWordStep(word[0], word[1..], run + rest, CollapseWhitespace(rest));
      assert [word[0]] + word[1..] == word;
      assert word + run + rest == word + (run + rest);
    }
  }

  lemma NoWhitespaceSplits(word: string)
    requires word != [] && HasNoWhitespace(word)
    ensures !IsWhitespace(word[0]) && HasNoWhitespace(word[1..])
  {
  }

  /** One more leading character of a word is kept in front of the collapsed text. */
  lemma CollapseWordStep(c: char, w: string, after: string, collapsed: string)
    requires !IsWhitespace(c)
    requires CollapseWhitespace(w + after) == w + ['-'] + collapsed
    ensures CollapseWhitespace([c] + w + after) == [c] + w + ['-'] + collapsed
  {
    assert [c] + w + after == [c] + (w + after);
    CollapseKeepsChar(c, w + after);
    assert [c] + (w + ['-'] + collapsed) == [c] + w + ['-'] + collapsed;
  }

  /** A character that is not whitespace is kept as it is. */
  lemma CollapseKeepsChar(c: char, t: string)
    requires !IsWhitespace(c)
    ensures CollapseWhitespace([c] + t) == [c] + CollapseWhitespace(t)
  {
    assert ([c] + t)[1..] == t;
  }

  /** A leading run of whitespace becomes one `-`. */
  lemma CollapseLeadingRun(run: string, rest: string)
    requires run != [] && HasOnlyWhitespace(run)
    requires rest == [] || !IsWhitespace(rest[0])
    ensures CollapseWhitespace(run + rest) == ['-'] + CollapseWhitespace(rest)
  {
    assert IsWhitespace((run + rest)[0]);
    TrimStartOfRun(run, rest);
  }

  lemma {:induction false} TrimStartOfRun(run: string, rest: string)
    requires HasOnlyWhitespace(run)
    requires rest == [] || !IsWhitespace(rest[0])
    ensures TrimStart(run + rest) == rest
    decreases |run|
  {
    if run != [] {
      assert (run + rest)[1..] == run[1..] + rest;
      TrimStartOfRun(run[1..], rest);
    } else {
      assert run + rest == rest;
    }
  }

  /** The path segment of a recipe's page: the collapsed title, `-`, and the id. */
  function Slug(title: string, id: nat): (slug: string)
    ensures slug == CollapseWhitespace(title) + "-" + DecimalOf(id)
    ensures HasNoWhitespace(slug)
    ensures |slug| > |DecimalOf(id)| && slug[|slug| - |DecimalOf(id)| - 1..] == "-" + DecimalOf(id)
  {
    var head := CollapseWhitespace(title);
    var tail := "-" + DecimalOf(id);
    assert forall i :: 0 <= i < |tail| ==> !IsWhitespace(tail[i]) by {
      assert forall i :: 0 <= i < |DecimalOf(id)| ==> IsDigit(DecimalOf(id)[i]);
    }
    head + tail
  }
}
