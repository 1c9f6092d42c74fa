/** What the score of a fuzzy match promises: when exactly an exact text outranks every other. */
module FuzzyScores {
  import opened Prelude
  import opened Fuzzy

  // ------------------------------------------------------------ boundaries

  /** The fold keeps word boundaries apart from everything else. */
  ghost predicate FoldKeepsBoundaries(a: Alphabet) {
    forall c :: WordBoundary(a, c) <==> WordBoundary(a, Fold(a, [c])[0])
  }

  lemma FoldsOneByOne(a: Alphabet, text: string, i: nat)
    requires FoldKeepsBoundaries(a) && i < |text|
    ensures WordBoundary(a, text[i]) <==> WordBoundary(a, Fold(a, text)[i])
  {
    assert Fold(a, [text[i]])[0] == Fold(a, text)[i];
  }

  /** How many of the first `k` characters, but for the very first, stand behind a word boundary. */
  function AfterWords(a: Alphabet, folded: string, k: nat): nat
    requires k <= |folded|
  {
    if k <= 1 then 0 else AfterWords(a, folded, k - 1) + (if WordBoundary(a, folded[k - 2]) then 1 else 0)
  }

  /** How many of the first `k` characters, but for the very first, stand on a boundary of the text. */
  function Boundaries(a: Alphabet, text: string, k: nat): nat
    requires k <= |text|
  {
    if k <= 1 then 0 else Boundaries(a, text, k - 1) + (if IsBoundary(a, text, k - 1) then 1 else 0)
  }

  lemma {:induction false} BoundariesCountWords(a: Alphabet, text: string, k: nat)
    requires FoldKeepsBoundaries(a) && k <= |text|
    ensures AfterWords(a, Fold(a, text), k) <= Boundaries(a, text, k)
  {
    if k > 1 {
      BoundariesCountWords(a, text, k - 1);
      FoldsOneByOne(a, text, k - 2);
    }
  }

  // -------------------------------------------------- a match at the start

  function Upto(k: nat): seq<nat> {
    seq(k, i => i)
  }

  /** What the first `k` characters gain, each found right behind the one before. */
  function Gains(gain: Gain, k: nat): real {
    if k == 0 then 0.0 else Gains(gain, k - 1) + gain(k - 2, k - 1)
  }

  lemma {:induction false} PrefixIsFound(target: string, folded: string, gain: Gain, k: nat)
    requires k <= |folded| <= |target| && target[..|folded|] == folded
    ensures Scan(target, folded[..k], gain) == Some(Match(Gains(gain, k), Upto(k)))
  {
    if k > 0 {
      PrefixIsFound(target, folded, gain, k - 1);
      assert folded[..k][..k - 1] == folded[..k - 1];
      assert Upto(k) == Upto(k - 1) + [k - 1];
      assert target[k - 1] == folded[k - 1];
      assert IndexFrom(target, folded[k - 1], k - 1) == Some(k - 1);
    } else {
      assert folded[..k] == "" && Upto(k) == [];
    }
  }

  lemma {:induction false} PrefixGains(a: Alphabet, text: string, k: nat)
    requires 0 < k <= |text|
    ensures Gains(GainIn(a, text), k) == (6 * k + 3 + 3 * Boundaries(a, text, k)) as real
  {
    if k > 1 {
      PrefixGains(a, text, k - 1);
    } else {
      assert Gains(GainIn(a, text), 0) == 0.0;
    }
  }

  lemma PrefixScores(a: Alphabet, text: string, query: string)
    requires 0 < |query| <= |text| && Fold(a, text)[..|query|] == Fold(a, query)
    ensures FuzzyScore(a, text, query).Some?
    ensures FuzzyScore(a, text, query).value.score ==
            (6 * |query| + 11 + 3 * Boundaries(a, text, |query|)) as real
            + (if Fold(a, text) == Fold(a, query) then 20.0 else 0.0) - |text| as real * 0.01
  {
    var folded := Fold(a, query);
    PrefixIsFound(Fold(a, text), folded, GainIn(a, text), |query|);
    PrefixGains(a, text, |query|);
    assert folded[..|query|] == folded;
  }

  // ------------------------------------------------------------- any match

  /** The last character matched is of the other case than the fold's. */
  predicate EndsInCapital(a: Alphabet, text: string, positions: seq<nat>)
    requires positions != [] && positions[|positions| - 1] < |text|
  {
    var last := text[positions[|positions| - 1]];
    last != a.lower(last)
  }

  /** Changes of case make boundaries too, but never two in a row. */
  function Cap(a: Alphabet, folded: string, k: nat, capital: bool): int
    requires k <= |folded|
  {
    6 * k + 3 + 3 * AfterWords(a, folded, k) + 3 * (if capital then k / 2 else (k - 1) / 2)
  }

  /** What one more contiguous character can gain, by what it stands behind. */
  lemma ContiguousGain(a: Alphabet, text: string, at: nat)
    requires FoldKeepsBoundaries(a) && 0 < at < |text|
    ensures var gain := StepGain(a, text, at - 1, at);
            && gain <= 9.0
            && (!WordBoundary(a, Fold(a, text)[at - 1]) && gain > 6.0 ==>
                  text[at - 1] == a.lower(text[at - 1]) && text[at] != a.lower(text[at]))
  {
    FoldsOneByOne(a, text, at - 1);
  }

  lemma ScatteredGain(a: Alphabet, text: string, previous: int, at: nat)
    requires 0 <= previous && previous + 1 < at < |text|
    ensures StepGain(a, text, previous, at) <= 3.0
  {
  }

  lemma FirstGain(a: Alphabet, text: string, at: nat)
    requires at < |text|
    ensures StepGain(a, text, -1, at) <= 9.0
  {
  }

  /** No match scores more than a match at the start would with a change of case at every other character. */
  lemma {:induction false} ScanIsCapped(a: Alphabet, text: string, folded: string, k: nat)
    requires FoldKeepsBoundaries(a) && 0 < k <= |folded|
    requires Scan(Fold(a, text), folded[..k], GainIn(a, text)).Some?
    ensures var found := Scan(Fold(a, text), folded[..k], GainIn(a, text)).value;
            && |found.positions| == k && found.positions[k - 1] < |text| && Fold(a, text)[found.positions[k - 1]] == folded[k - 1]
            && found.score <= Cap(a, folded, k, EndsInCapital(a, text, found.positions)) as real
  {
    var target := Fold(a, text);
    assert folded[..k][..k - 1] == folded[..k - 1] && folded[..k][k - 1] == folded[k - 1];
    var found := Scan(target, folded[..k], GainIn(a, text)).value;
    var at := found.positions[k - 1];
    if k == 1 {
      assert folded[..0] == "";
      FirstGain(a, text, at);
    } else {
      ScanIsCapped(a, text, folded, k - 1);
      var before := Scan(target, folded[..k - 1], GainIn(a, text)).value;
      var previous := before.positions[k - 2];
      assert found.score == before.score + StepGain(a, text, previous, at);
      if at == previous + 1 {
        ContiguousGain(a, text, at);
      } else {
        ScatteredGain(a, text, previous, at);
      }
    }
  }

  lemma ScoreIsCapped(a: Alphabet, text: string, query: string)
    requires FoldKeepsBoundaries(a) && query != "" && FuzzyScore(a, text, query).Some?
    ensures |query| <= |text|
    ensures var n := |query|;
            FuzzyScore(a, text, query).value.score <=
              (6 * n + 11 + 3 * AfterWords(a, Fold(a, query), n) + 3 * (n / 2)) as real
              + (if Fold(a, text) == Fold(a, query) then 20.0 else 0.0) - |text| as real * 0.01
  {
    var folded, n := Fold(a, query), |query|;
    assert folded[..n] == folded;
    ScanIsCapped(a, text, folded, n);
    ScanEmbeds(Fold(a, text), folded, GainIn(a, text));
    EmbedsInLonger(Fold(a, text), folded, Scan(Fold(a, text), folded, GainIn(a, text)).value.positions, n - 1);
  }

  lemma {:induction false} EmbedsInLonger(target: string, query: string, positions: seq<nat>, i: nat)
    requires Embeds(target, query, positions) && i < |query|
    ensures i <= positions[i] < |target|
  {
    if i > 0 {
      EmbedsInLonger(target, query, positions, i - 1);
    }
  }

  // ------------------------------------------------------------ the promise

  const LONGEST := 13

  ghost predicate Outranks(a: Alphabet, target: string, other: string, query: string) {
    FuzzyScore(a, target, query).Some? && FuzzyScore(a, other, query).Some? ==>
      FuzzyScore(a, target, query).value.score > FuzzyScore(a, other, query).value.score
  }

  /** For every query of this length, a text that is the query outranks every matching text that is not. */
  ghost predicate ExactDominates(a: Alphabet, n: nat) {
    forall target, other, query :: |query| == n && Fold(a, target) == Fold(a, query) && Fold(a, other) != Fold(a, query) ==>
      Outranks(a, target, other, query)
  }

  lemma ShortExactDominates(a: Alphabet, target: string, other: string, query: string)
    requires FoldKeepsBoundaries(a) && 0 < |query| <= LONGEST
    requires Fold(a, target) == Fold(a, query) && Fold(a, other) != Fold(a, query)
    ensures Outranks(a, target, other, query)
  {
    if FuzzyScore(a, other, query).Some? {
      var n := |query|;
      assert Fold(a, target)[..n] == Fold(a, query);
      PrefixScores(a, target, query);
      BoundariesCountWords(a, target, n);
      ScoreIsCapped(a, other, query);
    }
  }

  /** A letter and its capital. */
  predicate Cased(a: Alphabet, small: char, capital: char) {
    && a.lower(small) == small && a.lower(capital) == small && small != capital && a.upper(capital) == capital
    && !WordBoundary(a, small) && !WordBoundary(a, capital)
  }

  function Small(small: char, n: nat): string {
    seq(n, i => small)
  }

  function Alternating(small: char, capital: char, n: nat): string {
    seq(n, i => if i % 2 == 1 then capital else small)
  }

  lemma {:induction false} NoneInSmall(a: Alphabet, small: char, capital: char, n: nat, k: nat)
    requires Cased(a, small, capital) && k <= n
    ensures Boundaries(a, Small(small, n), k) == 0
  {
    if k > 1 {
      NoneInSmall(a, small, capital, n, k - 1);
    }
  }

  lemma {:induction false} HalfInAlternating(a: Alphabet, small: char, capital: char, n: nat, k: nat)
    requires Cased(a, small, capital) && k <= n
    ensures Boundaries(a, Alternating(small, capital, n), k) == k / 2
  {
    if k > 1 {
      HalfInAlternating(a, small, capital, n, k - 1);
    }
  }

  lemma BothFoldSmall(a: Alphabet, small: char, capital: char, n: nat)
    requires Cased(a, small, capital)
    ensures Fold(a, Small(small, n)) == Small(small, n) && Fold(a, Alternating(small, capital, n)) == Small(small, n)
  {
  }

  lemma SmallBegins(small: char, n: nat)
    ensures Small(small, n + 1)[..n] == Small(small, n) && Small(small, n + 1) != Small(small, n)
  {
    assert |Small(small, n + 1)| != |Small(small, n)|;
  }

  lemma SmallScores(a: Alphabet, small: char, capital: char, n: nat)
    requires Cased(a, small, capital) && n > 0
    ensures FuzzyScore(a, Small(small, n), Small(small, n)).Some?
    ensures FuzzyScore(a, Small(small, n), Small(small, n)).value.score == (6 * n + 31) as real - n as real * 0.01
  {
    var query := Small(small, n);
    BothFoldSmall(a, small, capital, n);
    assert query[..n] == query;
    PrefixScores(a, query, query);
    NoneInSmall(a, small, capital, n, n);
  }

  lemma AlternatingScores(a: Alphabet, small: char, capital: char, n: nat)
    requires Cased(a, small, capital) && n > 0
    ensures FuzzyScore(a, Alternating(small, capital, n + 1), Small(small, n)).Some?
    ensures FuzzyScore(a, Alternating(small, capital, n + 1), Small(small, n)).value.score ==
            (6 * n + 11 + 3 * (n / 2)) as real - (n + 1) as real * 0.01
    ensures Fold(a, Alternating(small, capital, n + 1)) != Fold(a, Small(small, n))
  {
    BothFoldSmall(a, small, capital, n);
    BothFoldSmall(a, small, capital, n + 1);
    SmallBegins(small, n);
    PrefixScores(a, Alternating(small, capital, n + 1), Small(small, n));
    HalfInAlternating(a, small, capital, n + 1, n);
  }

  /** A long query in small letters loses to the same letters with every other one a capital, and one more. */
  lemma LongExactLoses(a: Alphabet, small: char, capital: char, n: nat)
    requires Cased(a, small, capital) && n > LONGEST
    ensures var query := Small(small, n);
            var other := Alternating(small, capital, n + 1);
            Fold(a, other) != Fold(a, query) && !Outranks(a, query, other, query)
  {
    SmallScores(a, small, capital, n);
    AlternatingScores(a, small, capital, n);
    assert n / 2 >= 7;
  }

  /**
   * "An exact full match dominates everything else" is kept for queries of up to thirteen characters
   * and, in any alphabet with a letter that has a capital, for no longer ones.
   */
  lemma AnExactMatchDominatesExactlyWhen(a: Alphabet, small: char, capital: char, n: nat)
    requires FoldKeepsBoundaries(a) && Cased(a, small, capital) && n > 0
    ensures ExactDominates(a, n) <==> n <= LONGEST
  {
    if n <= LONGEST {
      forall target, other, query |
        |query| == n && Fold(a, target) == Fold(a, query) && Fold(a, other) != Fold(a, query)
        ensures Outranks(a, target, other, query)
      {
        ShortExactDominates(a, target, other, query);
      }
    } else {
      LongExactLoses(a, small, capital, n);
      assert |Small(small, n)| == n;
    }
  }
}
