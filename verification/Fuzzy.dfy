/**
 * The fuzzy matcher: a query as an ordered subsequence of a text, scored by how
 * well it sits there, and a list ranked by it.
 *
 * Case mapping and white space are parameters; a fold maps one character to one.
 */
module Fuzzy {
  import opened Prelude
  import opened StableSort

  /** The language's own case mapping and white space. */
  datatype Alphabet = Alphabet(lower: char -> char, upper: char -> char, space: char -> bool)

  function Fold(a: Alphabet, s: string): (f: string)
    ensures |f| == |s|
  {
    seq(|s|, i requires 0 <= i < |s| =>
      var c := a.lower(s[i]);
      if c == '-' || c == '_' || c == '.' then ' ' else c)
  }

  predicate WordBoundary(a: Alphabet, c: char) {
    c == '-' || c == '_' || c == '/' || c == '.' || a.space(c)
  }

  predicate IsBoundary(a: Alphabet, target: string, i: nat)
    requires i < |target|
  {
    i == 0
    || WordBoundary(a, target[i - 1])
    || (target[i - 1] == a.lower(target[i - 1]) && target[i] != a.lower(target[i]) && target[i] == a.upper(target[i]))
  }

  // --------------------------------------------------------- the matching

  /** `indexOf` from `from` on. */
  function IndexFrom(s: string, c: char, from: nat): (r: Option<nat>)
    ensures r.Some? ==> from <= r.value < |s| && s[r.value] == c && forall k :: from <= k < r.value ==> s[k] != c
    ensures r.None? ==> forall k :: from <= k < |s| ==> s[k] != c
    decreases |s| - from
  {
    if from >= |s| then None else if s[from] == c then Some(from) else IndexFrom(s, c, from + 1)
  }

  function Previous(positions: seq<nat>): int {
    if positions == [] then -1 else positions[|positions| - 1]
  }

  /** What is found so far, and what it is worth. */
  datatype Match = Match(score: real, positions: seq<nat>)

  /** What one more matched position adds, after the one at the first argument (`-1` for none). */
  type Gain = (int, nat) -> real

  /** The first characters of the query, each found at the earliest place behind the one before. */
  function Scan(target: string, query: string, gain: Gain): (found: Option<Match>)
    ensures found.Some? ==> |found.value.positions| == |query|
                            && forall i :: 0 <= i < |query| ==> 0 <= found.value.positions[i] < |target|
  {
    if query == "" then Some(Match(0.0, []))
    else
      var before := Scan(target, query[..|query| - 1], gain);
      if before.None? then None
      else
        var previous := Previous(before.value.positions);
        var at := IndexFrom(target, query[|query| - 1], previous + 1);
        if at.None? then None
        else Some(Match(before.value.score + gain(previous, at.value), before.value.positions + [at.value]))
  }

  /** A way of finding the query in the target, in order. */
  ghost predicate Embeds(target: string, query: string, positions: seq<nat>) {
    && |positions| == |query|
    && (forall i :: 0 <= i < |positions| ==> positions[i] < |target| && target[positions[i]] == query[i])
    && (forall i, j :: 0 <= i < j < |positions| ==> positions[i] < positions[j])
  }

  predicate IsSubsequence(query: string, target: string) {
    if query == "" then true
    else if target == "" then false
    else if query[|query| - 1] == target[|target| - 1] then IsSubsequence(query[..|query| - 1], target[..|target| - 1])
    else IsSubsequence(query, target[..|target| - 1])
  }

  lemma {:induction false} ScanEmbeds(target: string, query: string, gain: Gain)
    ensures Scan(target, query, gain).Some? ==> Embeds(target, query, Scan(target, query, gain).value.positions)
  {
    if query != "" && Scan(target, query, gain).Some? {
      var front := query[..|query| - 1];
      ScanEmbeds(target, front, gain);
      var before, all := Scan(target, front, gain).value.positions, Scan(target, query, gain).value.positions;
      assert all == before + [all[|front|]];
      forall i | 0 <= i < |all| ensures target[all[i]] == query[i] {
        assert i < |front| ==> query[i] == front[i];
      }
    }
  }

  lemma EmbedsFront(target: string, query: string, positions: seq<nat>)
    requires query != "" && Embeds(target, query, positions)
    ensures Embeds(target, query[..|query| - 1], positions[..|query| - 1])
  {
  }

  lemma FirstIsLeast(s: string, c: char, from: nat, at: nat)
    requires from <= at < |s| && s[at] == c
    ensures IndexFrom(s, c, from).Some? && IndexFrom(s, c, from).value <= at
  {
  }

  /** No other way of finding the query reaches any of its characters earlier. */
  lemma {:induction false} ScanIsLeast(target: string, query: string, gain: Gain, positions: seq<nat>, i: nat)
    requires Embeds(target, query, positions)
    ensures Scan(target, query, gain).Some?
    ensures i < |query| ==> Scan(target, query, gain).value.positions[i] <= positions[i]
  {
    if query != "" {
      var n := |query| - 1;
      EmbedsFront(target, query, positions);
      ScanIsLeast(target, query[..n], gain, positions[..n], i);
      var before := Scan(target, query[..n], gain).value.positions;
      if n > 0 {
        ScanIsLeast(target, query[..n], gain, positions[..n], n - 1);
        assert before[n - 1] <= positions[n - 1] < positions[n];
      }
      FirstIsLeast(target, query[n], Previous(before) + 1, positions[n]);
    }
  }

  /** A subsequence is found somewhere. */
  lemma {:induction false} SubsequenceEmbeds(query: string, target: string) returns (positions: seq<nat>)
    requires IsSubsequence(query, target)
    ensures Embeds(target, query, positions)
    decreases |target|
  {
    if query == "" {
      positions := [];
    } else {
      var m := |target| - 1;
      if query[|query| - 1] == target[m] {
        var front := SubsequenceEmbeds(query[..|query| - 1], target[..m]);
        positions := front + [m];
      } else {
        positions := SubsequenceEmbeds(query, target[..m]);
      }
    }
  }

  lemma {:induction false} EmbeddedIsSubsequence(query: string, target: string, positions: seq<nat>)
    requires Embeds(target, query, positions)
    ensures IsSubsequence(query, target)
    decreases |target|
  {
    if query != "" {
      var n, m := |query| - 1, |target| - 1;
      assert forall i :: 0 <= i < n ==> positions[i] < positions[n];
      if query[n] == target[m] {
        EmbeddedIsSubsequence(query[..n], target[..m], positions[..n]);
      } else {
        EmbeddedIsSubsequence(query, target[..m], positions);
      }
    }
  }

  /**
   * The matcher finds a query exactly when it is a subsequence of the text, and the positions it
   * returns are increasing and, one by one, the earliest any match has.
   */
  lemma TheMatchIsTheLeastOne(target: string, query: string, gain: Gain)
    ensures Scan(target, query, gain).Some? <==> IsSubsequence(query, target)
    ensures Scan(target, query, gain).Some? ==> Embeds(target, query, Scan(target, query, gain).value.positions)
    ensures forall other, i :: Embeds(target, query, other) && 0 <= i < |query| && Scan(target, query, gain).Some? ==>
              Scan(target, query, gain).value.positions[i] <= other[i]
  {
    ScanEmbeds(target, query, gain);
    if IsSubsequence(query, target) {
      var positions := SubsequenceEmbeds(query, target);
      ScanIsLeast(target, query, gain, positions, 0);
    }
    if Scan(target, query, gain).Some? {
      EmbeddedIsSubsequence(query, target, Scan(target, query, gain).value.positions);
    }
    forall other, i | Embeds(target, query, other) && 0 <= i < |query| && Scan(target, query, gain).Some?
      ensures Scan(target, query, gain).value.positions[i] <= other[i]
    {
      ScanIsLeast(target, query, gain, other, i);
    }
  }

  // ------------------------------------------------------------- the score

  /** A matched character, its distance from the one before, and where it sits. */
  function StepGain(a: Alphabet, target: string, previous: int, at: nat): real {
    1.0
    + (if previous >= 0 && at == previous + 1 then 5.0
       else if previous >= 0 then -(Min(at - previous - 1, 3) as real)
       else 0.0)
    + (if at < |target| && IsBoundary(a, target, at) then 3.0 else 0.0)
    + (if at == 0 then 5.0 else 0.0)
  }

  function GainIn(a: Alphabet, target: string): Gain {
    (previous: int, at: nat) => StepGain(a, target, previous, at)
  }

  predicate IsPrefix(positions: seq<nat>) {
    positions != [] && positions[0] == 0 && positions[|positions| - 1] == |positions| - 1
  }

  /** The bonuses for a prefix and for an exact match, and a little off for length. */
  function Bonus(target: string, exact: bool, positions: seq<nat>): real {
    (if IsPrefix(positions) then 8.0 else 0.0) + (if exact then 20.0 else 0.0) - |target| as real * 0.01
  }

  function FuzzyScore(a: Alphabet, target: string, query: string): Option<Match> {
    if query == "" then Some(Match(0.0, []))
    else
      var found := Scan(Fold(a, target), Fold(a, query), GainIn(a, target));
      if found.None? then None
      else
        Some(Match(found.value.score + Bonus(target, Fold(a, target) == Fold(a, query), found.value.positions),
                   found.value.positions))
  }

  /** The search as it runs: one `indexOf` per character, the score kept alongside. */
  method ScanQuery(target: string, query: string, gain: Gain) returns (found: Option<Match>)
    ensures found == Scan(target, query, gain)
  {
    var positions: seq<nat> := [];
    var score := 0.0;
    var previous: int, i := -1, 0;
    assert query[..0] == "";
    assert Scan(target, query[..0], gain) == Some(Match(0.0, []));
    while i < |query|
      invariant 0 <= i <= |query| && previous == Previous(positions)
      invariant Scan(target, query[..i], gain) == Some(Match(score, positions))
    {
      ScanGoesOn(target, query, i, gain);
      var at := IndexFrom(target, query[i], previous + 1);
      if at.None? {
        ScanStops(target, query, i + 1, gain);
        return None;
      }
      PreviousIsLast(positions, at.value);
      score, positions, previous := score + gain(previous, at.value), positions + [at.value], at.value;
      i := i + 1;
    }
    ScanEnds(target, query, i, gain);
    found := Some(Match(score, positions));
  }

  lemma PreviousIsLast(positions: seq<nat>, at: nat)
    ensures Previous(positions + [at]) == at
  {
  }

  lemma ScanEnds(target: string, query: string, i: nat, gain: Gain)
    requires i == |query|
    ensures Scan(target, query[..i], gain) == Scan(target, query, gain)
  {
    assert query[..i] == query;
  }

  lemma ScanGoesOn(target: string, query: string, i: nat, gain: Gain)
    requires i < |query| && Scan(target, query[..i], gain).Some?
    ensures var before := Scan(target, query[..i], gain).value;
            var at := IndexFrom(target, query[i], Previous(before.positions) + 1);
            Scan(target, query[..i + 1], gain) ==
              if at.None? then None
              else Some(Match(before.score + gain(Previous(before.positions), at.value), before.positions + [at.value]))
  {
    assert query[..i + 1][..i] == query[..i];
  }

  lemma {:induction false} ScanStops(target: string, query: string, i: nat, gain: Gain)
    requires i <= |query| && Scan(target, query[..i], gain).None?
    ensures Scan(target, query, gain).None?
    decreases |query| - i
  {
    if i < |query| {
      assert query[..i + 1][..i] == query[..i];
      ScanStops(target, query, i + 1, gain);
    } else {
      assert query[..i] == query;
    }
  }

  method ScoreToken(a: Alphabet, target: string, query: string) returns (found: Option<Match>)
    ensures found == FuzzyScore(a, target, query)
  {
    if query == "" {
      return Some(Match(0.0, []));
    }
    var lowerTarget, lowerQuery := Fold(a, target), Fold(a, query);
    found := ScanQuery(lowerTarget, lowerQuery, GainIn(a, target));
    if found.Some? {
      found := Some(Match(found.value.score + Bonus(target, lowerTarget == lowerQuery, found.value.positions),
                          found.value.positions));
    }
  }

  // ------------------------------------------------------- several tokens

  /** How one token matches a given text. */
  type Scorer = string -> Option<Match>

  function ScorerFor(a: Alphabet, target: string): Scorer {
    token => FuzzyScore(a, target, token)
  }

  /** A position joins the ones already marked, in order and once. */
  function Mark(marked: seq<nat>, at: nat): seq<nat> {
    if marked == [] then [at]
    else if at < marked[0] then [at] + marked
    else if at == marked[0] then marked
    else [marked[0]] + Mark(marked[1..], at)
  }

  function MarkAll(marked: seq<nat>, positions: seq<nat>): seq<nat> {
    if positions == [] then marked else Mark(MarkAll(marked, positions[..|positions| - 1]), positions[|positions| - 1])
  }

  /** Every token has to match; the scores add up and the positions are united. */
  function ScoreAll(scorer: Scorer, tokens: seq<string>): Option<Match> {
    if tokens == [] then Some(Match(0.0, []))
    else
      var before, last := ScoreAll(scorer, tokens[..|tokens| - 1]), scorer(tokens[|tokens| - 1]);
      if before.None? || last.None? then None
      else Some(Match(before.value.score + last.value.score, MarkAll(before.value.positions, last.value.positions)))
  }

  ghost predicate Increasing(s: seq<nat>) {
    forall i, j :: 0 <= i < j < |s| ==> s[i] < s[j]
  }

  lemma {:induction false} MarkAdds(marked: seq<nat>, at: nat, k: nat)
    ensures k in Mark(marked, at) <==> k in marked || k == at
  {
    if marked != [] && at > marked[0] {
      MarkAdds(marked[1..], at, k);
      assert k in marked <==> k == marked[0] || k in marked[1..];
    }
  }

  lemma {:induction false} MarkOrders(marked: seq<nat>, at: nat)
    requires Increasing(marked)
    ensures Increasing(Mark(marked, at))
  {
    if marked != [] && at > marked[0] {
      MarkOrders(marked[1..], at);
      var rest := Mark(marked[1..], at);
      forall j | 0 <= j < |rest| ensures marked[0] < rest[j] {
        MarkAdds(marked[1..], at, rest[j]);
        assert rest[j] in rest;
      }
    }
  }

  lemma MarkUnites(marked: seq<nat>, at: nat)
    requires Increasing(marked)
    ensures var r := Mark(marked, at); Increasing(r) && forall k :: k in r <==> k in marked || k == at
  {
    MarkOrders(marked, at);
    forall k: nat ensures k in Mark(marked, at) <==> k in marked || k == at {
      MarkAdds(marked, at, k);
    }
  }

  lemma {:induction false} MarkAllUnites(marked: seq<nat>, positions: seq<nat>)
    requires Increasing(marked)
    ensures var r := MarkAll(marked, positions); Increasing(r) && forall k :: k in r <==> k in marked || k in positions
  {
    if positions != [] {
      var front, last := positions[..|positions| - 1], positions[|positions| - 1];
      MarkAllUnites(marked, front);
      MarkUnites(MarkAll(marked, front), last);
      assert forall k :: k in positions <==> k in front || k == last;
    }
  }

  ghost predicate MarkedBy(scorer: Scorer, token: string, k: nat) {
    scorer(token).Some? && k in scorer(token).value.positions
  }

  ghost predicate MarkedBySome(scorer: Scorer, tokens: seq<string>, k: nat) {
    exists i :: 0 <= i < |tokens| && MarkedBy(scorer, tokens[i], k)
  }

  lemma MarkedByLast(scorer: Scorer, tokens: seq<string>, k: nat)
    requires tokens != []
    ensures MarkedBySome(scorer, tokens, k) <==>
            MarkedBySome(scorer, tokens[..|tokens| - 1], k) || MarkedBy(scorer, tokens[|tokens| - 1], k)
  {
  }

  /** All tokens match exactly when each does, and what is marked, in order, is what each of them marks. */
  lemma {:induction false} AllTokensMark(scorer: Scorer, tokens: seq<string>)
    ensures ScoreAll(scorer, tokens).Some? <==> forall i :: 0 <= i < |tokens| ==> scorer(tokens[i]).Some?
    ensures ScoreAll(scorer, tokens).Some? ==>
              && Increasing(ScoreAll(scorer, tokens).value.positions)
              && forall k :: k in ScoreAll(scorer, tokens).value.positions <==> MarkedBySome(scorer, tokens, k)
  {
    if tokens != [] {
      var n := |tokens| - 1;
      AllTokensMark(scorer, tokens[..n]);
      assert forall i :: 0 <= i < n ==> tokens[..n][i] == tokens[i];
      if ScoreAll(scorer, tokens).Some? {
        var before := ScoreAll(scorer, tokens[..n]).value.positions;
        MarkAllUnites(before, scorer(tokens[n]).value.positions);
        forall k ensures k in ScoreAll(scorer, tokens).value.positions <==> MarkedBySome(scorer, tokens, k) {
          MarkedByLast(scorer, tokens, k);
        }
      }
    }
  }

  /** A text matches several tokens exactly when each of them is a subsequence of it. */
  lemma AllTokensMatch(a: Alphabet, target: string, tokens: seq<string>)
    ensures ScoreAll(ScorerFor(a, target), tokens).Some? <==>
              forall i :: 0 <= i < |tokens| ==> IsSubsequence(Fold(a, tokens[i]), Fold(a, target))
  {
    AllTokensMark(ScorerFor(a, target), tokens);
    forall i | 0 <= i < |tokens|
      ensures ScorerFor(a, target)(tokens[i]).Some? <==> IsSubsequence(Fold(a, tokens[i]), Fold(a, target))
    {
      TheMatchIsTheLeastOne(Fold(a, target), Fold(a, tokens[i]), GainIn(a, target));
    }
  }

  /** `fuzzyScoreMulti` over the tokens of the query. */
  method ScoreTokens(a: Alphabet, target: string, tokens: seq<string>) returns (found: Option<Match>)
    ensures found == ScoreAll(ScorerFor(a, target), tokens)
  {
    found := AddUp(ScorerFor(a, target), tokens);
  }

  method AddUp(scorer: Scorer, tokens: seq<string>) returns (found: Option<Match>)
    ensures found == ScoreAll(scorer, tokens)
  {
    var score := 0.0;
    var marked: seq<nat> := [];
    var i := 0;
    while i < |tokens|
      invariant 0 <= i <= |tokens|
      invariant ScoreAll(scorer, tokens[..i]) == Some(Match(score, marked))
    {
      assert tokens[..i + 1][..i] == tokens[..i];
      var one := scorer(tokens[i]);
      if one.None? {
        NoneOfAll(scorer, tokens, i + 1);
        return None;
      }
      score := score + one.value.score;
      marked := MarkAll(marked, one.value.positions);
      i := i + 1;
    }
    assert tokens[..i] == tokens;
    found := Some(Match(score, marked));
  }

  lemma {:induction false} NoneOfAll(scorer: Scorer, tokens: seq<string>, i: nat)
    requires i <= |tokens| && ScoreAll(scorer, tokens[..i]).None?
    ensures ScoreAll(scorer, tokens).None?
    decreases |tokens| - i
  {
    if i < |tokens| {
      assert tokens[..i + 1][..i] == tokens[..i];
      NoneOfAll(scorer, tokens, i + 1);
    } else {
      assert tokens[..i] == tokens;
    }
  }

  // ------------------------------------------------------------- the rank

  datatype Item = Item(id: nat, text: string)

  datatype Ranked = Ranked(item: Item, score: real, positions: seq<nat>)

  /** How the whole query matches a text. */
  type Ranker = string -> Option<Match>

  function RankerFor(a: Alphabet, tokens: seq<string>): Ranker {
    text => ScoreAll(ScorerFor(a, text), tokens)
  }

  /** The items that match, in their own order. */
  function Matching(items: seq<Item>, ranker: Ranker): seq<Ranked> {
    if items == [] then []
    else
      var last := items[|items| - 1];
      var found := ranker(last.text);
      Matching(items[..|items| - 1], ranker)
      + (if found.Some? then [Ranked(last, found.value.score, found.value.positions)] else [])
  }

  predicate NoWorse(x: Ranked, y: Ranked) {
    x.score >= y.score
  }

  /** The better first; equals keep their order. An empty query keeps everything as it is. */
  function FuzzyRank(a: Alphabet, items: seq<Item>, tokens: seq<string>): seq<Ranked> {
    if tokens == [] then seq(|items|, i requires 0 <= i < |items| => Ranked(items[i], 0.0, []))
    else Sort(Matching(items, RankerFor(a, tokens)), (x: Ranked, y: Ranked) => NoWorse(x, y))
  }

  lemma {:induction false} MatchingHasExactly(items: seq<Item>, ranker: Ranker, r: Ranked)
    ensures r in Matching(items, ranker) <==> r.item in items && ranker(r.item.text) == Some(Match(r.score, r.positions))
  {
    if items != [] {
      var front, last := items[..|items| - 1], items[|items| - 1];
      MatchingHasExactly(front, ranker, r);
      assert r.item in items <==> r.item in front || r.item == last;
    }
  }

  lemma RankingIsSorted(all: seq<Ranked>)
    ensures var leq := (x: Ranked, y: Ranked) => NoWorse(x, y);
            var ranked := Sort(all, leq);
            && multiset(ranked) == multiset(all)
            && (forall i, j :: 0 <= i < j < |ranked| ==> ranked[i].score >= ranked[j].score)
            && (forall r :: Tied(ranked, r, leq) == Tied(all, r, leq))
  {
    var leq := (x: Ranked, y: Ranked) => NoWorse(x, y);
    SortOrders(all, leq);
    var ranked := Sort(all, leq);
    forall i, j | 0 <= i < j < |ranked| ensures ranked[i].score >= ranked[j].score {
      assert leq(ranked[i], ranked[j]);
    }
    forall r ensures Tied(ranked, r, leq) == Tied(all, r, leq) {
      SortIsStable(all, r, leq);
    }
  }

  /**
   * Ranking returns exactly the items that match, each with its own match and as often as it came, the
   * best first, and equal scores in the order the items came.
   */
  lemma RankingIsExactAndStable(a: Alphabet, items: seq<Item>, tokens: seq<string>, r: Ranked)
    requires tokens != []
    ensures var ranked := FuzzyRank(a, items, tokens);
            && (r in ranked <==> r.item in items && RankerFor(a, tokens)(r.item.text) == Some(Match(r.score, r.positions)))
            && (forall i, j :: 0 <= i < j < |ranked| ==> ranked[i].score >= ranked[j].score)
    ensures var leq := (x: Ranked, y: Ranked) => NoWorse(x, y);
            var all := Matching(items, RankerFor(a, tokens));
            multiset(FuzzyRank(a, items, tokens)) == multiset(all) && Tied(FuzzyRank(a, items, tokens), r, leq) == Tied(all, r, leq)
  {
    var all := Matching(items, RankerFor(a, tokens));
    RankingIsSorted(all);
    MatchingHasExactly(items, RankerFor(a, tokens), r);
    var ranked := FuzzyRank(a, items, tokens);
    assert r in ranked <==> r in multiset(ranked);
    assert r in all <==> r in multiset(all);
  }
}
