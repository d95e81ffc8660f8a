/**
 * `generate_quiz` of frontend/app.py: two questions drawn from every section
 * of the bank, tagged with their section, then the whole list shuffled.
 *
 * The two sources of randomness are injected: `picks[s]` is the pair of
 * distinct question indices that `random.sample(questions, 2)` returns for
 * section `s`, and `swaps[i]` is the index in [0, i] that the Fisher-Yates
 * pass of `random.shuffle` exchanges position `i` with. Every permutation of
 * the list is reachable through some `swaps`.
 */
module QuizGenerator {
  import opened QuestionBank

  /** Per section, two different valid question indices. */
  predicate ValidPicks(bank: seq<Section>, picks: seq<(nat, nat)>)
  {
    && |picks| == |bank|
    && forall s :: 0 <= s < |bank| ==>
         picks[s].0 < |bank[s].questions| && picks[s].1 < |bank[s].questions| && picks[s].0 != picks[s].1
  }

  /** Shuffle choices for a list of `n` items: position `i` is exchanged with `swaps[i] <= i`. */
  predicate ValidSwaps(swaps: seq<nat>, n: nat)
  {
    |swaps| == n && forall i :: 0 <= i < n ==> swaps[i] <= i
  }

  /** The list before shuffling: for each section in bank order, its two picked questions, tagged. */
  function Drawn(bank: seq<Section>, picks: seq<(nat, nat)>): (quiz: seq<QuizItem>)
    requires ValidPicks(bank, picks)
    ensures |quiz| == 2 * |bank|
    decreases |bank|
  {
    if |bank| == 0 then []
    else
      var k := |bank| - 1;
      Drawn(bank[..k], picks[..k])
        + [Tag(bank[k].name, bank[k].questions[picks[k].0]), Tag(bank[k].name, bank[k].questions[picks[k].1])]
  }

  function Swap<T>(s: seq<T>, i: nat, j: nat): seq<T>
    requires i < |s| && j < |s|
  {
    s[i := s[j]][j := s[i]]
  }

  /** The list after the shuffle's exchange steps for positions `i - 1` down to `1`. */
  function ShuffleSteps(quiz: seq<QuizItem>, swaps: seq<nat>, i: nat): (r: seq<QuizItem>)
    requires i <= |quiz| && ValidSwaps(swaps, |quiz|)
    decreases i
  {
    if i <= 1 then quiz else ShuffleSteps(Swap(quiz, i - 1, swaps[i - 1]), swaps, i - 1)
  }

  /** The quiz `generate_quiz` returns for the given random choices. */
  function Generated(bank: seq<Section>, picks: seq<(nat, nat)>, swaps: seq<nat>): seq<QuizItem>
    requires ValidPicks(bank, picks) && ValidSwaps(swaps, 2 * |bank|)
  {
    ShuffleSteps(Drawn(bank, picks), swaps, 2 * |bank|)
  }

  /** The section tag of every item, in quiz order. */
  function Sections(quiz: seq<QuizItem>): seq<string>
  {
    seq(|quiz|, k requires 0 <= k < |quiz| => quiz[k].section)
  }

  /** The section names of the bank, in bank order. */
  function Names(bank: seq<Section>): seq<string>
  {
    seq(|bank|, s requires 0 <= s < |bank| => bank[s].name)
  }

  /** The item is some bank question, tagged with that question's own section. */
  predicate FromBank(bank: seq<Section>, item: QuizItem)
  {
    exists s, j :: 0 <= s < |bank| && 0 <= j < |bank[s].questions| && item == Tag(bank[s].name, bank[s].questions[j])
  }

  predicate Distinct(quiz: seq<QuizItem>)
  {
    forall i, j :: 0 <= i < j < |quiz| ==> quiz[i] != quiz[j]
  }

  /**
   * What a generated quiz guarantees: two items per section, every item a
   * bank question copied unchanged under its own section, every section
   * present exactly twice, and no question twice.
   */
  predicate WellShapedQuiz(bank: seq<Section>, quiz: seq<QuizItem>)
  {
    && |quiz| == 2 * |bank|
    && (forall k :: 0 <= k < |quiz| ==> FromBank(bank, quiz[k]))
    && (forall s :: 0 <= s < |bank| ==> multiset(Sections(quiz))[bank[s].name] == 2)
    && Distinct(quiz)
  }

  /** Item `k` of the drawn list is the `k % 2`-th pick of section `k / 2`. */
  lemma {:induction false} DrawnAt(bank: seq<Section>, picks: seq<(nat, nat)>, k: nat)
    requires ValidPicks(bank, picks) && k < 2 * |bank|
    ensures Drawn(bank, picks)[k]
         == Tag(bank[k / 2].name, bank[k / 2].questions[if k % 2 == 0 then picks[k / 2].0 else picks[k / 2].1])
  {
    var n := |bank| - 1;
    if k < 2 * n {
      DrawnAt(bank[..n], picks[..n], k);
    }
  }

  /** Before shuffling, a section name occurs twice if it is a bank section and never otherwise. */
  lemma {:induction false} DrawnSectionCount(bank: seq<Section>, picks: seq<(nat, nat)>, x: string)
    requires ValidPicks(bank, picks) && DistinctNames(bank)
    ensures multiset(Sections(Drawn(bank, picks)))[x] == if x in Names(bank) then 2 else 0
  {
    if |bank| > 0 {
      var n := |bank| - 1;
      var pre := Drawn(bank[..n], picks[..n]);
      DrawnSectionCount(bank[..n], picks[..n], x);
      assert Sections(Drawn(bank, picks)) == Sections(pre) + [bank[n].name, bank[n].name];
      assert Names(bank) == Names(bank[..n]) + [bank[n].name];
      if x == bank[n].name {
        forall s | 0 <= s < n ensures Names(bank[..n])[s] != x { }
      }
    }
  }

  /** Before shuffling, no question occurs twice. */
  lemma DrawnDistinct(bank: seq<Section>, picks: seq<(nat, nat)>)
    requires ValidPicks(bank, picks) && WellFormedBank(bank)
    ensures Distinct(Drawn(bank, picks))
  {
    var d := Drawn(bank, picks);
    forall i, j | 0 <= i < j < |d| ensures d[i] != d[j] {
      DrawnAt(bank, picks, i);
      DrawnAt(bank, picks, j);
      if i / 2 == j / 2 {
        var s := i / 2;
        assert DistinctPrompts(bank[s].questions);
        assert i % 2 == 0 && j % 2 == 1;
      }
    }
  }

  /** One exchange step keeps the items, the section tags and distinctness. */
  lemma SwapPreserves(quiz: seq<QuizItem>, i: nat, j: nat)
    requires i < |quiz| && j < |quiz|
    ensures multiset(Swap(quiz, i, j)) == multiset(quiz)
    ensures multiset(Sections(Swap(quiz, i, j))) == multiset(Sections(quiz))
    ensures Distinct(quiz) ==> Distinct(Swap(quiz, i, j))
  {
    assert Sections(Swap(quiz, i, j)) == Swap(Sections(quiz), i, j);
    if Distinct(quiz) {
      var q := Swap(quiz, i, j);
      forall a, b | 0 <= a < b < |q| ensures q[a] != q[b] {
        var a' := if a == i then j else if a == j then i else a;
        var b' := if b == i then j else if b == j then i else b;
        assert q[a] == quiz[a'] && q[b] == quiz[b'];
        assert a' != b';
      }
    }
  }

  /** Shuffling keeps the items, the section tags and distinctness. */
  lemma {:induction false} ShufflePreserves(quiz: seq<QuizItem>, swaps: seq<nat>, i: nat)
    requires i <= |quiz| && ValidSwaps(swaps, |quiz|)
    ensures |ShuffleSteps(quiz, swaps, i)| == |quiz|
    ensures multiset(ShuffleSteps(quiz, swaps, i)) == multiset(quiz)
    ensures multiset(Sections(ShuffleSteps(quiz, swaps, i))) == multiset(Sections(quiz))
    ensures Distinct(quiz) ==> Distinct(ShuffleSteps(quiz, swaps, i))
    decreases i
  {
    if i > 1 {
      SwapPreserves(quiz, i - 1, swaps[i - 1]);
      ShufflePreserves(Swap(quiz, i - 1, swaps[i - 1]), swaps, i - 1);
    }
  }

  /** Choosing "exchange with itself" at every step leaves the list in draw order. */
  lemma {:induction false} SelfSwapsKeepOrder(quiz: seq<QuizItem>, swaps: seq<nat>, i: nat)
    requires i <= |quiz| && ValidSwaps(swaps, |quiz|)
    requires forall k :: 0 <= k < |swaps| ==> swaps[k] == k
    ensures ShuffleSteps(quiz, swaps, i) == quiz
    decreases i
  {
    if i > 1 {
      assert Swap(quiz, i - 1, swaps[i - 1]) == quiz;
      SelfSwapsKeepOrder(quiz, swaps, i - 1);
    }
  }

  /** The structural guarantees of `generate_quiz`, whatever the random choices. */
  lemma GeneratedQuizShape(bank: seq<Section>, picks: seq<(nat, nat)>, swaps: seq<nat>)
    requires WellFormedBank(bank) && ValidPicks(bank, picks) && ValidSwaps(swaps, 2 * |bank|)
    ensures multiset(Generated(bank, picks, swaps)) == multiset(Drawn(bank, picks))
    ensures WellShapedQuiz(bank, Generated(bank, picks, swaps))
  {
    var d := Drawn(bank, picks);
    var q := Generated(bank, picks, swaps);
    ShufflePreserves(d, swaps, 2 * |bank|);
    DrawnDistinct(bank, picks);
    forall s | 0 <= s < |bank| ensures multiset(Sections(q))[bank[s].name] == 2 {
      DrawnSectionCount(bank, picks, bank[s].name);
      assert Names(bank)[s] == bank[s].name;
    }
    forall k | 0 <= k < |q| ensures FromBank(bank, q[k]) {
      assert q[k] in multiset(d);
      var m :| 0 <= m < |d| && d[m] == q[k];
      DrawnAt(bank, picks, m);
      var j := if m % 2 == 0 then picks[m / 2].0 else picks[m / 2].1;
      assert q[k] == Tag(bank[m / 2].name, bank[m / 2].questions[j]);
    }
  }

  /**
   * `generate_quiz` over a bank: the draw loop appends two tagged items per
   * section, then the shuffle exchanges items in place.
   */
  method GenerateQuiz(bank: seq<Section>, picks: seq<(nat, nat)>, swaps: seq<nat>) returns (quiz: seq<QuizItem>)
    requires ValidPicks(bank, picks) && ValidSwaps(swaps, 2 * |bank|)
    ensures quiz == Generated(bank, picks, swaps)
    ensures WellFormedBank(bank) ==> WellShapedQuiz(bank, quiz)
  {
    quiz := [];
    var s := 0;
    while s < |bank|
      invariant 0 <= s <= |bank|
      invariant quiz == Drawn(bank[..s], picks[..s])
    {
      var questions := bank[s].questions;
      var first, second := questions[picks[s].0], questions[picks[s].1];
      quiz := quiz + [Tag(bank[s].name, first)];
      quiz := quiz + [Tag(bank[s].name, second)];
      assert bank[..s + 1][..s] == bank[..s] && picks[..s + 1][..s] == picks[..s];
      s := s + 1;
    }
    assert bank[..s] == bank && picks[..s] == picks;
    var i := |quiz|;
    while i > 1
      invariant 0 <= i <= |quiz| == 2 * |bank|
      invariant ShuffleSteps(quiz, swaps, i) == Generated(bank, picks, swaps)
    {
      i := i - 1;
      var j := swaps[i];
      quiz := quiz[i := quiz[j]][j := quiz[i]];
    }
    if WellFormedBank(bank) {
      GeneratedQuizShape(bank, picks, swaps);
    }
  }
}
