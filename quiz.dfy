/** The quiz itself: the ten fixed A/B questions and `score_profile`, which
    tallies the "A" answers, counts everything else as "B", and maps the
    tally to one of three labels by a margin-of-two rule. */
module Quiz {

  /** One prompt with its creative (A) and analytical (B) option. */
  datatype Question = Question(topic: string, optionA: string, optionB: string)

  /** `QUESTIONS`: ten prompts in a fixed order; "A" leans creative and
      "B" leans analytical. */
  const Questions: seq<Question> := [
    Question("Briefs", "A. Start with moodboards and angles", "B. Start with metrics, baseline and constraints"),
    Question("Brainstorming", "A. Diverge wildly first, sort later", "B. Define criteria first, ideate within bounds"),
    Question("New campaign", "A. Big concept that people feel", "B. Clear hypothesis you can A/B test"),
    Question("Copy choice", "A. Memorable voice that zigs", "B. Clarity + relevance from keyword data"),
    Question("Visual direction", "A. Distinctive art that sparks talk", "B. Guideline-aligned, consistent and legible"),
    Question("Prioritisation", "A. Back the idea with potential buzz", "B. Back the item with highest projected ROI"),
    Question("Ambiguity", "A. Explore possibilities", "B. Reduce uncertainty with a small test"),
    Question("Feedback", "A. Audience gut-feel matters most", "B. Quant feedback matters most"),
    Question("Iteration", "A. Keep crafting until it \U{2018}clicks\U{2019}", "B. Ship, measure, then optimize "),
    Question("Wins", "A. Talk about concept & craft", "B. Talk about lift, CAC, ROAS, CTR")
  ]

  /** The three profiles `score_profile` can return. */
  datatype Label = CreativeMaven | AnalyticalAce | HybridSynthesizer

  /** The label as the page writes it. */
  function LabelName(l: Label): string
  {
    match l
    case CreativeMaven => "Creative Maven"
    case AnalyticalAce => "Analytical Ace"
    case HybridSynthesizer => "Hybrid Synthesizer"
  }

  /** The triple `(label, a, b)` that `score_profile` returns; the label is
      kept in the field `profile`, the name of its CSV column. */
  datatype Score = Score(profile: Label, a: nat, b: nat)

  /** Every answer is one of the two radio options. */
  predicate AllAB(answers: seq<string>)
  {
    forall i :: 0 <= i < |answers| ==> answers[i] == "A" || answers[i] == "B"
  }

  /** A full answer sheet: one "A" or "B" per question. */
  predicate IsAnswerSheet(answers: seq<string>)
  {
    |answers| == |Questions| && AllAB(answers)
  }

  /** `sum(1 for x in answers if x == "A")`: the number of entries equal to
      "A", which is at most the length. */
  function CountA(answers: seq<string>): (n: nat)
    ensures n == multiset(answers)["A"]
    ensures n <= |answers|
  {
    if answers == [] then 0
    else
      assert answers == [answers[0]] + answers[1..];
      (if answers[0] == "A" then 1 else 0) + CountA(answers[1..])
  }

  /** The if/elif chain of `score_profile`: "Creative Maven" needs A ahead by
      at least two, "Analytical Ace" needs B ahead by at least two, and a
      tally within one either way is "Hybrid Synthesizer". */
  function Classify(a: int, b: int): (l: Label)
    ensures l == CreativeMaven <==> a >= b + 2
    ensures l == AnalyticalAce <==> b >= a + 2
    ensures l == HybridSynthesizer <==> -1 <= a - b <= 1
  {
    if a >= b + 2 then CreativeMaven
    else if b >= a + 2 then AnalyticalAce
    else HybridSynthesizer
  }

  /** `score_profile(answers)`. `a` is the number of "A" entries, `b` the
      number of all other entries, whatever they are, so the two add up to
      the length; the label is the margin-of-two classification of them. */
  function ScoreProfile(answers: seq<string>): (p: Score)
    ensures p.a + p.b == |answers|
    ensures p.a == multiset(answers)["A"]
    ensures p.b == |multiset(answers)| - multiset(answers)["A"]
    ensures p.profile == CreativeMaven <==> p.a >= p.b + 2
    ensures p.profile == AnalyticalAce <==> p.b >= p.a + 2
    ensures p.profile == HybridSynthesizer <==> -1 <= p.a - p.b <= 1
  {
    var a := CountA(answers);
    var b := |answers| - a;
    Score(Classify(a, b), a, b)
  }

  /** With only "A" and "B" answers, `b` is exactly the number of "B" entries. */
  lemma {:induction false} CountsAreAB(answers: seq<string>)
    requires AllAB(answers)
    ensures ScoreProfile(answers).b == multiset(answers)["B"]
  {
    if answers != [] {
      var rest := answers[1..];
      assert answers == [answers[0]] + rest;
      assert AllAB(rest) by {
        forall i | 0 <= i < |rest| ensures rest[i] == "A" || rest[i] == "B" {
          assert rest[i] == answers[i + 1];
        }
      }
      CountsAreAB(rest);
    }
  }

  /** Only the multiset of answers matters: any permutation of the answer
      list gives the same label and the same counts. */
  lemma ScoreIgnoresOrder(answers: seq<string>, shuffled: seq<string>)
    requires multiset(answers) == multiset(shuffled)
    ensures ScoreProfile(answers) == ScoreProfile(shuffled)
  {
  }

  /** In particular, answering the same questions in two blocks in either
      order scores the same. */
  lemma ScoreIgnoresBlockOrder(first: seq<string>, second: seq<string>)
    ensures ScoreProfile(first + second) == ScoreProfile(second + first)
  {
  }

  // ---------------------------------------------------------------------
  // The ten-question quiz
  // ---------------------------------------------------------------------

  /** On a ten-answer sheet, six or more A's give "Creative Maven", four or
      fewer give "Analytical Ace", and "Hybrid Synthesizer" happens exactly
      at a 5/5 split. */
  lemma TenItemLabels(answers: seq<string>)
    requires |answers| == |Questions|
    ensures |Questions| == 10
    ensures ScoreProfile(answers).profile == CreativeMaven <==> ScoreProfile(answers).a >= 6
    ensures ScoreProfile(answers).profile == AnalyticalAce <==> ScoreProfile(answers).a <= 4
    ensures ScoreProfile(answers).profile == HybridSynthesizer <==> ScoreProfile(answers).a == 5
  {
  }

  /** `n` copies of `x`. */
  function Repeat(x: string, n: nat): (r: seq<string>)
    ensures |r| == n
    ensures forall i :: 0 <= i < n ==> r[i] == x
  {
    if n == 0 then [] else [x] + Repeat(x, n - 1)
  }

  /** `n` copies of `x` hold `x` exactly `n` times and nothing else. */
  lemma {:induction false} RepeatCounts(x: string, n: nat, y: string)
    ensures multiset(Repeat(x, n))[y] == if y == x then n else 0
  {
    if n > 0 {
      assert Repeat(x, n) == [x] + Repeat(x, n - 1);
      RepeatCounts(x, n - 1, y);
    }
  }

  /** The sheet with `k` A's and the rest B's. */
  function Sheet(k: nat): seq<string>
    requires k <= 10
  {
    Repeat("A", k) + Repeat("B", 10 - k)
  }

  /** A sheet with `k` A's scores `k` against `10 - k`. */
  lemma SheetScore(k: nat)
    requires k <= 10
    ensures ScoreProfile(Sheet(k)) == Score(Classify(k, 10 - k), k, 10 - k)
  {
    RepeatCounts("A", k, "A");
    RepeatCounts("B", 10 - k, "A");
    assert multiset(Sheet(k)) == multiset(Repeat("A", k)) + multiset(Repeat("B", 10 - k));
  }

  /** The boundary tallies of the ten-question quiz. */
  lemma TenItemBoundaries()
    ensures ScoreProfile(Sheet(6)) == Score(CreativeMaven, 6, 4)
    ensures ScoreProfile(Sheet(5)) == Score(HybridSynthesizer, 5, 5)
    ensures ScoreProfile(Sheet(4)) == Score(AnalyticalAce, 4, 6)
    ensures ScoreProfile(Sheet(7)) == Score(CreativeMaven, 7, 3)
    ensures ScoreProfile(Sheet(10)) == Score(CreativeMaven, 10, 0)
    ensures ScoreProfile(Sheet(0)) == Score(AnalyticalAce, 0, 10)
  {
    SheetScore(6);
    SheetScore(5);
    SheetScore(4);
    SheetScore(7);
    SheetScore(10);
    SheetScore(0);
  }

  // ---------------------------------------------------------------------
  // A/B symmetry
  // ---------------------------------------------------------------------

  /** Exchanges "A" and "B"; any other value is left as it is. */
  function Swap(x: string): string
  {
    if x == "A" then "B" else if x == "B" then "A" else x
  }

  /** Every answer with "A" and "B" exchanged. */
  function SwapAll(answers: seq<string>): (r: seq<string>)
    ensures |r| == |answers|
    ensures forall i :: 0 <= i < |answers| ==> r[i] == Swap(answers[i])
  {
    if answers == [] then [] else [Swap(answers[0])] + SwapAll(answers[1..])
  }

  /** The label of the opposite tally. */
  function Mirror(l: Label): Label
  {
    match l
    case CreativeMaven => AnalyticalAce
    case AnalyticalAce => CreativeMaven
    case HybridSynthesizer => HybridSynthesizer
  }

  lemma {:induction false} CountASwapped(answers: seq<string>)
    requires AllAB(answers)
    ensures CountA(SwapAll(answers)) == |answers| - CountA(answers)
  {
    if answers != [] {
      var rest := answers[1..];
      assert SwapAll(answers)[1..] == SwapAll(rest);
      assert AllAB(rest) by {
        forall i | 0 <= i < |rest| ensures rest[i] == "A" || rest[i] == "B" {
          assert rest[i] == answers[i + 1];
        }
      }
      CountASwapped(rest);
    }
  }

  /** Exchanging every "A" and "B" exchanges the two counts and the two
      one-sided labels, and keeps "Hybrid Synthesizer". */
  lemma ScoreSymmetric(answers: seq<string>)
    requires AllAB(answers)
    ensures var p := ScoreProfile(answers);
      ScoreProfile(SwapAll(answers)) == Score(Mirror(p.profile), p.b, p.a)
  {
    CountASwapped(answers);
  }

  /** The symmetry needs the two-option alphabet: any value other than "A"
      and "B" is left alone by the exchange and counts as "B" both before
      and after it, so the one-answer list holding it breaks the equation of
      `ScoreSymmetric`. */
  lemma SymmetryNeedsTwoOptions(x: string)
    requires x != "A" && x != "B"
    ensures Swap(x) == x
    ensures var p := ScoreProfile([x]);
      ScoreProfile(SwapAll([x])) != Score(Mirror(p.profile), p.b, p.a)
  {
    assert SwapAll([x]) == [x];
    assert [x][0] != "A";
  }
}
