/**
 * The probability engine of the Bayesian calculator panel: priors, per-box
 * likelihoods, marginals and posteriors for two boxes of red and blue balls.
 *
 * The page computes these with IEEE doubles; here every quantity is an exact
 * `real`, so the algebraic laws the page teaches hold exactly.
 */
module InfoPanel {
  import opened Wrappers
  import opened Types

  /** The numeric ball counts of one box, as the panel receives them. */
  datatype BoxConfig = BoxConfig(red: int, blue: int)

  /** The report the panel renders: every probability it shows. */
  datatype Report = Report(
    priorBox1: real,
    priorBox2: real,
    likelihoodRedBox1: real,
    likelihoodBlueBox1: real,
    likelihoodRedBox2: real,
    likelihoodBlueBox2: real,
    pRed: real,
    pBlue: real,
    posteriorBox1: real,
    posteriorBox2: real)

  /** Counts that a real box can hold. */
  predicate NonNegative(b: BoxConfig) {
    b.red >= 0 && b.blue >= 0
  }

  predicate InUnit(x: real) {
    0.0 <= x <= 1.0
  }

  function Total(b: BoxConfig): int {
    b.red + b.blue
  }

  function CountOf(b: BoxConfig, c: BallColor): int {
    match c
    case Red => b.red
    case Blue => b.blue
  }

  /** The prior of each box: the two boxes are equally likely. */
  const Prior: real := 0.5

  /** P(c | box): the share of colour c in the box, 0 for a box that holds nothing. */
  function Likelihood(b: BoxConfig, c: BallColor): (r: real)
    ensures NonNegative(b) ==> InUnit(r)
  {
    if Total(b) > 0 then
      DivInUnit(CountOf(b, c) as real, Total(b) as real);
      CountOf(b, c) as real / Total(b) as real
    else
      0.0
  }

  /** P(c): the total probability of drawing colour c, weighted by the priors. */
  function Marginal(box1: BoxConfig, box2: BoxConfig, c: BallColor): (r: real)
    ensures NonNegative(box1) && NonNegative(box2) ==> InUnit(r)
  {
    Likelihood(box1, c) * Prior + Likelihood(box2, c) * Prior
  }

  /** The whole report for two boxes and an optional observed colour. */
  function Calculate(box1: BoxConfig, box2: BoxConfig, evidence: Option<BallColor>): (r: Report)
    ensures r.priorBox1 == 0.5 && r.priorBox2 == 0.5
    ensures NonNegative(box1) && NonNegative(box2) ==>
              InUnit(r.likelihoodRedBox1) && InUnit(r.likelihoodBlueBox1)
              && InUnit(r.likelihoodRedBox2) && InUnit(r.likelihoodBlueBox2)
              && InUnit(r.pRed) && InUnit(r.pBlue)
  {
    var priorBox1 := Prior;
    var priorBox2 := Prior;
    var likelihoodRedBox1 := Likelihood(box1, Red);
    var likelihoodBlueBox1 := Likelihood(box1, Blue);
    var likelihoodRedBox2 := Likelihood(box2, Red);
    var likelihoodBlueBox2 := Likelihood(box2, Blue);
    var pRed := Marginal(box1, box2, Red);
    var pBlue := Marginal(box1, box2, Blue);
    var posteriors :=
      if evidence == Some(Red) && pRed > 0.0 then
        (likelihoodRedBox1 * priorBox1 / pRed, likelihoodRedBox2 * priorBox2 / pRed)
      else if evidence == Some(Blue) && pBlue > 0.0 then
        (likelihoodBlueBox1 * priorBox1 / pBlue, likelihoodBlueBox2 * priorBox2 / pBlue)
      else
        (priorBox1, priorBox2);
    Report(priorBox1, priorBox2,
           likelihoodRedBox1, likelihoodBlueBox1, likelihoodRedBox2, likelihoodBlueBox2,
           pRed, pBlue, posteriors.0, posteriors.1)
  }

  // ---------------------------------------------------------------------
  // Likelihoods
  // ---------------------------------------------------------------------

  /** A box whose total is not positive (an empty box) gives likelihood 0 to both colours. */
  lemma EmptyBoxLikelihoods(b: BoxConfig)
    requires Total(b) <= 0
    ensures Likelihood(b, Red) == 0.0 && Likelihood(b, Blue) == 0.0
  {
  }

  /** A non-empty box's two likelihoods add up to one. */
  lemma LikelihoodsSumToOne(b: BoxConfig)
    requires Total(b) > 0
    ensures Likelihood(b, Red) + Likelihood(b, Blue) == 1.0
  {
    var t := Total(b) as real;
    calc {
      Likelihood(b, Red) + Likelihood(b, Blue);
      b.red as real / t + b.blue as real / t;
      (b.red as real + b.blue as real) / t;
      t / t;
    }
  }

  // ---------------------------------------------------------------------
  // Marginals
  // ---------------------------------------------------------------------

  /**
   * P(Red) + P(Blue) is 1 when both boxes hold balls, 1/2 when exactly one
   * does and 0 when both are empty, for any counts: a box "holds balls" when
   * its total is positive, the test the likelihood itself makes.
   */
  lemma MarginalsSum(box1: BoxConfig, box2: BoxConfig)
    ensures Marginal(box1, box2, Red) + Marginal(box1, box2, Blue) ==
              if Total(box1) > 0 && Total(box2) > 0 then 1.0
              else if Total(box1) > 0 || Total(box2) > 0 then 0.5
              else 0.0
  {
    var s1 := Likelihood(box1, Red) + Likelihood(box1, Blue);
    var s2 := Likelihood(box2, Red) + Likelihood(box2, Blue);
    if Total(box1) > 0 { LikelihoodsSumToOne(box1); } else { EmptyBoxLikelihoods(box1); }
    if Total(box2) > 0 { LikelihoodsSumToOne(box2); } else { EmptyBoxLikelihoods(box2); }
    assert Marginal(box1, box2, Red) + Marginal(box1, box2, Blue) == s1 * Prior + s2 * Prior;
  }

  // ---------------------------------------------------------------------
  // Posteriors
  // ---------------------------------------------------------------------

  /** Without evidence the posteriors are the priors. */
  lemma NoEvidenceKeepsPriors(box1: BoxConfig, box2: BoxConfig)
    ensures Calculate(box1, box2, None).posteriorBox1 == 0.5
    ensures Calculate(box1, box2, None).posteriorBox2 == 0.5
  {
  }

  /** Evidence whose colour has no probability leaves the posteriors at the priors. */
  lemma ImpossibleEvidenceKeepsPriors(box1: BoxConfig, box2: BoxConfig, c: BallColor)
    requires !(Marginal(box1, box2, c) > 0.0)
    ensures Calculate(box1, box2, Some(c)).posteriorBox1 == 0.5
    ensures Calculate(box1, box2, Some(c)).posteriorBox2 == 0.5
  {
  }

  /** Bayes' rule: with evidence c of positive probability, P(box | c) = P(c | box) P(box) / P(c). */
  lemma BayesRule(box1: BoxConfig, box2: BoxConfig, c: BallColor)
    requires Marginal(box1, box2, c) > 0.0
    ensures var r := Calculate(box1, box2, Some(c));
            var p := Marginal(box1, box2, c);
            r.posteriorBox1 == Likelihood(box1, c) * Prior / p
            && r.posteriorBox2 == Likelihood(box2, c) * Prior / p
  {
  }

  /** For boxes with non-negative counts and any evidence, each posterior lies in [0, 1]. */
  lemma PosteriorsInUnit(box1: BoxConfig, box2: BoxConfig, evidence: Option<BallColor>)
    requires NonNegative(box1) && NonNegative(box2)
    ensures var r := Calculate(box1, box2, evidence);
            InUnit(r.posteriorBox1) && InUnit(r.posteriorBox2)
  {
    if evidence.Some? && Marginal(box1, box2, evidence.value) > 0.0 {
      var c := evidence.value;
      BayesRule(box1, box2, c);
      SharesInUnit(Likelihood(box1, c) * Prior, Likelihood(box2, c) * Prior);
    }
  }

  /** With evidence of positive probability the two posteriors add up to one. */
  lemma PosteriorsSumToOne(box1: BoxConfig, box2: BoxConfig, c: BallColor)
    requires Marginal(box1, box2, c) > 0.0
    ensures var r := Calculate(box1, box2, Some(c));
            r.posteriorBox1 + r.posteriorBox2 == 1.0
  {
    BayesRule(box1, box2, c);
    SharesSumToOne(Likelihood(box1, c) * Prior, Likelihood(box2, c) * Prior);
  }

  /** A box that holds nothing gets posterior 0, and the other box all of it. */
  lemma EmptyBoxPosterior(box1: BoxConfig, box2: BoxConfig, c: BallColor)
    requires Marginal(box1, box2, c) > 0.0
    ensures var r := Calculate(box1, box2, Some(c));
            (Total(box1) <= 0 ==> r.posteriorBox1 == 0.0 && r.posteriorBox2 == 1.0)
            && (Total(box2) <= 0 ==> r.posteriorBox2 == 0.0 && r.posteriorBox1 == 1.0)
  {
    BayesRule(box1, box2, c);
    PosteriorsSumToOne(box1, box2, c);
  }

  /**
   * Because the priors are equal, the box the evidence favours is the box in
   * which the observed colour is at least as likely.
   */
  lemma PosteriorOrderFollowsLikelihood(box1: BoxConfig, box2: BoxConfig, c: BallColor)
    requires Marginal(box1, box2, c) > 0.0
    ensures var r := Calculate(box1, box2, Some(c));
            r.posteriorBox1 >= r.posteriorBox2 <==> Likelihood(box1, c) >= Likelihood(box2, c)
  {
    BayesRule(box1, box2, c);
    SharesOrder(Likelihood(box1, c) * Prior, Likelihood(box2, c) * Prior);
  }

  // ---------------------------------------------------------------------
  // The page's worked examples
  // ---------------------------------------------------------------------

  /** Boxes 3/7 and 6/4, a red ball drawn: P(Red) = 9/20, posteriors 1/3 and 2/3. */
  lemma DefaultBoxesRed()
    ensures var r := Calculate(BoxConfig(3, 7), BoxConfig(6, 4), Some(Red));
            r.likelihoodRedBox1 == 0.3 && r.likelihoodRedBox2 == 0.6
            && r.pRed == 0.45
            && r.posteriorBox1 == 1.0 / 3.0 && r.posteriorBox2 == 2.0 / 3.0
  {
    var box1, box2 := BoxConfig(3, 7), BoxConfig(6, 4);
    assert Likelihood(box1, Red) == 0.3;
    assert Likelihood(box2, Red) == 0.6;
    assert Marginal(box1, box2, Red) == 0.45;
    BayesRule(box1, box2, Red);
    assert 0.3 * Prior / 0.45 == 1.0 / 3.0 && 0.6 * Prior / 0.45 == 2.0 / 3.0;
  }

  /** Boxes 3/7 and 6/4, a blue ball drawn: P(Blue) = 11/20, posteriors 7/11 and 4/11. */
  lemma DefaultBoxesBlue()
    ensures var r := Calculate(BoxConfig(3, 7), BoxConfig(6, 4), Some(Blue));
            r.likelihoodBlueBox1 == 0.7 && r.likelihoodBlueBox2 == 0.4
            && r.pBlue == 0.55
            && r.posteriorBox1 == 7.0 / 11.0 && r.posteriorBox2 == 4.0 / 11.0
  {
    var box1, box2 := BoxConfig(3, 7), BoxConfig(6, 4);
    assert Likelihood(box1, Blue) == 0.7;
    assert Likelihood(box2, Blue) == 0.4;
    assert Marginal(box1, box2, Blue) == 0.55;
    BayesRule(box1, box2, Blue);
    assert 0.7 * Prior / 0.55 == 7.0 / 11.0 && 0.4 * Prior / 0.55 == 4.0 / 11.0;
  }

  /** An empty first box beside a 5/5 box, a red ball drawn: posteriors 0 and 1. */
  lemma EmptyFirstBoxRed()
    ensures var r := Calculate(BoxConfig(0, 0), BoxConfig(5, 5), Some(Red));
            r.likelihoodRedBox1 == 0.0 && r.posteriorBox1 == 0.0 && r.posteriorBox2 == 1.0
  {
    var box1, box2 := BoxConfig(0, 0), BoxConfig(5, 5);
    assert Likelihood(box1, Red) == 0.0;
    assert Likelihood(box2, Red) == 0.5;
    assert Marginal(box1, box2, Red) == 0.25;
    BayesRule(box1, box2, Red);
  }

  // ---------------------------------------------------------------------
  // Real arithmetic helpers
  // ---------------------------------------------------------------------

  lemma SharesInUnit(x: real, y: real)
    requires x >= 0.0 && y >= 0.0 && x + y > 0.0
    ensures InUnit(x / (x + y)) && InUnit(y / (x + y))
  {
    DivInUnit(x, x + y);
    DivInUnit(y, x + y);
  }

  /** A quotient of a non-negative number by a larger positive one lies in [0, 1]. */
  lemma DivInUnit(a: real, t: real)
    requires t > 0.0
    ensures 0.0 <= a <= t ==> InUnit(a / t)
  {
    var q := a / t;
    assert q * t == a;
    assert (1.0 - q) * t == t - a;
  }

  lemma SharesSumToOne(x: real, y: real)
    requires x + y > 0.0
    ensures x / (x + y) + y / (x + y) == 1.0
  {
  }

  lemma SharesOrder(x: real, y: real)
    requires x + y > 0.0
    ensures x / (x + y) >= y / (x + y) <==> x >= y
  {
  }
}
