/** The naive Bayes classifier: each test tweet gets a positive and a negative
    score (the class prior times one factor per token), the larger score
    decides the predicted sentiment, and the predictions are compared with the
    labels in a confusion matrix and four ratio metrics. */
module Classifier {
  import opened Common
  import opened Tokenizer
  import opened Dictionaries

  // Cells of the confusion matrix.
  const TP := 0
  const FN := 1
  const FP := 2
  const TN := 3

  // Positions in the list of metrics.
  const ACCURACY := 0
  const PRECISION := 1
  const RECALL := 2
  const SPECIFICITY := 3

  /** The prediction for a tweet whose two scores are equal. */
  const UNDETERMINED := 2

  /** What the classifier reads from one class: its prior, its word counts,
      its number of distinct words and its total number of occurrences. */
  datatype ClassModel = ClassModel(prior: real, counts: WordCounts, len: nat, card: nat)

  /** The share of one class among the training tweets. */
  function Prior(splNb: int, otherSplNb: int): real
    requires splNb + otherSplNb != 0
  {
    splNb as real / (splNb + otherSplNb) as real
  }

  /** The two priors add up to one. */
  lemma PriorsSumToOne(posSplNb: int, negSplNb: int)
    requires posSplNb + negSplNb != 0
    ensures Prior(posSplNb, negSplNb) + Prior(negSplNb, posSplNb) == 1.0
  {
    var t := (posSplNb + negSplNb) as real;
    assert Prior(negSplNb, posSplNb) == negSplNb as real / t;
    assert posSplNb as real / t + negSplNb as real / t == t / t;
  }

  /** The model of one class: the prior from the training counts, the
      dictionary, its length and its total number of occurrences. */
  ghost function Model(counts: WordCounts, splNb: int, otherSplNb: int): ClassModel
    requires splNb + otherSplNb != 0
  {
    ClassModel(Prior(splNb, otherSplNb), counts, |counts|, Card(counts))
  }

  /** The factor's denominator is not zero: `len + card` with smoothing,
      `card` without. */
  predicate Defined(c: ClassModel, laplace: bool) {
    if laplace then c.len + c.card != 0 else c.card != 0
  }

  /** For a dictionary whose counts are all positive, both denominators are
      non-zero exactly when the dictionary has a word. */
  lemma DefinedIffNonEmpty(counts: WordCounts, splNb: int, otherSplNb: int, laplace: bool)
    requires splNb + otherSplNb != 0 && Positive(counts)
    ensures Defined(Model(counts, splNb, otherSplNb), laplace) <==> counts != map[]
  {
    LengthAtMostCard(counts);
  }

  /** The factor one token contributes to a class score: `(count + 1) / (len +
      card)` with smoothing, `count / card` without; unknown words count 0. */
  function Factor(c: ClassModel, w: string, laplace: bool): (f: real)
    requires Defined(c, laplace)
    ensures f >= 0.0
    ensures laplace ==> f > 0.0
    ensures !laplace ==> (f == 0.0 <==> Count(c.counts, w) == 0)
  {
    if laplace then (Count(c.counts, w) + 1) as real / (c.len + c.card) as real
    else Count(c.counts, w) as real / c.card as real
  }

  /** The product of a running score and one more factor. It is `*` itself,
      named so that the solver treats score products as terms: the lemmas
      about scores match on `Times` instead of unfolding nonlinear arithmetic. */
  function Times(x: real, y: real): real {
    x * y
  }

  /** The score of a class for the tokens `toks`: the prior times the factor
      of every token. */
  function Score(c: ClassModel, toks: seq<string>, laplace: bool): (p: real)
    requires toks != [] ==> Defined(c, laplace)
    decreases |toks|
  {
    if toks == [] then c.prior
    else Times(Score(c, toks[..|toks| - 1], laplace), Factor(c, toks[|toks| - 1], laplace))
  }

  /** A score is never negative when the prior is not, and with smoothing a
      positive prior keeps it positive. */
  lemma {:induction false} ScoreSign(c: ClassModel, toks: seq<string>, laplace: bool)
    requires toks != [] ==> Defined(c, laplace)
    ensures c.prior >= 0.0 ==> Score(c, toks, laplace) >= 0.0
    ensures laplace && c.prior > 0.0 ==> Score(c, toks, laplace) > 0.0
    decreases |toks|
  {
    if toks != [] {
      var n := |toks| - 1;
      ScoreSign(c, toks[..n], laplace);
      if c.prior >= 0.0 {
        MulMonotone(Score(c, toks[..n], laplace), 0.0, Factor(c, toks[n], laplace), 0.0);
      }
      if laplace && c.prior > 0.0 {
        MulPositive(Score(c, toks[..n], laplace), Factor(c, toks[n], laplace));
      }
    }
  }

  /** Without smoothing, one token the class has never seen makes its score 0. */
  lemma {:induction false} UnseenWordZeroScore(c: ClassModel, toks: seq<string>, i: int)
    requires Defined(c, false) && 0 <= i < |toks| && Count(c.counts, toks[i]) == 0
    ensures Score(c, toks, false) == 0.0
    decreases |toks|
  {
    var n := |toks| - 1;
    if i < n {
      UnseenWordZeroScore(c, toks[..n], i);
    }
  }

  /** With smoothing, equal priors and equal denominators, a class that has
      seen every token at least as often scores at least as high. */
  lemma {:induction false} SmoothedScoreDominates(pos: ClassModel, neg: ClassModel, toks: seq<string>)
    requires Defined(pos, true) && Defined(neg, true)
    requires pos.prior == neg.prior >= 0.0 && pos.len + pos.card == neg.len + neg.card
    requires forall i :: 0 <= i < |toks| ==> Count(neg.counts, toks[i]) <= Count(pos.counts, toks[i])
    ensures Score(neg, toks, true) <= Score(pos, toks, true)
    decreases |toks|
  {
    if toks != [] {
      var n := |toks| - 1;
      SmoothedScoreDominates(pos, neg, toks[..n]);
      FactorDominates(pos, neg, toks[n]);
      ScoreSign(neg, toks[..n], true);
      MulMonotone(Score(pos, toks[..n], true), Score(neg, toks[..n], true),
                  Factor(pos, toks[n], true), Factor(neg, toks[n], true));
    }
  }

  /** With smoothing and equal denominators, a larger count gives a larger factor. */
  lemma FactorDominates(pos: ClassModel, neg: ClassModel, w: string)
    requires Defined(pos, true) && pos.len + pos.card == neg.len + neg.card
    requires Count(neg.counts, w) <= Count(pos.counts, w)
    ensures Factor(neg, w, true) <= Factor(pos, w, true)
  {
    DivMonotone((Count(neg.counts, w) + 1) as real, (Count(pos.counts, w) + 1) as real,
                (pos.len + pos.card) as real);
  }

  /** `x / d <= y / d` for `x <= y` and `d > 0`. */
  lemma DivMonotone(x: real, y: real, d: real)
    requires x <= y && d > 0.0
    ensures x / d <= y / d
  {
    assert x / d * d == x && y / d * d == y;
  }

  /** `b * g <= a * f` for `0 <= b <= a` and `0 <= g <= f`. */
  lemma MulMonotone(a: real, b: real, f: real, g: real)
    requires 0.0 <= b <= a && 0.0 <= g <= f
    ensures Times(b, g) <= Times(a, f)
  {
    assert b * g <= a * g;
    assert a * g <= a * f;
  }

  /** A product of two positive numbers is positive. */
  lemma MulPositive(a: real, f: real)
    requires a > 0.0 && f > 0.0
    ensures Times(a, f) > 0.0
  {
  }

  /** The decision rule: positive when the negative score is strictly smaller,
      negative when the positive score is strictly smaller, undetermined on a tie. */
  function Decide(probability1: real, probability0: real): (d: int)
    ensures d == 1 <==> probability0 < probability1
    ensures d == 0 <==> probability1 < probability0
    ensures d == UNDETERMINED <==> probability1 == probability0
  {
    if probability0 < probability1 then 1
    else if probability1 < probability0 then 0
    else UNDETERMINED
  }

  /** The predicted sentiment of one tweet. */
  function Predict(pos: ClassModel, neg: ClassModel, tweet: Option<string>, laplace: bool): (d: int)
    requires TweetTokens(tweet) == [] || (Defined(pos, laplace) && Defined(neg, laplace))
    ensures 0 <= d <= 2
  {
    var words := TweetTokens(tweet);
    Decide(Score(pos, words, laplace), Score(neg, words, laplace))
  }

  /** Without smoothing, a token neither class has seen makes the tweet
      undetermined, and a token only the positive class lacks rules out a
      positive prediction. */
  lemma UnseenWordPrediction(pos: ClassModel, neg: ClassModel, tweet: Option<string>, i: int)
    requires Defined(pos, false) && Defined(neg, false) && pos.prior >= 0.0 && neg.prior >= 0.0
    requires 0 <= i < |TweetTokens(tweet)| && Count(pos.counts, TweetTokens(tweet)[i]) == 0
    ensures Predict(pos, neg, tweet, false) != 1
    ensures Count(neg.counts, TweetTokens(tweet)[i]) == 0 ==> Predict(pos, neg, tweet, false) == UNDETERMINED
  {
    var toks := TweetTokens(tweet);
    ScoreSign(neg, toks, false);
    UnseenWordZeroScore(pos, toks, i);
    if Count(neg.counts, toks[i]) == 0 {
      UnseenWordZeroScore(neg, toks, i);
    }
  }

  /** A tweet without tokens (or a cell that is not a string) keeps the bare
      priors, so with equal training counts it is undetermined. */
  lemma NoTokensEqualCounts(posCounts: WordCounts, negCounts: WordCounts, splNb: int, tweet: Option<string>, laplace: bool)
    requires splNb != 0 && TweetTokens(tweet) == []
    ensures Predict(Model(posCounts, splNb, splNb), Model(negCounts, splNb, splNb), tweet, laplace) == UNDETERMINED
  {
  }

  /** With smoothing, equal priors and equal denominators, a tweet whose every
      token is at least as frequent in the positive dictionary is never
      predicted negative. */
  lemma SmoothedNeverNegative(pos: ClassModel, neg: ClassModel, tweet: Option<string>)
    requires Defined(pos, true) && Defined(neg, true)
    requires pos.prior == neg.prior >= 0.0 && pos.len + pos.card == neg.len + neg.card
    requires forall w :: w in TweetTokens(tweet) ==> Count(neg.counts, w) <= Count(pos.counts, w)
    ensures Predict(pos, neg, tweet, true) != 0
  {
    SmoothedScoreDominates(pos, neg, TweetTokens(tweet));
  }

  /** Every tweet with tokens can be scored against both classes. */
  predicate CanClassify(pos: ClassModel, neg: ClassModel, tweets: seq<Option<string>>, laplace: bool) {
    forall i :: 0 <= i < |tweets| ==>
      TweetTokens(tweets[i]) == [] || (Defined(pos, laplace) && Defined(neg, laplace))
  }

  /** The predictions for a sequence of tweets: one per tweet, in order. */
  function PredictAll(pos: ClassModel, neg: ClassModel, tweets: seq<Option<string>>, laplace: bool): (r: seq<int>)
    requires CanClassify(pos, neg, tweets, laplace)
    ensures |r| == |tweets|
    decreases |tweets|
  {
    if tweets == [] then []
    else
      var n := |tweets| - 1;
      assert CanClassify(pos, neg, tweets[..n], laplace);
      PredictAll(pos, neg, tweets[..n], laplace) + [Predict(pos, neg, tweets[n], laplace)]
  }

  /** The `i`-th prediction is the prediction of the `i`-th tweet, so it is
      0, 1 or 2. */
  lemma {:induction false} PredictAllIndex(pos: ClassModel, neg: ClassModel, tweets: seq<Option<string>>, i: int,
                                           laplace: bool)
    requires CanClassify(pos, neg, tweets, laplace) && 0 <= i < |tweets|
    ensures PredictAll(pos, neg, tweets, laplace)[i] == Predict(pos, neg, tweets[i], laplace)
    ensures 0 <= PredictAll(pos, neg, tweets, laplace)[i] <= 2
    decreases |tweets|
  {
    var n := |tweets| - 1;
    if i < n {
      assert CanClassify(pos, neg, tweets[..n], laplace);
      PredictAllIndex(pos, neg, tweets[..n], i, laplace);
      assert tweets[..n][i] == tweets[i];
    }
  }

  /** Predicting one more tweet appends its prediction and counts it when it
      is undetermined. */
  lemma PredictAllStep(pos: ClassModel, neg: ClassModel, tweets: seq<Option<string>>, i: int, laplace: bool,
                       sentiment: int)
    requires 0 <= i < |tweets| && CanClassify(pos, neg, tweets, laplace)
    requires sentiment == Predict(pos, neg, tweets[i], laplace)
    ensures CanClassify(pos, neg, tweets[..i + 1], laplace)
    ensures PredictAll(pos, neg, tweets[..i + 1], laplace) == PredictAll(pos, neg, tweets[..i], laplace) + [sentiment]
    ensures multiset(PredictAll(pos, neg, tweets[..i + 1], laplace))[UNDETERMINED] ==
      multiset(PredictAll(pos, neg, tweets[..i], laplace))[UNDETERMINED] + (if sentiment == UNDETERMINED then 1 else 0)
  {
    assert tweets[..i + 1][..i] == tweets[..i];
  }

  /** One counting step of the confusion matrix: a positive label counts as TP
      for any non-zero prediction (2 included) and as FN for 0; a negative
      label counts as FP or TN alike; any other label counts nowhere. */
  function Tally(cm: seq<nat>, t: int, p: int): (r: seq<nat>)
    requires |cm| == 4
    ensures |r| == 4
    ensures r[TP] == cm[TP] + (if t == 1 && p != 0 then 1 else 0)
    ensures r[FN] == cm[FN] + (if t == 1 && p == 0 then 1 else 0)
    ensures r[FP] == cm[FP] + (if t == 0 && p != 0 then 1 else 0)
    ensures r[TN] == cm[TN] + (if t == 0 && p == 0 then 1 else 0)
  {
    if t == 1 && p != 0 then cm[TP := cm[TP] + 1]
    else if t == 1 && p == 0 then cm[FN := cm[FN] + 1]
    else if t == 0 && p != 0 then cm[FP := cm[FP] + 1]
    else if t == 0 && p == 0 then cm[TN := cm[TN] + 1]
    else cm
  }

  /** The confusion matrix of labels `ts` against predictions `ps`, counted
      row by row. */
  function ConfusionOf(ts: seq<int>, ps: seq<int>): (cm: seq<nat>)
    requires |ts| == |ps|
    ensures |cm| == 4
    decreases |ts|
  {
    if ts == [] then [0, 0, 0, 0]
    else
      var n := |ts| - 1;
      Tally(ConfusionOf(ts[..n], ps[..n]), ts[n], ps[n])
  }

  /** The positive row of the matrix holds every label 1 and the negative row
      every label 0. */
  lemma {:induction false} ConfusionRows(ts: seq<int>, ps: seq<int>)
    requires |ts| == |ps|
    ensures var cm := ConfusionOf(ts, ps);
      cm[TP] + cm[FN] == multiset(ts)[1] && cm[FP] + cm[TN] == multiset(ts)[0]
    decreases |ts|
  {
    if ts != [] {
      var n := |ts| - 1;
      ConfusionRows(ts[..n], ps[..n]);
      assert ts == ts[..n] + [ts[n]];
    }
  }

  /** The label and the prediction of each row, side by side. */
  function Pairs(ts: seq<int>, ps: seq<int>): (r: seq<(int, int)>)
    requires |ts| == |ps|
    ensures |r| == |ts|
    ensures forall i :: 0 <= i < |ts| ==> r[i] == (ts[i], ps[i])
  {
    seq(|ts|, i requires 0 <= i < |ts| => (ts[i], ps[i]))
  }

  /** The last row adds one to the count of its own pair and nothing else. */
  lemma PairCountStep(ts: seq<int>, ps: seq<int>, t: int, p: int)
    requires |ts| == |ps| && ts != []
    ensures multiset(Pairs(ts, ps))[(t, p)] ==
      multiset(Pairs(ts[..|ts| - 1], ps[..|ps| - 1]))[(t, p)] + (if ts[|ts| - 1] == t && ps[|ps| - 1] == p then 1 else 0)
  {
    var n := |ts| - 1;
    assert Pairs(ts, ps) == Pairs(ts[..n], ps[..n]) + [(ts[n], ps[n])];
  }

  /** Each cell counts its (label, prediction) pairs; an undetermined
      prediction counts with the positive ones. */
  lemma {:induction false} ConfusionCells(ts: seq<int>, ps: seq<int>)
    requires |ts| == |ps| && forall i :: 0 <= i < |ps| ==> 0 <= ps[i] <= 2
    ensures var cm, m := ConfusionOf(ts, ps), multiset(Pairs(ts, ps));
      && cm[TP] == m[(1, 1)] + m[(1, 2)]
      && cm[FN] == m[(1, 0)]
      && cm[FP] == m[(0, 1)] + m[(0, 2)]
      && cm[TN] == m[(0, 0)]
    decreases |ts|
  {
    if ts != [] {
      var n := |ts| - 1;
      ConfusionCells(ts[..n], ps[..n]);
      PairCountStep(ts, ps, 1, 1);
      PairCountStep(ts, ps, 1, 2);
      PairCountStep(ts, ps, 1, 0);
      PairCountStep(ts, ps, 0, 1);
      PairCountStep(ts, ps, 0, 2);
      PairCountStep(ts, ps, 0, 0);
    }
  }

  /** Replacing every undetermined prediction by a positive one leaves the
      confusion matrix unchanged. */
  lemma {:induction false} UndeterminedCountsAsPositive(ts: seq<int>, ps: seq<int>)
    requires |ts| == |ps|
    ensures ConfusionOf(ts, ps) ==
      ConfusionOf(ts, seq(|ps|, i requires 0 <= i < |ps| => if ps[i] == UNDETERMINED then 1 else ps[i]))
    decreases |ts|
  {
    var qs := seq(|ps|, i requires 0 <= i < |ps| => if ps[i] == UNDETERMINED then 1 else ps[i]);
    if ts != [] {
      var n := |ts| - 1;
      UndeterminedCountsAsPositive(ts[..n], ps[..n]);
      assert qs[..n] == seq(n, i requires 0 <= i < n => if ps[..n][i] == UNDETERMINED then 1 else ps[..n][i]);
    }
  }

  /** Predictions equal to the labels leave FN and FP empty. */
  lemma {:induction false} PerfectConfusion(ts: seq<int>)
    ensures ConfusionOf(ts, ts) == [multiset(ts)[1], 0, 0, multiset(ts)[0]]
    decreases |ts|
  {
    if ts != [] {
      var n := |ts| - 1;
      PerfectConfusion(ts[..n]);
      assert ts == ts[..n] + [ts[n]];
    }
  }

  /** `a / b` for `0 <= a <= b` and `b > 0`: a ratio in `[0, 1]`. */
  function Ratio(a: nat, b: nat): (q: real)
    requires a <= b && 0 < b
    ensures 0.0 <= q <= 1.0
    ensures q * b as real == a as real
    ensures q == 1.0 <==> a == b
  {
    a as real / b as real
  }

  /** Accuracy, precision, recall and specificity of a confusion matrix, in
      that order; a zero denominator is an error. */
  function Metrics(cm: seq<nat>): (r: Result<seq<real>>)
    requires |cm| == 4
    ensures r.Failure? <==> cm[TP] + cm[FP] == 0 || cm[TP] + cm[FN] == 0 || cm[TN] + cm[FP] == 0
    ensures r.Failure? ==> r.error == ZeroDivision
    ensures r.Success? ==> |r.value| == 4 && forall j :: 0 <= j < 4 ==> 0.0 <= r.value[j] <= 1.0
    ensures r.Success? ==> var tp, fn, fp, tn := cm[TP], cm[FN], cm[FP], cm[TN];
      && r.value[ACCURACY] == (tp + tn) as real / (tp + tn + fp + fn) as real
      && r.value[PRECISION] == tp as real / (tp + fp) as real
      && r.value[RECALL] == tp as real / (tp + fn) as real
      && r.value[SPECIFICITY] == tn as real / (tn + fp) as real
  {
    var tp, fn, fp, tn := cm[TP], cm[FN], cm[FP], cm[TN];
    if tp + tn + fp + fn == 0 || tp + fp == 0 || tp + fn == 0 || tn + fp == 0 then Failure(ZeroDivision)
    else Success([Ratio(tp + tn, tp + tn + fp + fn), Ratio(tp, tp + fp), Ratio(tp, tp + fn), Ratio(tn, tn + fp)])
  }

  /** The outcome of comparing predictions with labels. */
  datatype Report = Report(metrics: seq<real>, confMatrix: seq<nat>)

  /** Labels against predictions: a length mismatch stops the comparison,
      otherwise the confusion matrix and its metrics. */
  function Evaluate(ts: seq<int>, ps: seq<int>): (r: Result<Report>)
    ensures r == Failure(LengthMismatch) <==> |ts| != |ps|
    ensures r.Success? ==> |r.value.confMatrix| == 4 && |r.value.metrics| == 4
    ensures r.Success? ==> r.value.confMatrix[TP] + r.value.confMatrix[FN] == multiset(ts)[1]
    ensures r.Success? ==> r.value.confMatrix[FP] + r.value.confMatrix[TN] == multiset(ts)[0]
  {
    if |ts| != |ps| then Failure(LengthMismatch)
    else
      var cm := ConfusionOf(ts, ps);
      ConfusionRows(ts, ps);
      match Metrics(cm)
      case Failure(e) => Failure(e)
      case Success(m) => Success(Report(m, cm))
  }

  /** Predictions that equal labels of both classes score 1 on every metric. */
  lemma PerfectMetrics(ts: seq<int>)
    requires 1 in ts && 0 in ts
    ensures Evaluate(ts, ts) == Success(Report([1.0, 1.0, 1.0, 1.0], [multiset(ts)[1], 0, 0, multiset(ts)[0]]))
  {
    PerfectConfusion(ts);
  }

  /** Labels 1, 1, 0, 0 against predictions 1, 0, 0, 2: one tweet per cell,
      the undetermined one being a false positive. */
  lemma ConfusionExample()
    ensures ConfusionOf([1, 1, 0, 0], [1, 0, 0, 2]) == [1, 1, 1, 1]
  {
    assert ConfusionOf([1], [1]) == [1, 0, 0, 0] by {
      assert [1][..0] == [];
    }
    assert ConfusionOf([1, 1], [1, 0]) == [1, 1, 0, 0] by {
      assert [1, 1][..1] == [1] && [1, 0][..1] == [1];
    }
    assert ConfusionOf([1, 1, 0], [1, 0, 0]) == [1, 1, 0, 1] by {
      assert [1, 1, 0][..2] == [1, 1] && [1, 0, 0][..2] == [1, 0];
    }
    assert [1, 1, 0, 0][..3] == [1, 1, 0] && [1, 0, 0, 2][..3] == [1, 0, 0];
  }

  /** One tweet per cell gives 0.5 on every metric. */
  lemma MetricsExample()
    ensures Metrics([1, 1, 1, 1]) == Success([0.5, 0.5, 0.5, 0.5])
  {
    assert Ratio(2, 4) == 0.5 && Ratio(1, 2) == 0.5;
  }

  /** The comparison of labels 1, 1, 0, 0 with predictions 1, 0, 0, 2. */
  lemma EvaluateExample()
    ensures Evaluate([1, 1, 0, 0], [1, 0, 0, 2]) == Success(Report([0.5, 0.5, 0.5, 0.5], [1, 1, 1, 1]))
  {
    ConfusionExample();
    MetricsExample();
  }

  /** Scoring one more token multiplies the score of the tokens before it by
      the token's factor. */
  lemma ScoreSnoc(c: ClassModel, words: seq<string>, j: int, laplace: bool, score: real, factor: real)
    requires 0 <= j < |words| && Defined(c, laplace)
    requires score == Score(c, words[..j], laplace) && factor == Factor(c, words[j], laplace)
    ensures score * factor == Score(c, words[..j + 1], laplace)
  {
    assert words[..j + 1][..j] == words[..j];
  }

  /** The probabilities of one tweet's tokens under both classes, multiplied
      in token by token from the two priors. */
  method Probabilities(pos: ClassModel, neg: ClassModel, words: seq<string>, laplace: bool)
    returns (probability1: real, probability0: real)
    requires words == [] || (Defined(pos, laplace) && Defined(neg, laplace))
    ensures probability1 == Score(pos, words, laplace)
    ensures probability0 == Score(neg, words, laplace)
  {
    probability1, probability0 := pos.prior, neg.prior;
    var j := 0;
    while j < |words|
      invariant 0 <= j <= |words|
      invariant probability1 == Score(pos, words[..j], laplace)
      invariant probability0 == Score(neg, words[..j], laplace)
    {
      var word := words[j];
      var posCount := if word in pos.counts then pos.counts[word] else 0;
      var negCount := if word in neg.counts then neg.counts[word] else 0;
      var posFactor, negFactor;
      if laplace {
        posFactor := (posCount + 1) as real / (pos.len + pos.card) as real;
        negFactor := (negCount + 1) as real / (neg.len + neg.card) as real;
      } else {
        posFactor := posCount as real / pos.card as real;
        negFactor := negCount as real / neg.card as real;
      }
      ScoreSnoc(pos, words, j, laplace, probability1, posFactor);
      ScoreSnoc(neg, words, j, laplace, probability0, negFactor);
      probability1 := probability1 * posFactor;
      probability0 := probability0 * negFactor;
      j := j + 1;
    }
    assert words[..|words|] == words;
  }

  /** The sentiment of one tweet: the class with the strictly larger
      probability, or undetermined on a tie. */
  method PredictTweet(pos: ClassModel, neg: ClassModel, tweet: Option<string>, laplace: bool) returns (sentiment: int)
    requires TweetTokens(tweet) == [] || (Defined(pos, laplace) && Defined(neg, laplace))
    ensures sentiment == Predict(pos, neg, tweet, laplace)
  {
    var words := TweetTokens(tweet);
    var probability1, probability0 := Probabilities(pos, neg, words, laplace);
    if probability0 < probability1 {
      sentiment := 1;
    } else if probability1 < probability0 {
      sentiment := 0;
    } else {
      sentiment := UNDETERMINED;
    }
  }

  /** Predicts every tweet in order: the sentiment with the larger score, or
      undetermined on a tie, which is also counted. */
  method PredictTweets(pos: ClassModel, neg: ClassModel, tweets: seq<Option<string>>, laplace: bool)
    returns (sentiments: seq<int>, nbUndetermined: nat)
    requires CanClassify(pos, neg, tweets, laplace)
    ensures sentiments == PredictAll(pos, neg, tweets, laplace)
    ensures nbUndetermined == multiset(sentiments)[UNDETERMINED]
  {
    sentiments := [];
    nbUndetermined := 0;
    var i := 0;
    while i < |tweets|
      invariant 0 <= i <= |tweets|
      invariant CanClassify(pos, neg, tweets[..i], laplace)
      invariant sentiments == PredictAll(pos, neg, tweets[..i], laplace)
      invariant nbUndetermined == multiset(sentiments)[UNDETERMINED]
    {
      var sentiment := PredictTweet(pos, neg, tweets[i], laplace);
      if sentiment == UNDETERMINED {
        nbUndetermined := nbUndetermined + 1;
      }
      PredictAllStep(pos, neg, tweets, i, laplace, sentiment);
      sentiments := sentiments + [sentiment];
      i := i + 1;
    }
    assert tweets[..|tweets|] == tweets;
  }

  /** Counts the confusion matrix of the labels against the predictions, one
      pair at a time. */
  method ConfusionMatrix(testY: seq<int>, predictedY: seq<int>) returns (matrix: seq<nat>)
    requires |testY| == |predictedY|
    ensures matrix == ConfusionOf(testY, predictedY)
  {
    matrix := [0, 0, 0, 0];
    var i := 0;
    while i < |testY|
      invariant 0 <= i <= |testY|
      invariant matrix == ConfusionOf(testY[..i], predictedY[..i])
    {
      var t, p := testY[i], predictedY[i];
      assert testY[..i + 1][..i] == testY[..i] && predictedY[..i + 1][..i] == predictedY[..i];
      if t == 1 && p != 0 {
        matrix := matrix[TP := matrix[TP] + 1];
      } else if t == 1 && p == 0 {
        matrix := matrix[FN := matrix[FN] + 1];
      } else if t == 0 && p != 0 {
        matrix := matrix[FP := matrix[FP] + 1];
      } else if t == 0 && p == 0 {
        matrix := matrix[TN := matrix[TN] + 1];
      }
      i := i + 1;
    }
    assert testY[..i] == testY && predictedY[..i] == predictedY;
  }

  /** Accuracy, precision, recall and specificity of a confusion matrix, each
      division guarded by a check of its denominator. */
  method ComputeMetrics(matrix: seq<nat>) returns (r: Result<seq<real>>)
    requires |matrix| == 4
    ensures r == Metrics(matrix)
  {
    var tp, fn, fp, tn := matrix[TP], matrix[FN], matrix[FP], matrix[TN];
    if tp + tn + fp + fn == 0 {
      return Failure(ZeroDivision);
    }
    var accuracy := (tp + tn) as real / (tp + tn + fp + fn) as real;
    if tp + fp == 0 {
      return Failure(ZeroDivision);
    }
    var precision := tp as real / (tp + fp) as real;
    if tp + fn == 0 {
      return Failure(ZeroDivision);
    }
    var recall := tp as real / (tp + fn) as real;
    if tn + fp == 0 {
      return Failure(ZeroDivision);
    }
    var specificity := tn as real / (tn + fp) as real;
    r := Success([accuracy, precision, recall, specificity]);
  }

  /** A classifier for one test set, trained on a positive and a negative
      dictionary; it keeps its predictions, its last metrics and its last
      confusion matrix. */
  class Bayes {
    var posDictionary: Dictionary
    var negDictionary: Dictionary
    var testSet: seq<Row>
    var predictions: seq<int>
    var metrics: Option<seq<real>>
    var confMatrix: seq<nat>

    constructor (posDictionary: Dictionary, negDictionary: Dictionary, testSet: seq<Row>)
      ensures this.posDictionary == posDictionary && this.negDictionary == negDictionary
      ensures this.testSet == testSet
      ensures predictions == [] && metrics == None && confMatrix == [0, 0, 0, 0]
    {
      this.posDictionary := posDictionary;
      this.negDictionary := negDictionary;
      this.testSet := testSet;
      predictions := [];
      metrics := None;
      confMatrix := [0, 0, 0, 0];
    }

    /** Predicts every test tweet in order, appends the predictions and
        returns how many of them are undetermined. */
    method PredictSentiments(laplaceSmoothing: bool, posSplNb: int, negSplNb: int) returns (nbUndetermined: nat)
      requires posSplNb + negSplNb != 0
      requires CanClassify(Model(posDictionary.dictionary, posSplNb, negSplNb),
                           Model(negDictionary.dictionary, negSplNb, posSplNb),
                           Texts(testSet), laplaceSmoothing)
      modifies this`predictions
      ensures predictions == old(predictions) + PredictAll(Model(posDictionary.dictionary, posSplNb, negSplNb),
                                                           Model(negDictionary.dictionary, negSplNb, posSplNb),
                                                           Texts(testSet), laplaceSmoothing)
      ensures nbUndetermined == multiset(predictions[|old(predictions)|..])[UNDETERMINED]
    {
      var totalSplNb := posSplNb + negSplNb;
      var posProbability := posSplNb as real / totalSplNb as real;
      var negProbability := negSplNb as real / totalSplNb as real;
      var posDctLen := posDictionary.GetDictionaryLength();
      var negDctLen := negDictionary.GetDictionaryLength();
      var posDctCard := posDictionary.GetDictionaryCard();
      var negDctCard := negDictionary.GetDictionaryCard();
      var posDct := posDictionary.GetDictionary();
      var negDct := negDictionary.GetDictionary();
      var pos := ClassModel(posProbability, posDct, posDctLen, posDctCard);
      var neg := ClassModel(negProbability, negDct, negDctLen, negDctCard);
      assert pos == Model(posDictionary.dictionary, posSplNb, negSplNb);
      assert neg == Model(negDictionary.dictionary, negSplNb, posSplNb);
      var sentiments;
      sentiments, nbUndetermined := PredictTweets(pos, neg, Texts(testSet), laplaceSmoothing);
      predictions := predictions + sentiments;
      assert predictions[|old(predictions)|..] == sentiments;
    }

    /** Counts the confusion matrix of the labels against the predictions and
        derives the four metrics; both are stored and returned. */
    method CompareSentiments() returns (r: Result<Report>)
      modifies this`metrics, this`confMatrix
      ensures r == Evaluate(Labels(testSet), predictions)
      ensures r.Success? ==> metrics == Some(r.value.metrics) && confMatrix == r.value.confMatrix
      ensures r.Failure? ==> metrics == old(metrics) && confMatrix == old(confMatrix)
    {
      var testY := Labels(testSet);
      var predictedY := predictions;
      if |testY| != |predictedY| {
        return Failure(LengthMismatch);
      }
      var matrix := ConfusionMatrix(testY, predictedY);
      var computed := ComputeMetrics(matrix);
      if computed.Failure? {
        return Failure(computed.error);
      }
      var values := computed.value;
      metrics := Some(values);
      confMatrix := matrix;
      r := Success(Report(values, matrix));
    }
  }
}
