/** The data set: the rows after the first row of the loaded table, split
    once by label into the positive and the negative rows, and the two ways
    of cutting each class into a training part and a shared, shuffled test
    set (holdout and k-fold cross-validation). */
module Datasets {
  import opened Common

  /** The rows after the first one (none for an empty table): the loaded
      table's header is already gone, so this drops the first data row. */
  function DropFirstRow(raw: seq<Row>): (r: seq<Row>)
    ensures |raw| > 0 ==> |r| == |raw| - 1 && forall i :: 0 <= i < |r| ==> r[i] == raw[i + 1]
    ensures |raw| == 0 ==> r == []
  {
    if raw == [] then [] else raw[1..]
  }

  /** A shuffle driven by a stream of random positions: the element at position
      `rng[0]` goes first (the first element when the stream is exhausted or the
      position is out of range), then the rest is shuffled with the rest of the
      stream. */
  function Shuffle<T>(s: seq<T>, rng: seq<nat>): (r: seq<T>)
    ensures |r| == |s|
    ensures multiset(r) == multiset(s)
    decreases |s|
  {
    if |s| <= 1 then s
    else
      var j := if rng != [] && rng[0] < |s| then rng[0] else 0;
      assert s == s[..j] + [s[j]] + s[j + 1..];
      [s[j]] + Shuffle(s[..j] + s[j + 1..], if rng == [] then [] else rng[1..])
  }

  /** One step of `Shuffle` with the first random number `j` below `|s|`. */
  lemma ShuffleStep<T>(s: seq<T>, j: nat, tail: seq<nat>)
    requires 2 <= |s| && j < |s|
    ensures Shuffle(s, [j] + tail) == [s[j]] + Shuffle(s[..j] + s[j + 1..], tail)
  {
    var rng := [j] + tail;
    assert rng != [] && rng[0] == j && rng[1..] == tail;
  }

  /** Taking a matching element off the front of `r` and out of `s` keeps the
      two multisets equal. */
  lemma RemoveMatching<T>(s: seq<T>, r: seq<T>, j: nat)
    requires multiset(r) == multiset(s) && j < |s| && |r| > 0 && s[j] == r[0]
    ensures multiset(r[1..]) == multiset(s[..j] + s[j + 1..])
  {
    assert r == [r[0]] + r[1..];
    assert s == s[..j] + [s[j]] + s[j + 1..];
    assert multiset(r[1..]) == multiset(r) - multiset{r[0]};
    assert multiset(s[..j] + s[j + 1..]) == multiset(s) - multiset{s[j]};
  }

  /** Drawing `s[j] == r[0]` first and then shuffling the rest into `r[1..]`
      shuffles `s` into `r`. */
  lemma ShuffleExtend<T>(s: seq<T>, r: seq<T>, j: nat, tail: seq<nat>)
    requires 2 <= |s| == |r| && j < |s| && s[j] == r[0]
    requires Shuffle(s[..j] + s[j + 1..], tail) == r[1..]
    ensures Shuffle(s, [j] + tail) == r
  {
    ShuffleStep(s, j, tail);
    assert r == [r[0]] + r[1..];
  }

  /** Sequences with the same multiset have the same length. */
  lemma SameLength<T>(s: seq<T>, r: seq<T>)
    requires multiset(r) == multiset(s)
    ensures |r| == |s|
  {
    assert |multiset(r)| == |r| && |multiset(s)| == |s|;
  }

  /** A permutation of a sequence of at most one element is that sequence. */
  lemma ShortPermutation<T>(s: seq<T>, r: seq<T>)
    requires multiset(r) == multiset(s) && |s| <= 1 && |r| == |s|
    ensures r == s
  {
    if |s| == 1 {
      assert r[0] in multiset(s);
    }
  }

  /** Every permutation of `s` is the outcome of some random stream, so
      `Shuffle` stands for an arbitrary permutation. */
  lemma {:induction false} ShuffleReachesEveryPermutation<T>(s: seq<T>, r: seq<T>)
    requires multiset(r) == multiset(s)
    ensures exists rng :: Shuffle(s, rng) == r
    decreases |s|
  {
    SameLength(s, r);
    if |s| <= 1 {
      ShortPermutation(s, r);
      assert Shuffle(s, []) == r;
    } else {
      assert r[0] in multiset(s);
      var j :| 0 <= j < |s| && s[j] == r[0];
      var rest := s[..j] + s[j + 1..];
      RemoveMatching(s, r, j);
      ShuffleReachesEveryPermutation(rest, r[1..]);
      var tail :| Shuffle(rest, tail) == r[1..];
      ShuffleExtend(s, r, j, tail);
    }
  }

  /** The rows labelled `l`, in their original order (the mask `data[:, 1] == l`). */
  function WithLabel(rows: seq<Row>, l: int): (r: seq<Row>)
    ensures forall i :: 0 <= i < |r| ==> r[i].sentiment == l
    ensures forall x :: multiset(r)[x] == if x.sentiment == l then multiset(rows)[x] else 0
    decreases |rows|
  {
    if rows == [] then []
    else
      assert rows == [rows[0]] + rows[1..];
      (if rows[0].sentiment == l then [rows[0]] else []) + WithLabel(rows[1..], l)
  }

  /** Every row is labelled 0 or 1. */
  predicate AllBinary(rows: seq<Row>) {
    forall i :: 0 <= i < |rows| ==> rows[i].sentiment == 0 || rows[i].sentiment == 1
  }

  /** The positive and the negative rows never outnumber the table. */
  lemma {:induction false} LabelPartitionSize(rows: seq<Row>)
    ensures |WithLabel(rows, 1)| + |WithLabel(rows, 0)| <= |rows|
    decreases |rows|
  {
    if rows != [] {
      LabelPartitionSize(rows[1..]);
    }
  }

  /** When every label is 0 or 1 the positive and the negative rows are,
      together, exactly the table. */
  lemma LabelPartition(rows: seq<Row>)
    requires AllBinary(rows)
    ensures multiset(WithLabel(rows, 1)) + multiset(WithLabel(rows, 0)) == multiset(rows)
  {
    var pos, neg := WithLabel(rows, 1), WithLabel(rows, 0);
    forall x
      ensures multiset(pos)[x] + multiset(neg)[x] == multiset(rows)[x]
    {
    }
  }

  /** Python's `int(n * percent)` for a positive `percent`: the product is not
      negative, so truncation is the floor. */
  function SplitIndex(n: nat, percent: real): (k: int)
    requires percent > 0.0
    ensures k >= 0
    ensures percent <= 1.0 ==> k <= n
  {
    assert n as real * percent >= 0.0;
    assert percent <= 1.0 ==> n as real * percent <= n as real;
    (n as real * percent).Floor
  }

  /** A slice bound as Python's slicing uses it: at most the length. */
  function Clamp(k: nat, n: nat): (c: nat)
    ensures c <= n && c <= k && (c == k || c == n)
  {
    if k <= n then k else n
  }

  /** The training rows of each class and the shuffled test set. */
  datatype Sets = Sets(trainPos: seq<Row>, trainNeg: seq<Row>, testSet: seq<Row>)

  /** Holdout: the first `int(|class| * percent)` rows of each class train, the
      rest of both classes, shuffled together, test; `percent` must be positive. */
  function Holdout(pos: seq<Row>, neg: seq<Row>, percent: real, rng: seq<nat>): (r: Result<Sets>)
    ensures r.Failure? <==> percent <= 0.0
    ensures r.Failure? ==> r.error == InvalidArgument
    ensures r.Success? ==>
      var sp, sn := Clamp(SplitIndex(|pos|, percent), |pos|), Clamp(SplitIndex(|neg|, percent), |neg|);
      && r.value.trainPos == pos[..sp]
      && r.value.trainNeg == neg[..sn]
      && multiset(r.value.testSet) == multiset(pos[sp..]) + multiset(neg[sn..])
  {
    if percent <= 0.0 then Failure(InvalidArgument)
    else
      var sp := Clamp(SplitIndex(|pos|, percent), |pos|);
      var sn := Clamp(SplitIndex(|neg|, percent), |neg|);
      Success(Sets(pos[..sp], neg[..sn], Shuffle(pos[sp..] + neg[sn..], rng)))
  }

  /** Holdout loses and duplicates nothing: each class is its training part
      plus its share of the test set, and for a fraction of at most one the
      training part has exactly the recorded `int(|class| * percent)` rows. */
  lemma HoldoutPartitions(pos: seq<Row>, neg: seq<Row>, percent: real, rng: seq<nat>)
    requires percent > 0.0
    ensures var sets := Holdout(pos, neg, percent, rng).value;
      && multiset(sets.trainPos) + multiset(sets.trainNeg) + multiset(sets.testSet)
         == multiset(pos) + multiset(neg)
      && |sets.trainPos| + |sets.trainNeg| + |sets.testSet| == |pos| + |neg|
      && (percent <= 1.0 ==>
            |sets.trainPos| == SplitIndex(|pos|, percent) &&
            |sets.trainNeg| == SplitIndex(|neg|, percent))
  {
    var sets := Holdout(pos, neg, percent, rng).value;
    var sp, sn := Clamp(SplitIndex(|pos|, percent), |pos|), Clamp(SplitIndex(|neg|, percent), |neg|);
    SliceParts(pos, sp);
    SliceParts(neg, sn);
    assert |sets.testSet| == |multiset(sets.testSet)| == |pos[sp..]| + |neg[sn..]|;
  }

  /** Cutting a sequence in two loses and duplicates nothing. */
  lemma SliceParts(s: seq<Row>, k: nat)
    requires k <= |s|
    ensures multiset(s[..k]) + multiset(s[k..]) == multiset(s)
  {
    assert s == s[..k] + s[k..];
  }

  /** Ten positive and ten negative rows at 0.8 give 8 + 8 training rows and
      2 + 2 test rows. */
  lemma HoldoutExample(pos: seq<Row>, neg: seq<Row>, rng: seq<nat>)
    requires |pos| == 10 && |neg| == 10
    ensures var sets := Holdout(pos, neg, 0.8, rng).value;
      |sets.trainPos| == 8 && |sets.trainNeg| == 8 && |sets.testSet| == 4
  {
    assert (10 as real * 0.8).Floor == 8;
  }

  /** Index `i` of a class lies in test fold number `s` when folds hold `n` rows. */
  predicate InFold(i: int, s: int, n: nat) {
    (s - 1) * n <= i < s * n
  }

  /** Scaling both sides of `a <= b` by a fold size keeps the order. */
  lemma ScaleMonotone(a: int, b: int, n: nat)
    requires a <= b
    ensures a * n <= b * n
  {
  }

  /** Fold `s` of `k` lies inside a class of `len` rows split in folds of `len / k`. */
  lemma FoldWithin(len: nat, s: int, k: int)
    requires 1 <= s <= k
    ensures 0 <= (s - 1) * (len / k) <= s * (len / k) <= len
  {
    var n := len / k;
    ScaleMonotone(0, s - 1, n);
    ScaleMonotone(s - 1, s, n);
    ScaleMonotone(s, k, n);
    assert k * n <= len;
  }

  /** A product inequality with a positive factor carries over to the other factors. */
  lemma MulCancel(a: int, b: int, n: nat)
    requires n > 0 && a * n < b * n
    ensures a < b
  {
    if a >= b {
      ScaleMonotone(b, a, n);
    }
  }

  /** With folds of `n > 0` rows, index `i` lies in fold `s` exactly when `s` is `i / n + 1`. */
  lemma FoldNumber(n: nat, i: int, s: int)
    requires n > 0 && 0 <= i
    ensures InFold(i, s, n) <==> s == i / n + 1
  {
    var q := i / n;
    assert q * n <= i < q * n + n;
    assert (q + 1) * n == q * n + n;
    if InFold(i, s, n) {
      MulCancel(s - 1, q + 1, n);
      MulCancel(q, s, n);
    }
    if s == q + 1 {
      assert (s - 1) * n == q * n;
    }
  }

  /** The test folds of a class: each index below `k * n` lies in exactly one
      fold, number `i / n + 1`, and the remainder past `k * n` lies in none. */
  lemma TestFoldsPartition(k: nat, n: nat, i: int, s: int)
    requires 1 <= s <= k && 0 <= i
    ensures InFold(i, s, n) <==> (i < k * n && s == i / n + 1)
    ensures i < k * n ==> 1 <= i / n + 1 <= k && InFold(i, i / n + 1, n)
  {
    if n == 0 {
      assert k * n == 0;
      assert (s - 1) * n == 0 && s * n == 0;
    } else {
      FoldNumber(n, i, s);
      FoldNumber(n, i, i / n + 1);
      ScaleMonotone(s, k, n);
      if i < k * n {
        var q := i / n;
        assert q * n <= i;
        MulCancel(q, k, n);
      }
    }
  }

  /** The rows of fold `s` (the slice `[(s-1)n : s n]`). */
  function TestFold(rows: seq<Row>, s: int, n: nat): seq<Row>
    requires 1 <= s && s * n <= |rows|
  {
    assert (s - 1) * n <= s * n;
    rows[(s - 1) * n..s * n]
  }

  /** The rows outside fold `s`: before it and after it, the remainder past
      `k * n` included. */
  function TrainFold(rows: seq<Row>, s: int, n: nat): seq<Row>
    requires 1 <= s && s * n <= |rows|
  {
    assert (s - 1) * n <= s * n;
    rows[..(s - 1) * n] + rows[s * n..]
  }

  /** Training and test rows of one class partition it, and the training part
      has `|rows| - n` rows. */
  lemma FoldPartitions(rows: seq<Row>, s: int, n: nat)
    requires 1 <= s && s * n <= |rows|
    ensures multiset(TrainFold(rows, s, n)) + multiset(TestFold(rows, s, n)) == multiset(rows)
    ensures |TrainFold(rows, s, n)| == |rows| - n
    ensures |TestFold(rows, s, n)| == n
  {
    var a, b := (s - 1) * n, s * n;
    assert a <= b;
    assert rows == rows[..a] + rows[a..b] + rows[b..];
  }

  /** The sets of one cross-validation round with folds of `np` positive and
      `nn` negative rows: each class trains on the rows outside its fold and
      the two folds, shuffled together, test. */
  function FoldSets(pos: seq<Row>, neg: seq<Row>, s: int, np: nat, nn: nat, rng: seq<nat>): (r: Sets)
    requires 1 <= s && s * np <= |pos| && s * nn <= |neg|
    ensures r.trainPos == TrainFold(pos, s, np) && r.trainNeg == TrainFold(neg, s, nn)
    ensures |r.testSet| == |TestFold(pos, s, np)| + |TestFold(neg, s, nn)|
    ensures multiset(r.testSet) == multiset(TestFold(pos, s, np)) + multiset(TestFold(neg, s, nn))
  {
    Sets(TrainFold(pos, s, np), TrainFold(neg, s, nn), Shuffle(TestFold(pos, s, np) + TestFold(neg, s, nn), rng))
  }

  /** k-fold cross-validation with test fold number `s` of `k`: folds hold
      `|class| / k` rows, so fold `s` lies inside each class. */
  function CrossValidation(pos: seq<Row>, neg: seq<Row>, s: int, k: int, rng: seq<nat>): (r: Sets)
    requires 1 <= s <= k
    ensures s * (|pos| / k) <= |pos| && s * (|neg| / k) <= |neg|
  {
    FoldWithin(|pos|, s, k);
    FoldWithin(|neg|, s, k);
    FoldSets(pos, neg, s, |pos| / k, |neg| / k, rng)
  }

  /** Sets built from the folds of size `np` and `nn` hold every row once. */
  lemma FoldSetsPartition(pos: seq<Row>, neg: seq<Row>, s: int, np: nat, nn: nat, sets: Sets)
    requires 1 <= s && s * np <= |pos| && s * nn <= |neg|
    requires sets.trainPos == TrainFold(pos, s, np) && sets.trainNeg == TrainFold(neg, s, nn)
    requires multiset(sets.testSet) == multiset(TestFold(pos, s, np)) + multiset(TestFold(neg, s, nn))
    requires |sets.testSet| == |TestFold(pos, s, np)| + |TestFold(neg, s, nn)|
    ensures |sets.trainPos| == |pos| - np && |sets.trainNeg| == |neg| - nn
    ensures |sets.testSet| == np + nn
    ensures multiset(sets.trainPos) + multiset(sets.trainNeg) + multiset(sets.testSet)
      == multiset(pos) + multiset(neg)
  {
    FoldPartitions(pos, s, np);
    FoldPartitions(neg, s, nn);
  }

  /** Each class trains on exactly `|class| - |class| / k` rows (the remainder
      past `k * n` included) and the test set holds the two folds. */
  lemma CrossValidationSizes(pos: seq<Row>, neg: seq<Row>, s: int, k: int, rng: seq<nat>)
    requires 1 <= s <= k
    ensures var sets := CrossValidation(pos, neg, s, k, rng);
      && |sets.trainPos| == |pos| - |pos| / k
      && |sets.trainNeg| == |neg| - |neg| / k
      && |sets.testSet| == |pos| / k + |neg| / k
      && multiset(sets.trainPos) + multiset(sets.trainNeg) + multiset(sets.testSet)
         == multiset(pos) + multiset(neg)
  {
    var np, nn := |pos| / k, |neg| / k;
    CrossValidationFolds(pos, neg, s, k, rng, np, nn);
    FoldSetsPartition(pos, neg, s, np, nn, FoldSets(pos, neg, s, np, nn, rng));
  }

  /** Cross-validation is the fold sets with folds of `|class| / k` rows. */
  lemma CrossValidationFolds(pos: seq<Row>, neg: seq<Row>, s: int, k: int, rng: seq<nat>, np: nat, nn: nat)
    requires 1 <= s <= k && np == |pos| / k && nn == |neg| / k
    ensures s * np <= |pos| && s * nn <= |neg|
    ensures CrossValidation(pos, neg, s, k, rng) == FoldSets(pos, neg, s, np, nn, rng)
  {
  }

  /** Ten positive rows, fold 1 of 5: a test fold of 2 positive rows and 8
      positive training rows. */
  lemma CrossValidationExample(pos: seq<Row>, neg: seq<Row>, rng: seq<nat>)
    requires |pos| == 10 && |neg| == 0
    ensures var sets := CrossValidation(pos, neg, 1, 5, rng);
      |sets.testSet| == 2 && |sets.trainPos| == 8 && multiset(sets.testSet) == multiset(pos[..2])
  {
    CrossValidationSizes(pos, neg, 1, 5, rng);
    assert TestFold(pos, 1, 2) == pos[..2];
    assert TestFold(neg, 1, 0) == [];
  }

  class Data {
    var data: seq<Row>
    var posData: seq<Row>
    var negData: seq<Row>
    var posSplNb: int
    var negSplNb: int

    /** Drops the first row, shuffles the rest and splits it by label. */
    constructor (raw: seq<Row>, rng: seq<nat>)
      ensures data == Shuffle(DropFirstRow(raw), rng)
      ensures posData == WithLabel(data, 1) && negData == WithLabel(data, 0)
      ensures posSplNb == 0 && negSplNb == 0
    {
      var shuffled := Shuffle(DropFirstRow(raw), rng);
      data := shuffled;
      posData := WithLabel(shuffled, 1);
      negData := WithLabel(shuffled, 0);
      posSplNb := 0;
      negSplNb := 0;
    }

    /** Holdout split; records the two training counts. */
    method CreateSetsHoldout(percent: real, rng: seq<nat>) returns (r: Result<Sets>)
      modifies this`posSplNb, this`negSplNb
      ensures r == Holdout(posData, negData, percent, rng)
      ensures r.Success? ==>
        posSplNb == SplitIndex(|posData|, percent) && negSplNb == SplitIndex(|negData|, percent)
      ensures r.Failure? ==> posSplNb == old(posSplNb) && negSplNb == old(negSplNb)
    {
      if !(percent > 0.0) {
        return Failure(InvalidArgument);
      }
      var splitPosNb := SplitIndex(|posData|, percent);
      var splitNegNb := SplitIndex(|negData|, percent);
      posSplNb := splitPosNb;
      negSplNb := splitNegNb;
      var sp, sn := Clamp(splitPosNb, |posData|), Clamp(splitNegNb, |negData|);
      var trainPos := posData[..sp];
      var trainNeg := negData[..sn];
      var testPos := posData[sp..];
      var testNeg := negData[sn..];
      var testSet := Shuffle(testPos + testNeg, rng);
      r := Success(Sets(trainPos, trainNeg, testSet));
    }

    /** Cross-validation split with test fold `setNumber` of `k`; records the
        two training counts `|class| - |class| / k`. */
    method CreateSetsCv(setNumber: int, k: int, rng: seq<nat>) returns (r: Sets)
      requires 1 <= setNumber <= k
      modifies this`posSplNb, this`negSplNb
      ensures r == CrossValidation(posData, negData, setNumber, k, rng)
      ensures posSplNb == |posData| - |posData| / k == |r.trainPos|
      ensures negSplNb == |negData| - |negData| / k == |r.trainNeg|
    {
      CrossValidationSizes(posData, negData, setNumber, k, rng);
      var nPosData := |posData| / k;
      var nNegData := |negData| / k;
      posSplNb := |posData| - nPosData;
      negSplNb := |negData| - nNegData;
      FoldWithin(|posData|, setNumber, k);
      FoldWithin(|negData|, setNumber, k);
      var trainPos := posData[..(setNumber - 1) * nPosData] + posData[setNumber * nPosData..];
      var trainNeg := negData[..(setNumber - 1) * nNegData] + negData[setNumber * nNegData..];
      var testPos := posData[(setNumber - 1) * nPosData..setNumber * nPosData];
      var testNeg := negData[(setNumber - 1) * nNegData..setNumber * nNegData];
      var testSet := Shuffle(testPos + testNeg, rng);
      r := Sets(trainPos, trainNeg, testSet);
    }

    /** The number of positive training rows recorded by the last split. */
    function GetPosSplNb(): (n: int)
      reads this
      ensures n == posSplNb
    {
      posSplNb
    }

    /** The number of negative training rows recorded by the last split. */
    function GetNegSplNb(): (n: int)
      reads this
      ensures n == negSplNb
    {
      negSplNb
    }
  }
}
