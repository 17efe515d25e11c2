# Naive Bayes sentiment classifier — Dafny model

This project models the core of a naive Bayes sentiment classifier for tweets.

- **Tokenizer.** A tweet is split into its `\w+` words, taken as ASCII letters, digits and `_`. A table cell that is not a string has no words.
- **Dictionaries.** One `Dictionary` per class counts the words of that class's training tweets. It can count all of them, or stop once a running word total passes a size cap. The classifier reads three things from it:
  - the word counts;
  - the number of distinct words (`len`);
  - the total number of occurrences (`card`).
- **Data sets.** `Data` drops the first row of the loaded table (its header is already consumed when the file is read), shuffles the rows and splits them by label. It builds training and test sets in one of two ways:
  - holdout: the first `int(n * percent)` rows of each class train;
  - k-fold cross-validation: fold `s` of size `n // k` is the test fold.

  In both cases the test rows of the two classes are shuffled together, and the number of training rows of each class is recorded.
- **Bayes.**
  - Scoring: each test tweet gets a positive and a negative score. A score is the class prior times one factor per word. With Laplace smoothing the factor is `(count + 1) / (len + card)`; without it, `count / card`.
  - Decision: the strictly larger score decides (1 positive, 0 negative), and a tie gives 2 (undetermined). Predictions are appended in test-set order, and the number of undetermined ones is returned.
  - Comparison: the labels are compared with the predictions in a confusion matrix (cells `TP = 0`, `FN = 1`, `FP = 2`, `TN = 3`). The matrix gives accuracy, precision, recall and specificity, at positions 0 to 3.

The modules follow the program's files:

| file | source |
|---|---|
| `common.dfy` | rows, `Option`, `Result`, the error kinds |
| `tokenizer.dfy` | the `\w+` regular expression |
| `dictionaries.dfy` | `Dictionary.py` |
| `datasets.dfy` | `Data.py` |
| `classifier.dfy` | `Bayes.py` and the index constants of `Constants.py` |

The state-changing classes are Dafny classes. The Python attributes they update become fields, and the methods say what they modify. Each loop of the source is a method whose loop is proved against a recursive specification function. Facts about those functions are proved as lemmas:

- counts equal numbers of occurrences;
- `card` is the number of tokens;
- the splits partition the data;
- the confusion-matrix rows sum to the label counts;
- score monotonicity and the zero-score rule without smoothing;
- metric ranges and values.

Behaviours of the code worth noting; the model follows the code in each:

- **The smoothed denominator is `len + card`.** The docstring at the top of `Bayes.py` writes `card + (len + 1)`.
- **Undetermined predictions count as positive.** `compare_sentiments` tests the prediction for truth (`t == 1 and p`), so the prediction 2 counts with the positive predictions: it is a TP for label 1 and an FP for label 0. `Classifier.UndeterminedCountsAsPositive` states this. `Classifier.ConfusionExample` shows an undetermined tweet counted as FP.
- **The cross-validation remainder trains.** Cross-validation training is `rows[:(s-1)n] + rows[s n:]`, so the remainder past `k n` is part of training. The recorded count `|class| - n` is then exactly the training size (`Datasets.CrossValidationSizes`).
- **A holdout fraction above 1 over-records.** With `percent > 1`, slicing keeps the whole class for training, but the recorded count is `int(|class| * percent)`, which is larger. `Datasets.Data.CreateSetsHoldout` records the unclamped value, as the code does.

## Model

| member | source | states |
|---|---|---|
| Common.Texts | Bayes.py:83 | column 0 of the test set, one text per row, in order |
| Common.Labels | Bayes.py:126 | the last column (the label) of each test row, in order |
| Tokenizer.IsWordChar | Dictionary.py:41 | `\w`: an ASCII letter, an ASCII digit or `_` |
| Tokenizer.RunLength | Dictionary.py:41 | the run of word characters at the start of a text is maximal: all of it are word characters and the next character is not |
| Tokenizer.Tokens | Dictionary.py:41 | every token `findall(r'\w+')` returns is a non-empty run of word characters |
| Tokenizer.TweetTokens | Dictionary.py:40-41 | a cell that is not a string has no tokens; a string cell has the tokens of its text |
| Tokenizer.RunLengthStopsAtSeparator | Dictionary.py:41 | a run of word characters ends at the first separator |
| Tokenizer.TokensSplitAtSeparator | Dictionary.py:41 | the tokens of `a + [c] + b` with a separator `c` are those of `a` followed by those of `b` |
| Tokenizer.TokensOfWord | Dictionary.py:41 | a single word tokenizes to itself |
| Tokenizer.RunLengthAtMost | Dictionary.py:41 | a run that covers `s` inside `s + t` covers all of `s` on its own |
| Tokenizer.TokensOfJoin | Dictionary.py:41 | round trip: tokenizing words joined by spaces gives back the words |
| Tokenizer.TokensOfPunctuated | Dictionary.py:41 | text shaped `"a1 b_2, c"` (a space, then a comma and a space) tokenizes to its three words |
| Dictionaries.Count | Dictionary.py:42 | `setdefault(word, 0)` read for its value: the stored count, or 0 for a word without an entry (also Bayes.py:88-89, 108-109, where the inserted 0 only touches a local copy) |
| Dictionaries.Inc | Dictionary.py:42 | `my_dict[word] = my_dict.setdefault(word, 0) + 1`: the word's count goes up by one, the key set gains the word, no other count changes |
| Dictionaries.AddTokens | Dictionary.py:41-42 | the dictionary after counting a token list left to right, one `Inc` per token (its meaning is stated by `AddTokensCounts` and `CardAddTokens`) |
| Dictionaries.AllTokens | Dictionary.py:39-41 | the tokens of all tweets, tweet after tweet, a non-string cell adding none |
| Dictionaries.CountAll | Dictionary.py:38-43 | the dictionary `create_dictionary` stores: the tweets counted one after the other (its meaning is stated by `CountAllCounts`, `CountAllPositive` and `CardCountAll`) |
| Dictionaries.AddTokensCounts | Dictionary.py:41-42 | counting a token list adds each word's number of occurrences and creates exactly the keys of the words that occur |
| Dictionaries.CountAllCounts | Dictionary.py:38-43 | after the unbounded build, each count is the word's number of occurrences in all string tweets and the keys are exactly the occurring words |
| Dictionaries.CountAllPositive | Dictionary.py:38-43 | every count in a built dictionary is at least one |
| Dictionaries.SumOver | Dictionary.py:78-81 | the sum of the counts of a set of keys, keys taken in any order |
| Dictionaries.Card | Dictionary.py:78-81 | the value `get_dictionary_card` returns: the sum of all counts |
| Dictionaries.SumOverRemove | Dictionary.py:79-80 | the sum of the counts does not depend on the order in which the keys are visited |
| Dictionaries.SumOverAgree | Dictionary.py:79-80 | two dictionaries with the same counts on a key set have the same sum over it |
| Dictionaries.CardInc | Dictionary.py:42 | one counting step raises the total number of occurrences by one |
| Dictionaries.CardAddTokens | Dictionary.py:41-42 | counting a token list raises the total by its length |
| Dictionaries.CardCountAll | Dictionary.py:38-43 | the total of the unbounded build is the number of tokens of all string tweets |
| Dictionaries.KeysAtMostSum | Dictionary.py:68-81 | with positive counts, a key set is no larger than the sum of its counts |
| Dictionaries.LengthAtMostCard | Dictionary.py:68-81 | with positive counts, `len <= card`, and `card == 0` exactly for the empty dictionary |
| Dictionaries.TotalBefore | Dictionary.py:51-57 | the value of `actual_size` when tweet `i` is reached: the token counts of the string tweets before it |
| Dictionaries.TotalBeforeIsTokenCount | Dictionary.py:51-57 | the running `actual_size` before tweet `i` is the number of tokens of the tweets before it |
| Dictionaries.TotalBeforeMonotone | Dictionary.py:57 | the running total never decreases |
| Dictionaries.CountStep | Dictionary.py:39-42 | counting tweet `i` extends the dictionary of the tweets before it by that tweet's tokens |
| Dictionaries.SizedFrom | Dictionary.py:52-59 | the capped build counts every tweet reached with a running total at most `size`, and stops at the first tweet reached with more |
| Dictionaries.SizedPrefix | Dictionary.py:52-59 | the number of tweets the capped build counts: all before it passed `actual_size <= size`, and the next one (if any) failed it |
| Dictionaries.SizedOvershoot | Dictionary.py:53-57 | the capped dictionary's total exceeds `size` by at most the tokens of the last tweet counted |
| Dictionaries.SizedZeroCountsFirst | Dictionary.py:53-57 | with a cap of 0 the first tweet is still counted in full |
| Dictionaries.SizedNegativeEmpty | Dictionary.py:53-59 | with a negative cap nothing is counted |
| Dictionaries.SizedCoversAll | Dictionary.py:52-60 | a cap at least the total number of tokens gives the same dictionary as the unbounded build |
| Dictionaries.CountWords | Dictionary.py:41-42 | the inner counting loop: the dictionary after counting `words` in order, and `len(words)` occurrences added |
| Dictionaries.Dictionary.constructor | Dictionary.py:26-32 | keeps the data and starts with an empty dictionary |
| Dictionaries.Dictionary.CreateDictionary | Dictionary.py:34-43 | the stored dictionary is the count of all tokens of all string tweets, every count positive |
| Dictionaries.Dictionary.CreateSizedDictionary | Dictionary.py:45-60 | the stored dictionary counts exactly the tweets of the capped prefix, every count positive |
| Dictionaries.Dictionary.GetDictionary | Dictionary.py:62-66 | returns the stored counts, all positive for a built dictionary |
| Dictionaries.Dictionary.GetDictionaryLength | Dictionary.py:68-72 | the number of distinct words, at most the total number of occurrences |
| Dictionaries.Dictionary.GetDictionaryCard | Dictionary.py:74-81 | the sum of all counts, accumulated key by key |
| Datasets.DropFirstRow | Data.py:33 | `data[1:, :]`: the rows after the first, in order |
| Datasets.Shuffle | Data.py:34 | the shuffled rows are a permutation of the rows (same length, same multiset) |
| Datasets.ShuffleStep | Data.py:34 | one draw of the shuffle puts the chosen row first and shuffles the rest |
| Datasets.ShuffleExtend | Data.py:34 | drawing the first row of a target order and then shuffling the rest into the rest of it reaches that order |
| Datasets.ShuffleReachesEveryPermutation | Data.py:34 | every permutation is the outcome of some random stream |
| Datasets.WithLabel | Data.py:35-36 | the label mask keeps exactly the rows with that label, each as often as in the table |
| Datasets.LabelPartitionSize | Data.py:35-36 | the positive and the negative rows never outnumber the table |
| Datasets.LabelPartition | Data.py:35-36 | when every label is 0 or 1, positive and negative rows together are exactly the table |
| Datasets.SplitIndex | Data.py:46-47 | `int(n * percent)` is not negative, and at most `n` for `percent <= 1` |
| Datasets.Clamp | Data.py:52-57 | a slice bound is at most the length: the index or the length |
| Datasets.Holdout | Data.py:40-61 | fails with InvalidArgument exactly when `percent <= 0`; otherwise each class trains on its first `int(n * percent)` rows (at most all of them) and the test set is a permutation of the rest of both classes |
| Datasets.HoldoutPartitions | Data.py:46-61 | holdout loses and duplicates no row; for `percent <= 1` the training parts have exactly the recorded sizes |
| Datasets.SliceParts | Data.py:52-57 | a slice and its complement together hold every row once |
| Datasets.HoldoutExample | Data.py:40-61 | 10 + 10 rows at 0.8 give 8 + 8 training rows and 4 test rows |
| Datasets.FoldWithin | Data.py:69-82 | fold `s` of `k`, of `n // k` rows, lies inside the class |
| Datasets.FoldNumber | Data.py:81-82 | index `i` lies in fold `s` exactly when `s == i // n + 1` |
| Datasets.TestFoldsPartition | Data.py:69-82 | over `s = 1..k`, every index below `k n` lies in exactly one test fold and the remainder in none |
| Datasets.TestFold | Data.py:81-82 | the test fold of a class: the slice `[(s-1)n : s n]` |
| Datasets.TrainFold | Data.py:75-78 | the training rows of a class: the slice before the fold and the slice after it, remainder included |
| Datasets.FoldPartitions | Data.py:75-82 | a class's training part and test fold partition it; training has `|class| - n` rows and the fold `n` |
| Datasets.FoldSets | Data.py:74-85 | training parts are the rows outside each fold; the test set is a permutation of the two folds |
| Datasets.CrossValidation | Data.py:63-86 | the test fold `s` of `k` lies inside each class |
| Datasets.FoldSetsPartition | Data.py:71-85 | the fold sets lose and duplicate no row; training sizes are `|class| - n`, and the test size is the sum of the fold sizes |
| Datasets.CrossValidationSizes | Data.py:69-86 | cross-validation loses and duplicates no row; each class trains on exactly the recorded `|class| - |class| // k` rows |
| Datasets.CrossValidationFolds | Data.py:69-70 | cross-validation uses folds of `|class| // k` rows |
| Datasets.CrossValidationExample | Data.py:63-86 | 10 positive rows, fold 1 of 5: a test fold of the first 2 rows and 8 training rows |
| Datasets.Data.constructor | Data.py:27-38 | the data is a shuffle of the rows after the first row of the loaded table; the positive and the negative rows are its label masks; both counts are 0 |
| Datasets.Data.CreateSetsHoldout | Data.py:40-61 | returns the holdout split, or InvalidArgument for `percent <= 0` leaving the counts unchanged; on success records `int(n * percent)` per class |
| Datasets.Data.CreateSetsCv | Data.py:63-86 | returns the cross-validation split and records `|class| - |class| // k` per class, which is the size of each training part |
| Datasets.Data.GetPosSplNb | Data.py:88-92 | the recorded number of positive training rows |
| Datasets.Data.GetNegSplNb | Data.py:94-98 | the recorded number of negative training rows |
| Classifier.Prior | Bayes.py:71-73 | a class prior: its training count over the total training count |
| Classifier.Model | Bayes.py:71-79 | what the classifier reads from one dictionary: the prior, the counts, `len` and `card` |
| Classifier.PriorsSumToOne | Bayes.py:71-73 | the two priors `pos_spl_nb / total` and `neg_spl_nb / total` add up to 1 |
| Classifier.DefinedIffNonEmpty | Bayes.py:74-77 | for a built dictionary, the factor's denominator (`len + card` or `card`) is non-zero exactly when the dictionary has a word |
| Classifier.Factor | Bayes.py:88-89 | the smoothed factor is positive; the unsmoothed factor is never negative and is 0 exactly for an unseen word |
| Classifier.Score | Bayes.py:84-89 | the final value of `probability1` or `probability0`: the prior times the factor of every token in order (same loop at Bayes.py:104-109); `Probabilities` is proved equal to it |
| Classifier.ScoreSign | Bayes.py:84-89 | a score is never negative, and with smoothing a positive prior keeps it positive |
| Classifier.UnseenWordZeroScore | Bayes.py:108-109 | without smoothing, one word the class has not seen makes its score exactly 0 |
| Classifier.SmoothedScoreDominates | Bayes.py:88-89 | with smoothing, equal priors and equal denominators, a class that has seen every word at least as often scores at least as high |
| Classifier.FactorDominates | Bayes.py:88-89 | with smoothing and equal denominators, a larger count gives a larger factor |
| Classifier.Decide | Bayes.py:92-98 | 1 exactly when `probability0 < probability1`, 0 exactly when `probability1 < probability0`, 2 exactly on a tie |
| Classifier.Predict | Bayes.py:83-98 | the prediction of one tweet is 0, 1 or 2 |
| Classifier.UnseenWordPrediction | Bayes.py:103-118 | without smoothing, a word the positive class has not seen rules out a positive prediction, and a word neither class has seen makes the tweet undetermined |
| Classifier.NoTokensEqualCounts | Bayes.py:84-98 | a tweet without tokens keeps the bare priors, so with equal training counts it is undetermined |
| Classifier.SmoothedNeverNegative | Bayes.py:82-98 | with smoothing, equal priors and equal denominators, a tweet whose every word is at least as frequent in the positive dictionary is never predicted negative |
| Classifier.PredictAll | Bayes.py:83-99 | one prediction per test tweet |
| Classifier.PredictAllIndex | Bayes.py:83-99 | the `i`-th prediction is the prediction of the `i`-th tweet, in test-set order, and is 0, 1 or 2 |
| Classifier.PredictAllStep | Bayes.py:92-99 | predicting one more tweet appends its prediction and counts it when it is undetermined |
| Classifier.Tally | Bayes.py:137-145 | one comparison: label 1 counts as TP for a truthy prediction (2 included) and as FN for 0; label 0 counts as FP or TN alike; any other label counts nowhere |
| Classifier.ConfusionOf | Bayes.py:134-145 | the confusion matrix has four cells |
| Classifier.ConfusionRows | Bayes.py:137-145 | TP + FN is the number of labels 1, and FP + TN the number of labels 0 |
| Classifier.Pairs | Bayes.py:137 | `zip(test_y, predicted_y)`: the label and the prediction of each row, side by side |
| Classifier.PairCountStep | Bayes.py:137 | the last row adds one to the count of its own (label, prediction) pair and to no other |
| Classifier.ConfusionCells | Bayes.py:137-145 | for predictions in 0..2, each cell counts its pairs: TP = (1,1) + (1,2), FN = (1,0), FP = (0,1) + (0,2), TN = (0,0) |
| Classifier.UndeterminedCountsAsPositive | Bayes.py:138-145 | replacing every undetermined prediction by 1 leaves the confusion matrix unchanged |
| Classifier.PerfectConfusion | Bayes.py:137-145 | predictions equal to the labels leave FN and FP at 0, with TP and TN the label counts |
| Classifier.Ratio | Bayes.py:152-155 | a ratio of counts lies in [0, 1], times the denominator gives the numerator, and is 1 exactly when the two are equal |
| Classifier.Metrics | Bayes.py:147-155 | ZeroDivision exactly when a denominator is 0; otherwise accuracy, precision, recall and specificity by their formulas, each in [0, 1] |
| Classifier.Evaluate | Bayes.py:122-159 | LengthMismatch exactly when the lengths differ; on success four metrics and a matrix whose rows sum to the label counts |
| Classifier.PerfectMetrics | Bayes.py:122-159 | perfect predictions on labels of both classes give 1 on every metric |
| Classifier.ConfusionExample | Bayes.py:137-145 | labels 1, 1, 0, 0 against predictions 1, 0, 0, 2 give one row per cell, the undetermined one counting as FP |
| Classifier.MetricsExample | Bayes.py:147-155 | one row per cell gives 0.5 on every metric |
| Classifier.EvaluateExample | Bayes.py:122-159 | the comparison of that example gives metrics 0.5 and matrix [1, 1, 1, 1] |
| Classifier.ScoreSnoc | Bayes.py:88-89 | scoring one more word multiplies the running score by that word's factor |
| Classifier.Probabilities | Bayes.py:84-89 | the two running products over a tweet's words equal the two class scores |
| Classifier.PredictTweet | Bayes.py:84-98 | the sentiment computed for one tweet is its prediction |
| Classifier.PredictTweets | Bayes.py:83-120 | the sentiments computed for the test tweets are their predictions in order, and the returned count is the number of undetermined ones |
| Classifier.ConfusionMatrix | Bayes.py:134-145 | the counting loop computes the confusion matrix of the labels against the predictions |
| Classifier.ComputeMetrics | Bayes.py:147-155 | the guarded divisions compute the metrics of the matrix, or ZeroDivision |
| Classifier.Bayes.constructor | Bayes.py:48-60 | keeps both dictionaries and the test set, with no predictions, no metrics and a zero matrix |
| Classifier.Bayes.PredictSentiments | Bayes.py:62-120 | appends exactly the predictions of the test tweets, in order, under the priors and statistics of the two dictionaries, and returns how many of them are undetermined |
| Classifier.Bayes.CompareSentiments | Bayes.py:122-159 | returns the evaluation of the labels against the predictions; on success stores its metrics and matrix, on failure leaves both unchanged |

Proof helpers with no row of their own, since they are general arithmetic or sequence facts and model no source line:

- `Datasets.RemoveMatching`, `Datasets.SameLength` and `Datasets.ShortPermutation` (multisets of sequences), used by `Datasets.ShuffleReachesEveryPermutation`;
- `Datasets.ScaleMonotone` and `Datasets.MulCancel` (integer multiplication), used by the fold lemmas;
- `Classifier.DivMonotone`, `Classifier.MulMonotone` and `Classifier.MulPositive` (real division and multiplication), used by the score lemmas.

## Left out

- Reading the CSV file (`Reader.py`), the driver script (`Main.py`), printing, `to_string` and the matplotlib plot of the confusion matrix are I/O and are not part of this model.
- Floating point is modelled as exact real arithmetic. Scores that underflow to 0.0 in IEEE doubles, and ties or orderings that rounding creates or hides, are not captured. The two float-to-int conversions are exact too: `Datasets.SplitIndex` is the floor of the exact product `n * percent`, while `int(len * percent)` at Data.py:46-47 truncates a rounded double (`int(100 * 0.29)` is 28 where `SplitIndex(100, 0.29)` is 29); and the fold size `int(len / k)` at Data.py:69-70 is modelled as integer floor division `|class| / k`, which the truncated double quotient matches unless rounding lifts it to the next integer.
- `\w` is taken over ASCII letters, digits and `_`. Python's Unicode word characters beyond ASCII are not modelled.
- Datasets.Shuffle: `np.random.shuffle` is replaced by a shuffle driven by an explicit stream of random positions. The model proves that the result is a permutation and that every permutation is reachable, not numpy's distribution. The arrays are not shuffled in place: the shuffled sequence is stored or returned.
- Classifier.Bayes.PredictSentiments: a zero training total (`pos_spl_nb + neg_spl_nb == 0`) raises at Bayes.py:72-73, before the loop, and nothing is appended. That case is a precondition.
- Classifier.Bayes.PredictSentiments: an empty dictionary of either class makes a factor denominator zero (Bayes.py:88-89, 108-109). It raises mid-loop, at the first test tweet with a token, after the predictions of the earlier tweets were appended (Bayes.py:99, 119). The model makes this case a precondition (`CanClassify`), so that partial update of `predictions` is not captured.
- Classifier.Bayes.PredictSentiments: `laplace_smoothing is True` is modelled as a boolean. A truthy non-`True` value, which the source routes to the unsmoothed branch, is not modelled.
- Classifier.Bayes.PredictSentiments: `setdefault(word, 0)` on the local copies of the dictionaries adds zero entries to those copies only. The model reads the count, or 0, without inserting. The stored dictionaries, `len` and `card` are computed before the loop and are the same either way.
- Datasets.Data.CreateSetsCv: a fold number outside `1..k` is a precondition. With `set_number > k` the slices at Data.py:75-82 can run past the end and are clamped, so the test fold is short or empty; with `set_number <= 0` they take negative, end-relative indices. Neither case is modelled.
- Classifier.Bayes.CompareSentiments: `exit()` on a length mismatch and the `ZeroDivisionError` of a metric become `Failure(LengthMismatch)` and `Failure(ZeroDivision)`. No metric is stored in that case.
- Datasets.Data.CreateSetsHoldout: the failing `assert percent > 0.0` becomes `Failure(InvalidArgument)`.
- Labels are integers, and texts are strings or absent. Other cell types of the numpy object array are not modelled.
- The default arguments `percent=0.8` (Data.py:40) and `k=5` (Data.py:63) are not modelled: the driver passes both values explicitly (Main.py:30, 77).
