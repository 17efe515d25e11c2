/** Word-frequency dictionaries built from the tweets of one class: the
    unbounded build, the build capped by a running token total, and the two
    statistics the classifier reads from them (vocabulary size and total
    number of occurrences). */
module Dictionaries {
  import opened Common
  import opened Tokenizer

  type WordCounts = map<string, nat>

  /** The count stored for `w`, or 0 when `w` has no entry (`setdefault(w, 0)`). */
  function Count(m: WordCounts, w: string): nat {
    if w in m then m[w] else 0
  }

  /** One counting step: the entry of `w` goes up by one, or is created with 1. */
  function Inc(m: WordCounts, w: string): (r: WordCounts)
    ensures r.Keys == m.Keys + {w}
    ensures Count(r, w) == Count(m, w) + 1
    ensures forall v :: v != w ==> Count(r, v) == Count(m, v)
  {
    m[w := Count(m, w) + 1]
  }

  /** `m` after counting the tokens `toks` one by one, left to right. */
  function AddTokens(m: WordCounts, toks: seq<string>): WordCounts
    decreases |toks|
  {
    if toks == [] then m else Inc(AddTokens(m, toks[..|toks| - 1]), toks[|toks| - 1])
  }

  /** The tokens of all tweets, tweet after tweet; non-string cells add none. */
  function AllTokens(tweets: seq<Option<string>>): seq<string>
    decreases |tweets|
  {
    if tweets == [] then []
    else AllTokens(tweets[..|tweets| - 1]) + TweetTokens(tweets[|tweets| - 1])
  }

  /** The dictionary the unbounded build produces from `tweets`. */
  function CountAll(tweets: seq<Option<string>>): WordCounts
    decreases |tweets|
  {
    if tweets == [] then map[]
    else AddTokens(CountAll(tweets[..|tweets| - 1]), TweetTokens(tweets[|tweets| - 1]))
  }

  /** Every stored count is at least one. */
  ghost predicate Positive(m: WordCounts) {
    forall w :: w in m ==> m[w] >= 1
  }

  /** Counting a token list adds, per word, its number of occurrences, and
      creates an entry exactly for the words that occur. */
  lemma {:induction false} AddTokensCounts(m: WordCounts, toks: seq<string>)
    ensures forall w :: Count(AddTokens(m, toks), w) == Count(m, w) + multiset(toks)[w]
    ensures forall w :: w in AddTokens(m, toks) <==> w in m || w in toks
    decreases |toks|
  {
    if toks != [] {
      var init, last := toks[..|toks| - 1], toks[|toks| - 1];
      assert toks == init + [last];
      AddTokensCounts(m, init);
    }
  }

  /** After the unbounded build each word's count is its number of
      occurrences among the tokens of all string tweets, and the keys are
      exactly the words that occur. */
  lemma {:induction false} CountAllCounts(tweets: seq<Option<string>>)
    ensures forall w :: Count(CountAll(tweets), w) == multiset(AllTokens(tweets))[w]
    ensures forall w :: w in CountAll(tweets) <==> w in AllTokens(tweets)
    decreases |tweets|
  {
    if tweets != [] {
      var init := tweets[..|tweets| - 1];
      CountAllCounts(init);
      AddTokensCounts(CountAll(init), TweetTokens(tweets[|tweets| - 1]));
    }
  }

  /** Entries are only created by incrementing, so every count is at least one. */
  lemma CountAllPositive(tweets: seq<Option<string>>)
    ensures Positive(CountAll(tweets))
  {
    CountAllCounts(tweets);
    forall w | w in CountAll(tweets)
      ensures CountAll(tweets)[w] >= 1
    {
      assert multiset(AllTokens(tweets))[w] > 0;
    }
  }

  /** Sum of the counts of the keys `ks`. */
  ghost function SumOver(m: WordCounts, ks: set<string>): nat
    requires ks <= m.Keys
    decreases ks
  {
    if ks == {} then 0
    else
      var k :| k in ks;
      m[k] + SumOver(m, ks - {k})
  }

  /** Total number of occurrences recorded in `m`: the sum of all counts. */
  ghost function Card(m: WordCounts): nat {
    SumOver(m, m.Keys)
  }

  /** The sum does not depend on which key is taken out first. */
  lemma {:induction false} SumOverRemove(m: WordCounts, ks: set<string>, k: string)
    requires ks <= m.Keys && k in ks
    ensures SumOver(m, ks) == m[k] + SumOver(m, ks - {k})
    decreases |ks|
  {
    var j :| j in ks && SumOver(m, ks) == m[j] + SumOver(m, ks - {j});
    if j != k {
      SumOverRemove(m, ks - {j}, k);
      SumOverRemove(m, ks - {k}, j);
      assert ks - {j} - {k} == ks - {k} - {j};
    }
  }

  /** Two maps that agree on `ks` have the same sum over `ks`. */
  lemma {:induction false} SumOverAgree(m1: WordCounts, m2: WordCounts, ks: set<string>)
    requires ks <= m1.Keys && ks <= m2.Keys
    requires forall k :: k in ks ==> m1[k] == m2[k]
    ensures SumOver(m1, ks) == SumOver(m2, ks)
    decreases |ks|
  {
    if ks != {} {
      var k :| k in ks;
      SumOverRemove(m1, ks, k);
      SumOverRemove(m2, ks, k);
      SumOverAgree(m1, m2, ks - {k});
    }
  }

  /** One counting step raises the total by exactly one. */
  lemma CardInc(m: WordCounts, w: string)
    ensures Card(Inc(m, w)) == Card(m) + 1
  {
    var r := Inc(m, w);
    SumOverRemove(r, r.Keys, w);
    if w in m {
      assert r.Keys == m.Keys && r[w] == m[w] + 1;
      SumOverRemove(m, m.Keys, w);
      SumOverAgree(r, m, m.Keys - {w});
    } else {
      assert r.Keys - {w} == m.Keys;
      SumOverAgree(r, m, m.Keys);
    }
  }

  /** Counting a token list raises the total by its length. */
  lemma {:induction false} CardAddTokens(m: WordCounts, toks: seq<string>)
    ensures Card(AddTokens(m, toks)) == Card(m) + |toks|
    decreases |toks|
  {
    if toks != [] {
      CardAddTokens(m, toks[..|toks| - 1]);
      CardInc(AddTokens(m, toks[..|toks| - 1]), toks[|toks| - 1]);
    }
  }

  /** After the unbounded build the total is the number of tokens of all
      string tweets. */
  lemma {:induction false} CardCountAll(tweets: seq<Option<string>>)
    ensures Card(CountAll(tweets)) == |AllTokens(tweets)|
    decreases |tweets|
  {
    if tweets != [] {
      var init := tweets[..|tweets| - 1];
      CardCountAll(init);
      CardAddTokens(CountAll(init), TweetTokens(tweets[|tweets| - 1]));
    }
  }

  lemma {:induction false} KeysAtMostSum(m: WordCounts, ks: set<string>)
    requires ks <= m.Keys && Positive(m)
    ensures |ks| <= SumOver(m, ks)
    decreases |ks|
  {
    if ks != {} {
      var k :| k in ks;
      SumOverRemove(m, ks, k);
      KeysAtMostSum(m, ks - {k});
    }
  }

  /** With every count at least one, the vocabulary size is at most the total,
      and the total is zero only for the empty dictionary. */
  lemma LengthAtMostCard(m: WordCounts)
    ensures Positive(m) ==> |m| <= Card(m)
    ensures Positive(m) ==> (Card(m) == 0 <==> m == map[])
  {
    if !Positive(m) {
      return;
    }
    KeysAtMostSum(m, m.Keys);
    assert |m| == |m.Keys|;
    if m != map[] {
      var k :| k in m;
      assert k in m.Keys;
    }
  }

  /** The running token total before tweet `i`. */
  function TotalBefore(tweets: seq<Option<string>>, i: nat): nat
    requires i <= |tweets|
  {
    if i == 0 then 0 else TotalBefore(tweets, i - 1) + |TweetTokens(tweets[i - 1])|
  }

  /** The running total before tweet `i` is the number of tokens of the
      tweets before it. */
  lemma {:induction false} TotalBeforeIsTokenCount(tweets: seq<Option<string>>, i: nat)
    requires i <= |tweets|
    ensures TotalBefore(tweets, i) == |AllTokens(tweets[..i])|
  {
    if i > 0 {
      TotalBeforeIsTokenCount(tweets, i - 1);
      assert tweets[..i][..i - 1] == tweets[..i - 1];
    }
  }

  /** The running total never decreases. */
  lemma {:induction false} TotalBeforeMonotone(tweets: seq<Option<string>>, i: nat, k: nat)
    requires i <= k <= |tweets|
    ensures TotalBefore(tweets, i) <= TotalBefore(tweets, k)
    decreases k - i
  {
    if i < k {
      TotalBeforeMonotone(tweets, i, k - 1);
      assert TotalBefore(tweets, k) == TotalBefore(tweets, k - 1) + |TweetTokens(tweets[k - 1])|;
    }
  }

  /** Counting tweet `i` after the tweets before it. */
  lemma CountStep(tweets: seq<Option<string>>, i: nat)
    requires i < |tweets|
    ensures CountAll(tweets[..i + 1]) == AddTokens(CountAll(tweets[..i]), TweetTokens(tweets[i]))
  {
    assert tweets[..i + 1][..i] == tweets[..i];
  }

  /** Scanning from tweet `i`: the number of tweets the capped build counts,
      given that every tweet before `i` was reached with a running total
      of at most `size`. */
  function SizedFrom(tweets: seq<Option<string>>, size: int, i: nat): (p: nat)
    requires i <= |tweets|
    requires forall j :: 0 <= j < i ==> TotalBefore(tweets, j) <= size
    ensures i <= p <= |tweets|
    ensures forall j :: 0 <= j < p ==> TotalBefore(tweets, j) <= size
    ensures p < |tweets| ==> TotalBefore(tweets, p) > size
    decreases |tweets| - i
  {
    if i == |tweets| || TotalBefore(tweets, i) > size then i
    else SizedFrom(tweets, size, i + 1)
  }

  /** The number of tweets the capped build counts: every tweet whose running
      total before it is at most `size`, up to the first one where it is not. */
  function SizedPrefix(tweets: seq<Option<string>>, size: int): (p: nat)
    ensures p <= |tweets|
    ensures forall j :: 0 <= j < p ==> TotalBefore(tweets, j) <= size
    ensures p < |tweets| ==> TotalBefore(tweets, p) > size
  {
    SizedFrom(tweets, size, 0)
  }

  /** The running total before the last counted tweet is at most `size`, so
      the capped dictionary's total overshoots `size` by at most the tokens
      of that one tweet. */
  lemma SizedOvershoot(tweets: seq<Option<string>>, size: int)
    requires SizedPrefix(tweets, size) > 0
    ensures var p := SizedPrefix(tweets, size);
      TotalBefore(tweets, p - 1) <= size &&
      Card(CountAll(tweets[..p])) <= size + |TweetTokens(tweets[p - 1])|
  {
    var p := SizedPrefix(tweets, size);
    TotalBeforeIsTokenCount(tweets, p);
    CardCountAll(tweets[..p]);
  }

  /** With a cap of 0 the first tweet is still counted in full. */
  lemma SizedZeroCountsFirst(tweets: seq<Option<string>>)
    requires |tweets| > 0
    ensures SizedPrefix(tweets, 0) >= 1
    ensures TweetTokens(tweets[0]) == AllTokens(tweets[..1])
  {
    assert tweets[..0] == [];
    assert tweets[..1][..0] == [];
  }

  /** With a negative cap nothing is counted. */
  lemma SizedNegativeEmpty(tweets: seq<Option<string>>, size: int)
    requires size < 0
    ensures SizedPrefix(tweets, size) == 0
    ensures CountAll(tweets[..SizedPrefix(tweets, size)]) == map[]
  {
    assert tweets[..0] == [];
  }

  /** A cap at least the total number of tokens changes nothing: the capped
      build then gives the same dictionary as the unbounded one. */
  lemma SizedCoversAll(tweets: seq<Option<string>>, size: int)
    requires size >= |AllTokens(tweets)|
    ensures SizedPrefix(tweets, size) == |tweets|
    ensures CountAll(tweets[..SizedPrefix(tweets, size)]) == CountAll(tweets)
  {
    var p := SizedPrefix(tweets, size);
    TotalBeforeMonotone(tweets, p, |tweets|);
    TotalBeforeIsTokenCount(tweets, |tweets|);
    assert tweets[..|tweets|] == tweets;
    assert tweets[..p] == tweets;
  }

  /** The inner loop of both builds: counts `words` into `m` one at a time
      and reports how many occurrences were added. */
  method CountWords(m: WordCounts, words: seq<string>) returns (r: WordCounts, added: nat)
    ensures r == AddTokens(m, words)
    ensures added == |words|
  {
    r, added := m, 0;
    var j := 0;
    while j < |words|
      invariant 0 <= j <= |words|
      invariant r == AddTokens(m, words[..j])
      invariant added == j
    {
      assert words[..j + 1][..j] == words[..j];
      r := r[words[j] := Count(r, words[j]) + 1];
      added := added + 1;
      j := j + 1;
    }
    assert words[..j] == words;
  }

  /** A dictionary of one class, built from the rows `data`. */
  class Dictionary {
    var data: seq<Row>
    var dictionary: WordCounts

    ghost predicate Valid()
      reads this
    {
      Positive(dictionary)
    }

    constructor (data: seq<Row>)
      ensures this.data == data && dictionary == map[]
      ensures Valid()
    {
      this.data := data;
      dictionary := map[];
    }

    /** Counts every token of every string tweet. */
    method CreateDictionary()
      modifies this`dictionary
      ensures dictionary == CountAll(Texts(data))
      ensures Valid()
    {
      var tweets := Texts(data);
      var myDict: WordCounts := map[];
      var i := 0;
      while i < |tweets|
        invariant 0 <= i <= |tweets|
        invariant myDict == CountAll(tweets[..i])
      {
        var tweet := tweets[i];
        CountStep(tweets, i);
        if tweet.Some? {
          var added;
          myDict, added := CountWords(myDict, Tokens(tweet.value));
        }
        i := i + 1;
      }
      assert tweets[..i] == tweets;
      CountAllPositive(tweets);
      dictionary := myDict;
    }

    /** Counts whole tweets while the running token total before the tweet is
        at most `size`, and stops at the first tweet where it is not. */
    method CreateSizedDictionary(size: int)
      modifies this`dictionary
      ensures dictionary == CountAll(Texts(data)[..SizedPrefix(Texts(data), size)])
      ensures Valid()
    {
      var tweets := Texts(data);
      var mySizedDict: WordCounts := map[];
      var actualSize := 0;
      var i := 0;
      while i < |tweets|
        invariant 0 <= i <= |tweets|
        invariant mySizedDict == CountAll(tweets[..i])
        invariant actualSize == TotalBefore(tweets, i)
        invariant i <= SizedPrefix(tweets, size)
      {
        if actualSize <= size {
          var tweet := tweets[i];
          CountStep(tweets, i);
          if tweet.Some? {
            var added;
            mySizedDict, added := CountWords(mySizedDict, Tokens(tweet.value));
            actualSize := actualSize + added;
          }
        } else {
          break;
        }
        i := i + 1;
      }
      assert i == SizedPrefix(tweets, size);
      CountAllPositive(tweets[..i]);
      dictionary := mySizedDict;
    }

    /** The stored word counts. */
    function GetDictionary(): (d: WordCounts)
      reads this
      ensures d == dictionary
      ensures Valid() ==> forall w :: w in d ==> d[w] >= 1
    {
      dictionary
    }

    /** The number of distinct words; at most the total number of occurrences. */
    function GetDictionaryLength(): (n: nat)
      reads this
      ensures n == |dictionary.Keys|
      ensures Valid() ==> n <= Card(dictionary)
    {
      LengthAtMostCard(dictionary);
      |dictionary|
    }

    /** The sum of all counts, accumulated key by key in any order. */
    method GetDictionaryCard() returns (somme: nat)
      ensures somme == Card(dictionary)
    {
      somme := 0;
      var remaining := dictionary.Keys;
      while remaining != {}
        invariant remaining <= dictionary.Keys
        invariant somme + SumOver(dictionary, remaining) == Card(dictionary)
        decreases |remaining|
      {
        var word :| word in remaining;
        SumOverRemove(dictionary, remaining, word);
        somme := somme + dictionary[word];
        remaining := remaining - {word};
      }
    }
  }
}
