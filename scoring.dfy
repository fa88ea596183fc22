/** The scoring rule of `classify`: multinomial Naive Bayes with add-one
    smoothing, where the score of a category is its raw prior probability plus,
    for every occurrence of a known token, the log of the smoothed likelihood
    of that token in that category. The logarithm is a parameter `ln`; scores
    are exact reals. */
module Scoring {
  import opened Dicts
  import opened Tokenizer
  import opened FrequencyStore

  datatype Option<T> = None | Some(value: T)

  /** The reals on which a logarithm is defined. */
  type PosReal = r: real | r > 0.0 witness 1.0

  /** The stand-in for `math.log`. */
  type Log = PosReal -> real

  ghost predicate Monotone(ln: Log) {
    forall x: PosReal, y: PosReal :: x <= y ==> ln(x) <= ln(y)
  }

  /** `len(list(vocabulary.keys()))`: the number of distinct known tokens. */
  function VocabularySize(m: Model): nat {
    |m.vocabulary.keys|
  }

  /** `sum(cat_dict.values())`: the number of token occurrences seen in `c`. */
  function WordCount(m: Model, c: Category): nat {
    Sum(CategoryDict(m.bagOfWords, c))
  }

  /** `counts / total_category_count`: the share of examples labelled `c`. */
  function Prior(m: Model, c: Category): real
    requires TotalExamples(m) > 0
  {
    Get(m.categoryCounts, c, 0) as real / TotalExamples(m) as real
  }

  /** `cat_dict.get(word, 0) + 1` */
  function Numerator(m: Model, c: Category, w: Token): nat {
    Get(CategoryDict(m.bagOfWords, c), w, 0) + 1
  }

  /** `wc + vocabulary_size` */
  function Denominator(m: Model, c: Category): nat {
    WordCount(m, c) + VocabularySize(m)
  }

  /** What one occurrence of a known token adds to the score of `c`. */
  function Term(m: Model, ln: Log, c: Category, w: Token): real
    requires WellFormed(m.vocabulary) && w in m.vocabulary.items
  {
    assert w in m.vocabulary.keys;
    ln(Numerator(m, c, w) as real) - ln(Denominator(m, c) as real)
  }

  /** The log-likelihood part of the score of `c`: one term per occurrence of a
      known token, unknown tokens skipped. */
  function Evidence(m: Model, ln: Log, tokens: seq<Token>, c: Category): real
    requires WellFormed(m.vocabulary)
    decreases |tokens|
  {
    if tokens == [] then 0.0
    else
      var w := tokens[|tokens| - 1];
      Evidence(m, ln, tokens[..|tokens| - 1], c) + (if w in m.vocabulary.items then Term(m, ln, c, w) else 0.0)
  }

  /** The score of `c` for a tokenised description. */
  function Score(m: Model, ln: Log, tokens: seq<Token>, c: Category): real
    requires WellFormed(m.vocabulary) && TotalExamples(m) > 0
  {
    Prior(m, c) + Evidence(m, ln, tokens, c)
  }

  /** `category_word_counts`: the number of token occurrences of each category. */
  function WordCounts(m: Model): Dict<Category, nat> {
    Dict(m.bagOfWords.keys, map c | c in m.bagOfWords.items :: Sum(m.bagOfWords.items[c]))
  }

  /** `category_denominators`, built from `category_word_counts`. */
  function Denominators(m: Model): Dict<Category, nat> {
    var wordCounts := WordCounts(m);
    Dict(wordCounts.keys, map c | c in wordCounts.items :: wordCounts.items[c] + VocabularySize(m))
  }

  /** `category_numerators` for the token `w`. */
  function Numerators(m: Model, w: Token): Dict<Category, nat> {
    Dict(m.bagOfWords.keys, map c | c in m.bagOfWords.items :: Get(m.bagOfWords.items[c], w, 0) + 1)
  }

  lemma TotalIsPositive(m: Model)
    requires Inv(m) && m.categoryCounts.keys != []
    ensures TotalExamples(m) >= 1
  {
    SumOfPositiveIsPositive(m.categoryCounts);
  }

  /** `category_log_probabilities`: the prior of each category. */
  function Priors(m: Model): Dict<Category, real>
    requires Inv(m)
  {
    assert m.categoryCounts.keys != [] ==> TotalExamples(m) > 0 by {
      if m.categoryCounts.keys != [] { TotalIsPositive(m); }
    }
    Dict(m.categoryCounts.keys,
      map c | c in m.categoryCounts.items :: m.categoryCounts.items[c] as real / TotalExamples(m) as real)
  }

  /** The numerators and denominators of a known token are those of the
      scoring rule, for every category, and where `math.log` is applied to
      them they are at least one. */
  lemma RatiosOfKnownToken(m: Model, w: Token)
    requires Inv(m) && w in m.vocabulary.items
    ensures forall c :: c in Numerators(m, w).items <==> c in m.categoryCounts.items
    ensures forall c :: c in Denominators(m).items <==> c in m.categoryCounts.items
    ensures forall c :: c in m.categoryCounts.items ==>
      1 <= Numerators(m, w).items[c] == Numerator(m, c, w) && 1 <= Denominators(m).items[c] == Denominator(m, c)
  {
    assert w in m.vocabulary.keys;
  }

  /** `category_prob_results` once every token has been scored. */
  function Scores(m: Model, ln: Log, tokens: seq<Token>): (d: Dict<Category, real>)
    requires Inv(m)
  {
    if m.categoryCounts.keys == [] then Dict([], map[])
    else
      TotalIsPositive(m);
      Dict(m.categoryCounts.keys, map c | c in m.categoryCounts.items :: Score(m, ln, tokens, c))
  }

  /** One more token of the description adds its term, or nothing when it is unknown. */
  lemma ScoreStep(m: Model, ln: Log, tokens: seq<Token>, i: nat, c: Category)
    requires WellFormed(m.vocabulary) && TotalExamples(m) > 0 && i < |tokens|
    ensures Score(m, ln, tokens[..i + 1], c)
         == Score(m, ln, tokens[..i], c) + (if tokens[i] in m.vocabulary.items then Term(m, ln, c, tokens[i]) else 0.0)
  {
    assert tokens[..i + 1][..i] == tokens[..i];
  }

  /** Before any token, the scores are the priors. */
  lemma ScoresOfNoTokens(m: Model, ln: Log)
    requires Inv(m)
    ensures Priors(m) == Scores(m, ln, [])
  {
  }

  /** An unknown token leaves every score as it was. */
  lemma ScoresSkipUnknown(m: Model, ln: Log, tokens: seq<Token>, i: nat)
    requires Inv(m) && i < |tokens| && tokens[i] !in m.vocabulary.items
    ensures Scores(m, ln, tokens[..i + 1]) == Scores(m, ln, tokens[..i])
  {
    if m.categoryCounts.keys != [] {
      TotalIsPositive(m);
      forall c {
        ScoreStep(m, ln, tokens, i, c);
      }
    }
  }

  /** A dictionary with the categories of `m`, in order, holding their scores, is `Scores`. */
  lemma ScoresAre(m: Model, ln: Log, tokens: seq<Token>, d: Dict<Category, real>)
    requires Inv(m) && TotalExamples(m) > 0
    requires d.keys == m.categoryCounts.keys
    requires forall c :: c in d.items <==> c in m.categoryCounts.items
    requires forall c :: c in m.categoryCounts.items ==> d.items[c] == Score(m, ln, tokens, c)
    ensures d == Scores(m, ln, tokens)
  {
    assert m.categoryCounts.keys != [] by {
      assert Sum(m.categoryCounts) > 0;
    }
  }

  /** A known token adds the log of its smoothed likelihood to every score. */
  lemma ScoresAddKnown(m: Model, ln: Log, tokens: seq<Token>, i: nat, before: Dict<Category, real>, after: Dict<Category, real>)
    requires Inv(m) && i < |tokens| && tokens[i] in m.vocabulary.items
    requires before == Scores(m, ln, tokens[..i])
    requires after.keys == before.keys && forall c :: c in after.items <==> c in before.items
    requires forall c :: c in after.items ==>
      after.items[c] == before.items[c] + ln(Numerator(m, c, tokens[i]) as real) - ln(Denominator(m, c) as real)
    ensures after == Scores(m, ln, tokens[..i + 1])
  {
    if m.categoryCounts.keys != [] {
      TotalIsPositive(m);
      forall c | c in m.categoryCounts.items
        ensures after.items[c] == Score(m, ln, tokens[..i + 1], c)
      {
        ScoreStep(m, ln, tokens, i, c);
      }
      ScoresAre(m, ln, tokens[..i + 1], after);
    }
  }

  /** The position of the first largest score, scanning left to right and
      replacing the best so far only on a strictly larger score. */
  function ArgMaxIndex<K>(ks: seq<K>, score: map<K, real>): (i: nat)
    requires ks != [] && forall k :: k in ks ==> k in score
    ensures i < |ks|
    ensures forall j :: 0 <= j < |ks| ==> score[ks[j]] <= score[ks[i]]
    ensures forall j :: 0 <= j < i ==> score[ks[j]] < score[ks[i]]
    decreases |ks|
  {
    if |ks| == 1 then 0
    else
      var i := ArgMaxIndex(ks[..|ks| - 1], score);
      if score[ks[|ks| - 1]] > score[ks[i]] then |ks| - 1 else i
  }

  /** `max(d.items(), key=operator.itemgetter(1))[0]`: a key of `d`, and None
      where `max` fails on an empty dictionary. */
  function MaxItem<K(!new)>(d: Dict<K, real>): (r: Option<K>)
    requires WellFormed(d)
    ensures r.Some? <==> d.keys != []
    ensures r.Some? ==> r.value in d.items
  {
    if d.keys == [] then None else Some(d.keys[ArgMaxIndex(d.keys, d.items)])
  }

  /** The key `max` picks holds the largest value, and every key inserted
      before it holds a strictly smaller one. */
  lemma MaxItemIsFirstMaximum<K(!new)>(d: Dict<K, real>)
    requires WellFormed(d) && d.keys != []
    ensures forall k :: k in d.items ==> d.items[k] <= d.items[MaxItem(d).value]
    ensures forall i, j :: 0 <= i < j < |d.keys| && d.keys[j] == MaxItem(d).value ==>
              d.items[d.keys[i]] < d.items[MaxItem(d).value]
  {
    var i := ArgMaxIndex(d.keys, d.items);
    forall k | k in d.items
      ensures d.items[k] <= d.items[d.keys[i]]
    {
      var j :| 0 <= j < |d.keys| && d.keys[j] == k;
    }
  }

  /** `classify(description)`: a known category, and None on an empty store. */
  function Classify(m: Model, ln: Log, description: string): (r: Option<Category>)
    requires Inv(m)
    ensures r.Some? <==> m.categoryCounts.keys != []
    ensures r.Some? ==> r.value in m.categoryCounts.items && TotalExamples(m) > 0
  {
    assert m.categoryCounts.keys != [] ==> TotalExamples(m) > 0 by {
      if m.categoryCounts.keys != [] { TotalIsPositive(m); }
    }
    MaxItem(Scores(m, ln, Split(description)))
  }

  /** `classify` returns a category of largest score, and of all categories
      with that score the one inserted first. */
  lemma ClassifyIsArgMax(m: Model, ln: Log, description: string)
    requires Inv(m) && m.categoryCounts.keys != []
    ensures var r := Classify(m, ln, description);
      && TotalExamples(m) > 0
      && (forall c :: c in m.categoryCounts.items ==>
            Score(m, ln, Split(description), c) <= Score(m, ln, Split(description), r.value))
      && forall i, j :: 0 <= i < j < |m.categoryCounts.keys| && m.categoryCounts.keys[j] == r.value ==>
           Score(m, ln, Split(description), m.categoryCounts.keys[i]) < Score(m, ln, Split(description), r.value)
  {
    TotalIsPositive(m);
    MaxItemIsFirstMaximum(Scores(m, ln, Split(description)));
  }

  /** Every smoothed likelihood is at most one: `1 <= numerator <= denominator`. */
  lemma NumeratorAtMostDenominator(m: Model, c: Category, w: Token)
    requires Inv(m) && w in m.vocabulary.items
    ensures 1 <= Numerator(m, c, w) <= Denominator(m, c)
  {
    var d := CategoryDict(m.bagOfWords, c);
    assert WellFormed(d);
    assert w in m.vocabulary.keys;
    if w in d.items {
      ValueAtMostSum(d.keys, d.items, w);
    }
  }

  /** With an increasing logarithm, each per-token term is at most zero. */
  lemma TermNonPositive(m: Model, ln: Log, c: Category, w: Token)
    requires Inv(m) && Monotone(ln) && w in m.vocabulary.items
    ensures Term(m, ln, c, w) <= 0.0
  {
    NumeratorAtMostDenominator(m, c, w);
  }

  /** With an increasing logarithm, no score exceeds its prior. */
  lemma {:induction false} EvidenceNonPositive(m: Model, ln: Log, tokens: seq<Token>, c: Category)
    requires Inv(m) && Monotone(ln)
    ensures Evidence(m, ln, tokens, c) <= 0.0
    decreases |tokens|
  {
    if tokens != [] {
      var w := tokens[|tokens| - 1];
      EvidenceNonPositive(m, ln, tokens[..|tokens| - 1], c);
      if w in m.vocabulary.items {
        TermNonPositive(m, ln, c, w);
      }
    }
  }

  /** The evidence of a description is the sum over its parts: every
      occurrence of a token contributes on its own. */
  lemma {:induction false} EvidenceAppend(m: Model, ln: Log, a: seq<Token>, b: seq<Token>, c: Category)
    requires WellFormed(m.vocabulary)
    ensures Evidence(m, ln, a + b, c) == Evidence(m, ln, a, c) + Evidence(m, ln, b, c)
    decreases |b|
  {
    if b == [] {
      assert a + b == a;
    } else {
      assert (a + b)[..|a + b| - 1] == a + b[..|b| - 1];
      EvidenceAppend(m, ln, a, b[..|b| - 1], c);
    }
  }

  /** A known token repeated `n` times adds its term `n` times. */
  lemma {:induction false} EvidenceOfRepeatedToken(m: Model, ln: Log, w: Token, n: nat, c: Category)
    requires WellFormed(m.vocabulary) && w in m.vocabulary.items
    ensures Evidence(m, ln, seq(n, _ => w), c) == n as real * Term(m, ln, c, w)
  {
    if n > 0 {
      assert seq(n, _ => w)[..n - 1] == seq(n - 1, _ => w);
      EvidenceOfRepeatedToken(m, ln, w, n - 1, c);
    }
  }

  /** Unknown tokens contribute nothing. */
  lemma {:induction false} EvidenceOfUnknownTokens(m: Model, ln: Log, tokens: seq<Token>, c: Category)
    requires WellFormed(m.vocabulary)
    requires forall i :: 0 <= i < |tokens| ==> tokens[i] !in m.vocabulary.items
    ensures Evidence(m, ln, tokens, c) == 0.0
    decreases |tokens|
  {
    if tokens != [] {
      EvidenceOfUnknownTokens(m, ln, tokens[..|tokens| - 1], c);
    }
  }

  /** Priors compare as the example counts do. */
  lemma PriorOrder(m: Model, c: Category, c': Category)
    requires TotalExamples(m) > 0
    ensures Prior(m, c) <= Prior(m, c') <==> Get(m.categoryCounts, c, 0) <= Get(m.categoryCounts, c', 0)
    ensures Prior(m, c) < Prior(m, c') <==> Get(m.categoryCounts, c, 0) < Get(m.categoryCounts, c', 0)
  {
    DivideOrder(Get(m.categoryCounts, c, 0) as real, Get(m.categoryCounts, c', 0) as real, TotalExamples(m) as real);
  }

  /** Dividing by the same positive number keeps the order. */
  lemma DivideOrder(a: real, b: real, n: real)
    requires n > 0.0
    ensures a / n <= b / n <==> a <= b
    ensures a / n < b / n <==> a < b
  {
    var x, y := a / n, b / n;
    assert x * n == a && y * n == b;
    assert (y - x) * n == b - a;
    if x <= y {
      assert (y - x) * n >= 0.0;
    }
    if x < y {
      assert (y - x) * n > 0.0;
    }
  }

  /** The prior of a category lies between zero and one. */
  lemma PriorBounds(m: Model, c: Category)
    requires Inv(m) && TotalExamples(m) > 0
    ensures 0.0 <= Prior(m, c) <= 1.0
  {
    if c in m.categoryCounts.items {
      ValueAtMostSum(m.categoryCounts.keys, m.categoryCounts.items, c);
    }
    ShareBounds(Get(m.categoryCounts, c, 0) as real, TotalExamples(m) as real);
  }

  /** A part of a positive whole is a share between zero and one. */
  lemma ShareBounds(a: real, n: real)
    requires 0.0 <= a <= n && n > 0.0
    ensures 0.0 <= a / n <= 1.0
  {
    DivideOrder(0.0, a, n);
    DivideOrder(a, n, n);
    assert n / n == 1.0;
  }

  /** When no token of the description is known, `classify` returns the
      category with the most examples, the earliest inserted among equals. */
  lemma ClassifyByPrior(m: Model, ln: Log, description: string)
    requires Inv(m) && m.categoryCounts.keys != []
    requires forall i :: 0 <= i < |Split(description)| ==> Split(description)[i] !in m.vocabulary.items
    ensures var r := Classify(m, ln, description);
      && r.Some? && r.value in m.categoryCounts.items
      && (forall c :: c in m.categoryCounts.items ==> m.categoryCounts.items[c] <= m.categoryCounts.items[r.value])
      && forall i, j :: 0 <= i < j < |m.categoryCounts.keys| && m.categoryCounts.keys[j] == r.value ==>
           m.categoryCounts.items[m.categoryCounts.keys[i]] < m.categoryCounts.items[r.value]
  {
    var r := Classify(m, ln, description);
    var tokens := Split(description);
    ClassifyIsArgMax(m, ln, description);
    forall c
      ensures Score(m, ln, tokens, c) == Prior(m, c)
    {
      EvidenceOfUnknownTokens(m, ln, tokens, c);
    }
    forall c | c in m.categoryCounts.items
      ensures m.categoryCounts.items[c] <= m.categoryCounts.items[r.value]
    {
      PriorOrder(m, c, r.value);
    }
    forall i, j | 0 <= i < j < |m.categoryCounts.keys| && m.categoryCounts.keys[j] == r.value
      ensures m.categoryCounts.items[m.categoryCounts.keys[i]] < m.categoryCounts.items[r.value]
    {
      PriorOrder(m, m.categoryCounts.keys[i], r.value);
    }
  }
}
