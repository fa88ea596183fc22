# SpendingNB in Dafny

A model of the core of `SpendingNB`, a multinomial Naive Bayes classifier that
labels credit-card transaction descriptions with spending categories. The
classifier keeps a frequency store of three dictionaries:

- `bag_of_words_unigram` maps each category to its token counts.
- `vocabulary` maps each token to its total count.
- `category_counts` maps each category to its number of examples.

`addExample` folds one labelled description into the store. `classify` scores
every category and returns the arg-max. The row loop of `test` first folds each
labelled row into the store, then classifies the row, and tallies right and
wrong predictions into an accuracy.

The files:

- `dicts.dfy` (module `Dicts`): Python's insertion-ordered dictionary. It is a
  key list in insertion order plus a map, with `get`, item assignment,
  well-formedness and `sum(d.values())`. Tie-breaking in `classify` depends on
  the key order.
- `tokenizer.dfy` (module `Tokenizer`): `str.split()` with no arguments.
- `store.dfy` (module `FrequencyStore`): the store as a value (`Model`). It
  defines what `addExample` does to the store (`AddExample`) and the consistency
  invariant `Inv`, which every store built from the empty one satisfies.
- `scoring.dfy` (module `Scoring`): the scoring rule of `classify`, the
  dictionaries it builds (priors, numerators, denominators), the arg-max with
  its tie-break, and the properties of the scores.
- `evaluation.dfy` (module `Evaluation`): the row loop of `test` as a function
  of the rows, and the accuracy.
- `spending.dfy` (module `Spending`): the class `SpendingNB`. Its three
  dictionary fields are updated in place by `AddExample` and `Test`. Each method
  is proved against the value-level functions above.

The model keeps these behaviours of the code:

- The score of a category starts at its raw prior `count / total`, not at the
  log of the prior. Only the per-token factors are logarithms. The model keeps
  this.
- `math.log` is the parameter `ln` of type `PosReal -> real`. Each call
  therefore proves that its argument is positive, so `classify` never hits a
  math domain error. The lemmas that need `ln` to be increasing say so in their
  `requires`.
- Scores are exact reals.
- Python's `max` raises on an empty dictionary; the model's `Classify` returns
  `None` there. The division in the accuracy raises on zero rows; `Accuracy`
  returns `None` there.

## Model

| member | source | states |
|---|---|---|
| Dicts.Get | spending.py:36 | `d.get(k, default)`: the stored value of a present key, the default otherwise |
| Dicts.Put | spending.py:36 | `d[k] = v`: the key keeps its place if present and goes last if new; `PutWellFormed` proves it keeps every key listed once |
| Dicts.Sum | spending.py:76 | `sum(d.values())`, summed in key order; `SumPut` proves that storing `v` under `k` changes it by `v` minus the old value |
| Tokenizer.Split | spending.py:29 | `description.split()`: every token is non-empty and free of whitespace, and there are no tokens exactly when the text is all whitespace (the empty text included) |
| Tokenizer.SplitJoin | spending.py:29 | splitting tokens joined by single spaces gives back exactly those tokens |
| Tokenizer.SplitKeepsNonSpace | spending.py:84 | the tokens, put one after another, are exactly the non-whitespace characters of the text, in order |
| Tokenizer.SplitSkipsSpace | spending.py:29 | leading whitespace of any length yields no token |
| Tokenizer.SplitToken | spending.py:29 | a whitespace-free word followed by whitespace or the end of the text is cut off as one token |
| Tokenizer.SplitInterleave | spending.py:29 | for any whitespace separators, each between two tokens non-empty and those at the ends possibly empty, splitting the tokens interleaved with them gives back exactly the tokens: the text is cut at every whitespace run, whatever its length |
| Tokenizer.Gaps | spending.py:29 | the whitespace runs of a text: one more than there are tokens, all whitespace, non-empty between tokens, and non-empty at the front when the text starts with whitespace |
| Tokenizer.InterleaveGaps | spending.py:29 | every text is its tokens interleaved with its whitespace runs, so with `SplitInterleave` the tokens of `split()` are the only token list the text decomposes into |
| Tokenizer.WordLength | spending.py:29 | the length of a word is the longest whitespace-free prefix: it stops at the first whitespace character or at the end |
| FrequencyStore.Empty | spending.py:19-21 | the three empty dictionaries of a new classifier; `EmptyInv` proves them consistent |
| FrequencyStore.Increment | spending.py:36-40 | `d[k] = d.get(k, 0) + 1`, as used for token counts and for category counts; `IncrementSum` proves it raises the sum by one |
| FrequencyStore.AddTokens | spending.py:35-37 | the token loop of `addExample` on one dictionary; `AddTokensCounts` and `AddTokensWellFormed` state what it does |
| FrequencyStore.AddExample | spending.py:28-40 | the store after `addExample`; `AddExampleCountsTokens`, `AddExampleCountsOneExample`, `AddExampleTotal` and `AddExamplePreservesInv` state what it does |
| FrequencyStore.AddTokensCounts | spending.py:35-37 | after the token loop, each token's count has grown by its number of occurrences (a multiset count), and the keys are the old keys plus the tokens |
| FrequencyStore.AddTokensWellFormed | spending.py:35-37 | the token loop keeps a dictionary free of duplicate keys and its counts positive, and old keys keep their order ahead of new ones |
| FrequencyStore.AddExampleCountsOneExample | spending.py:40 | the example count of the category goes up by one (a new category is appended at one), and every other category's count and membership are unchanged |
| FrequencyStore.AddExampleCountsTokens | spending.py:29-39 | the category gets a token dictionary even for a description with no tokens; its counts and the vocabulary counts grow by each token's multiplicity; other categories' dictionaries are untouched |
| FrequencyStore.IncrementSum | spending.py:40 | incrementing one count raises the sum of the counts by one |
| FrequencyStore.AddExampleTotal | spending.py:40 | the total number of examples grows by exactly one per `addExample` |
| FrequencyStore.EmptyInv | spending.py:19-21 | the three empty dictionaries of a new classifier are consistent |
| FrequencyStore.Inv | spending.py:19-40 | the consistency of the three dictionaries: the same categories in the same order in both category dictionaries, every count at least one, no key twice, and each vocabulary count the sum of that token's category counts |
| FrequencyStore.ColumnPut | spending.py:39 | replacing one category's dictionary changes that token's column in that category alone |
| FrequencyStore.AddTokensKeepsTotals | spending.py:35-39 | adding the same tokens under one category and to the vocabulary keeps every vocabulary count equal to the sum of its category counts |
| FrequencyStore.AddTokensKeepsShape | spending.py:36-40 | no duplicate keys, the same categories in the same order in `bag_of_words_unigram` and `category_counts`, and positive counts |
| FrequencyStore.AddTokensKeepsInner | spending.py:30-39 | every category's token dictionary stays free of duplicate keys and its counts positive |
| FrequencyStore.AddTokensPreservesInv | spending.py:35-40 | the token loop plus the two assignments keep a consistent store consistent |
| FrequencyStore.AddExamplePreservesInv | spending.py:28-40 | `addExample` keeps a consistent store consistent |
| FrequencyStore.AddAll | spending.py:99-101 | a sequence of `addExample` calls, folded in order; `AddAllPreservesInv` and `CountIsNumberOfExamples` state what it does |
| FrequencyStore.AddAllPreservesInv | spending.py:28-40 | every store built from a consistent one by `addExample` calls is consistent: the vocabulary count of a token is the sum over categories, all counts are at least one, and both category dictionaries have the same keys in the same order |
| FrequencyStore.CountIsNumberOfExamples | spending.py:40 | from the empty store, a category's example count is the number of `addExample` calls made with it |
| Scoring.TotalIsPositive | spending.py:76 | a consistent store with a category holds at least one example, so the prior division is defined |
| Scoring.VocabularySize | spending.py:75 | `len(list(vocabulary.keys()))`, the number of distinct known tokens |
| Scoring.WordCount | spending.py:78 | `sum(cat_dict.values())` for one category |
| Scoring.WordCounts | spending.py:78 | `category_word_counts`, with the categories of `bag_of_words_unigram` as keys in their order |
| Scoring.Prior | spending.py:79 | `counts / total_category_count` for one category; `PriorBounds` and `PriorOrder` state its properties |
| Scoring.Priors | spending.py:79 | `category_log_probabilities`, with the categories of `category_counts` as keys in their order; `ScoresOfNoTokens` proves it is the score dictionary before any token |
| Scoring.Numerator | spending.py:86 | `cat_dict.get(word, 0) + 1` for one category; `NumeratorAtMostDenominator` bounds it |
| Scoring.Numerators | spending.py:86 | `category_numerators` for one token |
| Scoring.Denominator | spending.py:81 | `wc + vocabulary_size` for one category |
| Scoring.Denominators | spending.py:81 | `category_denominators`, built from `category_word_counts` |
| Scoring.Term | spending.py:89-90 | what one occurrence of a known token adds to a category's score; `TermNonPositive` states its sign |
| Scoring.Evidence | spending.py:84-90 | the sum of the terms of the known tokens of a description, one per occurrence; `EvidenceAppend`, `EvidenceOfRepeatedToken`, `EvidenceOfUnknownTokens` and `EvidenceNonPositive` state its properties |
| Scoring.Score | spending.py:83-90 | a category's final entry in `category_prob_results`: its prior plus its evidence |
| Scoring.Scores | spending.py:83-90 | `category_prob_results` after every token; `ScoresOfNoTokens`, `ScoresSkipUnknown` and `ScoresAddKnown` prove that the loop of lines 84-90 builds it |
| Scoring.RatiosOfKnownToken | spending.py:75-86 | `category_numerators` and `category_denominators` have exactly the categories as keys, their entries equal `bag[c].get(w,0)+1` and `sum(bag[c].values()) + len(vocabulary)`, and both are at least one, so `math.log` is defined on them |
| Scoring.ScoresOfNoTokens | spending.py:79-83 | before any token, the result dictionary is a copy of the priors |
| Scoring.ScoresSkipUnknown | spending.py:85 | a token not in the vocabulary leaves every score unchanged |
| Scoring.ScoresAddKnown | spending.py:85-90 | a known token adds `log(numerator) - log(denominator)` to the score of every category |
| Scoring.ArgMaxIndex | spending.py:92 | a left-to-right scan that replaces the best only on a strictly larger score lands on a largest score, and every earlier position is strictly smaller |
| Scoring.MaxItem | spending.py:92 | `max(d.items(), key=itemgetter(1))[0]` yields a key of the dictionary, and fails (None) exactly on an empty one |
| Scoring.MaxItemIsFirstMaximum | spending.py:92 | the chosen key holds the largest value, and every key inserted before it holds a strictly smaller one |
| Scoring.Classify | spending.py:74-92 | `classify` returns a category of the store and fails (None) exactly when the store has no category; when it returns, the example total is positive |
| Scoring.ClassifyIsArgMax | spending.py:74-92 | the returned category has the largest score, and every category inserted before it has a strictly smaller score |
| Scoring.NumeratorAtMostDenominator | spending.py:81-86 | for a known token, `1 <= numerator <= denominator` |
| Scoring.TermNonPositive | spending.py:89-90 | with an increasing logarithm, each per-token contribution is at most zero |
| Scoring.EvidenceNonPositive | spending.py:84-90 | with an increasing logarithm, no score exceeds its prior |
| Scoring.EvidenceAppend | spending.py:84-90 | the token contributions of a description add up over its parts |
| Scoring.EvidenceOfRepeatedToken | spending.py:84-90 | a known token repeated `n` times contributes its term `n` times: repetitions are not collapsed |
| Scoring.EvidenceOfUnknownTokens | spending.py:85 | tokens outside the vocabulary contribute nothing |
| Scoring.PriorOrder | spending.py:79 | priors compare exactly as example counts do, both for `<=` and `<` |
| Scoring.PriorBounds | spending.py:79 | every prior lies in [0, 1] |
| Scoring.ClassifyByPrior | spending.py:79-92 | if no token of the description is known, `classify` returns a category with the most examples, and the earliest inserted one among equals |
| Evaluation.ClassifyAfterAddExample | spending.py:101-103 | once the row is folded in, the store is consistent and non-empty, so `classify` on the row always returns a category |
| Evaluation.Row | spending.py:100-109 | one row keeps the store consistent, adds exactly one to `correct + wrong`, and grows the store by one example |
| Evaluation.Evaluate | spending.py:94-110 | after the loop the store is consistent and `correct + wrong` is the number of rows |
| Evaluation.EvaluateAddsAll | spending.py:99-101 | each row is folded into the store before it is classified: the final store is the start store with all rows added in order, grown by one example per row |
| Evaluation.LastPredicted | spending.py:101-106 | whether a row is predicted right: its description is classified against the store that already holds that row and every earlier one, and the prediction equals its label |
| Evaluation.Hits | spending.py:99-109 | the number of rows predicted right, counted row by row; at most the number of rows |
| Evaluation.EvaluateCountsHits | spending.py:94-110 | `correct` is exactly the number of rows whose prediction, made after that row was folded in, equals its label, and `wrong` is the number of the others |
| Evaluation.Accuracy | spending.py:115 | `float(correct) / (correct + wrong)` fails (None) exactly when there are no rows; otherwise it lies in [0, 1] and times the row count gives `correct` |
| Spending.SpendingNB.constructor | spending.py:19-21 | a new classifier has three empty dictionaries, and they are consistent |
| Spending.SpendingNB.AddExample | spending.py:28-40 | the fields after the call are `AddExample` of the fields before, and a consistent store stays consistent |
| Spending.SpendingNB.Classify | spending.py:74-92 | the method's scoring loops compute `Scoring.Classify` of the current store |
| Spending.SpendingNB.AddLogRatios | spending.py:88-90 | the inner loop adds `log(numerator) - log(denominator)` to the score of every category it visits and leaves every other score and the key order alone |
| Spending.SpendingNB.Test | spending.py:94-115 | the fields after the loop and the two counters are those of `Evaluate` on the rows, `correct` is `Hits` of the rows and `wrong` the rest, the store stays consistent, and the accuracy is `Accuracy(correct, wrong)` |

## Left out

- Reading CSV files in `train` and `test` is left out; the rows are the sequence `examples` of `Example(description, category)`. The date, cost and star columns play no part in the core.
- `train` is left out: its CSV loop, and its pickle cache. With the cache flag on and fewer than three cache files, the code keeps the partially loaded state and does not retrain, because the `elif` at spending.py:66 is never reached. A store loaded from a cache is outside the model. This is why `Classify` and `Test` require the invariant, which holds for every store built by the constructor and `AddExample`.
- Left out: the constructor's `file_path`, `USE_CACHED_CLASSIFIER`, file names and pickle paths (spending.py:15-17, 24-26).
- Moving the test file (`shutil.move`), `print` output and `main` with its option parsing are I/O and are left out.
- Floating point is left out. `math.log` is the parameter `ln`, `float(...)` is exact, and scores are reals, so rounding and ties that exist only through rounding are not modelled.
- Whitespace is the ASCII part of Python's: space, 9 to 13 and 28 to 31. The Unicode whitespace characters that `str.split()` also cuts at are not modelled.
- Spending.SpendingNB.AddExample: in Python, an existing category's token dictionary is the stored dictionary itself and is updated in place by the loop. The method updates a local copy and stores it at the end. Nothing can fail in between, so the resulting state is the same, but the aliasing is not modelled.
- Spending.SpendingNB.Classify: `copy.deepcopy` of the priors becomes a value copy. Python raises `ValueError` from `max` on an empty store; the method returns `None` instead.
- Spending.SpendingNB.Test: the `ZeroDivisionError` at spending.py:115 on zero rows becomes `None`, and the method also returns the two counters.
