/** The frequency store of the classifier: per-category token counts, the
    global vocabulary with total counts, and per-category example counts, and
    the operation that folds one labelled example into all three. */
module FrequencyStore {
  import opened Dicts
  import opened Tokenizer

  type Token = string
  type Category = string
  type Counts = Dict<Token, nat>

  /** The three dictionaries of a classifier: `bag_of_words_unigram`
      (category to token to count), `vocabulary` (token to total count) and
      `category_counts` (category to number of examples). */
  datatype Model = Model(
    bagOfWords: Dict<Category, Counts>,
    vocabulary: Counts,
    categoryCounts: Dict<Category, nat>)

  /** A labelled transaction: its description and its true category. */
  datatype Example = Example(description: string, category: Category)

  /** The store of a freshly constructed classifier. */
  function Empty(): Model {
    Model(EmptyDict(), EmptyDict(), EmptyDict())
  }

  /** The token dictionary of a category, or a new empty one when the category is unknown. */
  function CategoryDict(bag: Dict<Category, Counts>, c: Category): Counts {
    Get(bag, c, EmptyDict())
  }

  /** `d[k] = d.get(k, 0) + 1`, for token and for category counts alike. */
  function Increment(d: Dict<string, nat>, k: string): Dict<string, nat> {
    Put(d, k, Get(d, k, 0) + 1)
  }

  /** `d[tok] = d.get(tok, 0) + 1` for each token in turn. */
  function AddTokens(d: Counts, tokens: seq<Token>): Counts
    decreases |tokens|
  {
    if tokens == [] then d
    else Increment(AddTokens(d, tokens[..|tokens| - 1]), tokens[|tokens| - 1])
  }

  /** One more turn of the token loop. */
  lemma AddTokensStep(d: Counts, tokens: seq<Token>, i: nat)
    requires i < |tokens|
    ensures AddTokens(d, tokens[..i + 1]) == Increment(AddTokens(d, tokens[..i]), tokens[i])
  {
    assert tokens[..i + 1][..i] == tokens[..i];
  }

  /** Each count grows by the number of occurrences of its token, and the keys
      are the old keys and the tokens. */
  lemma {:induction false} AddTokensCounts(d: Counts, tokens: seq<Token>)
    ensures forall t :: Get(AddTokens(d, tokens), t, 0) == Get(d, t, 0) + multiset(tokens)[t]
    ensures forall t :: t in AddTokens(d, tokens).items <==> t in d.items || t in tokens
    decreases |tokens|
  {
    if tokens != [] {
      var init := tokens[..|tokens| - 1];
      assert tokens == init + [tokens[|tokens| - 1]];
      AddTokensCounts(d, init);
    }
  }

  /** The old keys keep their order, new tokens go after them, and every count stays positive. */
  lemma {:induction false} AddTokensWellFormed(d: Counts, tokens: seq<Token>)
    requires WellFormed(d) && Positive(d)
    ensures WellFormed(AddTokens(d, tokens)) && Positive(AddTokens(d, tokens))
    ensures |d.keys| <= |AddTokens(d, tokens).keys| && AddTokens(d, tokens).keys[..|d.keys|] == d.keys
    decreases |tokens|
  {
    if tokens != [] {
      var prev := AddTokens(d, tokens[..|tokens| - 1]);
      var t := tokens[|tokens| - 1];
      AddTokensWellFormed(d, tokens[..|tokens| - 1]);
      PutWellFormed(prev, t, Get(prev, t, 0) + 1);
    }
  }

  /** The count of `t` in every category, in category order. */
  function Column(bag: Dict<Category, Counts>, t: Token): Dict<Category, nat> {
    Dict(bag.keys, map c | c in bag.items :: Get(bag.items[c], t, 0))
  }

  /** The sum over categories `c` of `bag[c].get(t, 0)`. */
  function TokenTotal(bag: Dict<Category, Counts>, t: Token): nat {
    Sum(Column(bag, t))
  }

  /** `sum(category_counts.values())`: the number of examples seen. */
  function TotalExamples(m: Model): nat {
    Sum(m.categoryCounts)
  }

  /** What `addExample(description, category)` leaves in the store. */
  function AddExample(m: Model, description: string, category: Category): Model {
    var tokens := Split(description);
    var categoryDict := AddTokens(CategoryDict(m.bagOfWords, category), tokens);
    Model(Put(m.bagOfWords, category, categoryDict),
          AddTokens(m.vocabulary, tokens),
          Increment(m.categoryCounts, category))
  }

  /** `addExample(d, c)` counts one more example for `c`, creating `c` at one,
      and leaves every other category's count as it was. */
  lemma AddExampleCountsOneExample(m: Model, description: string, category: Category)
    ensures var r := AddExample(m, description, category);
      && Get(r.categoryCounts, category, 0) == Get(m.categoryCounts, category, 0) + 1
      && r.categoryCounts.keys == (if category in m.categoryCounts.items then m.categoryCounts.keys
                                   else m.categoryCounts.keys + [category])
      && forall c :: c != category ==>
           Get(r.categoryCounts, c, 0) == Get(m.categoryCounts, c, 0)
           && (c in r.categoryCounts.items <==> c in m.categoryCounts.items)
  {
  }

  /** Counting one more occurrence of a key raises the sum of the counts by one. */
  lemma IncrementSum(d: Dict<string, nat>, k: string)
    requires WellFormed(d)
    ensures Sum(Increment(d, k)) == Sum(d) + 1
  {
    SumPut(d, k, Get(d, k, 0) + 1);
  }

  /** The number of examples in the store grows by exactly one. */
  lemma AddExampleTotal(m: Model, description: string, category: Category)
    requires WellFormed(m.categoryCounts)
    ensures TotalExamples(AddExample(m, description, category)) == TotalExamples(m) + 1
  {
    IncrementSum(m.categoryCounts, category);
  }

  /** `addExample(d, c)` raises the count of each token of `d` under `c` and in
      the vocabulary by its number of occurrences in `d.split()`, gives `c` a
      token dictionary even when `d` has no tokens, and leaves the token
      dictionaries of the other categories alone. */
  lemma AddExampleCountsTokens(m: Model, description: string, category: Category)
    ensures var r := AddExample(m, description, category);
      && category in r.bagOfWords.items
      && (forall t :: Get(CategoryDict(r.bagOfWords, category), t, 0)
                   == Get(CategoryDict(m.bagOfWords, category), t, 0) + multiset(Split(description))[t])
      && (forall t :: Get(r.vocabulary, t, 0) == Get(m.vocabulary, t, 0) + multiset(Split(description))[t])
      && forall c :: c != category ==> CategoryDict(r.bagOfWords, c) == CategoryDict(m.bagOfWords, c)
  {
    AddExampleParts(m, description, category);
    AddTokensCounts(CategoryDict(m.bagOfWords, category), Split(description));
    AddTokensCounts(m.vocabulary, Split(description));
  }

  /** The three dictionaries agree with one another: the same categories in
      the same order, every stored count at least one, and the vocabulary
      count of each token is the sum of its counts over the categories. */
  ghost predicate Inv(m: Model) {
    && WellFormed(m.bagOfWords) && WellFormed(m.vocabulary) && WellFormed(m.categoryCounts)
    && m.bagOfWords.keys == m.categoryCounts.keys
    && Positive(m.categoryCounts) && Positive(m.vocabulary)
    && (forall c :: c in m.bagOfWords.items ==>
          WellFormed(m.bagOfWords.items[c]) && Positive(m.bagOfWords.items[c]))
    && (forall t :: Get(m.vocabulary, t, 0) == TokenTotal(m.bagOfWords, t))
  }

  lemma EmptyInv()
    ensures Inv(Empty())
  {
  }

  lemma ColumnPut(bag: Dict<Category, Counts>, c: Category, d: Counts, t: Token)
    ensures Column(Put(bag, c, d), t) == Put(Column(bag, t), c, Get(d, t, 0))
  {
    var l, r := Column(Put(bag, c, d), t), Put(Column(bag, t), c, Get(d, t, 0));
    assert l.items == r.items;
  }

  /** `AddExample` spelled out, so that proofs may work on its parts. */
  lemma AddExampleParts(m: Model, description: string, category: Category)
    ensures AddExample(m, description, category).bagOfWords
         == Put(m.bagOfWords, category, AddTokens(CategoryDict(m.bagOfWords, category), Split(description)))
    ensures AddExample(m, description, category).vocabulary == AddTokens(m.vocabulary, Split(description))
    ensures AddExample(m, description, category).categoryCounts
         == Increment(m.categoryCounts, category)
  {
  }

  /** `AddExample` rebuilt from its token loops' results. */
  lemma AddExampleFrom(m: Model, description: string, category: Category, categoryDict: Counts, vocabulary: Counts)
    requires categoryDict == AddTokens(CategoryDict(m.bagOfWords, category), Split(description))
    requires vocabulary == AddTokens(m.vocabulary, Split(description))
    ensures AddExample(m, description, category)
         == Model(Put(m.bagOfWords, category, categoryDict), vocabulary,
                  Increment(m.categoryCounts, category))
  {
    AddExampleParts(m, description, category);
  }

  /** Adding the same tokens to one category and to the vocabulary keeps each
      vocabulary count equal to the sum of that token's category counts. */
  lemma AddTokensKeepsTotals(m: Model, tokens: seq<Token>, category: Category)
    requires Inv(m)
    ensures var inner' := AddTokens(CategoryDict(m.bagOfWords, category), tokens);
      forall t :: Get(AddTokens(m.vocabulary, tokens), t, 0)
               == TokenTotal(Put(m.bagOfWords, category, inner'), t)
  {
    var inner' := AddTokens(CategoryDict(m.bagOfWords, category), tokens);
    AddTokensCounts(CategoryDict(m.bagOfWords, category), tokens);
    AddTokensCounts(m.vocabulary, tokens);
    forall t
      ensures Get(AddTokens(m.vocabulary, tokens), t, 0) == TokenTotal(Put(m.bagOfWords, category, inner'), t)
    {
      ColumnPut(m.bagOfWords, category, inner', t);
      SumPut(Column(m.bagOfWords, t), category, Get(inner', t, 0));
    }
  }

  /** The dictionaries keep their shape: no key twice, the same categories in
      both category dictionaries, and positive counts. */
  lemma AddTokensKeepsShape(m: Model, tokens: seq<Token>, category: Category)
    requires Inv(m)
    ensures var bag' := Put(m.bagOfWords, category, AddTokens(CategoryDict(m.bagOfWords, category), tokens));
      var counts' := Increment(m.categoryCounts, category);
      && WellFormed(bag') && WellFormed(AddTokens(m.vocabulary, tokens)) && WellFormed(counts')
      && bag'.keys == counts'.keys
      && Positive(counts') && Positive(AddTokens(m.vocabulary, tokens))
  {
    AddTokensWellFormed(m.vocabulary, tokens);
    PutWellFormed(m.bagOfWords, category, AddTokens(CategoryDict(m.bagOfWords, category), tokens));
    PutWellFormed(m.categoryCounts, category, Get(m.categoryCounts, category, 0) + 1);
    assert category in m.bagOfWords.items <==> category in m.categoryCounts.items;
  }

  /** Every token dictionary of a category stays well formed and positive. */
  lemma AddTokensKeepsInner(m: Model, tokens: seq<Token>, category: Category)
    requires Inv(m)
    ensures var bag' := Put(m.bagOfWords, category, AddTokens(CategoryDict(m.bagOfWords, category), tokens));
      forall c :: c in bag'.items ==> WellFormed(bag'.items[c]) && Positive(bag'.items[c])
  {
    var inner := CategoryDict(m.bagOfWords, category);
    assert WellFormed(inner) && Positive(inner);
    AddTokensWellFormed(inner, tokens);
  }

  /** Adding the same tokens to one category and to the vocabulary, and one
      example to that category, keeps a consistent store consistent. */
  lemma AddTokensPreservesInv(m: Model, tokens: seq<Token>, category: Category)
    requires Inv(m)
    ensures Inv(Model(Put(m.bagOfWords, category, AddTokens(CategoryDict(m.bagOfWords, category), tokens)),
                      AddTokens(m.vocabulary, tokens),
                      Increment(m.categoryCounts, category)))
  {
    AddTokensKeepsShape(m, tokens, category);
    AddTokensKeepsInner(m, tokens, category);
    AddTokensKeepsTotals(m, tokens, category);
  }

  /** Folding an example into a consistent store keeps it consistent. */
  lemma AddExamplePreservesInv(m: Model, description: string, category: Category)
    requires Inv(m)
    ensures Inv(AddExample(m, description, category))
  {
    AddExampleParts(m, description, category);
    AddTokensPreservesInv(m, Split(description), category);
  }

  /** Folds the examples into the store in order. */
  function AddAll(m: Model, examples: seq<Example>): (r: Model)
    decreases |examples|
  {
    if examples == [] then m
    else
      var e := examples[|examples| - 1];
      AddExample(AddAll(m, examples[..|examples| - 1]), e.description, e.category)
  }

  /** The number of examples labelled `c`. */
  function Occurrences(examples: seq<Example>, c: Category): nat {
    if examples == [] then 0
    else Occurrences(examples[..|examples| - 1], c) + (if examples[|examples| - 1].category == c then 1 else 0)
  }

  /** Every store built from the empty one by `addExample` calls is consistent. */
  lemma {:induction false} AddAllPreservesInv(m: Model, examples: seq<Example>)
    requires Inv(m)
    ensures Inv(AddAll(m, examples))
    decreases |examples|
  {
    if examples != [] {
      var e := examples[|examples| - 1];
      AddAllPreservesInv(m, examples[..|examples| - 1]);
      AddExamplePreservesInv(AddAll(m, examples[..|examples| - 1]), e.description, e.category);
    }
  }

  /** Starting from the empty store, the example count of a category is the
      number of `addExample` calls made with it. */
  lemma {:induction false} CountIsNumberOfExamples(examples: seq<Example>, c: Category)
    ensures Get(AddAll(Empty(), examples).categoryCounts, c, 0) == Occurrences(examples, c)
    decreases |examples|
  {
    if examples != [] {
      CountIsNumberOfExamples(examples[..|examples| - 1], c);
    }
  }
}
