/** The classifier object: it owns the three dictionaries of the frequency
    store and updates them in place. */
module Spending {
  import opened Dicts
  import opened Tokenizer
  import opened FrequencyStore
  import opened Scoring
  import opened Evaluation

  class SpendingNB {
    var bagOfWords: Dict<Category, Counts>
    var vocabulary: Counts
    var categoryCounts: Dict<Category, nat>

    /** The store as a value. */
    function Snapshot(): Model
      reads this
    {
      Model(bagOfWords, vocabulary, categoryCounts)
    }

    ghost predicate Valid()
      reads this
    {
      Inv(Snapshot())
    }

    /** A new classifier starts with three empty dictionaries. */
    constructor ()
      ensures Valid() && Snapshot() == Empty()
    {
      bagOfWords := EmptyDict();
      vocabulary := EmptyDict();
      categoryCounts := EmptyDict();
    }

    /** `addExample(description, category)` */
    method AddExample(description: string, category: Category)
      modifies this
      ensures Snapshot() == FrequencyStore.AddExample(old(Snapshot()), description, category)
      ensures old(Valid()) ==> Valid()
    {
      var tokens := Split(description);
      var categoryDict: Counts := EmptyDict();
      if category in bagOfWords.items {
        categoryDict := bagOfWords.items[category];
      }
      ghost var start := Snapshot();
      ghost var inner := categoryDict;
      for i := 0 to |tokens|
        invariant categoryDict == AddTokens(inner, tokens[..i])
        invariant vocabulary == AddTokens(start.vocabulary, tokens[..i])
        invariant bagOfWords == start.bagOfWords && categoryCounts == start.categoryCounts
      {
        var tok := tokens[i];
        AddTokensStep(inner, tokens, i);
        AddTokensStep(start.vocabulary, tokens, i);
        categoryDict := Increment(categoryDict, tok);
        vocabulary := Increment(vocabulary, tok);
      }
      assert tokens[..|tokens|] == tokens;
      bagOfWords := Put(bagOfWords, category, categoryDict);
      categoryCounts := Increment(categoryCounts, category);
      AddExampleFrom(start, description, category, categoryDict, vocabulary);
      if old(Valid()) {
        AddExamplePreservesInv(start, description, category);
      }
    }

    /** `classify(purchase_desc)`, with `ln` in place of `math.log`. */
    method Classify(description: string, ln: Log) returns (r: Option<Category>)
      requires Valid()
      ensures r == Scoring.Classify(Snapshot(), ln, description)
    {
      var m := Snapshot();
      var categoryLogProbabilities := Priors(m);
      var categoryDenominators := Denominators(m);
      var results := categoryLogProbabilities;
      var tokens := Split(description);
      ScoresOfNoTokens(m, ln);
      assert tokens[..0] == [];
      for i := 0 to |tokens|
        invariant results == Scores(m, ln, tokens[..i])
      {
        var word := tokens[i];
        if word in vocabulary.keys {
          var categoryNumerators := Numerators(m, word);
          RatiosOfKnownToken(m, word);
          ghost var before := results;
          results := AddLogRatios(results, categoryLogProbabilities.keys, categoryNumerators, categoryDenominators, ln);
          ScoresAddKnown(m, ln, tokens, i, before, results);
        } else {
          ScoresSkipUnknown(m, ln, tokens, i);
        }
      }
      assert tokens[..|tokens|] == tokens;
      r := MaxItem(results);
    }

    /** The inner loop of `classify`: for each category of `keys` in turn, add
        the log of its numerator to its score and subtract the log of its
        denominator; scores of other categories stay as they were. */
    static method AddLogRatios(results: Dict<Category, real>, keys: seq<Category>,
                               numerators: Dict<Category, nat>, denominators: Dict<Category, nat>, ln: Log)
      returns (r: Dict<Category, real>)
      requires Distinct(keys)
      requires forall c :: c in keys ==> c in results.items && c in numerators.items && c in denominators.items
      requires forall c :: c in keys ==> 1 <= numerators.items[c] && 1 <= denominators.items[c]
      ensures r.keys == results.keys
      ensures forall c :: c in r.items <==> c in results.items
      ensures forall c :: c in results.items ==>
        r.items[c] == if c in keys
          then results.items[c] + ln(numerators.items[c] as real) - ln(denominators.items[c] as real)
          else results.items[c]
    {
      r := results;
      for j := 0 to |keys|
        invariant r.keys == results.keys
        invariant forall c :: c in r.items <==> c in results.items
        invariant forall c :: c in results.items ==>
          r.items[c] == if c in keys[..j]
            then results.items[c] + ln(numerators.items[c] as real) - ln(denominators.items[c] as real)
            else results.items[c]
      {
        var category := keys[j];
        assert keys[..j + 1] == keys[..j] + [category];
        assert category !in keys[..j];
        r := Put(r, category, r.items[category] + ln(numerators.items[category] as real));
        r := Put(r, category, r.items[category] - ln(denominators.items[category] as real));
      }
      assert keys[..|keys|] == keys;
    }

    /** The row loop of `test` over `examples`, and the accuracy it reports. */
    method Test(examples: seq<Example>, ln: Log) returns (accuracy: Option<real>, correct: nat, wrong: nat)
      requires Valid()
      modifies this
      ensures Valid()
      ensures var t := Evaluate(old(Snapshot()), ln, examples);
        Snapshot() == t.model && correct == t.correct && wrong == t.wrong
      ensures correct == Hits(old(Snapshot()), ln, examples) && wrong == |examples| - correct
      ensures accuracy == Accuracy(correct, wrong)
    {
      correct, wrong := 0, 0;
      ghost var start := Snapshot();
      ghost var tally := Tally(start, 0, 0);
      assert examples[..0] == [];
      for i := 0 to |examples|
        invariant tally == Evaluate(start, ln, examples[..i])
        invariant Snapshot() == tally.model && correct == tally.correct && wrong == tally.wrong
      {
        var e := examples[i];
        EvaluateStep(start, ln, examples, i);
        AddExample(e.description, e.category);
        var predicted := Classify(e.description, ln);
        if predicted == Some(e.category) {
          correct := correct + 1;
        } else {
          wrong := wrong + 1;
        }
        tally := Tally(Snapshot(), correct, wrong);
      }
      assert examples[..|examples|] == examples;
      EvaluateCountsHits(start, ln, examples);
      accuracy := Accuracy(correct, wrong);
    }
  }
}
