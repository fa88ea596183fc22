/** The row loop of `test`: every labelled row is first folded into the store
    and then classified against the enriched store, and the predictions are
    tallied against the labels. */
module Evaluation {
  import opened FrequencyStore
  import opened Scoring

  /** The store after the rows, with the numbers of right and wrong predictions. */
  datatype Tally = Tally(model: Model, correct: nat, wrong: nat)

  /** Once an example is folded in, classifying its description always yields a category. */
  lemma ClassifyAfterAddExample(m: Model, ln: Log, description: string, category: Category)
    requires Inv(m)
    ensures Inv(AddExample(m, description, category))
    ensures Classify(AddExample(m, description, category), ln, description).Some?
  {
    AddExamplePreservesInv(m, description, category);
    AddExampleCountsOneExample(m, description, category);
  }

  /** One row of the loop: fold the example in, classify its description
      against the enriched store, and count the prediction as right or wrong. */
  function Row(t: Tally, ln: Log, e: Example): (t': Tally)
    requires Inv(t.model)
    ensures Inv(t'.model)
    ensures t'.correct + t'.wrong == t.correct + t.wrong + 1
    ensures TotalExamples(t'.model) == TotalExamples(t.model) + 1
  {
    ClassifyAfterAddExample(t.model, ln, e.description, e.category);
    AddExampleTotal(t.model, e.description, e.category);
    var next := AddExample(t.model, e.description, e.category);
    if Classify(next, ln, e.description) == Some(e.category) then Tally(next, t.correct + 1, t.wrong)
    else Tally(next, t.correct, t.wrong + 1)
  }

  /** The outcome of the row loop over `examples`, starting from the store `m`. */
  function Evaluate(m: Model, ln: Log, examples: seq<Example>): (t: Tally)
    requires Inv(m)
    ensures Inv(t.model)
    ensures t.correct + t.wrong == |examples|
    decreases |examples|
  {
    if examples == [] then Tally(m, 0, 0)
    else Row(Evaluate(m, ln, examples[..|examples| - 1]), ln, examples[|examples| - 1])
  }

  /** Each row is folded into the store before it is classified, so after the
      loop the store holds every row and has grown by one example per row. */
  lemma {:induction false} EvaluateAddsAll(m: Model, ln: Log, examples: seq<Example>)
    requires Inv(m)
    ensures Evaluate(m, ln, examples).model == AddAll(m, examples)
    ensures TotalExamples(Evaluate(m, ln, examples).model) == TotalExamples(m) + |examples|
    decreases |examples|
  {
    if examples != [] {
      EvaluateAddsAll(m, ln, examples[..|examples| - 1]);
    }
  }

  /** Whether the last of `rows` is predicted right: its description is
      classified against the store that already holds every row up to and
      including it, and the prediction equals its label. */
  predicate LastPredicted(m: Model, ln: Log, rows: seq<Example>)
    requires Inv(m) && rows != []
  {
    AddAllPreservesInv(m, rows);
    var last := rows[|rows| - 1];
    Classify(AddAll(m, rows), ln, last.description) == Some(last.category)
  }

  /** The number of rows predicted right, counted row by row. */
  function Hits(m: Model, ln: Log, rows: seq<Example>): (n: nat)
    requires Inv(m)
    ensures n <= |rows|
    decreases |rows|
  {
    if rows == [] then 0
    else Hits(m, ln, rows[..|rows| - 1]) + (if LastPredicted(m, ln, rows) then 1 else 0)
  }

  /** The loop counts a row as correct exactly when the prediction for it,
      made after the row was folded in, equals its label, and as wrong otherwise. */
  lemma {:induction false} EvaluateCountsHits(m: Model, ln: Log, rows: seq<Example>)
    requires Inv(m)
    ensures Evaluate(m, ln, rows).correct == Hits(m, ln, rows)
    ensures Evaluate(m, ln, rows).wrong == |rows| - Hits(m, ln, rows)
    decreases |rows|
  {
    if rows != [] {
      var init := rows[..|rows| - 1];
      EvaluateCountsHits(m, ln, init);
      EvaluateAddsAll(m, ln, init);
    }
  }

  lemma EvaluateStep(m: Model, ln: Log, examples: seq<Example>, i: nat)
    requires Inv(m) && i < |examples|
    ensures Evaluate(m, ln, examples[..i + 1]) == Row(Evaluate(m, ln, examples[..i]), ln, examples[i])
  {
    assert examples[..i + 1][..i] == examples[..i];
  }

  /** `float(correct) / (correct + wrong)`, and None where that division fails. */
  function Accuracy(correct: nat, wrong: nat): (r: Option<real>)
    ensures r.None? <==> correct + wrong == 0
    ensures r.Some? ==> 0.0 <= r.value <= 1.0
    ensures r.Some? ==> r.value * (correct + wrong) as real == correct as real
  {
    if correct + wrong == 0 then None
    else
      var a, n := correct as real, (correct + wrong) as real;
      assert a / n * n == a <= n;
      Some(a / n)
  }
}
