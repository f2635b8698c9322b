/** Training data for fine-tuning the reranker: each complete feedback
    document becomes a positive and a negative (query, text) example. */
module Finetune {
  import opened Wrappers
  import opened Text
  import opened Store
  import opened Records

  /** An `InputExample` with texts `[query, text]` and its label as `target`. */
  datatype Example = Example(query: string, text: string, target: real)

  /** `all([query, a_text, b_text, preferred])`. */
  predicate Complete(doc: FeedbackDoc) {
    Truthy(doc.query) && Truthy(doc.textA) && Truthy(doc.textB) && Truthy(doc.preferred)
  }

  /** The two examples of one document: the preferred text labelled 1.0
      first, then the other labelled 0.0; B is preferred for every value
      other than exactly "A". */
  function ExamplesFor(doc: FeedbackDoc): (ex: seq<Example>)
    ensures !Complete(doc) ==> ex == []
    ensures Complete(doc) ==>
      && |ex| == 2
      && ex[0].query == ex[1].query == doc.query.value
      && ex[0].target == 1.0 && ex[1].target == 0.0
      && (doc.preferred.value == "A" ==> ex[0].text == doc.textA.value && ex[1].text == doc.textB.value)
      && (doc.preferred.value != "A" ==> ex[0].text == doc.textB.value && ex[1].text == doc.textA.value)
  {
    if !Complete(doc) then []
    else
      var query, a, b := doc.query.value, doc.textA.value, doc.textB.value;
      if doc.preferred.value == "A" then [Example(query, a, 1.0), Example(query, b, 0.0)]
      else [Example(query, b, 1.0), Example(query, a, 0.0)]
  }

  function TrainingData(docs: seq<FeedbackDoc>): seq<Example> {
    FlatMap(docs, ExamplesFor)
  }

  /** Two examples per complete document, in document order: examples `2i`
      and `2i + 1` come from the `i`-th complete document. */
  lemma TrainingDataShape(docs: seq<FeedbackDoc>)
    ensures |TrainingData(docs)| == 2 * |Filter(docs, Complete)|
    ensures forall i :: 0 <= i < |Filter(docs, Complete)| ==>
      TrainingData(docs)[2 * i..2 * i + 2] == ExamplesFor(Filter(docs, Complete)[i])
  {
    TwoPerKept(docs, ExamplesFor, Complete);
  }

  /** `prepare_training_data` on the listed feedback documents. */
  method PrepareTrainingData(docs: seq<FeedbackDoc>) returns (examples: seq<Example>)
    ensures examples == TrainingData(docs)
  {
    examples := [];
    for i := 0 to |docs|
      invariant examples == FlatMap(docs[..i], ExamplesFor)
    {
      assert docs[..i + 1][..i] == docs[..i];
      var doc := docs[i];
      var query := doc.query;
      var a, b := doc.textA, doc.textB;
      var preferred := doc.preferred;
      if !(Truthy(query) && Truthy(a) && Truthy(b) && Truthy(preferred)) {
        continue;
      }
      if preferred.value == "A" {
        examples := examples + [Example(query.value, a.value, 1.0)];
        examples := examples + [Example(query.value, b.value, 0.0)];
      } else {
        examples := examples + [Example(query.value, b.value, 1.0)];
        examples := examples + [Example(query.value, a.value, 0.0)];
      }
    }
    assert docs[..|docs|] == docs;
  }

  /** `fine_tune_reranker` up to the training call: whether training starts,
      and on which examples. */
  method FineTune(docs: seq<FeedbackDoc>) returns (trains: Option<seq<Example>>)
    ensures trains.None? <==> forall i :: 0 <= i < |docs| ==> !Complete(docs[i])
    ensures trains.Some? ==> trains.value == TrainingData(docs) && |trains.value| >= 2
  {
    var examples := PrepareTrainingData(docs);
    FlatMapEmpty(docs, ExamplesFor);
    if examples == [] {
      return None;
    }
    TrainingDataShape(docs);
    trains := Some(examples);
  }
}
