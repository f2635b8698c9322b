/** How the three ways of turning feedback into training pairs compare: the
    fine-tuning data, the training script and the export agree on complete,
    upper-case feedback and part ways on a missing preference, a lower-case
    "a", and texts that are only whitespace. */
module Curation {
  import opened Wrappers
  import opened Text
  import opened Store
  import opened Records
  import opened Finetune
  import opened TrainScript
  import opened Export

  /** With a preference stored, the fine-tuning data and the training script
      build the same examples from a document. */
  lemma SameExamplesWithPreference(doc: FeedbackDoc)
    requires Truthy(doc.preferred)
    ensures ExamplesFor(doc) == TrainExamplesFor(doc)
  {
    UsableIffTexts(doc);
  }

  /** And so from the whole listing. */
  lemma SameTrainingData(docs: seq<FeedbackDoc>)
    requires forall i :: 0 <= i < |docs| ==> Truthy(docs[i].preferred)
    ensures TrainingData(docs) == TrainExamples(docs)
  {
    forall i | 0 <= i < |docs| ensures ExamplesFor(docs[i]) == TrainExamplesFor(docs[i]) {
      SameExamplesWithPreference(docs[i]);
    }
    FlatMapAgree(docs, ExamplesFor, TrainExamplesFor);
  }

  /** Without a preference, the fine-tuning data drops the document, the
      training script makes B the positive, and the export makes A the
      positive. */
  lemma MissingPreferenceDisagrees(doc: FeedbackDoc)
    requires !Truthy(doc.preferred) && Truthy(doc.query) && Truthy(doc.textA) && Truthy(doc.textB)
    ensures ExamplesFor(doc) == []
    ensures TrainExamplesFor(doc) == [Example(doc.query.value, doc.textB.value, 1.0), Example(doc.query.value, doc.textA.value, 0.0)]
    ensures ExportFor(doc).Some? ==> ExportFor(doc).value.pos == Strip(doc.textA.value)
  {
    UsableIffTexts(doc);
    PrefIsA(doc);
  }

  /** A lower-case "a" makes B the positive for fine-tuning and training,
      but A the positive for the export. */
  lemma LowerCaseADisagrees(doc: FeedbackDoc)
    requires doc.preferred == Some("a") && Truthy(doc.query) && Truthy(doc.textA) && Truthy(doc.textB)
    ensures ExamplesFor(doc)[0].text == doc.textB.value
    ensures TrainExamplesFor(doc)[0].text == doc.textB.value
    ensures ExportFor(doc).Some? ==> ExportFor(doc).value.pos == Strip(doc.textA.value)
  {
    UsableIffTexts(doc);
    PrefIsA(doc);
  }

  /** A text of whitespace only is kept for fine-tuning and training, but the
      export drops the document, as its stripped text is empty. */
  lemma WhitespaceTextDisagrees(doc: FeedbackDoc)
    requires Truthy(doc.query) && Truthy(doc.textA) && Truthy(doc.textB) && Truthy(doc.preferred)
    requires AllSpace(doc.textA.value)
    ensures |ExamplesFor(doc)| == 2 && |TrainExamplesFor(doc)| == 2
    ensures ExportFor(doc).None?
  {
    UsableIffTexts(doc);
  }
}
