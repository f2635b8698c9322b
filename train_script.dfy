/** The offline training script's example builder: the positive text is
    `text_a` only for a stored preference of exactly "A", and `text_b`
    otherwise, a missing preference included. */
module TrainScript {
  import opened Wrappers
  import opened Text
  import opened Store
  import opened Records
  import opened Finetune

  /** The positive and the negative text of a document, as read. */
  function PosNeg(doc: FeedbackDoc): (pn: (Option<string>, Option<string>))
    ensures doc.preferred == Some("A") ==> pn == (doc.textA, doc.textB)
    ensures doc.preferred != Some("A") ==> pn == (doc.textB, doc.textA)
  {
    if doc.preferred == Some("A") then (doc.textA, doc.textB) else (doc.textB, doc.textA)
  }

  /** `q and pos and neg`. */
  predicate Usable(doc: FeedbackDoc) {
    Truthy(doc.query) && Truthy(PosNeg(doc).0) && Truthy(PosNeg(doc).1)
  }

  /** A usable document is one with a query and both texts, whatever its
      preference. */
  lemma UsableIffTexts(doc: FeedbackDoc)
    ensures Usable(doc) <==> Truthy(doc.query) && Truthy(doc.textA) && Truthy(doc.textB)
  {
  }

  /** The two examples of one document: positive labelled 1.0, then negative
      labelled 0.0, both with the document's query. */
  function TrainExamplesFor(doc: FeedbackDoc): (ex: seq<Example>)
    ensures !Usable(doc) ==> ex == []
    ensures Usable(doc) ==>
      && |ex| == 2
      && ex[0] == Example(doc.query.value, PosNeg(doc).0.value, 1.0)
      && ex[1] == Example(doc.query.value, PosNeg(doc).1.value, 0.0)
  {
    if !Usable(doc) then []
    else
      var (pos, neg) := PosNeg(doc);
      [Example(doc.query.value, pos.value, 1.0), Example(doc.query.value, neg.value, 0.0)]
  }

  function TrainExamples(docs: seq<FeedbackDoc>): seq<Example> {
    FlatMap(docs, TrainExamplesFor)
  }

  /** Twice as many examples as usable documents, two per document in
      document order. */
  lemma TrainExamplesShape(docs: seq<FeedbackDoc>)
    ensures |TrainExamples(docs)| == 2 * |Filter(docs, Usable)|
    ensures forall i :: 0 <= i < |Filter(docs, Usable)| ==>
      TrainExamples(docs)[2 * i..2 * i + 2] == TrainExamplesFor(Filter(docs, Usable)[i])
  {
    TwoPerKept(docs, TrainExamplesFor, Usable);
  }

  /** The loop that fills `train_examples`. */
  method BuildTrainExamples(docs: seq<FeedbackDoc>) returns (trainExamples: seq<Example>)
    ensures trainExamples == TrainExamples(docs)
  {
    trainExamples := [];
    for i := 0 to |docs|
      invariant trainExamples == FlatMap(docs[..i], TrainExamplesFor)
    {
      assert docs[..i + 1][..i] == docs[..i];
      var r := docs[i];
      var q := r.query;
      var pos := if r.preferred == Some("A") then r.textA else r.textB;
      var neg := if r.preferred == Some("A") then r.textB else r.textA;
      if !(Truthy(q) && Truthy(pos) && Truthy(neg)) {
        continue;
      }
      trainExamples := trainExamples + [Example(q.value, pos.value, 1.0)];
      trainExamples := trainExamples + [Example(q.value, neg.value, 0.0)];
    }
    assert docs[..|docs|] == docs;
  }
}
