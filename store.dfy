/** The document store's four collections, seen from the program: each
    insert appends one record. A failed remote insert is reported and
    swallowed by every caller, so the model keeps the records the program
    hands over; whether the remote service kept them is outside the model. */
module Store {
  import opened Wrappers
  import opened Dicts
  import opened Ranking

  /** `{query, agent, text}` in the `responses` collection. */
  datatype ResponseDoc = ResponseDoc(query: string, agent: string, text: string)

  /** A document of the `feedback` collection as read back. Each field is
      `None` when the key is absent (or stored as null); `respA`/`respB` are
      the legacy `resp_A`/`resp_B` keys that the exporter still reads. */
  datatype FeedbackDoc = FeedbackDoc(
    query: Option<string>,
    agentA: Option<string>,
    textA: Option<string>,
    agentB: Option<string>,
    textB: Option<string>,
    preferred: Option<string>,
    respA: Option<string>,
    respB: Option<string>)

  /** `{query, agent, score, text}` in the `reranker_scores` collection. */
  datatype ScoreDoc = ScoreDoc(query: string, agent: string, score: real, text: string)

  /** The rank-correlation part of a summary: `Flat` when both score columns
      hold a single value (tau and rho are then written as 0.0), otherwise the
      two columns the statistics are computed from. */
  datatype Correlation = Flat | Computed(scoresA: seq<real>, scoresB: seq<real>)

  /** A document of the `evaluation_results` collection. */
  datatype EvalSummary = EvalSummary(accuracy: real, pairsEvaluated: nat, correlation: Correlation)

  /** The feedback document written for a compared pair. */
  function FeedbackFor(query: string, agentA: string, textA: string, agentB: string, textB: string, preferred: Option<string>): FeedbackDoc {
    FeedbackDoc(Some(query), Some(agentA), Some(textA), Some(agentB), Some(textB), preferred, None, None)
  }

  /** One response document per generated entry, in dictionary order. */
  function ResponseDocs(query: string, texts: seq<(string, string)>): (docs: seq<ResponseDoc>)
    ensures |docs| == |texts|
    ensures forall i :: 0 <= i < |texts| ==> docs[i] == ResponseDoc(query, texts[i].0, texts[i].1)
  {
    seq(|texts|, i requires 0 <= i < |texts| => ResponseDoc(query, texts[i].0, texts[i].1))
  }

  /** One score document per ranked candidate, in ranked order. */
  function ScoreDocs(query: string, ranked: seq<Row>): (docs: seq<ScoreDoc>)
    ensures |docs| == |ranked|
    ensures forall i :: 0 <= i < |ranked| ==> docs[i] == ScoreDoc(query, ranked[i].agent, ranked[i].score, ranked[i].text)
  {
    seq(|ranked|, i requires 0 <= i < |ranked| => ScoreDoc(query, ranked[i].agent, ranked[i].score, ranked[i].text))
  }

  class DocumentStore {
    var responses: seq<ResponseDoc>
    var feedback: seq<FeedbackDoc>
    var rerankerScores: seq<ScoreDoc>
    var evaluations: seq<EvalSummary>

    constructor ()
      ensures responses == [] && feedback == [] && rerankerScores == [] && evaluations == []
    {
      responses, feedback, rerankerScores, evaluations := [], [], [], [];
    }

    /** `store_response(doc)`. */
    method StoreResponse(doc: ResponseDoc)
      modifies this
      ensures responses == old(responses) + [doc]
      ensures feedback == old(feedback) && rerankerScores == old(rerankerScores) && evaluations == old(evaluations)
    {
      responses := responses + [doc];
    }

    /** `store_feedback(doc)`. */
    method StoreFeedback(doc: FeedbackDoc)
      modifies this
      ensures feedback == old(feedback) + [doc]
      ensures responses == old(responses) && rerankerScores == old(rerankerScores) && evaluations == old(evaluations)
    {
      feedback := feedback + [doc];
    }

    /** `store_reranker_score(doc)`. */
    method StoreRerankerScore(doc: ScoreDoc)
      modifies this
      ensures rerankerScores == old(rerankerScores) + [doc]
      ensures responses == old(responses) && feedback == old(feedback) && evaluations == old(evaluations)
    {
      rerankerScores := rerankerScores + [doc];
    }

    /** `evaluation_coll.insert_one(doc)`; `accepted` is whether the insert
        went through (a failure is caught and printed by the caller). */
    method InsertEvaluation(doc: EvalSummary, accepted: bool)
      modifies this
      ensures evaluations == old(evaluations) + (if accepted then [doc] else [])
      ensures responses == old(responses) && feedback == old(feedback) && rerankerScores == old(rerankerScores)
    {
      if accepted {
        evaluations := evaluations + [doc];
      }
    }

    /** `for agent, text in texts.items(): store_response({...})`. */
    method LogResponses(query: string, texts: Dict<string>)
      modifies this
      ensures responses == old(responses) + ResponseDocs(query, texts)
      ensures feedback == old(feedback) && rerankerScores == old(rerankerScores) && evaluations == old(evaluations)
    {
      for i := 0 to |texts|
        invariant responses == old(responses) + ResponseDocs(query, texts[..i])
        invariant feedback == old(feedback) && rerankerScores == old(rerankerScores) && evaluations == old(evaluations)
      {
        StoreResponse(ResponseDoc(query, texts[i].0, texts[i].1));
        assert ResponseDocs(query, texts[..i + 1]) == ResponseDocs(query, texts[..i]) + [ResponseDoc(query, texts[i].0, texts[i].1)];
      }
      assert texts[..|texts|] == texts;
    }

    /** `for agent, text, score in ranked: store_reranker_score({...})`. */
    method LogScores(query: string, ranked: seq<Row>)
      modifies this
      ensures rerankerScores == old(rerankerScores) + ScoreDocs(query, ranked)
      ensures responses == old(responses) && feedback == old(feedback) && evaluations == old(evaluations)
    {
      for i := 0 to |ranked|
        invariant rerankerScores == old(rerankerScores) + ScoreDocs(query, ranked[..i])
        invariant responses == old(responses) && feedback == old(feedback) && evaluations == old(evaluations)
      {
        StoreRerankerScore(ScoreDoc(query, ranked[i].agent, ranked[i].score, ranked[i].text));
        assert ScoreDocs(query, ranked[..i + 1]) == ScoreDocs(query, ranked[..i]) + [ScoreDoc(query, ranked[i].agent, ranked[i].score, ranked[i].text)];
      }
      assert ranked[..|ranked|] == ranked;
    }
  }
}
