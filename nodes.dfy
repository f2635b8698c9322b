/** The five graph nodes, each updating the shared round state in place.
    A node either returns normally or raises; `Exit` says which. */
module Nodes {
  import opened Wrappers
  import opened Dicts
  import opened Ranking
  import opened Store
  import opened State
  import opened Utils
  import opened Agents

  datatype Exit = Normal | Raises(message: string)

  /** The message `node_wait_for_human` raises with when no choice is set. */
  const PauseMessage := "HITL pause"

  /** The `TypeError` of unpacking a missing pair. */
  const UnpackNone := "cannot unpack non-iterable NoneType object"

  /** The ranking `node_rerank` computes: every response, in key order, goes
      to the scorer, and the (agent, text, score) rows come out sorted by
      descending score. */
  function RankResponses(query: string, responses: Dict<string>, scorer: Scorer): (r: seq<Row>)
    ensures NonIncreasing(r)
    ensures var scores := scorer(query, Values(responses));
      |scores| == |responses| ==>
        && |r| == |responses|
        && multiset(r) == multiset(seq(|responses|, i requires 0 <= i < |responses| => Row(responses[i].0, responses[i].1, scores[i].value)))
  {
    var agents := Keys(responses);
    var texts := Values(responses);
    var scores := scorer(query, texts);
    var r := Rank(agents, texts, ValuesOf(scores));
    assert |scores| == |responses| ==>
      Zip3(agents, texts, ValuesOf(scores)) == seq(|responses|, i requires 0 <= i < |responses| => Row(responses[i].0, responses[i].1, scores[i].value));
    r
  }

  /** Rows with equal scores stay in the order of `responses`. */
  lemma RankResponsesStable(query: string, responses: Dict<string>, scorer: Scorer, v: real)
    ensures var scores := ValuesOf(scorer(query, Values(responses)));
      WithScore(RankResponses(query, responses, scorer), v) == WithScore(Zip3(Keys(responses), Values(responses), scores), v)
  {
    SortDescStable(Zip3(Keys(responses), Values(responses), ValuesOf(scorer(query, Values(responses)))), v);
  }

  /** `node_generate`: the responses become exactly what generation returns,
      and one response document per entry is stored, in dictionary order. */
  method NodeGenerate(state: GraphState, store: DocumentStore, agent: Agent)
    modifies state, store
    ensures state.Value() == old(state.Value()).(responses := Generated(old(state.query), DefaultStyles, agent))
    ensures store.responses == old(store.responses) + ResponseDocs(state.query, state.responses)
    ensures store.feedback == old(store.feedback) && store.rerankerScores == old(store.rerankerScores)
    ensures store.evaluations == old(store.evaluations)
  {
    var query := state.query;
    var texts := GenerateAll(query, DefaultStyles, agent);
    store.LogResponses(query, texts);
    state.responses := texts;
  }

  /** `node_pick_pair`: two entries of the responses with different keys
      become the pair, and the round waits for a human; with fewer than two
      responses the sampling raises and nothing changes. */
  method NodePickPair(state: GraphState, draw: (nat, nat)) returns (exit: Exit)
    modifies state
    ensures exit.Raises? <==> |old(state.responses)| < 2
    ensures exit.Raises? ==> exit.message == SampleError && state.Value() == old(state.Value())
    ensures exit.Normal? ==>
      state.Value() == old(state.Value()).(pair := Some(PickPair(old(state.responses), draw).value), awaitingHuman := true)
    ensures exit.Normal? ==>
      && state.pair.value.a in state.responses && state.pair.value.b in state.responses
      && state.pair.value.a.0 != state.pair.value.b.0
  {
    match PickPair(state.responses, draw) {
      case Failure(e) =>
        exit := Raises(e);
      case Success(p) =>
        state.pair := Some(p);
        state.awaitingHuman := true;
        exit := Normal;
    }
  }

  /** `node_wait_for_human`: without a choice it marks the round as waiting
      and raises; with one, its only update is to clear the waiting flag. */
  method NodeWaitForHuman(state: GraphState) returns (exit: Exit)
    modifies state
    ensures old(state.humanChoice).None? ==>
      exit == Raises(PauseMessage) && state.Value() == old(state.Value()).(awaitingHuman := true)
    ensures old(state.humanChoice).Some? ==>
      exit == Normal && state.Value() == old(state.Value()).(awaitingHuman := false)
  {
    if state.humanChoice.None? {
      state.awaitingHuman := true;
      return Raises(PauseMessage);
    }
    state.awaitingHuman := false;
    exit := Normal;
  }

  /** The pause as the graph's `pause` route expects it: without a choice the
      node returns with the waiting flag set, so the run ends normally. */
  method NodeWaitForHumanReturning(state: GraphState) returns (exit: Exit)
    modifies state
    ensures exit == Normal
    ensures state.Value() == old(state.Value()).(awaitingHuman := old(state.humanChoice).None?)
  {
    state.awaitingHuman := state.humanChoice.None?;
    exit := Normal;
  }

  /** `node_record_feedback`: one feedback document with the pair's first
      entry as A, its second as B and the choice as given; the state is left
      as it is. Without a pair the unpacking raises. */
  method NodeRecordFeedback(state: GraphState, store: DocumentStore) returns (exit: Exit)
    modifies store
    ensures state.pair.None? ==> exit == Raises(UnpackNone) && store.feedback == old(store.feedback)
    ensures state.pair.Some? ==> exit == Normal
    ensures state.pair.Some? ==>
      var p := state.pair.value;
      store.feedback == old(store.feedback) + [FeedbackFor(state.query, p.a.0, p.a.1, p.b.0, p.b.1, state.humanChoice)]
    ensures store.responses == old(store.responses) && store.rerankerScores == old(store.rerankerScores)
    ensures store.evaluations == old(store.evaluations)
  {
    if state.pair.None? {
      return Raises(UnpackNone);
    }
    var p := state.pair.value;
    store.StoreFeedback(FeedbackFor(state.query, p.a.0, p.a.1, p.b.0, p.b.1, state.humanChoice));
    exit := Normal;
  }

  /** `node_rerank`: the ranking of all responses becomes `ranked`. */
  method NodeRerank(state: GraphState, scorer: Scorer)
    modifies state
    ensures state.Value() == old(state.Value()).(ranked := Some(RankResponses(old(state.query), old(state.responses), scorer)))
  {
    var agents := Keys(state.responses);
    var texts := Values(state.responses);
    var scores := scorer(state.query, texts);
    state.ranked := Some(Rank(agents, texts, ValuesOf(scores)));
  }
}
