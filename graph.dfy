/** The compiled round graph: the routing table over node names and what one
    `invoke` does with it. An invoke validates its input into a fresh state
    object, runs nodes from the start node along the table until a node's
    route says END, and returns the final state; an exception a node raises
    ends the invoke and reaches the caller, while the documents already
    stored stay stored. */
module Graph {
  import opened Wrappers
  import opened Dicts
  import opened Ranking
  import opened Store
  import opened State
  import opened Utils
  import opened Agents
  import opened Nodes

  datatype NodeName = Generate | PickPair | WaitHuman | Record | Rerank

  datatype Next = To(node: NodeName) | End

  /** Every invoke enters here. */
  const EntryPoint := Generate

  /** Position counted back from the last node; each edge goes down. */
  function Order(n: NodeName): nat {
    match n
    case Generate => 4
    case PickPair => 3
    case WaitHuman => 2
    case Record => 1
    case Rerank => 0
  }

  /** The edges: generate, pick_pair and wait_human in a row; from
      wait_human a choice leads to record and no choice to END; record then
      rerank, then END. The table has no cycle. */
  function After(n: NodeName, v: StateValue): (next: Next)
    ensures next.To? ==> Order(next.node) < Order(n)
    ensures n == WaitHuman ==> (next == To(Record) <==> v.humanChoice.Some?)
    ensures n == Rerank ==> next == End
  {
    match n
    case Generate => To(PickPair)
    case PickPair => To(WaitHuman)
    case WaitHuman => if v.humanChoice.Some? then To(Record) else End
    case Record => To(Rerank)
    case Rerank => End
  }

  /** What lies outside the round for one invoke: the agents, the reranker
      and the random draw of `pick_pair`. */
  datatype Env = Env(agent: Agent, scorer: Scorer, draw: (nat, nat))

  /** Documents an invoke stores, per collection. */
  datatype Effects = Effects(responses: seq<ResponseDoc>, feedback: seq<FeedbackDoc>)

  const NoEffects := Effects([], [])

  function Then(e: Effects, f: Effects): Effects {
    Effects(e.responses + f.responses, e.feedback + f.feedback)
  }

  /** The result of running one node, or a run of them. */
  datatype Run = Run(outcome: Result<StateValue, string>, effects: Effects)

  /** `run`, after documents `done` were already stored. */
  function Following(done: Effects, run: Run): Run {
    Run(run.outcome, Then(done, run.effects))
  }

  /** One node on the state value `v`. `pauseRaises` selects the pause as
      written (raise) or the returning pause. */
  function RunNode(n: NodeName, v: StateValue, env: Env, pauseRaises: bool): Run {
    match n
    case Generate =>
      var texts := Generated(v.query, DefaultStyles, env.agent);
      Run(Success(v.(responses := texts)), Effects(ResponseDocs(v.query, texts), []))
    case PickPair =>
      (match Utils.PickPair(v.responses, env.draw)
       case Failure(e) => Run(Failure(e), NoEffects)
       case Success(p) => Run(Success(v.(pair := Some(p), awaitingHuman := true)), NoEffects))
    case WaitHuman =>
      if v.humanChoice.Some? then Run(Success(v.(awaitingHuman := false)), NoEffects)
      else if pauseRaises then Run(Failure(PauseMessage), NoEffects)
      else Run(Success(v.(awaitingHuman := true)), NoEffects)
    case Record =>
      if v.pair.None? then Run(Failure(UnpackNone), NoEffects)
      else
        var p := v.pair.value;
        Run(Success(v), Effects([], [FeedbackFor(v.query, p.a.0, p.a.1, p.b.0, p.b.1, v.humanChoice)]))
    case Rerank =>
      Run(Success(v.(ranked := Some(RankResponses(v.query, v.responses, env.scorer)))), NoEffects)
  }

  /** `graph.invoke` entered at node `n`. */
  function RunFrom(n: NodeName, v: StateValue, env: Env, pauseRaises: bool): Run
    decreases Order(n)
  {
    var step := RunNode(n, v, env, pauseRaises);
    match step.outcome
    case Failure(e) => step
    case Success(w) =>
      match After(n, w)
      case End => step
      case To(m) =>
        Following(step.effects, RunFrom(m, w, env, pauseRaises))
  }

  lemma FollowingNothing(run: Run)
    ensures Following(NoEffects, run) == run
  {
    assert [] + run.effects.responses == run.effects.responses;
    assert [] + run.effects.feedback == run.effects.feedback;
  }

  lemma Assoc<T>(a: seq<T>, b: seq<T>, c: seq<T>)
    ensures a + b + c == a + (b + c)
  {
  }

  lemma FollowingThen(done: Effects, e: Effects, run: Run)
    ensures Following(done, Following(e, run)) == Following(Then(done, e), run)
  {
    assert done.responses + (e.responses + run.effects.responses) == (done.responses + e.responses) + run.effects.responses;
    assert done.feedback + (e.feedback + run.effects.feedback) == (done.feedback + e.feedback) + run.effects.feedback;
  }

  /** Generate stores one document per generated entry and hands the new
      responses to pick_pair. */
  lemma StepGenerate(v: StateValue, env: Env, pauseRaises: bool)
    ensures var texts := Generated(v.query, DefaultStyles, env.agent);
      RunFrom(Generate, v, env, pauseRaises)
        == Following(Effects(ResponseDocs(v.query, texts), []), RunFrom(PickPair, v.(responses := texts), env, pauseRaises))
  {
  }

  /** With two responses or more, pick_pair sets the pair and the waiting
      flag and hands over to wait_human. */
  lemma StepPickPair(v: StateValue, env: Env, pauseRaises: bool)
    requires |v.responses| >= 2
    ensures RunFrom(PickPair, v, env, pauseRaises)
      == RunFrom(WaitHuman, v.(pair := Some(Utils.PickPair(v.responses, env.draw).value), awaitingHuman := true), env, pauseRaises)
  {
    FollowingNothing(RunFrom(WaitHuman, v.(pair := Some(Utils.PickPair(v.responses, env.draw).value), awaitingHuman := true), env, pauseRaises));
  }

  /** With a choice, wait_human clears the flag and hands over to record. */
  lemma StepWaitWithChoice(v: StateValue, env: Env, pauseRaises: bool)
    requires v.humanChoice.Some?
    ensures RunFrom(WaitHuman, v, env, pauseRaises) == RunFrom(Record, v.(awaitingHuman := false), env, pauseRaises)
  {
    FollowingNothing(RunFrom(Record, v.(awaitingHuman := false), env, pauseRaises));
  }

  /** Without a choice, the run ends at wait_human: with the exception as
      written, or normally with the flag set. */
  lemma StepWaitNoChoice(v: StateValue, env: Env, pauseRaises: bool)
    requires v.humanChoice.None?
    ensures pauseRaises ==> RunFrom(WaitHuman, v, env, pauseRaises) == Run(Failure(PauseMessage), NoEffects)
    ensures !pauseRaises ==> RunFrom(WaitHuman, v, env, pauseRaises) == Run(Success(v.(awaitingHuman := true)), NoEffects)
  {
  }

  /** With a pair, record stores the feedback and hands over to rerank. */
  lemma StepRecord(v: StateValue, env: Env, pauseRaises: bool)
    requires v.pair.Some?
    ensures var p := v.pair.value;
      RunFrom(Record, v, env, pauseRaises)
        == Following(Effects([], [FeedbackFor(v.query, p.a.0, p.a.1, p.b.0, p.b.1, v.humanChoice)]), RunFrom(Rerank, v, env, pauseRaises))
  {
  }

  /** Rerank sets the ranking and ends the run. */
  lemma StepRerank(v: StateValue, env: Env, pauseRaises: bool)
    ensures RunFrom(Rerank, v, env, pauseRaises)
      == Run(Success(v.(ranked := Some(RankResponses(v.query, v.responses, env.scorer)))), NoEffects)
  {
  }

  /** Generate then pick_pair: the responses are stored, and the run goes on
      at wait_human with the responses, the picked pair and the waiting flag
      set. */
  lemma GenerateThenPick(v: StateValue, env: Env, pauseRaises: bool)
    ensures var texts := Generated(v.query, DefaultStyles, env.agent);
      var v2 := v.(responses := texts, pair := Some(Utils.PickPair(texts, env.draw).value), awaitingHuman := true);
      RunFrom(EntryPoint, v, env, pauseRaises) == Following(Effects(ResponseDocs(v.query, texts), []), RunFrom(WaitHuman, v2, env, pauseRaises))
  {
    var texts := Generated(v.query, DefaultStyles, env.agent);
    StepGenerate(v, env, pauseRaises);
    StepPickPair(v.(responses := texts), env, pauseRaises);
  }

  /** One node on the state object; the store receives its documents. */
  method Execute(n: NodeName, state: GraphState, store: DocumentStore, env: Env, pauseRaises: bool) returns (exit: Exit)
    modifies state, store
    ensures var run := RunNode(n, old(state.Value()), env, pauseRaises);
      && (exit.Normal? <==> run.outcome.Success?)
      && (exit.Normal? ==> state.Value() == run.outcome.value)
      && (exit.Raises? ==> exit.message == run.outcome.error)
      && store.responses == old(store.responses) + run.effects.responses
      && store.feedback == old(store.feedback) + run.effects.feedback
    ensures store.rerankerScores == old(store.rerankerScores) && store.evaluations == old(store.evaluations)
  {
    match n {
      case Generate =>
        NodeGenerate(state, store, env.agent);
        exit := Normal;
      case PickPair =>
        exit := NodePickPair(state, env.draw);
      case WaitHuman =>
        if pauseRaises {
          exit := NodeWaitForHuman(state);
        } else {
          exit := NodeWaitForHumanReturning(state);
        }
      case Record =>
        exit := NodeRecordFeedback(state, store);
      case Rerank =>
        NodeRerank(state, env.scorer);
        exit := Normal;
    }
  }

  /** One node on the state object, then the routing decision: `stop` holds
      the invoke's result when the run ends here, otherwise the run goes on
      at `next`. */
  method Advance(node: NodeName, state: GraphState, store: DocumentStore, env: Env, pauseRaises: bool)
    returns (stop: Option<Result<StateValue, string>>, next: NodeName)
    modifies state, store
    ensures var step := RunNode(node, old(state.Value()), env, pauseRaises);
      && store.responses == old(store.responses) + step.effects.responses
      && store.feedback == old(store.feedback) + step.effects.feedback
      && (stop.Some? ==> RunFrom(node, old(state.Value()), env, pauseRaises) == Run(stop.value, step.effects))
      && (stop.None? ==> Order(next) < Order(node))
      && (stop.None? ==> RunFrom(node, old(state.Value()), env, pauseRaises) == Following(step.effects, RunFrom(next, state.Value(), env, pauseRaises)))
    ensures store.rerankerScores == old(store.rerankerScores) && store.evaluations == old(store.evaluations)
  {
    var exit := Execute(node, state, store, env, pauseRaises);
    next := node;
    if exit.Raises? {
      stop := Some(Failure(exit.message));
    } else {
      var route := After(node, state.Value());
      if route.End? {
        stop := Some(Success(state.Value()));
      } else {
        stop, next := None, route.node;
      }
    }
  }

  /** `graph.invoke(input)`, entered at `start`. */
  method Invoke(input: StateValue, start: NodeName, env: Env, pauseRaises: bool, store: DocumentStore)
    returns (result: Result<StateValue, string>)
    modifies store
    ensures result == RunFrom(start, input, env, pauseRaises).outcome
    ensures store.responses == old(store.responses) + RunFrom(start, input, env, pauseRaises).effects.responses
    ensures store.feedback == old(store.feedback) + RunFrom(start, input, env, pauseRaises).effects.feedback
    ensures store.rerankerScores == old(store.rerankerScores) && store.evaluations == old(store.evaluations)
  {
    var state := new GraphState.FromValue(input);
    var node := start;
    ghost var done := NoEffects;
    var running := true;
    result := Success(input);
    FollowingNothing(RunFrom(start, input, env, pauseRaises));
    while running
      invariant running ==> RunFrom(start, input, env, pauseRaises) == Following(done, RunFrom(node, state.Value(), env, pauseRaises))
      invariant !running ==> RunFrom(start, input, env, pauseRaises) == Run(result, done)
      invariant store.responses == old(store.responses) + done.responses
      invariant store.feedback == old(store.feedback) + done.feedback
      invariant store.rerankerScores == old(store.rerankerScores) && store.evaluations == old(store.evaluations)
      decreases running, Order(node)
    {
      ghost var before := state.Value();
      ghost var step := RunNode(node, before, env, pauseRaises);
      ghost var responses0, feedback0 := store.responses, store.feedback;
      var stop, next := Advance(node, state, store, env, pauseRaises);
      Assoc(old(store.responses), done.responses, step.effects.responses);
      Assoc(old(store.feedback), done.feedback, step.effects.feedback);
      if stop.Some? {
        result, running := stop.value, false;
      } else {
        FollowingThen(done, step.effects, RunFrom(next, state.Value(), env, pauseRaises));
        node := next;
      }
      done := Then(done, step.effects);
    }
  }

  /** The round as written never returns from a run that reaches the pause:
      with no choice, `wait_human` raises before its route is looked at, so
      the `pause` route to END is never taken. */
  lemma RaisingPauseNeverRoutes(n: NodeName, v: StateValue, env: Env)
    requires Order(n) >= Order(WaitHuman)
    requires v.humanChoice.None?
    ensures RunFrom(n, v, env, true).outcome.Failure?
    decreases Order(n)
  {
    var step := RunNode(n, v, env, true);
    if step.outcome.Success? && n != WaitHuman {
      RaisingPauseNeverRoutes(After(n, step.outcome.value).node, step.outcome.value, env);
    }
  }

  /** The first invoke of a round as written: the responses are generated
      and stored, the pair is picked, and then the pause raises; no feedback
      is stored and no state comes back. */
  lemma {:induction false} FirstInvokeRaises(v: StateValue, env: Env)
    requires v.humanChoice.None?
    ensures var run := RunFrom(EntryPoint, v, env, true);
      && run.outcome == Failure(PauseMessage)
      && run.effects == Effects(ResponseDocs(v.query, Generated(v.query, DefaultStyles, env.agent)), [])
  {
    var texts := Generated(v.query, DefaultStyles, env.agent);
    var v2 := v.(responses := texts, pair := Some(Utils.PickPair(texts, env.draw).value), awaitingHuman := true);
    GenerateThenPick(v, env, true);
    StepWaitNoChoice(v2, env, true);
    assert ResponseDocs(v.query, texts) + [] == ResponseDocs(v.query, texts);
  }

  /** From record on, a run always ranks: recording is followed by
      reranking, and exactly one feedback document is stored. */
  lemma {:induction false} RecordAlwaysRanks(v: StateValue, env: Env, pauseRaises: bool)
    requires v.pair.Some?
    ensures var run := RunFrom(Record, v, env, pauseRaises);
      var p := v.pair.value;
      && run.outcome == Success(v.(ranked := Some(RankResponses(v.query, v.responses, env.scorer))))
      && run.effects == Effects([], [FeedbackFor(v.query, p.a.0, p.a.1, p.b.0, p.b.1, v.humanChoice)])
  {
    var p := v.pair.value;
    var fb := FeedbackFor(v.query, p.a.0, p.a.1, p.b.0, p.b.1, v.humanChoice);
    StepRecord(v, env, pauseRaises);
    StepRerank(v, env, pauseRaises);
    assert [fb] + [] == [fb];
  }

  /** A run entered at `wait_human` with a choice and a pair records that
      very pair with the choice, then ranks the responses it was given. */
  lemma {:induction false} ResumeRecordsGivenPair(v: StateValue, env: Env, pauseRaises: bool)
    requires v.humanChoice.Some? && v.pair.Some?
    ensures var run := RunFrom(WaitHuman, v, env, pauseRaises);
      var p := v.pair.value;
      && run.outcome.Success?
      && run.outcome.value.ranked == Some(RankResponses(v.query, v.responses, env.scorer))
      && run.outcome.value.pair == v.pair
      && !run.outcome.value.awaitingHuman
      && run.effects == Effects([], [FeedbackFor(v.query, p.a.0, p.a.1, p.b.0, p.b.1, v.humanChoice)])
  {
    StepWaitWithChoice(v, env, pauseRaises);
    RecordAlwaysRanks(v.(awaitingHuman := false), env, pauseRaises);
  }

  /** A run entered at generate with the choice already set does it all
      again: it regenerates the responses, picks a pair afresh, and records
      the newly picked pair, whatever pair the input carried. */
  lemma {:induction false} RestartRepicks(v: StateValue, env: Env, pauseRaises: bool)
    requires v.humanChoice.Some?
    ensures var texts := Generated(v.query, DefaultStyles, env.agent);
      var p := Utils.PickPair(texts, env.draw).value;
      var run := RunFrom(EntryPoint, v, env, pauseRaises);
      && run.outcome.Success?
      && run.outcome.value.pair == Some(p)
      && run.outcome.value.ranked == Some(RankResponses(v.query, texts, env.scorer))
      && run.effects == Effects(ResponseDocs(v.query, texts), [FeedbackFor(v.query, p.a.0, p.a.1, p.b.0, p.b.1, v.humanChoice)])
  {
    var texts := Generated(v.query, DefaultStyles, env.agent);
    var v2 := v.(responses := texts, pair := Some(Utils.PickPair(texts, env.draw).value), awaitingHuman := true);
    GenerateThenPick(v, env, pauseRaises);
    ResumeRecordsGivenPair(v2, env, pauseRaises);
    var w := RunFrom(WaitHuman, v2, env, pauseRaises);
    assert ResponseDocs(v.query, texts) + [] == ResponseDocs(v.query, texts);
    assert [] + w.effects.feedback == w.effects.feedback;
  }

  /** With the returning pause, the first invoke ends at the pause with the
      freshly picked pair, waiting for a human; the rest of the state,
      the ranking included, is as it was. */
  lemma {:induction false} ReturningPauseShowsPair(v: StateValue, env: Env)
    requires v.humanChoice.None?
    ensures var texts := Generated(v.query, DefaultStyles, env.agent);
      var run := RunFrom(EntryPoint, v, env, false);
      && run.outcome == Success(v.(responses := texts, pair := Some(Utils.PickPair(texts, env.draw).value), awaitingHuman := true))
      && run.effects == Effects(ResponseDocs(v.query, texts), [])
  {
    var texts := Generated(v.query, DefaultStyles, env.agent);
    var v2 := v.(responses := texts, pair := Some(Utils.PickPair(texts, env.draw).value), awaitingHuman := true);
    GenerateThenPick(v, env, false);
    StepWaitNoChoice(v2, env, false);
    assert ResponseDocs(v.query, texts) + [] == ResponseDocs(v.query, texts);
  }
}
