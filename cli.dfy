/** The terminal driver of a round: invoke the graph, show the pair, read
    the choice, invoke again with the choice set, and show the top three.
    The two lines read from the terminal are parameters; what is shown is
    the result. `Wiring` selects the pause and the resume node: as written
    (pause raises, resume at `generate`) or corrected (pause returns, resume
    at `wait_human`). */
module Cli {
  import opened Wrappers
  import opened Text
  import opened Dicts
  import opened Ranking
  import opened Store
  import opened State
  import opened Utils
  import opened Agents
  import opened Nodes
  import opened Graph

  /** `"A" if line.strip().upper() != "B" else "B"`: the choice is always A or
      B, and it is B exactly for a lone `B` or `b` between whitespace. */
  function NormaliseChoice(line: string): (c: string)
    ensures c == "A" || c == "B"
    ensures c == "B" <==> Strip(line) == "B" || Strip(line) == "b"
  {
    UpperIsLetter(Strip(line), 'B');
    if Upper(Strip(line)) != "B" then "A" else "B"
  }

  /** `ranked[:3]`: the first three rows, in order, or all of them when there
      are fewer. */
  function Top3(ranked: seq<Row>): (top: seq<Row>)
    ensures |top| <= 3 && |top| <= |ranked| && top == ranked[..|top|]
    ensures |top| < 3 ==> top == ranked
  {
    if |ranked| <= 3 then ranked else ranked[..3]
  }

  /** The `TypeError` of slicing a missing ranking. */
  const NotSubscriptable := "'NoneType' object is not subscriptable"

  /** How the driver ends: with an exception, or after showing the pair and
      the top of the ranking. */
  datatype Outcome = Crashed(message: string) | Finished(shown: Pair, choice: string, top: seq<Row>)

  datatype Wiring = Wiring(pauseRaises: bool, resumeAt: NodeName)

  /** The driver and graph as written. */
  const AsWritten := Wiring(true, EntryPoint)

  /** The pause returns the state, and the second invoke resumes where the
      round stopped. */
  const Corrected := Wiring(false, WaitHuman)

  /** The returning pause, but the second invoke still starts over. */
  const Restarting := Wiring(false, EntryPoint)

  datatype Session = Session(outcome: Outcome, effects: Effects)

  /** The whole driver on the lines read, with `first` and `second` the
      outside world of each invoke. */
  function CliRun(query: string, line: string, w: Wiring, first: Env, second: Env): Session {
    var r1 := RunFrom(EntryPoint, Initial(query), first, w.pauseRaises);
    match r1.outcome
    case Failure(e) => Session(Crashed(e), r1.effects)
    case Success(s1) =>
      if s1.pair.None? then Session(Crashed(UnpackNone), r1.effects)
      else
        var choice := NormaliseChoice(line);
        var r2 := RunFrom(w.resumeAt, s1.(humanChoice := Some(choice)), second, w.pauseRaises);
        var effects := Then(r1.effects, r2.effects);
        match r2.outcome
        case Failure(e) => Session(Crashed(e), effects)
        case Success(s2) =>
          if s2.ranked.None? then Session(Crashed(NotSubscriptable), effects)
          else Session(Finished(s1.pair.value, choice, Top3(s2.ranked.value)), effects)
  }

  /** The driver, step by step, against the store. */
  method Drive(query: string, line: string, w: Wiring, first: Env, second: Env, store: DocumentStore) returns (outcome: Outcome)
    modifies store
    ensures outcome == CliRun(query, line, w, first, second).outcome
    ensures store.responses == old(store.responses) + CliRun(query, line, w, first, second).effects.responses
    ensures store.feedback == old(store.feedback) + CliRun(query, line, w, first, second).effects.feedback
    ensures store.rerankerScores == old(store.rerankerScores) && store.evaluations == old(store.evaluations)
  {
    var s := Invoke(Initial(query), EntryPoint, first, w.pauseRaises, store);
    if s.Failure? {
      return Crashed(s.error);
    }
    if s.value.pair.None? {
      return Crashed(UnpackNone);
    }
    var shown := s.value.pair.value;
    var choice := NormaliseChoice(line);
    var input := s.value.(humanChoice := Some(choice));
    ghost var r2 := RunFrom(w.resumeAt, input, second, w.pauseRaises);
    s := Invoke(input, w.resumeAt, second, w.pauseRaises, store);
    assert store.responses == old(store.responses) + CliRun(query, line, w, first, second).effects.responses by {
      var r1 := RunFrom(EntryPoint, Initial(query), first, w.pauseRaises);
      Assoc(old(store.responses), r1.effects.responses, r2.effects.responses);
    }
    assert store.feedback == old(store.feedback) + CliRun(query, line, w, first, second).effects.feedback by {
      var r1 := RunFrom(EntryPoint, Initial(query), first, w.pauseRaises);
      Assoc(old(store.feedback), r1.effects.feedback, r2.effects.feedback);
    }
    if s.Failure? {
      return Crashed(s.error);
    }
    if s.value.ranked.None? {
      return Crashed(NotSubscriptable);
    }
    outcome := Finished(shown, choice, Top3(s.value.ranked.value));
  }

  /** As written, the driver never shows a pair: the first invoke ends with
      the pause's exception, after the responses were generated and stored. */
  lemma AsWrittenCrashes(query: string, line: string, first: Env, second: Env)
    ensures CliRun(query, line, AsWritten, first, second)
      == Session(Crashed(PauseMessage), Effects(ResponseDocs(query, Generated(query, DefaultStyles, first.agent)), []))
  {
    FirstInvokeRaises(Initial(query), first);
  }

  /** A session whose two invokes both return, the first with a pair and the
      second with a ranking, finishes with the shown pair and the top rows,
      and stores the documents of both invokes. */
  lemma CliRunShape(query: string, line: string, w: Wiring, first: Env, second: Env, s1: StateValue, e1: Effects, s2: StateValue, e2: Effects)
    requires RunFrom(EntryPoint, Initial(query), first, w.pauseRaises) == Run(Success(s1), e1) && s1.pair.Some?
    requires RunFrom(w.resumeAt, s1.(humanChoice := Some(NormaliseChoice(line))), second, w.pauseRaises) == Run(Success(s2), e2)
    requires s2.ranked.Some?
    ensures CliRun(query, line, w, first, second).outcome == Finished(s1.pair.value, NormaliseChoice(line), Top3(s2.ranked.value))
    ensures CliRun(query, line, w, first, second).effects.responses == e1.responses + e2.responses
    ensures CliRun(query, line, w, first, second).effects.feedback == e1.feedback + e2.feedback
  {
  }

  /** Corrected, the driver records the very pair it showed, with the choice
      read, generates only once, and shows the top of the ranking of the
      responses it showed. */
  lemma CorrectedRecordsShownPair(query: string, line: string, first: Env, second: Env)
    ensures var texts := Generated(query, DefaultStyles, first.agent);
      var shown := Utils.PickPair(texts, first.draw).value;
      var choice := NormaliseChoice(line);
      CliRun(query, line, Corrected, first, second) == Session(
        Finished(shown, choice, Top3(RankResponses(query, texts, second.scorer))),
        Effects(ResponseDocs(query, texts), [FeedbackFor(query, shown.a.0, shown.a.1, shown.b.0, shown.b.1, Some(choice))]))
  {
    var texts := Generated(query, DefaultStyles, first.agent);
    var shown := Utils.PickPair(texts, first.draw).value;
    var choice := NormaliseChoice(line);
    var s1 := Initial(query).(responses := texts, pair := Some(shown), awaitingHuman := true);
    var e1 := Effects(ResponseDocs(query, texts), []);
    ReturningPauseShowsPair(Initial(query), first);
    var input := s1.(humanChoice := Some(choice));
    ResumeRecordsGivenPair(input, second, false);
    var r2 := RunFrom(WaitHuman, input, second, false);
    var fb := FeedbackFor(query, shown.a.0, shown.a.1, shown.b.0, shown.b.1, Some(choice));
    CliRunShape(query, line, Corrected, first, second, s1, e1, r2.outcome.value, r2.effects);
    assert Then(e1, r2.effects) == Effects(ResponseDocs(query, texts), [fb]) by {
      assert ResponseDocs(query, texts) + [] == ResponseDocs(query, texts);
      assert [] + [fb] == [fb];
    }
  }

  /** With the returning pause but the restart kept, the second invoke
      records the pair it picks itself from freshly generated responses,
      not the one shown. */
  lemma RestartRecordsRepickedPair(query: string, line: string, first: Env, second: Env)
    ensures var shown := Utils.PickPair(Generated(query, DefaultStyles, first.agent), first.draw).value;
      var texts := Generated(query, DefaultStyles, second.agent);
      var p := Utils.PickPair(texts, second.draw).value;
      var choice := NormaliseChoice(line);
      var session := CliRun(query, line, Restarting, first, second);
      && session.outcome == Finished(shown, choice, Top3(RankResponses(query, texts, second.scorer)))
      && session.effects.feedback == [FeedbackFor(query, p.a.0, p.a.1, p.b.0, p.b.1, Some(choice))]
  {
    var texts1 := Generated(query, DefaultStyles, first.agent);
    var s1 := Initial(query).(responses := texts1, pair := Some(Utils.PickPair(texts1, first.draw).value), awaitingHuman := true);
    ReturningPauseShowsPair(Initial(query), first);
    var input := s1.(humanChoice := Some(NormaliseChoice(line)));
    RestartRepicks(input, second, false);
    var r2 := RunFrom(EntryPoint, input, second, false);
    CliRunShape(query, line, Restarting, first, second, s1, Effects(ResponseDocs(query, texts1), []), r2.outcome.value, r2.effects);
    assert [] + r2.effects.feedback == r2.effects.feedback;
  }

  /** One concrete round where the restart records the pair the other way
      round: shown `Agent-1-concise` as A and `Agent-3-optimizer` as B, the
      stored feedback has them swapped, so the choice is credited to the
      other agent. */
  lemma RestartSwapsPair(query: string, line: string, agent: Agent, scorer: Scorer)
    ensures var session := CliRun(query, line, Restarting, Env(agent, scorer, (0, 0)), Env(agent, scorer, (2, 0)));
      && session.outcome.Finished?
      && session.outcome.shown.a.0 == "Agent-1-concise"
      && session.outcome.shown.b.0 == "Agent-3-optimizer"
      && |session.effects.feedback| == 1
      && session.effects.feedback[0].agentA == Some("Agent-3-optimizer")
      && session.effects.feedback[0].agentB == Some("Agent-1-concise")
  {
    var first, second := Env(agent, scorer, (0, 0)), Env(agent, scorer, (2, 0));
    RestartRecordsRepickedPair(query, line, first, second);
    var texts := Generated(query, DefaultStyles, agent);
    DefaultKeys(query, agent);
    assert Keys(texts)[0] == texts[0].0 && Keys(texts)[2] == texts[2].0;
    assert SampleTwo(3, (0, 0)) == (0, 2);
    assert SampleTwo(3, (2, 0)) == (2, 0);
  }
}
