/** The offline validation script: every stored feedback pair is scored by
    the fine-tuned reranker, the higher-scored side is its choice, and the
    script counts how often that choice equals the stored preference. */
module EvaluateScript {
  import opened Wrappers
  import opened Store
  import Evaluation

  /** `reranker.predict([(q, a), (q, b)])` read as its two scores. */
  type PairScorer = (string, string, string) -> (real, real)

  datatype Tally = Tally(correct: nat, total: nat)

  /** `"A" if scores[0] > scores[1] else "B"`: a tie counts as B. */
  function ScriptChoice(s0: real, s1: real): (c: string)
    ensures c == "A" <==> s0 > s1
    ensures c == "B" <==> s0 <= s1
  {
    if s0 > s1 then "A" else "B"
  }

  /** The first of the four keys the row lacks, in the order they are read. */
  function MissingKey(row: FeedbackDoc): (k: Option<string>)
    ensures k.None? <==> row.query.Some? && row.textA.Some? && row.textB.Some? && row.preferred.Some?
    ensures k == Some("query") <==> row.query.None?
    ensures k == Some("text_a") <==> row.query.Some? && row.textA.None?
  {
    if row.query.None? then Some("query")
    else if row.textA.None? then Some("text_a")
    else if row.textB.None? then Some("text_b")
    else if row.preferred.None? then Some("preferred")
    else None
  }

  /** The text of the `KeyError` for a missing key. */
  function KeyErrorText(key: string): string {
    "'" + key + "'"
  }

  /** Whether the reranker agrees with a complete row. */
  predicate Agrees(row: FeedbackDoc, predict: PairScorer)
    requires MissingKey(row).None?
  {
    var scores := predict(row.query.value, row.textA.value, row.textB.value);
    ScriptChoice(scores.0, scores.1) == row.preferred.value
  }

  /** The counters after the loop, or the key error that ends the script. */
  function Agreement(rows: seq<FeedbackDoc>, predict: PairScorer): Result<Tally, string> {
    if rows == [] then Success(Tally(0, 0))
    else
      var last := rows[|rows| - 1];
      match Agreement(rows[..|rows| - 1], predict)
      case Failure(e) => Failure(e)
      case Success(t) =>
        if MissingKey(last).Some? then Failure(KeyErrorText(MissingKey(last).value))
        else Success(Tally(t.correct + (if Agrees(last, predict) then 1 else 0), t.total + 1))
  }

  /** No row is skipped: a run that ends counts every row, and never more
      correct answers than rows; all of them are correct exactly when the
      reranker agrees with every row. */
  lemma {:induction false} AgreementCounts(rows: seq<FeedbackDoc>, predict: PairScorer)
    requires Agreement(rows, predict).Success?
    ensures var t := Agreement(rows, predict).value;
      && t.total == |rows| && t.correct <= t.total
      && forall i :: 0 <= i < |rows| ==> MissingKey(rows[i]).None?
    ensures var t := Agreement(rows, predict).value;
      t.correct == t.total <==> forall i :: 0 <= i < |rows| ==> MissingKey(rows[i]).None? && Agrees(rows[i], predict)
  {
    if rows != [] {
      var init := rows[..|rows| - 1];
      AgreementCounts(init, predict);
      assert forall i :: 0 <= i < |init| ==> init[i] == rows[i];
    }
  }

  /** The script fails exactly when some row lacks a key, and then with the
      key error of the first such row. */
  lemma {:induction false} AgreementFails(rows: seq<FeedbackDoc>, predict: PairScorer)
    ensures Agreement(rows, predict).Failure? <==> exists i :: 0 <= i < |rows| && MissingKey(rows[i]).Some?
    ensures Agreement(rows, predict).Failure? ==>
      exists i :: 0 <= i < |rows| && MissingKey(rows[i]).Some?
        && Agreement(rows, predict).error == KeyErrorText(MissingKey(rows[i]).value)
        && forall j :: 0 <= j < i ==> MissingKey(rows[j]).None?
  {
    if rows != [] {
      var init := rows[..|rows| - 1];
      AgreementFails(init, predict);
      assert forall i :: 0 <= i < |init| ==> init[i] == rows[i];
    }
  }

  /** Once a prefix of the rows has failed, the rest is never read. */
  lemma {:induction false} FailureStops(rows: seq<FeedbackDoc>, i: nat, predict: PairScorer)
    requires i <= |rows| && Agreement(rows[..i], predict).Failure?
    ensures Agreement(rows, predict) == Agreement(rows[..i], predict)
    decreases |rows| - i
  {
    if i < |rows| {
      var init := rows[..|rows| - 1];
      assert init[..i] == rows[..i];
      FailureStops(init, i, predict);
    } else {
      assert rows[..i] == rows;
    }
  }

  /** The loop of the script. */
  method CountAgreement(rows: seq<FeedbackDoc>, predict: PairScorer) returns (r: Result<Tally, string>)
    ensures r == Agreement(rows, predict)
  {
    var correct, total := 0, 0;
    for i := 0 to |rows|
      invariant Agreement(rows[..i], predict) == Success(Tally(correct, total))
    {
      assert rows[..i + 1][..i] == rows[..i];
      var row := rows[i];
      if MissingKey(row).Some? {
        FailureStops(rows, i + 1, predict);
      }
      if row.query.None? {
        return Failure(KeyErrorText("query"));
      }
      if row.textA.None? {
        return Failure(KeyErrorText("text_a"));
      }
      if row.textB.None? {
        return Failure(KeyErrorText("text_b"));
      }
      if row.preferred.None? {
        return Failure(KeyErrorText("preferred"));
      }
      var scores := predict(row.query.value, row.textA.value, row.textB.value);
      var chosen := if scores.0 > scores.1 then "A" else "B";
      correct := correct + (if chosen == row.preferred.value then 1 else 0);
      total := total + 1;
    }
    assert rows[..|rows|] == rows;
    r := Success(Tally(correct, total));
  }

  /** `correct / total if total else 0`. */
  function ScriptAccuracy(t: Tally): (acc: real)
    requires t.correct <= t.total
    ensures 0.0 <= acc <= 1.0
    ensures t.total == 0 ==> acc == 0.0
    ensures t.total > 0 ==> (acc == 1.0 <==> t.correct == t.total) && (acc == 0.0 <==> t.correct == 0)
  {
    if t.total == 0 then 0.0 else (t.correct as real) / (t.total as real)
  }

  /** The script and the alignment evaluation agree on which side the
      reranker prefers unless the scores are equal: then the script says B
      and the evaluation says Tie, so a stored "B" on tied scores is correct
      for one and a mismatch for the other. */
  lemma TieRules(a: real, b: real)
    ensures a != b <==> ScriptChoice(a, b) == Evaluation.RerankerPreferred(a, b)
    ensures a == b ==> ScriptChoice(a, b) == "B" && Evaluation.RerankerPreferred(a, b) == "Tie"
  {
  }
}
