/** Alignment of the reranker with human feedback: score each stored pair
    again, derive the reranker's preference, compare it with the human's,
    and store a summary. The feedback listing is an input; the rank
    correlation statistics are left as the score columns they are computed
    from. */
module Evaluation {
  import opened Wrappers
  import opened Text
  import opened Ranking
  import opened Store

  /** One row of the result table. */
  datatype EvalRow = EvalRow(
    query: string,
    scoreA: real,
    scoreB: real,
    human: Option<string>,
    reranker: string,
    matches: bool)

  /** `"A" if a > b else "B" if a != b else "Tie"`. */
  function RerankerPreferred(a: real, b: real): (p: string)
    ensures p == "A" <==> a > b
    ensures p == "B" <==> a < b
    ensures p == "Tie" <==> a == b
  {
    if a > b then "A" else if a != b then "B" else "Tie"
  }

  /** The row a feedback document yields, if any: documents without a query
      or either text, and pairs the reranker gives fewer than two scores
      for, are skipped. */
  function RowFor(doc: FeedbackDoc, scorer: Scorer): (row: Option<EvalRow>)
    ensures row.Some? ==> Truthy(doc.query) && Truthy(doc.textA) && Truthy(doc.textB)
    ensures row.Some? ==> row.value.query == doc.query.value && row.value.human == doc.preferred
    ensures row.Some? ==> (row.value.matches <==> doc.preferred == Some(row.value.reranker))
    ensures row.Some? ==> row.value.reranker == RerankerPreferred(row.value.scoreA, row.value.scoreB)
    ensures row.Some? ==>
      var scores := scorer(doc.query.value, [doc.textA.value, doc.textB.value]);
      |scores| >= 2 && row.value.scoreA == scores[0].value && row.value.scoreB == scores[1].value
    ensures Truthy(doc.query) && Truthy(doc.textA) && Truthy(doc.textB) ==>
      (row.Some? <==> |scorer(doc.query.value, [doc.textA.value, doc.textB.value])| >= 2)
  {
    if !Truthy(doc.query) || !Truthy(doc.textA) || !Truthy(doc.textB) then None
    else
      var query := doc.query.value;
      var scores := scorer(query, [doc.textA.value, doc.textB.value]);
      if |scores| < 2 then None
      else
        var a, b := scores[0].value, scores[1].value;
        var pref := RerankerPreferred(a, b);
        Some(EvalRow(query, a, b, doc.preferred, pref, doc.preferred == Some(pref)))
  }

  function RowsOf(row: Option<EvalRow>): seq<EvalRow> {
    if row.Some? then [row.value] else []
  }

  /** The rows of the documents, in document order. */
  function EvalRows(docs: seq<FeedbackDoc>, scorer: Scorer): seq<EvalRow> {
    if docs == [] then []
    else EvalRows(docs[..|docs| - 1], scorer) + RowsOf(RowFor(docs[|docs| - 1], scorer))
  }

  /** Rows are made document by document: the rows of two runs of documents
      are the rows of the first followed by those of the second. */
  lemma {:induction false} EvalRowsAppend(a: seq<FeedbackDoc>, b: seq<FeedbackDoc>, scorer: Scorer)
    ensures EvalRows(a + b, scorer) == EvalRows(a, scorer) + EvalRows(b, scorer)
    decreases |b|
  {
    if b == [] {
      assert a + b == a;
    } else {
      var b' := b[..|b| - 1];
      assert (a + b)[..|a + b| - 1] == a + b';
      EvalRowsAppend(a, b', scorer);
    }
  }

  /** The loop that builds `results`. */
  method CollectRows(docs: seq<FeedbackDoc>, scorer: Scorer) returns (rows: seq<EvalRow>)
    ensures rows == EvalRows(docs, scorer)
  {
    rows := [];
    for i := 0 to |docs|
      invariant rows == EvalRows(docs[..i], scorer)
    {
      var doc := docs[i];
      assert docs[..i + 1][..i] == docs[..i];
      if !Truthy(doc.query) || !Truthy(doc.textA) || !Truthy(doc.textB) {
        continue;
      }
      var scores := scorer(doc.query.value, [doc.textA.value, doc.textB.value]);
      if |scores| < 2 {
        continue;
      }
      var a, b := scores[0].value, scores[1].value;
      var pref := if a > b then "A" else if a != b then "B" else "Tie";
      rows := rows + [EvalRow(doc.query.value, a, b, doc.preferred, pref, doc.preferred == Some(pref))];
    }
    assert docs[..|docs|] == docs;
  }

  /** A tie matches only a stored "Tie", and a preference other than the
      three exact words (a lower-case "a", say) matches nothing. */
  lemma MatchIsExact(doc: FeedbackDoc, scorer: Scorer)
    requires RowFor(doc, scorer).Some?
    ensures var row := RowFor(doc, scorer).value;
      && (row.reranker == "Tie" ==> (row.matches <==> doc.preferred == Some("Tie")))
      && (doc.preferred.Some? && doc.preferred.value !in {"A", "B", "Tie"} ==> !row.matches)
      && (doc.preferred.None? ==> !row.matches)
  {
  }

  function CountMatches(rows: seq<EvalRow>): (n: nat)
    ensures n <= |rows|
  {
    if rows == [] then 0
    else CountMatches(rows[..|rows| - 1]) + (if rows[|rows| - 1].matches then 1 else 0)
  }

  lemma {:induction false} CountMatchesAll(rows: seq<EvalRow>)
    ensures CountMatches(rows) == |rows| <==> forall i :: 0 <= i < |rows| ==> rows[i].matches
    ensures CountMatches(rows) == 0 <==> forall i :: 0 <= i < |rows| ==> !rows[i].matches
  {
    if rows != [] {
      var init := rows[..|rows| - 1];
      CountMatchesAll(init);
      assert forall i :: 0 <= i < |init| ==> init[i] == rows[i];
    }
  }

  /** A count out of a positive total, as a percentage. */
  lemma PercentBounds(c: nat, n: nat)
    requires 0 < n && c <= n
    ensures 0.0 <= 100.0 * (c as real) / (n as real) <= 100.0
    ensures 100.0 * (c as real) / (n as real) == 100.0 <==> c == n
    ensures 100.0 * (c as real) / (n as real) == 0.0 <==> c == 0
  {
    var x := 100.0 * (c as real);
    assert 0.0 <= x <= 100.0 * (n as real);
    assert x / (n as real) * (n as real) == x;
  }

  /** `df["match"].mean() * 100`. */
  function Accuracy(rows: seq<EvalRow>): (acc: real)
    requires rows != []
    ensures 0.0 <= acc <= 100.0
    ensures acc == 100.0 <==> forall i :: 0 <= i < |rows| ==> rows[i].matches
    ensures acc == 0.0 <==> forall i :: 0 <= i < |rows| ==> !rows[i].matches
  {
    CountMatchesAll(rows);
    PercentBounds(CountMatches(rows), |rows|);
    100.0 * (CountMatches(rows) as real) / (|rows| as real)
  }

  /** `Series.nunique()`: the number of distinct values. */
  function NUnique(xs: seq<real>): nat {
    |set i | 0 <= i < |xs| :: xs[i]|
  }

  predicate AllSame(xs: seq<real>) {
    forall i, j :: 0 <= i < |xs| && 0 <= j < |xs| ==> xs[i] == xs[j]
  }

  /** One distinct value at most, exactly when all values are equal. */
  lemma NUniqueAtMostOne(xs: seq<real>)
    ensures NUnique(xs) <= 1 <==> AllSame(xs)
  {
    var s := set i | 0 <= i < |xs| :: xs[i];
    if AllSame(xs) && xs != [] {
      assert s == {xs[0]};
    }
    if !AllSame(xs) {
      var i, j :| 0 <= i < |xs| && 0 <= j < |xs| && xs[i] != xs[j];
      var pair := {xs[i], xs[j]};
      assert s == pair + (s - pair);
      assert |pair| == 2;
    }
  }

  function ColumnA(rows: seq<EvalRow>): (xs: seq<real>)
    ensures |xs| == |rows| && forall i :: 0 <= i < |rows| ==> xs[i] == rows[i].scoreA
  {
    seq(|rows|, i requires 0 <= i < |rows| => rows[i].scoreA)
  }

  function ColumnB(rows: seq<EvalRow>): (xs: seq<real>)
    ensures |xs| == |rows| && forall i :: 0 <= i < |rows| ==> xs[i] == rows[i].scoreB
  {
    seq(|rows|, i requires 0 <= i < |rows| => rows[i].scoreB)
  }

  /** The correlation branch: computed when either score column has more
      than one distinct value, written as 0.0 only when both columns are
      constant. */
  function CorrelationOf(rows: seq<EvalRow>): (c: Correlation)
    ensures c.Flat? <==> AllSame(ColumnA(rows)) && AllSame(ColumnB(rows))
    ensures c.Computed? ==> c.scoresA == ColumnA(rows) && c.scoresB == ColumnB(rows)
  {
    NUniqueAtMostOne(ColumnA(rows));
    NUniqueAtMostOne(ColumnB(rows));
    if NUnique(ColumnA(rows)) > 1 || NUnique(ColumnB(rows)) > 1 then Computed(ColumnA(rows), ColumnB(rows))
    else Flat
  }

  /** The summary document: accuracy, pair count and correlation. */
  function Summary(rows: seq<EvalRow>): (doc: EvalSummary)
    requires rows != []
    ensures doc.pairsEvaluated == |rows|
    ensures doc.accuracy == Accuracy(rows) && 0.0 <= doc.accuracy <= 100.0
    ensures doc.correlation == CorrelationOf(rows)
  {
    EvalSummary(Accuracy(rows), |rows|, CorrelationOf(rows))
  }

  /** `evaluate_reranker_alignment`: `docs` is the feedback listing and
      `accepted` whether the summary insert goes through. Without documents,
      or without any usable row, nothing is stored and there is no table;
      otherwise the rows come back whether or not the summary was stored. */
  method EvaluateAlignment(docs: seq<FeedbackDoc>, scorer: Scorer, accepted: bool, store: DocumentStore)
    returns (table: Option<seq<EvalRow>>)
    modifies store
    ensures docs == [] ==> table.None?
    ensures EvalRows(docs, scorer) == [] ==> table.None? && store.evaluations == old(store.evaluations)
    ensures EvalRows(docs, scorer) != [] ==> table == Some(EvalRows(docs, scorer))
    ensures EvalRows(docs, scorer) != [] ==>
      store.evaluations == old(store.evaluations) + (if accepted then [Summary(EvalRows(docs, scorer))] else [])
    ensures store.responses == old(store.responses) && store.feedback == old(store.feedback)
    ensures store.rerankerScores == old(store.rerankerScores)
  {
    if docs == [] {
      return None;
    }
    var rows := CollectRows(docs, scorer);
    if rows == [] {
      return None;
    }
    store.InsertEvaluation(Summary(rows), accepted);
    table := Some(rows);
  }
}
