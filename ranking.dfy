/** Scores from the reranker and the ranking both front ends compute from
    them: Python's `sorted(rows, key=score, reverse=True)`, which orders by
    descending score and keeps rows with equal scores in their original order. */
module Ranking {

  /** One score as `score_batch` returns it: its numeric value and the text
      Python's `str()` gives for it. */
  datatype Score = Score(value: real, form: string)

  /** `score_batch(query, texts)`: the reranker, outside the model. */
  type Scorer = (string, seq<string>) -> seq<Score>

  /** A ranked candidate: `{"agent", "text", "score"}`. */
  datatype Row = Row(agent: string, text: string, score: real)

  function ValuesOf(scores: seq<Score>): (vs: seq<real>)
    ensures |vs| == |scores|
    ensures forall i :: 0 <= i < |scores| ==> vs[i] == scores[i].value
  {
    seq(|scores|, i requires 0 <= i < |scores| => scores[i].value)
  }

  function Min(a: nat, b: nat): nat {
    if a <= b then a else b
  }

  /** `zip(agents, texts, scores)` as rows; like Python's zip it stops at the
      shortest input. */
  function Zip3(agents: seq<string>, texts: seq<string>, scores: seq<real>): (rows: seq<Row>)
    ensures |rows| == Min(Min(|agents|, |texts|), |scores|)
    ensures forall i :: 0 <= i < |rows| ==> rows[i] == Row(agents[i], texts[i], scores[i])
  {
    var n := Min(Min(|agents|, |texts|), |scores|);
    seq(n, i requires 0 <= i < n => Row(agents[i], texts[i], scores[i]))
  }

  /** Scores never increase along the sequence. */
  predicate NonIncreasing(rows: seq<Row>) {
    forall i, j :: 0 <= i < j < |rows| ==> rows[i].score >= rows[j].score
  }

  /** The rows whose score is `v`, in their order in `rows`. */
  function WithScore(rows: seq<Row>, v: real): seq<Row> {
    if rows == [] then []
    else (if rows[0].score == v then [rows[0]] else []) + WithScore(rows[1..], v)
  }

  /** Places `x` in front of the first row whose score is not higher. */
  function Insert(x: Row, sorted: seq<Row>): (r: seq<Row>)
    ensures multiset(r) == multiset(sorted) + multiset{x}
    ensures |r| == |sorted| + 1
  {
    if sorted == [] || x.score >= sorted[0].score then [x] + sorted
    else
      assert sorted == [sorted[0]] + sorted[1..];
      [sorted[0]] + Insert(x, sorted[1..])
  }

  lemma {:induction false} InsertOrdered(x: Row, sorted: seq<Row>)
    requires NonIncreasing(sorted)
    ensures NonIncreasing(Insert(x, sorted))
  {
    if sorted == [] || x.score >= sorted[0].score {
    } else {
      var rest := Insert(x, sorted[1..]);
      InsertOrdered(x, sorted[1..]);
      forall k | 0 <= k < |rest| ensures rest[k].score <= sorted[0].score {
        assert rest[k] in multiset(rest);
        if rest[k] != x {
          assert rest[k] in multiset(sorted[1..]);
          var j :| 0 <= j < |sorted[1..]| && sorted[1..][j] == rest[k];
          assert sorted[j + 1] == rest[k];
        }
      }
      assert Insert(x, sorted) == [sorted[0]] + rest;
    }
  }

  /** `sorted(rows, key=lambda r: r.score, reverse=True)`. */
  function SortDesc(rows: seq<Row>): (r: seq<Row>)
    ensures multiset(r) == multiset(rows)
    ensures |r| == |rows|
    ensures NonIncreasing(r)
  {
    if rows == [] then []
    else
      assert rows == [rows[0]] + rows[1..];
      InsertOrdered(rows[0], SortDesc(rows[1..]));
      Insert(rows[0], SortDesc(rows[1..]))
  }

  lemma {:induction false} WithScoreAppend(a: seq<Row>, b: seq<Row>, v: real)
    ensures WithScore(a + b, v) == WithScore(a, v) + WithScore(b, v)
  {
    if a == [] {
      assert a + b == b;
    } else {
      assert (a + b)[0] == a[0] && (a + b)[1..] == a[1..] + b;
      WithScoreAppend(a[1..], b, v);
    }
  }

  /** Inserting `x` puts it ahead of the rows of equal score already there. */
  lemma {:induction false} InsertStable(x: Row, sorted: seq<Row>, v: real)
    ensures WithScore(Insert(x, sorted), v) == (if x.score == v then [x] else []) + WithScore(sorted, v)
  {
    if sorted == [] || x.score >= sorted[0].score {
      assert ([x] + sorted)[1..] == sorted;
    } else {
      var rest := Insert(x, sorted[1..]);
      InsertStable(x, sorted[1..], v);
      assert ([sorted[0]] + rest)[1..] == rest;
    }
  }

  /** Rows of equal score keep their input order: for every score value, the
      rows carrying it appear in the ranking exactly as in the input. */
  lemma {:induction false} SortDescStable(rows: seq<Row>, v: real)
    ensures WithScore(SortDesc(rows), v) == WithScore(rows, v)
  {
    if rows != [] {
      SortDescStable(rows[1..], v);
      InsertStable(rows[0], SortDesc(rows[1..]), v);
    }
  }

  lemma {:induction false} WithScoreMember(rows: seq<Row>, v: real, i: nat)
    requires i < |rows| && rows[i].score == v
    ensures WithScore(rows, v) != []
  {
    if i > 0 {
      WithScoreMember(rows[1..], v, i - 1);
    }
  }

  lemma HasOwnGroup(rows: seq<Row>)
    requires rows != []
    ensures WithScore(rows, rows[0].score) != []
  {
  }

  lemma {:induction false} WithScoreHead(rows: seq<Row>)
    requires rows != []
    ensures WithScore(rows, rows[0].score) == [rows[0]] + WithScore(rows[1..], rows[0].score)
  {
  }

  lemma {:induction false} WithScoreElements(rows: seq<Row>, v: real, y: Row)
    requires y in WithScore(rows, v)
    ensures y in rows && y.score == v
  {
    if rows != [] {
      if y != rows[0] || rows[0].score != v {
        WithScoreElements(rows[1..], v, y);
      }
    }
  }

  /** SortDesc is the only ordering of the rows that is non-increasing and
      keeps every group of equal scores in input order; so it is exactly
      Python's stable sort with `reverse=True`. */
  lemma {:induction false} StableSortUnique(rows: seq<Row>, out: seq<Row>)
    requires NonIncreasing(out)
    requires forall v :: WithScore(out, v) == WithScore(rows, v)
    ensures out == SortDesc(rows)
  {
    var s := SortDesc(rows);
    forall v ensures WithScore(out, v) == WithScore(s, v) {
      SortDescStable(rows, v);
    }
    SameGroupsSame(out, s);
  }

  /** Two non-increasing sequences with the same groups start with the same
      row: each holds a row of the other's top score, so the top scores are
      equal, and each top group starts with its sequence's first row. */
  lemma HeadsMatch(p: seq<Row>, q: seq<Row>)
    requires p != [] && q != [] && NonIncreasing(p) && NonIncreasing(q)
    requires WithScore(p, p[0].score) == WithScore(q, p[0].score)
    requires WithScore(p, q[0].score) == WithScore(q, q[0].score)
    ensures p[0] == q[0]
  {
    var m, m' := p[0].score, q[0].score;
    HasOwnGroup(p);
    HasOwnGroup(q);
    WithScoreElements(q, m, WithScore(q, m)[0]);
    WithScoreElements(p, m', WithScore(p, m')[0]);
    assert m == m';
    WithScoreHead(p);
    WithScoreHead(q);
  }

  /** Removing the same first row from both sides keeps every group equal. */
  lemma TailGroups(p: seq<Row>, q: seq<Row>, v: real)
    requires p != [] && q != [] && p[0] == q[0]
    requires WithScore(p, v) == WithScore(q, v)
    ensures WithScore(p[1..], v) == WithScore(q[1..], v)
  {
    var head := if p[0].score == v then [p[0]] else [];
    assert WithScore(p[1..], v) == WithScore(p, v)[|head|..];
    assert WithScore(q[1..], v) == WithScore(q, v)[|head|..];
  }

  lemma {:induction false} SameGroupsSame(p: seq<Row>, q: seq<Row>)
    requires NonIncreasing(p) && NonIncreasing(q)
    requires forall v :: WithScore(p, v) == WithScore(q, v)
    ensures p == q
    decreases |p| + |q|
  {
    if p == [] && q == [] {
    } else if p == [] || q == [] {
      HasOwnGroup(if p == [] then q else p);
      assert false;
    } else {
      HeadsMatch(p, q);
      forall v ensures WithScore(p[1..], v) == WithScore(q[1..], v) {
        TailGroups(p, q, v);
      }
      SameGroupsSame(p[1..], q[1..]);
      assert p == [p[0]] + p[1..] && q == [q[0]] + q[1..];
    }
  }


  /** The ranking of the candidates whose texts were scored: one row per
      (agent, text, score) triple, highest score first. */
  function Rank(agents: seq<string>, texts: seq<string>, scores: seq<real>): (r: seq<Row>)
    ensures multiset(r) == multiset(Zip3(agents, texts, scores))
    ensures NonIncreasing(r)
  {
    SortDesc(Zip3(agents, texts, scores))
  }
}
