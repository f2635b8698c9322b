/** The Streamlit front end's round logic: the session keeps the generated
    responses, the compared pair and a "new generation" flag across reruns;
    the Generate button refreshes the responses, each rerun makes sure a pair
    is chosen, and Submit stores the feedback and the reranker's scores. */
module Ui {
  import opened Wrappers
  import opened Text
  import opened Dicts
  import opened Ranking
  import opened Store
  import opened State
  import opened Agents
  import Nodes

  /** The `str(s).replace('.', '', 1).isdigit()` test on a score's printed
      form. */
  predicate LooksNumeric(form: string) {
    IsDigits(RemoveFirst(form, '.'))
  }

  predicate DigitsAndDots(s: string) {
    forall k :: 0 <= k < |s| ==> IsDigit(s[k]) || s[k] == '.'
  }

  function Dots(s: string): nat {
    multiset(s)['.']
  }

  /** A form passes exactly when it is made of digits and at most one dot,
      with at least one digit. */
  lemma LooksNumericExactly(form: string)
    ensures LooksNumeric(form) <==> DigitsAndDots(form) && Dots(form) <= 1 && |form| > Dots(form)
  {
    var r := RemoveFirst(form, '.');
    var removed := if '.' in form then 1 else 0;
    assert |multiset(r)| == |multiset(form)| - removed;
    assert |r| == |form| - removed;
    assert multiset(r)['.'] == Dots(form) - removed;
    assert ('.' in form) == (Dots(form) > 0);
    forall c | c != '.' ensures multiset(r)[c] == multiset(form)[c] {
    }
    if LooksNumeric(form) {
      assert '.' !in multiset(r);
      forall k | 0 <= k < |form| ensures IsDigit(form[k]) || form[k] == '.' {
        if form[k] != '.' {
          assert form[k] in multiset(form);
          assert form[k] in multiset(r);
        }
      }
    }
    if DigitsAndDots(form) && Dots(form) <= 1 && |form| > Dots(form) {
      forall k | 0 <= k < |r| ensures IsDigit(r[k]) {
        assert r[k] in multiset(r);
        assert r[k] in multiset(form);
        if r[k] == '.' {
          assert multiset(r)['.'] == 0;
        }
      }
    }
  }

  /** A negative number, an exponent form or a second dot never passes. */
  lemma SignExponentOrSecondDotFails(form: string)
    requires '-' in form || 'e' in form || Dots(form) >= 2
    ensures !LooksNumeric(form)
  {
    LooksNumericExactly(form);
  }

  /** The coerced score: the value when its form passes, else 0.0. */
  function Coerce(s: Score): (v: real)
    ensures LooksNumeric(s.form) ==> v == s.value
    ensures !LooksNumeric(s.form) ==> v == 0.0
  {
    if LooksNumeric(s.form) then s.value else 0.0
  }

  function CoercedValues(scores: seq<Score>): (vs: seq<real>)
    ensures |vs| == |scores|
    ensures forall i :: 0 <= i < |scores| ==> vs[i] == Coerce(scores[i])
  {
    seq(|scores|, i requires 0 <= i < |scores| => Coerce(scores[i]))
  }

  /** The front end's ranking: coerced scores, then the stable descending sort. */
  function UiRank(query: string, responses: Dict<string>, scorer: Scorer): (r: seq<Row>)
    ensures NonIncreasing(r)
    ensures multiset(r) == multiset(Zip3(Keys(responses), Values(responses), CoercedValues(scorer(query, Values(responses)))))
  {
    Rank(Keys(responses), Values(responses), CoercedValues(scorer(query, Values(responses))))
  }

  /** When every score's form passes, the front end ranks exactly as the
      graph's rerank node does. */
  lemma UiRankAgreesWithNode(query: string, responses: Dict<string>, scorer: Scorer)
    requires var scores := scorer(query, Values(responses));
      forall i :: 0 <= i < |scores| ==> LooksNumeric(scores[i].form)
    ensures UiRank(query, responses, scorer) == Nodes.RankResponses(query, responses, scorer)
  {
    var scores := scorer(query, Values(responses));
    assert CoercedValues(scores) == ValuesOf(scores);
  }

  /** Rows of equal coerced score keep the order of the responses. */
  lemma UiRankStable(query: string, responses: Dict<string>, scorer: Scorer, v: real)
    ensures WithScore(UiRank(query, responses, scorer), v)
      == WithScore(Zip3(Keys(responses), Values(responses), CoercedValues(scorer(query, Values(responses)))), v)
  {
    SortDescStable(Zip3(Keys(responses), Values(responses), CoercedValues(scorer(query, Values(responses)))), v);
  }

  /** `"A" if choice == "A" else "B"`. */
  function UiPreferred(choice: string): (p: string)
    ensures p == "A" || p == "B"
    ensures p == "A" <==> choice == "A"
  {
    if choice == "A" then "A" else "B"
  }

  /** Draw `k` is the first after draw 0 to land elsewhere. */
  predicate FirstDiffers(rng: nat -> nat, n: nat, k: nat)
    requires n > 0
  {
    forall j: nat :: 1 <= j < k ==> rng(j) % n == rng(0) % n
  }

  /** Two entries with different names, by `random.choice` and redrawing the
      second until its name differs. `rng(k)` is the `k`-th draw. */
  method ChooseByRetry(items: Dict<string>, rng: nat -> nat) returns (p: Pair)
    requires |items| >= 2
    requires exists k: nat :: 1 <= k && rng(k) % |items| != rng(0) % |items|
    ensures p.a in items && p.b in items && p.a.0 != p.b.0
    ensures p.a == items[rng(0) % |items|]
    ensures exists k: nat :: 1 <= k && p.b == items[rng(k) % |items|] && FirstDiffers(rng, |items|, k)
  {
    var n := |items|;
    ghost var last: nat :| 1 <= last && rng(last) % n != rng(0) % n;
    var a := items[rng(0) % n];
    var k: nat := 1;
    var b := items[rng(k) % n];
    while b.0 == a.0
      invariant 1 <= k <= last
      invariant b == items[rng(k) % n]
      invariant forall j: nat :: 1 <= j < k ==> rng(j) % n == rng(0) % n
      decreases last - k
    {
      assert rng(k) % n == rng(0) % n;
      k := k + 1;
      b := items[rng(k) % n];
    }
    p := Pair(a, b);
  }

  class SessionState {
    var responses: Option<Dict<string>>
    var pair: Option<Pair>
    var newGeneration: bool

    /** A new browser session holds nothing. */
    constructor ()
      ensures responses.None? && pair.None? && !newGeneration
    {
      responses, pair, newGeneration := None, None, false;
    }

    /** The comparison section shows and a pair must be chosen: there are
        responses, and no pair yet or a fresh generation. */
    predicate NeedsPair()
      reads this
    {
      responses.Some? && responses.value != [] && (pair.None? || newGeneration)
    }

    /** The Generate button: responses are generated and stored, one document
        per entry, and the next rerun picks a new pair. */
    method Generate(query: string, agent: Agent, store: DocumentStore)
      modifies this, store
      ensures responses == Some(Generated(query, DefaultStyles, agent))
      ensures newGeneration && pair == old(pair)
      ensures store.responses == old(store.responses) + ResponseDocs(query, responses.value)
      ensures store.feedback == old(store.feedback) && store.rerankerScores == old(store.rerankerScores)
      ensures store.evaluations == old(store.evaluations)
    {
      var texts := GenerateAll(query, DefaultStyles, agent);
      store.LogResponses(query, texts);
      responses := Some(texts);
      newGeneration := true;
    }

    /** Each rerun: a pair is picked only when one is needed, and picking
        clears the flag, so later reruns keep the same pair. */
    method EnsurePair(rng: nat -> nat)
      modifies this
      requires NeedsPair() ==> |responses.value| >= 2
      requires NeedsPair() ==> exists k: nat :: 1 <= k && rng(k) % |responses.value| != rng(0) % |responses.value|
      ensures responses == old(responses)
      ensures !NeedsPair()
      ensures !old(NeedsPair()) ==> pair == old(pair) && newGeneration == old(newGeneration)
      ensures old(NeedsPair()) ==>
        && pair.Some? && !newGeneration
        && pair.value.a in responses.value && pair.value.b in responses.value
        && pair.value.a.0 != pair.value.b.0
    {
      if NeedsPair() {
        var p := ChooseByRetry(responses.value, rng);
        pair := Some(p);
        newGeneration := false;
      }
    }

    /** The Submit button: one feedback document for the shown pair with the
        choice mapped to A or B, then one score document per response in
        ranked order. */
    method Submit(query: string, choice: string, scorer: Scorer, store: DocumentStore) returns (ranked: seq<Row>)
      requires responses.Some? && pair.Some?
      modifies store
      ensures var p := pair.value;
        store.feedback == old(store.feedback) + [FeedbackFor(query, p.a.0, p.a.1, p.b.0, p.b.1, Some(UiPreferred(choice)))]
      ensures ranked == UiRank(query, responses.value, scorer)
      ensures store.rerankerScores == old(store.rerankerScores) + ScoreDocs(query, ranked)
      ensures store.responses == old(store.responses) && store.evaluations == old(store.evaluations)
    {
      var p := pair.value;
      var preferred := if choice == "A" then "A" else "B";
      store.StoreFeedback(FeedbackFor(query, p.a.0, p.a.1, p.b.0, p.b.1, Some(preferred)));
      var agents := Keys(responses.value);
      var texts := Values(responses.value);
      var scores := scorer(query, texts);
      ranked := Rank(agents, texts, CoercedValues(scores));
      store.LogScores(query, ranked);
    }
  }
}
