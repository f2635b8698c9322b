/** `pick_pair`: two responses drawn without replacement. */
module Utils {
  import opened Wrappers
  import opened Dicts
  import opened State

  /** The positions `random.sample(items, 2)` returns among `n` items. The
      random source is the pair `draw`: the first number picks one of the `n`
      positions, the second one of the `n - 1` positions left. */
  function SampleTwo(n: nat, draw: (nat, nat)): (r: (nat, nat))
    requires n >= 2
    ensures r.0 < n && r.1 < n && r.0 != r.1
  {
    var i := draw.0 % n;
    var j := draw.1 % (n - 1);
    (i, if j == i then n - 1 else j)
  }

  lemma ModBelow(a: nat, m: nat)
    requires a < m
    ensures a % m == a
  {
  }

  /** Every ordered choice of two different positions can be drawn. */
  lemma SampleTwoCovers(n: nat, i: nat, j: nat)
    requires i < n && j < n && i != j
    ensures exists draw :: SampleTwo(n, draw) == (i, j)
  {
    var second := if j == n - 1 then i else j;
    ModBelow(i, n);
    ModBelow(second, n - 1);
    assert SampleTwo(n, (i, second)) == (i, j);
  }

  /** The `ValueError` text of `random.sample` when the population is too small. */
  const SampleError := "Sample larger than population or is negative"

  /** `pick_pair(responses)`: two entries of the dictionary with different
      keys, or the sampling error when there are fewer than two entries. */
  function PickPair(responses: Dict<string>, draw: (nat, nat)): (r: Result<Pair, string>)
    ensures r.Failure? <==> |responses| < 2
    ensures r.Failure? ==> r.error == SampleError
    ensures r.Success? ==> r.value.a in responses && r.value.b in responses
    ensures r.Success? ==> r.value.a.0 != r.value.b.0
  {
    if |responses| < 2 then Failure(SampleError)
    else
      var (i, j) := SampleTwo(|responses|, draw);
      Success(Pair(responses[i], responses[j]))
  }

  /** Any two different entries, in either order, can come out as the pair. */
  lemma PickPairCovers(responses: Dict<string>, i: nat, j: nat)
    requires i < |responses| && j < |responses| && i != j
    ensures exists draw :: PickPair(responses, draw) == Success(Pair(responses[i], responses[j]))
  {
    SampleTwoCovers(|responses|, i, j);
    var draw :| SampleTwo(|responses|, draw) == (i, j);
    assert PickPair(responses, draw) == Success(Pair(responses[i], responses[j]));
  }
}
