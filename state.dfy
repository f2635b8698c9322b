/** The round state the graph nodes share (`GraphState`). */
module State {
  import opened Wrappers
  import opened Dicts
  import opened Ranking

  /** The compared pair: two `(name, text)` tuples, A first. */
  datatype Pair = Pair(a: (string, string), b: (string, string))

  /** A snapshot of the state's fields, as `model_dump()` gives them and as
      `invoke` takes and returns them. `metadata` is never read or written by
      the core; its values are kept as strings. */
  datatype StateValue = StateValue(
    query: string,
    responses: Dict<string>,
    pair: Option<Pair>,
    humanChoice: Option<string>,
    ranked: Option<seq<Row>>,
    awaitingHuman: bool,
    metadata: Dict<string>)

  /** `GraphState(query=query).model_dump()`. */
  function Initial(query: string): StateValue {
    StateValue(query, [], None, None, None, false, [])
  }

  class GraphState {
    var query: string
    var responses: Dict<string>
    var pair: Option<Pair>
    var humanChoice: Option<string>
    var ranked: Option<seq<Row>>
    var awaitingHuman: bool
    var metadata: Dict<string>

    function Value(): StateValue
      reads this
    {
      StateValue(query, responses, pair, humanChoice, ranked, awaitingHuman, metadata)
    }

    /** `GraphState(query=query)`: the query is the only required field. */
    constructor (query: string)
      ensures this.query == query
      ensures responses == [] && metadata == []
      ensures pair.None? && humanChoice.None? && ranked.None?
      ensures !awaitingHuman
      ensures Value() == Initial(query)
    {
      this.query := query;
      responses, pair, humanChoice, ranked := [], None, None, None;
      awaitingHuman, metadata := false, [];
    }

    /** The state object the graph runtime builds from an input dictionary. */
    constructor FromValue(v: StateValue)
      ensures Value() == v
    {
      query, responses, pair, humanChoice := v.query, v.responses, v.pair, v.humanChoice;
      ranked, awaitingHuman, metadata := v.ranked, v.awaitingHuman, v.metadata;
    }
  }
}
