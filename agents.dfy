/** The three code-writing agents: per-style endpoint and prompt selection,
    the offline mock answers, the shape-driven parsing of the inference
    endpoint's reply, and the fan-out that names each answer
    `Agent-{i+1}-{style}`. The HTTP exchange is a parameter. */
module Agents {
  import opened Wrappers
  import opened Text
  import opened Dicts

  /** The one inference endpoint all three styles are configured with. */
  const HfEndpoint := "https://xiiukibz8hcuvjog.us-east-1.aws.endpoints.huggingface.cloud"

  /** `HF_MODELS`. */
  const HfModels: map<string, string> := map["concise" := HfEndpoint, "explainer" := HfEndpoint, "optimizer" := HfEndpoint]

  /** The styles `generate_all` uses when none are given. */
  const DefaultStyles: seq<string> := ["concise", "explainer", "optimizer"]

  predicate KnownStyle(style: string) {
    style == "concise" || style == "explainer" || style == "optimizer"
  }

  /** The three mock answers spelled out as a prefix, the style and a suffix. */
  lemma MockSpelling()
    ensures "# Mock: concise response" == "# Mock: " + "concise" + " response"
    ensures "# Mock: explainer response" == "# Mock: " + "explainer" + " response"
    ensures "# Mock: optimizer response" == "# Mock: " + "optimizer" + " response"
  {
  }

  /** `_mock(style)`: the offline answer. */
  function Mock(style: string): (r: string)
    ensures KnownStyle(style) ==> r == "# Mock: " + style + " response"
    ensures !KnownStyle(style) ==> r == "# Mock: generic response"
  {
    MockSpelling();
    if style == "concise" then "# Mock: concise response"
    else if style == "explainer" then "# Mock: explainer response"
    else if style == "optimizer" then "# Mock: optimizer response"
    else "# Mock: generic response"
  }

  /** `HF_MODELS.get(style, HF_MODELS["concise"])`: every style, known or
      not, reaches the same endpoint. */
  function ModelUrl(style: string): (url: string)
    ensures url == HfEndpoint
  {
    if style in HfModels then HfModels[style] else HfModels["concise"]
  }

  /** The three prompt templates. */
  datatype Template = ConciseFixer | Explainer | Optimizer

  /** `CONCISE_FIXER`, `EXPLAINER` and `OPTIMIZER` up to their
      `User request:` slot. */
  const ConcisePreamble :=
    "You are a professional Python developer. "
    + "Write only one clean, correct, and efficient Python solution that directly fulfills the user's request. "
    + "Include all necessary imports and function definitions. "
    + "Output only a single, complete code block — no explanations or alternative methods. "
    + "Ensure the solution is practical, idiomatic, and ready to run.\n\n"

  const ExplainerPreamble :=
    "You are an experienced Python instructor. "
    + "Write one complete and correct Python program that fully addresses the user's request. "
    + "Explain your reasoning through concise inline comments in the code itself, "
    + "teaching the logic behind each major step. "
    + "At the end of the code, include a short summary comment that clearly explains "
    + "both the time and space complexity of the solution. "
    + "Do not provide multiple approaches — just the best one for learning purposes.\n\n"

  const OptimizerPreamble :=
    "You are a Python performance engineer specializing in algorithmic optimization. "
    + "Write one highly optimized Python solution that achieves the best possible time and space complexity "
    + "while maintaining readability. "
    + "Use advanced techniques or data structures only when they provide measurable efficiency gains. "
    + "At the end of the code, include a brief comment summarizing both time and space complexity, "
    + "and the key optimization decisions made. "
    + "Do not explain in prose or offer multiple solutions — output only one complete code block.\n\n"

  function Preamble(t: Template): string {
    match t
    case ConciseFixer => ConcisePreamble
    case Explainer => ExplainerPreamble
    case Optimizer => OptimizerPreamble
  }

  /** A template's text with the query in its slot. */
  function Fill(preamble: string, query: string): string {
    preamble + "User request:\n" + query + "\n"
  }

  lemma FillShape(preamble: string, query: string)
    ensures StartsWith(Fill(preamble, query), preamble)
    ensures EndsWith(Fill(preamble, query), "User request:\n" + query + "\n")
  {
    assert Fill(preamble, query) == preamble + ("User request:\n" + query + "\n");
  }

  /** `template.format(query=query)`. */
  function Format(t: Template, query: string): string {
    Fill(Preamble(t), query)
  }

  /** The template `make_agent` picks: an unknown style gets the concise one. */
  function TemplateFor(style: string): (t: Template)
    ensures t == Explainer <==> style == "explainer"
    ensures t == Optimizer <==> style == "optimizer"
    ensures t == ConciseFixer <==> style != "explainer" && style != "optimizer"
  {
    if style == "explainer" then Explainer
    else if style == "optimizer" then Optimizer
    else ConciseFixer
  }

  /** The prompt sent for `query` by the agent of `style`. */
  function PromptFor(style: string, query: string): (p: string)
    ensures p == Preamble(TemplateFor(style)) + "User request:\n" + query + "\n"
    ensures EndsWith(p, "User request:\n" + query + "\n")
    ensures StartsWith(p, Preamble(TemplateFor(style)))
    ensures !KnownStyle(style) ==> p == Format(ConciseFixer, query)
  {
    FillShape(Preamble(TemplateFor(style)), query);
    Format(TemplateFor(style), query)
  }

  /** A decoded JSON value, as `r.json()` returns it. A float carries the
      text Python prints for it. */
  datatype Json =
    | JStr(s: string)
    | JInt(i: int)
    | JFloat(repr: string)
    | JBool(b: bool)
    | JNull
    | JList(items: seq<Json>)
    | JObj(fields: Dict<Json>)

  /** The Python type name of a decoded value. */
  function TypeName(x: Json): string {
    match x
    case JStr(_) => "str"
    case JInt(_) => "int"
    case JFloat(_) => "float"
    case JBool(_) => "bool"
    case JNull => "NoneType"
    case JList(_) => "list"
    case JObj(_) => "dict"
  }

  /** `repr(x)`; strings are shown in single quotes. */
  function PyRepr(x: Json): string
    decreases x
  {
    match x
    case JStr(s) => "'" + s + "'"
    case JInt(i) => IntDecimal(i)
    case JFloat(f) => f
    case JBool(b) => if b then "True" else "False"
    case JNull => "None"
    case JList(items) =>
      "[" + Join(", ", seq(|items|, k requires 0 <= k < |items| => PyRepr(items[k]))) + "]"
    case JObj(fields) =>
      "{" + Join(", ", seq(|fields|, k requires 0 <= k < |fields| => "'" + fields[k].0 + "': " + PyRepr(fields[k].1))) + "}"
  }

  /** `str(x)`. */
  function PyStr(x: Json): string {
    if x.JStr? then x.s else PyRepr(x)
  }

  const TextKey := "generated_text"

  /** `key in x`: substring, list element or dictionary key; anything else
      raises `TypeError`. */
  function PyIn(key: string, x: Json): Result<bool, string> {
    match x
    case JStr(s) => Success(ContainsSub(s, key))
    case JList(items) => Success(JStr(key) in items)
    case JObj(fields) => Success(key in Keys(fields))
    case _ => Failure("argument of type '" + TypeName(x) + "' is not iterable")
  }

  /** `x[key]` with a string key. */
  function PySubscript(x: Json, key: string): Result<Json, string> {
    match x
    case JObj(fields) =>
      (match Get(fields, key)
       case Some(v) => Success(v)
       case None => Failure("'" + key + "'"))
    case JStr(_) => Failure("string indices must be integers, not 'str'")
    case JList(_) => Failure("list indices must be integers or slices, not str")
    case _ => Failure("'" + TypeName(x) + "' object is not subscriptable")
  }

  /** `v.strip()`; only strings have it. */
  function PyStrip(v: Json): Result<string, string> {
    if v.JStr? then Success(Strip(v.s))
    else Failure("'" + TypeName(v) + "' object has no attribute 'strip'")
  }

  /** The text under `generated_text` when `x` is an object holding a string there. */
  function TextField(x: Json): Option<string> {
    if x.JObj? then
      var v := Get(x.fields, TextKey);
      if v.Some? && v.value.JStr? then Some(v.value.s) else None
    else None
  }

  predicate NonEmptyList(x: Json) {
    x.JList? && |x.items| > 0
  }

  predicate ObjWithText(x: Json) {
    x.JObj? && TextKey in Keys(x.fields)
  }

  predicate Scalar(x: Json) {
    x.JInt? || x.JFloat? || x.JBool? || x.JNull?
  }

  /** The reply-shape dispatch of `call_hf`: the text it returns, or the
      message of the exception raised while reading the reply. */
  function ParseReply(data: Json): (r: Result<string, string>)
  {
    if NonEmptyList(data) then
      match PyIn(TextKey, data.items[0])
      case Failure(e) => Failure(e)
      case Success(found) =>
        if found then
          match PySubscript(data.items[0], TextKey)
          case Failure(e) => Failure(e)
          case Success(v) => PyStrip(v)
        else Success(PyStr(data))
    else if ObjWithText(data) then
      PyStrip(Get(data.fields, TextKey).value)
    else Success(PyStr(data))
  }

  /** A non-empty list whose first item holds a text yields that text, stripped. */
  lemma ReplyListText(data: Json)
    requires NonEmptyList(data) && TextField(data.items[0]).Some?
    ensures ParseReply(data) == Success(Strip(TextField(data.items[0]).value))
  {
    var x := data.items[0];
    var v := Get(x.fields, TextKey);
    assert PyIn(TextKey, x) == Success(true);
    assert PySubscript(x, TextKey) == Success(v.value);
  }

  /** An object holding a text yields that text, stripped. */
  lemma ReplyObjectText(data: Json)
    requires TextField(data).Some?
    ensures ParseReply(data) == Success(Strip(TextField(data).value))
  {
  }

  /** Any other shape without the key is printed with `str`. */
  lemma ReplyOther(data: Json)
    requires !NonEmptyList(data) && !ObjWithText(data)
    ensures ParseReply(data) == Success(PyStr(data))
  {
  }

  /** A list whose first item is a number, a boolean or null raises. */
  lemma ReplyScalarItem(data: Json)
    requires NonEmptyList(data) && Scalar(data.items[0])
    ensures ParseReply(data) == Failure("argument of type '" + TypeName(data.items[0]) + "' is not iterable")
  {
  }

  /** An object whose `generated_text` is not a string raises on `strip`. */
  lemma ReplyObjectNotText(data: Json)
    requires ObjWithText(data) && TextField(data).None?
    ensures ParseReply(data).Failure?
  {
  }

  /** What the HTTP exchange gives back: a failure (connection, status,
      undecodable body) with its message, or the decoded JSON body. */
  datatype HttpResult = HttpFailed(reason: string) | HttpJson(data: Json)

  /** The HTTP exchange: endpoint and prompt to reply. */
  type Http = (string, string) -> HttpResult

  function ErrorCalling(url: string, reason: string): string {
    "# [Error calling " + url + ": " + reason + "]"
  }

  /** `call_hf(model_url, prompt)` on the reply `reply`: it never raises;
      every failure turns into an `# [Error calling ...]` text. */
  function CallHf(url: string, reply: HttpResult): (r: string)
    ensures reply.HttpFailed? ==> r == ErrorCalling(url, reply.reason)
    ensures reply.HttpJson? && ParseReply(reply.data).Success? ==> r == ParseReply(reply.data).value
    ensures reply.HttpJson? && ParseReply(reply.data).Failure? ==> r == ErrorCalling(url, ParseReply(reply.data).error)
    ensures (reply.HttpFailed? || ParseReply(reply.data).Failure?) ==> StartsWith(r, "# [Error calling ")
  {
    match reply
    case HttpFailed(e) => ErrorCalling(url, e)
    case HttpJson(data) =>
      match ParseReply(data)
      case Success(t) => t
      case Failure(e) => ErrorCalling(url, e)
  }

  /** The agent of `style` answering `query`; `envToken` is the raw value of
      the token variable (stripped before use). Without a token the mock
      answer is returned and no request is made. */
  function AgentCall(style: string, query: string, envToken: string, http: Http): (r: string)
    ensures AllSpace(envToken) ==> r == Mock(style)
    ensures !AllSpace(envToken) ==> r == CallHf(HfEndpoint, http(HfEndpoint, PromptFor(style, query)))
  {
    var token := Strip(envToken);
    var url := ModelUrl(style);
    if token != "" && url != "" then CallHf(url, http(url, PromptFor(style, query)))
    else Mock(style)
  }

  /** An agent's `invoke`: it returns a text or raises with a message. */
  datatype AgentOutcome = Returned(text: string) | Raised(message: string)

  /** The agents as `generate_all` sees them: style and query to outcome. */
  type Agent = (string, string) -> AgentOutcome

  /** The agents `make_agent` builds; they never raise. */
  function HfAgent(envToken: string, http: Http): Agent {
    (style: string, query: string) => Returned(AgentCall(style, query, envToken, http))
  }

  /** `f"Agent-{i+1}-{s}"`. */
  function AgentKey(i: nat, style: string): string {
    "Agent-" + Decimal(i + 1) + "-" + style
  }

  /** In `d + "-" + s` with `d` all digits, the first dash is right after `d`. */
  lemma DashPosition(d: string, s: string)
    requires IsDigits(d)
    ensures forall k :: 0 <= k <= |d| ==> ((d + "-" + s)[k] == '-' <==> k == |d|)
  {
  }

  lemma DigitsDashSplit(d1: string, s1: string, d2: string, s2: string)
    requires IsDigits(d1) && IsDigits(d2)
    requires d1 + "-" + s1 == d2 + "-" + s2
    ensures d1 == d2 && s1 == s2
  {
    var x := d1 + "-" + s1;
    DashPosition(d1, s1);
    DashPosition(d2, s2);
    assert x[|d1|] == '-' && x[|d2|] == '-';
    assert |d1| == |d2|;
    assert d1 == x[..|d1|] && d2 == x[..|d2|];
    assert s1 == x[|d1| + 1..] && s2 == x[|d2| + 1..];
  }

  /** Different positions, or different styles, get different keys; so the
      keys are distinct even when a style name repeats. */
  lemma AgentKeyInjective(i: nat, s: string, j: nat, t: string)
    requires AgentKey(i, s) == AgentKey(j, t)
    ensures i == j && s == t
  {
    var p := "Agent-";
    assert AgentKey(i, s) == p + (Decimal(i + 1) + "-" + s);
    assert AgentKey(j, t) == p + (Decimal(j + 1) + "-" + t);
    assert Decimal(i + 1) + "-" + s == AgentKey(i, s)[|p|..];
    DigitsDashSplit(Decimal(i + 1), s, Decimal(j + 1), t);
    DecimalInjective(i + 1, j + 1);
  }

  /** The text stored for a style: the agent's answer, or the failure marker
      when the agent raised. */
  function Captured(style: string, outcome: AgentOutcome): string {
    match outcome
    case Returned(t) => t
    case Raised(e) => "# [Agent " + style + " failed: " + e + "]"
  }

  /** `results` after the first `n` styles of the loop in `generate_all`. */
  function GenerateLoop(query: string, styles: seq<string>, agent: Agent, n: nat): Dict<string>
    requires n <= |styles|
  {
    if n == 0 then []
    else
      var s := styles[n - 1];
      Put(GenerateLoop(query, styles, agent, n - 1), AgentKey(n - 1, s), Captured(s, agent(s, query)))
  }

  /** The entry `generate_all` stores for the `i`-th style. */
  function Entry(query: string, styles: seq<string>, agent: Agent, i: nat): (string, string)
    requires i < |styles|
  {
    (AgentKey(i, styles[i]), Captured(styles[i], agent(styles[i], query)))
  }

  lemma FreshKey(query: string, styles: seq<string>, agent: Agent, n: nat)
    requires n < |styles|
    requires |GenerateLoop(query, styles, agent, n)| == n
    requires forall i :: 0 <= i < n ==> GenerateLoop(query, styles, agent, n)[i] == Entry(query, styles, agent, i)
    ensures AgentKey(n, styles[n]) !in Keys(GenerateLoop(query, styles, agent, n))
  {
    var prev := GenerateLoop(query, styles, agent, n);
    if AgentKey(n, styles[n]) in Keys(prev) {
      var i :| 0 <= i < |prev| && Keys(prev)[i] == AgentKey(n, styles[n]);
      AgentKeyInjective(i, styles[i], n, styles[n]);
      assert false;
    }
  }

  lemma {:induction false} GenerateLoopEntries(query: string, styles: seq<string>, agent: Agent, n: nat)
    requires n <= |styles|
    ensures |GenerateLoop(query, styles, agent, n)| == n
    ensures forall i :: 0 <= i < n ==> GenerateLoop(query, styles, agent, n)[i] == Entry(query, styles, agent, i)
  {
    if n > 0 {
      GenerateLoopEntries(query, styles, agent, n - 1);
      FreshKey(query, styles, agent, n - 1);
      assert GenerateLoop(query, styles, agent, n) == GenerateLoop(query, styles, agent, n - 1) + [Entry(query, styles, agent, n - 1)];
    }
  }

  /** `generate_all(query, styles)`: one entry per style, in style order,
      keyed `Agent-{i+1}-{style}`; each entry depends only on its own
      style's outcome, so one agent's failure leaves the others untouched. */
  function Generated(query: string, styles: seq<string>, agent: Agent): (r: Dict<string>)
    ensures |r| == |styles|
    ensures forall i :: 0 <= i < |styles| ==> r[i] == (AgentKey(i, styles[i]), Captured(styles[i], agent(styles[i], query)))
  {
    GenerateLoopEntries(query, styles, agent, |styles|);
    GenerateLoop(query, styles, agent, |styles|)
  }

  /** The loop of `generate_all`, with its per-style `try`/`except`. */
  method GenerateAll(query: string, styles: seq<string>, agent: Agent) returns (results: Dict<string>)
    ensures results == Generated(query, styles, agent)
  {
    results := [];
    for i := 0 to |styles|
      invariant results == GenerateLoop(query, styles, agent, i)
    {
      var s := styles[i];
      var text: string;
      match agent(s, query) {
        case Returned(t) => text := t;
        case Raised(e) => text := "# [Agent " + s + " failed: " + e + "]";
      }
      results := Put(results, AgentKey(i, s), text);
    }
  }

  /** The keys of the three default styles, spelled out. */
  lemma DefaultAgentKeys()
    ensures AgentKey(0, "concise") == "Agent-1-concise"
    ensures AgentKey(1, "explainer") == "Agent-2-explainer"
    ensures AgentKey(2, "optimizer") == "Agent-3-optimizer"
  {
    assert Decimal(1) == "1" && Decimal(2) == "2" && Decimal(3) == "3";
  }

  /** With the default styles the keys are the three fixed agent names. */
  lemma DefaultKeys(query: string, agent: Agent)
    ensures Keys(Generated(query, DefaultStyles, agent)) == ["Agent-1-concise", "Agent-2-explainer", "Agent-3-optimizer"]
  {
    var r := Generated(query, DefaultStyles, agent);
    DefaultAgentKeys();
    assert r[0].0 == AgentKey(0, "concise");
    assert r[1].0 == AgentKey(1, "explainer");
    assert r[2].0 == AgentKey(2, "optimizer");
  }

  /** With the agents `make_agent` builds, no entry is a failure marker:
      each is exactly that agent's answer. */
  lemma HfAgentsNeverFail(query: string, styles: seq<string>, envToken: string, http: Http, i: nat)
    requires i < |styles|
    ensures Generated(query, styles, HfAgent(envToken, http))[i].1 == AgentCall(styles[i], query, envToken, http)
  {
  }
}
