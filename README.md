# CodeRank round and feedback pipelines in Dafny

CodeRank asks several code-writing agents the same Python question. It shows a
human two of the answers side by side and records which one the human prefers.
A cross-encoder reranker then scores every answer. The recorded preferences
feed three offline pipelines:
- fine-tuning data for the reranker;
- a training script;
- an export to JSONL and CSV.

Two evaluations measure how often the reranker agrees with the humans.

This project models that core and proves what it does:

- **Generation** (`Agents`). Agents are called for the styles concise,
  explainer and optimizer. The prompt comes from the style's template. With
  no API token the agent answers with a mock reply. An HTTP reply is decoded
  as the generated text, and a failure becomes an error text. Results are
  keyed `Agent-<i+1>-<style>` for the style at position `i` (counting
  from 0), and an agent's exception is captured as text.
- **The round graph** (`State`, `Utils`, `Nodes`, `Graph`). The round is
  modelled as:
  - the shared `GraphState` object;
  - the five nodes, as methods that update that object and the document
    store in place;
  - the routing table;
  - `graph.invoke` as a loop over the table, proved equal to a functional
    run (`Graph.RunFrom`).

  An exception ends a run with its message. Documents stored before the
  exception stay stored.
- **The drivers.** The terminal driver (`Cli`) runs a round with two invokes
  and the choice set in between. The Streamlit session (`Ui`) covers
  generation, the stable pair, submitting a choice, and the coerced
  reranking.
- **The document store** (`Store`). Four append-only collections: responses,
  feedback, reranker scores and evaluation results.
- **Evaluation**:
  - `Evaluation` scores each stored pair again, derives the reranker's
    preference with ties as "Tie", computes match, accuracy and pair count,
    decides which correlation branch to take, and inserts the summary.
  - `EvaluateScript` is the offline validation loop, where ties count as
    "B" and a missing key aborts.
- **Curation**:
  - `Finetune` builds the training data (`prepare_training_data`) and
    decides whether training starts at all.
  - `TrainScript` builds the training script's examples.
  - `Export` covers the export's normalisation and its two synchronised
    outputs.
  - `Records` holds the shared "records per document, in order" shape.
  - `Curation` compares the three variants.

The outside world is passed in as parameters:
- the agents (`Agents.Agent`);
- the reranker (`Ranking.Scorer`, a function from a query and texts to
  scores);
- the HTTP reply;
- the API token;
- the random draws;
- the lines typed at the terminal;
- the feedback listing;
- whether an insert succeeds.

A score is a real value together with its printed form, because the
front end decides on the printed form.

Behaviour the model keeps exactly as the code has it:
- **Correlation guard.** The coefficients are computed when *either* score
  column has more than one distinct value; the guard is an `or`
  (`Evaluation.CorrelationOf`).
- **Tie match.** A "Tie" matches a stored preference of exactly "Tie"
  (`Evaluation.MatchIsExact`).
- **Fine-tuning filter.** The fine-tuning data also drops records without a
  preference (`Finetune.ExamplesFor`), while the training script treats them
  as "B" (`TrainScript.PosNeg`).
- **Missing pair.** Recording feedback with no pair raises Python's
  unpacking `TypeError` (`Nodes.NodeRecordFeedback`).
- **Pair draw.** The pair comes from `random.sample`; the draw is a
  parameter (`Utils.PickPair`).

## Model

| member | source | states |
|---|---|---|
| Agents.Mock | coderank_lc/agents/lc_agents.py:20-28 | the three known styles answer "# Mock: <style> response"; every other style answers the generic mock |
| Agents.ModelUrl | coderank_lc/agents/lc_agents.py:11-15 | every style, known or not, is served by the single Hugging Face endpoint |
| Agents.FillShape | coderank_lc/core/prompts.py:3-32 | a filled template starts with the template's preamble and ends with "User request:\n", the query and a newline |
| Agents.TemplateFor | coderank_lc/agents/lc_agents.py:67-71 | "explainer" picks the explainer template, "optimizer" the optimizer template, and every other style (concise or unknown) the concise-fixer template, each as an if-and-only-if |
| Agents.PromptFor | coderank_lc/agents/lc_agents.py:67-71 | the prompt is exactly the style's template preamble followed by the user request holding the query; so it starts with the preamble and ends with the request, and an unknown style gets the concise-fixer prompt |
| Agents.ReplyListText | coderank_lc/agents/lc_agents.py:49-50 | a non-empty list whose first item has "generated_text" yields that text, stripped |
| Agents.ReplyObjectText | coderank_lc/agents/lc_agents.py:51-52 | an object with a string "generated_text" yields it, stripped |
| Agents.ReplyOther | coderank_lc/agents/lc_agents.py:53-54 | any other reply yields its Python `str` form |
| Agents.ReplyScalarItem | coderank_lc/agents/lc_agents.py:49 | a list whose first item is a scalar raises "argument of type '<type>' is not iterable" |
| Agents.ReplyObjectNotText | coderank_lc/agents/lc_agents.py:51-52 | a "generated_text" that is not a string makes the `.strip()` raise |
| Agents.CallHf | coderank_lc/agents/lc_agents.py:31-56 | a failed request or a reply that raises while decoded becomes "# [Error calling <url>: <error>]"; a decoded reply is returned as decoded |
| Agents.AgentCall | coderank_lc/agents/lc_agents.py:59-81 | with a blank token the agent answers the mock for its style; otherwise it returns the endpoint's answer to the style's prompt |
| Agents.AgentKeyInjective | coderank_lc/agents/lc_agents.py:93 | two results get the same key `Agent-<i+1>-<style>` only for the same position and style |
| Agents.GenerateLoopEntries | coderank_lc/agents/lc_agents.py:90-95 | after n rounds of the loop the dictionary holds exactly the first n keyed results, in order, none overwritten |
| Agents.Generated | coderank_lc/agents/lc_agents.py:84-96 | one entry per style, the i-th keyed `Agent-<i+1>-<style>`, holding the agent's answer or "# [Agent <style> failed: <error>]" |
| Agents.GenerateAll | coderank_lc/agents/lc_agents.py:84-96 | the loop builds exactly the dictionary `Generated` describes |
| Agents.DefaultKeys | coderank_lc/agents/lc_agents.py:84 | the default styles give the keys Agent-1-concise, Agent-2-explainer, Agent-3-optimizer, in this order |
| Agents.HfAgentsNeverFail | coderank_lc/agents/lc_agents.py:59-81 | the Hugging Face agent never raises, so every entry is its answer and never a failure text |
| State.GraphState.constructor | coderank_lc/graph/state.py:4-11 | a new state holds only the query; every other field has its default |
| State.GraphState.FromValue | coderank_lc/graph/state.py:4-11 | the state built from an input dictionary holds exactly its values |
| Utils.SampleTwo | coderank_lc/core/utils.py:5 | two different positions among n |
| Utils.SampleTwoCovers | coderank_lc/core/utils.py:5 | every ordered pair of different positions can be drawn |
| Utils.PickPair | coderank_lc/core/utils.py:3-6 | fewer than two responses raise the sampling `ValueError`; otherwise two entries of the responses with different names |
| Utils.PickPairCovers | coderank_lc/core/utils.py:3-6 | any two different entries, in either order, can come out as the pair |
| Store.ResponseDocs | coderank_lc/graph/nodes.py:11-12 | one response document per generated entry, in dictionary order |
| Store.ScoreDocs | coderank_lc/ui/streamlit_app.py:97-103 | one score document per ranked row, in ranked order |
| Store.DocumentStore.constructor | coderank_lc/core/astra_store.py:64-65 | all collections start empty |
| Store.DocumentStore.StoreResponse | coderank_lc/core/astra_store.py:71-79 | appends the document to responses; no other collection changes |
| Store.DocumentStore.StoreFeedback | coderank_lc/core/astra_store.py:82-90 | appends the document to feedback; no other collection changes |
| Store.DocumentStore.StoreRerankerScore | coderank_lc/core/astra_store.py:93-103 | appends the document to reranker scores; no other collection changes |
| Store.DocumentStore.InsertEvaluation | coderank_lc/core/evaluation.py:98-102 | the summary is appended when the insert is accepted, and a rejected insert changes nothing |
| Store.DocumentStore.LogResponses | coderank_lc/graph/nodes.py:11-12 | the loop appends exactly the response documents of the dictionary, in order |
| Store.DocumentStore.LogScores | coderank_lc/ui/streamlit_app.py:97-103 | the loop appends exactly the score documents of the ranking, in order |
| Ranking.SortDesc | coderank_lc/graph/nodes.py:57-61 | the sorted rows are a permutation of the input in non-increasing score order |
| Ranking.SortDescStable | coderank_lc/graph/nodes.py:57-61 | rows of equal score keep their input order (Python's sort is stable) |
| Ranking.StableSortUnique | coderank_lc/graph/nodes.py:57-61 | any non-increasing arrangement that keeps the order within each score is exactly this sort |
| Ranking.Rank | coderank_lc/graph/nodes.py:54-61 | the ranking is a permutation of the zipped (agent, text, score) rows in non-increasing score order |
| Nodes.RankResponses | coderank_lc/graph/nodes.py:53-63 | non-increasing scores; with one score per response, one row per response holding its name, text and score |
| Nodes.RankResponsesStable | coderank_lc/graph/nodes.py:57-61 | responses with equal scores stay in dictionary order |
| Nodes.NodeGenerate | coderank_lc/graph/nodes.py:7-14 | the responses become the generated dictionary, its documents are stored in order, and nothing else changes |
| Nodes.NodePickPair | coderank_lc/graph/nodes.py:18-22 | raises exactly when fewer than two responses exist, changing nothing; otherwise sets a pair of two differently named responses and the waiting flag |
| Nodes.NodeWaitForHuman | coderank_lc/graph/nodes.py:26-33 | without a choice it sets the waiting flag and raises "HITL pause"; with one it only clears the flag |
| Nodes.NodeWaitForHumanReturning | coderank_lc/graph/graph.py:28-32 | the corrected pause: it never raises, and the flag records whether a choice is missing |
| Nodes.NodeRecordFeedback | coderank_lc/graph/nodes.py:38-49 | stores one feedback document with the pair's first entry as A, the second as B and the choice as given; without a pair it raises the unpacking error and stores nothing |
| Nodes.NodeRerank | coderank_lc/graph/nodes.py:53-63 | only `ranked` changes, to the ranking of all responses |
| Graph.After | coderank_lc/graph/graph.py:23-38 | every edge moves forward (the graph is acyclic); wait_human goes to record iff a choice is set; rerank ends |
| Graph.Execute | coderank_lc/graph/graph.py:17-21 | running a node on the state object gives the state, exit and stored documents of the functional node step |
| Graph.Advance | coderank_lc/graph/graph.py:17-38 | one node then its route: stops with the node's exception or at END, otherwise names the next node |
| Graph.Invoke | coderank_lc/graph/graph.py:14-40 | `invoke` returns the run's final state or exception, and the store holds the run's documents appended in order |
| Graph.RaisingPauseNeverRoutes | coderank_lc/graph/graph.py:28-32 | as written, a run that reaches wait_human without a choice always ends in an exception; the `pause` route is never taken |
| Graph.FirstInvokeRaises | coderank_lc/graph/nodes.py:28-31 | as written, a first invoke raises "HITL pause" after storing the generated responses |
| Graph.RecordAlwaysRanks | coderank_lc/graph/graph.py:37-38 | with a pair, a run from record stores the feedback and ends with the ranking |
| Graph.ResumeRecordsGivenPair | coderank_lc/graph/graph.py:28-38 | resumed at wait_human with a choice, the run records the pair it was given, generates nothing and ranks |
| Graph.RestartRepicks | coderank_lc/graph/graph.py:23-38 | entered at generate with a choice set, the run regenerates, picks a new pair and records that pair |
| Graph.ReturningPauseShowsPair | coderank_lc/graph/graph.py:23-32 | with the returning pause, the first invoke ends normally with the responses, a pair and the waiting flag set, the rest of the state unchanged, and only the response documents stored |
| Cli.NormaliseChoice | coderank_lc/scripts/run_cli.py:13-14 | the choice is always A or B, and it is B exactly for a lone "B" or "b" between whitespace |
| Cli.Top3 | coderank_lc/scripts/run_cli.py:17 | at most three rows, a prefix of the ranking, and the whole ranking when it is shorter |
| Cli.Drive | coderank_lc/scripts/run_cli.py:6-18 | the driver's outcome and stored documents are those of the two-invoke session |
| Cli.AsWrittenCrashes | coderank_lc/scripts/run_cli.py:9 | as written, the driver always ends with the "HITL pause" exception, after storing the responses and before any feedback |
| Cli.CorrectedRecordsShownPair | coderank_lc/scripts/run_cli.py:8-17 | corrected, the stored feedback is exactly the shown pair with the typed choice, responses are generated once, and the top three come from that ranking |
| Cli.RestartRecordsRepickedPair | coderank_lc/scripts/run_cli.py:15 | keeping the restart, the feedback stored is for the pair the second invoke draws, not the one shown |
| Cli.RestartSwapsPair | coderank_lc/scripts/run_cli.py:15 | a concrete round where the recorded A and B are the shown B and A |
| Ui.LooksNumericExactly | coderank_lc/ui/streamlit_app.py:89 | a printed score passes the test iff it is digits with at most one dot and at least one digit |
| Ui.SignExponentOrSecondDotFails | coderank_lc/ui/streamlit_app.py:89 | negative scores, exponent forms and forms with two dots are coerced to 0.0 |
| Ui.Coerce | coderank_lc/ui/streamlit_app.py:89 | the score's value when its printed form passes, else 0.0 |
| Ui.UiRank | coderank_lc/ui/streamlit_app.py:82-94 | a permutation of the (agent, text, coerced score) rows in non-increasing order |
| Ui.UiRankAgreesWithNode | coderank_lc/ui/streamlit_app.py:82-94 | when every printed score passes, the front end ranks exactly like the rerank node |
| Ui.UiRankStable | coderank_lc/ui/streamlit_app.py:87-94 | equal coerced scores keep dictionary order |
| Ui.UiPreferred | coderank_lc/ui/streamlit_app.py:69 | the stored preference is A or B, and A exactly when the radio choice is "A" |
| Ui.ChooseByRetry | coderank_lc/ui/streamlit_app.py:43-46 | A is the first draw, B the first later draw with another name; the two names differ and both are entries |
| Ui.SessionState.constructor | coderank_lc/ui/streamlit_app.py:40-42 | a new session holds no responses, no pair and no pending generation |
| Ui.SessionState.Generate | coderank_lc/ui/streamlit_app.py:26-33 | the responses become the generated dictionary, their documents are stored, and a new pair is due |
| Ui.SessionState.EnsurePair | coderank_lc/ui/streamlit_app.py:40-48 | afterwards no pair is due; a pair is picked only when due, and otherwise the pair and flag are unchanged |
| Ui.SessionState.Submit | coderank_lc/ui/streamlit_app.py:68-103 | stores the shown pair's feedback with A or B, then one score document per response in coerced ranked order |
| Evaluation.RerankerPreferred | coderank_lc/core/evaluation.py:59 | "A" iff a > b, "B" iff a < b, "Tie" iff they are equal |
| Evaluation.RowFor | coderank_lc/core/evaluation.py:45-69 | a row only for documents with query and both texts and at least two scores; the row's scores are the reranker's first and second scores for texts A and B, its preference is derived from them, and its match holds iff the stored preference equals the reranker's |
| Evaluation.EvalRowsAppend | coderank_lc/core/evaluation.py:44-69 | rows are produced document by document in document order |
| Evaluation.CollectRows | coderank_lc/core/evaluation.py:43-69 | the loop collects exactly the rows of the documents |
| Evaluation.MatchIsExact | coderank_lc/core/evaluation.py:60 | a tie matches only a stored "Tie"; a missing preference or any other word (lower-case included) never matches |
| Evaluation.CountMatches | coderank_lc/core/evaluation.py:77 | never more matches than rows |
| Evaluation.CountMatchesAll | coderank_lc/core/evaluation.py:77 | all rows match iff the count is the row count; none match iff it is zero |
| Evaluation.Accuracy | coderank_lc/core/evaluation.py:77 | between 0 and 100, 100 iff every row matches, 0 iff none does |
| Evaluation.NUniqueAtMostOne | coderank_lc/core/evaluation.py:81 | a column has at most one distinct value iff all its values are equal |
| Evaluation.CorrelationOf | coderank_lc/core/evaluation.py:81-85 | the flat branch is taken iff both columns are constant; otherwise the correlation is computed on the two columns |
| Evaluation.Summary | coderank_lc/core/evaluation.py:89-96 | the summary counts every row, carries the rows' accuracy (which lies in [0, 100]) and the rows' correlation result |
| Evaluation.EvaluateAlignment | coderank_lc/core/evaluation.py:33-104 | no documents or no usable row: no table and nothing stored; otherwise the rows are returned, and the summary stored iff the insert is accepted |
| EvaluateScript.ScriptChoice | coderank_lc/scripts/evaluate_reranker.py:15 | "A" iff the first score is higher; equal scores count as "B" |
| EvaluateScript.MissingKey | coderank_lc/scripts/evaluate_reranker.py:10-13 | the first key the row lacks, in the order query, text_a, text_b, preferred |
| EvaluateScript.AgreementCounts | coderank_lc/scripts/evaluate_reranker.py:8-17 | a run that ends counts every row, never more correct than rows, and all correct iff the reranker agrees with every row |
| EvaluateScript.AgreementFails | coderank_lc/scripts/evaluate_reranker.py:10-13 | the script aborts iff a row lacks a key, with the key error of the first such row |
| EvaluateScript.FailureStops | coderank_lc/scripts/evaluate_reranker.py:9-13 | after the key error, no later row is read |
| EvaluateScript.CountAgreement | coderank_lc/scripts/evaluate_reranker.py:8-17 | the loop's counters, or its key error, are exactly those of the specification |
| EvaluateScript.ScriptAccuracy | coderank_lc/scripts/evaluate_reranker.py:19 | between 0 and 1, 0 without rows, 1 iff every row is correct |
| EvaluateScript.TieRules | coderank_lc/scripts/evaluate_reranker.py:15 | the script and the alignment evaluation pick the same side iff the scores differ; on a tie one says B and the other Tie |
| Finetune.ExamplesFor | coderank_lc/core/finetune_reranker.py:18-31 | an incomplete document gives nothing; a complete one gives the preferred text labelled 1.0, then the other labelled 0.0, with B preferred for any value but exactly "A" |
| Finetune.TrainingDataShape | coderank_lc/core/finetune_reranker.py:17-31 | twice as many examples as complete documents; examples 2i and 2i+1 come from the i-th complete document |
| Finetune.PrepareTrainingData | coderank_lc/core/finetune_reranker.py:14-33 | the loop produces exactly the training data of the documents |
| Finetune.FineTune | coderank_lc/core/finetune_reranker.py:42-45 | training starts iff some document is complete, and then on at least two examples |
| TrainScript.PosNeg | coderank_lc/scripts/train_reranker.py:15-16 | text_a is positive only for a stored "A"; otherwise, a missing preference included, text_b is |
| TrainScript.TrainExamplesFor | coderank_lc/scripts/train_reranker.py:17-19 | an unusable document gives nothing; a usable one gives the positive labelled 1.0 and then the negative labelled 0.0 |
| TrainScript.TrainExamplesShape | coderank_lc/scripts/train_reranker.py:12-19 | twice as many examples as usable documents, two per document in order |
| TrainScript.BuildTrainExamples | coderank_lc/scripts/train_reranker.py:11-19 | the loop produces exactly the script's examples |
| Export.TextOf | coderank_lc/scripts/export_feedback.py:19-20 | the stripped text, else the stripped fallback response, else empty |
| Export.PrefIsA | coderank_lc/scripts/export_feedback.py:21 | A orientation iff the preference is missing, empty, "A" or "a" |
| Export.ExportFor | coderank_lc/scripts/export_feedback.py:18-28 | skipped iff the stripped query or a stripped text is empty; otherwise oriented by the upper-cased preference, with agent defaults "A" and "B" |
| Export.ExportedShape | coderank_lc/scripts/export_feedback.py:17-30 | one record per exportable document, in document order |
| Export.ExportFeedback | coderank_lc/scripts/export_feedback.py:14-31 | the CSV is the header then the JSON lines' cells, row for row, and `n` counts the lines |
| Curation.SameExamplesWithPreference | coderank_lc/scripts/train_reranker.py:15-19 | with a preference stored, fine-tuning and the training script build the same examples from a document |
| Curation.SameTrainingData | coderank_lc/core/finetune_reranker.py:17-31 | with every preference stored, the two builders produce the same example sequence |
| Curation.MissingPreferenceDisagrees | coderank_lc/scripts/export_feedback.py:21 | without a preference, fine-tuning drops the document, training prefers B and the export prefers A |
| Curation.LowerCaseADisagrees | coderank_lc/scripts/export_feedback.py:21 | a lower-case "a" is B for fine-tuning and training but A for the export |
| Curation.WhitespaceTextDisagrees | coderank_lc/scripts/export_feedback.py:22-23 | a whitespace-only text is kept by fine-tuning and training but dropped by the export |
| Text.Strip | coderank_lc/scripts/export_feedback.py:18 | the result has no whitespace at either end, is empty iff the input is all whitespace, and leaves a stripped input unchanged |
| Text.UpperIsLetter | coderank_lc/scripts/run_cli.py:13 | upper-casing yields one capital letter exactly for that letter in either case |
| Text.DecimalRoundTrip | coderank_lc/agents/lc_agents.py:93 | the printed position parses back to itself |

## Left out

- HTTP, JSON decoding, the request payload and headers, and timeouts: the reply is a parameter, already decoded (`Agents.HttpResult`).
- Agents.PyRepr: Python's string quoting and escaping inside `str(data)` are simplified to plain single quotes.
- Agents.AgentCall: the token is read once from the environment; here it is a parameter. LangChain's `Runnable` wrapping is not modelled.
- Agents.Generated: an agent is a deterministic function of style and query within one invoke; different invokes get different agents.
- Text.Upper and Text.IsDigit: only ASCII letters and digits; Unicode case mapping and Unicode digits are not modelled.
- Floating point: scores are reals. NaN and infinities are not modelled, and neither is `float(s)` on a string score.
- Ranking.Score: the printed form and the value are independent parameters; their link is not modelled.
- Evaluation.Summary: the accuracy is not rounded to three places; Kendall's tau and Spearman's rho are not computed (the summary keeps the two columns they come from); the timestamp and `model_used` are left out.
- Evaluation.EvaluateAlignment: the feedback listing (limit, newest first) is a parameter, and the insert's success is a boolean parameter.
- Store.FeedbackDoc: a missing key and a stored null are both `None`.
- Export.ExportFor: a stored null agent name is exported as the default, where Python would write null.
- EvaluateScript.MissingKey: for the same reason a null field aborts like a missing key, where Python would pass None to the reranker.
- State.StateValue: metadata values are held as strings; no node reads or writes them.
- Ui.ChooseByRetry: requires some later draw to name another entry; with a single response the source's retry loop never ends.
- Utils.PickPair: the draws are a parameter; uniformity of `random.sample` is not modelled.
- Streamlit rendering, spinners, widgets and the sidebar "Evaluate Reranker Performance" button (it only calls the modelled evaluation).
- The store's I/O: collection creation, retries, error printing and the return of inserted ids. Every attempted insert of a response, feedback or score is recorded.
- Training itself: model loading, `DataLoader`, `fit` and saving, in both training pipelines. `Finetune.FineTune` stops where training would start.
- File opening, encodings, JSON/CSV escaping and directory creation of the export: the two outputs are sequences of records.
- Printing and logging throughout, app.py's process launch, and the settings read from the environment.

## Findings

| source | as written | input that shows it | evidently intended | confidence | as-written member | corrected member |
|---|---|---|---|---|---|---|
| coderank_lc/scripts/run_cli.py:9 | the first `graph.invoke` reaches `node_wait_for_human` without a choice, which raises `RuntimeError("HITL pause")`; the exception leaves `invoke`, so the driver stops before showing a pair | any query | the run ends at the graph's `pause` route with the pair set, and the driver shows it | not executed | Cli.AsWrittenCrashes | Cli.CorrectedRecordsShownPair |
| coderank_lc/scripts/run_cli.py:15 | the second `graph.invoke` starts at the entry point `generate`, so it regenerates, draws a new pair and records the choice against that pair | even with the pause returning: draws (0, 0) then (2, 0) show A = Agent-1-concise, B = Agent-3-optimizer and record A = Agent-3-optimizer, B = Agent-1-concise | resume at `wait_human` with the shown pair, so the recorded feedback is the pair the human saw | not executed | Cli.RestartSwapsPair | Cli.CorrectedRecordsShownPair |
