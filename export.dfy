/** The feedback export: every stored feedback document with a query and
    both texts becomes one (query, positive, negative, agents) record,
    written identically as a JSON line and as a CSV row. The two files are
    the sequences of records written to them. */
module Export {
  import opened Wrappers
  import opened Text
  import opened Store
  import opened Records

  datatype ExportRow = ExportRow(query: string, pos: string, neg: string, agentPos: string, agentNeg: string)

  /** The CSV header row. */
  const Header: seq<string> := ["query", "pos", "neg", "agent_pos", "agent_neg"]

  /** The five CSV cells of a record, in header order. */
  function Cells(row: ExportRow): seq<string> {
    [row.query, row.pos, row.neg, row.agentPos, row.agentNeg]
  }

  /** `(r.get("text_a") or r.get("resp_A") or "").strip()`, and its B twin. */
  function TextOf(text: Option<string>, fallback: Option<string>): (t: string)
    ensures Truthy(text) ==> t == Strip(text.value)
    ensures !Truthy(text) && Truthy(fallback) ==> t == Strip(fallback.value)
    ensures !Truthy(text) && !Truthy(fallback) ==> t == ""
  {
    Strip(Or(text, Or(fallback, "")))
  }

  /** `(r.get("preferred") or "A").upper()`. */
  function Pref(doc: FeedbackDoc): string {
    Upper(Or(doc.preferred, "A"))
  }

  /** The A-to-positive orientation is taken for a missing or empty
      preference and for exactly "A" or "a"; anything else, a padded " A"
      included, puts B first. */
  lemma PrefIsA(doc: FeedbackDoc)
    ensures Pref(doc) == "A" <==> !Truthy(doc.preferred) || doc.preferred.value == "A" || doc.preferred.value == "a"
  {
    UpperIsLetter(Or(doc.preferred, "A"), 'A');
  }

  /** The record of one document, or none when its stripped query or either
      stripped text is empty. */
  function ExportFor(doc: FeedbackDoc): (row: Option<ExportRow>)
    ensures var q := Strip(Or(doc.query, ""));
      var a, b := TextOf(doc.textA, doc.respA), TextOf(doc.textB, doc.respB);
      && (row.None? <==> q == "" || a == "" || b == "")
      && (row.Some? && Pref(doc) == "A" ==> row.value == ExportRow(q, a, b, doc.agentA.GetOr("A"), doc.agentB.GetOr("B")))
      && (row.Some? && Pref(doc) != "A" ==> row.value == ExportRow(q, b, a, doc.agentB.GetOr("B"), doc.agentA.GetOr("A")))
    ensures row.Some? ==>
      && row.value.query != "" && row.value.pos != "" && row.value.neg != ""
      && IsStripped(row.value.query) && IsStripped(row.value.pos) && IsStripped(row.value.neg)
  {
    var q := Strip(Or(doc.query, ""));
    var a := TextOf(doc.textA, doc.respA);
    var b := TextOf(doc.textB, doc.respB);
    if !(q != "" && a != "" && b != "") then None
    else if Pref(doc) == "A" then Some(ExportRow(q, a, b, doc.agentA.GetOr("A"), doc.agentB.GetOr("B")))
    else Some(ExportRow(q, b, a, doc.agentB.GetOr("B"), doc.agentA.GetOr("A")))
  }

  predicate Exportable(doc: FeedbackDoc) {
    ExportFor(doc).Some?
  }

  function Exported(docs: seq<FeedbackDoc>): seq<ExportRow> {
    FilterMap(docs, ExportFor)
  }

  /** One record per exportable document, in document order. */
  lemma ExportedShape(docs: seq<FeedbackDoc>)
    ensures |Exported(docs)| == |Filter(docs, Exportable)|
    ensures forall i :: 0 <= i < |Exported(docs)| ==>
      Some(Exported(docs)[i]) == ExportFor(Filter(docs, Exportable)[i])
  {
    FilterMapKept(docs, ExportFor, Exportable);
  }

  /** Appending a record and its CSV row keeps row `k + 1` the cells of
      record `k`. */
  lemma RowFollows(jsonl: seq<ExportRow>, csv: seq<seq<string>>, rec: ExportRow)
    requires |csv| == |jsonl| + 1
    requires forall k :: 0 <= k < |jsonl| ==> csv[k + 1] == Cells(jsonl[k])
    ensures forall k :: 0 <= k < |jsonl| + 1 ==> (csv + [Cells(rec)])[k + 1] == Cells((jsonl + [rec])[k])
  {
  }

  /** The export loop: what is written to `pairs.jsonl`, to `pairs.csv`,
      and the count `n`. The CSV is the header followed by the cells of the
      JSON lines, one row per line, and `n` counts either. */
  method ExportFeedback(docs: seq<FeedbackDoc>) returns (jsonl: seq<ExportRow>, csv: seq<seq<string>>, n: nat)
    ensures jsonl == Exported(docs)
    ensures |csv| == |jsonl| + 1 && csv[0] == Header
    ensures forall i :: 0 <= i < |jsonl| ==> csv[i + 1] == Cells(jsonl[i])
    ensures n == |jsonl| == |csv| - 1
  {
    n := 0;
    jsonl := [];
    csv := [Header];
    for i := 0 to |docs|
      invariant jsonl == FilterMap(docs[..i], ExportFor)
      invariant |csv| == |jsonl| + 1 && csv[0] == Header
      invariant forall k :: 0 <= k < |jsonl| ==> csv[k + 1] == Cells(jsonl[k])
      invariant n == |jsonl|
    {
      assert docs[..i + 1][..i] == docs[..i];
      var record := ExportFor(docs[i]);
      if record.None? {
        continue;
      }
      var rec := record.value;
      RowFollows(jsonl, csv, rec);
      jsonl := jsonl + [rec];
      csv := csv + [[rec.query, rec.pos, rec.neg, rec.agentPos, rec.agentNeg]];
      n := n + 1;
    }
    assert docs[..|docs|] == docs;
  }
}
