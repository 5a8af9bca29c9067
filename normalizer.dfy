/**
 * The record normaliser of the retriever (`load_data`): every table the
 * pipeline finds is classified by its column names, each of its rows is mapped
 * to one uniform record, the tables are concatenated, the two texts are
 * stripped, rows with both texts empty are dropped and the survivors are
 * numbered 0, 1, 2, ... in order.
 */
module Normalizer {
  import opened Wrappers
  import opened Text
  import opened Tables
  import opened Sequences

  /** The `source` tag a table's rows receive. */
  datatype SourceTag = IncidentRecord | TechRecord | MetadataIncident | MetadataTech | Unknown

  function TagName(tag: SourceTag): string {
    match tag
    case IncidentRecord => "incident_record"
    case TechRecord => "tech_record"
    case MetadataIncident => "metadata_incident"
    case MetadataTech => "metadata_tech"
    case Unknown => "unknown"
  }

  /** The precedence chain of tests on the column names of a table. */
  function Classify(columns: seq<string>): SourceTag {
    if "ProblemDescription" in columns && "SolutionDetails" !in columns then IncidentRecord
    else if "step_description" in columns then TechRecord
    else if "SolutionDetails" in columns then MetadataIncident
    else if "SolutionSteps" in columns then MetadataTech
    else Unknown
  }

  /** One row of the merged table: the five columns later stages read. */
  datatype Record = Record(problemText: string, solutionText: string, source: string, productId: string, docId: string)

  /** A record of the final table with its `__id`. */
  datatype Entry = Entry(id: nat, record: Record)

  const ProblemKeywords: seq<string> := ["description", "problem", "issue"]
  const SolutionKeywords: seq<string> := ["solution", "steps", "detail"]

  /** `any(x in name for x in keywords)`. */
  predicate MentionsAny(name: string, keywords: seq<string>) {
    exists k :: 0 <= k < |keywords| && Contains(name, keywords[k])
  }

  /** The columns, in table order, whose lower-cased name mentions one of the keywords. */
  function KeyedColumns(columns: seq<string>, keywords: seq<string>): (r: seq<string>)
    ensures forall c :: c in r <==> c in columns && MentionsAny(Lower(c), keywords)
    ensures forall c :: multiset(r)[c] == if MentionsAny(Lower(c), keywords) then multiset(columns)[c] else 0
    ensures |r| <= |columns|
    ensures IsSubsequence(r, columns)
  {
    if columns == [] then []
    else
      var keep := MentionsAny(Lower(columns[0]), keywords);
      var rest := KeyedColumns(columns[1..], keywords);
      assert columns == [columns[0]] + columns[1..];
      KeepOrDrop(columns[0], rest, columns[1..], keep);
      (if keep then [columns[0]] else []) + rest
  }

  /** The cells of the given columns of a row, each missing cell read as "". */
  function Cells(row: Row, columns: seq<string>): (r: seq<string>)
    ensures |r| == |columns|
    ensures forall i :: 0 <= i < |columns| ==> r[i] == Cell(row, columns[i])
  {
    seq(|columns|, i requires 0 <= i < |columns| => Cell(row, columns[i]))
  }

  /** The fallback text: the keyed cells joined by single spaces and stripped, or "" without keyed columns. */
  function InferredText(columns: seq<string>, row: Row, keywords: seq<string>): string {
    var keyed := KeyedColumns(columns, keywords);
    if keyed == [] then "" else Strip(Join(" ", Cells(row, keyed)))
  }

  /** The first of two columns the table has, or "" when it has neither. */
  function PreferredCell(columns: seq<string>, row: Row, first: string, second: string): string {
    if first in columns then Cell(row, first)
    else if second in columns then Cell(row, second)
    else ""
  }

  function ProblemText(tag: SourceTag, columns: seq<string>, row: Row): string {
    match tag
    case IncidentRecord => Cell(row, "ProblemDescription")
    case TechRecord => ""
    case MetadataIncident => PreferredCell(columns, row, "ProblemDescription", "ProductInformation")
    case MetadataTech => if "ProductInformation" in columns then Cell(row, "ProductInformation") else ""
    case Unknown => InferredText(columns, row, ProblemKeywords)
  }

  function SolutionText(tag: SourceTag, columns: seq<string>, row: Row): string {
    match tag
    case IncidentRecord => ""
    case TechRecord => Cell(row, "step_description")
    case MetadataIncident => Cell(row, "SolutionDetails")
    case MetadataTech => Cell(row, "SolutionSteps")
    case Unknown => InferredText(columns, row, SolutionKeywords)
  }

  /** The field mapping of one row of a table with the given columns. */
  function MapRow(columns: seq<string>, row: Row): (r: Record)
    ensures r.source == TagName(Classify(columns))
  {
    var tag := Classify(columns);
    Record(ProblemText(tag, columns, row), SolutionText(tag, columns, row), TagName(tag),
           PreferredCell(columns, row, "ProductID", "productid"),
           PreferredCell(columns, row, "DocID", "docid"))
  }

  function MapTable(t: Table): (r: seq<Record>)
    ensures |r| == |t.rows|
    ensures forall i :: 0 <= i < |t.rows| ==> r[i] == MapRow(t.columns, t.rows[i])
  {
    seq(|t.rows|, i requires 0 <= i < |t.rows| => MapRow(t.columns, t.rows[i]))
  }

  /** `pd.concat(processed_dfs, ignore_index=True)`: the mapped tables one after the other. */
  function Merged(tables: seq<Table>): seq<Record> {
    if tables == [] then [] else Merged(tables[..|tables| - 1]) + MapTable(tables[|tables| - 1])
  }

  /** The record with both texts stripped. */
  function Trimmed(rec: Record): Record {
    rec.(problemText := Strip(rec.problemText), solutionText := Strip(rec.solutionText))
  }

  /** The filter: a row survives when one of its stripped texts is non-empty. */
  predicate Keeps(rec: Record) {
    Strip(rec.problemText) != "" || Strip(rec.solutionText) != ""
  }

  /** The trimmed survivors, in their original order. */
  function Survivors(recs: seq<Record>): seq<Record> {
    if recs == [] then [] else Survivor(recs[0]) + Survivors(recs[1..])
  }

  /** What one row contributes to the filtered table. */
  function Survivor(rec: Record): seq<Record> {
    if Keeps(rec) then [Trimmed(rec)] else []
  }

  /** `reset_index(drop=True)` followed by `df['__id'] = df.index`. */
  function Numbered(recs: seq<Record>): (r: seq<Entry>)
    ensures |r| == |recs|
    ensures forall i :: 0 <= i < |recs| ==> r[i] == Entry(i, recs[i])
  {
    seq(|recs|, i requires 0 <= i < |recs| => Entry(i, recs[i]))
  }

  const NoDataMessage := "No data files found in data/ or data/cleaned/."

  // ---------------------------------------------------------------------
  // The loader
  // ---------------------------------------------------------------------

  lemma MergedStep(tables: seq<Table>, t: nat)
    requires t < |tables|
    ensures Merged(tables[..t + 1]) == Merged(tables[..t]) + MapTable(tables[t])
  {
    assert tables[..t + 1][..t] == tables[..t];
  }

  lemma {:induction false} SurvivorsSnoc(recs: seq<Record>, rec: Record)
    ensures Survivors(recs + [rec]) == Survivors(recs) + Survivor(rec)
    decreases |recs|
  {
    if recs == [] {
      assert Survivors([rec]) == Survivor(rec) + Survivors([]);
    } else {
      assert (recs + [rec])[0] == recs[0];
      assert (recs + [rec])[1..] == recs[1..] + [rec];
      SurvivorsSnoc(recs[1..], rec);
    }
  }

  lemma NumberedSnoc(recs: seq<Record>, rec: Record)
    ensures Numbered(recs + [rec]) == Numbered(recs) + [Entry(|recs|, rec)]
  {
    assert forall i :: 0 <= i < |recs| ==> (recs + [rec])[i] == recs[i];
  }

  /** The filter loop's invariant is kept by one more row. */
  lemma FilterStep(done: seq<Record>, rec: Record, prev: seq<Entry>, next: seq<Entry>)
    requires prev == Numbered(Survivors(done))
    requires next == (if Keeps(rec) then prev + [Entry(|prev|, Trimmed(rec))] else prev)
    ensures next == Numbered(Survivors(done + [rec]))
  {
    SurvivorsSnoc(done, rec);
    if Keeps(rec) {
      assert Survivor(rec) == [Trimmed(rec)];
      NumberedSnoc(Survivors(done), Trimmed(rec));
    } else {
      assert Survivors(done) + Survivor(rec) == Survivors(done);
    }
  }

  /** A survivor has stripped texts, and one of them is non-empty. */
  predicate WellFormed(rec: Record) {
    IsStripped(rec.problemText) && IsStripped(rec.solutionText)
    && (rec.problemText != "" || rec.solutionText != "")
  }

  /** The loop over the found tables: each is mapped and appended, in order. */
  method MergeTables(dfs: seq<Table>) returns (merged: seq<Record>)
    ensures merged == Merged(dfs)
  {
    merged := [];
    for t := 0 to |dfs|
      invariant merged == Merged(dfs[..t])
    {
      MergedStep(dfs, t);
      merged := merged + MapTable(dfs[t]);
    }
    assert dfs[..|dfs|] == dfs;
  }

  /** The trim, the filter and the renumbering of the merged table. */
  method FilterAndNumber(merged: seq<Record>) returns (kept: seq<Entry>)
    ensures kept == Numbered(Survivors(merged))
  {
    kept := [];
    for i := 0 to |merged|
      invariant kept == Numbered(Survivors(merged[..i]))
    {
      var rec := merged[i];
      var next := kept;
      if Keeps(rec) {
        next := kept + [Entry(|kept|, Trimmed(rec))];
      }
      PrefixSnoc(merged, i);
      FilterStep(merged[..i], rec, kept, next);
      kept := next;
    }
    assert merged[..|merged|] == merged;
  }

  /**
   * `load_data`: the cleaned tables when there are any, else the original
   * ones, else the error; then the per-table mapping, the merge, the trim,
   * the filter and the renumbering.  Each entry carries its position as its
   * id, and its texts are stripped with at least one non-empty.
   */
  method LoadData(cleaned: seq<Table>, original: seq<Table>) returns (r: Result<seq<Entry>, string>)
    ensures r.Failure? <==> cleaned == [] && original == []
    ensures r.Failure? ==> r.error == NoDataMessage
    ensures r.Success? ==> r.value == Numbered(Survivors(Merged(if cleaned != [] then cleaned else original)))
    ensures r.Success? ==> forall k :: 0 <= k < |r.value| ==> r.value[k].id == k && WellFormed(r.value[k].record)
  {
    var dfs := cleaned;
    if dfs == [] {
      dfs := original;
    }
    if dfs == [] {
      return Failure(NoDataMessage);
    }
    var merged := MergeTables(dfs);
    var kept := FilterAndNumber(merged);
    SurvivorsWellFormed(merged);
    return Success(kept);
  }

  // ---------------------------------------------------------------------
  // Properties of the filter
  // ---------------------------------------------------------------------

  lemma {:induction false} SurvivorsWellFormed(recs: seq<Record>)
    ensures forall k :: 0 <= k < |Survivors(recs)| ==> WellFormed(Survivors(recs)[k])
    decreases |recs|
  {
    if recs != [] {
      SurvivorsWellFormed(recs[1..]);
    }
  }

  function TrimmedAll(recs: seq<Record>): (r: seq<Record>)
    ensures |r| == |recs|
    ensures forall i :: 0 <= i < |recs| ==> r[i] == Trimmed(recs[i])
  {
    seq(|recs|, i requires 0 <= i < |recs| => Trimmed(recs[i]))
  }

  /** The survivors keep their relative order. */
  lemma {:induction false} SurvivorsInOrder(recs: seq<Record>)
    ensures IsSubsequence(Survivors(recs), TrimmedAll(recs))
    decreases |recs|
  {
    if recs != [] {
      SurvivorsInOrder(recs[1..]);
      assert TrimmedAll(recs)[1..] == TrimmedAll(recs[1..]);
      if Keeps(recs[0]) {
        assert Survivors(recs)[1..] == Survivors(recs[1..]);
      } else {
        assert Survivors(recs) == Survivors(recs[1..]);
        SkipOne(Survivors(recs[1..]), TrimmedAll(recs));
      }
    }
  }

  /** A record is among the survivors exactly when it is the trimmed form of a row the filter keeps. */
  lemma {:induction false} SurvivorsMembers(recs: seq<Record>, y: Record)
    ensures y in Survivors(recs) <==> exists k :: 0 <= k < |recs| && Keeps(recs[k]) && y == Trimmed(recs[k])
    decreases |recs|
  {
    if recs != [] {
      SurvivorsMembers(recs[1..], y);
      if exists k :: 0 <= k < |recs| && Keeps(recs[k]) && y == Trimmed(recs[k]) {
        var k :| 0 <= k < |recs| && Keeps(recs[k]) && y == Trimmed(recs[k]);
        if k > 0 {
          assert recs[1..][k - 1] == recs[k];
        }
      }
      if exists k :: 0 <= k < |recs| - 1 && Keeps(recs[1..][k]) && y == Trimmed(recs[1..][k]) {
        var k :| 0 <= k < |recs| - 1 && Keeps(recs[1..][k]) && y == Trimmed(recs[1..][k]);
        assert recs[k + 1] == recs[1..][k];
      }
    }
  }

  // ---------------------------------------------------------------------
  // Properties of the classification and the field mapping
  // ---------------------------------------------------------------------

  /**
   * A table with ProblemDescription and without SolutionDetails is an incident
   * table whatever else it has (step_description or SolutionSteps included):
   * its rows keep their problem and get an empty solution.
   */
  lemma IncidentMasksLaterRules(columns: seq<string>, row: Row)
    requires "ProblemDescription" in columns && "SolutionDetails" !in columns
    ensures Classify(columns) == IncidentRecord
    ensures MapRow(columns, row).source == "incident_record"
    ensures MapRow(columns, row).problemText == Cell(row, "ProblemDescription")
    ensures MapRow(columns, row).solutionText == ""
  {
  }

  /** The tech rule: step_description, once the incident rule does not apply. */
  lemma TechRows(columns: seq<string>, row: Row)
    requires !("ProblemDescription" in columns && "SolutionDetails" !in columns)
    requires "step_description" in columns
    ensures MapRow(columns, row).source == "tech_record"
    ensures MapRow(columns, row).problemText == ""
    ensures MapRow(columns, row).solutionText == Cell(row, "step_description")
  {
  }

  /**
   * The metadata-incident rule: the problem is ProblemDescription, else
   * ProductInformation, else ""; the solution is SolutionDetails.
   */
  lemma MetadataIncidentRows(columns: seq<string>, row: Row)
    requires "SolutionDetails" in columns && "step_description" !in columns
    ensures MapRow(columns, row).source == "metadata_incident"
    ensures "ProblemDescription" in columns ==> MapRow(columns, row).problemText == Cell(row, "ProblemDescription")
    ensures "ProblemDescription" !in columns && "ProductInformation" in columns ==>
              MapRow(columns, row).problemText == Cell(row, "ProductInformation")
    ensures "ProblemDescription" !in columns && "ProductInformation" !in columns ==>
              MapRow(columns, row).problemText == ""
    ensures MapRow(columns, row).solutionText == Cell(row, "SolutionDetails")
  {
  }

  /** The metadata-tech rule: the problem is ProductInformation or "", the solution SolutionSteps. */
  lemma MetadataTechRows(columns: seq<string>, row: Row)
    requires "SolutionSteps" in columns
    requires "SolutionDetails" !in columns && "step_description" !in columns && "ProblemDescription" !in columns
    ensures MapRow(columns, row).source == "metadata_tech"
    ensures "ProductInformation" in columns ==> MapRow(columns, row).problemText == Cell(row, "ProductInformation")
    ensures "ProductInformation" !in columns ==> MapRow(columns, row).problemText == ""
    ensures MapRow(columns, row).solutionText == Cell(row, "SolutionSteps")
  {
  }

  /**
   * A table that none of the four rules claims is `unknown`; each text is the
   * stripped space-join of the cells of the columns whose lower-cased name
   * mentions a keyword, or "" when there are none.
   */
  lemma FallbackRows(columns: seq<string>, row: Row)
    requires "ProblemDescription" !in columns && "step_description" !in columns
    requires "SolutionDetails" !in columns && "SolutionSteps" !in columns
    ensures MapRow(columns, row).source == "unknown"
    ensures MapRow(columns, row).problemText == InferredText(columns, row, ProblemKeywords)
    ensures MapRow(columns, row).solutionText == InferredText(columns, row, SolutionKeywords)
    ensures IsStripped(MapRow(columns, row).problemText) && IsStripped(MapRow(columns, row).solutionText)
  {
  }

  /** The five tags are decided by the marker columns alone and in this order. */
  lemma ClassifyPrecedence(columns: seq<string>)
    ensures Classify(columns) == IncidentRecord <==> "ProblemDescription" in columns && "SolutionDetails" !in columns
    ensures Classify(columns) == TechRecord <==>
              !("ProblemDescription" in columns && "SolutionDetails" !in columns) && "step_description" in columns
    ensures Classify(columns) == MetadataIncident <==> "SolutionDetails" in columns && "step_description" !in columns
    ensures Classify(columns) == MetadataTech <==>
              "SolutionSteps" in columns && "SolutionDetails" !in columns
              && "step_description" !in columns && "ProblemDescription" !in columns
    ensures Classify(columns) == Unknown <==>
              "ProblemDescription" !in columns && "step_description" !in columns
              && "SolutionDetails" !in columns && "SolutionSteps" !in columns
  {
  }

  /** product_id comes from ProductID, else productid, else ""; doc_id likewise from DocID or docid. */
  lemma IdColumns(columns: seq<string>, row: Row)
    ensures "ProductID" in columns ==> MapRow(columns, row).productId == Cell(row, "ProductID")
    ensures "ProductID" !in columns && "productid" in columns ==> MapRow(columns, row).productId == Cell(row, "productid")
    ensures "ProductID" !in columns && "productid" !in columns ==> MapRow(columns, row).productId == ""
    ensures "DocID" in columns ==> MapRow(columns, row).docId == Cell(row, "DocID")
    ensures "DocID" !in columns && "docid" in columns ==> MapRow(columns, row).docId == Cell(row, "docid")
    ensures "DocID" !in columns && "docid" !in columns ==> MapRow(columns, row).docId == ""
  {
  }
}
