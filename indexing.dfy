/**
 * The index builder (step1_index_pro.py): per-column text cleaning of the
 * four source tables, fixed-width segmentation of long texts, and the four
 * loops that turn cleaned rows into index records.
 */
module Indexing {
  import opened Text
  import opened Tables
  import opened Sequences

  // ---------------------------------------------------------------------
  // Whitespace cleaning and de-duplication (basic_clean)
  // ---------------------------------------------------------------------

  /** Every whitespace character is a plain space and no two whitespace characters are adjacent. */
  predicate WellSpaced(s: string) {
    forall i :: 0 <= i < |s| && IsSpace(s[i]) ==> s[i] == ' ' && (i + 1 < |s| ==> !IsSpace(s[i + 1]))
  }

  /** `re.sub(r"\s+", " ", s)`: every maximal run of whitespace becomes one space. */
  function Collapse(s: string): (r: string)
    ensures WellSpaced(r)
    ensures s == [] <==> r == []
    ensures s != [] && IsSpace(s[0]) ==> r[0] == ' '
    ensures s != [] && !IsSpace(s[0]) ==> r[0] == s[0]
    decreases |s|
  {
    if s == [] then []
    else if IsSpace(s[0]) then
      var rest := TrimStart(s);
      [' '] + Collapse(rest)
    else [s[0]] + Collapse(s[1..])
  }

  /** The text normalisation `basic_clean` applies to every text cell. */
  function CleanText(s: string): string {
    Strip(Collapse(s))
  }

  /** A slice of a well-spaced text is well spaced. */
  lemma WellSpacedSlice(s: string, a: nat, b: nat)
    requires WellSpaced(s) && a <= b <= |s|
    ensures WellSpaced(s[a..b])
  {
    forall i | 0 <= i < b - a && IsSpace(s[a..b][i])
      ensures s[a..b][i] == ' ' && (i + 1 < b - a ==> !IsSpace(s[a..b][i + 1]))
    {
      assert s[a..b][i] == s[a + i];
      if i + 1 < b - a {
        assert s[a..b][i + 1] == s[a + i + 1];
      }
    }
  }

  /** A cleaned text has no whitespace at its ends and no two whitespace characters in a row. */
  lemma CleanTextShape(s: string)
    ensures IsStripped(CleanText(s))
    ensures WellSpaced(CleanText(s))
  {
    var c := Collapse(s);
    StripIsSlice(c);
    WellSpacedSlice(c, StripOffset(c), StripOffset(c) + |Strip(c)|);
  }

  /** A leading run of non-whitespace characters is copied as it is. */
  lemma {:induction false} CollapseWord(t: string)
    ensures Collapse(t) == t[..WordLen(t)] + Collapse(t[WordLen(t)..])
    decreases |t|
  {
    if t != [] && !IsSpace(t[0]) {
      var k := WordLen(t[1..]);
      CollapseWord(t[1..]);
      SliceShift(t, k);
      Prefix(t[0], t[1..][..k], Collapse(t[1..][k..]), Collapse(t[1..]));
    } else {
      SliceZero(t, Collapse(t));
    }
  }

  /** `str.split()` ignores leading whitespace. */
  lemma WordsTrimStart(s: string)
    ensures Words(TrimStart(s)) == Words(s)
  {
    var t := TrimStart(s);
    if t != [] {
      assert t[0] == s[Lead(s)];
      assert TrimStart(t) == t;
    }
  }

  predicate StartsInSpace(s: string) {
    s != [] && IsSpace(s[0])
  }

  predicate EndsInSpace(s: string) {
    s != [] && IsSpace(s[|s| - 1])
  }

  /** The first word of a text that starts with one. */
  lemma WordsStep(t: string)
    requires t != [] && !IsSpace(t[0])
    ensures Words(t) == [t[..WordLen(t)]] + Words(t[WordLen(t)..])
  {
    assert TrimStart(t) == t;
  }

  /** A leading run of whitespace becomes one space. */
  lemma CollapseSpaceStep(u: string)
    requires StartsInSpace(u)
    ensures Collapse(u) == " " + Collapse(TrimStart(u))
    ensures TrimStart(u) == [] || !IsSpace(TrimStart(u)[0])
    ensures Words(TrimStart(u)) == Words(u)
  {
    WordsTrimStart(u);
    if TrimStart(u) != [] {
      assert TrimStart(u)[0] == u[Lead(u)];
    }
  }

  /** `" ".join([w] + ws)` for non-empty `ws`. */
  lemma JoinCons(w: string, ws: seq<string>)
    requires ws != []
    ensures Join(" ", [w] + ws) == w + " " + Join(" ", ws)
  {
    assert ([w] + ws)[1..] == ws;
  }

  /** For a text that does not start with whitespace: its words joined by single spaces, then one space if it ends in whitespace. */
  lemma {:induction false} CollapseUnpadded(t: string)
    requires !StartsInSpace(t)
    ensures Collapse(t) == Join(" ", Words(t)) + (if EndsInSpace(t) then " " else "")
    decreases |t|, 1
  {
    if t != [] {
      var k := WordLen(t);
      var u := t[k..];
      CollapseWord(t);
      WordsStep(t);
      if u == [] {
        assert t[..k] == t;
        assert Words(u) == [] && Collapse(u) == [];
        assert [t[..k]] + Words(u) == [t];
      } else {
        CollapseLeadingSpace(u);
        LastOfSuffix(t, k);
        if Words(u) == [] {
          BlankEndsInSpace(u);
        }
        WordThenRest(Collapse(t), t[..k], Collapse(u), Words(u), EndsInSpace(t));
      }
    }
  }

  /** A non-empty text without words is whitespace to its end. */
  lemma BlankEndsInSpace(u: string)
    requires u != [] && Words(u) == []
    ensures EndsInSpace(u)
  {
    if TrimStart(u) != [] {
      assert false;
    }
    assert Lead(u) == |u|;
  }

  /** The concatenation step of `CollapseUnpadded`, over plain values. */
  lemma WordThenRest(ct: string, w: string, cu: string, ws: seq<string>, ends: bool)
    requires ct == w + cu
    requires cu == " " + Join(" ", ws) + (if ends && ws != [] then " " else "")
    requires ws == [] ==> ends
    ensures ct == Join(" ", [w] + ws) + (if ends then " " else "")
  {
    if ws == [] {
      assert [w] + ws == [w];
    } else {
      JoinCons(w, ws);
    }
  }

  lemma WordsNonEmpty(s: string)
    requires s != [] && !IsSpace(s[0])
    ensures Words(s) != []
  {
    assert TrimStart(s) == s;
  }

  /** A text that starts with whitespace: one space, then its words joined by single spaces, then one space if it ends in whitespace after a word. */
  lemma {:induction false} CollapseLeadingSpace(s: string)
    requires StartsInSpace(s)
    ensures Collapse(s) == " " + Join(" ", Words(s)) + (if EndsInSpace(s) && Words(s) != [] then " " else "")
    decreases |s|, 0
  {
    var v := TrimStart(s);
    CollapseSpaceStep(s);
    if v == [] {
      assert Words(v) == [] by {
        assert TrimStart(v) == [];
      }
      LeadingSpaceOnly(Collapse(s), Collapse(v), Words(s), EndsInSpace(s));
    } else {
      CollapseUnpadded(v);
      WordsNonEmpty(v);
      LastOfSuffix(s, Lead(s));
      LeadingSpaceWords(Collapse(s), Collapse(v), Words(s), EndsInSpace(s));
    }
  }

  /** The concatenation steps of `CollapseLeadingSpace` and `CollapseIsJoinedWords`, over plain values. */
  lemma LeadingSpaceOnly(cs: string, cv: string, ws: seq<string>, ends: bool)
    requires cs == " " + cv && cv == [] && ws == []
    ensures cs == " " + Join(" ", ws) + (if ends && ws != [] then " " else "")
  {
  }

  lemma LeadingSpaceWords(cs: string, cv: string, ws: seq<string>, ends: bool)
    requires cs == " " + cv && cv == Join(" ", ws) + (if ends then " " else "") && ws != []
    ensures cs == " " + Join(" ", ws) + (if ends && ws != [] then " " else "")
  {
  }

  /**
   * `re.sub(r"\s+", " ", s)` is `" ".join(s.split())`, with one space in front
   * when `s` starts with whitespace and one at the end when it ends with
   * whitespace after a word.
   */
  lemma CollapseIsJoinedWords(s: string)
    ensures Collapse(s) == (if StartsInSpace(s) then " " else "") + Join(" ", Words(s))
                         + (if EndsInSpace(s) && Words(s) != [] then " " else "")
  {
    if StartsInSpace(s) {
      CollapseLeadingSpace(s);
    } else {
      CollapseUnpadded(s);
      if s != [] {
        WordsNonEmpty(s);
      }
      Unpadded(Collapse(s), Words(s), EndsInSpace(s));
    }
  }

  lemma Unpadded(c: string, ws: seq<string>, ends: bool)
    requires c == Join(" ", ws) + (if ends then " " else "")
    requires ends ==> ws != []
    ensures c == "" + Join(" ", ws) + (if ends && ws != [] then " " else "")
  {
  }

  lemma OneSpaceOrNone(b: bool)
    ensures AllSpace(if b then " " else "")
  {
  }

  /** The cleaned text is the words of the cell joined by single spaces: `" ".join(s.split())`. */
  lemma CleanTextIsJoinedWords(s: string)
    ensures CleanText(s) == Join(" ", Words(s))
  {
    var ws := Words(s);
    JoinWordsStripped(ws);
    CollapseIsJoinedWords(s);
    OneSpaceOrNone(StartsInSpace(s));
    OneSpaceOrNone(EndsInSpace(s) && ws != []);
    StripPadded(if StartsInSpace(s) then " " else "", Join(" ", ws), if EndsInSpace(s) && ws != [] then " " else "");
  }

  /** Collapsing a well-spaced text changes nothing. */
  lemma {:induction false} CollapseWellSpaced(s: string)
    requires WellSpaced(s)
    ensures Collapse(s) == s
    decreases |s|
  {
    if s == [] {
    } else if IsSpace(s[0]) {
      assert TrimStart(s) == s[1..] by {
        if |s| > 1 {
          assert !IsSpace(s[1]);
          assert TrimStart(s[1..]) == s[1..];
        }
      }
      WellSpacedSlice(s, 1, |s|);
      CollapseWellSpaced(s[1..]);
    } else {
      WellSpacedSlice(s, 1, |s|);
      CollapseWellSpaced(s[1..]);
    }
  }

  /** Cleaning twice is cleaning once. */
  lemma CleanTextIdempotent(s: string)
    ensures CleanText(CleanText(s)) == CleanText(s)
  {
    var t := CleanText(s);
    CleanTextShape(s);
    CollapseWellSpaced(t);
    StripStripped(t);
  }

  /** `drop_duplicates()`: the rows in order, each kept at its first occurrence only. */
  function DropDuplicates(xs: seq<Row>): (r: seq<Row>)
    ensures |r| <= |xs|
    ensures forall x :: x in r <==> x in xs
    ensures forall i, j :: 0 <= i < j < |r| ==> r[i] != r[j]
  {
    if xs == [] then []
    else
      var kept := DropDuplicates(xs[..|xs| - 1]);
      var last := xs[|xs| - 1];
      assert xs == xs[..|xs| - 1] + [last];
      if last in xs[..|xs| - 1] then kept else kept + [last]
  }

  /** The kept rows are the input with rows left out, the rest in input order. */
  lemma {:induction false} DropDuplicatesInOrder(xs: seq<Row>)
    ensures IsSubsequence(DropDuplicates(xs), xs)
    decreases |xs|
  {
    if xs != [] {
      var init := xs[..|xs| - 1];
      var last := xs[|xs| - 1];
      DropDuplicatesInOrder(init);
      assert xs == init + [last];
      if last in init {
        SnocRight(DropDuplicates(init), init, last);
      } else {
        SnocBoth(DropDuplicates(init), init, last);
      }
    }
  }

  /** Each row is kept at its first occurrence: the kept rows are ordered by where they first appear. */
  lemma {:induction false} DropDuplicatesFirstOccurrence(xs: seq<Row>)
    ensures forall i, j :: 0 <= i < j < |DropDuplicates(xs)| ==>
              IndexOf(xs, DropDuplicates(xs)[i]) < IndexOf(xs, DropDuplicates(xs)[j])
    decreases |xs|
  {
    if xs != [] {
      var init := xs[..|xs| - 1];
      var last := xs[|xs| - 1];
      DropDuplicatesFirstOccurrence(init);
      assert xs == init + [last];
      FirstOccurrenceSnoc(init, last, DropDuplicates(init), DropDuplicates(xs));
    }
  }

  /** A row after `fillna("")` and the text clean-up: every column present, every cell cleaned. */
  function CleanRow(columns: seq<string>, row: Row): (r: Row)
    ensures r.Keys == set c | c in columns
    ensures forall c :: c in r ==> r[c] == CleanText(Cell(row, c))
  {
    map c | c in columns :: CleanText(Cell(row, c))
  }

  /** `basic_clean`: drop duplicate rows, fill missing cells with "", normalise whitespace. */
  function BasicClean(t: Table): Table {
    var kept := DropDuplicates(t.rows);
    Table(t.columns, seq(|kept|, i requires 0 <= i < |kept| => CleanRow(t.columns, kept[i])))
  }

  /**
   * After `basic_clean` a table has no more rows than before, every row has
   * every column of the table, and every cell is stripped and well spaced.
   */
  lemma BasicCleanShape(t: Table)
    ensures BasicClean(t).columns == t.columns
    ensures |BasicClean(t).rows| <= |t.rows|
    ensures forall i :: 0 <= i < |BasicClean(t).rows| ==> BasicClean(t).rows[i].Keys == set c | c in t.columns
    ensures forall i, c :: 0 <= i < |BasicClean(t).rows| && c in BasicClean(t).rows[i] ==>
              IsStripped(BasicClean(t).rows[i][c]) && WellSpaced(BasicClean(t).rows[i][c])
  {
    var kept := DropDuplicates(t.rows);
    var rows := BasicClean(t).rows;
    forall i, c | 0 <= i < |rows| && c in rows[i]
      ensures IsStripped(rows[i][c]) && WellSpaced(rows[i][c])
    {
      CleanTextShape(Cell(kept[i], c));
    }
  }

  /** Cleaning keeps every distinct row: a row is dropped only when an equal row came before it. */
  lemma BasicCleanKeepsDistinctRows(t: Table)
    ensures |BasicClean(t).rows| == |DropDuplicates(t.rows)|
    ensures forall r :: r in t.rows ==> CleanRow(t.columns, r) in BasicClean(t).rows
  {
    var kept := DropDuplicates(t.rows);
    forall r | r in t.rows ensures CleanRow(t.columns, r) in BasicClean(t).rows {
      var i :| 0 <= i < |kept| && kept[i] == r;
      assert BasicClean(t).rows[i] == CleanRow(t.columns, r);
    }
  }

  // ---------------------------------------------------------------------
  // Segmentation (segment_text)
  // ---------------------------------------------------------------------

  /** The default `max_len` of `segment_text`, used by every caller. */
  const SegmentLength: nat := 1000

  /** `"".join(chunks)`. */
  function Concat(chunks: seq<string>): string {
    if chunks == [] then [] else chunks[0] + Concat(chunks[1..])
  }

  /** `text[i:i+maxLen]` for `i = 0, maxLen, 2*maxLen, ...` while `i < len(text)`. */
  function Chunks(text: string, maxLen: nat): seq<string>
    requires maxLen > 0
    decreases |text|
  {
    if text == [] then []
    else if |text| <= maxLen then [text]
    else [text[..maxLen]] + Chunks(text[maxLen..], maxLen)
  }

  /** What `segment_text(text, maxLen)` returns. */
  function Segments(text: string, maxLen: nat): seq<string>
    requires maxLen > 0
  {
    if |text| <= maxLen then [text] else Chunks(text, maxLen)
  }

  /** `text[i:]`, which is "" once `i` is past the end. */
  function Tail(text: string, i: nat): string {
    if i <= |text| then text[i..] else []
  }

  /** One turn of the chunking loop: the chunk at `i`, then the chunks from `i + maxLen`. */
  lemma ChunksStep(text: string, i: nat, maxLen: nat)
    requires maxLen > 0 && i < |text|
    ensures Chunks(Tail(text, i), maxLen)
         == [text[i..if i + maxLen <= |text| then i + maxLen else |text|]] + Chunks(Tail(text, i + maxLen), maxLen)
  {
    var t := text[i..];
    if |t| <= maxLen {
      assert Tail(text, i + maxLen) == [];
      assert text[i..if i + maxLen <= |text| then i + maxLen else |text|] == t;
      assert Chunks(t, maxLen) == [t];
    } else {
      assert t[..maxLen] == text[i..i + maxLen];
      assert t[maxLen..] == text[i + maxLen..];
    }
  }

  /** `segment_text`: the chunking loop. */
  method SegmentText(text: string, maxLen: nat) returns (chunks: seq<string>)
    requires maxLen > 0
    ensures chunks == Segments(text, maxLen)
  {
    if |text| <= maxLen {
      return [text];
    }
    chunks := [];
    var i: nat := 0;
    while i < |text|
      invariant chunks + Chunks(Tail(text, i), maxLen) == Chunks(text, maxLen)
      decreases |text| - i
    {
      var end := if i + maxLen <= |text| then i + maxLen else |text|;
      ChunksStep(text, i, maxLen);
      chunks := chunks + [text[i..end]];
      i := i + maxLen;
    }
  }

  lemma {:induction false} ChunksConcat(text: string, maxLen: nat)
    requires maxLen > 0
    ensures Concat(Chunks(text, maxLen)) == text
    decreases |text|
  {
    if |text| > maxLen {
      ChunksConcat(text[maxLen..], maxLen);
      assert text == text[..maxLen] + text[maxLen..];
    }
  }

  /** Multiplying by a non-negative number keeps the order. */
  lemma {:induction false} MulMonotone(x: nat, y: nat, m: nat)
    requires x <= y
    ensures x * m <= y * m
    decreases y - x
  {
    if x < y {
      MulMonotone(x, y - 1, m);
      assert (y - 1) * m + m == y * m;
    }
  }

  /** Euclidean division is determined by the bounds on the quotient. */
  lemma DivUnique(a: nat, m: nat, q: nat)
    requires m > 0 && q * m <= a < q * m + m
    ensures a / m == q
  {
    var d := a / m;
    assert a == d * m + a % m && 0 <= a % m < m;
    assert (q + 1) * m == q * m + m;
    assert (d + 1) * m == d * m + m;
    if d > q {
      MulMonotone(q + 1, d, m);
    } else if d < q {
      MulMonotone(d + 1, q, m);
    }
  }

  /** `c` pieces of at most `m` are needed, and enough, for `n` characters exactly when `c` is ceil(n/m). */
  lemma CeilOf(n: nat, m: nat, c: nat)
    requires m > 0 && c > 0 && (c - 1) * m < n <= c * m
    ensures c == (n + m - 1) / m
  {
    assert (c - 1) * m + m == c * m;
    DivUnique(n + m - 1, m, c);
  }

  lemma {:induction false} ChunksWidths(text: string, maxLen: nat)
    requires maxLen > 0
    ensures forall k :: 0 <= k < |Chunks(text, maxLen)| ==> 0 < |Chunks(text, maxLen)[k]| <= maxLen
    ensures forall k :: 0 <= k < |Chunks(text, maxLen)| - 1 ==> |Chunks(text, maxLen)[k]| == maxLen
    decreases |text|
  {
    if |text| > maxLen {
      ChunksWidths(text[maxLen..], maxLen);
      var rest := Chunks(text[maxLen..], maxLen);
      assert Chunks(text, maxLen) == [text[..maxLen]] + rest;
      assert forall k :: 1 <= k < |rest| + 1 ==> Chunks(text, maxLen)[k] == rest[k - 1];
    }
  }

  /** The number of chunks `c` satisfies `(c - 1) * maxLen < |text| <= c * maxLen`. */
  lemma {:induction false} ChunksCount(text: string, maxLen: nat)
    requires maxLen > 0
    ensures |Chunks(text, maxLen)| == 0 <==> text == []
    ensures |text| <= |Chunks(text, maxLen)| * maxLen
    ensures text != [] ==> (|Chunks(text, maxLen)| - 1) * maxLen < |text|
    decreases |text|
  {
    if |text| > maxLen {
      ChunksCount(text[maxLen..], maxLen);
      var c := |Chunks(text[maxLen..], maxLen)|;
      assert |Chunks(text, maxLen)| == c + 1;
      assert (c + 1) * maxLen == c * maxLen + maxLen;
    }
  }

  /** Joining the segments gives back the text: nothing is lost, repeated or reordered. */
  lemma SegmentsRoundTrip(text: string, maxLen: nat)
    requires maxLen > 0
    ensures Concat(Segments(text, maxLen)) == text
  {
    if |text| > maxLen {
      ChunksConcat(text, maxLen);
    } else {
      assert Concat([text]) == text + Concat([]);
    }
  }

  /**
   * A short text (including "") is its own single segment; a longer one is cut
   * into full segments of `maxLen` characters followed by one of at most `maxLen`,
   * ceil(len/maxLen) of them in all.
   */
  lemma SegmentsShape(text: string, maxLen: nat)
    requires maxLen > 0
    ensures |text| <= maxLen ==> Segments(text, maxLen) == [text]
    ensures |Segments(text, maxLen)| >= 1
    ensures forall k :: 0 <= k < |Segments(text, maxLen)| ==> |Segments(text, maxLen)[k]| <= maxLen
    ensures forall k :: 0 <= k < |Segments(text, maxLen)| - 1 ==> |Segments(text, maxLen)[k]| == maxLen
    ensures text != [] ==> |Segments(text, maxLen)| == (|text| + maxLen - 1) / maxLen
  {
    if |text| > maxLen {
      ChunksWidths(text, maxLen);
      ChunksCount(text, maxLen);
      CeilOf(|text|, maxLen, |Chunks(text, maxLen)|);
    } else if text != [] {
      CeilOf(|text|, maxLen, 1);
    }
  }

  // ---------------------------------------------------------------------
  // Index records (the four loops over the cleaned tables)
  // ---------------------------------------------------------------------

  datatype IndexRecord = IndexRecord(source: string, problem: string, solution: string, tags: string)

  /** Which of the four loops a row goes through. */
  datatype Kind = IncidentTicket | TechnicalSteps | TechMetadata | IncidentMetadata

  function SourceLabel(kind: Kind): string {
    match kind
    case IncidentTicket => "Incident Ticket"
    case TechnicalSteps => "Technical Steps"
    case TechMetadata => "Tech Metadata"
    case IncidentMetadata => "Incident Metadata"
  }

  /** The solution column of a metadata table. */
  function MetaSolutionColumn(kind: Kind): string {
    if kind == TechMetadata then "SolutionSteps" else "SolutionDetails"
  }

  /** The tags column of each table. */
  function TagsColumn(kind: Kind): string {
    if kind == IncidentTicket || kind == IncidentMetadata then "Tags" else "TechnicalTags"
  }

  /** The stripped product and solution of a metadata row. */
  function MetaProduct(row: Row): string {
    Strip(Get(row, "ProductInformation", ""))
  }

  function MetaSolution(kind: Kind, row: Row): string {
    Strip(Get(row, MetaSolutionColumn(kind), ""))
  }

  /** The text a row hands to `segment_text`. */
  function SegmentedText(kind: Kind, row: Row): string {
    match kind
    case IncidentTicket => Strip(Get(row, "ProblemDescription", ""))
    case TechnicalSteps => Strip(Get(row, "step_description", Get(row, "StepDescription", "")))
    case _ =>
      "Product Info: " + MetaProduct(row) + "\nSolution: " + MetaSolution(kind, row)
      + "\nTags: " + Strip(Get(row, TagsColumn(kind), ""))
  }

  /** The `continue` of the incident and tech loops; the metadata loops never skip. */
  predicate Skips(kind: Kind, row: Row) {
    (kind == IncidentTicket || kind == TechnicalSteps) && SegmentedText(kind, row) == ""
  }

  /** The record appended for one segment of a row. */
  function RecordFor(kind: Kind, row: Row, seg: string): IndexRecord {
    match kind
    case IncidentTicket => IndexRecord(SourceLabel(kind), seg, "", Get(row, "Tags", ""))
    case TechnicalSteps => IndexRecord(SourceLabel(kind), "", seg, Get(row, "TechnicalTags", ""))
    case _ =>
      IndexRecord(SourceLabel(kind), MetaProduct(row), MetaSolution(kind, row), Strip(Get(row, TagsColumn(kind), "")))
  }

  function RecordsForSegments(kind: Kind, row: Row, segs: seq<string>): seq<IndexRecord> {
    seq(|segs|, k requires 0 <= k < |segs| => RecordFor(kind, row, segs[k]))
  }

  /** The records one row contributes. */
  function RowRecords(kind: Kind, row: Row): seq<IndexRecord> {
    if Skips(kind, row) then [] else RecordsForSegments(kind, row, Segments(SegmentedText(kind, row), SegmentLength))
  }

  /** The records a whole table contributes, row after row. */
  function TableRecords(kind: Kind, rows: seq<Row>): seq<IndexRecord> {
    if rows == [] then [] else TableRecords(kind, rows[..|rows| - 1]) + RowRecords(kind, rows[|rows| - 1])
  }

  /** One more row appended to records built from the first `i` rows gives those of the first `i + 1`. */
  lemma TableRecordsStep(records: seq<IndexRecord>, prev: seq<IndexRecord>, next: seq<IndexRecord>,
                         kind: Kind, rows: seq<Row>, i: nat)
    requires i < |rows|
    requires prev == records + TableRecords(kind, rows[..i])
    requires next == prev + RowRecords(kind, rows[i])
    ensures next == records + TableRecords(kind, rows[..i + 1])
  {
    assert TableRecords(kind, rows[..i + 1]) == TableRecords(kind, rows[..i]) + RowRecords(kind, rows[i]) by {
      assert rows[..i + 1][..i] == rows[..i];
    }
    ConcatAssoc(records, TableRecords(kind, rows[..i]), RowRecords(kind, rows[i]));
  }

  lemma ConcatAssoc(a: seq<IndexRecord>, b: seq<IndexRecord>, c: seq<IndexRecord>)
    ensures (a + b) + c == a + (b + c)
  {
  }

  lemma RecordsForSegmentsStep(records: seq<IndexRecord>, prev: seq<IndexRecord>, next: seq<IndexRecord>,
                                kind: Kind, row: Row, segs: seq<string>, k: nat)
    requires k < |segs|
    requires prev == records + RecordsForSegments(kind, row, segs[..k])
    requires next == prev + [RecordFor(kind, row, segs[k])]
    ensures next == records + RecordsForSegments(kind, row, segs[..k + 1])
  {
    assert RecordsForSegments(kind, row, segs[..k + 1])
        == RecordsForSegments(kind, row, segs[..k]) + [RecordFor(kind, row, segs[k])];
    ConcatAssoc(records, RecordsForSegments(kind, row, segs[..k]), [RecordFor(kind, row, segs[k])]);
  }

  /** The inner loop: one record per segment, appended in segment order. */
  method AppendSegments(records: seq<IndexRecord>, kind: Kind, row: Row, segs: seq<string>)
    returns (out: seq<IndexRecord>)
    ensures out == records + RecordsForSegments(kind, row, segs)
  {
    out := records;
    for k := 0 to |segs|
      invariant out == records + RecordsForSegments(kind, row, segs[..k])
    {
      var next := out + [RecordFor(kind, row, segs[k])];
      RecordsForSegmentsStep(records, out, next, kind, row, segs, k);
      out := next;
    }
    assert segs[..|segs|] == segs;
  }

  /** The body of one loop: skip the row, or segment its text and append one record per segment. */
  method AppendRow(records: seq<IndexRecord>, kind: Kind, row: Row) returns (out: seq<IndexRecord>)
    ensures out == records + RowRecords(kind, row)
  {
    out := records;
    if !Skips(kind, row) {
      var segs := SegmentText(SegmentedText(kind, row), SegmentLength);
      out := AppendSegments(out, kind, row, segs);
    }
  }

  /** One of the four `for _, row in ...iterrows()` loops, appending to `records`. */
  method AppendRecords(records: seq<IndexRecord>, kind: Kind, rows: seq<Row>) returns (out: seq<IndexRecord>)
    ensures out == records + TableRecords(kind, rows)
  {
    out := records;
    for i := 0 to |rows|
      invariant out == records + TableRecords(kind, rows[..i])
    {
      var next := AppendRow(out, kind, rows[i]);
      TableRecordsStep(records, out, next, kind, rows, i);
      out := next;
    }
    assert rows[..|rows|] == rows;
  }

  /**
   * The module-level script: `basic_clean` on each of the four tables as read,
   * then the four loops in order, over the incident, tech, metadata-tech and
   * metadata-incident tables.
   */
  method BuildRecords(srcIncident: Table, srcTech: Table, metaTech: Table, metaIncident: Table)
    returns (records: seq<IndexRecord>)
    ensures records == TableRecords(IncidentTicket, BasicClean(srcIncident).rows)
                     + TableRecords(TechnicalSteps, BasicClean(srcTech).rows)
                     + TableRecords(TechMetadata, BasicClean(metaTech).rows)
                     + TableRecords(IncidentMetadata, BasicClean(metaIncident).rows)
  {
    var incident := BasicClean(srcIncident);
    var tech := BasicClean(srcTech);
    var metaT := BasicClean(metaTech);
    var metaI := BasicClean(metaIncident);
    var a := AppendRecords([], IncidentTicket, incident.rows);
    assert a == TableRecords(IncidentTicket, incident.rows);
    var b := AppendRecords(a, TechnicalSteps, tech.rows);
    var c := AppendRecords(b, TechMetadata, metaT.rows);
    records := AppendRecords(c, IncidentMetadata, metaI.rows);
  }

  /** The problems of a list of records, joined. */
  function JoinedProblems(recs: seq<IndexRecord>): string {
    if recs == [] then [] else recs[0].problem + JoinedProblems(recs[1..])
  }

  function JoinedSolutions(recs: seq<IndexRecord>): string {
    if recs == [] then [] else recs[0].solution + JoinedSolutions(recs[1..])
  }

  lemma {:induction false} JoinedProblemsOfSegments(kind: Kind, row: Row, segs: seq<string>)
    requires kind == IncidentTicket
    ensures JoinedProblems(RecordsForSegments(kind, row, segs)) == Concat(segs)
    decreases |segs|
  {
    if segs != [] {
      JoinedProblemsOfSegments(kind, row, segs[1..]);
      assert RecordsForSegments(kind, row, segs)[1..] == RecordsForSegments(kind, row, segs[1..]);
    }
  }

  lemma {:induction false} JoinedSolutionsOfSegments(kind: Kind, row: Row, segs: seq<string>)
    requires kind == TechnicalSteps
    ensures JoinedSolutions(RecordsForSegments(kind, row, segs)) == Concat(segs)
    decreases |segs|
  {
    if segs != [] {
      JoinedSolutionsOfSegments(kind, row, segs[1..]);
      assert RecordsForSegments(kind, row, segs)[1..] == RecordsForSegments(kind, row, segs[1..]);
    }
  }

  /**
   * An incident row whose stripped ProblemDescription is empty adds nothing;
   * otherwise its records carry the segments of that text as problems, in
   * order, with an empty solution.
   */
  lemma IncidentRowRecords(row: Row)
    ensures AllSpace(Get(row, "ProblemDescription", "")) <==> RowRecords(IncidentTicket, row) == []
    ensures Strip(Get(row, "ProblemDescription", "")) == "" <==> RowRecords(IncidentTicket, row) == []
    ensures Strip(Get(row, "ProblemDescription", "")) != "" ==>
              JoinedProblems(RowRecords(IncidentTicket, row)) == Strip(Get(row, "ProblemDescription", ""))
    ensures forall r :: r in RowRecords(IncidentTicket, row) ==>
              r.source == "Incident Ticket" && r.solution == "" && r.tags == Get(row, "Tags", "")
  {
    var p := Strip(Get(row, "ProblemDescription", ""));
    StripEmptyIff(Get(row, "ProblemDescription", ""));
    if p != "" {
      var segs := Segments(p, SegmentLength);
      assert RowRecords(IncidentTicket, row) == RecordsForSegments(IncidentTicket, row, segs);
      assert |segs| >= 1 by {
        SegmentsShape(p, SegmentLength);
      }
      assert JoinedProblems(RecordsForSegments(IncidentTicket, row, segs)) == p by {
        SegmentsRoundTrip(p, SegmentLength);
        JoinedProblemsOfSegments(IncidentTicket, row, segs);
      }
    }
  }

  /**
   * A tech row reads `step_description` when the table has that column and
   * `StepDescription` otherwise; an empty step adds nothing; its records carry
   * the segments of the step as solutions with an empty problem.
   */
  lemma TechRowRecords(row: Row)
    ensures "step_description" in row ==> SegmentedText(TechnicalSteps, row) == Strip(row["step_description"])
    ensures "step_description" !in row ==> SegmentedText(TechnicalSteps, row) == Strip(Get(row, "StepDescription", ""))
    ensures SegmentedText(TechnicalSteps, row) == "" <==> RowRecords(TechnicalSteps, row) == []
    ensures SegmentedText(TechnicalSteps, row) != "" ==>
              JoinedSolutions(RowRecords(TechnicalSteps, row)) == SegmentedText(TechnicalSteps, row)
    ensures forall r :: r in RowRecords(TechnicalSteps, row) ==>
              r.source == "Technical Steps" && r.problem == "" && r.tags == Get(row, "TechnicalTags", "")
  {
    var p := SegmentedText(TechnicalSteps, row);
    if p != "" {
      var segs := Segments(p, SegmentLength);
      assert RowRecords(TechnicalSteps, row) == RecordsForSegments(TechnicalSteps, row, segs);
      assert |segs| >= 1 by {
        SegmentsShape(p, SegmentLength);
      }
      assert JoinedSolutions(RecordsForSegments(TechnicalSteps, row, segs)) == p by {
        SegmentsRoundTrip(p, SegmentLength);
        JoinedSolutionsOfSegments(TechnicalSteps, row, segs);
      }
    }
  }

  /**
   * A metadata row is never skipped: it adds one record per segment of its
   * combined text, and every one of them carries the whole product and solution.
   */
  lemma MetadataRowRecords(kind: Kind, row: Row)
    requires kind == TechMetadata || kind == IncidentMetadata
    ensures |RowRecords(kind, row)| == |Segments(SegmentedText(kind, row), SegmentLength)| >= 1
    ensures forall r :: r in RowRecords(kind, row) ==>
              r == IndexRecord(SourceLabel(kind), MetaProduct(row), MetaSolution(kind, row),
                               Strip(Get(row, TagsColumn(kind), "")))
  {
    var segs := Segments(SegmentedText(kind, row), SegmentLength);
    assert !Skips(kind, row);
    assert RowRecords(kind, row) == RecordsForSegments(kind, row, segs);
    assert |segs| >= 1 by {
      SegmentsShape(SegmentedText(kind, row), SegmentLength);
    }
  }
}
