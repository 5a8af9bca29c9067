# Network troubleshooting agent — a verified model of its core

This is a model of the query path of a customer-support assistant for network
problems. It starts from the CSV knowledge base and ends at the answer a
support engineer sees. It has five parts:

- **Index records** (`step1_index_pro.py`,
  module `Indexing`): `basic_clean` drops duplicate rows, collapses each run
  of whitespace to one space and strips every cell. `segment_text` cuts a
  text into 1000-character chunks. The four record loops turn incident tickets,
  technical steps and the two metadata tables into index records, one per
  segment.
- **Normaliser** (`load_data` in `step2_retriever_qdrant.py`, module
  `Normalizer`): it takes the cleaned tables, or the original ones when no
  cleaned file exists. A fixed precedence chain on the column names
  classifies each table and maps it to `problem_text` / `solution_text` /
  `source` / `product_id` / `doc_id`. The tables are then concatenated, the
  texts stripped, rows with both texts empty dropped, and the survivors
  numbered `__id = 0, 1, ...`.
- **Retriever** (`retrieve_qdrant`, module `Retriever`): the offline top-k
  selection over given similarity scores, the remote path over the points
  the database returned, the "no similar records" sentinel and the error
  entry.
- **Reasoner** (`reason` and `_call_llm_for_reasoning` in
  `step3_reasoner_pro.py`, module `Reasoner`): the DIRECT / HYBRID /
  FALLBACK answer composer, with confidence bands 0.5 and 0.35.
- **Agent graph** (`step5_langgraph_triple.py`, module `AgentGraph`): the
  shared state is a class `AgentState`. The retriever node, the decision
  and the reasoner node are methods on it that update its fields.
  `reason_with_local_llm` is a function. The local language model is a
  parameter that may be absent (`NoLlm`) and may fail (`Failed(message)`).

The supporting modules are small:

- `Wrappers` holds `Option` and `Result`.
- `Tables` models a table row as a map from column name to cell text. A
  missing key is a missing or NaN cell.
- `Text` holds Python's string operations:
  - `str.isspace`, `strip` and `split()`
  - ASCII `lower`
  - `in`, `join` and `replace`
  - slicing
- `Sequences` holds the subsequence order and first-occurrence facts that
  the filters share.
- `BestHit` reads the best hit of a result list. The reasoner and the graph
  both use it.

The similarity search itself is an input. `Backend.Offline` carries one
score per stored record. `Backend.Remote` carries the points the database
answered with. `Backend.Raised(message)` stands for an exception anywhere
in the call.

The model follows what the code does, including where that is easy to
misread:

- An empty offline store yields an empty result list. Only the remote
  path adds the "no similar records" sentinel.
- The sentinel's source is `"N/A"`.
- `product_id` / `doc_id` are looked up under exactly `ProductID` /
  `productid` and `DocID` / `docid`.

There is one deliberate exception. The DIRECT answer at
`step3_reasoner_pro.py:41` and `step5_langgraph_triple.py:201` is empty when
the best hit has an empty solution. `BestHit.DirectAnswerAsWritten` models
that reading, and "## Findings" shows the input. `Reasoner.Reason`,
`AgentGraph.AgentState.DecideNext` and `AgentGraph.RunGraph` use the
corrected `BestHit.DirectAnswer` instead, which gives "No solution found."
for that input.

## Model

| member | source | states |
|---|---|---|
| `Indexing.Collapse` | CoreApplicationFiles/step1_index_pro.py:40 | every whitespace character of the result is a single space not followed by another whitespace character; empty exactly when the input is; a leading whitespace run becomes one space |
| `Indexing.CollapseIsJoinedWords` | CoreApplicationFiles/step1_index_pro.py:40 | `re.sub(r"\s+", " ", s)` is the words of `s` (`s.split()`) joined by single spaces, with one space in front when `s` starts with whitespace and one at the end when it ends with whitespace after a word |
| `Indexing.CollapseUnpadded` | CoreApplicationFiles/step1_index_pro.py:40 | for a text not starting with whitespace: its words joined by single spaces, then one space when it ends with whitespace |
| `Indexing.CollapseLeadingSpace` | CoreApplicationFiles/step1_index_pro.py:40 | for a text starting with whitespace: one space, its words joined by single spaces, and one more space when it ends with whitespace after a word |
| `Indexing.CollapseWord` | CoreApplicationFiles/step1_index_pro.py:40 | a leading run of non-whitespace characters is copied unchanged |
| `Indexing.CleanText` | CoreApplicationFiles/step1_index_pro.py:40-41 | the definition: `re.sub(r"\s+", " ", s)` then `strip()`; its properties are stated by `CleanTextIsJoinedWords`, `CleanTextShape` and `CleanTextIdempotent` |
| `Indexing.CleanTextIsJoinedWords` | CoreApplicationFiles/step1_index_pro.py:40-41 | a cleaned cell is exactly `" ".join(s.split())`: every word kept, in order, one space between words, nothing around them |
| `Indexing.CleanTextShape` | CoreApplicationFiles/step1_index_pro.py:40-41 | a cleaned cell is stripped and has no two adjacent whitespace characters nor any whitespace other than ' ' |
| `Indexing.CleanTextIdempotent` | CoreApplicationFiles/step1_index_pro.py:40-41 | cleaning a cleaned cell changes nothing |
| `Indexing.CollapseWellSpaced` | CoreApplicationFiles/step1_index_pro.py:40 | collapsing an already well-spaced text is the identity |
| `Indexing.DropDuplicates` | CoreApplicationFiles/step1_index_pro.py:31 | the result has exactly the rows of the input, with no row twice, and is no longer than the input |
| `Indexing.DropDuplicatesInOrder` | CoreApplicationFiles/step1_index_pro.py:31 | the kept rows are a subsequence of the input: rows are left out, never reordered |
| `Indexing.DropDuplicatesFirstOccurrence` | CoreApplicationFiles/step1_index_pro.py:31 | the kept rows are ordered by the index of their first occurrence in the input, so each row is kept where it first appears |
| `Indexing.CleanRow` | CoreApplicationFiles/step1_index_pro.py:32-42 | the definition: each of the table's columns filled with "" when missing, then cleaned; `BasicCleanShape` and `BasicCleanKeepsDistinctRows` state its properties (stripped, well-spaced cells, and one cleaned row per distinct input row) |
| `Indexing.BasicClean` | CoreApplicationFiles/step1_index_pro.py:29-43 | the definition: drop duplicate rows, then fill missing cells with "" and clean every cell; its properties are stated by `BasicCleanShape` and `BasicCleanKeepsDistinctRows` |
| `Indexing.BasicCleanShape` | CoreApplicationFiles/step1_index_pro.py:29-43 | `basic_clean` keeps the columns and never adds rows; every row has every column, and every cell is stripped and well spaced |
| `Indexing.BasicCleanKeepsDistinctRows` | CoreApplicationFiles/step1_index_pro.py:29-43 | one cleaned row per distinct input row, and every input row is represented by its cleaned form |
| `Indexing.SegmentText` | CoreApplicationFiles/step1_index_pro.py:60-70 | the loop returns `[text]` for a short text and otherwise the successive `max_len` slices |
| `Indexing.SegmentsRoundTrip` | CoreApplicationFiles/step1_index_pro.py:60-70 | concatenating the segments gives back the text |
| `Indexing.SegmentsShape` | CoreApplicationFiles/step1_index_pro.py:60-70 | at least one segment; a text of at most `max_len` is one segment; every segment is at most `max_len` and all but the last exactly `max_len`; there are ceil(len/max_len) of them |
| `Indexing.ChunksCount` | CoreApplicationFiles/step1_index_pro.py:65-70 | the slicing loop yields no chunk exactly for the empty text, and enough chunks to cover it but no spare one |
| `Indexing.ChunksWidths` | CoreApplicationFiles/step1_index_pro.py:65-70 | every chunk is non-empty and at most `max_len`; all but the last are full |
| `Indexing.AppendSegments` | CoreApplicationFiles/step1_index_pro.py:77-83 | the inner loop appends one record per segment, in order, after the existing records |
| `Indexing.AppendRow` | CoreApplicationFiles/step1_index_pro.py:73-83 | one row appends its records, or nothing when it is skipped |
| `Indexing.AppendRecords` | CoreApplicationFiles/step1_index_pro.py:73-124 | one table's loop appends the records of its rows, row after row |
| `Indexing.RowRecords` | CoreApplicationFiles/step1_index_pro.py:73-124 | the definition: nothing for a skipped row, else one record per segment of the row's text; its properties are stated by `IncidentRowRecords`, `TechRowRecords` and `MetadataRowRecords` |
| `Indexing.TableRecords` | CoreApplicationFiles/step1_index_pro.py:73-124 | the definition: the records of the rows, row after row; `AppendRecords` is proved to build it |
| `Indexing.BuildRecords` | CoreApplicationFiles/step1_index_pro.py:46-124 | `basic_clean` is applied to each of the four tables as read; the record list is then the incident, technical, tech-metadata and incident-metadata records of the cleaned rows, in that order |
| `Indexing.IncidentRowRecords` | CoreApplicationFiles/step1_index_pro.py:73-83 | an incident row contributes nothing exactly when its `ProblemDescription` is whitespace only, that is when its stripped form is empty; otherwise its records' problems concatenate to that text, each with source "Incident Ticket", empty solution and the row's `Tags` |
| `Indexing.TechRowRecords` | CoreApplicationFiles/step1_index_pro.py:86-96 | the text is `step_description`, else `StepDescription`; the row contributes nothing exactly when it is empty; otherwise the solutions concatenate to it, each with source "Technical Steps", empty problem and the row's `TechnicalTags` |
| `Indexing.MetadataRowRecords` | CoreApplicationFiles/step1_index_pro.py:99-124 | a metadata row always contributes one record per segment of its combined text, every one of them the same (product, solution, tags) record |
| `Indexing.JoinedProblemsOfSegments` | CoreApplicationFiles/step1_index_pro.py:77-83 | the problems of the per-segment incident records concatenate to the segments' concatenation |
| `Indexing.JoinedSolutionsOfSegments` | CoreApplicationFiles/step1_index_pro.py:90-96 | the solutions of the per-segment technical records concatenate to the segments' concatenation |
| `Normalizer.KeyedColumns` | CoreApplicationFiles/step2_retriever_qdrant.py:108-109 | a column is kept exactly when it is a column of the table whose lower-cased name contains one of the keywords; the kept columns are a subsequence of the table's, so they stay in table order; each kept column appears as often as in the table |
| `Normalizer.Classify` | CoreApplicationFiles/step2_retriever_qdrant.py:74-121 | the definition: the if-chain on the column names; `ClassifyPrecedence` states each class as an exact condition |
| `Normalizer.MapRow` | CoreApplicationFiles/step2_retriever_qdrant.py:70-136 | the row's source tag is the name of the table's class |
| `Normalizer.MapTable` | CoreApplicationFiles/step2_retriever_qdrant.py:70-138 | the definition: each row mapped by its table's class; `ClassifyPrecedence` and the per-class row lemmas state what each record holds, and `MergeTables` is proved to concatenate these tables in order |
| `Normalizer.Numbered` | CoreApplicationFiles/step2_retriever_qdrant.py:150-151 | the definition: the survivors numbered from 0; `FilterAndNumber` and `LoadData` are proved to return exactly this numbering of the survivors |
| `Normalizer.Merged` | CoreApplicationFiles/step2_retriever_qdrant.py:68-141 | the definition: the mapped tables concatenated in order; `MergeTables` is proved to build it |
| `Normalizer.Survivors` | CoreApplicationFiles/step2_retriever_qdrant.py:143-148 | the definition: the trimmed records with a non-empty text; `SurvivorsWellFormed`, `SurvivorsInOrder` and `SurvivorsMembers` state its properties |
| `Normalizer.MergeTables` | CoreApplicationFiles/step2_retriever_qdrant.py:68-141 | the loop over the tables maps each and concatenates them in order |
| `Normalizer.FilterAndNumber` | CoreApplicationFiles/step2_retriever_qdrant.py:143-151 | the result is the trimmed survivors, numbered from 0 |
| `Normalizer.LoadData` | CoreApplicationFiles/step2_retriever_qdrant.py:43-158 | fails, with the "No data files found" message, exactly when neither the cleaned nor the original files exist; otherwise uses the cleaned tables when there are any, and every entry has its position as `__id`, stripped texts and not both empty |
| `Normalizer.SurvivorsWellFormed` | CoreApplicationFiles/step2_retriever_qdrant.py:143-148 | every surviving record has stripped texts, not both empty |
| `Normalizer.SurvivorsInOrder` | CoreApplicationFiles/step2_retriever_qdrant.py:141-150 | the survivors are a subsequence of the trimmed merged records: the filter keeps order |
| `Normalizer.SurvivorsMembers` | CoreApplicationFiles/step2_retriever_qdrant.py:143-148 | a record survives exactly when it is the trimmed form of a merged record with a non-blank text |
| `Normalizer.ClassifyPrecedence` | CoreApplicationFiles/step2_retriever_qdrant.py:74-121 | each of the five classes, as an exact condition on the columns: earlier tests mask later ones |
| `Normalizer.IncidentMasksLaterRules` | CoreApplicationFiles/step2_retriever_qdrant.py:74-78 | `ProblemDescription` without `SolutionDetails` is an incident record, whatever else the table has: problem from `ProblemDescription`, empty solution |
| `Normalizer.TechRows` | CoreApplicationFiles/step2_retriever_qdrant.py:80-84 | a tech table: empty problem, solution from `step_description` |
| `Normalizer.MetadataIncidentRows` | CoreApplicationFiles/step2_retriever_qdrant.py:86-95 | a metadata-incident table: problem from `ProblemDescription`, else `ProductInformation`, else empty; solution from `SolutionDetails` |
| `Normalizer.MetadataTechRows` | CoreApplicationFiles/step2_retriever_qdrant.py:97-104 | a metadata-tech table: problem from `ProductInformation` or empty; solution from `SolutionSteps` |
| `Normalizer.FallbackRows` | CoreApplicationFiles/step2_retriever_qdrant.py:106-121 | any other table: both texts inferred from the keyword columns, stripped, source "unknown" |
| `Normalizer.IdColumns` | CoreApplicationFiles/step2_retriever_qdrant.py:124-136 | `product_id` from `ProductID`, else `productid`, else ""; `doc_id` likewise from `DocID` / `docid` |
| `Retriever.RemoteHits` | CoreApplicationFiles/step2_retriever_qdrant.py:240-251 | the definition: the points turned into hits in answer order; `CollectRemote` is proved to build it, and `RetrievedShape` and `RemoteDefaults` state its sizes, ranks and defaults |
| `Retriever.RemoteResults` | CoreApplicationFiles/step2_retriever_qdrant.py:240-262 | no points gives the single sentinel; otherwise the ranked points |
| `Retriever.OfflineHits` | CoreApplicationFiles/step2_retriever_qdrant.py:224-234 | the definition: the chosen records turned into hits; `CollectOffline` is proved to build it, `OfflineByScore` proves the scores non-increasing, `OfflineIsBest` that no record left out scores higher, and `OfflineTakesAll` that a large limit returns every record |
| `Retriever.ArgMax` | CoreApplicationFiles/step2_retriever_qdrant.py:221 | the index of a best remaining score |
| `Retriever.TopIndices` | CoreApplicationFiles/step2_retriever_qdrant.py:221 | `min(limit, n)` distinct indices in non-increasing score order, none left out scoring above one taken |
| `Retriever.CollectOffline` | CoreApplicationFiles/step2_retriever_qdrant.py:225-234 | the offline loop builds exactly the ranked hits of the chosen indices |
| `Retriever.CollectRemote` | CoreApplicationFiles/step2_retriever_qdrant.py:240-251 | the remote loop builds exactly the ranked hits of the points |
| `Retriever.IsTopK` | CoreApplicationFiles/step2_retriever_qdrant.py:221 | the definition of `sims.argsort()[::-1][:limit]`: `min(limit, n)` distinct indices in non-increasing score order, none left out scoring above one taken; `TopIndices` is proved to meet it |
| `Retriever.Retrieved` | CoreApplicationFiles/step2_retriever_qdrant.py:210-274 | the definition of what the call may return per backend outcome; `Retrieve` is proved to meet it and `RetrievedShape` states its shape |
| `Retriever.Retrieve` | CoreApplicationFiles/step2_retriever_qdrant.py:210-274 | the returned list is one the specification allows for the backend's outcome |
| `Retriever.RetrievedShape` | CoreApplicationFiles/step2_retriever_qdrant.py:210-274 | offline: `min(limit, n)` hits ranked 1..n by non-increasing score, none for an empty store; remote: the ranked points or the single sentinel; exception: the single error entry with the message |
| `Retriever.OfflineByScore` | CoreApplicationFiles/step2_retriever_qdrant.py:221-234 | the offline hits come in non-increasing score order |
| `Retriever.OfflineIsBest` | CoreApplicationFiles/step2_retriever_qdrant.py:221 | no record left out scores above any returned hit |
| `Retriever.OfflineTakesAll` | CoreApplicationFiles/step2_retriever_qdrant.py:221 | with `limit` at least the store size every record is returned |
| `Retriever.RemoteDefaults` | CoreApplicationFiles/step2_retriever_qdrant.py:241-251 | a missing score reads 0.0 and a missing payload gives "" in every text field |
| `BestHit.BestScore` | CoreApplicationFiles/step3_reasoner_pro.py:35-36 | the definition: the first hit's score, or 0.0; `ModeBands`, `EmptyResultsFallBack` and `RouteBands` state the modes it leads to, and `RunGraph` that it is the final confidence |
| `BestHit.DirectAnswerAsWritten` | CoreApplicationFiles/step3_reasoner_pro.py:41 | with results, the answer is the first hit's solution however empty |
| `BestHit.DirectAnswer` | CoreApplicationFiles/step5_langgraph_triple.py:201 | never empty: the best solution when it has one, otherwise "No solution found." |
| `BestHit.EmptySolutionAnswer` | CoreApplicationFiles/step3_reasoner_pro.py:41 | an incident record ranked first gives "" as written and the placeholder as intended |
| `Reasoner.CallLlmForReasoning` | CoreApplicationFiles/step3_reasoner_pro.py:24-30 | the prefix then a prefix of the prompt, at most 823 characters; a prompt of at most 800 characters is kept whole, a longer one cut to exactly 800 |
| `Reasoner.Bulleted` | CoreApplicationFiles/step3_reasoner_pro.py:48 | the definition: each step prefixed by "- "; `HybridAnswers` and `FallbackAnswers` state the answers the bulleted steps end |
| `Reasoner.ModeFor` | CoreApplicationFiles/step3_reasoner_pro.py:38-55 | the definition of the three bands; `ModeBands` states each as an exact condition |
| `Reasoner.HybridAnswer` | CoreApplicationFiles/step3_reasoner_pro.py:43-52 | the definition of the HYBRID template; `HybridAnswerShape` states how it starts and ends |
| `Reasoner.FallbackAnswer` | CoreApplicationFiles/step3_reasoner_pro.py:53-58 | the definition of the FALLBACK template; `FallbackAnswers` states it in full |
| `Reasoner.Reason` | CoreApplicationFiles/step3_reasoner_pro.py:32-68 | the response echoes the query and results, carries the best score, the mode of its band and that mode's summary, and a non-empty answer |
| `Reasoner.ReasonQuery` | CoreApplicationFiles/step3_reasoner_pro.py:32-34 | retrieves with limit 5, then composes |
| `Reasoner.ModeBands` | CoreApplicationFiles/step3_reasoner_pro.py:38-55 | DIRECT iff score >= 0.5, HYBRID iff 0.35 <= score < 0.5, FALLBACK iff score < 0.35 |
| `Reasoner.EmptyResultsFallBack` | CoreApplicationFiles/step3_reasoner_pro.py:35-58 | no results: score 0.0, FALLBACK, the fallback answer |
| `Reasoner.DirectAnswers` | CoreApplicationFiles/step3_reasoner_pro.py:38-42 | at high confidence the answer is the top solution, or the placeholder for an empty one |
| `Reasoner.HybridAnswers` | CoreApplicationFiles/step3_reasoner_pro.py:43-52 | at medium confidence the mode is HYBRID and the answer opens with the banner, the retrieved solution and the synthesis prefix, and ends with the first four bulleted steps |
| `Reasoner.HybridAnswerShape` | CoreApplicationFiles/step3_reasoner_pro.py:51 | the HYBRID template opens with the banner, the retrieved solution and the synthesis prefix, and ends with the first four bulleted steps |
| `Reasoner.AroundSynthesis` | CoreApplicationFiles/step3_reasoner_pro.py:51 | text placed around a synthesis starts with what precedes it and the synthesis prefix, and ends with what follows it |
| `Reasoner.SixStepsFit` | CoreApplicationFiles/step3_reasoner_pro.py:57 | the six joined steps are within the 800-character synthesis limit |
| `Reasoner.FallbackAnswers` | CoreApplicationFiles/step3_reasoner_pro.py:53-58 | the exact fallback answer: banner, the untruncated synthesis of six steps, then all eight bulleted |
| `AgentGraph.StepsText` | CoreApplicationFiles/step5_langgraph_triple.py:66-73 | the fallback steps text is at least as long as the first step, so never empty |
| `Text.Take` | CoreApplicationFiles/step5_langgraph_triple.py:166 | the definition of `s[:n]`; `Reasoner.CallLlmForReasoning` states the 800-character truncation through it and `AgentGraph.ValidDocs` the first three results |
| `AgentGraph.KeepNonBlank` | CoreApplicationFiles/step5_langgraph_triple.py:77 | keeps exactly the docs with a non-blank problem or solution, as a subsequence of the input, so in retrieval order, each as often as in the input |
| `AgentGraph.ValidDocs` | CoreApplicationFiles/step5_langgraph_triple.py:77 | at most three docs, exactly the non-blank ones among the first three, in retrieval order (a subsequence of the results), each as often as there |
| `AgentGraph.Context` | CoreApplicationFiles/step5_langgraph_triple.py:79-85 | the definition: the docs' texts joined by blank lines, or the "No historical data found." line; `ContextEmptyIff` states when each applies |
| `AgentGraph.Prompt` | CoreApplicationFiles/step5_langgraph_triple.py:88-123 | the definition of the three templates; `PromptFraming`, `BodyStripped`, `BodyHasFramingAndQuery` and `FallbackPromptIgnoresHits` state their properties |
| `AgentGraph.ContextEmptyIff` | CoreApplicationFiles/step5_langgraph_triple.py:79-85 | the context is the "No historical data found." line exactly when no doc qualifies |
| `AgentGraph.PromptFraming` | CoreApplicationFiles/step5_langgraph_triple.py:88-123 | every prompt contains the system framing and the literal query, and stripping it gives the template body |
| `AgentGraph.BodyStripped` | CoreApplicationFiles/step5_langgraph_triple.py:96-123 | every template body starts with the framing's first letter and ends with a full stop, so `strip` leaves it alone |
| `AgentGraph.BodyHasFramingAndQuery` | CoreApplicationFiles/step5_langgraph_triple.py:96-123 | the framing and the query occur in each template |
| `AgentGraph.FallbackPromptIgnoresHits` | CoreApplicationFiles/step5_langgraph_triple.py:118-123 | the fallback prompt does not depend on what was retrieved |
| `AgentGraph.Cleaned` | CoreApplicationFiles/step5_langgraph_triple.py:139 | the definition: the response stripped, then every `\n\n` replaced by `\n`, left to right; `LlmAnswers` states how it decides the answer |
| `AgentGraph.AnswerFor` | CoreApplicationFiles/step5_langgraph_triple.py:129-147 | whatever the model did, the answer is non-empty |
| `AgentGraph.ReasonWithLocalLlm` | CoreApplicationFiles/step5_langgraph_triple.py:62-147 | the answer is never empty |
| `AgentGraph.LlmAnswers` | CoreApplicationFiles/step5_langgraph_triple.py:129-147 | no model: the "unavailable" banner and the steps; a failure: the message then the steps; a cleaned response under 30 characters: the steps; otherwise the cleaned response |
| `AgentGraph.ModelSeesStrippedPrompt` | CoreApplicationFiles/step5_langgraph_triple.py:129-137 | the model is consulted only when loaded, and then on the template body |
| `AgentGraph.AgentState.constructor` | CoreApplicationFiles/step5_langgraph_triple.py:234 | the state holds the query and nothing else |
| `AgentGraph.AgentState.RetrieverNode` | CoreApplicationFiles/step5_langgraph_triple.py:47-56 | the results are a retrieval with limit 5 and the confidence is the first score (0.0 for none); nothing else changes |
| `AgentGraph.AgentState.DecideNext` | CoreApplicationFiles/step5_langgraph_triple.py:175-213 | records the routed mode; ends the run exactly in retriever-only mode, then with the direct output; resets the confidence to 0.0 when there are no results; query and results unchanged |
| `AgentGraph.AgentState.ReasonerNode` | CoreApplicationFiles/step5_langgraph_triple.py:153-169 | writes the reasoner output for the recorded mode (default fallback); nothing else changes |
| `AgentGraph.RunGraph` | CoreApplicationFiles/step5_langgraph_triple.py:194-225 | a run leaves the retrieved results, the routed mode, the first hit's score as confidence, and an output that echoes query and mode, has a non-empty answer and at most three retrieved solutions; in retriever-only mode that output is the direct output and the reasoner is skipped, in every other mode it is the reasoner's output |
| `AgentGraph.Route` | CoreApplicationFiles/step5_langgraph_triple.py:175-213 | the definition of the decision's mode; `RouteEmpty`, `RouteErrorOrZero`, `RouteBands` and `SentinelsFallBack` state each branch |
| `AgentGraph.RouteEmpty` | CoreApplicationFiles/step5_langgraph_triple.py:179-183 | no results route to fallback |
| `AgentGraph.RouteErrorOrZero` | CoreApplicationFiles/step5_langgraph_triple.py:186-189 | an "error" source in any case, or a score of exactly 0.0, routes to fallback |
| `AgentGraph.RouteBands` | CoreApplicationFiles/step5_langgraph_triple.py:193-213 | past those checks: retriever-only iff >= 0.5, hybrid iff in [0.35, 0.5), fallback iff < 0.35 |
| `AgentGraph.SentinelsFallBack` | CoreApplicationFiles/step5_langgraph_triple.py:186-189 | both retriever sentinels (error entry, "no similar records") route to fallback |

## Left out

- File reading, CSV parsing, the saved cleaned copies, the TF-IDF index and its pickle, and all printing are not modelled. The tables arrive as values.
- `index_data`, `setup_qdrant_collection`, the embedding model, the Qdrant client and the cosine arithmetic are not modelled. The retriever receives the scores or points as a `Backend`.
- The UTF-8 encode/decode filter of `basic_clean` is the identity on a `seq<char>`. `fillna` is modelled by reading a missing cell as `""`. `select_dtypes(include=["object"])` is taken as "every column": numeric columns are not distinguished.
- `Indexing.SegmentText`: the `text or ""` guard for `None` is not modelled, because the model's text is always a string.
- `Indexing.SegmentText` requires `maxLen > 0`. In the source, a non-empty text with `max_len <= 0` never ends the loop at `step1_index_pro.py:65-69`, because `i += max_len` never passes `len(text)`. Every caller passes the default 1000, so the model excludes only inputs the program never uses.
- `Text.Lower` lower-cases ASCII letters only. Python's `str.lower` also maps other letters. The two tests that use it still give Python's verdict:
  - Every other letter lower-cases to non-ASCII text, except U+212A (to `k`) and U+0130 (to `i` then U+0307).
  - No keyword and not `"error"` contains `k`.
  - No keyword ends in `i` or contains U+0307, so an `i` that comes from U+0130 can never be part of a keyword match.
  - The `"error"` test is an equality, and `"error"` contains neither `k` nor `i`.
- `Retriever.TopIndices`: the order among tied scores is left open, because `numpy.argsort` does not fix it. `limit` is a `nat`, so a negative slice bound is not modelled.
- `Retriever.Retrieve`: an exception is a whole-call outcome (`Raised`). A failure half-way through building the list, and the `float(...)` conversions, are not modelled separately.
- `Reasoner.Reason`: the `:.2f` rendering of the score is a parameter `format`.
- `AgentGraph.ReasonWithLocalLlm`:
  - The pipeline call (`max_new_tokens`, temperature, `top_p`, repetition penalty) and its `[0]["generated_text"]` lookup are a parameter `generate` that returns the text or a failure message.
  - Whether that text repeats the prompt is up to `generate`.
  - Loading the model at import time is `Llm.NoLlm` / `Llm.Loaded`.
- `AgentGraph.RunGraph`: the graph engine is replaced by the direct sequence retriever, decision, reasoner. It assumes that writes made by `decide_next` persist in the shared state, as the code relies on. How the engine merges or copies state is not modelled.
- The command-line runners (`__main__` blocks), `step6_langgraph_app.py` and `verify_and_reindex.py` are not part of this model.

## Findings

| source | as written | input that shows it | evidently intended | confidence | as-written member | corrected member |
|---|---|---|---|---|---|---|
| CoreApplicationFiles/step3_reasoner_pro.py:41 | `best.get("solution", "No solution found.")` | a best hit that is an incident record (solution `""`) with score >= 0.5: every hit carries a `solution` key, so the default is never used and the DIRECT answer is `""` | the placeholder whenever there is no solution, so the answer is never empty | not executed | `BestHit.DirectAnswerAsWritten` | `BestHit.DirectAnswer` |
| CoreApplicationFiles/step5_langgraph_triple.py:201 | `top_result.get("solution", "No solution found.")` | the same incident-record hit at score >= 0.5: the retriever-only output has an empty answer | the placeholder whenever there is no solution | not executed | `BestHit.DirectAnswerAsWritten` | `BestHit.DirectAnswer` |

`BestHit.EmptySolutionAnswer` exhibits the input. The reasoner and the graph both use the corrected `BestHit.DirectAnswer`.
