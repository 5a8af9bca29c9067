/**
 * The result list of `retrieve_qdrant`.  The similarity search itself (the
 * embedding model, the cosine arithmetic, the vector database) is given: the
 * offline path sees one score per stored record, the remote path sees the
 * points the database answered with, and a failure anywhere in the call is an
 * explicit outcome carrying the exception's message.
 */
module Retriever {
  import opened Wrappers
  import opened Tables

  /** A payload row: `problem_text`, `solution_text`, `source`, `product_id`, `doc_id` and whatever else it holds. */
  type Payload = map<string, string>

  /** One entry of the returned list. */
  datatype Hit = Hit(rank: nat, score: real, problem: string, solution: string,
                     source: string, productId: string, docId: string)

  /** An offline record: its similarity to the query and its payload row. */
  datatype Stored = Stored(score: real, payload: Payload)

  /** A point of the remote answer; score and payload may be absent. */
  datatype Point = Point(score: Option<real>, payload: Option<Payload>)

  /** What the search produced: offline similarities, a remote answer, or an exception. */
  datatype Backend = Offline(stored: seq<Stored>) | Remote(points: seq<Point>) | Raised(message: string)

  /** The hit of a given rank and score built from a payload; each missing key reads as "". */
  function HitOf(rank: nat, score: real, payload: Payload): Hit {
    Hit(rank, score, Get(payload, "problem_text", ""), Get(payload, "solution_text", ""),
        Get(payload, "source", ""), Get(payload, "product_id", ""), Get(payload, "doc_id", ""))
  }

  /** The entry returned for an empty remote answer. */
  const NoRecordsHit := Hit(0, 0.0, "No similar records found",
                            "Please try rephrasing your query or contact support.", "N/A", "", "")

  /** The entry returned when the call raised. */
  function ErrorHit(message: string): Hit {
    Hit(0, 0.0, "Error during retrieval", message, "Error", "", "")
  }

  /** A remote point as a hit: a missing score reads 0.0, a missing payload `{}`. */
  function RemoteHit(rank: nat, point: Point): Hit {
    HitOf(rank, point.score.GetOr(0.0), point.payload.GetOr(map[]))
  }

  /** The ranks are 1, 2, ..., n in list order. */
  predicate Ranked(hits: seq<Hit>) {
    forall j :: 0 <= j < |hits| ==> hits[j].rank == j + 1
  }

  /** Scores never increase along the list. */
  predicate ByScore(hits: seq<Hit>) {
    forall j, l :: 0 <= j < l < |hits| ==> hits[j].score >= hits[l].score
  }

  function RemoteHits(points: seq<Point>): (r: seq<Hit>)
    ensures |r| == |points|
    ensures Ranked(r)
    ensures forall j :: 0 <= j < |points| ==> r[j] == RemoteHit(j + 1, points[j])
  {
    seq(|points|, j requires 0 <= j < |points| => RemoteHit(j + 1, points[j]))
  }

  /** The remote result list: the ranked points, or the single sentinel when there are none. */
  function RemoteResults(points: seq<Point>): (r: seq<Hit>)
    ensures points == [] ==> r == [NoRecordsHit]
    ensures points != [] ==> |r| == |points| && Ranked(r)
  {
    if points == [] then [NoRecordsHit] else RemoteHits(points)
  }

  function Scores(stored: seq<Stored>): (r: seq<real>)
    ensures |r| == |stored|
    ensures forall i :: 0 <= i < |stored| ==> r[i] == stored[i].score
  {
    seq(|stored|, i requires 0 <= i < |stored| => stored[i].score)
  }

  function Min(a: nat, b: nat): nat {
    if a <= b then a else b
  }

  predicate Distinct(xs: seq<nat>) {
    forall j, l :: 0 <= j < l < |xs| ==> xs[j] != xs[l]
  }

  /**
   * `sims.argsort()[::-1][:k]`: `min(k, n)` distinct indices, by non-increasing
   * score, and no index left out scores above one taken.  (How ties are broken
   * is left open.)
   */
  predicate IsTopK(scores: seq<real>, k: nat, idx: seq<nat>) {
    |idx| == Min(k, |scores|)
    && (forall j :: 0 <= j < |idx| ==> idx[j] < |scores|)
    && Distinct(idx)
    && (forall j, l :: 0 <= j < l < |idx| ==> scores[idx[j]] >= scores[idx[l]])
    && (forall i, j :: 0 <= i < |scores| && i !in idx && 0 <= j < |idx| ==> scores[i] <= scores[idx[j]])
  }

  /** The offline result list for the chosen indices. */
  function OfflineHits(stored: seq<Stored>, idx: seq<nat>): (r: seq<Hit>)
    requires forall j :: 0 <= j < |idx| ==> idx[j] < |stored|
    ensures |r| == |idx|
    ensures Ranked(r)
    ensures forall j :: 0 <= j < |idx| ==> r[j] == HitOf(j + 1, stored[idx[j]].score, stored[idx[j]].payload)
  {
    seq(|idx|, j requires 0 <= j < |idx| => HitOf(j + 1, stored[idx[j]].score, stored[idx[j]].payload))
  }

  /** What `retrieve_qdrant` may return for a backend outcome and a limit. */
  ghost predicate Retrieved(backend: Backend, limit: nat, results: seq<Hit>) {
    match backend
    case Raised(message) => results == [ErrorHit(message)]
    case Remote(points) => results == RemoteResults(points)
    case Offline(stored) =>
      exists idx :: IsTopK(Scores(stored), limit, idx) && results == OfflineHits(stored, idx)
  }

  // ---------------------------------------------------------------------
  // Top-k selection
  // ---------------------------------------------------------------------

  predicate Below(xs: seq<nat>, n: nat) {
    forall j :: 0 <= j < |xs| ==> xs[j] < n
  }

  /** Every index below `n` is taken or remaining. */
  predicate Covers(n: nat, idx: seq<nat>, rest: seq<nat>) {
    forall i :: 0 <= i < n ==> i in idx || i in rest
  }

  /** No index is both taken and remaining. */
  predicate Disjoint(idx: seq<nat>, rest: seq<nat>) {
    forall j, l :: 0 <= j < |idx| && 0 <= l < |rest| ==> idx[j] != rest[l]
  }

  /** The taken indices are by non-increasing score. */
  predicate SortedBy(scores: seq<real>, idx: seq<nat>)
    requires Below(idx, |scores|)
  {
    forall j, l :: 0 <= j < l < |idx| ==> scores[idx[j]] >= scores[idx[l]]
  }

  /** No remaining index scores above a taken one. */
  predicate Dominates(scores: seq<real>, idx: seq<nat>, rest: seq<nat>)
    requires Below(idx, |scores|) && Below(rest, |scores|)
  {
    forall j, l :: 0 <= j < |idx| && 0 <= l < |rest| ==> scores[rest[l]] <= scores[idx[j]]
  }

  /** The state of the selection: `idx` taken so far, `rest` not yet taken. */
  predicate Selection(scores: seq<real>, idx: seq<nat>, rest: seq<nat>) {
    |idx| + |rest| == |scores|
    && Below(idx, |scores|) && Below(rest, |scores|)
    && Covers(|scores|, idx, rest) && Disjoint(idx, rest)
    && Distinct(idx) && Distinct(rest)
    && SortedBy(scores, idx) && Dominates(scores, idx, rest)
  }

  function AllIndices(n: nat): (r: seq<nat>)
    ensures |r| == n
    ensures forall i :: 0 <= i < n ==> r[i] == i
  {
    seq(n, i requires 0 <= i < n => i)
  }

  lemma SelectionStart(scores: seq<real>)
    ensures Selection(scores, [], AllIndices(|scores|))
  {
    var rest := AllIndices(|scores|);
    forall i | 0 <= i < |scores|
      ensures i in rest
    {
      assert rest[i] == i;
    }
  }

  /** The sequence with position `m` removed. */
  function Without(rest: seq<nat>, m: nat): seq<nat>
    requires m < |rest|
  {
    rest[..m] + rest[m + 1..]
  }

  /** Removing position `m` from a sequence without repetitions. */
  lemma RemoveAt(rest: seq<nat>, m: nat)
    requires Distinct(rest) && m < |rest|
    ensures |Without(rest, m)| == |rest| - 1
    ensures forall l :: 0 <= l < |rest| - 1 ==> Without(rest, m)[l] == (if l < m then rest[l] else rest[l + 1])
    ensures Distinct(Without(rest, m))
    ensures rest[m] !in Without(rest, m)
    ensures forall v :: v in rest && v != rest[m] ==> v in Without(rest, m)
  {
    var rest' := Without(rest, m);
    assert forall l :: 0 <= l < |rest'| ==> rest'[l] == (if l < m then rest[l] else rest[l + 1]);
    forall v | v in rest && v != rest[m]
      ensures v in rest'
    {
      var l :| 0 <= l < |rest| && rest[l] == v;
      if l < m {
        assert rest'[l] == v;
      } else {
        assert rest'[l - 1] == v;
      }
    }
  }

  lemma CoversStep(n: nat, idx: seq<nat>, rest: seq<nat>, m: nat)
    requires Covers(n, idx, rest) && Distinct(rest) && m < |rest|
    ensures Covers(n, idx + [rest[m]], Without(rest, m))
  {
    RemoveAt(rest, m);
    forall i | 0 <= i < n
      ensures i in idx + [rest[m]] || i in Without(rest, m)
    {
      if i == rest[m] {
        assert (idx + [rest[m]])[|idx|] == i;
      } else if i in idx {
        var j :| 0 <= j < |idx| && idx[j] == i;
        assert (idx + [rest[m]])[j] == i;
      }
    }
  }

  lemma DisjointStep(idx: seq<nat>, rest: seq<nat>, m: nat)
    requires Disjoint(idx, rest) && Distinct(idx) && Distinct(rest) && m < |rest|
    ensures Disjoint(idx + [rest[m]], Without(rest, m))
    ensures Distinct(idx + [rest[m]])
  {
    RemoveAt(rest, m);
    var idx' := idx + [rest[m]];
    var rest' := Without(rest, m);
    forall j, l | 0 <= j < |idx'| && 0 <= l < |rest'|
      ensures idx'[j] != rest'[l]
    {
      if j < |idx| {
        assert idx'[j] == idx[j];
        if l < m {
          assert rest'[l] == rest[l];
        } else {
          assert rest'[l] == rest[l + 1];
        }
      }
    }
    forall j, l | 0 <= j < l < |idx'|
      ensures idx'[j] != idx'[l]
    {
      assert idx'[j] == idx[j];
      if l == |idx| {
        assert idx[j] != rest[m];
      }
    }
  }

  lemma OrderStep(scores: seq<real>, idx: seq<nat>, rest: seq<nat>, m: nat)
    requires Below(idx, |scores|) && Below(rest, |scores|) && Distinct(rest) && m < |rest|
    requires SortedBy(scores, idx) && Dominates(scores, idx, rest)
    requires forall l :: 0 <= l < |rest| ==> scores[rest[l]] <= scores[rest[m]]
    ensures Below(idx + [rest[m]], |scores|) && Below(Without(rest, m), |scores|)
    ensures SortedBy(scores, idx + [rest[m]])
    ensures Dominates(scores, idx + [rest[m]], Without(rest, m))
  {
    RemoveAt(rest, m);
    var idx' := idx + [rest[m]];
    var rest' := Without(rest, m);
    assert forall j :: 0 <= j < |idx| ==> idx'[j] == idx[j];
    forall j, l | 0 <= j < |idx'| && 0 <= l < |rest'|
      ensures scores[rest'[l]] <= scores[idx'[j]]
    {
      if l < m {
        assert rest'[l] == rest[l];
      } else {
        assert rest'[l] == rest[l + 1];
      }
    }
  }

  /** Taking a best remaining index keeps the selection state. */
  lemma SelectStep(scores: seq<real>, idx: seq<nat>, rest: seq<nat>, m: nat)
    requires Selection(scores, idx, rest)
    requires m < |rest|
    requires forall l :: 0 <= l < |rest| ==> scores[rest[l]] <= scores[rest[m]]
    ensures Selection(scores, idx + [rest[m]], Without(rest, m))
  {
    RemoveAt(rest, m);
    CoversStep(|scores|, idx, rest, m);
    DisjointStep(idx, rest, m);
    OrderStep(scores, idx, rest, m);
  }

  /** The index, within `rest`, of a best remaining score: the first one. */
  method ArgMax(scores: seq<real>, rest: seq<nat>) returns (m: nat)
    requires |rest| > 0
    requires forall j :: 0 <= j < |rest| ==> rest[j] < |scores|
    ensures m < |rest|
    ensures forall j :: 0 <= j < |rest| ==> scores[rest[j]] <= scores[rest[m]]
  {
    m := 0;
    for j := 1 to |rest|
      invariant m < j
      invariant forall l :: 0 <= l < j ==> scores[rest[l]] <= scores[rest[m]]
    {
      if scores[rest[j]] > scores[rest[m]] {
        m := j;
      }
    }
  }

  /** The top `k` indices by score, best first. */
  method TopIndices(scores: seq<real>, k: nat) returns (idx: seq<nat>)
    ensures IsTopK(scores, k, idx)
  {
    idx := [];
    var rest := AllIndices(|scores|);
    SelectionStart(scores);
    while |idx| < Min(k, |scores|)
      invariant Selection(scores, idx, rest)
      invariant |idx| <= Min(k, |scores|)
      decreases Min(k, |scores|) - |idx|
    {
      var m := ArgMax(scores, rest);
      SelectStep(scores, idx, rest, m);
      idx, rest := idx + [rest[m]], Without(rest, m);
    }
    SelectionDone(scores, k, idx, rest);
  }

  lemma SelectionDone(scores: seq<real>, k: nat, idx: seq<nat>, rest: seq<nat>)
    requires Selection(scores, idx, rest)
    requires |idx| == Min(k, |scores|)
    ensures IsTopK(scores, k, idx)
  {
    forall i, j | 0 <= i < |scores| && i !in idx && 0 <= j < |idx|
      ensures scores[i] <= scores[idx[j]]
    {
      var l :| 0 <= l < |rest| && rest[l] == i;
    }
  }

  // ---------------------------------------------------------------------
  // The result list
  // ---------------------------------------------------------------------

  /** The `enumerate(idxs, start=1)` loop of the offline path. */
  method CollectOffline(stored: seq<Stored>, idx: seq<nat>) returns (results: seq<Hit>)
    requires forall j :: 0 <= j < |idx| ==> idx[j] < |stored|
    ensures results == OfflineHits(stored, idx)
  {
    results := [];
    for j := 0 to |idx|
      invariant results == OfflineHits(stored, idx[..j])
    {
      var i := idx[j];
      results := results + [HitOf(j + 1, stored[i].score, stored[i].payload)];
    }
    assert idx[..|idx|] == idx;
  }

  /** The `enumerate(resp, start=1)` loop of the remote path. */
  method CollectRemote(points: seq<Point>) returns (results: seq<Hit>)
    ensures results == RemoteHits(points)
  {
    results := [];
    for j := 0 to |points|
      invariant results == RemoteHits(points[..j])
    {
      results := results + [RemoteHit(j + 1, points[j])];
    }
    assert points[..|points|] == points;
  }

  /** `retrieve_qdrant(query, limit)`; what the list then looks like is `RetrievedShape`. */
  method Retrieve(backend: Backend, limit: nat) returns (results: seq<Hit>)
    ensures Retrieved(backend, limit, results)
  {
    match backend
    case Raised(message) =>
      results := [ErrorHit(message)];
    case Offline(stored) =>
      var idx := TopIndices(Scores(stored), limit);
      results := CollectOffline(stored, idx);
    case Remote(points) =>
      results := CollectRemote(points);
      if results == [] {
        results := results + [NoRecordsHit];
      }
  }

  // ---------------------------------------------------------------------
  // Properties of the result list
  // ---------------------------------------------------------------------

  /**
   * Offline: at most `limit` hits ranked 1..n by non-increasing score, none
   * when nothing is stored.  Remote: the points ranked 1..n, or the single
   * "no records" sentinel.  On an exception: the single error entry carrying
   * the message.
   */
  lemma RetrievedShape(backend: Backend, limit: nat, results: seq<Hit>)
    requires Retrieved(backend, limit, results)
    ensures backend.Offline? ==> |results| == Min(limit, |backend.stored|) && Ranked(results) && ByScore(results)
    ensures backend.Offline? && backend.stored == [] ==> results == []
    ensures backend.Remote? && backend.points == [] ==> results == [NoRecordsHit]
    ensures backend.Remote? && backend.points != [] ==> |results| == |backend.points| && Ranked(results)
    ensures backend.Raised? ==> results == [ErrorHit(backend.message)]
  {
    if backend.Offline? {
      var idx :| IsTopK(Scores(backend.stored), limit, idx) && results == OfflineHits(backend.stored, idx);
      OfflineByScore(backend.stored, limit, idx);
    }
  }

  /** The offline hits are in score order, and each is a stored record's payload under its own score. */
  lemma OfflineByScore(stored: seq<Stored>, limit: nat, idx: seq<nat>)
    requires IsTopK(Scores(stored), limit, idx)
    ensures ByScore(OfflineHits(stored, idx))
  {
    var hits := OfflineHits(stored, idx);
    forall j, l | 0 <= j < l < |hits|
      ensures hits[j].score >= hits[l].score
    {
      assert hits[j].score == Scores(stored)[idx[j]];
      assert hits[l].score == Scores(stored)[idx[l]];
    }
  }

  /** No stored record outside the offline hits scores above any of them. */
  lemma OfflineIsBest(stored: seq<Stored>, limit: nat, idx: seq<nat>, i: nat)
    requires IsTopK(Scores(stored), limit, idx)
    requires i < |stored| && i !in idx
    ensures forall j :: 0 <= j < |idx| ==> stored[i].score <= OfflineHits(stored, idx)[j].score
  {
    forall j | 0 <= j < |idx|
      ensures stored[i].score <= OfflineHits(stored, idx)[j].score
    {
      assert Scores(stored)[i] <= Scores(stored)[idx[j]];
    }
  }

  /** A limit at least the store's size returns every stored record once. */
  lemma OfflineTakesAll(stored: seq<Stored>, limit: nat, idx: seq<nat>)
    requires IsTopK(Scores(stored), limit, idx)
    requires limit >= |stored|
    ensures |OfflineHits(stored, idx)| == |stored|
    ensures forall i :: 0 <= i < |stored| ==> i in idx
  {
    forall i | 0 <= i < |stored|
      ensures i in idx
    {
      if i !in idx {
        PigeonHole(idx, |stored|, i);
      }
    }
  }

  /** `n` distinct indices below `n` leave none out. */
  lemma PigeonHole(idx: seq<nat>, n: nat, i: nat)
    requires |idx| == n && Distinct(idx)
    requires forall j :: 0 <= j < |idx| ==> idx[j] < n
    requires i < n
    ensures i in idx
  {
    var all := AllIndices(n);
    DistinctCard(idx);
    DistinctCard(all);
    if i !in idx {
      forall v | v in Elements(idx)
        ensures v in Elements(all) - {i}
      {
        assert all[v] == v;
      }
      assert Elements(all) - {i} < Elements(all) by {
        assert all[i] == i;
      }
      SubsetCard(Elements(idx), Elements(all) - {i});
      SubsetCard(Elements(all) - {i}, Elements(all));
      assert false;
    }
  }

  /** The indices a sequence holds. */
  function Elements(xs: seq<nat>): set<nat> {
    set j | 0 <= j < |xs| :: xs[j]
  }

  lemma {:induction false} DistinctCard(xs: seq<nat>)
    requires Distinct(xs)
    ensures |Elements(xs)| == |xs|
    decreases |xs|
  {
    if xs != [] {
      var init := xs[..|xs| - 1];
      DistinctCard(init);
      assert Elements(xs) == Elements(init) + {xs[|xs| - 1]};
      assert xs[|xs| - 1] !in Elements(init);
    }
  }

  lemma SubsetCard(a: set<nat>, b: set<nat>)
    requires a <= b
    ensures |a| <= |b|
    ensures a < b ==> |a| < |b|
  {
    assert b == a + (b - a);
  }

  /** A remote point without a score scores 0.0; one without a payload has empty texts and ids. */
  lemma RemoteDefaults(rank: nat, point: Point)
    ensures point.score.None? ==> RemoteHit(rank, point).score == 0.0
    ensures point.score.Some? ==> RemoteHit(rank, point).score == point.score.value
    ensures point.payload.None? ==>
              RemoteHit(rank, point) == Hit(rank, RemoteHit(rank, point).score, "", "", "", "", "")
  {
  }
}
