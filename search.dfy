/** The vector search benchmark (operation.cc:1136-1336): the search
    parameters built from the flags, the queries taken from the test
    entries, and the recall of each answer against the entry's true
    neighbours. The search itself and the vector values are outside the
    model: a vector is a sequence of integers standing for its components,
    and the search answer is a parameter. */
module Search {
  import opened Common
  import opened Settings

  /** A vector with its id and its scalar payload. */
  datatype VectorWithId = VectorWithId(id: int, vector: seq<int>, scalarData: seq<(string, string)>)

  /** A ground-truth query of the dataset: the probe vector, the ids of its
      true neighbours, and its optional filters. */
  datatype TestEntry = TestEntry(vectorWithId: VectorWithId, neighbors: set<int>, filterJson: string,
                                 filterVectorIds: seq<int>)

  /** `topk`, or a range search (its radius is a floating point flag). */
  datatype SearchLimit = TopK(k: nat) | Radius

  datatype ExtraParamType = Nprobe | EfSearch

  datatype SearchParam = SearchParam(
    withVectorData: bool,
    withScalarData: bool,
    withTableData: bool,
    useBruteForce: bool,
    limit: SearchLimit,
    filterType: FilterType,
    filterSource: FilterSource,
    vectorIds: seq<int>,
    isNegation: bool,
    isSorted: bool,
    extraParams: map<ExtraParamType, nat>,
    beamwidth: Option<nat>,
    langchainExprJson: string)

  // ---- Synthetic search (ExecuteAutoData) ----

  /** `GenerateRealRandomInteger(1, 10000000)` on the draw `r`. */
  function RandomVectorId(r: nat): (id: int)
    ensures 1 <= id <= 10000000
  {
    1 + r % 10000000
  }

  /** The `n` random ids of a vector id filter; `draw(k)` is the k-th draw. */
  function RandomIds(draw: nat -> nat, n: nat): (ids: seq<int>)
    ensures |ids| == n
  {
    if n == 0 then [] else RandomIds(draw, n - 1) + [RandomVectorId(draw(n - 1))]
  }

  lemma {:induction false} RandomIdsInRange(draw: nat -> nat, n: nat)
    ensures forall k :: 0 <= k < n ==> 1 <= RandomIds(draw, n)[k] <= 10000000
  {
    if n > 0 {
      RandomIdsInRange(draw, n - 1);
      assert forall k :: 0 <= k < n - 1 ==> RandomIds(draw, n)[k] == RandomIds(draw, n - 1)[k];
    }
  }

  /** The search parameters of a synthetic search: a range search or a
      top-k one, the filter strings resolved, and for a vector id filter
      `vector_search_filter_vector_id_num` random ids. The negation and
      sorted marks are set inside the loop that draws the ids, so they stay
      unset when no id is drawn. */
  function AutoSearchParam(cfg: Config, draw: nat -> nat): SearchParam
  {
    var source := FilterSourceOf(cfg.filterSource);
    var ids := if source == VectorIdFilter then RandomIds(draw, cfg.filterVectorIdNum) else [];
    SearchParam(cfg.withVectorData, cfg.withScalarData, cfg.withTableData, cfg.useBruteForce,
                if cfg.enableRangeSearch then Radius else TopK(cfg.searchTopk),
                FilterTypeOf(cfg.filterType), source,
                ids, ids != [] && cfg.filterIsNegation, ids != [],
                map[], None, "")
  }

  lemma AutoSearchParamSpec(cfg: Config, draw: nat -> nat)
    ensures var p := AutoSearchParam(cfg, draw);
            && (p.limit == Radius <==> cfg.enableRangeSearch)
            && (p.limit.TopK? ==> p.limit.k == cfg.searchTopk)
            && p.filterType == FilterTypeOf(cfg.filterType)
            && p.filterSource == FilterSourceOf(cfg.filterSource)
            && (p.filterSource == VectorIdFilter <==> MatchesIgnoringCase(cfg.filterSource, "VECTOR_ID"))
            && (p.filterType == NoneFilterType <==>
                  !MatchesIgnoringCase(cfg.filterType, "PRE") && !MatchesIgnoringCase(cfg.filterType, "POST"))
            && |p.vectorIds| == (if p.filterSource == VectorIdFilter then cfg.filterVectorIdNum else 0)
            && (forall k :: 0 <= k < |p.vectorIds| ==> 1 <= p.vectorIds[k] <= 10000000)
            && (p.isSorted <==> p.vectorIds != [])
            && (p.isNegation <==> p.vectorIds != [] && cfg.filterIsNegation)
            && p.extraParams == map[] && p.beamwidth == None
  {
    FilterSourceResolution(cfg.filterSource);
    FilterTypeResolution(cfg.filterType);
    RandomIdsInRange(draw, cfg.filterVectorIdNum);
  }

  /** The synthetic queries: one vector with id 0 when `batch_size <= 1`,
      otherwise `batch_size` of them; `genVector(k)` is the k-th vector drawn. */
  function AutoQueries(cfg: Config, genVector: nat -> seq<int>): (qs: seq<VectorWithId>)
    ensures |qs| == (if cfg.batchSize <= 1 then 1 else cfg.batchSize)
    ensures forall k :: 0 <= k < |qs| ==> qs[k] == VectorWithId(0, genVector(k), [])
  {
    var n := if cfg.batchSize <= 1 then 1 else cfg.batchSize;
    seq(n, (k: int) requires 0 <= k => VectorWithId(0, genVector(k), []))
  }

  // ---- Dataset search (ExecuteManualData) ----

  /** The index-type specific search parameter: nprobe for the IVF
      indexes, ef for HNSW (the type is compared as written, case and all). */
  function ExtraParamsFor(cfg: Config): map<ExtraParamType, nat>
  {
    if cfg.vectorIndexType == "IVF_FLAT" || cfg.vectorIndexType == "IVF_PQ" then map[Nprobe := cfg.nprobe]
    else if cfg.vectorIndexType == "HNSW" then map[EfSearch := cfg.ef]
    else map[]
  }

  /** Which test entry a search at `offset` (the next id of the index's
      generator) uses: the entries are taken round-robin. */
  function TestEntryIndex(offset: nat, n: nat): (i: nat)
    requires n > 0
    ensures i < n
  {
    offset % n
  }

  /** The search parameters of a dataset search: always top-k (the range
      flag is not read on this path), the index-type parameter, the DiskANN
      beam width, the scalar filter of the FIRST test entry when the
      coprocessor is on, and the vector id filter of the selected entry. */
  function ManualSearchParam(cfg: Config, entries: seq<TestEntry>, offset: nat): SearchParam
    requires |entries| > 0
  {
    var source := FilterSourceOf(cfg.filterSource);
    var selected := entries[TestEntryIndex(offset, |entries|)];
    var byIds := source == VectorIdFilter && selected.filterVectorIds != [];
    SearchParam(cfg.withVectorData, cfg.withScalarData, cfg.withTableData, cfg.useBruteForce,
                TopK(cfg.searchTopk), FilterTypeOf(cfg.filterType), source,
                if byIds then selected.filterVectorIds else [],
                byIds && cfg.filterIsNegation, byIds,
                ExtraParamsFor(cfg),
                if cfg.vectorIndexType == "DISKANN" then Some(cfg.beamwidth) else None,
                if cfg.useCoprocessor && entries[0].filterJson != "" then entries[0].filterJson else "")
  }

  /** At most one index-type parameter: nprobe exactly for the IVF
      indexes, ef exactly for HNSW, none for the others. */
  lemma ExtraParamsSpec(cfg: Config)
    ensures var m := ExtraParamsFor(cfg);
            && |m| <= 1
            && (Nprobe in m <==> cfg.vectorIndexType in {"IVF_FLAT", "IVF_PQ"})
            && (Nprobe in m ==> m[Nprobe] == cfg.nprobe)
            && (EfSearch in m <==> cfg.vectorIndexType == "HNSW")
            && (EfSearch in m ==> m[EfSearch] == cfg.ef)
  {
    var m := ExtraParamsFor(cfg);
    if cfg.vectorIndexType == "IVF_FLAT" || cfg.vectorIndexType == "IVF_PQ" {
      assert m.Keys == {Nprobe};
    } else if cfg.vectorIndexType == "HNSW" {
      assert m.Keys == {EfSearch};
    }
  }

  /** A dataset search is a top-k search; the DiskANN beam width is set
      only for DiskANN, which has no other index-type parameter; a vector
      id filter holds the ids of the selected entry and is then marked
      sorted; a scalar filter comes from the first entry, only with the
      coprocessor on. */
  lemma ManualSearchParamSpec(cfg: Config, entries: seq<TestEntry>, offset: nat)
    requires |entries| > 0
    ensures var p := ManualSearchParam(cfg, entries, offset);
            && p.limit == TopK(cfg.searchTopk)
            && (p.beamwidth.Some? <==> cfg.vectorIndexType == "DISKANN")
            && (p.beamwidth.Some? ==> p.beamwidth.value == cfg.beamwidth && p.extraParams == map[])
            && p.filterType == FilterTypeOf(cfg.filterType)
            && p.filterSource == FilterSourceOf(cfg.filterSource)
            && p.extraParams == ExtraParamsFor(cfg)
            && (p.vectorIds != [] <==>
                  FilterSourceOf(cfg.filterSource) == VectorIdFilter && entries[offset % |entries|].filterVectorIds != [])
            && (p.vectorIds != [] ==> p.vectorIds == entries[offset % |entries|].filterVectorIds)
            && (p.isSorted <==> p.vectorIds != [])
            && (p.isNegation <==> p.vectorIds != [] && cfg.filterIsNegation)
            && p.langchainExprJson == (if cfg.useCoprocessor then entries[0].filterJson else "")
  {
    ExtraParamsSpec(cfg);
  }

  /** The query sent for a test entry: without filters only the id and the
      vector are copied, with a filter the whole vector with its payload. */
  function QueryFor(cfg: Config, e: TestEntry): (q: VectorWithId)
    ensures q.id == e.vectorWithId.id && q.vector == e.vectorWithId.vector
    ensures FilterTypeOf(cfg.filterType) != NoneFilterType || FilterSourceOf(cfg.filterSource) != NoneFilterSource ==>
              q == e.vectorWithId
    ensures q == e.vectorWithId || q.scalarData == []
  {
    if FilterTypeOf(cfg.filterType) == NoneFilterType && FilterSourceOf(cfg.filterSource) == NoneFilterSource
    then VectorWithId(e.vectorWithId.id, e.vectorWithId.vector, [])
    else e.vectorWithId
  }

  /** The test entries a dataset search at `offset` queries, by index:
      `batch_size` consecutive entries from the selected one, round-robin.
      (With `batch_size <= 1`, the single selected entry.) */
  function BatchEntryIndices(offset: nat, batchSize: nat, n: nat): (ix: seq<nat>)
    requires n > 0
    ensures |ix| == (if batchSize <= 1 then 1 else batchSize)
    ensures forall k :: 0 <= k < |ix| ==> ix[k] == (offset + k) % n
  {
    var m := if batchSize <= 1 then 1 else batchSize;
    seq(m, (k: int) requires 0 <= k => (offset + k) % n)
  }

  /** The batch starts at the selected entry, every index is an entry, and
      no entry is queried twice while the batch is no larger than the
      dataset. */
  lemma BatchEntryIndicesSpec(offset: nat, batchSize: nat, n: nat)
    requires n > 0
    ensures var ix := BatchEntryIndices(offset, batchSize, n);
            && ix[0] == TestEntryIndex(offset, n)
            && (forall k :: 0 <= k < |ix| ==> ix[k] < n)
            && (|ix| <= n ==> forall j, k :: 0 <= j < k < |ix| ==> ix[j] != ix[k])
  {
    var ix := BatchEntryIndices(offset, batchSize, n);
    if |ix| <= n {
      forall j, k | 0 <= j < k < |ix|
        ensures ix[j] != ix[k]
      {
        ModDistinct(offset + j, offset + k, n);
      }
    }
  }

  /** Two numbers less than `n` apart have different remainders. */
  lemma ModDistinct(a: nat, b: nat, n: nat)
    requires n > 0 && a < b < a + n
    ensures a % n != b % n
  {
    var q, s, d := a / n, a % n, b - a;
    assert a == q * n + s;
    if s + d < n {
      ModUnique(b, q, s + d, n);
    } else {
      ModUnique(b, q + 1, s + d - n, n);
    }
  }

  /** Every test entry is selected by one of any `n` consecutive offsets
      (and by only one: see `BatchEntryIndicesSpec`). */
  lemma EntriesInTurn(offset: nat, n: nat, i: nat) returns (k: nat)
    requires i < n
    ensures k < n && TestEntryIndex(offset + k, n) == i
  {
    var q, s := offset / n, offset % n;
    assert offset == q * n + s;
    if i >= s {
      k := i - s;
      ModUnique(offset + k, q, i, n);
    } else {
      k := i + n - s;
      ModUnique(offset + k, q + 1, i, n);
    }
  }

  /** The entries of `offset .. batch_size - 1` as the multi-query path
      loops over them; none at all once `offset` reaches `batch_size`. */
  function BatchEntryIndicesAsWritten(offset: nat, batchSize: nat, n: nat): (ix: seq<nat>)
    requires n > 0
  {
    if batchSize <= 1 then [offset % n]
    else if offset >= batchSize then []
    else seq(batchSize - offset, (k: int) requires 0 <= k => (offset + k) % n)
  }

  /** With `batch_size` 4 the search at offset 5, the sixth id of the
      generator, sends no query at all, where `batch_size` queries were
      meant. */
  lemma AsWrittenBatchEmpty()
    ensures BatchEntryIndicesAsWritten(5, 4, 100) == []
    ensures |BatchEntryIndices(5, 4, 100)| == 4
  {
  }

  // ---- Recall (CalculateRecallRate) ----

  const U32: nat := 0x1_0000_0000

  /** The returned ids that are true neighbours, counted with repetition. */
  function Hits(neighbors: set<int>, found: seq<int>): (h: nat)
    ensures h <= |found|
  {
    if found == [] then 0
    else Hits(neighbors, found[..|found| - 1]) + (if found[|found| - 1] in neighbors then 1 else 0)
  }

  /** Every id returned is a hit exactly when all are neighbours, none
      when none is. */
  lemma {:induction false} HitsExtremes(neighbors: set<int>, found: seq<int>)
    ensures Hits(neighbors, found) == |found| <==> forall k :: 0 <= k < |found| ==> found[k] in neighbors
    ensures Hits(neighbors, found) == 0 <==> forall k :: 0 <= k < |found| ==> found[k] !in neighbors
  {
    if found != [] {
      var init := found[..|found| - 1];
      HitsExtremes(neighbors, init);
      assert forall k :: 0 <= k < |init| ==> init[k] == found[k];
    }
  }

  function Elements(found: seq<int>): set<int>
  {
    set k | 0 <= k < |found| :: found[k]
  }

  predicate Distinct(found: seq<int>)
  {
    forall j, k :: 0 <= j < k < |found| ==> found[j] != found[k]
  }

  /** A subset is no larger, a proper subset smaller. */
  lemma SubsetCard<T>(a: set<T>, b: set<T>)
    requires a <= b
    ensures |a| <= |b| && (a < b ==> |a| < |b|)
  {
    assert b == a + (b - a);
    assert a * (b - a) == {};
    if a < b {
      var x :| x in b - a;
    }
  }

  /** Without repeated ids the hits are the neighbours found. */
  lemma {:induction false} HitsDistinct(neighbors: set<int>, found: seq<int>)
    requires Distinct(found)
    ensures Hits(neighbors, found) == |neighbors * Elements(found)|
  {
    if found != [] {
      var init, x := found[..|found| - 1], found[|found| - 1];
      assert Distinct(init);
      HitsDistinct(neighbors, init);
      assert Elements(found) == Elements(init) + {x};
      assert x !in Elements(init);
      IntersectAdd(neighbors, Elements(init), x);
    }
  }

  lemma IntersectAdd(n: set<int>, e: set<int>, x: int)
    ensures n * (e + {x}) == if x in n then n * e + {x} else n * e
  {
  }

  /** `hit_count * 10000 / neighbors.size()`, without the 32-bit wrap. */
  function RecallFromHits(hits: nat, size: nat): nat
    requires size > 0
  {
    hits * 10000 / size
  }

  /** The recall of one answer in hundredths of a percent; the source
      divides by the number of neighbours, which must not be zero. */
  function CalculateRecallRate(neighbors: set<int>, found: seq<int>): nat
    requires |neighbors| > 0
  {
    RecallFromHits(Hits(neighbors, found), |neighbors|)
  }

  /** For an answer without repeated ids the recall is at most 10000, and
      it is 10000 exactly when every true neighbour was returned. */
  lemma RecallBounds(neighbors: set<int>, found: seq<int>)
    requires |neighbors| > 0 && Distinct(found)
    ensures CalculateRecallRate(neighbors, found) <= 10000
    ensures CalculateRecallRate(neighbors, found) == 10000 <==> neighbors <= Elements(found)
  {
    var common := neighbors * Elements(found);
    HitsDistinct(neighbors, found);
    SubsetCard(common, neighbors);
    RecallScale(|common|, |neighbors|);
    if neighbors <= Elements(found) {
      assert common == neighbors;
    } else {
      assert common < neighbors;
    }
  }

  /** An answer with no true neighbour has recall 0. */
  lemma RecallNoHit(neighbors: set<int>, found: seq<int>)
    requires |neighbors| > 0
    requires forall k :: 0 <= k < |found| ==> found[k] !in neighbors
    ensures CalculateRecallRate(neighbors, found) == 0
  {
    HitsExtremes(neighbors, found);
  }

  lemma MulMono(x: int, y: int, n: int)
    requires x <= y && n >= 0
    ensures x * n <= y * n
  {
    assert y * n - x * n == (y - x) * n;
  }

  /** `h * 10000 / n` is at most 10000 for `h <= n`, and 10000 only for
      `h == n`. */
  lemma RecallScale(h: nat, n: nat)
    requires 0 < n && h <= n
    ensures RecallFromHits(h, n) <= 10000
    ensures RecallFromHits(h, n) == 10000 <==> h == n
  {
    var x := h * 10000;
    var r := x / n;
    assert r * n + x % n == x;
    MulMono(h, n, 10000);
    if h == n {
      ModUnique(x, 10000, 0, n);
    } else {
      MulMono(h, n - 1, 10000);
      assert x <= n * 10000 - 10000;
    }
    if r >= 10000 {
      MulMono(10000, r, n);
    }
  }

  /** `CalculateRecallRate` as written: `hit_count` is a 32-bit unsigned
      counter and `hit_count * 10000` is computed in 32 bits before the
      division. */
  function RecallFromHitsAsWritten(hits: nat, size: nat): nat
    requires size > 0
  {
    ((hits % U32) * 10000 % U32) / size
  }

  /** Below the wrap both agree; with 429497 neighbours all returned the
      as-written recall is 0 where 10000 is meant. */
  lemma RecallWrap(hits: nat, size: nat)
    requires size > 0
    ensures hits * 10000 < U32 ==> RecallFromHitsAsWritten(hits, size) == RecallFromHits(hits, size)
    ensures RecallFromHitsAsWritten(429497, 429497) == 0 && RecallFromHits(429497, 429497) == 10000
  {
  }

  /** The recalls of a dataset search (operation.cc:1318-1333): nothing
      when the search failed, otherwise one per queried test entry, 0 for
      an entry the answer has no result for. `results[i]` holds the ids
      returned for the i-th query. */
  method Recalls(status: Status, batchEntries: seq<TestEntry>, results: seq<seq<int>>) returns (recalls: seq<nat>)
    requires forall i :: 0 <= i < |batchEntries| && i < |results| ==> |batchEntries[i].neighbors| > 0
    ensures !status.IsOk() ==> recalls == []
    ensures status.IsOk() ==> |recalls| == |batchEntries|
    ensures status.IsOk() ==> forall i :: 0 <= i < |recalls| ==>
              recalls[i] == (if i < |results| then CalculateRecallRate(batchEntries[i].neighbors, results[i]) else 0)
  {
    recalls := [];
    if !status.IsOk() {
      return;
    }
    var i := 0;
    while i < |batchEntries|
      invariant 0 <= i <= |batchEntries| && |recalls| == i
      invariant forall k :: 0 <= k < i ==>
                  recalls[k] == (if k < |results| then CalculateRecallRate(batchEntries[k].neighbors, results[k]) else 0)
    {
      if i < |results| {
        recalls := recalls + [CalculateRecallRate(batchEntries[i].neighbors, results[i])];
      } else {
        recalls := recalls + [0];
      }
      i := i + 1;
    }
  }

  /** Every recall of an answer without repeated ids is at most 10000. */
  lemma RecallsBounded(batchEntries: seq<TestEntry>, results: seq<seq<int>>, recalls: seq<nat>)
    requires forall i :: 0 <= i < |batchEntries| && i < |results| ==> |batchEntries[i].neighbors| > 0
    requires forall i :: 0 <= i < |results| ==> Distinct(results[i])
    requires |recalls| == |batchEntries|
    requires forall i :: 0 <= i < |recalls| ==>
               recalls[i] == (if i < |results| then CalculateRecallRate(batchEntries[i].neighbors, results[i]) else 0)
    ensures forall i :: 0 <= i < |recalls| ==> recalls[i] <= 10000
  {
    forall i | 0 <= i < |recalls| && i < |results|
      ensures recalls[i] <= 10000
    {
      RecallBounds(batchEntries[i].neighbors, results[i]);
    }
  }
}
