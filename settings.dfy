/** The benchmark's command-line flags as one immutable record, and the
    case-insensitive resolution of the string-valued ones: the transaction
    isolation level (operation.cc:158-168) and the vector search filter type
    and source (operation.cc:1155-1173, 1244-1262). */
module Settings {
  import opened Common

  /** The flags the modelled operations read (operation.cc:46-96). */
  datatype Config = Config(
    keySize: nat,                  // key_size
    valueSize: nat,                // value_size
    batchSize: nat,                // batch_size
    arrangeKvNum: nat,             // arrange_kv_num
    isPessimisticTxn: bool,        // is_pessimistic_txn
    txnIsolationLevel: string,     // txn_isolation_level
    vectorIndexType: string,       // vector_index_type
    searchTopk: nat,               // vector_search_topk
    withVectorData: bool,
    withScalarData: bool,
    withTableData: bool,
    useBruteForce: bool,           // vector_search_use_brute_force
    enableRangeSearch: bool,       // vector_search_enable_range_search
    filterType: string,            // vector_search_filter_type
    filterSource: string,          // vector_search_filter_source
    nprobe: nat,                   // vector_search_nprobe
    ef: nat,                       // vector_search_ef
    beamwidth: nat,                // diskann_search_beamwidth
    putBatchSize: nat,             // vector_put_batch_size
    arrangeConcurrency: nat,       // vector_arrange_concurrency
    filterVectorIdNum: nat,        // vector_search_filter_vector_id_num
    filterIsNegation: bool,        // filter_vector_id_is_negation
    useCoprocessor: bool)          // use_coprocessor

  // ---- ASCII case mapping (the `ToUpper` helper of the benchmark) ----

  function UpperChar(c: char): char
  {
    if 'a' <= c <= 'z' then (c as int - 32) as char else c
  }

  function LowerChar(c: char): char
  {
    if 'A' <= c <= 'Z' then (c as int + 32) as char else c
  }

  function ToUpper(s: string): (u: string)
    ensures |u| == |s|
  {
    seq(|s|, i requires 0 <= i < |s| => UpperChar(s[i]))
  }

  /** `s` spells the upper-case word `t` with each letter in either case;
      stated without `ToUpper`, as an independent reading of "case-insensitive". */
  predicate MatchesIgnoringCase(s: string, t: string)
  {
    |s| == |t| && forall i :: 0 <= i < |s| ==> s[i] == t[i] || s[i] == LowerChar(t[i])
  }

  predicate IsUpperWord(t: string)
  {
    forall i :: 0 <= i < |t| ==> UpperChar(t[i]) == t[i]
  }

  lemma UpperCharMatches(c: char, d: char)
    requires UpperChar(d) == d
    ensures UpperChar(c) == d <==> c == d || c == LowerChar(d)
  {
  }

  /** Comparing `ToUpper(s)` with an upper-case word is the same as matching
      `s` against it letter by letter in either case. */
  lemma {:induction false} ToUpperMatches(s: string, t: string)
    requires IsUpperWord(t)
    ensures ToUpper(s) == t <==> MatchesIgnoringCase(s, t)
  {
    if |s| == |t| {
      forall i | 0 <= i < |s|
        ensures UpperChar(s[i]) == t[i] <==> s[i] == t[i] || s[i] == LowerChar(t[i])
      {
        UpperCharMatches(s[i], t[i]);
      }
      if MatchesIgnoringCase(s, t) {
        assert forall i :: 0 <= i < |s| ==> ToUpper(s)[i] == t[i];
      }
    }
  }

  // ---- Transaction options ----

  datatype TxnKind = Optimistic | Pessimistic
  datatype Isolation = SnapshotIsolation | ReadCommitted
  datatype TxnOptions = TxnOptions(kind: TxnKind, isolation: Isolation)

  /** `GetTxnIsolationLevel`: "SI" and "RC" in any case; `None` stands for
      the `LOG(FATAL)` that ends the process on any other string. */
  function GetTxnIsolationLevel(level: string): Option<Isolation>
  {
    var u := ToUpper(level);
    if u == "SI" then Some(SnapshotIsolation)
    else if u == "RC" then Some(ReadCommitted)
    else None
  }

  /** The isolation level is snapshot isolation exactly for the spellings
      si/sI/Si/SI, read committed exactly for rc/rC/Rc/RC, and fatal for
      everything else. */
  lemma IsolationResolution(level: string)
    ensures GetTxnIsolationLevel(level) == Some(SnapshotIsolation) <==> MatchesIgnoringCase(level, "SI")
    ensures GetTxnIsolationLevel(level) == Some(ReadCommitted) <==> MatchesIgnoringCase(level, "RC")
    ensures GetTxnIsolationLevel(level) == None <==>
              !MatchesIgnoringCase(level, "SI") && !MatchesIgnoringCase(level, "RC")
  {
    ToUpperMatches(level, "SI");
    ToUpperMatches(level, "RC");
  }

  /** The options every transactional operation builds before it opens a
      transaction (operation.cc:317-319); `None` when the isolation flag is
      fatal. */
  function TxnOptionsFor(cfg: Config): (r: Option<TxnOptions>)
    ensures r.Some? <==> GetTxnIsolationLevel(cfg.txnIsolationLevel).Some?
    ensures r.Some? ==> r.value.isolation == GetTxnIsolationLevel(cfg.txnIsolationLevel).value
    ensures r.Some? ==> (r.value.kind == Pessimistic <==> cfg.isPessimisticTxn)
  {
    match GetTxnIsolationLevel(cfg.txnIsolationLevel)
    case None => None
    case Some(iso) => Some(TxnOptions(if cfg.isPessimisticTxn then Pessimistic else Optimistic, iso))
  }

  // ---- Vector search filter strings ----

  datatype FilterType = NoneFilterType | QueryPre | QueryPost
  datatype FilterSource = NoneFilterSource | ScalarFilter | TableFilter | VectorIdFilter

  function FilterTypeOf(s: string): FilterType
  {
    var u := ToUpper(s);
    if u == "PRE" then QueryPre else if u == "POST" then QueryPost else NoneFilterType
  }

  function FilterSourceOf(s: string): FilterSource
  {
    var u := ToUpper(s);
    if u == "SCALAR" then ScalarFilter
    else if u == "TABLE" then TableFilter
    else if u == "VECTOR_ID" then VectorIdFilter
    else NoneFilterSource
  }

  /** PRE and POST in any case select the pre and post filter; every other
      string, the empty one included, selects no filter. */
  lemma FilterTypeResolution(s: string)
    ensures FilterTypeOf(s) == QueryPre <==> MatchesIgnoringCase(s, "PRE")
    ensures FilterTypeOf(s) == QueryPost <==> MatchesIgnoringCase(s, "POST")
    ensures FilterTypeOf(s) == NoneFilterType <==>
              !MatchesIgnoringCase(s, "PRE") && !MatchesIgnoringCase(s, "POST")
  {
    ToUpperMatches(s, "PRE");
    ToUpperMatches(s, "POST");
  }

  /** SCALAR, TABLE and VECTOR_ID in any case select the matching source;
      every other string selects none. */
  lemma FilterSourceResolution(s: string)
    ensures FilterSourceOf(s) == ScalarFilter <==> MatchesIgnoringCase(s, "SCALAR")
    ensures FilterSourceOf(s) == TableFilter <==> MatchesIgnoringCase(s, "TABLE")
    ensures FilterSourceOf(s) == VectorIdFilter <==> MatchesIgnoringCase(s, "VECTOR_ID")
    ensures FilterSourceOf(s) == NoneFilterSource <==>
              !MatchesIgnoringCase(s, "SCALAR") && !MatchesIgnoringCase(s, "TABLE") &&
              !MatchesIgnoringCase(s, "VECTOR_ID")
  {
    ToUpperMatches(s, "SCALAR");
    ToUpperMatches(s, "TABLE");
    ToUpperMatches(s, "VECTOR_ID");
  }
}
