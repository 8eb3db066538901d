/** Loading vectors into an index before a search benchmark
    (operation.cc:988-1133): the split of the synthetic record count over
    the workers, one synthetic worker, one dataset worker, and the
    id-order check run before every put (operation.cc:502-513).

    A worker is modelled alone and in sequence. The vector put is a script
    of outcomes, one per call; a worker that still has to put once the
    script is used up is reported as stalled (the source keeps retrying). */
module BulkLoad {
  import opened Common

  // ---- Work split ----

  /** `actual_put_count_per_thread`: worker 0 takes the remainder too. The
      source divides by the worker count; the model requires it positive. */
  function WorkerQuota(n: nat, workers: nat, t: nat): nat
    requires workers > 0
  {
    if t == 0 then n / workers + n % workers else n / workers
  }

  /** The quotas of workers `0 .. k-1`. */
  function QuotaSum(n: nat, workers: nat, k: nat): nat
    requires workers > 0
  {
    if k == 0 then 0 else QuotaSum(n, workers, k - 1) + WorkerQuota(n, workers, k - 1)
  }

  lemma {:induction false} QuotaSumPrefix(n: nat, workers: nat, k: nat)
    requires workers > 0
    ensures QuotaSum(n, workers, k) == k * (n / workers) + (if k == 0 then 0 else n % workers)
  {
    if k > 0 {
      QuotaSumPrefix(n, workers, k - 1);
      assert k * (n / workers) == (k - 1) * (n / workers) + n / workers;
    }
  }

  /** The quotas of all workers add up to `arrange_kv_num`: nothing is
      lost or put twice by the split. */
  lemma QuotasCoverTotal(n: nat, workers: nat)
    requires workers > 0
    ensures QuotaSum(n, workers, workers) == n
  {
    QuotaSumPrefix(n, workers, workers);
  }

  // ---- What a worker sends ----

  /** One `VectorPut` call: the ids of the vectors it carries and whether
      it succeeded. */
  datatype PutCall = PutCall(batch: seq<int>, ok: bool)

  /** The ids of the successful puts, in order: what `count` counts. */
  function SentIds(calls: seq<PutCall>): seq<int>
  {
    if calls == [] then []
    else SentIds(calls[..|calls| - 1]) + (if calls[|calls| - 1].ok then calls[|calls| - 1].batch else [])
  }

  /** The vectors of the failed puts: what `fail_count` counts. */
  function FailedSize(calls: seq<PutCall>): nat
  {
    if calls == [] then 0
    else FailedSize(calls[..|calls| - 1]) + (if calls[|calls| - 1].ok then 0 else |calls[|calls| - 1].batch|)
  }

  /** The number of successful puts. */
  function Successes(calls: seq<PutCall>): nat
  {
    if calls == [] then 0 else Successes(calls[..|calls| - 1]) + (if calls[|calls| - 1].ok then 1 else 0)
  }

  /** The k-th put had the k-th scripted outcome. */
  predicate Follows(calls: seq<PutCall>, outcomes: seq<bool>)
  {
    |calls| <= |outcomes| && forall k :: 0 <= k < |calls| ==> calls[k].ok == outcomes[k]
  }

  /** A failed put is sent again, unchanged, by the very next put. */
  predicate ResendsFailed(calls: seq<PutCall>)
  {
    forall k :: 0 <= k < |calls| - 1 ==> Resent(calls, k)
  }

  predicate Resent(calls: seq<PutCall>, k: nat)
    requires k + 1 < |calls|
  {
    !calls[k].ok ==> calls[k + 1].batch == calls[k].batch
  }

  /** Every put carries at least one vector, and at most `batchSize` when
      that flag is positive. */
  predicate BatchesBounded(calls: seq<PutCall>, batchSize: nat)
  {
    forall k :: 0 <= k < |calls| ==> 1 <= |calls[k].batch| && (batchSize > 0 ==> |calls[k].batch| <= batchSize)
  }

  lemma AppendCall(calls: seq<PutCall>, c: PutCall)
    ensures c.ok ==> SentIds(calls + [c]) == SentIds(calls) + c.batch
    ensures !c.ok ==> SentIds(calls + [c]) == SentIds(calls)
    ensures FailedSize(calls + [c]) == FailedSize(calls) + (if c.ok then 0 else |c.batch|)
    ensures Successes(calls + [c]) == Successes(calls) + (if c.ok then 1 else 0)
  {
    assert (calls + [c])[..|calls|] == calls;
    assert SentIds(calls) + [] == SentIds(calls);
  }

  /** Recording the next scripted put keeps the three call predicates. */
  lemma RecordCall(calls: seq<PutCall>, c: PutCall, outcomes: seq<bool>, batchSize: nat)
    requires Follows(calls, outcomes) && ResendsFailed(calls) && BatchesBounded(calls, batchSize)
    requires |calls| < |outcomes| && c.ok == outcomes[|calls|]
    requires 1 <= |c.batch| && (batchSize > 0 ==> |c.batch| <= batchSize)
    requires |calls| > 0 && !calls[|calls| - 1].ok ==> c.batch == calls[|calls| - 1].batch
    ensures Follows(calls + [c], outcomes) && ResendsFailed(calls + [c]) && BatchesBounded(calls + [c], batchSize)
  {
    var cs := calls + [c];
    forall k | 0 <= k < |cs|
      ensures cs[k].ok == outcomes[k]
    {
      if k < |calls| {
        assert cs[k] == calls[k];
      }
    }
    forall k | 0 <= k < |cs| - 1
      ensures Resent(cs, k)
    {
      if k + 1 < |calls| {
        assert Resent(calls, k);
        assert cs[k] == calls[k] && cs[k + 1] == calls[k + 1];
      }
    }
    forall k | 0 <= k < |cs|
      ensures 1 <= |cs[k].batch| && (batchSize > 0 ==> |cs[k].batch| <= batchSize)
    {
      if k < |calls| {
        assert cs[k] == calls[k];
      }
    }
  }

  /** The first `n` ids the index's generator hands out to the worker. */
  function Ids(genId: nat -> int, n: nat): (ids: seq<int>)
    ensures |ids| == n
  {
    if n == 0 then [] else Ids(genId, n - 1) + [genId(n - 1)]
  }

  lemma IdsPush(sent: seq<int>, batch: seq<int>, genId: nat -> int, n: nat)
    requires sent + batch == Ids(genId, n)
    ensures sent + (batch + [genId(n)]) == Ids(genId, n + 1)
  {
    assert sent + (batch + [genId(n)]) == (sent + batch) + [genId(n)];
  }

  // ---- Synthetic data (ArrangeAutoData) ----

  /** What holds at the head of the synthetic worker's loop, when it is
      about to handle record `i`: `generated` ids were handed out, the
      successful puts carry the first `count` of them and `batch` the rest,
      and a pending retry holds exactly the batch whose put just failed. */
  predicate AutoInv(quota: nat, batchSize: nat, genId: nat -> int, outcomes: seq<bool>,
                    i: nat, retry: bool, batch: seq<int>, generated: nat,
                    calls: seq<PutCall>, count: nat, failCount: nat)
  {
    && 1 <= i <= quota + 1
    && Follows(calls, outcomes) && ResendsFailed(calls) && BatchesBounded(calls, batchSize)
    && generated == (if retry then i else i - 1)
    && SentIds(calls) + batch == Ids(genId, generated)
    && count == |SentIds(calls)| && failCount == FailedSize(calls)
    && SentIds(calls) == Ids(genId, count)
    && (retry ==> |calls| > 0 && !calls[|calls| - 1].ok && calls[|calls| - 1].batch == batch &&
                  (|batch| == batchSize || i == quota))
    && (|calls| > 0 && !calls[|calls| - 1].ok ==> retry)
    && (!retry && batchSize > 0 ==> |batch| < batchSize)
    && (i > quota ==> batch == [] && !retry)
  }

  /** One synthetic worker with quota `quota`: it asks the generator for a
      new id per record, except while it retries a failed batch, and puts
      a batch once it holds `batchSize` vectors or holds the last record.
      `genId(k)` is the id of the worker's k-th request. */
  method AutoWorker(quota: nat, batchSize: nat, genId: nat -> int, outcomes: seq<bool>)
    returns (finished: bool, calls: seq<PutCall>, count: nat, failCount: nat)
    ensures Follows(calls, outcomes) && ResendsFailed(calls) && BatchesBounded(calls, batchSize)
    ensures count == |SentIds(calls)| && failCount == FailedSize(calls)
    ensures SentIds(calls) == Ids(genId, count) && count <= quota
    ensures finished ==> count == quota
    ensures !finished ==> |calls| == |outcomes|
  {
    var i := 1;
    var retry := false;
    var batch: seq<int> := [];
    var generated := 0;
    calls, count, failCount := [], 0, 0;
    while i <= quota
      invariant AutoInv(quota, batchSize, genId, outcomes, i, retry, batch, generated, calls, count, failCount)
      decreases quota + 1 - i, |outcomes| - |calls|
    {
      var stalled;
      ghost var i0, used := i, |calls|;
      i, retry, batch, generated, calls, count, failCount, stalled :=
        AutoNext(quota, batchSize, genId, outcomes, i, retry, batch, generated, calls, count, failCount);
      if stalled {
        return false, calls, count, failCount;
      }
      assert i > i0 || |calls| > used;
    }
    finished := true;
  }

  /** One pass of the synthetic worker's loop body. */
  method AutoNext(quota: nat, batchSize: nat, genId: nat -> int, outcomes: seq<bool>,
                  i: nat, retry: bool, batch: seq<int>, generated: nat,
                  calls: seq<PutCall>, count: nat, failCount: nat)
    returns (i': nat, retry': bool, batch': seq<int>, generated': nat,
             calls': seq<PutCall>, count': nat, failCount': nat, stalled: bool)
    requires i <= quota
    requires AutoInv(quota, batchSize, genId, outcomes, i, retry, batch, generated, calls, count, failCount)
    ensures stalled ==> |calls| == |outcomes| && calls' == calls && count' == count && failCount' == failCount
    ensures !stalled ==> AutoInv(quota, batchSize, genId, outcomes, i', retry', batch', generated', calls', count', failCount')
    ensures !stalled ==> i' == i + 1 || (i' == i && |calls| < |calls'| <= |outcomes|)
  {
    i', retry', batch', generated', calls', count', failCount', stalled :=
      i, retry, batch, generated, calls, count, failCount, false;
    if !retry {
      IdsPush(SentIds(calls), batch, genId, generated);
      batch' := batch + [genId(generated)];
      generated' := generated + 1;
    }
    if |batch'| == batchSize || i == quota {
      if |calls| == |outcomes| {
        stalled := true;
        return;
      }
      var c := PutCall(batch', outcomes[|calls|]);
      AutoPut(quota, batchSize, genId, outcomes, i, retry, batch, generated, calls, count, failCount, c);
      calls' := calls + [c];
      if !c.ok {
        failCount' := failCount + |batch'|;
        retry' := true;
      } else {
        count' := count + |batch'|;
        batch' := [];
        retry' := false;
        i' := i + 1;
      }
    } else {
      i' := i + 1;
    }
  }

  /** A put at record `i`: on success the loop moves on to record `i + 1`
      with an empty batch, on failure it stays at `i` to retry. */
  lemma AutoPut(quota: nat, batchSize: nat, genId: nat -> int, outcomes: seq<bool>,
                i: nat, retry: bool, batch: seq<int>, generated: nat,
                calls: seq<PutCall>, count: nat, failCount: nat, c: PutCall)
    requires i <= quota
    requires AutoInv(quota, batchSize, genId, outcomes, i, retry, batch, generated, calls, count, failCount)
    requires c.batch == (if retry then batch else batch + [genId(generated)])
    requires |c.batch| == batchSize || i == quota
    requires |calls| < |outcomes| && c.ok == outcomes[|calls|]
    ensures c.ok ==> AutoInv(quota, batchSize, genId, outcomes, i + 1, false, [], i,
                             calls + [c], count + |c.batch|, failCount)
    ensures !c.ok ==> AutoInv(quota, batchSize, genId, outcomes, i, true, c.batch, i,
                              calls + [c], count, failCount + |c.batch|)
  {
    var g := if retry then generated else generated + 1;
    assert g == i;
    if !retry {
      IdsPush(SentIds(calls), batch, genId, generated);
    }
    assert SentIds(calls) + c.batch == Ids(genId, g);
    RecordCall(calls, c, outcomes, batchSize);
    AppendCall(calls, c);
    if c.ok {
      assert SentIds(calls + [c]) + [] == SentIds(calls + [c]);
    }
  }

  // ---- Dataset data (ArrangeManualData) ----

  /** What `GetBatchTrainData(batch_num, …)` yields: the ids of the
      batch's vectors and the end-of-data flag. */
  datatype TrainBatch = TrainBatch(ids: seq<int>, eof: bool)

  /** The batch worker `t` fetches in round `j`: batch number `t + W·j`. */
  function Round(dataset: nat -> TrainBatch, t: nat, workers: nat, j: nat): TrainBatch
  {
    dataset(t + workers * j)
  }

  /** The ids of the batches a worker puts in rounds `0 .. m-1`. */
  function RoundIds(dataset: nat -> TrainBatch, t: nat, workers: nat, m: nat): seq<int>
  {
    if m == 0 then [] else RoundIds(dataset, t, workers, m - 1) + Round(dataset, t, workers, m - 1).ids
  }

  /** Each put carries the batch of the worker's current round: after `j`
      successful puts, worker `t` puts round `j`. */
  predicate InRounds(calls: seq<PutCall>, dataset: nat -> TrainBatch, t: nat, workers: nat)
  {
    calls != [] ==>
      var prior := calls[..|calls| - 1];
      calls[|calls| - 1].batch == Round(dataset, t, workers, Successes(prior)).ids && InRounds(prior, dataset, t, workers)
  }

  /** The worker is done after `m` successful puts: round `m - 1` was
      flagged as the last batch, or round `m` is empty and flagged so. */
  predicate Ended(dataset: nat -> TrainBatch, t: nat, workers: nat, m: nat)
  {
    (m > 0 && Round(dataset, t, workers, m - 1).eof) ||
    (Round(dataset, t, workers, m).ids == [] && Round(dataset, t, workers, m).eof)
  }

  /** What holds at the head of the dataset worker's loop after `m`
      successful puts: it is at round `m`, no round put so far was the last
      one, and a pending retry holds round `m`, whose put just failed. */
  predicate ManualInv(t: nat, workers: nat, dataset: nat -> TrainBatch, outcomes: seq<bool>,
                      batchNum: nat, retry: bool, isEof: bool, batch: seq<int>,
                      calls: seq<PutCall>, count: nat, failCount: nat)
  {
    var m := Successes(calls);
    && Follows(calls, outcomes) && ResendsFailed(calls) && BatchesBounded(calls, 0)
    && InRounds(calls, dataset, t, workers)
    && batchNum == t + workers * m
    && count == |SentIds(calls)| && failCount == FailedSize(calls)
    && SentIds(calls) == RoundIds(dataset, t, workers, m)
    && (forall j :: 0 <= j < m ==> !Round(dataset, t, workers, j).eof)
    && (retry ==> |calls| > 0 && !calls[|calls| - 1].ok && calls[|calls| - 1].batch == batch &&
                  batch == Round(dataset, t, workers, m).ids && isEof == Round(dataset, t, workers, m).eof)
    && (|calls| > 0 && !calls[|calls| - 1].ok ==> retry)
  }

  /** Worker `t` of `workers` over the dataset: it fetches batch
      `t, t+W, t+2W, …`, puts it when it is not empty, resends a failed
      put without fetching again, and stops once a fetched batch is flagged
      as the last one. An empty batch that is not the last is fetched again
      and again in the source; the model reports it as stalled. */
  method ManualWorker(t: nat, workers: nat, dataset: nat -> TrainBatch, outcomes: seq<bool>)
    returns (finished: bool, calls: seq<PutCall>, count: nat, failCount: nat)
    ensures Follows(calls, outcomes) && ResendsFailed(calls) && BatchesBounded(calls, 0)
    ensures InRounds(calls, dataset, t, workers)
    ensures count == |SentIds(calls)| && failCount == FailedSize(calls)
    ensures SentIds(calls) == RoundIds(dataset, t, workers, Successes(calls))
    ensures forall j :: 0 <= j < Successes(calls) - 1 ==> !Round(dataset, t, workers, j).eof
    ensures finished <==> Ended(dataset, t, workers, Successes(calls))
    ensures !finished ==> |calls| == |outcomes| ||
                          (var next := Round(dataset, t, workers, Successes(calls)); next.ids == [] && !next.eof)
  {
    var batchNum := t;
    var retry := false;
    var isEof := false;
    var batch: seq<int> := [];
    calls, count, failCount := [], 0, 0;
    while true
      invariant ManualInv(t, workers, dataset, outcomes, batchNum, retry, isEof, batch, calls, count, failCount)
      decreases |outcomes| - |calls|
    {
      ghost var used := |calls|;
      var exit;
      batchNum, retry, isEof, batch, calls, count, failCount, exit, finished :=
        ManualNext(t, workers, dataset, outcomes, batchNum, retry, isEof, batch, calls, count, failCount);
      if exit {
        return;
      }
      assert |calls| > used;
    }
  }

  /** One pass of the dataset worker's loop body; `exit` says the loop
      is left, `finished` that it is left by the end-of-data flag. */
  method ManualNext(t: nat, workers: nat, dataset: nat -> TrainBatch, outcomes: seq<bool>,
                    batchNum: nat, retry: bool, isEof: bool, batch: seq<int>,
                    calls: seq<PutCall>, count: nat, failCount: nat)
    returns (batchNum': nat, retry': bool, isEof': bool, batch': seq<int>,
             calls': seq<PutCall>, count': nat, failCount': nat, exit: bool, finished: bool)
    requires ManualInv(t, workers, dataset, outcomes, batchNum, retry, isEof, batch, calls, count, failCount)
    ensures !exit ==> ManualInv(t, workers, dataset, outcomes, batchNum', retry', isEof', batch', calls', count', failCount')
    ensures !exit ==> |calls| < |calls'| <= |outcomes|
    ensures exit ==> Follows(calls', outcomes) && ResendsFailed(calls') && BatchesBounded(calls', 0)
    ensures exit ==> InRounds(calls', dataset, t, workers)
    ensures exit ==> count' == |SentIds(calls')| && failCount' == FailedSize(calls')
    ensures exit ==> SentIds(calls') == RoundIds(dataset, t, workers, Successes(calls'))
    ensures exit ==> forall j :: 0 <= j < Successes(calls') - 1 ==> !Round(dataset, t, workers, j).eof
    ensures exit ==> (finished <==> Ended(dataset, t, workers, Successes(calls')))
    ensures exit && !finished ==> |calls'| == |outcomes| ||
                                  (var next := Round(dataset, t, workers, Successes(calls')); next.ids == [] && !next.eof)
  {
    batchNum', retry', isEof', batch', calls', count', failCount', exit, finished :=
      batchNum, retry, isEof, batch, calls, count, failCount, false, false;
    var m := Successes(calls);
    assert m > 0 ==> !Round(dataset, t, workers, m - 1).eof;
    if !retry {
      var fetched := dataset(batchNum);
      batch', isEof' := fetched.ids, fetched.eof;
    }
    if batch' != [] {
      if |calls| == |outcomes| {
        exit := true;
        return;
      }
      var c := PutCall(batch', outcomes[|calls|]);
      calls' := calls + [c];
      if !c.ok {
        ManualPutFailed(t, workers, dataset, outcomes, batchNum, retry, isEof, batch, calls, count, failCount, c);
        failCount' := failCount + |batch'|;
        retry' := true;
        return;
      }
      ManualPutOk(t, workers, dataset, outcomes, batchNum, retry, isEof, batch, calls, count, failCount, c);
      MulSucc(workers, Successes(calls));
      count' := count + |batch'|;
      batch' := [];
      batchNum' := batchNum + workers;
      retry' := false;
    } else if !isEof' {
      exit := true;
      return;
    }
    if isEof' {
      exit, finished := true, true;
    }
  }

  /** A put of round `m` that fails: the worker keeps round `m` to retry. */
  lemma ManualPutFailed(t: nat, workers: nat, dataset: nat -> TrainBatch, outcomes: seq<bool>,
                        batchNum: nat, retry: bool, isEof: bool, batch: seq<int>,
                        calls: seq<PutCall>, count: nat, failCount: nat, c: PutCall)
    requires ManualInv(t, workers, dataset, outcomes, batchNum, retry, isEof, batch, calls, count, failCount)
    requires c.batch == Round(dataset, t, workers, Successes(calls)).ids && c.batch != []
    requires |calls| < |outcomes| && c.ok == outcomes[|calls|] && !c.ok
    ensures ManualInv(t, workers, dataset, outcomes, batchNum, true,
                      Round(dataset, t, workers, Successes(calls)).eof, c.batch,
                      calls + [c], count, failCount + |c.batch|)
  {
    RecordCall(calls, c, outcomes, 0);
    AppendCall(calls, c);
    var cs := calls + [c];
    assert cs[..|cs| - 1] == calls;
  }

  /** A put of round `m` that succeeds: the worker moves to round `m + 1`
      (or stops, when round `m` was the last one). */
  lemma ManualPutOk(t: nat, workers: nat, dataset: nat -> TrainBatch, outcomes: seq<bool>,
                    batchNum: nat, retry: bool, isEof: bool, batch: seq<int>,
                    calls: seq<PutCall>, count: nat, failCount: nat, c: PutCall)
    requires ManualInv(t, workers, dataset, outcomes, batchNum, retry, isEof, batch, calls, count, failCount)
    requires c.batch == Round(dataset, t, workers, Successes(calls)).ids && c.batch != []
    requires |calls| < |outcomes| && c.ok == outcomes[|calls|] && c.ok
    ensures Successes(calls + [c]) == Successes(calls) + 1
    ensures Follows(calls + [c], outcomes) && ResendsFailed(calls + [c]) && BatchesBounded(calls + [c], 0)
    ensures InRounds(calls + [c], dataset, t, workers)
    ensures count + |c.batch| == |SentIds(calls + [c])| && FailedSize(calls + [c]) == failCount
    ensures SentIds(calls + [c]) == RoundIds(dataset, t, workers, Successes(calls + [c]))
  {
    var m := Successes(calls);
    RecordCall(calls, c, outcomes, 0);
    AppendCall(calls, c);
    var cs := calls + [c];
    assert cs[..|cs| - 1] == calls;
  }

  lemma MulSucc(a: nat, b: nat)
    ensures a * (b + 1) == a * b + a
  {
  }

  // ---- Ids in order ----

  /** The id an id must exceed at position `k`: the one before it, or 0. */
  function Before(ids: seq<int>, k: nat): int
    requires k < |ids|
  {
    if k == 0 then 0 else ids[k - 1]
  }

  /** Every id is larger than the one before it, the first larger than 0. */
  predicate StepsUp(ids: seq<int>)
  {
    forall k :: 0 <= k < |ids| ==> ids[k] > Before(ids, k)
  }

  /** `IsMonotoneIncreasing`: the check that the ids of a batch rise. */
  method IsMonotoneIncreasing(ids: seq<int>) returns (b: bool)
    ensures b <==> StepsUp(ids)
  {
    var last := 0;
    var k := 0;
    while k < |ids|
      invariant 0 <= k <= |ids|
      invariant k > 0 ==> last == ids[k - 1]
      invariant k == 0 ==> last == 0
      invariant forall m :: 0 <= m < k ==> ids[m] > Before(ids, m)
    {
      if ids[k] <= last {
        assert ids[k] <= Before(ids, k);
        return false;
      }
      last := ids[k];
      k := k + 1;
    }
    return true;
  }

  /** Rising step by step from 0 is the same as every id positive and every
      later id larger than every earlier one. */
  lemma StepwiseIncreasing(ids: seq<int>)
    ensures StepsUp(ids) <==>
            (forall i :: 0 <= i < |ids| ==> ids[i] > 0) && (forall i, j :: 0 <= i < j < |ids| ==> ids[i] < ids[j])
  {
    if StepsUp(ids) {
      forall i, j | 0 <= i < j < |ids|
        ensures 0 < ids[i] < ids[j]
      {
        IncreasingBetween(ids, i, j);
      }
      forall i | 0 <= i < |ids|
        ensures ids[i] > 0
      {
        if i > 0 {
          IncreasingBetween(ids, 0, i);
        }
      }
    } else {
      var k :| 0 <= k < |ids| && ids[k] <= Before(ids, k);
      if k > 0 {
        assert !(ids[k - 1] < ids[k]);
      }
    }
  }

  lemma {:induction false} IncreasingBetween(ids: seq<int>, i: nat, j: nat)
    requires i < j < |ids| && StepsUp(ids)
    ensures 0 < ids[i] < ids[j]
    decreases j
  {
    assert ids[j] > Before(ids, j);
    if i < j - 1 {
      IncreasingBetween(ids, i, j - 1);
    } else if i > 0 {
      IncreasingBetween(ids, i - 1, i);
    } else {
      assert ids[0] > Before(ids, 0);
    }
  }

  /** Batch numbers: worker `t` in round `j` asks for `t + W·j`, so every
      batch number has exactly one worker and one round, and workers never
      ask for the same batch. */
  lemma BatchOwner(t: nat, workers: nat, j: nat)
    requires t < workers
    ensures (t + workers * j) % workers == t && (t + workers * j) / workers == j
  {
    ModUnique(t + workers * j, j, t, workers);
  }

  lemma WorkersDisjoint(t1: nat, j1: nat, t2: nat, j2: nat, workers: nat)
    requires t1 < workers && t2 < workers
    requires t1 + workers * j1 == t2 + workers * j2
    ensures t1 == t2 && j1 == j2
  {
    BatchOwner(t1, workers, j1);
    BatchOwner(t2, workers, j2);
  }
}
