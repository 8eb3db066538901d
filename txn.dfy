/** The client-side transaction protocol of the benchmark
    (operation.cc:307-500): NewTransaction, the mutations or reads in order,
    PreCommit, Commit; the first failing call ends the sequence and its
    status becomes the result; the transaction is deleted on every path.

    The remote side is an answer oracle: `answer(k)` is the status that the
    `k`-th call of the sequence returns (NewTransaction is call 0). */
module Txn {
  import opened Common
  import opened Settings

  /** The calls a transactional operation makes, in the order it makes them. */
  datatype TxnCall =
    | NewTransaction(options: TxnOptions)
    | Put(key: string, value: string)
    | BatchPut(kvs: seq<KvPair>)
    | Get(key: string)
    | BatchGet(keys: seq<string>)
    | PreCommit
    | Commit
    | Delete

  /** The calls between NewTransaction and PreCommit. */
  predicate IsBodyCall(c: TxnCall)
  {
    c.Put? || c.BatchPut? || c.Get? || c.BatchGet?
  }

  /** The full sequence of remote calls when nothing fails. */
  function Protocol(options: TxnOptions, body: seq<TxnCall>): seq<TxnCall>
  {
    [NewTransaction(options)] + body + [PreCommit, Commit]
  }

  /** Position of the first call at or after `from` whose answer is a
      failure, or `|steps|` when there is none. */
  function FirstFailure(steps: seq<TxnCall>, answer: nat -> Status, from: nat): (f: nat)
    requires from <= |steps|
    ensures from <= f <= |steps|
    ensures forall i :: from <= i < f ==> answer(i).IsOk()
    ensures f < |steps| ==> !answer(f).IsOk()
    decreases |steps| - from
  {
    if from == |steps| then |steps|
    else if !answer(from).IsOk() then from
    else FirstFailure(steps, answer, from + 1)
  }

  /** The remote calls actually made: the protocol up to and including the
      first failing call, then the deletion of the transaction object. */
  function TxnTrace(options: TxnOptions, body: seq<TxnCall>, answer: nat -> Status): seq<TxnCall>
  {
    var steps := Protocol(options, body);
    var f := FirstFailure(steps, answer, 0);
    (if f < |steps| then steps[..f + 1] else steps) + [Delete]
  }

  /** `result.status` is overwritten by every call, so it ends as the answer
      to the last remote call made. */
  function TxnStatus(options: TxnOptions, body: seq<TxnCall>, answer: nat -> Status): Status
  {
    var steps := Protocol(options, body);
    var f := FirstFailure(steps, answer, 0);
    if f < |steps| then answer(f) else answer(|steps| - 1)
  }

  /** The goto-based step sequence shared by the four transactional
      operations: each call's status overwrites the result, a failure jumps
      to the end, and the end always deletes the transaction. */
  method RunTransaction(options: TxnOptions, body: seq<TxnCall>, answer: nat -> Status)
    returns (status: Status, calls: seq<TxnCall>)
    ensures calls == TxnTrace(options, body, answer)
    ensures status == TxnStatus(options, body, answer)
  {
    ghost var steps := Protocol(options, body);
    ghost var f := FirstFailure(steps, answer, 0);
    calls := [NewTransaction(options)];
    status := answer(0);
    if status.IsOk() {
      var i := 0;
      while i < |body| && status.IsOk()
        invariant 0 <= i <= |body|
        invariant calls == steps[..i + 1]
        invariant status == answer(i)
        invariant status.IsOk() ==> f > i
        invariant !status.IsOk() ==> f == i
      {
        calls := calls + [body[i]];
        i := i + 1;
        status := answer(i);
      }
      if status.IsOk() {
        assert i == |body| && f > |body|;
        calls := calls + [PreCommit];
        status := answer(|body| + 1);
        if status.IsOk() {
          calls := calls + [Commit];
          status := answer(|body| + 2);
        }
      }
    }
    calls := calls + [Delete];
  }

  // ---- What the protocol guarantees ----

  /** Where each call sits in the protocol. */
  lemma ProtocolAt(options: TxnOptions, body: seq<TxnCall>, k: nat)
    requires forall c :: c in body ==> IsBodyCall(c)
    requires k < |body| + 3
    ensures var steps := Protocol(options, body);
            |steps| == |body| + 3 &&
            (k == 0 ==> steps[k] == NewTransaction(options)) &&
            (0 < k <= |body| ==> steps[k] == body[k - 1] && IsBodyCall(steps[k])) &&
            (k == |body| + 1 ==> steps[k] == PreCommit) &&
            (k == |body| + 2 ==> steps[k] == Commit)
  {
    if 0 < k <= |body| {
      assert body[k - 1] in body;
    }
  }

  /** If NewTransaction or any mutation or read fails, PreCommit and Commit
      are never called, and the result is that failure's status (the first
      one, if several would fail). */
  lemma {:induction false} FailureSkipsCommit(options: TxnOptions, body: seq<TxnCall>, answer: nat -> Status, j: nat)
    requires forall c :: c in body ==> IsBodyCall(c)
    requires j <= |body| && !answer(j).IsOk()
    ensures PreCommit !in TxnTrace(options, body, answer)
    ensures Commit !in TxnTrace(options, body, answer)
    ensures !TxnStatus(options, body, answer).IsOk()
    ensures exists i :: 0 <= i <= j && TxnStatus(options, body, answer) == answer(i) &&
                        forall k :: 0 <= k < i ==> answer(k).IsOk()
  {
    var steps := Protocol(options, body);
    var f := FirstFailure(steps, answer, 0);
    assert f <= j;
    var prefix := steps[..f + 1];
    forall k | 0 <= k < |prefix|
      ensures prefix[k] != PreCommit && prefix[k] != Commit
    {
      ProtocolAt(options, body, k);
    }
  }

  /** Commit is called only once PreCommit has been called and succeeded,
      after every earlier call succeeded. */
  lemma CommitNeedsPreCommit(options: TxnOptions, body: seq<TxnCall>, answer: nat -> Status)
    requires forall c :: c in body ==> IsBodyCall(c)
    ensures Commit in TxnTrace(options, body, answer) ==>
              PreCommit in TxnTrace(options, body, answer) &&
              forall k :: 0 <= k <= |body| + 1 ==> answer(k).IsOk()
  {
    var steps := Protocol(options, body);
    var f := FirstFailure(steps, answer, 0);
    var trace := TxnTrace(options, body, answer);
    if Commit in trace {
      if f < |steps| {
        var prefix := steps[..f + 1];
        var k :| 0 <= k < |prefix| && prefix[k] == Commit;
        ProtocolAt(options, body, k);
        assert f == |body| + 2;
      }
      assert steps[|body| + 1] == PreCommit;
      assert trace[|body| + 1] == PreCommit;
    }
  }

  /** The transaction object is deleted exactly once, by the last step, and
      the calls before it are a prefix of the protocol, in order. */
  lemma DeletedExactlyOnce(options: TxnOptions, body: seq<TxnCall>, answer: nat -> Status)
    requires forall c :: c in body ==> IsBodyCall(c)
    ensures var trace := TxnTrace(options, body, answer);
            |trace| >= 2 && trace[|trace| - 1] == Delete &&
            multiset(trace)[Delete] == 1 &&
            trace[..|trace| - 1] <= Protocol(options, body)
  {
    var steps := Protocol(options, body);
    var f := FirstFailure(steps, answer, 0);
    var made := if f < |steps| then steps[..f + 1] else steps;
    assert forall k :: 0 < k <= |body| ==> steps[k] == body[k - 1];
    assert Delete !in steps;
    assert Delete !in made;
    assert multiset(made)[Delete] == 0;
    assert TxnTrace(options, body, answer) == made + [Delete];
    assert (made + [Delete])[..|made|] == made;
  }

  /** With a collaborator that accepts every call, the whole protocol runs,
      the transaction is then deleted, and the result is success. */
  lemma AllSucceed(options: TxnOptions, body: seq<TxnCall>, answer: nat -> Status)
    requires forall k :: 0 <= k < |body| + 3 ==> answer(k).IsOk()
    ensures TxnTrace(options, body, answer) == Protocol(options, body) + [Delete]
    ensures TxnStatus(options, body, answer) == Ok
  {
    var f := FirstFailure(Protocol(options, body), answer, 0);
    assert f == |body| + 3;
  }

  // ---- The four transactional operations ----

  /** What an operation returns: its status and byte counts (the elapsed
      time is not modelled). */
  datatype OpResult = OpResult(status: Status, readBytes: nat, writeBytes: nat)

  /** `Fatal` stands for the `LOG(FATAL)` of an unsupported isolation level,
      which ends the process before any call is made. */
  datatype TxnOutcome = Fatal | Ran(result: OpResult, calls: seq<TxnCall>)

  function PutCalls(kvs: seq<KvPair>): (cs: seq<TxnCall>)
    ensures |cs| == |kvs| && forall c :: c in cs ==> IsBodyCall(c)
  {
    seq(|kvs|, i requires 0 <= i < |kvs| => Put(kvs[i].key, kvs[i].value))
  }

  function GetCalls(keys: seq<string>): (cs: seq<TxnCall>)
    ensures |cs| == |keys| && forall c :: c in cs ==> IsBodyCall(c)
  {
    seq(|keys|, i requires 0 <= i < |keys| => Get(keys[i]))
  }

  function BatchGetCalls(batches: seq<seq<string>>): (cs: seq<TxnCall>)
    ensures |cs| == |batches| && forall c :: c in cs ==> IsBodyCall(c)
  {
    seq(|batches|, i requires 0 <= i < |batches| => BatchGet(batches[i]))
  }

  /** `write_bytes` of a transactional put, summed before the transaction
      starts (operation.cc:310-312, 375-377). */
  method WriteBytes(kvs: seq<KvPair>) returns (bytes: nat)
    ensures bytes == PairBytes(kvs)
  {
    bytes := 0;
    var i := 0;
    while i < |kvs|
      invariant 0 <= i <= |kvs|
      invariant bytes == PairBytes(kvs[..i])
    {
      assert kvs[..i + 1][..i] == kvs[..i];
      bytes := bytes + |kvs[i].key| + |kvs[i].value|;
      i := i + 1;
    }
    assert kvs[..i] == kvs;
  }

  /** `KvTxnPut(kvs)`: one Put per pair. The write bytes are reported even
      when the transaction fails. */
  method KvTxnPut(cfg: Config, kvs: seq<KvPair>, answer: nat -> Status) returns (out: TxnOutcome)
    ensures out.Fatal? <==> TxnOptionsFor(cfg).None?
    ensures out.Ran? ==>
              var options := TxnOptionsFor(cfg).value;
              out.result == OpResult(TxnStatus(options, PutCalls(kvs), answer), 0, PairBytes(kvs)) &&
              out.calls == TxnTrace(options, PutCalls(kvs), answer)
  {
    var bytes := WriteBytes(kvs);
    var options := TxnOptionsFor(cfg);
    if options.None? {
      return Fatal;
    }
    var status, calls := RunTransaction(options.value, PutCalls(kvs), answer);
    out := Ran(OpResult(status, 0, bytes), calls);
  }

  /** `KvTxnBatchPut(kvs)`: the whole batch in one BatchPut call. */
  method KvTxnBatchPut(cfg: Config, kvs: seq<KvPair>, answer: nat -> Status) returns (out: TxnOutcome)
    ensures out.Fatal? <==> TxnOptionsFor(cfg).None?
    ensures out.Ran? ==>
              var options := TxnOptionsFor(cfg).value;
              out.result == OpResult(TxnStatus(options, [BatchPut(kvs)], answer), 0, PairBytes(kvs)) &&
              out.calls == TxnTrace(options, [BatchPut(kvs)], answer)
  {
    var bytes := WriteBytes(kvs);
    var options := TxnOptionsFor(cfg);
    if options.None? {
      return Fatal;
    }
    var status, calls := RunTransaction(options.value, [BatchPut(kvs)], answer);
    out := Ran(OpResult(status, 0, bytes), calls);
  }

  /** `KvTxnGet(keys)`: one Get per key. Neither byte count is set. */
  method KvTxnGet(cfg: Config, keys: seq<string>, answer: nat -> Status) returns (out: TxnOutcome)
    ensures out.Fatal? <==> TxnOptionsFor(cfg).None?
    ensures out.Ran? ==>
              var options := TxnOptionsFor(cfg).value;
              out.result == OpResult(TxnStatus(options, GetCalls(keys), answer), 0, 0) &&
              out.calls == TxnTrace(options, GetCalls(keys), answer)
  {
    var options := TxnOptionsFor(cfg);
    if options.None? {
      return Fatal;
    }
    var status, calls := RunTransaction(options.value, GetCalls(keys), answer);
    out := Ran(OpResult(status, 0, 0), calls);
  }

  /** `KvTxnBatchGet(batches)`: one BatchGet per batch of keys. */
  method KvTxnBatchGet(cfg: Config, batches: seq<seq<string>>, answer: nat -> Status) returns (out: TxnOutcome)
    ensures out.Fatal? <==> TxnOptionsFor(cfg).None?
    ensures out.Ran? ==>
              var options := TxnOptionsFor(cfg).value;
              out.result == OpResult(TxnStatus(options, BatchGetCalls(batches), answer), 0, 0) &&
              out.calls == TxnTrace(options, BatchGetCalls(batches), answer)
  {
    var options := TxnOptionsFor(cfg);
    if options.None? {
      return Fatal;
    }
    var status, calls := RunTransaction(options.value, BatchGetCalls(batches), answer);
    out := Ran(OpResult(status, 0, 0), calls);
  }
}
