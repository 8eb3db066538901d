/** One region of the key-value benchmark (`RegionEntry`) and the operations
    that draw keys from its counter or read keys back through its cursor
    (operation.cc:199-305, 353-370, 608-793). A remote call is a parameter:
    the status (and, for reads, the data) the store answers. */
module Regions {
  import opened Common
  import opened Keys
  import opened Settings
  import Txn

  /** What the store answers to a read: its status, the value of a single
      Get, and the pairs of a BatchGet. */
  datatype ReadReply = ReadReply(status: Status, value: string, pairs: seq<KvPair>)

  /** The key of record `i` of a generated batch: a random string drawn by
      call `firstCall + 2i`, or the sequential key of counter value
      `start + i`. */
  function BatchKey(tag: string, prefix: string, cfg: Config, isRandom: bool, start: nat, i: nat,
                    draw: (nat, nat) -> nat, firstCall: nat): string
  {
    if isRandom then tag + prefix + RandomString(draw, firstCall + 2 * i, cfg.keySize - |prefix|)
    else SeqKey(tag, prefix, cfg.keySize, start + i)
  }

  /** Record `i` of a generated batch; its value of `value_size`
      characters comes from draw call `firstCall + 2i + 1`. */
  function Record(tag: string, prefix: string, cfg: Config, isRandom: bool, start: nat, i: nat,
                  draw: (nat, nat) -> nat, firstCall: nat): KvPair
  {
    KvPair(BatchKey(tag, prefix, cfg, isRandom, start, i, draw, firstCall),
           RandomString(draw, firstCall + 2 * i + 1, cfg.valueSize))
  }

  /** The first `n` records a batch generator builds. */
  function BatchKvs(tag: string, prefix: string, cfg: Config, isRandom: bool, start: nat, n: nat,
                    draw: (nat, nat) -> nat, firstCall: nat): (kvs: seq<KvPair>)
    ensures |kvs| == n
  {
    if n == 0 then []
    else BatchKvs(tag, prefix, cfg, isRandom, start, n - 1, draw, firstCall) +
         [Record(tag, prefix, cfg, isRandom, start, n - 1, draw, firstCall)]
  }

  lemma {:induction false} BatchKvsAt(tag: string, prefix: string, cfg: Config, isRandom: bool, start: nat, n: nat,
                                      draw: (nat, nat) -> nat, firstCall: nat, i: nat)
    requires i < n
    ensures BatchKvs(tag, prefix, cfg, isRandom, start, n, draw, firstCall)[i] ==
            Record(tag, prefix, cfg, isRandom, start, i, draw, firstCall)
    decreases n
  {
    if i < n - 1 {
      BatchKvsAt(tag, prefix, cfg, isRandom, start, n - 1, draw, firstCall, i);
    }
  }

  /** A shorter run of the generator is a prefix of a longer one. */
  lemma {:induction false} BatchKvsPrefix(tag: string, prefix: string, cfg: Config, isRandom: bool, start: nat,
                                          m: nat, n: nat, draw: (nat, nat) -> nat, firstCall: nat)
    requires m <= n
    ensures BatchKvs(tag, prefix, cfg, isRandom, start, n, draw, firstCall)[..m] ==
            BatchKvs(tag, prefix, cfg, isRandom, start, m, draw, firstCall)
    decreases n
  {
    var kvs := BatchKvs(tag, prefix, cfg, isRandom, start, n, draw, firstCall);
    if m < n {
      BatchKvsPrefix(tag, prefix, cfg, isRandom, start, m, n - 1, draw, firstCall);
      assert kvs[..n - 1][..m] == kvs[..m];
    } else {
      assert kvs[..m] == kvs;
    }
  }

  function KeysOf(kvs: seq<KvPair>): (ks: seq<string>)
    ensures |ks| == |kvs|
  {
    if kvs == [] then [] else KeysOf(kvs[..|kvs| - 1]) + [kvs[|kvs| - 1].key]
  }

  /** The i-th key of a batch is the key of its i-th pair. */
  lemma {:induction false} KeysOfAt(kvs: seq<KvPair>, i: nat)
    requires i < |kvs|
    ensures KeysOf(kvs)[i] == kvs[i].key
  {
    if i < |kvs| - 1 {
      KeysOfAt(kvs[..|kvs| - 1], i);
    }
  }

  /** Recording one more key after the keys of `kvs`. */
  lemma KeysOfAppend(ks: seq<string>, kvs: seq<KvPair>, kv: KvPair)
    ensures ks + KeysOf(kvs + [kv]) == (ks + KeysOf(kvs)) + [kv.key]
  {
    assert (kvs + [kv])[..|kvs|] == kvs;
  }

  predicate UniformRecords(kvs: seq<KvPair>, keyLen: nat, valueLen: nat)
  {
    forall i :: 0 <= i < |kvs| ==> |kvs[i].key| == keyLen && |kvs[i].value| == valueLen
  }

  lemma PairBytesUniformCount(kvs: seq<KvPair>, n: nat, keyLen: nat, valueLen: nat)
    requires |kvs| == n
    requires UniformRecords(kvs, keyLen, valueLen)
    ensures PairBytes(kvs) == n * (keyLen + valueLen)
  {
    PairBytesUniform(kvs, keyLen, valueLen);
  }

  /** The key of sequential record `i` is that of counter value `start + i`. */
  lemma SeqRecordKey(tag: string, prefix: string, cfg: Config, start: nat, n: nat,
                     draw: (nat, nat) -> nat, firstCall: nat, i: nat)
    requires i < n
    ensures BatchKvs(tag, prefix, cfg, false, start, n, draw, firstCall)[i].key == SeqKey(tag, prefix, cfg.keySize, start + i)
    ensures |BatchKvs(tag, prefix, cfg, false, start, n, draw, firstCall)[i].value| == cfg.valueSize
  {
    BatchKvsAt(tag, prefix, cfg, false, start, n, draw, firstCall, i);
  }

  /** The keys of a sequential batch are pairwise distinct. */
  lemma SeqBatchDistinct(tag: string, prefix: string, cfg: Config, start: nat, n: nat,
                         draw: (nat, nat) -> nat, firstCall: nat)
    ensures var kvs := BatchKvs(tag, prefix, cfg, false, start, n, draw, firstCall);
            forall i, j :: 0 <= i < j < n ==> kvs[i].key != kvs[j].key
  {
    var kvs := BatchKvs(tag, prefix, cfg, false, start, n, draw, firstCall);
    forall i, j | 0 <= i < j < n
      ensures kvs[i].key != kvs[j].key
    {
      SeqRecordKey(tag, prefix, cfg, start, n, draw, firstCall, i);
      SeqRecordKey(tag, prefix, cfg, start, n, draw, firstCall, j);
      SeqKeyInjective(tag, prefix, cfg.keySize, start + i, start + j);
    }
  }

  /** While the counter values fit the numeric width, the keys of a
      sequential batch come in increasing byte order. */
  lemma SeqBatchOrdered(tag: string, prefix: string, cfg: Config, start: nat, n: nat,
                        draw: (nat, nat) -> nat, firstCall: nat)
    requires |prefix| <= cfg.keySize && start + n <= Pow10(cfg.keySize - |prefix|)
    ensures var kvs := BatchKvs(tag, prefix, cfg, false, start, n, draw, firstCall);
            forall i, j :: 0 <= i < j < n ==> LexLess(kvs[i].key, kvs[j].key)
  {
    var kvs := BatchKvs(tag, prefix, cfg, false, start, n, draw, firstCall);
    forall i, j | 0 <= i < j < n
      ensures LexLess(kvs[i].key, kvs[j].key)
    {
      SeqRecordKey(tag, prefix, cfg, start, n, draw, firstCall, i);
      SeqRecordKey(tag, prefix, cfg, start, n, draw, firstCall, j);
      SeqKeyOrdered(tag, prefix, cfg.keySize, start + i, start + j);
    }
  }

  lemma SeqBatchRecordSizes(tag: string, prefix: string, cfg: Config, start: nat, n: nat,
                            draw: (nat, nat) -> nat, firstCall: nat)
    requires |tag| == 1
    requires |prefix| < cfg.keySize && start + n <= Pow10(cfg.keySize - |prefix|)
    ensures UniformRecords(BatchKvs(tag, prefix, cfg, false, start, n, draw, firstCall), cfg.keySize + 1, cfg.valueSize)
  {
    var kvs := BatchKvs(tag, prefix, cfg, false, start, n, draw, firstCall);
    forall i | 0 <= i < n
      ensures |kvs[i].key| == cfg.keySize + 1 && |kvs[i].value| == cfg.valueSize
    {
      SeqRecordKey(tag, prefix, cfg, start, n, draw, firstCall, i);
      SeqKeyLength(tag, prefix, cfg.keySize, start + i);
    }
  }

  /** While the counter values fit the numeric width, a sequential batch
      weighs exactly `n * (key_size + 1 + value_size)` bytes: the tag is the
      one byte beyond `key_size`. */
  lemma SeqBatchBytes(tag: string, prefix: string, cfg: Config, start: nat, n: nat,
                      draw: (nat, nat) -> nat, firstCall: nat)
    requires |tag| == 1
    requires |prefix| < cfg.keySize && start + n <= Pow10(cfg.keySize - |prefix|)
    ensures PairBytes(BatchKvs(tag, prefix, cfg, false, start, n, draw, firstCall)) == n * (cfg.keySize + 1 + cfg.valueSize)
  {
    SeqBatchRecordSizes(tag, prefix, cfg, start, n, draw, firstCall);
    PairBytesUniformCount(BatchKvs(tag, prefix, cfg, false, start, n, draw, firstCall), n, cfg.keySize + 1, cfg.valueSize);
  }

  /** The key `readmissing` asks for: a raw-tagged random string four
      characters longer than a stored key (operation.cc:684-686, 844-846). */
  function MissingKey(prefix: string, cfg: Config, draw: (nat, nat) -> nat, call: nat): string
  {
    EncodeRawKey(prefix + RandomString(draw, call, cfg.keySize + 4 - |prefix|))
  }

  /** A missing-key probe is never one of the keys a region arranged, raw or
      transactional, while the counter values fit the width: it is four
      characters longer. */
  lemma MissingKeyNeverArranged(prefix: string, cfg: Config, draw: (nat, nat) -> nat, call: nat,
                                tag: string, count: nat)
    requires |prefix| < cfg.keySize && count < Pow10(cfg.keySize - |prefix|)
    requires tag == ClientRaw || tag == ClientTxn
    ensures |MissingKey(prefix, cfg, draw, call)| == cfg.keySize + 5
    ensures MissingKey(prefix, cfg, draw, call) != SeqKey(tag, prefix, cfg.keySize, count)
  {
    GenSeqStringLength(count, cfg.keySize - |prefix|);
    assert |SeqKey(tag, prefix, cfg.keySize, count)| == cfg.keySize + 1;
  }

  /** The state of an arrangement: the batches handed to `BatchPut`, the
      records still pending, and whether every write so far succeeded. */
  datatype Arrangement<T> = Arrangement(flushed: seq<seq<T>>, pending: seq<T>, ok: bool)

  function Processed<T>(a: Arrangement<T>): nat
  {
    |Flatten(a.flushed)| + |a.pending|
  }

  /** One iteration of the arrangement loop on record `i` of `n`: `x` joins
      the pending batch, which is written out once it holds 256 records and
      after the last record; the status `flushStatus(k)` of the k-th write
      decides whether the loop goes on. */
  function ArrangeStep<T>(a: Arrangement<T>, x: T, i: nat, n: nat, flushStatus: nat -> Status): Arrangement<T>
  {
    var p := a.pending + [x];
    if |p| == 256 || i + 1 == n then Arrangement(a.flushed + [p], [], flushStatus(|a.flushed|).IsOk())
    else Arrangement(a.flushed, p, true)
  }

  /** The arrangement loop of `n` iterations after it has made the records
      `xs`; it stops changing after the first failed write. */
  function Batches<T>(xs: seq<T>, n: nat, flushStatus: nat -> Status): Arrangement<T>
  {
    if xs == [] then Arrangement([], [], true)
    else
      var a := Batches(xs[..|xs| - 1], n, flushStatus);
      if !a.ok then a else ArrangeStep(a, xs[|xs| - 1], |xs| - 1, n, flushStatus)
  }

  /** The shape of an arrangement's writes: every batch holds 1 to 256
      records, all but the last exactly 256 and written successfully; the
      arrangement succeeded exactly when all `n` records were written, and
      when it failed, the last batch is the one whose write failed. */
  predicate ArrangeBatches<T>(flushed: seq<seq<T>>, ok: bool, n: nat, flushStatus: nat -> Status)
  {
    (forall k :: 0 <= k < |flushed| ==> 1 <= |flushed[k]| <= 256) &&
    (forall k :: 0 <= k < |flushed| - 1 ==> |flushed[k]| == 256 && flushStatus(k).IsOk()) &&
    (ok <==> |Flatten(flushed)| == n && forall k :: 0 <= k < |flushed| ==> flushStatus(k).IsOk()) &&
    (!ok ==> |flushed| > 0 && !flushStatus(|flushed| - 1).IsOk())
  }

  /** A running arrangement after `i` of `n` records: `pending` holds the
      records since the last write, every written batch is full and was
      written successfully, except that the final batch may be shorter
      once all records are out. */
  predicate Batched<T>(flushed: seq<seq<T>>, pending: seq<T>, i: nat, n: nat, flushStatus: nat -> Status)
  {
    |Flatten(flushed)| + |pending| == i && |pending| < 256 && (i == n ==> pending == []) &&
    (forall k :: 0 <= k < |flushed| ==> 1 <= |flushed[k]| <= 256 && flushStatus(k).IsOk()) &&
    (forall k :: 0 <= k < |flushed| ==> (i < n || k < |flushed| - 1) ==> |flushed[k]| == 256)
  }

  lemma BatchedKeep<T>(flushed: seq<seq<T>>, pending: seq<T>, x: T, i: nat, n: nat, flushStatus: nat -> Status)
    requires Batched(flushed, pending, i, n, flushStatus) && i < n
    requires !(|pending| + 1 == 256 || i + 1 == n)
    ensures Batched(flushed, pending + [x], i + 1, n, flushStatus)
  {
  }

  lemma BatchedFlush<T>(flushed: seq<seq<T>>, pending: seq<T>, x: T, i: nat, n: nat, flushStatus: nat -> Status)
    requires Batched(flushed, pending, i, n, flushStatus) && i < n
    requires |pending| + 1 == 256 || i + 1 == n
    requires flushStatus(|flushed|).IsOk()
    ensures Batched(flushed + [pending + [x]], [], i + 1, n, flushStatus)
  {
    FlattenAppend(flushed, pending + [x]);
    var next := flushed + [pending + [x]];
    forall k | 0 <= k < |next|
      ensures 1 <= |next[k]| <= 256 && flushStatus(k).IsOk()
      ensures i + 1 < n || k < |next| - 1 ==> |next[k]| == 256
    {
      if k < |flushed| {
        assert next[k] == flushed[k];
      }
    }
  }

  lemma BatchedFail<T>(flushed: seq<seq<T>>, pending: seq<T>, x: T, i: nat, n: nat, flushStatus: nat -> Status)
    requires Batched(flushed, pending, i, n, flushStatus) && i < n
    requires |pending| + 1 == 256 || i + 1 == n
    requires !flushStatus(|flushed|).IsOk()
    ensures ArrangeBatches(flushed + [pending + [x]], false, n, flushStatus)
  {
    var next := flushed + [pending + [x]];
    assert forall k :: 0 <= k < |flushed| ==> next[k] == flushed[k];
  }

  lemma BatchedDone<T>(flushed: seq<seq<T>>, pending: seq<T>, n: nat, flushStatus: nat -> Status)
    requires Batched(flushed, pending, n, n, flushStatus)
    ensures ArrangeBatches(flushed, true, n, flushStatus)
  {
  }

  /** Every iteration that runs handles one more record: all of them
      while the writes succeed, and all of them up to the one whose batch
      just failed. */
  lemma {:induction false} BatchesCount<T>(xs: seq<T>, n: nat, flushStatus: nat -> Status)
    ensures var a := Batches(xs, n, flushStatus);
            Processed(a) <= |xs| &&
            (a.ok || Batches(xs[..|xs| - 1], n, flushStatus).ok ==> Processed(a) == |xs|)
  {
    if xs != [] {
      var ys := xs[..|xs| - 1];
      BatchesCount(ys, n, flushStatus);
      var b := Batches(ys, n, flushStatus);
      if b.ok {
        FlattenAppend(b.flushed, b.pending + [xs[|xs| - 1]]);
      }
    }
  }

  /** While the writes succeed, everything written or pending is exactly
      the records made, in order. */
  lemma {:induction false} BatchesContent<T>(xs: seq<T>, n: nat, flushStatus: nat -> Status)
    ensures var a := Batches(xs, n, flushStatus);
            a.ok ==> Flatten(a.flushed) + a.pending == xs
  {
    if xs != [] {
      var ys, x := xs[..|xs| - 1], xs[|xs| - 1];
      var b := Batches(ys, n, flushStatus);
      if b.ok {
        BatchesContent(ys, n, flushStatus);
        BatchesStepContent(b, ys, x, |xs| - 1, n, flushStatus);
        assert ys + [x] == xs;
      }
    }
  }

  lemma BatchesStepContent<T>(b: Arrangement<T>, ys: seq<T>, x: T, i: nat, n: nat, flushStatus: nat -> Status)
    requires Flatten(b.flushed) + b.pending == ys
    ensures var a := ArrangeStep(b, x, i, n, flushStatus);
            Flatten(a.flushed) + a.pending == ys + [x]
  {
    var p := b.pending + [x];
    assert Flatten(b.flushed) + p == ys + [x];
    if |p| == 256 || i + 1 == n {
      FlattenAppend(b.flushed, p);
      assert Flatten(b.flushed + [p]) + [] == Flatten(b.flushed + [p]);
    }
  }

  /** Whatever happened, everything written or pending is a prefix of the
      records, in order. */
  lemma {:induction false} BatchesPrefix<T>(xs: seq<T>, n: nat, flushStatus: nat -> Status)
    ensures var a := Batches(xs, n, flushStatus);
            var c := Flatten(a.flushed) + a.pending;
            |c| <= |xs| && c == xs[..|c|]
  {
    var a := Batches(xs, n, flushStatus);
    if a.ok {
      BatchesContent(xs, n, flushStatus);
      assert xs[..|xs|] == xs;
    } else if xs != [] {
      var ys := xs[..|xs| - 1];
      var b := Batches(ys, n, flushStatus);
      if b.ok {
        BatchesContent(ys, n, flushStatus);
        BatchesStepContent(b, ys, xs[|xs| - 1], |xs| - 1, n, flushStatus);
        assert ys + [xs[|xs| - 1]] == xs == xs[..|xs|];
      } else {
        BatchesPrefix(ys, n, flushStatus);
        var c := Flatten(b.flushed) + b.pending;
        assert ys[..|c|] == xs[..|c|];
      }
    }
  }

  /** An arrangement that failed after the records `xs[..m]` stays as it was. */
  lemma {:induction false} BatchesSticky<T>(xs: seq<T>, m: nat, n: nat, flushStatus: nat -> Status)
    requires m <= |xs|
    requires !Batches(xs[..m], n, flushStatus).ok
    ensures Batches(xs, n, flushStatus) == Batches(xs[..m], n, flushStatus)
  {
    if m < |xs| {
      var ys := xs[..|xs| - 1];
      assert ys[..m] == xs[..m];
      BatchesSticky(ys, m, n, flushStatus);
      assert Batches(xs, n, flushStatus) == Batches(ys, n, flushStatus);
    } else {
      assert xs[..m] == xs;
    }
  }

  /** Where the arrangement loop ends, after `i` records with nothing
      pending: either all `n` records are out or the last write failed, and
      in both cases that is the whole arrangement. */
  lemma BatchesFinish<T>(xs: seq<T>, i: nat, n: nat, flushStatus: nat -> Status,
                         flushed: seq<seq<T>>, ok: bool)
    requires |xs| == n && i <= n
    requires Batches(xs[..i], n, flushStatus) == Arrangement(flushed, [], ok)
    requires ok ==> i == n
    ensures Batches(xs, n, flushStatus) == Arrangement(flushed, [], ok)
  {
    if ok {
      assert xs[..i] == xs;
    } else {
      BatchesSticky(xs, i, n, flushStatus);
    }
  }

  /** The batch shape, while the arrangement runs and once it failed. */
  lemma {:induction false} BatchesShape<T>(xs: seq<T>, n: nat, flushStatus: nat -> Status)
    requires |xs| <= n
    ensures var a := Batches(xs, n, flushStatus);
            (a.ok ==> Batched(a.flushed, a.pending, |xs|, n, flushStatus)) &&
            (!a.ok ==> a.pending == [] && ArrangeBatches(a.flushed, false, n, flushStatus))
  {
    if xs != [] {
      var ys, x, i := xs[..|xs| - 1], xs[|xs| - 1], |xs| - 1;
      BatchesShape(ys, n, flushStatus);
      var b := Batches(ys, n, flushStatus);
      if b.ok {
        if |b.pending| + 1 == 256 || i + 1 == n {
          if flushStatus(|b.flushed|).IsOk() {
            BatchedFlush(b.flushed, b.pending, x, i, n, flushStatus);
          } else {
            BatchedFail(b.flushed, b.pending, x, i, n, flushStatus);
          }
        } else {
          BatchedKeep(b.flushed, b.pending, x, i, n, flushStatus);
        }
      }
    }
  }

  /** A whole arrangement of `n` records: what it wrote is a prefix of the
      records, nothing is left pending, and its batches have the shape
      `ArrangeBatches` describes. */
  lemma BatchesResult<T>(xs: seq<T>, n: nat, flushStatus: nat -> Status)
    requires |xs| == n
    ensures var a := Batches(xs, n, flushStatus);
            var m := |Flatten(a.flushed)|;
            a.pending == [] && m <= n && Flatten(a.flushed) == xs[..m] &&
            ArrangeBatches(a.flushed, a.ok, n, flushStatus)
  {
    BatchesPrefix(xs, n, flushStatus);
    BatchesShape(xs, n, flushStatus);
    var a := Batches(xs, n, flushStatus);
    if a.ok {
      BatchedDone(a.flushed, a.pending, n, flushStatus);
    }
    assert Flatten(a.flushed) + a.pending == Flatten(a.flushed);
  }

  /** The key rotation of a sequential read: `n` reads starting at cursor
      `r` ask for `keys[(r + i) % |keys|]`. */
  function CursorKeys(keys: seq<string>, r: nat, n: nat): (ks: seq<string>)
    requires |keys| > 0
    ensures |ks| == n
  {
    seq(n, i requires 0 <= i < n => keys[(r + i) % |keys|])
  }

  /** Two reads in a row are one longer read: the cursor just moves on. */
  lemma CursorKeysSplit(keys: seq<string>, r: nat, a: nat, b: nat)
    requires |keys| > 0
    ensures CursorKeys(keys, r, a) + CursorKeys(keys, r + a, b) == CursorKeys(keys, r, a + b)
  {
    var left, right, whole := CursorKeys(keys, r, a), CursorKeys(keys, r + a, b), CursorKeys(keys, r, a + b);
    forall i | 0 <= i < a + b
      ensures (left + right)[i] == whole[i]
    {
      if i >= a {
        assert right[i - a] == keys[(r + a + (i - a)) % |keys|];
      }
    }
  }

  /** Reading `|keys|` times in a row visits every key of the region once
      more, whatever the starting cursor. */
  lemma CursorVisitsEveryKey(keys: seq<string>, r: nat)
    requires |keys| > 0
    ensures forall k :: k in keys ==> k in CursorKeys(keys, r, |keys|)
  {
    var n := |keys|;
    var ks := CursorKeys(keys, r, n);
    forall k | k in keys
      ensures k in ks
    {
      var m :| 0 <= m < n && keys[m] == k;
      var i := (m - r % n + n) % n;
      assert 0 <= i < n;
      ModRotate(r, m, n);
      assert ks[i] == keys[(r + i) % n];
    }
  }

  /** Counting records into batches of `size`: the position in the batch
      either moves on by one or wraps to 0 exactly after the last slot. */
  lemma ModStep(i: nat, size: nat)
    requires size > 0
    ensures (i + 1) % size == 0 <==> i % size == size - 1
    ensures (i + 1) % size != 0 ==> (i + 1) % size == i % size + 1
  {
    var q, s := i / size, i % size;
    assert i == q * size + s;
    if s < size - 1 {
      ModUnique(i + 1, q, s + 1, size);
    } else {
      ModUnique(i + 1, q + 1, 0, size);
    }
  }

  lemma ModRotate(r: nat, m: nat, n: nat)
    requires 0 <= m < n
    ensures (r + (m - r % n + n) % n) % n == m
  {
    var q, s := r / n, r % n;
    assert r == q * n + s;
    var i := (m - s + n) % n;
    if m >= s {
      ModUnique(m - s + n, 1, m - s, n);
      ModUnique(r + i, q, m, n);
    } else {
      ModUnique(m - s + n, 0, m - s + n, n);
      ModUnique(r + i, q + 1, m, n);
    }
  }

  /** The slot `read_index % keys.size()` of a sequential read, with the
      unsigned `%` of the source: it has no value (the division traps)
      when the key list is empty. */
  function CursorSlot(r: nat, size: nat): (s: Option<nat>)
    ensures s.Some? <==> size > 0
    ensures s.Some? ==> s.value < size
  {
    if size == 0 then None else Some(r % size)
  }

  /** As written: `arrange_kv_num` has no validator, and with 0 records
      the arrangement loop runs no iteration and reports success with no
      key recorded, so the first sequential read takes its slot modulo an
      empty key list. */
  lemma AsWrittenEmptyArrange(tag: string, prefix: string, cfg: Config, start: nat, draw: (nat, nat) -> nat,
                              flushStatus: nat -> Status, r: nat)
    requires cfg.arrangeKvNum == 0
    ensures var a := Batches(BatchKvs(tag, prefix, cfg, false, start, cfg.arrangeKvNum, draw, 0),
                             cfg.arrangeKvNum, flushStatus);
            a.ok && KeysOf(Flatten(a.flushed)) == [] && CursorSlot(r, |KeysOf(Flatten(a.flushed))|).None?
  {
  }

  /** The evidently intended bound: at least one record is arranged. */
  predicate ArrangeKvNumValid(cfg: Config)
  {
    cfg.arrangeKvNum >= 1
  }

  /** Under that bound a successful arrangement records one key per
      record, so every sequential read has a slot. */
  lemma ValidArrangeHasKeys(tag: string, prefix: string, cfg: Config, start: nat, draw: (nat, nat) -> nat,
                            flushStatus: nat -> Status, r: nat)
    requires ArrangeKvNumValid(cfg)
    ensures var a := Batches(BatchKvs(tag, prefix, cfg, false, start, cfg.arrangeKvNum, draw, 0),
                             cfg.arrangeKvNum, flushStatus);
            a.ok ==> |KeysOf(Flatten(a.flushed))| == cfg.arrangeKvNum &&
                     CursorSlot(r, |KeysOf(Flatten(a.flushed))|).Some?
  {
    BatchesResult(BatchKvs(tag, prefix, cfg, false, start, cfg.arrangeKvNum, draw, 0), cfg.arrangeKvNum, flushStatus);
  }

  /** `KvGet`: the read bytes are the size of the value the store returned,
      whatever the status. */
  function KvGet(reply: ReadReply): (r: Txn.OpResult)
    ensures r.status == reply.status && r.readBytes == |reply.value| && r.writeBytes == 0
  {
    Txn.OpResult(reply.status, |reply.value|, 0)
  }

  /** `KvBatchGet`: the read bytes are summed over the pairs returned. */
  method KvBatchGet(reply: ReadReply) returns (r: Txn.OpResult)
    ensures r.status == reply.status && r.readBytes == PairBytes(reply.pairs) && r.writeBytes == 0
  {
    var bytes := 0;
    var i := 0;
    while i < |reply.pairs|
      invariant 0 <= i <= |reply.pairs|
      invariant bytes == PairBytes(reply.pairs[..i])
    {
      assert reply.pairs[..i + 1][..i] == reply.pairs[..i];
      bytes := bytes + |reply.pairs[i].key| + |reply.pairs[i].value|;
      i := i + 1;
    }
    assert reply.pairs[..i] == reply.pairs;
    r := Txn.OpResult(reply.status, bytes, 0);
  }

  /** A region of the key space: its prefix, the counter sequential keys
      are drawn from, the keys arranged for reading, and the read cursor. */
  class RegionEntry {
    const prefix: string
    var counter: nat
    var keys: seq<string>
    var readIndex: nat

    constructor (prefix: string)
      ensures this.prefix == prefix && counter == 0 && keys == [] && readIndex == 0
    {
      this.prefix := prefix;
      counter := 0;
      keys := [];
      readIndex := 0;
    }

    /** `KvPut`: one raw pair. The counter advances by one even for a
        random key, whose text does not use it. */
    method KvPut(cfg: Config, isRandom: bool, draw: (nat, nat) -> nat, putStatus: Status)
      returns (r: Txn.OpResult, kv: KvPair)
      modifies this`counter
      ensures counter == old(counter) + 1
      ensures [kv] == BatchKvs(ClientRaw, prefix, cfg, isRandom, old(counter), 1, draw, 0)
      ensures r == Txn.OpResult(putStatus, 0, |kv.key| + |kv.value|)
    {
      var count := counter;
      counter := counter + 1;
      var key := if isRandom then ClientRaw + prefix + RandomString(draw, 0, cfg.keySize - |prefix|)
                 else SeqKey(ClientRaw, prefix, cfg.keySize, count);
      kv := KvPair(key, RandomString(draw, 1, cfg.valueSize));
      r := Txn.OpResult(putStatus, 0, |kv.key| + |kv.value|);
    }

    /** Record `i` of a batch being generated: a sequential key takes the
        next counter value; a random key takes one only when `takeCounter`
        (the transactional writes), and its characters come from draw call
        `firstCall + 2i`. */
    method NextRecord(tag: string, cfg: Config, isRandom: bool, takeCounter: bool,
                      draw: (nat, nat) -> nat, firstCall: nat, ghost start: nat, i: nat)
      returns (kv: KvPair)
      requires counter == start + (if isRandom && !takeCounter then 0 else i)
      modifies this`counter
      ensures kv == Record(tag, prefix, cfg, isRandom, start, i, draw, firstCall)
      ensures counter == old(counter) + (if isRandom && !takeCounter then 0 else 1)
    {
      var key;
      if isRandom {
        if takeCounter {
          counter := counter + 1;
        }
        key := tag + prefix + RandomString(draw, firstCall + 2 * i, cfg.keySize - |prefix|);
      } else {
        var count := counter;
        counter := counter + 1;
        key := SeqKey(tag, prefix, cfg.keySize, count);
      }
      kv := KvPair(key, RandomString(draw, firstCall + 2 * i + 1, cfg.valueSize));
    }

    /** The batch generator of `KvBatchPut`, `KvTxnBatchPut` and
        `KvTxnPut`: `n` pairs, drawing one counter value per pair unless
        `takeCounter` is off and the keys are random. */
    method GenerateBatch(tag: string, cfg: Config, isRandom: bool, takeCounter: bool, n: nat,
                         draw: (nat, nat) -> nat, firstCall: nat)
      returns (kvs: seq<KvPair>, bytes: nat)
      modifies this`counter
      ensures counter == old(counter) + (if isRandom && !takeCounter then 0 else n)
      ensures kvs == BatchKvs(tag, prefix, cfg, isRandom, old(counter), n, draw, firstCall)
      ensures bytes == PairBytes(kvs)
    {
      ghost var start := counter;
      kvs := [];
      bytes := 0;
      var i := 0;
      while i < n
        invariant 0 <= i <= n
        invariant counter == start + (if isRandom && !takeCounter then 0 else i)
        invariant kvs == BatchKvs(tag, prefix, cfg, isRandom, start, i, draw, firstCall)
        invariant bytes == PairBytes(kvs)
      {
        var kv := NextRecord(tag, cfg, isRandom, takeCounter, draw, firstCall, start, i);
        assert (kvs + [kv])[..|kvs|] == kvs;
        kvs := kvs + [kv];
        bytes := bytes + |kv.key| + |kv.value|;
        i := i + 1;
      }
    }

    /** `KvBatchPut`: `batch_size` raw pairs in one call. The counter
        advances by `batch_size` for sequential keys and not at all for
        random ones. */
    method KvBatchPut(cfg: Config, isRandom: bool, draw: (nat, nat) -> nat, putStatus: Status)
      returns (r: Txn.OpResult, kvs: seq<KvPair>)
      modifies this`counter
      ensures counter == old(counter) + (if isRandom then 0 else cfg.batchSize)
      ensures kvs == BatchKvs(ClientRaw, prefix, cfg, isRandom, old(counter), cfg.batchSize, draw, 0)
      ensures r == Txn.OpResult(putStatus, 0, PairBytes(kvs))
    {
      var bytes;
      kvs, bytes := GenerateBatch(ClientRaw, cfg, isRandom, false, cfg.batchSize, draw, 0);
      r := Txn.OpResult(putStatus, 0, bytes);
    }

    /** `FillSeqOperation`/`FillRandomOperation::Execute`: a single put
        when `batch_size` is 1, a batch put otherwise. */
    method Fill(cfg: Config, isRandom: bool, draw: (nat, nat) -> nat, putStatus: Status)
      returns (r: Txn.OpResult, kvs: seq<KvPair>)
      modifies this`counter
      ensures counter == old(counter) + (if cfg.batchSize == 1 then 1 else if isRandom then 0 else cfg.batchSize)
      ensures kvs == BatchKvs(ClientRaw, prefix, cfg, isRandom, old(counter), if cfg.batchSize == 1 then 1 else cfg.batchSize, draw, 0)
      ensures r == Txn.OpResult(putStatus, 0, PairBytes(kvs))
    {
      if cfg.batchSize == 1 {
        var kv;
        r, kv := KvPut(cfg, isRandom, draw, putStatus);
        kvs := [kv];
        assert PairBytes(kvs) == PairBytes([]) + |kv.key| + |kv.value|;
      } else {
        r, kvs := KvBatchPut(cfg, isRandom, draw, putStatus);
      }
    }

    /** `ReadOperation::Arrange` (raw tag) and `TxnReadOperation::Arrange`
        (transactional tag): `arrange_kv_num` sequential pairs, each key
        recorded in `keys` as it is made, written in batches of 256; the
        k-th write returns `flushStatus(k)` and a failed write ends the
        arrangement. The run is the one `Batches` describes on the
        sequential batch from the counter. */
    method Arrange(tag: string, cfg: Config, draw: (nat, nat) -> nat, flushStatus: nat -> Status)
      returns (ok: bool, flushed: seq<seq<KvPair>>)
      modifies this`counter, this`keys
      ensures var a := Batches(BatchKvs(tag, prefix, cfg, false, old(counter), cfg.arrangeKvNum, draw, 0),
                               cfg.arrangeKvNum, flushStatus);
              ok == a.ok && flushed == a.flushed
      ensures counter == old(counter) + |Flatten(flushed)|
      ensures keys == old(keys) + KeysOf(Flatten(flushed))
    {
      ghost var start := counter;
      var i;
      ghost var made;
      ok, flushed, i, made := ArrangeLoop(tag, cfg, draw, flushStatus);
      BatchKvsPrefix(tag, prefix, cfg, false, start, i, cfg.arrangeKvNum, draw, 0);
      BatchesFinish(BatchKvs(tag, prefix, cfg, false, start, cfg.arrangeKvNum, draw, 0),
                    i, cfg.arrangeKvNum, flushStatus, flushed, ok);
    }

    /** The loop of `Arrange`: it stops after `i` records, all of them
        written, either at the end or at the first failed write. */
    method ArrangeLoop(tag: string, cfg: Config, draw: (nat, nat) -> nat, flushStatus: nat -> Status)
      returns (ok: bool, flushed: seq<seq<KvPair>>, i: nat, ghost made: seq<KvPair>)
      modifies this`counter, this`keys
      ensures i <= cfg.arrangeKvNum && (ok ==> i == cfg.arrangeKvNum)
      ensures made == BatchKvs(tag, prefix, cfg, false, old(counter), i, draw, 0)
      ensures Batches(made, cfg.arrangeKvNum, flushStatus) == Arrangement(flushed, [], ok)
      ensures Flatten(flushed) == made
      ensures counter == old(counter) + i && keys == old(keys) + KeysOf(made)
    {
      ghost var start := counter;
      ghost var oldKeys := keys;
      made := [];
      var n := cfg.arrangeKvNum;
      ok := true;
      var kvs: seq<KvPair> := [];
      flushed := [];
      i := 0;
      while i < n
        invariant 0 <= i <= n
        invariant counter == start + i
        invariant made == BatchKvs(tag, prefix, cfg, false, start, i, draw, 0)
        invariant keys == oldKeys + KeysOf(made)
        invariant Batches(made, n, flushStatus) == Arrangement(flushed, kvs, true)
        invariant Flatten(flushed) + kvs == made
        invariant i < n ==> |kvs| == i % 256
        invariant i == n ==> kvs == []
      {
        var kv;
        ghost var next;
        kv, next, kvs, flushed, ok := ArrangeNext(tag, cfg, draw, flushStatus, start, made, i, kvs, flushed);
        KeysOfAppend(oldKeys, made, kv);
        made := next;
        i := i + 1;
        if !ok {
          break;
        }
      }
      assert kvs == [];
      assert Flatten(flushed) + kvs == Flatten(flushed);
    }

    /** One iteration of `Arrange` on record `i`: make the record, remember
        its key, and write the pending batch out after every 256th record
        and after the last one. */
    method ArrangeNext(tag: string, cfg: Config, draw: (nat, nat) -> nat, flushStatus: nat -> Status,
                       ghost start: nat, ghost made: seq<KvPair>, i: nat,
                       kvs: seq<KvPair>, flushed: seq<seq<KvPair>>)
      returns (kv: KvPair, ghost made': seq<KvPair>, kvs': seq<KvPair>, flushed': seq<seq<KvPair>>, ok: bool)
      requires i < cfg.arrangeKvNum && counter == start + i
      requires made == BatchKvs(tag, prefix, cfg, false, start, i, draw, 0)
      requires Batches(made, cfg.arrangeKvNum, flushStatus) == Arrangement(flushed, kvs, true)
      requires |kvs| == i % 256 && Flatten(flushed) + kvs == made
      modifies this`counter, this`keys
      ensures made' == made + [kv] && made' == BatchKvs(tag, prefix, cfg, false, start, i + 1, draw, 0)
      ensures counter == old(counter) + 1 && keys == old(keys) + [kv.key]
      ensures Batches(made', cfg.arrangeKvNum, flushStatus) == Arrangement(flushed', kvs', ok)
      ensures Flatten(flushed') + kvs' == made'
      ensures i + 1 < cfg.arrangeKvNum ==> |kvs'| == (i + 1) % 256
      ensures !ok || i + 1 == cfg.arrangeKvNum ==> kvs' == []
    {
      var n := cfg.arrangeKvNum;
      kv := NextRecord(tag, cfg, false, true, draw, 0, start, i);
      keys := keys + [kv.key];
      made' := made + [kv];
      assert made' == BatchKvs(tag, prefix, cfg, false, start, i + 1, draw, 0);
      assert made'[..i] == made;
      assert Batches(made', n, flushStatus) == ArrangeStep(Arrangement(flushed, kvs, true), kv, i, n, flushStatus);
      ModStep(i, 256);
      kvs' := kvs + [kv];
      assert Flatten(flushed) + kvs' == made';
      flushed' := flushed;
      ok := true;
      if (i + 1) % 256 == 0 || i + 1 == n {
        var status := flushStatus(|flushed|);
        flushed' := flushed + [kvs'];
        FlattenAppend(flushed, kvs');
        kvs' := [];
        assert Flatten(flushed') + kvs' == Flatten(flushed');
        ok := status.IsOk();
      }
    }

    /** The cursor loop `keys[read_index++ % keys.size()]`, `n` times. */
    method NextKeys(n: nat) returns (ks: seq<string>)
      requires |keys| > 0
      modifies this`readIndex
      ensures ks == CursorKeys(keys, old(readIndex), n)
      ensures readIndex == old(readIndex) + n
    {
      ghost var r := readIndex;
      ks := [];
      var i := 0;
      while i < n
        invariant 0 <= i <= n
        invariant readIndex == r + i
        invariant ks == CursorKeys(keys, r, i)
      {
        ks := ks + [keys[readIndex % |keys|]];
        readIndex := readIndex + 1;
        i := i + 1;
      }
    }

    /** `ReadSeqOperation::Execute`: one Get of the key under the cursor when
        `batch_size <= 1`, otherwise one BatchGet of the next `batch_size`
        keys; the cursor moves past every key asked for and nothing else
        in the region changes. The model requires a non-empty key list, as
        a positive `arrange_kv_num` gives (`ValidArrangeHasKeys`); the
        source takes `% keys.size()` without checking (`AsWrittenEmptyArrange`). */
    method ReadSeq(cfg: Config, reply: ReadReply) returns (r: Txn.OpResult, asked: seq<string>)
      requires |keys| > 0
      modifies this`readIndex
      ensures var n := if cfg.batchSize <= 1 then 1 else cfg.batchSize;
              asked == CursorKeys(keys, old(readIndex), n) && readIndex == old(readIndex) + n
      ensures r.readBytes == (if cfg.batchSize <= 1 then |reply.value| else PairBytes(reply.pairs))
      ensures r.status == reply.status && r.writeBytes == 0
    {
      if cfg.batchSize <= 1 {
        asked := NextKeys(1);
        r := KvGet(reply);
      } else {
        asked := NextKeys(cfg.batchSize);
        r := KvBatchGet(reply);
      }
    }

    /** `TxnReadSeqOperation::Execute` on one region: a transaction with one
        Get, or with one BatchGet of the next `batch_size` keys. */
    method TxnReadSeq(cfg: Config, answer: nat -> Status) returns (out: Txn.TxnOutcome, asked: seq<string>)
      requires |keys| > 0
      modifies this`readIndex
      ensures var n := if cfg.batchSize <= 1 then 1 else cfg.batchSize;
              asked == CursorKeys(keys, old(readIndex), n) && readIndex == old(readIndex) + n
      ensures out.Fatal? <==> TxnOptionsFor(cfg).None?
      ensures out.Ran? ==>
                var options := TxnOptionsFor(cfg).value;
                var body := if cfg.batchSize <= 1 then Txn.GetCalls(asked) else Txn.BatchGetCalls([asked]);
                out.calls == Txn.TxnTrace(options, body, answer) &&
                out.result == Txn.OpResult(Txn.TxnStatus(options, body, answer), 0, 0)
    {
      if cfg.batchSize <= 1 {
        asked := NextKeys(1);
        out := Txn.KvTxnGet(cfg, asked, answer);
      } else {
        asked := NextKeys(cfg.batchSize);
        out := Txn.KvTxnBatchGet(cfg, [asked], answer);
      }
    }
  }

  /** The first draw call of region `j` in a multi-region fill: each region
      before it used two draws per pair. */
  function RegionCall(perRegion: nat, j: nat): nat
  {
    if j == 0 then 0 else RegionCall(perRegion, j - 1) + 2 * perRegion
  }

  predicate Distinct(entries: seq<RegionEntry>)
  {
    forall i, j :: 0 <= i < j < |entries| ==> entries[i] != entries[j]
  }

  /** Pairs for a multi-region transactional fill: `perRegion` pairs from
      each region in turn, drawing one counter value per pair even for
      random keys (operation.cc:290-305, 353-370). */
  method TxnRegionBatches(entries: seq<RegionEntry>, cfg: Config, isRandom: bool, perRegion: nat,
                          draw: (nat, nat) -> nat)
    returns (batches: seq<seq<KvPair>>)
    requires Distinct(entries)
    modifies set e | e in entries :: e`counter
    ensures |batches| == |entries|
    ensures forall j :: 0 <= j < |entries| ==>
              entries[j].counter == old(entries[j].counter) + perRegion &&
              batches[j] == BatchKvs(ClientTxn, entries[j].prefix, cfg, isRandom, old(entries[j].counter),
                                     perRegion, draw, RegionCall(perRegion, j))
  {
    batches := [];
    var j := 0;
    while j < |entries|
      invariant 0 <= j <= |entries|
      invariant |batches| == j
      invariant forall k :: 0 <= k < j ==>
                  entries[k].counter == old(entries[k].counter) + perRegion &&
                  batches[k] == BatchKvs(ClientTxn, entries[k].prefix, cfg, isRandom, old(entries[k].counter),
                                         perRegion, draw, RegionCall(perRegion, k))
      invariant forall k :: j <= k < |entries| ==> entries[k].counter == old(entries[k].counter)
    {
      assert entries[j] in entries;
      var kvs, _ := entries[j].GenerateBatch(ClientTxn, cfg, isRandom, true, perRegion, draw, RegionCall(perRegion, j));
      batches := batches + [kvs];
      j := j + 1;
    }
  }

  /** `FillTxnSeqOperation`/`FillTxnRandomOperation::Execute` over several
      regions: one pair per region through `KvTxnPut` when `batch_size` is
      1, else `batch_size` pairs per region through `KvTxnBatchPut`. */
  method FillTxn(entries: seq<RegionEntry>, cfg: Config, isRandom: bool, draw: (nat, nat) -> nat,
                 answer: nat -> Status)
    returns (out: Txn.TxnOutcome, batches: seq<seq<KvPair>>)
    requires Distinct(entries)
    modifies set e | e in entries :: e`counter
    ensures var perRegion := if cfg.batchSize == 1 then 1 else cfg.batchSize;
            |batches| == |entries| &&
            forall j :: 0 <= j < |entries| ==>
              entries[j].counter == old(entries[j].counter) + perRegion &&
              batches[j] == BatchKvs(ClientTxn, entries[j].prefix, cfg, isRandom, old(entries[j].counter),
                                     perRegion, draw, RegionCall(perRegion, j))
    ensures out.Fatal? <==> TxnOptionsFor(cfg).None?
    ensures out.Ran? ==>
              var options := TxnOptionsFor(cfg).value;
              var kvs := Flatten(batches);
              var body := if cfg.batchSize == 1 then Txn.PutCalls(kvs) else [Txn.BatchPut(kvs)];
              out.calls == Txn.TxnTrace(options, body, answer) &&
              out.result == Txn.OpResult(Txn.TxnStatus(options, body, answer), 0, PairBytes(kvs))
  {
    if cfg.batchSize == 1 {
      batches := TxnRegionBatches(entries, cfg, isRandom, 1, draw);
      out := Txn.KvTxnPut(cfg, Flatten(batches), answer);
    } else {
      batches := TxnRegionBatches(entries, cfg, isRandom, cfg.batchSize, draw);
      out := Txn.KvTxnBatchPut(cfg, Flatten(batches), answer);
    }
  }

  /** `TxnReadSeqOperation::Execute` over several regions: the key under each
      region's cursor in one transaction of Gets, or `batch_size` keys per
      region as one BatchGet each. */
  method TxnReadSeqRegions(entries: seq<RegionEntry>, cfg: Config, answer: nat -> Status)
    returns (out: Txn.TxnOutcome, asked: seq<seq<string>>)
    requires Distinct(entries)
    requires forall e :: e in entries ==> |e.keys| > 0
    modifies set e | e in entries :: e`readIndex
    ensures var n := if cfg.batchSize <= 1 then 1 else cfg.batchSize;
            |asked| == |entries| &&
            forall j :: 0 <= j < |entries| ==>
              entries[j].readIndex == old(entries[j].readIndex) + n &&
              asked[j] == CursorKeys(entries[j].keys, old(entries[j].readIndex), n)
    ensures out.Fatal? <==> TxnOptionsFor(cfg).None?
    ensures out.Ran? ==>
              var options := TxnOptionsFor(cfg).value;
              var body := if cfg.batchSize <= 1 then Txn.GetCalls(Flatten(asked)) else Txn.BatchGetCalls(asked);
              out.calls == Txn.TxnTrace(options, body, answer) &&
              out.result == Txn.OpResult(Txn.TxnStatus(options, body, answer), 0, 0)
  {
    var n := if cfg.batchSize <= 1 then 1 else cfg.batchSize;
    asked := [];
    var j := 0;
    while j < |entries|
      invariant 0 <= j <= |entries|
      invariant |asked| == j
      invariant forall k :: 0 <= k < j ==>
                  entries[k].readIndex == old(entries[k].readIndex) + n &&
                  asked[k] == CursorKeys(entries[k].keys, old(entries[k].readIndex), n)
      invariant forall k :: j <= k < |entries| ==> entries[k].readIndex == old(entries[k].readIndex)
    {
      assert entries[j] in entries;
      var ks := entries[j].NextKeys(n);
      asked := asked + [ks];
      j := j + 1;
    }
    if cfg.batchSize <= 1 {
      out := Txn.KvTxnGet(cfg, Flatten(asked), answer);
    } else {
      out := Txn.KvTxnBatchGet(cfg, asked, answer);
    }
  }
}
