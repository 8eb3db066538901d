/** Values shared by every part of the benchmark client model: the status a
    remote call returns, key-value pairs and the byte accounting over them. */
module Common {

  datatype Option<T> = None | Some(value: T)

  /** The failure kinds the client distinguishes. `BuildFailed` and
      `LoadFailed` are the kinds the DiskANN build and load calls test for;
      every other failure is an opaque `Failed` with its error code. */
  datatype Status = Ok | BuildFailed | LoadFailed | Failed(code: int) {
    predicate IsOk() { Ok? }
  }

  datatype KvPair = KvPair(key: string, value: string)

  /** Sum of `|key| + |value|` over a batch: what `write_bytes` and
      `read_bytes` accumulate. */
  function PairBytes(kvs: seq<KvPair>): nat
  {
    if kvs == [] then 0 else PairBytes(kvs[..|kvs| - 1]) + |kvs[|kvs| - 1].key| + |kvs[|kvs| - 1].value|
  }

  /** Byte sums are additive over concatenation, so a batch's total is the
      same however it is split. */
  lemma {:induction false} PairBytesAppend(a: seq<KvPair>, b: seq<KvPair>)
    ensures PairBytes(a + b) == PairBytes(a) + PairBytes(b)
    decreases |b|
  {
    if b == [] {
      assert a + b == a;
    } else {
      var b' := b[..|b| - 1];
      assert (a + b)[..|a + b| - 1] == a + b';
      PairBytesAppend(a, b');
    }
  }

  /** A batch in which every key has `keyLen` characters and every value
      `valueLen` characters weighs `|kvs| * (keyLen + valueLen)` bytes. */
  lemma {:induction false} PairBytesUniform(kvs: seq<KvPair>, keyLen: nat, valueLen: nat)
    requires forall i :: 0 <= i < |kvs| ==> |kvs[i].key| == keyLen && |kvs[i].value| == valueLen
    ensures PairBytes(kvs) == |kvs| * (keyLen + valueLen)
    decreases |kvs|
  {
    if kvs != [] {
      PairBytesUniform(kvs[..|kvs| - 1], keyLen, valueLen);
    }
  }

  /** Concatenation of a sequence of batches, in order. */
  function Flatten<T>(batches: seq<seq<T>>): seq<T>
  {
    if batches == [] then [] else Flatten(batches[..|batches| - 1]) + batches[|batches| - 1]
  }

  lemma FlattenAppend<T>(batches: seq<seq<T>>, b: seq<T>)
    ensures Flatten(batches + [b]) == Flatten(batches) + b
  {
    assert (batches + [b])[..|batches|] == batches;
  }

  /** Characters that `GenRandomString` draws from: a-z then 0-9. */
  const Alphabet: seq<char> := "abcdefghijklmnopqrstuvwxyz0123456789"

  /** A random string of `len` characters (none when `len` is negative):
      character `j` of the `call`-th string drawn is `Alphabet[draw(call, j) % 36]`.
      `draw` stands for the seeded Mersenne twister, which is not modelled. */
  function RandomString(draw: (nat, nat) -> nat, call: nat, len: int): (s: string)
    ensures |s| == if len < 0 then 0 else len
  {
    seq(if len < 0 then 0 else len, j requires 0 <= j => Alphabet[draw(call, j) % 36])
  }

  predicate AlphaNumeric(c: char)
  {
    'a' <= c <= 'z' || '0' <= c <= '9'
  }

  /** A random string holds only lower-case letters and digits, whatever the
      generator draws. */
  lemma RandomStringAlphabet(draw: (nat, nat) -> nat, call: nat, len: int)
    ensures var s := RandomString(draw, call, len);
            forall j :: 0 <= j < |s| ==> s[j] in Alphabet && AlphaNumeric(s[j])
  {
    forall k | 0 <= k < |Alphabet|
      ensures AlphaNumeric(Alphabet[k])
    {
      if k < 26 {
        assert Alphabet[k] == ('a' as int + k) as char;
      } else {
        assert Alphabet[k] == ('0' as int + k - 26) as char;
      }
    }
  }

  lemma MulAtLeast(d: int, n: int)
    requires d >= 1 && n > 0
    ensures d * n >= n
  {
  }

  /** Euclidean division is unique: `x == q * n + s` with `0 <= s < n`
      determines the quotient and the remainder. */
  lemma ModUnique(x: int, q: int, s: int, n: int)
    requires n > 0 && 0 <= s < n && x == q * n + s
    ensures x % n == s && x / n == q
  {
    var q', s' := x / n, x % n;
    assert x == q' * n + s';
    var d := q - q';
    assert d * n == s' - s;
    if d >= 1 {
      MulAtLeast(d, n);
    }
    assert d == 0;
  }
}
