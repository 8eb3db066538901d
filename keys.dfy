/** Key encoding of the benchmark client (operation.cc:101-102, 185-188):
    a key is a one-letter client tag, the region prefix, and either the
    region counter zero-padded to `key_size - |prefix|` digits or a random
    string of that length. */
module Keys {
  import opened Common

  /** Tags that keep raw and transactional keys apart. */
  const ClientRaw: string := "w"
  const ClientTxn: string := "x"

  function Pow10(n: nat): (r: nat)
    ensures r >= 1
  {
    if n == 0 then 1 else 10 * Pow10(n - 1)
  }

  function Max(a: int, b: int): int { if a < b then b else a }

  /** Number of decimal digits of `n` as fmt prints it (at least one). */
  function NumDigits(n: nat): (d: nat)
    ensures d >= 1
  {
    if n < 10 then 1 else 1 + NumDigits(n / 10)
  }

  function DigitChar(d: nat): char
    requires d < 10
  {
    ('0' as int + d) as char
  }

  /** The last `w` decimal digits of `n`, most significant first, with
      leading zeros. */
  function FixedDigits(n: nat, w: nat): (s: string)
    ensures |s| == w
  {
    if w == 0 then [] else FixedDigits(n / 10, w - 1) + [DigitChar(n % 10)]
  }

  /** `fmt::format("{0:0{1}}", n, width)` for a non-negative `n`: the decimal
      digits of `n`, left-padded with '0' up to `width` characters. A width
      below the number of digits pads nothing. */
  function GenSeqString(n: nat, width: int): string
  {
    FixedDigits(n, Max(width, NumDigits(n)))
  }

  /** Value of a decimal digit string, most significant digit first: the
      inverse of the zero-padded printing. */
  function ParseDecimal(s: string): int
  {
    if s == [] then 0 else ParseDecimal(s[..|s| - 1]) * 10 + ((s[|s| - 1] as int) - ('0' as int))
  }

  /** `std::string` comparison: lexicographic by character. */
  predicate LexLess(a: string, b: string)
  {
    |b| > 0 && (|a| == 0 || a[0] < b[0] || (a[0] == b[0] && LexLess(a[1..], b[1..])))
  }

  function EncodeRawKey(s: string): string { ClientRaw + s }
  function EncodeTxnKey(s: string): string { ClientTxn + s }

  /** The sequential key that counter value `count` yields in a region with
      `prefix` (operation.cc:204-211, 293-298, 618-626). */
  function SeqKey(tag: string, prefix: string, keySize: nat, count: nat): string
  {
    tag + prefix + GenSeqString(count, keySize - |prefix|)
  }

  lemma {:induction false} Pow10Monotone(a: nat, b: nat)
    requires a <= b
    ensures Pow10(a) <= Pow10(b)
    decreases b
  {
    if a < b { Pow10Monotone(a, b - 1); }
  }

  /** `n` fits in `d >= 1` digits exactly when `d >= NumDigits(n)`. */
  lemma {:induction false} NumDigitsFits(n: nat, d: nat)
    requires d >= 1
    ensures n < Pow10(d) <==> NumDigits(n) <= d
    decreases n
  {
    if n >= 10 {
      if d >= 2 {
        NumDigitsFits(n / 10, d - 1);
        assert n < 10 * Pow10(d - 1) <==> n / 10 < Pow10(d - 1);
      }
    } else {
      Pow10Monotone(1, d);
    }
  }

  /** Printing with `w` digits and parsing back gives `n` whenever `n` fits. */
  lemma {:induction false} ParseFixedDigits(n: nat, w: nat)
    requires n < Pow10(w)
    ensures ParseDecimal(FixedDigits(n, w)) == n
    decreases w
  {
    if w > 0 {
      var s := FixedDigits(n, w);
      assert s[..|s| - 1] == FixedDigits(n / 10, w - 1);
      assert (s[|s| - 1] as int) - ('0' as int) == n % 10;
      ParseFixedDigits(n / 10, w - 1);
    }
  }

  /** ROUND TRIP: a sequential number string always parses back to the
      counter value it was printed from, whatever the width. */
  lemma GenSeqStringRoundTrip(n: nat, width: int)
    ensures ParseDecimal(GenSeqString(n, width)) == n
  {
    var d := Max(width, NumDigits(n));
    NumDigitsFits(n, d);
    ParseFixedDigits(n, d);
  }

  /** A counter value below `10^width` prints as exactly `width` digits;
      a larger one prints unpadded. */
  lemma GenSeqStringLength(n: nat, width: nat)
    ensures |GenSeqString(n, width)| == Max(width, NumDigits(n))
    ensures width >= 1 && n < Pow10(width) ==> |GenSeqString(n, width)| == width
  {
    if width >= 1 { NumDigitsFits(n, width); }
  }

  function Zeros(k: nat): string { seq(k, _ => '0') }

  lemma {:induction false} FixedDigitsZero(k: nat)
    ensures FixedDigits(0, k) == Zeros(k)
    decreases k
  {
    if k > 0 {
      FixedDigitsZero(k - 1);
      assert Zeros(k) == Zeros(k - 1) + ['0'];
    }
  }

  /** Widening the field only adds leading zeros. */
  lemma {:induction false} FixedDigitsPad(n: nat, w: nat, k: nat)
    requires n < Pow10(w)
    ensures FixedDigits(n, w + k) == Zeros(k) + FixedDigits(n, w)
    decreases w
  {
    if w == 0 {
      FixedDigitsZero(k);
    } else {
      FixedDigitsPad(n / 10, w - 1, k);
      assert FixedDigits(n, w + k) == FixedDigits(n / 10, w - 1 + k) + [DigitChar(n % 10)];
    }
  }

  /** `GenSeqString` is fmt's zero padding: `width - NumDigits(n)` zeros
      (none if negative) before the plain decimal digits of `n`. */
  lemma GenSeqStringIsPadding(n: nat, width: int)
    ensures GenSeqString(n, width) == Zeros(Max(width - NumDigits(n), 0)) + FixedDigits(n, NumDigits(n))
  {
    NumDigitsFits(n, NumDigits(n));
    FixedDigitsPad(n, NumDigits(n), Max(width - NumDigits(n), 0));
  }

  /** Counter order is key order: with a fixed width, a smaller number
      prints as a lexicographically smaller string. */
  lemma {:induction false} FixedDigitsOrdered(a: nat, b: nat, w: nat)
    requires a < b < Pow10(w)
    ensures LexLess(FixedDigits(a, w), FixedDigits(b, w))
    decreases w
  {
    var x, y := FixedDigits(a / 10, w - 1), FixedDigits(b / 10, w - 1);
    var c, d := DigitChar(a % 10), DigitChar(b % 10);
    if a / 10 < b / 10 {
      FixedDigitsOrdered(a / 10, b / 10, w - 1);
      LexLessAppend(x, y, c, d);
    } else {
      assert x == y && c < d;
      LexLessPrefix(x, [c], [d]);
    }
  }

  /** Appending one character to each of two equal-length strings keeps
      their order. */
  lemma {:induction false} LexLessAppend(x: string, y: string, c: char, d: char)
    requires |x| == |y| && LexLess(x, y)
    ensures LexLess(x + [c], y + [d])
    decreases |x|
  {
    assert (x + [c])[0] == x[0] && (y + [d])[0] == y[0];
    if x[0] == y[0] && LexLess(x[1..], y[1..]) {
      LexLessAppend(x[1..], y[1..], c, d);
      assert (x + [c])[1..] == x[1..] + [c];
      assert (y + [d])[1..] == y[1..] + [d];
    }
  }

  lemma {:induction false} LexLessPrefix(p: string, a: string, b: string)
    requires LexLess(a, b)
    ensures LexLess(p + a, p + b)
    decreases |p|
  {
    if p == [] {
      assert p + a == a && p + b == b;
    } else {
      LexLessPrefix(p[1..], a, b);
      assert (p + a)[0] == p[0] == (p + b)[0];
      assert (p + a)[1..] == p[1..] + a;
      assert (p + b)[1..] == p[1..] + b;
    }
  }

  /** Distinct counter values give distinct keys, for every counter value
      and every tag. */
  lemma SeqKeyInjective(tag: string, prefix: string, keySize: nat, c1: nat, c2: nat)
    ensures SeqKey(tag, prefix, keySize, c1) == SeqKey(tag, prefix, keySize, c2) <==> c1 == c2
  {
    var w := keySize - |prefix|;
    if SeqKey(tag, prefix, keySize, c1) == SeqKey(tag, prefix, keySize, c2) {
      var n := |tag + prefix|;
      assert SeqKey(tag, prefix, keySize, c1)[n..] == GenSeqString(c1, w);
      assert SeqKey(tag, prefix, keySize, c2)[n..] == GenSeqString(c2, w);
      GenSeqStringRoundTrip(c1, w);
      GenSeqStringRoundTrip(c2, w);
    }
  }

  /** A counter value that fits the numeric width gives a key of
      `key_size + 1` characters: the tag is the extra one. */
  lemma SeqKeyLength(tag: string, prefix: string, keySize: nat, count: nat)
    requires |tag| == 1 && |prefix| < keySize && count < Pow10(keySize - |prefix|)
    ensures |SeqKey(tag, prefix, keySize, count)| == keySize + 1
  {
    GenSeqStringLength(count, keySize - |prefix|);
  }

  /** Counter values that fit the numeric width give keys ordered like the
      numbers. */
  lemma SeqKeyOrdered(tag: string, prefix: string, keySize: nat, c1: nat, c2: nat)
    requires |prefix| <= keySize && c1 < c2 < Pow10(keySize - |prefix|)
    ensures LexLess(SeqKey(tag, prefix, keySize, c1), SeqKey(tag, prefix, keySize, c2))
  {
    var w := keySize - |prefix|;
    NumDigitsFits(c1, w);
    NumDigitsFits(c2, w);
    FixedDigitsOrdered(c1, c2, w);
    LexLessPrefix(tag + prefix, GenSeqString(c1, w), GenSeqString(c2, w));
  }

  /** Sequential keys of one region: distinct counter values give distinct
      keys (for every counter value), counter values that fit the numeric
      width give keys of length `key_size + 1` (the tag is extra) ordered
      like the numbers, and a raw key never equals a transactional key. */
  lemma SeqKeyProperties(prefix: string, keySize: nat, c1: nat, c2: nat)
    ensures SeqKey(ClientRaw, prefix, keySize, c1) == SeqKey(ClientRaw, prefix, keySize, c2) <==> c1 == c2
    ensures SeqKey(ClientTxn, prefix, keySize, c1) == SeqKey(ClientTxn, prefix, keySize, c2) <==> c1 == c2
    ensures SeqKey(ClientRaw, prefix, keySize, c1) != SeqKey(ClientTxn, prefix, keySize, c2)
    ensures |prefix| < keySize && c1 < Pow10(keySize - |prefix|) ==>
              |SeqKey(ClientRaw, prefix, keySize, c1)| == keySize + 1
    ensures |prefix| <= keySize && c1 < c2 < Pow10(keySize - |prefix|) ==>
              LexLess(SeqKey(ClientRaw, prefix, keySize, c1), SeqKey(ClientRaw, prefix, keySize, c2))
  {
    SeqKeyInjective(ClientRaw, prefix, keySize, c1, c2);
    SeqKeyInjective(ClientTxn, prefix, keySize, c1, c2);
    assert SeqKey(ClientRaw, prefix, keySize, c1)[0] != SeqKey(ClientTxn, prefix, keySize, c2)[0];
    if |prefix| < keySize && c1 < Pow10(keySize - |prefix|) {
      SeqKeyLength(ClientRaw, prefix, keySize, c1);
    }
    if |prefix| <= keySize && c1 < c2 < Pow10(keySize - |prefix|) {
      SeqKeyOrdered(ClientRaw, prefix, keySize, c1, c2);
    }
  }

  /** The fill scenario: prefix "p", key size 8, counters 0 and 99. */
  lemma SeqKeyExample()
    ensures SeqKey(ClientRaw, "p", 8, 0) == "wp0000000"
    ensures SeqKey(ClientRaw, "p", 8, 99) == "wp0000099"
  {
    SeqStringZero();
    SeqStringNinetyNine();
  }

  lemma SeqStringZero()
    ensures GenSeqString(0, 7) == "0000000"
  {
    GenSeqStringIsPadding(0, 7);
    assert Zeros(6) == "000000";
    assert FixedDigits(0, 1) == FixedDigits(0, 0) + "0";
  }

  lemma SeqStringNinetyNine()
    ensures GenSeqString(99, 7) == "0000099"
  {
    assert NumDigits(99) == 2;
    GenSeqStringIsPadding(99, 7);
    assert Zeros(5) == "00000";
    assert FixedDigits(9, 1) == FixedDigits(0, 0) + "9";
    assert FixedDigits(99, 2) == FixedDigits(9, 1) + "9";
  }

  // ---- As written: the counter is narrowed to `int` before printing ----

  /** Conversion of an unsigned counter value to the 32-bit signed `int`
      parameter of `GenSeqString` (two's-complement wrap-around). */
  function Int32Of(n: nat): (r: int)
    ensures -0x8000_0000 <= r < 0x8000_0000
    ensures (r - n) % 0x1_0000_0000 == 0
  {
    (n + 0x8000_0000) % 0x1_0000_0000 - 0x8000_0000
  }

  /** fmt's zero padding of a signed number: the sign comes first and counts
      towards the width. */
  function FormatInt(x: int, width: int): string
  {
    if x >= 0 then GenSeqString(x, width) else "-" + FixedDigits(-x, Max(width - 1, NumDigits(-x)))
  }

  /** The numeric part of a sequential key exactly as operation.cc builds
      it: the `size_t` counter value is passed to `GenSeqString(int, int)`. */
  function GenSeqStringAsWritten(count: nat, width: int): string
  {
    FormatInt(Int32Of(count), width)
  }

  /** As written, counter values 0 and 2^32 — both printable in 10 digits —
      produce the same key text, whereas the intended printing keeps them
      apart. */
  lemma AsWrittenCounterCollision()
    ensures 4294967296 < Pow10(10)
    ensures GenSeqStringAsWritten(0, 10) == GenSeqStringAsWritten(4294967296, 10)
    ensures GenSeqString(0, 10) != GenSeqString(4294967296, 10)
  {
    assert Pow10(10) == 10000000000 by {
      assert Pow10(5) == 100000;
    }
    assert Int32Of(4294967296) == 0;
    GenSeqStringRoundTrip(0, 10);
    GenSeqStringRoundTrip(4294967296, 10);
  }
}
