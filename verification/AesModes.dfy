/** Block-cipher modes over an arbitrary block permutation. */
module AesModes {
  import opened Arith
  import opened TwosComplement
  import opened AesBits

  const BLOCK: nat := 16

  /** A keyed block cipher. */
  type Cipher = seq<Byte> -> seq<Byte>

  ghost predicate Blocks(e: Cipher) {
    forall b: seq<Byte> {:trigger e(b)} :: |b| == BLOCK ==> |e(b)| == BLOCK
  }

  /** d undoes e on blocks. */
  ghost predicate Inverse(e: Cipher, d: Cipher) {
    Blocks(e) && Blocks(d) && forall b: seq<Byte> {:trigger e(b)} :: |b| == BLOCK ==> d(e(b)) == b
  }

  // ---------------------------------------------------------------- incrementing the counter

  /** counter + 1 modulo 2^128. */
  ghost predicate Incremented(a: seq<Byte>, b: seq<Byte>) {
    |a| == |b| && Counter(b) == (Counter(a) + 1) % Two(8 * |a|)
  }

  /** ctr128_inc: a carry from the last byte on. */
  method Inc(counter: array<Byte>)
    requires counter.Length == BLOCK
    modifies counter
    ensures Incremented(old(counter[..]), counter[..])
  {
    hide Carrying;
    ghost var a := counter[..];
    var n: nat, c: int := BLOCK, 1;
    CarryingStart(a);
    while n > 0
      invariant 0 <= n <= BLOCK && 0 <= c <= 1 && Carrying(a, counter[..], n, c)
    {
      ghost var b, c0 := counter[..], c;
      n := n - 1;
      c := c + counter[n];
      counter[n] := c % 256;
      c := c / 256;
      CarryingStep(a, b, counter[..], n, c0, c);
    }
    CarryingEnd(a, counter[..], c);
  }

  /** One more byte. */
  lemma CarryingStep(a: seq<Byte>, b: seq<Byte>, b': seq<Byte>, n: nat, c: int, c': int)
    requires n < BLOCK == |b| && Carrying(a, b, n + 1, c) && 0 <= c <= 1
    requires b' == b[n := (c + b[n]) % 256] && c' == (c + b[n]) / 256
    ensures Carrying(a, b', n, c') && 0 <= c' <= 1
  {
    hide Counter, Two;
    var low := b[n + 1..];
    assert b[n] == a[n] by { assert b[..n + 1][n] == a[..n + 1][n]; }
    assert b'[n..] == [b'[n]] + low && a[n..] == [a[n]] + a[n + 1..];
    assert b'[..n] == a[..n] by { assert b'[..n] == b[..n + 1][..n] && a[..n] == a[..n + 1][..n]; }
    CarryByte(a[n], b'[n], c, c', low, a[n + 1..]);
  }

  lemma CarryStart()
    ensures Counter([]) == 0 && Two(0) == 1
  {}

  lemma CarryByte(x: Byte, y: Byte, c: int, c': int, low: seq<Byte>, alow: seq<Byte>)
    requires 0 <= c <= 1 && y + 256 * c' == x + c && |low| == |alow|
             && Counter(low) + c * Two(8 * |low|) == Counter(alow) + 1
    ensures Counter([y] + low) + c' * Two(8 * (|low| + 1)) == Counter([x] + alow) + 1
  {
    hide Counter, Two;
    CounterConcat([y], low); CounterConcat([x], alow);
    OneByte(x); OneByte(y);
    TwoEight();
    TwoAdd(8, 8 * |low|);
    assert 8 * (|low| + 1) == 8 + 8 * |low|;
    CarryMul(x, y, c, c', 256, Two(8 * |low|));
  }

  lemma CarryMul(x: int, y: int, c: int, c': int, b: int, t: int)
    requires y + b * c' == x + c
    ensures y * t + c' * (b * t) == x * t + c * t
  {
    MulDistrib(t, y, b * c');
    MulDistrib(t, x, c);
    MulAssoc(t, b, c');
    assert c' * (b * t) == t * (b * c');
  }

  lemma OneByte(x: Byte)
    ensures Counter([x]) == x
  {
    assert [x][..0] == [];
    assert Counter([x]) == 256 * Counter([x][..|[x]| - 1]) + [x][|[x]| - 1];
  }

  lemma CarryEnd(a: seq<Byte>, b: seq<Byte>, c: int)
    requires |a| == |b| && 0 <= c <= 1 && Counter(b) + c * Two(8 * |a|) == Counter(a) + 1
    ensures Incremented(a, b)
  {
    hide Counter, Two;
    CounterBound(b);
    DivModUnique(Counter(a) + 1, Two(8 * |a|), c, Counter(b));
  }

  const WORD: nat := 8
  const WORD_MAX: nat := 0x1_0000_0000_0000_0000

  /** The carry out of a word: the top bit of (d - c) and the complement of d. */
  function CarryOut(d: nat, c: nat): nat
    requires d < WORD_MAX && c <= 1
  {
    if (d - c) % WORD_MAX >= WORD_MAX / 2 && d < WORD_MAX / 2 then 1 else 0
  }

  /** The branch of ctr128_inc_aligned for aligned counters on big-endian machines. */
  method IncWords(counter: array<Byte>)
    requires counter.Length == BLOCK
    modifies counter
    ensures Incremented(old(counter[..]), counter[..])
  {
    ghost var a := counter[..];
    var n, c := BLOCK / WORD, 1;
    hide Carrying;
    CarryingStart(a);
    while n > 0
      invariant 0 <= n <= BLOCK / WORD && 0 <= c <= 1 && Carrying(a, counter[..], WORD * n, c)
    {
      n := n - 1;
      c := AddWord(counter, WORD * n, c, a);
    }
    CarryingEnd(a, counter[..], c);
  }

  /** The bytes from `at` on have been added to, with a carry c left over. */
  ghost predicate Carrying(a: seq<Byte>, b: seq<Byte>, at: nat, c: int) {
    && |a| == |b| == BLOCK && at <= BLOCK && b[..at] == a[..at]
    && Counter(b[at..]) + c * Two(8 * (BLOCK - at)) == Counter(a[at..]) + 1
  }

  lemma CarryingStart(a: seq<Byte>)
    requires |a| == BLOCK
    ensures Carrying(a, a, BLOCK, 1)
  {
    CarryStart();
    assert a[BLOCK..] == [];
  }

  lemma CarryingEnd(a: seq<Byte>, b: seq<Byte>, c: int)
    requires Carrying(a, b, 0, c) && 0 <= c <= 1
    ensures Incremented(a, b)
  {
    hide Counter, Two;
    assert a[0..] == a && b[0..] == b;
    CarryEnd(a, b, c);
  }

  /** The carry is added to one word of the counter, and the carry out of it is found. */
  method AddWord(counter: array<Byte>, at: nat, c: nat, ghost a: seq<Byte>) returns (c': nat)
    requires counter.Length == BLOCK && at + WORD <= BLOCK && c <= 1 && Carrying(a, counter[..], at + WORD, c)
    modifies counter
    ensures c' <= 1 && Carrying(a, counter[..], at, c')
  {
    hide Counter, Two, Carrying;
    ghost var b := counter[..];
    CarryingWord(a, b, at, c);
    WordBound(a[at..at + WORD]);
    assert counter[at..at + WORD] == b[at..at + WORD];
    var data := Counter(counter[at..at + WORD]);
    var d := (data + c) % WORD_MAX;
    PutWord(counter, at, d);
    c' := CarryOut(d, c);
    CarryWord(data, c, d, c');
    CarryingMore(a, b, counter[..], at, c, c');
  }

  lemma CarryingWord(a: seq<Byte>, b: seq<Byte>, at: nat, c: int)
    requires at + WORD <= BLOCK && Carrying(a, b, at + WORD, c)
    ensures |a| == |b| == BLOCK && b[at..at + WORD] == a[at..at + WORD]
  {
    hide Counter, Two;
    assert b[..at + WORD][at..] == a[..at + WORD][at..];
  }

  lemma CarryingMore(a: seq<Byte>, b: seq<Byte>, b': seq<Byte>, at: nat, c: int, c': int)
    requires at + WORD <= BLOCK && Carrying(a, b, at + WORD, c) && |b'| == |b| && |a| == |b| == BLOCK
    requires forall k :: 0 <= k < BLOCK && !(at <= k < at + WORD) ==> b'[k] == b[k]
    requires Counter(b'[at..at + WORD]) + WORD_MAX * c' == Counter(a[at..at + WORD]) + c
    ensures Carrying(a, b', at, c')
  {
    hide Counter, Two;
    var w, v, low, alow := a[at..at + WORD], b'[at..at + WORD], b[at + WORD..], a[at + WORD..];
    SuffixSplit(a, at);
    SuffixSplit(b', at);
    assert b'[at + WORD..] == low;
    CarryChunk(w, v, c, c', low, alow);
    assert b'[..at] == b[..at] && b[..at] == b[..at + WORD][..at] && a[..at] == a[..at + WORD][..at];
  }

  lemma SuffixSplit(a: seq<Byte>, i: nat)
    requires i + WORD <= |a|
    ensures a[i..] == a[i..i + WORD] + a[i + WORD..]
  {}

  lemma WordBound(w: seq<Byte>)
    requires |w| == WORD
    ensures Counter(w) < WORD_MAX && Two(8 * WORD) == WORD_MAX
  {
    CounterBound(w);
    hide Counter, Two;
    Two32();
    TwoAdd(32, 32);
  }

  lemma CarryWord(data: nat, c: nat, d: nat, c': nat)
    requires data < WORD_MAX && c <= 1 && d == (data + c) % WORD_MAX && c' == CarryOut(d, c)
    ensures d + WORD_MAX * c' == data + c
  {}

  /** The word written back, most significant byte first. */
  method PutWord(counter: array<Byte>, at: nat, d: nat)
    requires at + WORD <= counter.Length && d < WORD_MAX
    modifies counter
    ensures Counter(counter[at..at + WORD]) == d
    ensures forall k :: 0 <= k < counter.Length && !(at <= k < at + WORD) ==> counter[k] == old(counter[k])
  {
    hide Counter;
    var x, i := d, WORD;
    ghost var m := 1;
    CarryStart();
    assert counter[at + i..at + WORD] == [];
    while i > 0
      invariant 0 <= i <= WORD && 0 <= x && m == Two(8 * (WORD - i)) && d == x * m + Counter(counter[at + i..at + WORD])
      invariant forall k :: 0 <= k < counter.Length && !(at <= k < at + WORD) ==> counter[k] == old(counter[k])
    {
      ghost var low := counter[at + i..at + WORD];
      i := i - 1;
      counter[at + i] := x % 256;
      assert counter[at + i..at + WORD] == [counter[at + i]] + low;
      PutByte(x, counter[at + i], m, low);
      x := x / 256;
      m := 256 * m;
    }
    NoMore(d, x, counter[at..at + WORD]);
  }

  lemma PutByte(x: nat, b: Byte, m: nat, low: seq<Byte>)
    requires b == x % 256 && m == Two(8 * |low|)
    ensures x * m + Counter(low) == (x / 256) * (256 * m) + Counter([b] + low) && 256 * m == Two(8 * (|low| + 1))
  {
    hide Counter, Two;
    CounterConcat([b], low);
    OneByte(b);
    TwoEight();
    TwoAdd(8, 8 * |low|);
    var q := x / 256;
    assert x == 256 * q + b;
    MulDistrib(m, 256 * q, b);
    MulAssoc(m, 256, q); MulAssoc(q, 256, m);
  }

  lemma NoMore(d: nat, x: nat, w: seq<Byte>)
    requires |w| == WORD && d < WORD_MAX && d == x * Two(8 * WORD) + Counter(w)
    ensures Counter(w) == d
  {
    hide Counter, Two;
    WordBound(w);
    if x > 0 { MulLe(WORD_MAX, 1, x); }
  }

  lemma CarryChunk(w: seq<Byte>, v: seq<Byte>, c: int, c': int, low: seq<Byte>, alow: seq<Byte>)
    requires |w| == |v| == WORD && Counter(v) + WORD_MAX * c' == Counter(w) + c && |low| == |alow|
    requires Counter(low) + c * Two(8 * |low|) == Counter(alow) + 1
    ensures Counter(v + low) + c' * Two(8 * (|low| + WORD)) == Counter(w + alow) + 1
  {
    hide Counter, Two;
    CounterConcat(v, low); CounterConcat(w, alow);
    WordBound(w);
    TwoAdd(8 * WORD, 8 * |low|);
    assert 8 * (|low| + WORD) == 8 * WORD + 8 * |low|;
    CarryMul(Counter(w), Counter(v), c, c', WORD_MAX, Two(8 * |low|));
  }

  /** ctr128_inc_aligned: both branches add one. */
  method IncAligned(counter: array<Byte>, wordwise: bool)
    requires counter.Length == BLOCK
    modifies counter
    ensures Incremented(old(counter[..]), counter[..])
  {
    if !wordwise {
      Inc(counter);
    } else {
      IncWords(counter);
    }
  }

  // ---------------------------------------------------------------- counter mode

  function Plus(ctr: seq<Byte>, k: nat): (r: seq<Byte>)
    ensures |r| == |ctr|
  {
    BigEndian((Counter(ctr) + k) % Two(8 * |ctr|), |ctr|)
  }

  lemma {:induction false} BigEndianCounter(x: nat, n: nat)
    ensures Counter(BigEndian(x, n)) == x % Two(8 * n)
    decreases n
  {
    if n > 0 {
      BigEndianCounter(x / 256, n - 1);
      TwoEight();
      TwoAdd(8, 8 * (n - 1));
      var s := BigEndian(x, n);
      assert s[..n - 1] == BigEndian(x / 256, n - 1);
      hide Two, Counter, BigEndian;
      HighDigits(x, Two(8 * (n - 1)));
    }
  }

  lemma HighDigits(x: nat, m: nat)
    requires m > 0
    ensures x % (256 * m) == 256 * ((x / 256) % m) + x % 256
  {
    var h := x / 256;
    var q, r := h / m, h % m;
    assert h == m * q + r;
    assert 256 * (m * q) == (256 * m) * q;
    DivModUnique(x, 256 * m, q, 256 * r + x % 256);
  }

  lemma PlusCounter(ctr: seq<Byte>, k: nat)
    ensures Counter(Plus(ctr, k)) == (Counter(ctr) + k) % Two(8 * |ctr|)
  {
    hide Counter, Two, BigEndian;
    var m := Two(8 * |ctr|) as int;
    BigEndianCounter((Counter(ctr) + k) % m, |ctr|);
    CongMod(Counter(ctr) + k, m);
    DivModUnique((Counter(ctr) + k) % m, m, 0, (Counter(ctr) + k) % m);
  }

  /** Adding one more. */
  lemma PlusNext(ctr: seq<Byte>, k: nat, b: seq<Byte>)
    requires Incremented(Plus(ctr, k), b)
    ensures b == Plus(ctr, k + 1)
  {
    hide Counter, Two, BigEndian;
    PlusCounter(ctr, k); PlusCounter(ctr, k + 1);
    var m, x := Two(8 * |ctr|) as int, Counter(ctr) + k;
    CongMod(x, m);
    CongSame(1, m);
    CongAdd(x % m, x, 1, 1, m);
    CounterInjective(b, Plus(ctr, k + 1));
  }

  lemma PlusNone(ctr: seq<Byte>)
    ensures Plus(ctr, 0) == ctr
  {
    hide Counter, Two, BigEndian;
    PlusCounter(ctr, 0);
    CounterBound(ctr);
    DivModUnique(Counter(ctr), Two(8 * |ctr|), 0, Counter(ctr));
    CounterInjective(Plus(ctr, 0), ctr);
  }

  /** The byte of the key stream for position l. */
  function StreamByte(e: Cipher, ctr: seq<Byte>, l: nat): Byte {
    var block := e(Plus(ctr, l / BLOCK));
    if l % BLOCK < |block| then block[l % BLOCK] else 0
  }

  /** Counter mode: every byte is combined with its byte of the key stream. */
  function Ctr(e: Cipher, ctr: seq<Byte>, s: seq<Byte>): (r: seq<Byte>)
    ensures |r| == |s|
  {
    seq(|s|, l requires 0 <= l < |s| => Xor8(s[l], StreamByte(e, ctr, l)))
  }

  /** Encrypting twice gives back the input. */
  lemma CtrTwice(e: Cipher, ctr: seq<Byte>, s: seq<Byte>)
    ensures Ctr(e, ctr, Ctr(e, ctr, s)) == s
  {
    hide Xor8, StreamByte;
    forall l | 0 <= l < |s| ensures Ctr(e, ctr, Ctr(e, ctr, s))[l] == s[l] { XorTwice(s[l], StreamByte(e, ctr, l)); }
  }

  /** The counter after n bytes. */
  function After(ctr: seq<Byte>, n: nat): seq<Byte> {
    Plus(ctr, (n + BLOCK - 1) / BLOCK)
  }

  lemma StreamByteIs(e: Cipher, ctr: seq<Byte>, l: nat, ecount: seq<Byte>)
    requires |ecount| == BLOCK && ecount == e(Plus(ctr, l / BLOCK))
    ensures ecount[l % BLOCK] == StreamByte(e, ctr, l)
  {
    hide Plus;
  }

  /** The reference loop: a new block whenever n is 0. */
  method CtrReference(e: Cipher, ivec: array<Byte>, input: array<Byte>, output: array<Byte>)
    requires Blocks(e) && ivec.Length == BLOCK && output.Length == input.Length && ivec != input && ivec != output
    modifies ivec, output
    ensures output[..] == Ctr(e, old(ivec[..]), old(input[..])) && ivec[..] == After(old(ivec[..]), input.Length)
  {
    hide Xor8, Plus, StreamByte;
    ghost var ctr, s := ivec[..], input[..];
    ghost var k := 0;
    PlusNone(ctr);
    var l, n := 0, 0;
    var ecount: seq<Byte> := seq(BLOCK, _ => 0);
    while l < input.Length
      invariant 0 <= l <= input.Length && n == l % BLOCK && |ecount| == BLOCK && ivec[..] == Plus(ctr, k)
                && k == (l + BLOCK - 1) / BLOCK
      invariant n != 0 ==> ecount == e(Plus(ctr, l / BLOCK))
      invariant forall i :: 0 <= i < l ==> output[i] == Xor8(s[i], StreamByte(e, ctr, i))
      invariant forall i :: l <= i < input.Length ==> input[i] == s[i]
    {
      if n == 0 {
        ecount := e(ivec[..]);
        assert k == l / BLOCK;
        Inc(ivec);
        PlusNext(ctr, k, ivec[..]);
        k := k + 1;
      }
      assert ecount[n] == StreamByte(e, ctr, l) by { StreamByteIs(e, ctr, l, ecount); }
      output[l] := Xor8(input[l], ecount[n]);
      l := l + 1;
      n := (n + 1) % BLOCK;
    }
  }

  /** One word of output: a word of input combined with a word of the key stream. */
  method XorWordAt(input: array<Byte>, output: array<Byte>, at: nat, key: seq<Byte>)
    requires |key| == WORD && at + WORD <= input.Length == output.Length
    modifies output
    ensures forall k :: 0 <= k < WORD ==> output[at + k] == Xor8(old(input[at + k]), key[k])
    ensures forall k :: 0 <= k < output.Length && !(at <= k < at + WORD) ==> output[k] == old(output[k])
  {
    hide Xor8, Store, XorWord, Load;
    ghost var s := input[at..at + WORD];
    var word := Store(XorWord(Load(input[at..at + WORD]), Load(key), WORD), WORD);
    XorWordBytes(s, key);
    assert word == XorBytes(s, key);
    for i := 0 to WORD
      invariant forall k :: 0 <= k < i ==> output[at + k] == word[k]
      invariant forall k :: 0 <= k < output.Length && !(at <= k < at + WORD) ==> output[k] == old(output[k])
    {
      output[at + i] := word[i];
    }
    forall k | 0 <= k < WORD ensures output[at + k] == Xor8(old(input[at + k]), key[k]) {
      assert word[k] == Xor8(s[k], key[k]) && s[k] == old(input[at + k]);
    }
  }

  /** The first l bytes are done, and the others are still as they were. */
  ghost predicate Streamed(input: array<Byte>, output: array<Byte>, e: Cipher, ctr: seq<Byte>, s: seq<Byte>, l: nat)
    reads input, output
  {
    && input.Length == output.Length == |s| && l <= |s|
    && (forall i :: 0 <= i < l ==> output[i] == Xor8(s[i], StreamByte(e, ctr, i)))
    && (forall i :: l <= i < |s| ==> input[i] == s[i])
  }

  /** A whole block, word by word. */
  method CtrBlock(e: Cipher, input: array<Byte>, output: array<Byte>, at: nat, ecount: seq<Byte>, ghost ctr: seq<Byte>,
                  ghost s: seq<Byte>)
    requires Streamed(input, output, e, ctr, s, at) && at % BLOCK == 0 && at + BLOCK <= |s| && |ecount| == BLOCK
             && ecount == e(Plus(ctr, at / BLOCK))
    modifies output
    ensures Streamed(input, output, e, ctr, s, at + BLOCK)
  {
    hide Xor8, Plus;
    forall k | 0 <= k < BLOCK ensures StreamByte(e, ctr, at + k) == ecount[k] { BlockByte(at, k); }
    var n := 0;
    while n < BLOCK
      invariant n == 0 || n == WORD || n == BLOCK
      invariant Streamed(input, output, e, ctr, s, at + n)
    {
      var key := ecount[n..n + WORD];
      XorWordAt(input, output, at + n, key);
      forall i | at + n <= i < at + n + WORD ensures output[i] == Xor8(s[i], StreamByte(e, ctr, i)) {
        var k := i - (at + n);
        assert output[at + n + k] == Xor8(s[i], key[k]) && key[k] == ecount[n + k];
        assert StreamByte(e, ctr, at + (n + k)) == ecount[n + k] && at + (n + k) == i;
      }
      n := n + WORD;
    }
  }

  lemma BlockByte(at: nat, k: nat)
    requires at % BLOCK == 0 && k < BLOCK
    ensures (at + k) / BLOCK == at / BLOCK && (at + k) % BLOCK == k
  {}

  /** ogs_aes_ctr128_encrypt: the same bytes and the same counter as the reference loop, in place
      or not, whatever the machine's byte order. */
  method CtrEncrypt(e: Cipher, ivec: array<Byte>, input: array<Byte>, output: array<Byte>, wordwise: bool)
    requires Blocks(e) && ivec.Length == BLOCK && output.Length == input.Length && ivec != input && ivec != output
    modifies ivec, output
    ensures output[..] == Ctr(e, old(ivec[..]), old(input[..])) && ivec[..] == After(old(ivec[..]), input.Length)
  {
    hide Xor8, Plus, StreamByte, Streamed;
    ghost var ctr, s := ivec[..], input[..];
    ghost var k := 0;
    PlusNone(ctr);
    StreamStart(input, output, e, ctr);
    var len, pos := input.Length, 0;
    while len >= BLOCK
      invariant 0 <= pos && 0 <= len && pos + len == input.Length && pos == BLOCK * k && ivec[..] == Plus(ctr, k)
      invariant Streamed(input, output, e, ctr, s, pos)
    {
      var ecount := e(ivec[..]);
      IncAligned(ivec, wordwise);
      PlusNext(ctr, k, ivec[..]);
      CtrBlock(e, input, output, pos, ecount, ctr, s);
      len := len - BLOCK;
      pos := pos + BLOCK;
      k := k + 1;
    }
    if len > 0 {
      var ecount := e(ivec[..]);
      IncAligned(ivec, wordwise);
      PlusNext(ctr, k, ivec[..]);
      CtrTail(e, input, output, pos, len, ecount, ctr, s, k);
      k := k + 1;
    }
    assert k == (input.Length + BLOCK - 1) / BLOCK;
    StreamEnd(input, output, e, ctr, s);
  }

  lemma StreamStart(input: array<Byte>, output: array<Byte>, e: Cipher, ctr: seq<Byte>)
    requires input.Length == output.Length
    ensures Streamed(input, output, e, ctr, input[..], 0)
  {}

  lemma StreamEnd(input: array<Byte>, output: array<Byte>, e: Cipher, ctr: seq<Byte>, s: seq<Byte>)
    requires Streamed(input, output, e, ctr, s, |s|)
    ensures output[..] == Ctr(e, ctr, s)
  {}

  /** The bytes of an incomplete block. */
  method CtrTail(e: Cipher, input: array<Byte>, output: array<Byte>, pos: nat, len: nat, ecount: seq<Byte>,
                 ghost ctr: seq<Byte>, ghost s: seq<Byte>, ghost k: nat)
    requires Streamed(input, output, e, ctr, s, pos) && pos == BLOCK * k && pos + len == |s| && len < BLOCK
    requires |ecount| == BLOCK && ecount == e(Plus(ctr, k))
    modifies output
    ensures Streamed(input, output, e, ctr, s, |s|)
  {
    hide Xor8, Plus, StreamByte;
    var n := 0;
    while n < len
      invariant 0 <= n <= len && Streamed(input, output, e, ctr, s, pos + n)
    {
      LastByte(e, ctr, pos, n, k);
      output[pos + n] := Xor8(input[pos + n], ecount[n]);
      n := n + 1;
    }
  }

  lemma LastByte(e: Cipher, ctr: seq<Byte>, pos: nat, n: nat, k: nat)
    requires pos == BLOCK * k && n < BLOCK && |e(Plus(ctr, k))| == BLOCK
    ensures StreamByte(e, ctr, pos + n) == e(Plus(ctr, k))[n]
  {
    hide Plus;
    BlockByte(pos, n);
  }

  // ---------------------------------------------------------------- cipher block chaining

  /** Zero bytes up to a whole number of blocks. */
  function Pad(s: seq<Byte>): (r: seq<Byte>)
    ensures |r| % BLOCK == 0 && |s| <= |r| < |s| + BLOCK && r[..|s|] == s
    ensures forall k :: |s| <= k < |r| ==> r[k] == 0
  {
    s + Zeros((BLOCK - |s| % BLOCK) % BLOCK)
  }

  /** Each block is combined with the cipher block before it. */
  function CbcEncrypt(e: Cipher, iv: seq<Byte>, p: seq<Byte>): seq<Byte>
    requires |iv| == BLOCK
    decreases |p|
  {
    if |p| < BLOCK then []
    else
      var c := e(XorBytes(p[..BLOCK], iv));
      if |c| == BLOCK then c + CbcEncrypt(e, c, p[BLOCK..]) else []
  }

  function CbcDecrypt(d: Cipher, iv: seq<Byte>, c: seq<Byte>): seq<Byte>
    requires |iv| == BLOCK
    decreases |c|
  {
    if |c| < BLOCK then []
    else
      var p := d(c[..BLOCK]);
      if |p| == BLOCK then XorBytes(p, iv) + CbcDecrypt(d, c[..BLOCK], c[BLOCK..]) else []
  }

  /** The chaining vector after a message: its last cipher block. */
  function Last(iv: seq<Byte>, c: seq<Byte>): seq<Byte> {
    if |c| < BLOCK then iv else c[|c| - BLOCK..]
  }

  lemma {:induction false} CbcLength(e: Cipher, iv: seq<Byte>, p: seq<Byte>)
    requires Blocks(e) && |iv| == BLOCK && |p| % BLOCK == 0
    ensures |CbcEncrypt(e, iv, p)| == |p| && |CbcDecrypt(e, iv, p)| == |p|
    decreases |p|
  {
    if |p| >= BLOCK {
      CbcLength(e, e(XorBytes(p[..BLOCK], iv)), p[BLOCK..]);
      CbcLength(e, p[..BLOCK], p[BLOCK..]);
      assert |e(p[..BLOCK])| == BLOCK;
    }
  }

  /** Decryption undoes encryption of whole blocks. */
  lemma {:induction false} CbcRoundTrip(e: Cipher, d: Cipher, iv: seq<Byte>, p: seq<Byte>)
    requires Inverse(e, d) && |iv| == BLOCK && |p| % BLOCK == 0
    ensures CbcDecrypt(d, iv, CbcEncrypt(e, iv, p)) == p
    decreases |p|
  {
    if |p| >= BLOCK {
      var x := XorBytes(p[..BLOCK], iv);
      var c := e(x);
      var rest := CbcEncrypt(e, c, p[BLOCK..]);
      CbcRoundTrip(e, d, c, p[BLOCK..]);
      assert (c + rest)[..BLOCK] == c && (c + rest)[BLOCK..] == rest;
      XorBytesTwice(p[..BLOCK], iv);
      assert d(c) == x;
      assert p == p[..BLOCK] + p[BLOCK..];
    }
  }

  /** Up to the zero padding, any message is restored. */
  lemma CbcRestores(e: Cipher, d: Cipher, iv: seq<Byte>, s: seq<Byte>)
    requires Inverse(e, d) && |iv| == BLOCK
    ensures CbcDecrypt(d, iv, CbcEncrypt(e, iv, Pad(s))) == Pad(s) && Pad(s)[..|s|] == s
  {
    CbcRoundTrip(e, d, iv, Pad(s));
  }

  /** The first i blocks hold their cipher blocks, and the rest of the input is as it was. */
  ghost predicate Chained(input: array<Byte>, output: array<Byte>, e: Cipher, iv: seq<Byte>, s: seq<Byte>, pos: nat,
                          v: seq<Byte>)
    reads input, output
  {
    && pos <= |s| == input.Length && |Pad(s)| <= output.Length && pos % BLOCK == 0 && |v| == BLOCK && |iv| == BLOCK
    && CbcEncrypt(e, iv, Pad(s)) == output[..pos] + CbcEncrypt(e, v, Pad(s)[pos..]) && v == Last(iv, output[..pos])
    && forall i :: pos <= i < |s| ==> input[i] == s[i]
  }

  /** One block: combine with the chaining vector, encrypt. */
  lemma ChainBlock(e: Cipher, v: seq<Byte>, p: seq<Byte>, pos: nat)
    requires Blocks(e) && |v| == BLOCK && pos + BLOCK <= |p|
    ensures var c := e(XorBytes(p[pos..pos + BLOCK], v)); |c| == BLOCK && CbcEncrypt(e, v, p[pos..]) == c + CbcEncrypt(e, c, p[pos + BLOCK..])
  {
    assert p[pos..][..BLOCK] == p[pos..pos + BLOCK] && p[pos..][BLOCK..] == p[pos + BLOCK..];
  }

  /** A block of input combined with the chaining vector, with zero bytes behind the end of the input. */
  method Combine(input: array<Byte>, pos: nat, len: nat, v: seq<Byte>) returns (x: seq<Byte>)
    requires len <= BLOCK && pos + len <= input.Length && |v| == BLOCK
    ensures |x| == BLOCK && x == XorBytes(input[pos..pos + len] + Zeros(BLOCK - len), v)
  {
    hide Xor8;
    x := [];
    for n := 0 to len
      invariant |x| == n && forall k :: 0 <= k < n ==> x[k] == Xor8(input[pos + k], v[k])
    {
      x := x + [Xor8(input[pos + n], v[n])];
    }
    for n := len to BLOCK
      invariant |x| == n && (forall k :: 0 <= k < len ==> x[k] == Xor8(input[pos + k], v[k]))
                && (forall k :: len <= k < n ==> x[k] == v[k])
    {
      x := x + [v[n]];
    }
    forall k | len <= k < BLOCK ensures x[k] == Xor8(0, v[k]) { XorZero(v[k]); }
  }

  function Zeros(n: nat): (r: seq<Byte>)
    ensures |r| == n
  {
    seq(n, _ => 0)
  }

  lemma PadBlock(s: seq<Byte>, pos: nat)
    requires pos % BLOCK == 0 && pos < |s|
    ensures pos + BLOCK <= |Pad(s)|
    ensures pos + BLOCK <= |s| ==> Pad(s)[pos..pos + BLOCK] == s[pos..pos + BLOCK]
    ensures pos + BLOCK > |s| ==>
              |Pad(s)| == pos + BLOCK && Pad(s)[pos..pos + BLOCK] == s[pos..] + Zeros(BLOCK - (|s| - pos))
  {
    var p := Pad(s);
    if pos + BLOCK > |s| {
      var n := |s| - pos;
      assert |s| % BLOCK == n;
      assert p == s + Zeros(BLOCK - n);
    }
  }

  method PutBlock(output: array<Byte>, pos: nat, c: seq<Byte>)
    requires |c| == BLOCK && pos + BLOCK <= output.Length
    modifies output
    ensures output[..pos + BLOCK] == old(output[..pos]) + c
    ensures forall k :: 0 <= k < output.Length && !(pos <= k < pos + BLOCK) ==> output[k] == old(output[k])
  {
    for n := 0 to BLOCK
      invariant forall k :: 0 <= k < n ==> output[pos + k] == c[k]
      invariant forall k :: 0 <= k < output.Length && !(pos <= k < pos + BLOCK) ==> output[k] == old(output[k])
    {
      output[pos + n] := c[n];
    }
    assert output[..pos + BLOCK] == output[..pos] + output[pos..pos + BLOCK];
    assert output[..pos] == old(output[..pos]);
  }

  /** One turn of the encryption loop, for `len` bytes of input. */
  method EncryptBlock(e: Cipher, input: array<Byte>, output: array<Byte>, pos: nat, len: nat, v: seq<Byte>,
                      ghost iv: seq<Byte>, ghost s: seq<Byte>)
    returns (c: seq<Byte>)
    requires Blocks(e) && Chained(input, output, e, iv, s, pos, v) && pos < |s|
             && len == (if pos + BLOCK <= |s| then BLOCK else |s| - pos)
    modifies output
    ensures if len == BLOCK then Chained(input, output, e, iv, s, pos + BLOCK, c)
            else |Pad(s)| == pos + BLOCK <= output.Length && output[..pos + BLOCK] == CbcEncrypt(e, iv, Pad(s))
                 && c == Last(iv, CbcEncrypt(e, iv, Pad(s)))
    ensures forall k :: pos + BLOCK <= k < output.Length ==> output[k] == old(output[k])
  {
    hide Pad, CbcEncrypt, XorBytes;
    ghost var p := Pad(s);
    PadBlock(s, pos);
    ChainBlock(e, v, p, pos);
    assert input[pos..pos + len] == s[pos..pos + len];
    var x := Combine(input, pos, len, v);
    ghost var done := output[..pos];
    if len == BLOCK {
      assert s[pos..pos + BLOCK] + Zeros(0) == s[pos..pos + BLOCK];
    } else {
      assert s[pos..] == s[pos..pos + len];
    }
    assert x == XorBytes(p[pos..pos + BLOCK], v);
    c := e(x);
    PutBlock(output, pos, c);
    EncryptedBlock(e, iv, p, pos, v, done, c);
  }

  lemma EncryptedBlock(e: Cipher, iv: seq<Byte>, p: seq<Byte>, pos: nat, v: seq<Byte>, done: seq<Byte>, c: seq<Byte>)
    requires |iv| == |v| == |c| == BLOCK && |done| == pos && pos + BLOCK <= |p|
             && CbcEncrypt(e, iv, p) == done + CbcEncrypt(e, v, p[pos..])
    requires CbcEncrypt(e, v, p[pos..]) == c + CbcEncrypt(e, c, p[pos + BLOCK..])
    ensures CbcEncrypt(e, iv, p) == (done + c) + CbcEncrypt(e, c, p[pos + BLOCK..]) && Last(iv, done + c) == c
    ensures |p| == pos + BLOCK ==> CbcEncrypt(e, iv, p) == done + c
  {
    hide CbcEncrypt, Last;
    var t := CbcEncrypt(e, c, p[pos + BLOCK..]);
    JoinBlocks(iv, done, c, t);
    if |p| == pos + BLOCK { NothingEncrypted(e, c, p[pos + BLOCK..]); }
  }

  lemma JoinBlocks(iv: seq<Byte>, done: seq<Byte>, c: seq<Byte>, t: seq<Byte>)
    requires |c| == BLOCK
    ensures done + (c + t) == (done + c) + t && Last(iv, done + c) == c && (t == [] ==> done + (c + t) == done + c)
  {
    assert (done + c)[|done|..] == c;
  }

  lemma NothingEncrypted(e: Cipher, iv: seq<Byte>, p: seq<Byte>)
    requires p == [] && |iv| == BLOCK
    ensures CbcEncrypt(e, iv, p) == [] && CbcDecrypt(e, iv, p) == []
  {}

  const UINT_MAX: nat := 0xffff_ffff

  /** The room that is asked for: the padded length, in 32 bits. */
  function Needed(inlen: nat): nat
    requires 0 < inlen
  {
    ((inlen - 1) / BLOCK + 1) * BLOCK % (UINT_MAX + 1)
  }

  /** The test for room is right for all but the last lengths; for those it asks for none. */
  lemma NeededIs(s: seq<Byte>)
    requires 0 < |s| <= UINT_MAX
    ensures Needed(|s|) == |Pad(s)| <==> |s| <= UINT_MAX - 15
    ensures |s| > UINT_MAX - 15 ==> Needed(|s|) == 0
    ensures |Pad(s)| <= UINT_MAX ==> Needed(|s|) == |Pad(s)|
  {
    hide Pad;
    PadSize(s);
  }

  /** ogs_aes_cbc_encrypt: the padded message, in place or not; fails if there is no room.
      `overrun` if the room that was asked for is not enough. */
  method CbcEncryptBytes(e: Cipher, ivec: array<Byte>, input: array<Byte>, output: array<Byte>)
    returns (ok: bool, outlen: nat, overrun: bool)
    requires Blocks(e) && ivec.Length == BLOCK && ivec != input && ivec != output && 0 < input.Length <= UINT_MAX
             && output.Length <= UINT_MAX
    modifies ivec, output
    ensures ok <==> Needed(input.Length) <= output.Length
    ensures overrun <==> ok && |Pad(old(input[..]))| > output.Length
    ensures !ok ==> output[..] == old(output[..]) && ivec[..] == old(ivec[..])
    ensures ok && !overrun ==>
              outlen == |Pad(old(input[..]))| && output[..outlen] == CbcEncrypt(e, old(ivec[..]), Pad(old(input[..])))
                               && ivec[..] == Last(old(ivec[..]), CbcEncrypt(e, old(ivec[..]), Pad(old(input[..]))))
    ensures ok && !overrun ==> forall k :: outlen <= k < output.Length ==> output[k] == old(output[k])
  {
    hide Pad, CbcEncrypt, Chained, Needed;
    ghost var s, iv := input[..], ivec[..];
    PadSize(s);
    NeededIs(s);
    ok, outlen, overrun := true, Needed(input.Length), false;
    if output.Length < outlen {
      ok := false;
      return;
    }
    if ((input.Length - 1) / BLOCK + 1) * BLOCK > output.Length {
      overrun := true;
      return;
    }
    var v := ivec[..];
    ChainStart(input, output, e, iv, s);
    var len, pos := input.Length, 0;
    while len >= BLOCK
      invariant 0 <= len && 0 <= pos && pos + len == input.Length == |s| && pos % BLOCK == 0 && |v| == BLOCK
                && ivec[..] == iv
      invariant Chained(input, output, e, iv, s, pos, v)
      invariant forall k :: pos <= k < output.Length ==> output[k] == old(output[k])
    {
      v := EncryptBlock(e, input, output, pos, BLOCK, v, iv, s);
      ChainFacts(input, output, e, iv, s, pos + BLOCK, v);
      len := len - BLOCK;
      pos := pos + BLOCK;
    }
    if len > 0 {
      v := EncryptBlock(e, input, output, pos, len, v, iv, s);
    } else {
      ChainDone(input, output, e, iv, s, v);
    }
    CopyBlock(ivec, v);
  }

  lemma PadSize(s: seq<Byte>)
    requires s != []
    ensures |Pad(s)| == ((|s| - 1) / BLOCK + 1) * BLOCK
    ensures |s| % BLOCK == 0 ==> Pad(s) == s
  {
    if |s| % BLOCK == 0 { assert s + Zeros(0) == s; }
  }

  lemma ChainStart(input: array<Byte>, output: array<Byte>, e: Cipher, iv: seq<Byte>, s: seq<Byte>)
    requires |iv| == BLOCK && input[..] == s && |Pad(s)| <= output.Length
    ensures Chained(input, output, e, iv, s, 0, iv)
  {
    assert output[..0] == [] && Pad(s)[0..] == Pad(s);
    assert [] + CbcEncrypt(e, iv, Pad(s)) == CbcEncrypt(e, iv, Pad(s));
  }

  lemma ChainFacts(input: array<Byte>, output: array<Byte>, e: Cipher, iv: seq<Byte>, s: seq<Byte>, pos: nat,
                   v: seq<Byte>)
    requires Chained(input, output, e, iv, s, pos, v)
    ensures pos <= |s| == input.Length && |v| == BLOCK && pos % BLOCK == 0
  {}

  lemma ChainDone(input: array<Byte>, output: array<Byte>, e: Cipher, iv: seq<Byte>, s: seq<Byte>, v: seq<Byte>)
    requires Chained(input, output, e, iv, s, |s|, v) && s != []
    ensures |Pad(s)| == |s| <= output.Length && output[..|s|] == CbcEncrypt(e, iv, Pad(s))
            && v == Last(iv, CbcEncrypt(e, iv, Pad(s)))
  {
    PadSize(s);
    assert Pad(s)[|s|..] == [];
    assert output[..|s|] + [] == output[..|s|];
  }

  method CopyBlock(ivec: array<Byte>, v: seq<Byte>)
    requires ivec.Length == |v|
    modifies ivec
    ensures ivec[..] == v
  {
    for n := 0 to |v|
      invariant ivec[..n] == v[..n]
    {
      ivec[n] := v[n];
    }
  }

  // ---------------------------------------------------------------- decryption

  /** The first blocks are decrypted, and the rest of the input is as it was. */
  ghost predicate Unchained(input: array<Byte>, output: array<Byte>, d: Cipher, iv: seq<Byte>, s: seq<Byte>, pos: nat,
                            v: seq<Byte>)
    reads input, output
  {
    && pos <= |s| == input.Length <= output.Length && pos % BLOCK == 0 && |v| == BLOCK && |iv| == BLOCK
    && CbcDecrypt(d, iv, s) == output[..pos] + CbcDecrypt(d, v, s[pos..]) && v == Last(iv, s[..pos])
    && forall i :: pos <= i < |s| ==> input[i] == s[i]
  }

  lemma UnchainBlock(d: Cipher, iv: seq<Byte>, s: seq<Byte>, pos: nat, v: seq<Byte>, done: seq<Byte>)
    requires Blocks(d) && |iv| == |v| == BLOCK && pos + BLOCK <= |s|
             && CbcDecrypt(d, iv, s) == done + CbcDecrypt(d, v, s[pos..])
    ensures var c := s[pos..pos + BLOCK];
            |d(c)| == BLOCK && CbcDecrypt(d, iv, s) == (done + XorBytes(d(c), v)) + CbcDecrypt(d, c, s[pos + BLOCK..])
            && Last(iv, s[..pos + BLOCK]) == c
  {
    var c, r := s[pos..pos + BLOCK], s[pos..];
    assert r[..BLOCK] == c && r[BLOCK..] == s[pos + BLOCK..];
    assert |d(c)| == BLOCK;
    assert CbcDecrypt(d, v, r) == XorBytes(d(c), v) + CbcDecrypt(d, c, s[pos + BLOCK..]);
    hide CbcDecrypt;
    var x, t := XorBytes(d(c), v), CbcDecrypt(d, c, s[pos + BLOCK..]);
    assert done + (x + t) == (done + x) + t;
    assert s[..pos + BLOCK][pos..] == c;
  }

  /** One turn of either loop: the cipher block is kept for the next. */
  method DecryptBlock(d: Cipher, input: array<Byte>, output: array<Byte>, pos: nat, v: seq<Byte>, ghost iv: seq<Byte>,
                      ghost s: seq<Byte>)
    returns (tmp: seq<Byte>)
    requires Blocks(d) && Unchained(input, output, d, iv, s, pos, v) && pos + BLOCK <= |s|
    modifies output
    ensures Unchained(input, output, d, iv, s, pos + BLOCK, tmp)
    ensures forall k :: pos + BLOCK <= k < output.Length ==> output[k] == old(output[k])
  {
    hide CbcDecrypt, XorBytes;
    tmp := input[pos..pos + BLOCK];
    assert tmp == s[pos..pos + BLOCK];
    ghost var done := output[..pos];
    UnchainBlock(d, iv, s, pos, v, done);
    var p := d(tmp);
    var x := XorBytes(p, v);
    PutBlock(output, pos, x);
  }

  /** ogs_aes_cbc_decrypt with separate buffers: the chaining vector is the cipher block before,
      read from the input. */
  method DecryptApart(d: Cipher, ivec: array<Byte>, input: array<Byte>, output: array<Byte>)
    requires Blocks(d) && ivec.Length == BLOCK && ivec != input && ivec != output && input != output
    requires input.Length % BLOCK == 0 && input.Length <= output.Length
    modifies ivec, output
    ensures output[..input.Length] == CbcDecrypt(d, old(ivec[..]), old(input[..]))
            && ivec[..] == Last(old(ivec[..]), old(input[..]))
    ensures forall k :: input.Length <= k < output.Length ==> output[k] == old(output[k])
  {
    hide CbcDecrypt, Unchained, XorBytes;
    ghost var s, iv := input[..], ivec[..];
    UnchainStart(input, output, d, iv, s);
    var len, pos := input.Length, 0;
    var v := ivec[..];
    while len >= BLOCK
      invariant 0 <= len && 0 <= pos && pos + len == input.Length == |s| && pos % BLOCK == 0 && |v| == BLOCK
      invariant Unchained(input, output, d, iv, s, pos, v)
      invariant forall k :: pos <= k < output.Length ==> output[k] == old(output[k])
    {
      v := DecryptBlock(d, input, output, pos, v, iv, s);
      UnchainFacts(input, output, d, iv, s, pos + BLOCK, v);
      len := len - BLOCK;
      pos := pos + BLOCK;
    }
    UnchainDone(input, output, d, iv, s, v);
    CopyBlock(ivec, v);
  }

  /** The same in place: each cipher block is saved before it is overwritten. */
  method DecryptInPlace(d: Cipher, ivec: array<Byte>, buf: array<Byte>)
    requires Blocks(d) && ivec.Length == BLOCK && ivec != buf && buf.Length % BLOCK == 0
    modifies ivec, buf
    ensures buf[..] == CbcDecrypt(d, old(ivec[..]), old(buf[..])) && ivec[..] == Last(old(ivec[..]), old(buf[..]))
  {
    hide CbcDecrypt, Unchained, XorBytes;
    ghost var s, iv := buf[..], ivec[..];
    UnchainStart(buf, buf, d, iv, s);
    var len, pos := buf.Length, 0;
    while len >= BLOCK
      invariant 0 <= len && 0 <= pos && pos + len == buf.Length == |s| && pos % BLOCK == 0
      invariant Unchained(buf, buf, d, iv, s, pos, ivec[..])
    {
      var tmp := DecryptBlock(d, buf, buf, pos, ivec[..], iv, s);
      UnchainFacts(buf, buf, d, iv, s, pos + BLOCK, tmp);
      CopyBlock(ivec, tmp);
      len := len - BLOCK;
      pos := pos + BLOCK;
    }
    UnchainDone(buf, buf, d, iv, s, ivec[..]);
    assert buf[..|s|] == buf[..];
  }

  lemma UnchainStart(input: array<Byte>, output: array<Byte>, d: Cipher, iv: seq<Byte>, s: seq<Byte>)
    requires |iv| == BLOCK && input[..] == s && |s| <= output.Length
    ensures Unchained(input, output, d, iv, s, 0, iv)
  {
    assert output[..0] == [] && s[0..] == s && s[..0] == [];
    assert [] + CbcDecrypt(d, iv, s) == CbcDecrypt(d, iv, s);
  }

  lemma UnchainFacts(input: array<Byte>, output: array<Byte>, d: Cipher, iv: seq<Byte>, s: seq<Byte>, pos: nat,
                     v: seq<Byte>)
    requires Unchained(input, output, d, iv, s, pos, v)
    ensures pos <= |s| == input.Length && |v| == BLOCK && pos % BLOCK == 0
  {}

  lemma UnchainDone(input: array<Byte>, output: array<Byte>, d: Cipher, iv: seq<Byte>, s: seq<Byte>, v: seq<Byte>)
    requires Unchained(input, output, d, iv, s, |s|, v)
    ensures |s| <= output.Length && output[..|s|] == CbcDecrypt(d, iv, s) && v == Last(iv, s)
  {
    NothingEncrypted(d, v, s[|s|..]);
    assert output[..|s|] + [] == output[..|s|] && s[..|s|] == s;
  }

  /** ogs_aes_cbc_decrypt: fails on a partial block, and otherwise does the same whether the
      buffers are one or two. */
  method CbcDecryptBytes(d: Cipher, ivec: array<Byte>, input: array<Byte>, output: array<Byte>)
    returns (ok: bool, outlen: nat)
    requires Blocks(d) && ivec.Length == BLOCK && ivec != input && ivec != output && input.Length <= output.Length
    modifies ivec, output
    ensures ok <==> input.Length % BLOCK == 0
    ensures !ok ==> output[..] == old(output[..]) && ivec[..] == old(ivec[..])
    ensures ok ==> outlen == input.Length && output[..outlen] == CbcDecrypt(d, old(ivec[..]), old(input[..]))
                   && ivec[..] == Last(old(ivec[..]), old(input[..]))
    ensures forall k :: input.Length <= k < output.Length ==> output[k] == old(output[k])
  {
    if input.Length % BLOCK != 0 {
      return false, 0;
    }
    outlen := input.Length;
    if input != output {
      DecryptApart(d, ivec, input, output);
    } else {
      DecryptInPlace(d, ivec, input);
    }
    ok := true;
  }

  /** A second message continues the chain of the first: the vector that encryption leaves is the
      one that decryption leaves. */
  lemma {:induction false} CbcContinues(e: Cipher, iv: seq<Byte>, p: seq<Byte>, q: seq<Byte>)
    requires Blocks(e) && |iv| == BLOCK && |p| % BLOCK == 0 && |q| % BLOCK == 0
    ensures var c := CbcEncrypt(e, iv, p);
            |c| == |p| && |Last(iv, c)| == BLOCK && CbcEncrypt(e, iv, p + q) == c + CbcEncrypt(e, Last(iv, c), q)
    decreases |p|
  {
    hide CbcEncrypt, XorBytes, Last;
    CbcLength(e, iv, p);
    if |p| < BLOCK {
      assert p == [] && p + q == q;
      CbcNothing(e, iv);
      assert [] + CbcEncrypt(e, iv, q) == CbcEncrypt(e, iv, q);
    } else {
      var c, rest := FirstBlock(e, iv, p, q);
      CbcContinues(e, c, rest, q);
      var t := CbcEncrypt(e, c, rest);
      LastJoin(iv, c, t);
      assert c + (t + CbcEncrypt(e, Last(c, t), q)) == (c + t) + CbcEncrypt(e, Last(c, t), q);
    }
  }

  lemma CbcNothing(e: Cipher, iv: seq<Byte>)
    requires |iv| == BLOCK
    ensures CbcEncrypt(e, iv, []) == [] && Last(iv, []) == iv
  {}

  /** The first block of a message, whatever follows it. */
  lemma FirstBlock(e: Cipher, iv: seq<Byte>, p: seq<Byte>, q: seq<Byte>) returns (c: seq<Byte>, rest: seq<Byte>)
    requires Blocks(e) && |iv| == BLOCK && |p| >= BLOCK
    ensures |c| == BLOCK && rest == p[BLOCK..]
    ensures CbcEncrypt(e, iv, p) == c + CbcEncrypt(e, c, rest)
            && CbcEncrypt(e, iv, p + q) == c + CbcEncrypt(e, c, rest + q)
  {
    hide CbcEncrypt, XorBytes;
    ChainBlock(e, iv, p, 0);
    ChainBlock(e, iv, p + q, 0);
    assert p[0..] == p && (p + q)[0..] == p + q && (p + q)[0..0 + BLOCK] == p[0..0 + BLOCK];
    c, rest := e(XorBytes(p[0..0 + BLOCK], iv)), p[BLOCK..];
    assert (p + q)[0 + BLOCK..] == rest + q;
  }

  lemma LastJoin(iv: seq<Byte>, c: seq<Byte>, t: seq<Byte>)
    requires |c| == BLOCK && |t| % BLOCK == 0
    ensures Last(iv, c + t) == Last(c, t)
  {
    if |t| >= BLOCK {
      assert (c + t)[|c + t| - BLOCK..] == t[|t| - BLOCK..];
    } else {
      assert (c + t)[0..] == c;
    }
  }
}
