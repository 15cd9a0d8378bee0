/** The chained hash table: buckets of linked entries, a list of recycled entries and an
    embedded iterator. */
module Hash {
  import opened Arith
  import opened Sequences
  import opened TwosComplement

  type Key = seq<Byte>

  /** `val` is a pointer: 0 is NULL. */
  type Value = nat

  class Entry {
    var next: Entry?
    var hash: nat
    var key: Key
    var val: Value

    constructor () {}
  }

  const INITIAL_MAX: nat := 15
  const WIDTH: nat := 0x1_0000_0000
  const INT_BITS: nat := 32

  // ---------------------------------------------------------------- hash and bucket

  /** hashfunc_default: times 33 in 32 bits, from a seed. */
  function Times33(key: Key, hash: nat): nat
    decreases |key|
  {
    if key == [] then hash else Times33(key[1..], (hash * 33 + key[0]) % WIDTH)
  }

  /** Byte after byte: times 33, plus the byte, in 32 bits. */
  lemma {:induction false} Times33Next(key: Key, x: Byte, seed: nat)
    ensures Times33([], seed) == seed
    ensures Times33(key + [x], seed) == (Times33(key, seed) * 33 + x) % 0x1_0000_0000
    decreases |key|
  {
    var s := key + [x];
    if key == [] {
      assert s[1..] == [] && s[0] == x;
    } else {
      assert s[0] == key[0] && s[1..] == key[1..] + [x];
      Times33Next(key[1..], x, (seed * 33 + key[0]) % WIDTH);
    }
  }

  method HashDefault(key: Key, seed: nat) returns (hash: nat)
    ensures hash == Times33(key, seed)
  {
    hash := seed;
    var p := 0;
    while p < |key|
      invariant 0 <= p <= |key| && Times33(key[p..], hash) == Times33(key, seed)
    {
      hash := (hash * 33 + key[p]) % WIDTH;
      assert key[p..][1..] == key[p + 1..];
      p := p + 1;
    }
  }

  /** The bucket of a hash value: its conjunction with max. */
  function Bucket(hash: nat, max: nat): nat {
    Unsigned(And(Bits(hash, INT_BITS), Bits(max, INT_BITS)))
  }

  /** max + 1 is a power of two, and fits the 32 bits of an unsigned int. */
  ghost predicate MaskSize(max: nat) {
    exists k :: 0 <= k <= 32 && max + 1 == Two(k)
  }

  lemma {:induction false} MaskLow(x: int, k: nat, n: nat)
    requires k <= n
    ensures Unsigned(And(Bits(x, n), Bits(Two(k) - 1, n))) == x % Two(k)
    decreases n
  {
    hide Bits, And, Unsigned, Two;
    if k == 0 {
      MaskNone(x, n);
      assert x % 1 == 0;
    } else {
      var m: int := Two(k - 1);
      TwoNext(k - 1);
      MaskLow(x / 2, k - 1, n - 1);
      MaskStep(x, m, n);
      assert Two(k) == 2 * m;
    }
  }

  lemma MaskStep(x: int, m: int, n: nat)
    requires n > 0 && m > 0 && Unsigned(And(Bits(x / 2, n - 1), Bits(m - 1, n - 1))) == (x / 2) % m
    ensures Unsigned(And(Bits(x, n), Bits(2 * m - 1, n))) == x % (2 * m)
  {
    hide Bits, And, Unsigned;
    assert (2 * m - 1) / 2 == m - 1 && (2 * m - 1) % 2 == 1;
    MaskNext(x, 2 * m - 1, n);
    LowDigit(x, m);
  }

  lemma MaskNone(x: int, n: nat)
    ensures Unsigned(And(Bits(x, n), Bits(0, n))) == 0 && Two(0) == 1
  {
    hide Bits;
    MaskBits(0, n);
    NoneSet(And(Bits(x, n), Bits(0, n)));
  }

  lemma MaskNext(x: int, m: int, n: nat)
    requires n > 0 && m % 2 == 1
    ensures Unsigned(And(Bits(x, n), Bits(m, n))) == x % 2 + 2 * Unsigned(And(Bits(x / 2, n - 1), Bits(m / 2, n - 1)))
  {
    var s := And(Bits(x, n), Bits(m, n));
    assert Bits(x, n)[1..] == Bits(x / 2, n - 1) && Bits(m, n)[1..] == Bits(m / 2, n - 1);
    assert s[1..] == And(Bits(x / 2, n - 1), Bits(m / 2, n - 1));
  }

  lemma {:induction false} NoneSet(s: seq<bool>)
    requires forall i :: 0 <= i < |s| ==> !s[i]
    ensures Unsigned(s) == 0
    decreases |s|
  {
    if s != [] { NoneSet(s[1..]); }
  }

  /** The mask picks a bucket of the array. */
  lemma BucketIs(hash: nat, max: nat)
    requires MaskSize(max)
    ensures Bucket(hash, max) == hash % (max + 1) && Bucket(hash, max) <= max
  {
    var k :| 0 <= k <= 32 && max + 1 == Two(k);
    MaskLow(hash, k, INT_BITS);
    hide Unsigned, Bits, And;
    CongMod(hash, max + 1);
  }

  lemma MaskDouble(max: nat)
    requires MaskSize(max) && max < 0x8000_0000
    ensures MaskSize(max * 2 + 1)
  {
    var k :| 0 <= k <= 32 && max + 1 == Two(k);
    Two32();
    if k == 32 { assert false; }
    assert max * 2 + 1 + 1 == Two(k + 1);
  }

  lemma MaskInitial()
    ensures MaskSize(INITIAL_MAX)
  {
    assert Two(4) == 16;
  }

  // ---------------------------------------------------------------- snapshots

  /** The fields of an entry, and those of all entries of a table. */
  datatype Cell = Cell(next: Entry?, hash: nat, key: Key, val: Value)

  type Mem = map<Entry, Cell>

  ghost function At(s: seq<Entry>, i: nat): Entry? {
    if i < |s| then s[i] else null
  }

  ghost function Members(s: seq<Entry>): (r: set<Entry>)
    ensures forall i :: 0 <= i < |s| ==> s[i] in r
  {
    set i | 0 <= i < |s| :: s[i]
  }

  /** s is the list that starts at `start`. */
  ghost predicate Linked(mem: Mem, s: seq<Entry>, start: Entry?) {
    && start == At(s, 0)
    && (forall i :: 0 <= i < |s| ==> s[i] in mem && mem[s[i]].next == At(s, i + 1))
    && NoDup(s)
  }

  /** A table: its memory, bucket array and free list, the chains that the buckets head, and
      the entry of each key. */
  datatype Table = Table(
    mem: Mem, heads: seq<Entry?>, free: Entry?,
    chains: seq<seq<Entry>>, recycled: seq<Entry>, entryOf: map<Key, Entry>)

  /** Bucket b is a list of entries that hash to it, each the entry of its key. */
  ghost predicate ChainOk(t: Table, b: nat)
    requires b < |t.chains| == |t.heads|
  {
    && Linked(t.mem, t.chains[b], t.heads[b])
    && forall i {:trigger EntryIn(t, b, t.chains[b][i])} :: 0 <= i < |t.chains[b]| ==> EntryIn(t, b, t.chains[b][i])
  }

  ghost predicate EntryIn(t: Table, b: nat, e: Entry)
    requires |t.heads| > 0
  {
    && e in t.mem && t.mem[e].key in t.entryOf && t.entryOf[t.mem[e].key] == e
    && Bucket(t.mem[e].hash, |t.heads| - 1) == b
  }

  ghost predicate KeyOk(t: Table, h: Key -> nat, key: Key)
    requires key in t.entryOf && |t.heads| > 0
  {
    var e := t.entryOf[key];
    && e in t.mem && t.mem[e].key == key && t.mem[e].hash == h(key) && t.mem[e].val != 0
    && Bucket(h(key), |t.heads| - 1) < |t.chains| && e in t.chains[Bucket(h(key), |t.heads| - 1)]
  }

  ghost predicate AllChains(t: Table)
    requires |t.heads| == |t.chains|
  {
    forall b {:trigger ChainOk(t, b)} :: 0 <= b < |t.chains| ==> ChainOk(t, b)
  }

  ghost predicate AllKeys(t: Table, h: Key -> nat)
    requires |t.heads| > 0
  {
    forall key {:trigger KeyOk(t, h, key)} :: key in t.entryOf ==> KeyOk(t, h, key)
  }

  ghost predicate Ok(t: Table, h: Key -> nat) {
    && |t.heads| == |t.chains| > 0 && MaskSize(|t.heads| - 1)
    && AllChains(t)
    && AllKeys(t, h)
    && Linked(t.mem, t.recycled, t.free)
    && Members(t.recycled) !! t.entryOf.Values
    && t.mem.Keys == t.entryOf.Values + Members(t.recycled)
  }

  ghost predicate EntriesKnown(t: Table) {
    forall key :: key in t.entryOf ==> t.entryOf[key] in t.mem
  }

  /** The finite map that a table stands for. */
  ghost function MapOf(t: Table): map<Key, Value>
    requires EntriesKnown(t)
  {
    map key | key in t.entryOf :: t.mem[t.entryOf[key]].val
  }

  // ---------------------------------------------------------------- changes of a table

  /** A list survives changes outside of it. */
  lemma LinkedFrame(m: Mem, m': Mem, s: seq<Entry>, start: Entry?)
    requires Linked(m, s, start) && forall i :: 0 <= i < |s| ==> s[i] in m' && m'[s[i]] == m[s[i]]
    ensures Linked(m', s, start)
  {}

  /** The facts about one entry of one chain. */
  lemma InChain(t: Table, h: Key -> nat, b: nat, i: nat)
    requires Ok(t, h) && b < |t.chains| && i < |t.chains[b]|
    ensures EntryIn(t, b, t.chains[b][i]) && t.chains[b][i] in t.entryOf.Values
            && t.chains[b][i] !in Members(t.recycled)
    ensures Linked(t.mem, t.chains[b], t.heads[b])
  {
    hide Bucket, MaskSize, KeyOk;
    assert ChainOk(t, b);
  }

  lemma GetChain(t: Table, h: Key -> nat, b: nat)
    requires Ok(t, h) && b < |t.chains|
    ensures ChainOk(t, b)
  {
    hide Bucket, MaskSize, KeyOk, Linked, EntryIn;
  }

  lemma GetKey(t: Table, h: Key -> nat, key: Key)
    requires Ok(t, h) && key in t.entryOf
    ensures KeyOk(t, h, key)
  {
    hide Bucket, MaskSize, ChainOk, Linked;
  }

  /** An entry is in no other chain than that of its bucket. */
  lemma OneChain(t: Table, h: Key -> nat, b: nat, i: nat, c: nat, j: nat)
    requires Ok(t, h) && b < |t.chains| && c < |t.chains| && i < |t.chains[b]| && j < |t.chains[c]|
    requires t.chains[b][i] == t.chains[c][j]
    ensures b == c && i == j
  {
    hide Bucket, Ok;
    InChain(t, h, b, i); InChain(t, h, c, j);
  }

  /** The same entry as far as its place is concerned. */
  ghost predicate SamePlace(c: Cell, c': Cell) {
    c.next == c'.next && c.hash == c'.hash && c.key == c'.key
  }

  /** A chain that a change does not concern. */
  lemma KeepChain(t: Table, t': Table, h: Key -> nat, b: nat)
    requires Ok(t, h) && b < |t.chains| == |t'.chains| && |t'.heads| == |t.heads|
    requires t'.chains[b] == t.chains[b] && t'.heads[b] == t.heads[b]
    requires forall i :: 0 <= i < |t.chains[b]| ==> Kept(t, t', t.chains[b][i])
    ensures ChainOk(t', b)
  {
    hide Bucket, Ok, MaskSize;
    var s := t.chains[b];
    assert |t.heads| == |t.chains| by { Sizes(t, h); }
    GetChain(t, h, b);
    forall i | 0 <= i < |s| ensures EntryIn(t', b, s[i]) && t'.mem[s[i]].next == At(s, i + 1) {
      assert Kept(t, t', s[i]);
      assert EntryIn(t, b, s[i]);
    }
  }

  lemma Sizes(t: Table, h: Key -> nat)
    requires Ok(t, h)
    ensures |t.heads| == |t.chains| > 0 && MaskSize(|t.heads| - 1)
    ensures Linked(t.mem, t.recycled, t.free) && Members(t.recycled) !! t.entryOf.Values
    ensures t.mem.Keys == t.entryOf.Values + Members(t.recycled)
  {
    hide AllChains, AllKeys, Linked, MaskSize;
  }

  ghost predicate Kept(t: Table, t': Table, e: Entry) {
    e in t.mem && e in t'.mem && SamePlace(t.mem[e], t'.mem[e])
    && (t.mem[e].key in t.entryOf && t.entryOf[t.mem[e].key] == e ==> t.mem[e].key in t'.entryOf && t'.entryOf[t.mem[e].key] == e)
  }

  /** A key that a change does not concern. */
  lemma KeepKey(t: Table, t': Table, h: Key -> nat, key: Key)
    requires Ok(t, h) && |t'.chains| == |t.chains| && |t'.heads| == |t.heads|
    requires key in t.entryOf && key in t'.entryOf && t'.entryOf[key] == t.entryOf[key]
    requires t.entryOf[key] in t'.mem && t'.mem[t.entryOf[key]].val != 0
    requires t.entryOf[key] in t.mem ==>
               SamePlace(t.mem[t.entryOf[key]].(next := null), t'.mem[t.entryOf[key]].(next := null))
    requires forall b :: 0 <= b < |t.chains| && t.entryOf[key] in t.chains[b] ==> t.entryOf[key] in t'.chains[b]
    ensures KeyOk(t', h, key)
  {
    hide Bucket, Ok, MaskSize;
    GetKey(t, h, key);
  }

  lemma MakeOk(t: Table, h: Key -> nat)
    requires |t.heads| == |t.chains| > 0 && MaskSize(|t.heads| - 1)
    requires forall b :: 0 <= b < |t.chains| ==> ChainOk(t, b)
    requires forall key :: key in t.entryOf ==> KeyOk(t, h, key)
    requires Linked(t.mem, t.recycled, t.free) && Members(t.recycled) !! t.entryOf.Values
    requires t.mem.Keys == t.entryOf.Values + Members(t.recycled)
    ensures Ok(t, h)
  {
    hide ChainOk, KeyOk, Linked, MaskSize, Members;
  }

  // ---------------------------------------------------------------- taking a recycled entry

  ghost function Taken(t: Table): Table
    requires t.recycled != [] && t.recycled[0] in t.mem
  {
    t.(mem := t.mem - {t.recycled[0]}, free := t.mem[t.recycled[0]].next, recycled := t.recycled[1..])
  }

  lemma LinkedTail(m: Mem, s: seq<Entry>, start: Entry?)
    requires Linked(m, s, start) && s != []
    ensures s[0] in m && start == s[0] && Linked(m - {s[0]}, s[1..], m[s[0]].next)
    ensures Members(s) == {s[0]} + Members(s[1..]) && s[0] !in Members(s[1..])
  {
    assert s == [s[0]] + s[1..];
    MembersCons(s[0], s[1..]);
    FirstOnce(s);
    hide Members;
    TailLinked(m, s, start);
  }

  lemma TailLinked(m: Mem, s: seq<Entry>, start: Entry?)
    requires Linked(m, s, start) && s != []
    ensures s[0] in m && start == s[0] && Linked(m - {s[0]}, s[1..], m[s[0]].next)
  {
    var t, m' := s[1..], m - {s[0]};
    forall i | 0 <= i < |t| ensures t[i] in m' && m'[t[i]].next == At(t, i + 1) {
      assert t[i] == s[i + 1] && s[0] != s[i + 1];
      assert At(t, i + 1) == At(s, i + 2);
    }
    TailNoDup(s);
    assert At(t, 0) == At(s, 1);
  }

  lemma TailNoDup(s: seq<Entry>)
    requires NoDup(s) && s != []
    ensures NoDup(s[1..])
  {}

  lemma FirstOnce(s: seq<Entry>)
    requires NoDup(s) && s != []
    ensures s[0] !in Members(s[1..])
  {
    var t := s[1..];
    forall i | 0 <= i < |t| ensures t[i] != s[0] { assert t[i] == s[i + 1]; }
  }

  lemma MembersCons(e: Entry, t: seq<Entry>)
    ensures Members([e] + t) == {e} + Members(t)
  {
    var s := [e] + t;
    forall x | x in Members(s) ensures x in {e} + Members(t) {
      var i := MemberAt(s, x);
      if i > 0 { assert x == t[i - 1]; }
    }
    forall x | x in {e} + Members(t) ensures x in Members(s) {
      if x == e { assert s[0] == x; } else { var i := MemberAt(t, x); assert s[i + 1] == x; }
    }
  }

  lemma MemberAt(s: seq<Entry>, e: Entry) returns (i: nat)
    requires e in Members(s)
    ensures i < |s| && s[i] == e
  {
    i :| 0 <= i < |s| && s[i] == e;
  }

  lemma TakenOk(t: Table, h: Key -> nat)
    requires Ok(t, h) && t.recycled != []
    ensures t.recycled[0] in t.mem && Ok(Taken(t), h)
  {
    hide Bucket, MaskSize, Ok, ChainOk, KeyOk, Linked, Members;
    Sizes(t, h);
    LinkedTail(t.mem, t.recycled, t.free);
    var t' := Taken(t);
    forall b | 0 <= b < |t.chains| ensures ChainOk(t', b) {
      forall i | 0 <= i < |t.chains[b]| ensures Kept(t, t', t.chains[b][i]) { InChain(t, h, b, i); }
      KeepChain(t, t', h, b);
    }
    forall key | key in t'.entryOf ensures KeyOk(t', h, key) {
      KeyVal(t, h, key);
      KeepKey(t, t', h, key);
    }
    MakeOk(t', h);
  }

  lemma KeyVal(t: Table, h: Key -> nat, key: Key)
    requires Ok(t, h) && key in t.entryOf
    ensures var e := t.entryOf[key]; e in t.mem && t.mem[e].key == key && t.mem[e].hash == h(key) && t.mem[e].val != 0
    ensures t.entryOf[key] !in Members(t.recycled)
  {
    hide Bucket, AllChains, MaskSize, Linked;
    GetKey(t, h, key);
  }

  // ---------------------------------------------------------------- appending an entry

  /** An entry appended to chain b. */
  ghost function Appended(t: Table, b: nat, he: Entry, hash: nat, key: Key, val: Value): Table
    requires b < |t.chains| == |t.heads| && Members(t.chains[b]) <= t.mem.Keys
  {
    var s := t.chains[b];
    var m := if s == [] then t.mem else t.mem[s[|s| - 1] := t.mem[s[|s| - 1]].(next := he)];
    t.(mem := m[he := Cell(null, hash, key, val)],
       heads := if s == [] then t.heads[b := he] else t.heads,
       chains := t.chains[b := s + [he]],
       entryOf := t.entryOf[key := he])
  }

  lemma LinkedAppend(m: Mem, s: seq<Entry>, start: Entry?, m': Mem, he: Entry)
    requires Linked(m, s, start) && he !in m && he in m' && m'[he].next == null
    requires forall i :: 0 <= i < |s| - 1 ==> s[i] in m' && m'[s[i]] == m[s[i]]
    requires s != [] ==> s[|s| - 1] in m' && m'[s[|s| - 1]].next == he
    ensures Linked(m', s + [he], if s == [] then he else start)
  {
    var r := s + [he];
    forall i | 0 <= i < |r| ensures r[i] in m' && m'[r[i]].next == At(r, i + 1) {
      if i < |s| { assert s[i] in m; }
    }
  }

  lemma ChainKnown(t: Table, h: Key -> nat, b: nat)
    requires Ok(t, h) && b < |t.chains|
    ensures |t.heads| == |t.chains| && Members(t.chains[b]) <= t.mem.Keys && Linked(t.mem, t.chains[b], t.heads[b])
  {
    hide Ok, Bucket;
    Sizes(t, h);
    GetChain(t, h, b);
  }

  lemma AppendedOk(t: Table, h: Key -> nat, b: nat, he: Entry, key: Key, val: Value)
    requires Ok(t, h) && b < |t.chains| && b == Bucket(h(key), |t.heads| - 1) && he !in t.mem && key !in t.entryOf
             && val != 0
    ensures |t.heads| == |t.chains| && Members(t.chains[b]) <= t.mem.Keys && Ok(Appended(t, b, he, h(key), key, val), h)
  {
    hide Bucket, MaskSize, Ok, ChainOk, KeyOk, Linked, Members;
    Sizes(t, h);
    ChainKnown(t, h, b);
    var s, t' := t.chains[b], Appended(t, b, he, h(key), key, val);
    forall c | 0 <= c < |t'.chains| ensures ChainOk(t', c) {
      if c == b {
        AppendedChain(t, h, b, he, key, val);
      } else {
        forall i | 0 <= i < |t.chains[c]| ensures Kept(t, t', t.chains[c][i]) {
          InChain(t, h, c, i);
          if s != [] && t.chains[c][i] == s[|s| - 1] { OneChain(t, h, c, i, b, |s| - 1); }
        }
        KeepChain(t, t', h, c);
      }
    }
    forall k | k in t'.entryOf ensures KeyOk(t', h, k) {
      if k == key {
        NewKey(t', h, b, he, key);
      } else {
        KeyVal(t, h, k);
        KeepKey(t, t', h, k);
      }
    }
    assert Linked(t'.mem, t'.recycled, t'.free) by {
      RecycledApart(t, h);
      forall i | 0 <= i < |t.recycled| ensures t.recycled[i] in t'.mem && t'.mem[t.recycled[i]] == t.mem[t.recycled[i]] {
        if s != [] { InChain(t, h, b, |s| - 1); }
        assert t.recycled[i] in Members(t.recycled);
      }
      LinkedFrame(t.mem, t'.mem, t.recycled, t.free);
    }
    assert t'.entryOf.Values == t.entryOf.Values + {he} by { AddValue(t.entryOf, key, he); }
    if s != [] { InChain(t, h, b, |s| - 1); }
    MakeOk(t', h);
  }

  lemma RecycledApart(t: Table, h: Key -> nat)
    requires Ok(t, h)
    ensures forall i :: 0 <= i < |t.recycled| ==> t.recycled[i] in t.mem && t.recycled[i] in Members(t.recycled)
  {
    hide Ok;
    Sizes(t, h);
  }

  lemma AddValue(m: map<Key, Entry>, key: Key, e: Entry)
    requires key !in m
    ensures m[key := e].Values == m.Values + {e}
  {
    var n := m[key := e];
    forall x | x in m.Values ensures x in n.Values {
      var k :| k in m && m[k] == x;
      assert n[k] == x;
    }
    assert n[key] == e;
  }

  lemma NewKey(t: Table, h: Key -> nat, b: nat, he: Entry, key: Key)
    requires |t.heads| == |t.chains| > 0 && b < |t.chains| && b == Bucket(h(key), |t.heads| - 1)
    requires key in t.entryOf && t.entryOf[key] == he && he in t.chains[b]
    requires he in t.mem && t.mem[he].key == key && t.mem[he].hash == h(key) && t.mem[he].val != 0
    ensures KeyOk(t, h, key)
  {}

  lemma AppendedChain(t: Table, h: Key -> nat, b: nat, he: Entry, key: Key, val: Value)
    requires Ok(t, h) && b < |t.chains| && b == Bucket(h(key), |t.heads| - 1) && he !in t.mem && key !in t.entryOf
    requires |t.heads| == |t.chains| && Members(t.chains[b]) <= t.mem.Keys
    ensures ChainOk(Appended(t, b, he, h(key), key, val), b)
  {
    hide Bucket, MaskSize, Ok, Linked, EntryIn, Members;
    var s, t' := t.chains[b], Appended(t, b, he, h(key), key, val);
    ChainKnown(t, h, b);
    SplitLast(t.mem, s, t.heads[b]);
    LinkedAppend(t.mem, s, t.heads[b], t'.mem, he);
    var r := s + [he];
    forall i | 0 <= i < |r| ensures EntryIn(t', b, r[i]) {
      if i < |s| {
        InChain(t, h, b, i);
        KeepEntry(t, t', b, s[i]);
      } else {
        NewEntry(t', b, he);
      }
    }
  }

  lemma SplitLast(m: Mem, s: seq<Entry>, start: Entry?)
    requires Linked(m, s, start)
    ensures forall i :: 0 <= i < |s| ==> s[i] in m
    ensures forall i :: 0 <= i < |s| - 1 ==> s[i] != s[|s| - 1]
  {}

  lemma KeepEntry(t: Table, t': Table, b: nat, e: Entry)
    requires |t.heads| == |t'.heads| > 0 && EntryIn(t, b, e) && e in t'.mem && t'.mem[e].key == t.mem[e].key
             && t'.mem[e].hash == t.mem[e].hash
    requires t.mem[e].key in t.entryOf ==>
               t.mem[e].key in t'.entryOf && t'.entryOf[t.mem[e].key] == t.entryOf[t.mem[e].key]
    ensures EntryIn(t', b, e)
  {
    hide Bucket;
  }

  lemma NewEntry(t: Table, b: nat, e: Entry)
    requires |t.heads| > 0 && e in t.mem && t.mem[e].key in t.entryOf && t.entryOf[t.mem[e].key] == e
    requires Bucket(t.mem[e].hash, |t.heads| - 1) == b
    ensures EntryIn(t, b, e)
  {
    hide Bucket;
  }

  // ---------------------------------------------------------------- a new value

  ghost function Revalued(t: Table, e: Entry, val: Value): Table
    requires e in t.mem
  {
    t.(mem := t.mem[e := t.mem[e].(val := val)])
  }

  lemma RevaluedOk(t: Table, h: Key -> nat, e: Entry, val: Value)
    requires Ok(t, h) && e in t.entryOf.Values && e in t.mem && val != 0
    ensures Ok(Revalued(t, e, val), h)
  {
    hide Bucket, MaskSize, Ok, ChainOk, KeyOk, Linked, Members;
    Sizes(t, h);
    var t' := Revalued(t, e, val);
    forall b | 0 <= b < |t.chains| ensures ChainOk(t', b) {
      forall i | 0 <= i < |t.chains[b]| ensures Kept(t, t', t.chains[b][i]) { InChain(t, h, b, i); }
      KeepChain(t, t', h, b);
    }
    forall key | key in t'.entryOf ensures KeyOk(t', h, key) {
      KeyVal(t, h, key);
      KeepKey(t, t', h, key);
    }
    RecycledApart(t, h);
    LinkedFrame(t.mem, t'.mem, t.recycled, t.free);
    MakeOk(t', h);
  }

  // ---------------------------------------------------------------- removing an entry

  ghost predicate InPlace(t: Table, b: nat, i: nat) {
    b < |t.chains| == |t.heads| && i < |t.chains[b]| && t.chains[b][i] in t.mem
    && (i > 0 ==> t.chains[b][i - 1] in t.mem)
  }

  lemma MakeInPlace(t: Table, h: Key -> nat, b: nat, i: nat)
    requires Ok(t, h) && b < |t.chains| && i < |t.chains[b]|
    ensures InPlace(t, b, i)
  {
    hide Ok, Bucket;
    Sizes(t, h);
    InChain(t, h, b, i);
    if i > 0 { InChain(t, h, b, i - 1); }
  }

  /** Entry i of chain b unlinked and pushed on the free list. */
  ghost function Unlinked(t: Table, b: nat, i: nat): Table
    requires InPlace(t, b, i)
  {
    var s := t.chains[b];
    var he := s[i];
    var m := if i == 0 then t.mem else t.mem[s[i - 1] := t.mem[s[i - 1]].(next := t.mem[he].next)];
    t.(mem := m[he := m[he].(next := t.free)],
       heads := if i == 0 then t.heads[b := t.mem[he].next] else t.heads,
       free := he,
       chains := t.chains[b := s[..i] + s[i + 1..]],
       recycled := [he] + t.recycled,
       entryOf := t.entryOf - {t.mem[he].key})
  }

  lemma LinkedRemove(m: Mem, s: seq<Entry>, start: Entry?, m': Mem, i: nat)
    requires Linked(m, s, start) && i < |s|
    requires forall j :: 0 <= j < |s| && j != i && j != i - 1 ==> s[j] in m' && m'[s[j]] == m[s[j]]
    requires i > 0 ==> s[i - 1] in m' && m'[s[i - 1]].next == m[s[i]].next
    ensures Linked(m', s[..i] + s[i + 1..], if i == 0 then m[s[0]].next else start)
  {
    var r := s[..i] + s[i + 1..];
    RemoveNoDup(s, i);
    forall j | 0 <= j < |r| ensures r[j] in m' && m'[r[j]].next == At(r, j + 1) {
      var k := if j < i then j else j + 1;
      assert r[j] == s[k] && m[s[k]].next == At(s, k + 1) && m[s[i]].next == At(s, i + 1);
    }
    assert m[s[0]].next == At(s, 1);
  }

  lemma RemoveNoDup(s: seq<Entry>, i: nat)
    requires NoDup(s) && i < |s|
    ensures NoDup(s[..i] + s[i + 1..])
  {
    var r := s[..i] + s[i + 1..];
    assert forall j :: 0 <= j < |r| ==> r[j] == if j < i then s[j] else s[j + 1];
  }

  lemma LinkedPush(m: Mem, s: seq<Entry>, start: Entry?, m': Mem, e: Entry)
    requires Linked(m, s, start) && e !in Members(s) && e in m' && m'[e].next == start
    requires forall j :: 0 <= j < |s| ==> s[j] in m' && m'[s[j]] == m[s[j]]
    ensures Linked(m', [e] + s, e)
  {
    var r := [e] + s;
    hide Members;
    assert forall j :: 0 <= j < |s| ==> s[j] != e by { NotAt(s, e); }
    assert forall j :: 0 < j < |r| ==> r[j] == s[j - 1];
    forall j | 0 <= j < |r| ensures r[j] in m' && m'[r[j]].next == At(r, j + 1) {}
  }

  lemma NotAt(s: seq<Entry>, e: Entry)
    requires e !in Members(s)
    ensures forall j :: 0 <= j < |s| ==> s[j] != e
  {}

  lemma UnlinkedOk(t: Table, h: Key -> nat, b: nat, i: nat)
    requires Ok(t, h) && b < |t.chains| && i < |t.chains[b]|
    ensures InPlace(t, b, i) && Ok(Unlinked(t, b, i), h)
  {
    hide Bucket, MaskSize, Ok, ChainOk, KeyOk, Linked, Members;
    Sizes(t, h);
    MakeInPlace(t, h, b, i);
    InChain(t, h, b, i);
    var s, t' := t.chains[b], Unlinked(t, b, i);
    var he := s[i];
    forall c | 0 <= c < |t'.chains| ensures ChainOk(t', c) {
      if c == b {
        UnlinkedChain(t, h, b, i);
      } else {
        forall j | 0 <= j < |t.chains[c]| ensures Kept(t, t', t.chains[c][j]) {
          InChain(t, h, c, j);
          if t.chains[c][j] == he { OneChain(t, h, c, j, b, i); }
          if i > 0 && t.chains[c][j] == s[i - 1] { OneChain(t, h, c, j, b, i - 1); }
        }
        KeepChain(t, t', h, c);
      }
    }
    forall k | k in t'.entryOf ensures KeyOk(t', h, k) {
      KeyVal(t, h, k);
      StillIn(s, i, t.entryOf[k]);
      KeepKey(t, t', h, k);
    }
    UnlinkedRest(t, h, b, i);
    MakeOk(t', h);
  }

  lemma StillIn(s: seq<Entry>, i: nat, e: Entry)
    requires i < |s| && e != s[i]
    ensures e in s ==> e in s[..i] + s[i + 1..]
  {
    if e in s {
      var j :| 0 <= j < |s| && s[j] == e;
      var r := s[..i] + s[i + 1..];
      if j < i { assert r[j] == e; } else { assert r[j - 1] == e; }
    }
  }

  lemma UnlinkedChain(t: Table, h: Key -> nat, b: nat, i: nat)
    requires Ok(t, h) && InPlace(t, b, i)
    ensures ChainOk(Unlinked(t, b, i), b)
  {
    hide Bucket, MaskSize, Ok, Linked, EntryIn, Members;
    var s, t' := t.chains[b], Unlinked(t, b, i);
    ChainKnown(t, h, b);
    Apart(t.mem, s, t.heads[b], i);
    if i > 0 { Apart(t.mem, s, t.heads[b], i - 1); }
    LinkedRemove(t.mem, s, t.heads[b], t'.mem, i);
    InChain(t, h, b, i);
    EntryIs(t, b, s[i]);
    var r := s[..i] + s[i + 1..];
    forall j | 0 <= j < |r| ensures EntryIn(t', b, r[j]) {
      var k := if j < i then j else j + 1;
      assert r[j] == s[k];
      InChain(t, h, b, k);
      EntryIs(t, b, s[k]);
      KeepEntry(t, t', b, s[k]);
    }
  }

  lemma Apart(m: Mem, s: seq<Entry>, start: Entry?, i: nat)
    requires Linked(m, s, start) && i < |s|
    ensures forall j :: 0 <= j < |s| ==> s[j] in m && (j != i ==> s[j] != s[i])
  {}

  /** The removed entry is the first recycled one, and no longer a value. */
  lemma UnlinkedRest(t: Table, h: Key -> nat, b: nat, i: nat)
    requires Ok(t, h) && InPlace(t, b, i)
    ensures var t' := Unlinked(t, b, i);
            Linked(t'.mem, t'.recycled, t'.free) && Members(t'.recycled) !! t'.entryOf.Values
            && t'.mem.Keys == t'.entryOf.Values + Members(t'.recycled)
  {
    hide Bucket, MaskSize, Ok, Linked, Members, EntryIn;
    Sizes(t, h);
    var s, t' := t.chains[b], Unlinked(t, b, i);
    var he := s[i];
    InChain(t, h, b, i);
    EntryIs(t, b, he);
    RecycledApart(t, h);
    forall j | 0 <= j < |t.recycled| ensures t.recycled[j] in t'.mem && t'.mem[t.recycled[j]] == t.mem[t.recycled[j]] {
      if i > 0 { InChain(t, h, b, i - 1); }
    }
    LinkedPush(t.mem, t.recycled, t.free, t'.mem, he);
    MembersCons(he, t.recycled);
    DropValue(t, h, t.mem[he].key);
    if i > 0 { InChain(t, h, b, i - 1); EntryIs(t, b, s[i - 1]); }
  }

  lemma EntryIs(t: Table, b: nat, e: Entry)
    requires |t.heads| > 0 && EntryIn(t, b, e)
    ensures e in t.mem && t.mem[e].key in t.entryOf && t.entryOf[t.mem[e].key] == e
  {}

  lemma DropValue(t: Table, h: Key -> nat, key: Key)
    requires Ok(t, h) && key in t.entryOf
    ensures (t.entryOf - {key}).Values == t.entryOf.Values - {t.entryOf[key]}
  {
    hide Ok, Bucket, Members;
    var m, n := t.entryOf, t.entryOf - {key};
    KeyVal(t, h, key);
    forall x | x in m.Values && x != m[key] ensures x in n.Values {
      var k :| k in m && m[k] == x;
      assert n[k] == x;
    }
    forall x | x in n.Values ensures x in m.Values && x != m[key] {
      var k :| k in n && n[k] == x;
      KeyVal(t, h, k);
    }
  }

  // ---------------------------------------------------------------- iterating

  /** All the chains in order. */
  ghost function Flat(chains: seq<seq<Entry>>): seq<Entry> {
    if chains == [] then [] else chains[0] + Flat(chains[1..])
  }

  lemma {:induction false} FlatMember(chains: seq<seq<Entry>>, b: nat, i: nat)
    requires b < |chains| && i < |chains[b]|
    ensures chains[b][i] in Members(Flat(chains))
    decreases |chains|
  {
    var f := Flat(chains);
    if b == 0 {
      assert f[i] == chains[0][i];
    } else {
      FlatMember(chains[1..], b - 1, i);
      var j := MemberAt(Flat(chains[1..]), chains[b][i]);
      assert f[|chains[0]| + j] == chains[b][i];
    }
  }

  /** Where an element of the flat list comes from. */
  lemma {:induction false} FlatFrom(chains: seq<seq<Entry>>, k: nat) returns (b: nat, i: nat)
    requires k < |Flat(chains)|
    ensures b < |chains| && i < |chains[b]| && chains[b][i] == Flat(chains)[k]
    ensures k >= |chains[0]| ==> b > 0
    decreases |chains|
  {
    if k < |chains[0]| {
      b, i := 0, k;
    } else {
      b, i := FlatFrom(chains[1..], k - |chains[0]|);
      b := b + 1;
    }
  }

  /** Disjoint chains without repetition have none together. */
  lemma {:induction false} FlatNoDup(chains: seq<seq<Entry>>)
    requires forall b :: 0 <= b < |chains| ==> NoDup(chains[b])
    requires forall b, i, c, j :: 0 <= b < c < |chains| && 0 <= i < |chains[b]| && 0 <= j < |chains[c]| ==>
               chains[b][i] != chains[c][j]
    ensures NoDup(Flat(chains))
    decreases |chains|
  {
    if chains != [] {
      var t := chains[1..];
      assert forall b :: 0 <= b < |t| ==> t[b] == chains[b + 1];
      FlatNoDup(t);
      var f := Flat(chains);
      assert NoDup(chains[0]) && NoDup(Flat(t));
      forall i, j | 0 <= i < j < |f| ensures f[i] != f[j] {
        if i < |chains[0]| <= j {
          var c, k := FlatFrom(chains, j);
        } else if j < |chains[0]| {
          assert f[i] == chains[0][i] && f[j] == chains[0][j];
        } else {
          assert f[i] == Flat(t)[i - |chains[0]|] && f[j] == Flat(t)[j - |chains[0]|];
        }
      }
    }
  }

  /** The chains together hold each live entry exactly once. */
  lemma FlatOnce(t: Table, h: Key -> nat)
    requires Ok(t, h)
    ensures NoDup(Flat(t.chains)) && Members(Flat(t.chains)) == t.entryOf.Values
  {
    hide Ok, Bucket, Flat, Members;
    Sizes(t, h);
    forall b | 0 <= b < |t.chains| ensures NoDup(t.chains[b]) { ChainKnown(t, h, b); }
    forall b, i, c, j | 0 <= b < c < |t.chains| && 0 <= i < |t.chains[b]| && 0 <= j < |t.chains[c]|
      ensures t.chains[b][i] != t.chains[c][j]
    {
      if t.chains[b][i] == t.chains[c][j] { OneChain(t, h, b, i, c, j); }
    }
    FlatNoDup(t.chains);
    forall e | e in t.entryOf.Values ensures e in Members(Flat(t.chains)) {
      var key :| key in t.entryOf && t.entryOf[key] == e;
      GetKey(t, h, key);
      var b := Bucket(h(key), |t.heads| - 1);
      var i :| 0 <= i < |t.chains[b]| && t.chains[b][i] == e;
      FlatMember(t.chains, b, i);
    }
    forall e | e in Members(Flat(t.chains)) ensures e in t.entryOf.Values {
      var k := MemberAt(Flat(t.chains), e);
      var b, i := FlatFrom(t.chains, k);
      InChain(t, h, b, i);
    }
  }

  /** The iterator: `next` heads the rest of the chain it is in, and the buckets from `index` on
      are still to come. */
  ghost predicate Iterating(mem: Mem, heads: seq<Entry?>, index: nat, next: Entry?, ahead: seq<Entry>,
                            todo: seq<seq<Entry>>) {
    && index + |todo| == |heads|
    && Linked(mem, ahead, next)
    && forall c :: 0 <= c < |todo| ==> Linked(mem, todo[c], heads[index + c])
  }

  lemma IterateStart(t: Table, h: Key -> nat)
    requires Ok(t, h)
    ensures Iterating(t.mem, t.heads, 0, null, [], t.chains)
  {
    hide Ok, Bucket, Linked;
    Sizes(t, h);
    assert Linked(t.mem, [], null) by { NoEntries(t.mem); }
    forall c | 0 <= c < |t.chains| ensures Linked(t.mem, t.chains[c], t.heads[0 + c]) { ChainKnown(t, h, c); }
  }

  lemma NoEntries(m: Mem)
    ensures Linked(m, [], null)
  {}

  /** An empty rest of chain: the next bucket. */
  lemma IterateBucket(mem: Mem, heads: seq<Entry?>, index: nat, ahead: seq<Entry>, todo: seq<seq<Entry>>)
    requires Iterating(mem, heads, index, null, ahead, todo)
    ensures ahead == []
    ensures todo != [] ==>
              Iterating(mem, heads, index + 1, heads[index], todo[0], todo[1..])
              && Flat(todo) == todo[0] + Flat(todo[1..])
  {
    hide Linked, Flat;
    OnlyNull(mem, ahead, null);
    if todo != [] {
      FlatStep(todo);
      assert Linked(mem, todo[0], heads[index + 0]);
      forall c | 0 <= c < |todo[1..]| ensures Linked(mem, todo[1..][c], heads[index + 1 + c]) {
        assert Linked(mem, todo[c + 1], heads[index + (c + 1)]);
      }
    }
  }

  lemma FlatStep(todo: seq<seq<Entry>>)
    requires todo != []
    ensures Flat(todo) == todo[0] + Flat(todo[1..])
  {}

  lemma OnlyNull(mem: Mem, s: seq<Entry>, start: Entry?)
    requires Linked(mem, s, start)
    ensures start == null <==> s == []
    ensures s != [] ==> s[0] == start && s[0] in mem && Linked(mem, s[1..], mem[s[0]].next)
  {
    if s != [] {
      TailLinked(mem, s, start);
      hide Linked;
      TailFrame(mem, s);
    }
  }

  lemma TailFrame(mem: Mem, s: seq<Entry>)
    requires s != [] && s[0] in mem && Linked(mem - {s[0]}, s[1..], mem[s[0]].next)
    ensures Linked(mem, s[1..], mem[s[0]].next)
  {
    var m, t := mem - {s[0]}, s[1..];
    forall i | 0 <= i < |t| ensures t[i] in mem && mem[t[i]] == m[t[i]] {}
    LinkedFrame(m, mem, t, mem[s[0]].next);
  }

  // ---------------------------------------------------------------- doubling the array

  /** Entry e sits in its new chain. */
  ghost predicate Moved(t: Table, mem: Mem, max: nat, b: nat, e: Entry) {
    e in mem && e in t.entryOf.Values && Bucket(mem[e].hash, max) == b
  }

  ghost predicate NewChain(t: Table, mem: Mem, heads: seq<Entry?>, chains: seq<seq<Entry>>, b: nat)
    requires b < |chains| == |heads|
  {
    Linked(mem, chains[b], heads[b]) && forall i :: 0 <= i < |chains[b]| ==> Moved(t, mem, |heads| - 1, b, chains[b][i])
  }

  ghost predicate NewChains(t: Table, mem: Mem, heads: seq<Entry?>, chains: seq<seq<Entry>>)
    requires |chains| == |heads|
  {
    forall b :: 0 <= b < |chains| ==> NewChain(t, mem, heads, chains, b)
  }

  /** Every live entry is still to be moved, or in the chain of its new bucket. */
  ghost predicate Covered(t: Table, mem: Mem, rest: seq<Entry>, heads: seq<Entry?>, chains: seq<seq<Entry>>) {
    forall key :: key in t.entryOf ==> Placed(t, mem, rest, heads, chains, key)
  }

  ghost predicate Placed(t: Table, mem: Mem, rest: seq<Entry>, heads: seq<Entry?>, chains: seq<seq<Entry>>, key: Key)
    requires key in t.entryOf
  {
    var e := t.entryOf[key];
    e in Members(rest) || (e in mem && |heads| > 0 && Bucket(mem[e].hash, |heads| - 1) < |chains| && e in chains[Bucket(mem[e].hash, |heads| - 1)])
  }

  /** Only links change, and only those of entries that have been moved. */
  ghost predicate LinksOnly(t: Table, mem: Mem, rest: seq<Entry>) {
    && mem.Keys == t.mem.Keys
    && (forall e :: e in mem ==> mem[e] == t.mem[e].(next := mem[e].next))
    && (forall i :: 0 <= i < |rest| ==> rest[i] in mem && mem[rest[i]] == t.mem[rest[i]])
    && (forall i :: 0 <= i < |t.recycled| ==> t.recycled[i] in mem && mem[t.recycled[i]] == t.mem[t.recycled[i]])
  }

  ghost predicate Rehashing(t: Table, mem: Mem, rest: seq<Entry>, heads: seq<Entry?>, chains: seq<seq<Entry>>) {
    && |heads| == |chains| > 0 && MaskSize(|heads| - 1)
    && NoDup(rest) && Members(rest) <= t.entryOf.Values
    && LinksOnly(t, mem, rest)
    && NewChains(t, mem, heads, chains)
    && (forall b, i :: 0 <= b < |chains| && 0 <= i < |chains[b]| ==> chains[b][i] !in Members(rest))
    && Covered(t, mem, rest, heads, chains)
  }

  /** The first entry of the rest pushed on the front of its new chain. */
  lemma RehashStep(t: Table, h: Key -> nat, mem: Mem, rest: seq<Entry>, heads: seq<Entry?>, chains: seq<seq<Entry>>,
                   b: nat)
    requires Ok(t, h) && Rehashing(t, mem, rest, heads, chains) && rest != [] && rest[0] in mem
    requires b == Bucket(mem[rest[0]].hash, |heads| - 1) && b < |heads|
    ensures Rehashing(t, mem[rest[0] := mem[rest[0]].(next := heads[b])], rest[1..], heads[b := rest[0]], chains[b := [rest[0]] + chains[b]])
  {
    hide Bucket, MaskSize, Ok, NewChains, Covered, LinksOnly, Linked, Members, NewChain, Moved, Placed;
    var e, mem', rest', heads', chains' := rest[0], mem[rest[0] := mem[rest[0]].(next := heads[b])], rest[1..], heads[b := rest[0]], chains[b := [rest[0]] + chains[b]];
    assert rest == [e] + rest';
    MembersCons(e, rest');
    FirstOnce(rest);
    TailNoDup(rest);
    LinksStep(t, h, mem, rest, heads[b]);
    assert NewChains(t, mem', heads', chains') by {
      forall c | 0 <= c < |chains'| ensures NewChain(t, mem', heads', chains', c) {
        forall i | 0 <= i < |chains[c]| ensures chains[c][i] != e { }
        MoveChain(t, mem, heads, chains, b, e, c);
      }
      AllNew(t, mem', heads', chains');
    }
    forall c, i | 0 <= c < |chains'| && 0 <= i < |chains'[c]| ensures chains'[c][i] !in Members(rest') {
      if c == b && i > 0 { assert chains'[c][i] == chains[c][i - 1]; }
    }
    assert Covered(t, mem', rest', heads', chains') by {
      forall key | key in t.entryOf ensures Placed(t, mem', rest', heads', chains', key) {
        MoveKey(t, mem, rest, heads, chains, b, key);
      }
      AllPlaced(t, mem', rest', heads', chains');
    }
  }

  lemma AllNew(t: Table, mem: Mem, heads: seq<Entry?>, chains: seq<seq<Entry>>)
    requires |chains| == |heads| && forall b :: 0 <= b < |chains| ==> NewChain(t, mem, heads, chains, b)
    ensures NewChains(t, mem, heads, chains)
  {
    hide NewChain;
  }

  lemma AllPlaced(t: Table, mem: Mem, rest: seq<Entry>, heads: seq<Entry?>, chains: seq<seq<Entry>>)
    requires forall key :: key in t.entryOf ==> Placed(t, mem, rest, heads, chains, key)
    ensures Covered(t, mem, rest, heads, chains)
  {
    hide Placed;
  }

  lemma LinksStep(t: Table, h: Key -> nat, mem: Mem, rest: seq<Entry>, next: Entry?)
    requires Ok(t, h) && LinksOnly(t, mem, rest) && rest != [] && NoDup(rest) && Members(rest) <= t.entryOf.Values
    requires rest[0] in mem
    ensures LinksOnly(t, mem[rest[0] := mem[rest[0]].(next := next)], rest[1..])
  {
    hide Ok, Bucket;
    var mem' := mem[rest[0] := mem[rest[0]].(next := next)];
    Sizes(t, h);
    var e, r := rest[0], rest[1..];
    assert e in Members(rest);
    forall i | 0 <= i < |r| ensures r[i] in mem' && mem'[r[i]] == t.mem[r[i]] { assert r[i] == rest[i + 1]; }
    forall i | 0 <= i < |t.recycled| ensures t.recycled[i] in mem' && mem'[t.recycled[i]] == t.mem[t.recycled[i]] {
      assert t.recycled[i] in Members(t.recycled);
    }
  }

  lemma MoveChain(t: Table, mem: Mem, heads: seq<Entry?>, chains: seq<seq<Entry>>, b: nat, e: Entry, c: nat)
    requires |chains| == |heads| && NewChains(t, mem, heads, chains) && b < |chains| && c < |chains|
    requires e in mem && e in t.entryOf.Values && Bucket(mem[e].hash, |heads| - 1) == b
    requires forall i :: 0 <= i < |chains[c]| ==> chains[c][i] != e
    ensures NewChain(t, mem[e := mem[e].(next := heads[b])], heads[b := e], chains[b := [e] + chains[b]], c)
  {
    hide Bucket, Members, Linked, NewChain;
    var mem', s := mem[e := mem[e].(next := heads[b])], chains[c];
    assert NewChain(t, mem, heads, chains, c);
    ChainMoved(t, mem, heads, chains, c);
    if c == b {
      NotMember(s, e);
      LinkedPush(mem, s, heads[b], mem', e);
    } else {
      LinkedFrame(mem, mem', s, heads[c]);
    }
    var heads', chains' := heads[b := e], chains[b := [e] + chains[b]];
    forall i | 0 <= i < |chains'[c]| ensures Moved(t, mem', |heads| - 1, c, chains'[c][i]) {
      if c == b && i > 0 { assert chains'[c][i] == s[i - 1]; }
    }
    MakeNew(t, mem', heads', chains', c);
  }

  lemma ChainMoved(t: Table, mem: Mem, heads: seq<Entry?>, chains: seq<seq<Entry>>, b: nat)
    requires b < |chains| == |heads| && NewChain(t, mem, heads, chains, b)
    ensures Linked(mem, chains[b], heads[b]) && forall i :: 0 <= i < |chains[b]| ==>
              chains[b][i] in mem && Moved(t, mem, |heads| - 1, b, chains[b][i])
  {
    hide Bucket;
  }

  lemma MakeNew(t: Table, mem: Mem, heads: seq<Entry?>, chains: seq<seq<Entry>>, b: nat)
    requires b < |chains| == |heads| && Linked(mem, chains[b], heads[b])
    requires forall i :: 0 <= i < |chains[b]| ==> Moved(t, mem, |heads| - 1, b, chains[b][i])
    ensures NewChain(t, mem, heads, chains, b)
  {
    hide Bucket, Moved, Linked;
  }

  lemma NotMember(s: seq<Entry>, e: Entry)
    requires forall i :: 0 <= i < |s| ==> s[i] != e
    ensures e !in Members(s)
  {}

  lemma MoveKey(t: Table, mem: Mem, rest: seq<Entry>, heads: seq<Entry?>, chains: seq<seq<Entry>>, b: nat, key: Key)
    requires |chains| == |heads| > 0 && Covered(t, mem, rest, heads, chains) && key in t.entryOf && rest != []
             && rest[0] in mem
    requires b < |heads| && b == Bucket(mem[rest[0]].hash, |heads| - 1)
    ensures Placed(t, mem[rest[0] := mem[rest[0]].(next := heads[b])], rest[1..], heads[b := rest[0]], chains[b := [rest[0]] + chains[b]], key)
  {
    hide Bucket, Members;
    assert Placed(t, mem, rest, heads, chains, key);
    assert rest == [rest[0]] + rest[1..];
    MembersCons(rest[0], rest[1..]);
    var e := t.entryOf[key];
    var s, s' := chains[b], [rest[0]] + chains[b];
    assert rest[0] == s'[0];
    if e in s {
      var i :| 0 <= i < |s| && s[i] == e;
      assert s'[i + 1] == e;
    }
  }

  lemma RehashStart(t: Table, h: Key -> nat, n: nat)
    requires Ok(t, h) && n > 0 && MaskSize(n - 1)
    ensures Rehashing(t, t.mem, Flat(t.chains), seq(n, _ => null), seq(n, _ => []))
  {
    hide Ok, Bucket, Flat, MaskSize, Linked, Members;
    FlatOnce(t, h);
    Sizes(t, h);
    RecycledApart(t, h);
    var heads: seq<Entry?>, chains: seq<seq<Entry>> := seq(n, _ => null), seq(n, _ => []);
    forall b | 0 <= b < n ensures NewChain(t, t.mem, heads, chains, b) { NoEntries(t.mem); }
    forall i | 0 <= i < |Flat(t.chains)| ensures Flat(t.chains)[i] in t.mem { InMembers(Flat(t.chains), i); }
  }

  lemma InMembers(s: seq<Entry>, i: nat)
    requires i < |s|
    ensures s[i] in Members(s)
  {}

  /** When all entries are moved the table is whole again, and no key or value has changed. */
  lemma RehashEnd(t: Table, h: Key -> nat, mem: Mem, heads: seq<Entry?>, chains: seq<seq<Entry>>)
    requires Ok(t, h) && Rehashing(t, mem, [], heads, chains)
    ensures Ok(Table(mem, heads, t.free, chains, t.recycled, t.entryOf), h)
  {
    hide Bucket, Ok, MaskSize, Linked;
    var t' := Table(mem, heads, t.free, chains, t.recycled, t.entryOf);
    Sizes(t, h);
    forall b | 0 <= b < |chains| ensures ChainOk(t', b) {
      assert NewChain(t, mem, heads, chains, b);
      forall i | 0 <= i < |chains[b]| ensures EntryIn(t', b, chains[b][i]) {
        assert Moved(t, mem, |heads| - 1, b, chains[b][i]);
        EndEntry(t, h, mem, chains[b][i]);
      }
    }
    forall key | key in t.entryOf ensures KeyOk(t', h, key) {
      KeyVal(t, h, key);
      assert Placed(t, mem, [], heads, chains, key);
    }
    LinkedFrame(t.mem, mem, t.recycled, t.free);
    MakeOk(t', h);
  }

  lemma EndEntry(t: Table, h: Key -> nat, mem: Mem, e: Entry)
    requires Ok(t, h) && LinksOnly(t, mem, []) && e in mem && e in t.entryOf.Values
    ensures mem[e].key in t.entryOf && t.entryOf[mem[e].key] == e
  {
    hide Ok, Bucket;
    var key :| key in t.entryOf && t.entryOf[key] == e;
    KeyVal(t, h, key);
  }

  lemma EmptyOk(t: Table, h: Key -> nat)
    requires |t.heads| == |t.chains| == INITIAL_MAX + 1 && t.mem == map[] && t.recycled == [] && t.free == null
             && t.entryOf == map[]
    requires forall b :: 0 <= b < |t.chains| ==> t.chains[b] == [] && t.heads[b] == null
    ensures Ok(t, h)
  {
    hide MaskSize, Bucket;
    MaskInitial();
    MakeOk(t, h);
  }

  /** A key is found in the chain of its bucket. */
  lemma KeyChain(t: Table, h: Key -> nat, key: Key)
    requires Ok(t, h) && key in t.entryOf
    ensures |t.heads| > 0 && Bucket(h(key), |t.heads| - 1) < |t.chains|
            && t.entryOf[key] in t.chains[Bucket(h(key), |t.heads| - 1)]
  {
    hide Ok, Bucket;
    Sizes(t, h);
    GetKey(t, h, key);
  }

  lemma EntryKnown(t: Table, h: Key -> nat)
    requires Ok(t, h)
    ensures EntriesKnown(t)
  {
    hide Ok, Bucket;
    forall k | k in t.entryOf ensures t.entryOf[k] in t.mem { KeyVal(t, h, k); }
  }

  lemma AppendedMap(t: Table, h: Key -> nat, b: nat, he: Entry, key: Key, val: Value)
    requires Ok(t, h) && b < |t.chains| == |t.heads| && Members(t.chains[b]) <= t.mem.Keys && he !in t.mem
    ensures var t' := Appended(t, b, he, h(key), key, val);
            EntriesKnown(t) && EntriesKnown(t') && MapOf(t') == MapOf(t)[key := val]
  {
    hide Ok, Bucket, Members;
    EntryKnown(t, h);
    LastKnown(t, h, b);
  }

  lemma LastKnown(t: Table, h: Key -> nat, b: nat)
    requires Ok(t, h) && b < |t.chains|
    ensures t.chains[b] != [] ==> t.chains[b][|t.chains[b]| - 1] in t.mem
  {
    hide Ok, Bucket;
    if t.chains[b] != [] { InChain(t, h, b, |t.chains[b]| - 1); }
  }

  lemma UnlinkedMap(t: Table, h: Key -> nat, b: nat, i: nat)
    requires Ok(t, h) && InPlace(t, b, i)
    ensures var t' := Unlinked(t, b, i);
            EntriesKnown(t) && EntriesKnown(t') && MapOf(t') == MapOf(t) - {t.mem[t.chains[b][i]].key}
    ensures t.mem[t.chains[b][i]].key in t.entryOf
    ensures |Unlinked(t, b, i).entryOf| == |t.entryOf| - 1
  {
    hide Ok, Bucket, Members;
    EntryKnown(t, h);
    UnlinkedFacts(t, h, b, i);
    var key := t.mem[t.chains[b][i]].key;
    assert t.entryOf == (t.entryOf - {key})[key := t.entryOf[key]];
  }

  lemma FirstRecycled(t: Table, h: Key -> nat)
    requires Ok(t, h)
    ensures if t.free == null then t.recycled == [] else t.recycled != [] && t.free == t.recycled[0] && t.free in t.mem
  {
    hide Ok, Bucket, Linked;
    Sizes(t, h);
    OnlyNull(t.mem, t.recycled, t.free);
  }

  lemma UnlinkedFacts(t: Table, h: Key -> nat, b: nat, i: nat)
    requires Ok(t, h) && b < |t.chains| && i < |t.chains[b]|
    ensures var he := t.chains[b][i];
            he in t.mem && t.mem[he].key in t.entryOf && t.entryOf[t.mem[he].key] == he
            && t.mem[he].next == At(t.chains[b], i + 1)
    ensures i > 0 ==> t.chains[b][i - 1] in t.mem && t.chains[b][i - 1] != t.chains[b][i]
    ensures |t.heads| == |t.chains|
  {
    hide Ok, Bucket;
    ChainKnown(t, h, b);
    InChain(t, h, b, i);
    Apart(t.mem, t.chains[b], t.heads[b], i);
  }

  /** Taking a recycled entry changes no value. */
  lemma TakenMap(t: Table, h: Key -> nat)
    requires Ok(t, h) && t.recycled != [] && t.recycled[0] in t.mem && Ok(Taken(t), h)
    ensures EntriesKnown(t) && EntriesKnown(Taken(t)) && MapOf(Taken(t)) == MapOf(t)
  {
    hide Ok;
    EntryKnown(t, h);
    EntryKnown(Taken(t), h);
  }

  /** The fields of the changed table, in terms of the place that the scan found. */
  lemma AppendedParts(t: Table, h: Key -> nat, b: nat, prev: Entry?, he: Entry, hash: nat, key: Key, val: Value)
    requires Ok(t, h) && b < |t.chains| == |t.heads| && Members(t.chains[b]) <= t.mem.Keys
    requires prev == (if t.chains[b] == [] then null else At(t.chains[b], |t.chains[b]| - 1))
    ensures prev != null ==> prev in t.mem
    ensures Appended(t, b, he, hash, key, val) == Table(
              (if prev == null then t.mem else t.mem[prev := t.mem[prev].(next := he)])[he := Cell(null, hash, key, val)],
              if prev == null then t.heads[b := he] else t.heads, t.free, t.chains[b := t.chains[b] + [he]], t.recycled, t.entryOf[key := he])
  {
    hide Ok, Bucket, Members;
    LastKnown(t, h, b);
  }

  lemma UnlinkedParts(t: Table, h: Key -> nat, b: nat, prev: Entry?, i: nat)
    requires Ok(t, h) && InPlace(t, b, i) && prev == (if i == 0 then null else At(t.chains[b], i - 1))
    ensures prev != null ==> prev in t.mem
    ensures var he := t.chains[b][i];
            var m := if prev == null then t.mem else t.mem[prev := t.mem[prev].(next := t.mem[he].next)];
            Unlinked(t, b, i) == Table(
              m[he := m[he].(next := t.free)], if prev == null then t.heads[b := t.mem[he].next] else t.heads, he,
              t.chains[b := t.chains[b][..i] + t.chains[b][i + 1..]], [he] + t.recycled, t.entryOf - {t.mem[he].key})
  {
    hide Ok, Bucket;
  }

  // ---------------------------------------------------------------- iterating while links change

  /** A change of an entry that has been passed. */
  lemma IterateFrame(mem: Mem, heads: seq<Entry?>, heads': seq<Entry?>, index: nat, next: Entry?, ahead: seq<Entry>,
                     todo: seq<seq<Entry>>, mem': Mem)
    requires Iterating(mem, heads, index, next, ahead, todo)
    requires |heads'| == |heads| && heads'[index..] == heads[index..]
    requires forall k :: 0 <= k < |ahead + Flat(todo)| ==>
               (ahead + Flat(todo))[k] in mem' && (ahead + Flat(todo))[k] in mem
               && mem'[(ahead + Flat(todo))[k]] == mem[(ahead + Flat(todo))[k]]
    ensures Iterating(mem', heads', index, next, ahead, todo)
  {
    hide Linked, Flat;
    var r := ahead + Flat(todo);
    forall i | 0 <= i < |ahead| ensures ahead[i] in mem' && ahead[i] in mem && mem'[ahead[i]] == mem[ahead[i]] { assert r[i] == ahead[i]; }
    AheadFrame(mem, mem', ahead, next);
    forall c | 0 <= c < |todo| ensures Linked(mem', todo[c], heads'[index + c]) {
      assert heads'[index..][c] == heads[index..][c];
      forall i | 0 <= i < |todo[c]| ensures todo[c][i] in mem' && todo[c][i] in mem && mem'[todo[c][i]] == mem[todo[c][i]] {
        FlatMember(todo, c, i);
        var k := MemberAt(Flat(todo), todo[c][i]);
        assert r[|ahead| + k] == todo[c][i];
      }
      AheadFrame(mem, mem', todo[c], heads[index + c]);
    }
  }

  lemma AheadFrame(m: Mem, m': Mem, s: seq<Entry>, start: Entry?)
    requires Linked(m, s, start) && forall i :: 0 <= i < |s| ==> s[i] in m' && s[i] in m && m'[s[i]] == m[s[i]]
    ensures Linked(m', s, start)
  {}

  lemma OthersKept(mem: Mem, e: Entry, c: Cell, rest: seq<Entry>)
    requires NoDup([e] + rest) && forall k :: 0 <= k < |rest| ==> rest[k] in mem
    ensures forall k :: 0 <= k < |rest| ==> rest[k] in mem[e := c] && mem[e := c][rest[k]] == mem[rest[k]]
  {
    var r := [e] + rest;
    forall k | 0 <= k < |rest| ensures rest[k] != e { assert r[0] != r[k + 1]; }
  }

  lemma RestKnown(t: Table, mem: Mem, rest: seq<Entry>, heads: seq<Entry?>, chains: seq<seq<Entry>>)
    requires Rehashing(t, mem, rest, heads, chains)
    ensures NoDup(rest) && |heads| == |chains| > 0 && MaskSize(|heads| - 1) && forall k :: 0 <= k < |rest| ==>
              rest[k] in mem
  {
    hide NewChains, Covered, MaskSize, Members;
  }

  lemma IndexBound(mem: Mem, heads: seq<Entry?>, index: nat, next: Entry?, ahead: seq<Entry>, todo: seq<seq<Entry>>)
    requires Iterating(mem, heads, index, next, ahead, todo)
    ensures index + |todo| == |heads|
  {}

  lemma NothingFlat()
    ensures Flat([]) == []
  {}

  lemma AheadFirst(mem: Mem, heads: seq<Entry?>, index: nat, next: Entry?, ahead: seq<Entry>, todo: seq<seq<Entry>>)
    requires Iterating(mem, heads, index, next, ahead, todo) && next != null
    ensures ahead != [] && ahead[0] == next && next in mem
            && Iterating(mem, heads, index, mem[next].next, ahead[1..], todo)
  {
    hide Linked;
    OnlyNull(mem, ahead, next);
  }

  /** Removing the first entry of all from its chain. */
  lemma {:induction false} FlatRemoveFirst(chains: seq<seq<Entry>>, b: nat, i: nat)
    requires b < |chains| && i < |chains[b]| && NoDup(Flat(chains)) && Flat(chains) != []
             && Flat(chains)[0] == chains[b][i]
    ensures i == 0 && Flat(chains[b := chains[b][..i] + chains[b][i + 1..]]) == Flat(chains)[1..]
    decreases |chains|
  {
    hide Members;
    var s, t, f := chains[0], chains[1..], Flat(chains);
    var r := chains[b][..i] + chains[b][i + 1..];
    var chains' := chains[b := r];
    FlatStep(chains); FlatStep(chains');
    if s == [] {
      assert chains'[1..] == t[b - 1 := r];
      assert f == Flat(t);
      FlatRemoveFirst(t, b - 1, i);
    } else {
      FirstChain(chains, b, i);
      assert chains'[1..] == t;
      assert r == s[1..];
    }
  }

  lemma OnlyFirst(f: seq<Entry>, j: nat)
    requires NoDup(f) && j < |f| && f[j] == f[0]
    ensures j == 0
  {}

  lemma FirstChain(chains: seq<seq<Entry>>, b: nat, i: nat)
    requires b < |chains| && i < |chains[b]| && NoDup(Flat(chains)) && chains[0] != []
             && Flat(chains)[0] == chains[b][i]
    ensures b == 0 && i == 0
  {
    hide Members, NoDup;
    FlatStep(chains);
    var s, t, f := chains[0], chains[1..], Flat(chains);
    if b > 0 {
      FlatMember(t, b - 1, i);
      var k := MemberAt(Flat(t), chains[b][i]);
      OnlyFirst(f, |s| + k);
    } else {
      OnlyFirst(f, i);
    }
  }

  lemma {:induction false} FlatEmpty(chains: seq<seq<Entry>>)
    requires Flat(chains) == []
    ensures forall b :: 0 <= b < |chains| ==> chains[b] == []
    decreases |chains|
  {
    if chains != [] {
      FlatStep(chains);
      FlatEmpty(chains[1..]);
      forall b | 0 <= b < |chains| ensures chains[b] == [] { if b > 0 { assert chains[b] == chains[1..][b - 1]; } }
    }
  }

  lemma NoChains(t: Table, h: Key -> nat)
    requires Ok(t, h) && Flat(t.chains) == []
    ensures t.entryOf == map[] && t.mem.Keys == Members(t.recycled)
  {
    hide Ok, Bucket, Members, Flat;
    FlatOnce(t, h);
    Sizes(t, h);
    assert Members([]) == {} by { NoMembers(); }
    NoValues(t.entryOf);
  }

  lemma NoValues(m: map<Key, Entry>)
    requires m.Values == {}
    ensures m == map[]
  {
    assert forall key :: key in m ==> m[key] in m.Values;
  }

  lemma NoMembers()
    ensures Members([]) == {}
  {}

  lemma RehashMap(t: Table, h: Key -> nat, mem: Mem, heads: seq<Entry?>, chains: seq<seq<Entry>>)
    requires Ok(t, h) && Rehashing(t, mem, [], heads, chains)
    ensures var t' := Table(mem, heads, t.free, chains, t.recycled, t.entryOf);
            EntriesKnown(t) && EntriesKnown(t') && MapOf(t') == MapOf(t)
  {
    hide Ok, Bucket, MaskSize, NewChains, Covered;
    EntryKnown(t, h);
  }

  /** The links of a chain. */
  lemma ChainNext(t: Table, h: Key -> nat, b: nat, i: nat)
    requires Ok(t, h) && b < |t.chains| && i < |t.chains[b]|
    ensures t.chains[b][i] in t.mem && t.mem[t.chains[b][i]].next == At(t.chains[b], i + 1)
    ensures t.mem[t.chains[b][i]].key in t.entryOf && t.entryOf[t.mem[t.chains[b][i]].key] == t.chains[b][i]
    ensures t.mem[t.chains[b][i]].hash == h(t.mem[t.chains[b][i]].key)
  {
    hide Ok, Bucket;
    ChainKnown(t, h, b);
    InChain(t, h, b, i);
    KeyVal(t, h, t.mem[t.chains[b][i]].key);
  }

  lemma ChainHead(t: Table, h: Key -> nat, b: nat)
    requires Ok(t, h) && b < |t.chains|
    ensures |t.heads| == |t.chains| && t.heads[b] == At(t.chains[b], 0)
  {
    hide Ok, Bucket;
    ChainKnown(t, h, b);
  }

  /** The key is not among the first n of a chain. */
  ghost predicate Passed(t: Table, s: seq<Entry>, n: nat, key: Key) {
    n <= |s| && forall j :: 0 <= j < n ==> s[j] in t.mem && t.mem[s[j]].key != key
  }

  lemma NonePassed(t: Table, s: seq<Entry>, key: Key)
    ensures Passed(t, s, 0, key)
  {}

  lemma PassOne(t: Table, s: seq<Entry>, n: nat, key: Key)
    requires Passed(t, s, n, key) && n < |s| && s[n] in t.mem && t.mem[s[n]].key != key
    ensures Passed(t, s, n + 1, key)
  {}

  lemma AllPassed(t: Table, h: Key -> nat, b: nat, key: Key)
    requires Ok(t, h) && b < |t.chains| && |t.heads| > 0 && b == Bucket(h(key), |t.heads| - 1)
             && Passed(t, t.chains[b], |t.chains[b]|, key)
    ensures key !in t.entryOf
  {
    hide Ok, Bucket;
    if key in t.entryOf {
      KeyVal(t, h, key);
      KeyChain(t, h, key);
    }
  }

  /** Different keys have different entries. */
  lemma OtherEntries(t: Table, h: Key -> nat, key: Key)
    requires Ok(t, h) && key in t.entryOf
    ensures forall k :: k in t.entryOf && k != key ==> t.entryOf[k] != t.entryOf[key]
  {
    hide Ok, Bucket;
    KeyVal(t, h, key);
    forall k | k in t.entryOf && k != key ensures t.entryOf[k] != t.entryOf[key] { KeyVal(t, h, k); }
  }

  // ---------------------------------------------------------------- visiting all entries

  lemma FlatKnown(t: Table, h: Key -> nat, n: nat)
    requires Ok(t, h) && n < |Flat(t.chains)|
    ensures var e := Flat(t.chains)[n]; e in t.mem && t.mem[e].key in t.entryOf && t.entryOf[t.mem[e].key] == e
  {
    hide Ok, Bucket, Flat;
    var b, i := FlatFrom(t.chains, n);
    InChain(t, h, b, i);
  }

  /** The keys visited are those of the first entries. */
  ghost predicate Visited(t: Table, f: seq<Entry>, visited: seq<Key>) {
    |visited| <= |f| && forall k :: 0 <= k < |visited| ==> f[k] in t.mem && visited[k] == t.mem[f[k]].key
  }

  ghost predicate Accepts(t: Table, f: seq<Entry>, k: nat, comp: (Key, Value) -> bool)
    requires k < |f|
  {
    f[k] in t.mem && comp(t.mem[f[k]].key, t.mem[f[k]].val)
  }

  ghost predicate Accepted(t: Table, f: seq<Entry>, n: nat, comp: (Key, Value) -> bool) {
    n <= |f| && forall k :: 0 <= k < n ==> Accepts(t, f, k, comp)
  }

  ghost predicate Refused(t: Table, f: seq<Entry>, k: nat, comp: (Key, Value) -> bool) {
    k < |f| && f[k] in t.mem && !comp(t.mem[f[k]].key, t.mem[f[k]].val)
  }

  lemma NoneVisited(t: Table, f: seq<Entry>, comp: (Key, Value) -> bool)
    ensures Visited(t, f, []) && Accepted(t, f, 0, comp)
  {}

  lemma VisitOne(t: Table, f: seq<Entry>, visited: seq<Key>, comp: (Key, Value) -> bool)
    requires |visited| < |f| && Visited(t, f, visited) && f[|visited|] in t.mem && Accepted(t, f, |visited|, comp)
    ensures var e := f[|visited|];
            Visited(t, f, visited + [t.mem[e].key])
            && (if comp(t.mem[e].key, t.mem[e].val) then Accepted(t, f, |visited| + 1, comp) else Refused(t, f, |visited|, comp))
  {}

  lemma VisitedAll(t: Table, h: Key -> nat, visited: seq<Key>, comp: (Key, Value) -> bool, all: bool)
    requires Ok(t, h) && Visited(t, Flat(t.chains), visited)
    requires if all then |visited| == |Flat(t.chains)| && Accepted(t, Flat(t.chains), |visited|, comp) else |visited| > 0 && Refused(t, Flat(t.chains), |visited| - 1, comp)
    ensures EntriesKnown(t) && (all <==> forall key :: key in MapOf(t) ==> comp(key, MapOf(t)[key]))
    ensures all ==> (forall key :: key in visited <==> key in MapOf(t)) && |visited| == |MapOf(t)|
    ensures forall j, k :: 0 <= j < k < |visited| ==> visited[j] != visited[k]
  {
    hide Ok, Bucket, Flat, Members;
    var f := Flat(t.chains);
    EntryKnown(t, h);
    FlatOnce(t, h);
    forall k | 0 <= k < |f| ensures f[k] in t.mem && t.mem[f[k]].key in t.entryOf && t.entryOf[t.mem[f[k]].key] == f[k] { FlatKnown(t, h, k); }
    forall key | key in t.entryOf ensures exists k :: 0 <= k < |f| && f[k] in t.mem && t.mem[f[k]].key == key && f[k] == t.entryOf[key] {
      var k := MemberAt(f, t.entryOf[key]);
      KeyVal(t, h, key);
    }
    if all {
      forall key | key in MapOf(t) ensures comp(key, MapOf(t)[key]) {
        var k :| 0 <= k < |f| && f[k] in t.mem && t.mem[f[k]].key == key && f[k] == t.entryOf[key];
        assert Accepts(t, f, k, comp);
      }
      forall key | key in t.entryOf ensures key in visited {
        var k :| 0 <= k < |f| && f[k] in t.mem && t.mem[f[k]].key == key && f[k] == t.entryOf[key];
        assert visited[k] == key;
      }
      SameCount(visited, MapOf(t).Keys);
      assert |MapOf(t)| == |MapOf(t).Keys|;
    } else {
      var e := f[|visited| - 1];
      assert MapOf(t)[t.mem[e].key] == t.mem[e].val;
    }
  }

  /** Every key that was visited was accepted, but for the last one of a scan that stopped. */
  lemma VisitedEach(t: Table, h: Key -> nat, visited: seq<Key>, comp: (Key, Value) -> bool, all: bool)
    requires Ok(t, h) && Visited(t, Flat(t.chains), visited)
    requires if all then Accepted(t, Flat(t.chains), |visited|, comp)
             else |visited| > 0 && Refused(t, Flat(t.chains), |visited| - 1, comp)
                  && Accepted(t, Flat(t.chains), |visited| - 1, comp)
    ensures EntriesKnown(t)
    ensures forall k :: 0 <= k < |visited| ==>
              visited[k] in MapOf(t) && (comp(visited[k], MapOf(t)[visited[k]]) <==> all || k < |visited| - 1)
  {
    hide Ok, Bucket, Flat, Members;
    var f := Flat(t.chains);
    EntryKnown(t, h);
    forall k | 0 <= k < |visited|
      ensures visited[k] in MapOf(t) && (comp(visited[k], MapOf(t)[visited[k]]) <==> all || k < |visited| - 1) {
      FlatKnown(t, h, k);
      if all || k < |visited| - 1 { assert Accepts(t, f, k, comp); }
    }
  }

  lemma {:induction false} SameCount(s: seq<Key>, keys: set<Key>)
    requires (forall j, k :: 0 <= j < k < |s| ==> s[j] != s[k]) && forall key :: key in s <==> key in keys
    ensures |s| == |keys|
    decreases |s|
  {
    if s == [] {
      assert keys == {};
    } else {
      var r, key := s[..|s| - 1], s[|s| - 1];
      forall x ensures x in r <==> x in keys - {key} {
        if x in s && x != key { var j :| 0 <= j < |s| && s[j] == x; assert r[j] == x; }
      }
      SameCount(r, keys - {key});
    }
  }

  /** Deleting the entry that the iterator has just found: it headed its chain, and the rest of
      the iteration is as it was. */
  lemma ClearedOne(t: Table, h: Key -> nat, b: nat, i: nat, index: nat, next: Entry?, ahead: seq<Entry>,
                   todo: seq<seq<Entry>>)
    requires Ok(t, h) && InPlace(t, b, i) && Iterating(t.mem, t.heads, index, next, ahead, todo)
    requires Flat(t.chains) == [t.chains[b][i]] + (ahead + Flat(todo)) && |todo| <= |t.chains|
             && todo == t.chains[|t.chains| - |todo|..]
    ensures var t' := Unlinked(t, b, i);
            Iterating(t'.mem, t'.heads, index, next, ahead, todo) && Flat(t'.chains) == ahead + Flat(todo)
            && |t'.chains| == |t.chains| && todo == t'.chains[|t.chains| - |todo|..]
  {
    hide Ok, Bucket, Flat, Members, Iterating, Linked;
    var e, t', r := t.chains[b][i], Unlinked(t, b, i), ahead + Flat(todo);
    FlatOnce(t, h);
    FlatRemoveFirst(t.chains, b, i);
    assert Flat(t'.chains) == r;
    IndexBound(t.mem, t.heads, index, next, ahead, todo);
    assert b < |t.chains| - |todo| by { NotAhead(t.chains, b, i, todo, ahead); }
    var f := Flat(t.chains);
    forall k | 0 <= k < |r| ensures r[k] in t.mem && r[k] != e {
      assert r[k] == f[k + 1] && f[0] == e;
      FlatKnown(t, h, k + 1);
    }
    assert t'.heads[index..] == t.heads[index..];
    IterateFrame(t.mem, t.heads, t'.heads, index, next, ahead, todo, t'.mem);
  }

  lemma SecondPlace(e: Entry, ahead: seq<Entry>, r: seq<Entry>, k: nat)
    requires k < |r| && r[k] == e
    ensures ([e] + (ahead + r))[1 + |ahead| + k] == e
  {
    assert (ahead + r)[|ahead| + k] == e;
  }

  lemma NotAhead(chains: seq<seq<Entry>>, b: nat, i: nat, todo: seq<seq<Entry>>, ahead: seq<Entry>)
    requires b < |chains| && i < |chains[b]| && |todo| <= |chains| && todo == chains[|chains| - |todo|..]
    requires Flat(chains) == [chains[b][i]] + (ahead + Flat(todo)) && NoDup(Flat(chains))
    ensures b < |chains| - |todo|
  {
    hide Members, NoDup, Flat;
    var n := |chains| - |todo|;
    if b >= n {
      assert todo[b - n] == chains[b];
      FlatMember(todo, b - n, i);
      var e, r := chains[b][i], Flat(todo);
      var k := MemberAt(r, e);
      SecondPlace(e, ahead, r, k);
      OnlyFirst(Flat(chains), 1 + |ahead| + k);
    }
  }
}
