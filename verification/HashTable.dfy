/** The operations of the hash table on linked entries. */
module HashTable {
  import opened Arith
  import opened Hash
  import opened Sequences

  /** ogs_hash_index_t */
  class HashIndex {
    var ht: HashTable?
    var this_: Entry?
    var next: Entry?
    var index: nat
    /** What is left of the current chain, and the chains of the buckets still to come. */
    ghost var ahead: seq<Entry>
    ghost var todo: seq<seq<Entry>>

    constructor ()
      ensures fresh(this)
    {
      ht, this_, next, index := null, null, null, 0;
    }
  }

  /** The bytes before the first NUL, or before the end of what is given. */
  function UpToNul(b: Key): (r: Key)
    ensures |r| <= |b| && r == b[..|r|] && 0 !in r && (|r| < |b| ==> b[|r|] == 0)
  {
    if b == [] || b[0] == 0 then [] else [b[0]] + UpToNul(b[1..])
  }

  /** OGS_HASH_KEY_STRING stands for the length of a string. */
  function KeyOf(bytes: Key, asString: bool): Key {
    if asString then UpToNul(bytes) else bytes
  }

  method ReadKey(bytes: Key, asString: bool) returns (key: Key)
    ensures key == KeyOf(bytes, asString)
  {
    if !asString {
      return bytes;
    }
    hide UpToNul;
    var p := 0;
    while p < |bytes| && bytes[p] != 0
      invariant 0 <= p <= |bytes| && 0 !in bytes[..p]
    {
      assert bytes[..p + 1] == bytes[..p] + [bytes[p]];
      p := p + 1;
    }
    key := bytes[..p];
    UpToNulIs(bytes, p);
  }

  lemma {:induction false} UpToNulIs(b: Key, p: nat)
    requires p <= |b| && 0 !in b[..p] && (p < |b| ==> b[p] == 0)
    ensures UpToNul(b) == b[..p]
    decreases p
  {
    if p > 0 {
      assert b[0] == b[..p][0] && b[..p][1..] == b[1..][..p - 1];
      UpToNulIs(b[1..], p - 1);
    }
  }

  /** The empty string is stored, and from then on the table cannot be cleared. */
  method ClearStops(seed: nat, val: Value) returns (ok: bool)
    requires seed < WIDTH && val != 0
    ensures !ok
  {
    var table := new HashTable(seed, (key: Key) => 0, false);
    table.Set([], true, val);
    ok := table.Clear();
  }

  ghost function HashValue(seed: nat, custom: Key -> nat, useCustom: bool): Key -> nat {
    (key: Key) => if useCustom then custom(key) % WIDTH else Times33(key, seed)
  }

  class HashTable {
    var buckets: array<Entry?>
    const embedded: HashIndex
    var count: nat
    var max: nat
    const seed: nat
    /** The custom hash function, if there is one. */
    const custom: Key -> nat
    const useCustom: bool
    var free: Entry?

    /** HashOf as a value. */
    ghost const h: Key -> nat
    ghost var nodes: set<Entry>
    ghost var chains: seq<seq<Entry>>
    ghost var recycled: seq<Entry>
    ghost var entryOf: map<Key, Entry>

    function HashOf(key: Key): nat {
      if useCustom then custom(key) % WIDTH else Times33(key, seed)
    }

    ghost function Memory(): Mem
      reads this`nodes, nodes
    {
      map e | e in nodes :: Cell(e.next, e.hash, e.key, e.val)
    }

    ghost function Snapshot(): Table
      reads this, buckets, nodes
    {
      Table(Memory(), buckets[..], free, chains, recycled, entryOf)
    }

    ghost predicate SameHash() {
      forall key :: h(key) == HashOf(key)
    }

    /** Everything but the bound on the load. */
    ghost predicate Chained()
      reads this, buckets, nodes
    {
      buckets.Length == max + 1 && count == |entryOf| && SameHash() && Ok(Snapshot(), h)
    }

    ghost predicate Valid()
      reads this, buckets, nodes
    {
      Chained() && count <= max
    }

    /** The finite map that the table stands for. */
    ghost function Map(): (m: map<Key, Value>)
      reads this`nodes, this`entryOf, nodes
    {
      map key | key in entryOf && entryOf[key] in nodes :: entryOf[key].val
    }

    constructor (seed: nat, custom: Key -> nat, useCustom: bool)
      requires seed < WIDTH
      ensures Valid() && Map() == map[] && fresh(buckets) && fresh(embedded) && nodes == {} && max == 15
              && count == 0
    {
      this.seed := seed;
      this.custom := custom;
      this.useCustom := useCustom;
      h := HashValue(seed, custom, useCustom);
      free := null;
      count := 0;
      max := INITIAL_MAX;
      embedded := new HashIndex();
      buckets := new Entry?[INITIAL_MAX + 1](_ => null);
      chains := seq(INITIAL_MAX + 1, _ => []);
      recycled := [];
      entryOf := map[];
      nodes := {};
      new;
      EmptyOk(Snapshot(), h);
    }

    // -------------------------------------------------------------- finding

    method ComputeHash(key: Key) returns (hash: nat)
      requires SameHash()
      ensures hash == h(key)
    {
      if useCustom {
        hash := custom(key) % WIDTH;
      } else {
        hash := HashDefault(key, seed);
      }
    }

    /** The walk down a chain: the place
        where the key is, or the end of its chain.  `prev` is the entry whose `next` leads
        there, null for the bucket itself. */
    method Scan(key: Key, hash: nat, klen: nat) returns (b: nat, prev: Entry?, he: Entry?, ghost i: nat)
      requires Chained() && hash == h(key) && klen == |key|
      ensures b == Bucket(hash, max) && b < |chains| == buckets.Length && i <= |chains[b]|
      ensures prev == (if i == 0 then null else At(chains[b], i - 1))
      ensures he == At(chains[b], i)
      ensures if key in entryOf then he == entryOf[key] else he == null
    {
      hide Bucket, HashOf, SameHash, Ok, MaskSize, Linked, Members, Memory, Passed, At;
      ghost var t := Snapshot();
      Sizes(t, h);
      BucketIs(hash, max);
      b := Bucket(hash, max);
      ChainHead(t, h, b);
      ghost var s := chains[b];
      i := 0;
      AtEnd(s);
      NonePassed(t, s, key);
      prev, he := null, buckets[b];
      while he != null && !(he.hash == hash && |he.key| == klen && he.key == key)
        invariant i <= |s| && prev == (if i == 0 then null else At(s, i - 1)) && he == At(s, i)
        invariant Passed(t, s, i, key)
        decreases |s| - i
      {
        ChainNext(t, h, b, i);
        MemoryAt(he);
        PassOne(t, s, i, key);
        prev, he := he, he.next;
        i := i + 1;
      }
      if he != null {
        ChainNext(t, h, b, i);
        MemoryAt(he);
      } else {
        AllPassed(t, h, b, key);
      }
    }

    /** ogs_hash_get: a key given as a string ends before its first NUL. */
    method Get(bytes: Key, asString: bool) returns (val: Value)
      requires Valid() && (asString || bytes != [])
      ensures var key := KeyOf(bytes, asString); val == if key in Map() then Map()[key] else 0
    {
      hide Ok, HashOf, SameHash, Memory, Map, KeyOf, UpToNul, Valid, Chained;
      var key := ReadKey(bytes, asString);
      val := GetKey(key);
    }

    method GetKey(key: Key) returns (val: Value)
      requires Valid()
      ensures val == if key in Map() then Map()[key] else 0
    {
      hide Bucket, HashOf, SameHash, Ok;
      var hash := ComputeHash(key);
      var b, prev, he, i := Scan(key, hash, |key|);
      if key in entryOf { KeyVal(Snapshot(), h, key); }
      val := if he != null then he.val else 0;
    }

    // -------------------------------------------------------------- adding and removing

    /** A recycled entry if there is one, else a new one. */
    method TakeEntry() returns (he: Entry)
      requires Chained()
      modifies this`free, this`recycled, this`nodes
      ensures Chained() && he !in nodes && nodes == old(nodes) - {he} && (he in old(nodes) || fresh(he))
      ensures Map() == old(Map())
      ensures if old(recycled) == [] then fresh(he) && recycled == [] else he == old(recycled)[0] && recycled == old(recycled)[1..]
    {
      hide Ok, HashOf, SameHash, Map, MapOf, EntriesKnown;
      ghost var t := Snapshot();
      FirstRecycled(t, h);
      MapIs();
      if free != null {
        he := free;
        TakenOk(t, h);
        TakenMap(t, h);
        free := he.next;
        recycled := recycled[1..];
        nodes := nodes - {he};
        assert Memory() == t.mem - {he};
        assert Snapshot() == Taken(t);
        MapIs();
      } else {
        he := new Entry();
        assert Memory() == t.mem;
      }
    }

    // single assignments, and what they do to the snapshot

    method SetNext(e: Entry, n: Entry?)
      requires e in nodes
      modifies e`next
      ensures Memory() == old(Memory())[e := old(Memory())[e].(next := n)] && buckets[..] == old(buckets[..])
      ensures e.next == n
    {
      e.next := n;
    }

    method SetBucket(b: nat, e: Entry?)
      requires b < buckets.Length
      modifies buckets
      ensures buckets[..] == old(buckets[..])[b := e] && Memory() == old(Memory())
    {
      buckets[b] := e;
      assert Memory() == old(Memory());
    }

    /** A write through the pointer to a link: a bucket or a next field. */
    method SetPlace(b: nat, prev: Entry?, e: Entry?)
      requires b < buckets.Length && (prev == null || prev in nodes)
      modifies buckets, nodes
      ensures buckets[..] == if prev == null then old(buckets[..])[b := e] else old(buckets[..])
      ensures Memory() == if prev == null then old(Memory()) else old(Memory())[prev := old(Memory())[prev].(next := e)]
    {
      if prev == null {
        SetBucket(b, e);
      } else {
        SetNext(prev, e);
      }
    }

    method Fill(he: Entry, hash: nat, key: Key, val: Value)
      requires he !in nodes
      modifies he, this`nodes
      ensures nodes == old(nodes) + {he} && Memory() == old(Memory())[he := Cell(null, hash, key, val)]
              && buckets[..] == old(buckets[..])
    {
      he.next := null;
      he.hash := hash;
      he.key := key;
      he.val := val;
      nodes := nodes + {he};
      assert Memory() == old(Memory())[he := Cell(null, hash, key, val)];
    }

    method Hook(b: nat, prev: Entry?, he: Entry, key: Key, hash: nat, val: Value)
      requires he !in nodes && b < buckets.Length && (prev == null || prev in nodes)
      modifies this`nodes, buckets, nodes, he
      ensures nodes == old(nodes) + {he} && old(MemHas(prev))
      ensures buckets[..] == if prev == null then old(buckets[..])[b := he] else old(buckets[..])
      ensures Memory() == (if prev == null then old(Memory()) else old(Memory())[prev := old(Memory())[prev].(next := he)])[he := Cell(null, hash, key, val)]
    {
      MemoryKeys();
      hide Memory;
      Fill(he, hash, key, val);
      MemoryKeys();
      SetPlace(b, prev, he);
    }

    ghost predicate MemHas(e: Entry?)
      reads this`nodes, nodes
    {
      e == null || e in Memory()
    }

    method Unhook(b: nat, prev: Entry?, he: Entry)
      requires he in nodes && b < buckets.Length && (prev == null || prev in nodes) && prev != he
      modifies this`free, buckets, nodes
      ensures free == he && old(MemHas(prev)) && old(MemHas(he))
      ensures buckets[..] == if prev == null then old(buckets[..])[b := old(he.next)] else old(buckets[..])
      ensures var m := if prev == null then old(Memory()) else old(Memory())[prev := old(Memory())[prev].(next := old(he.next))];
              Memory() == m[he := m[he].(next := old(free))]
    {
      MemoryKeys();
      hide Memory;
      SetPlace(b, prev, he.next);
      MemoryKeys();
      SetNext(he, free);
      free := he;
    }

    /** The new count, and the chains that go with the new links. */
    method Commit(count': nat, ghost t: Table)
      requires Memory() == t.mem && buckets[..] == t.heads && free == t.free
      modifies this`count, this`chains, this`recycled, this`entryOf
      ensures count == count' && Snapshot() == t && chains == t.chains && recycled == t.recycled && entryOf == t.entryOf
    {
      hide Memory;
      count := count';
      chains, recycled, entryOf := t.chains, t.recycled, t.entryOf;
    }

    lemma MapIs()
      requires Ok(Snapshot(), h)
      ensures EntriesKnown(Snapshot()) && Map() == MapOf(Snapshot())
    {
      hide Ok, HashOf, SameHash;
      EntryKnown(Snapshot(), h);
    }

    /** A filled-in entry becomes the end of chain b and is counted. */
    method Append(b: nat, prev: Entry?, he: Entry, key: Key, hash: nat, val: Value)
      requires Chained() && he !in nodes && key !in entryOf && hash == h(key) && val != 0
      requires b == Bucket(hash, max) && b < |chains|
               && prev == (if chains[b] == [] then null else At(chains[b], |chains[b]| - 1))
      modifies this`count, this`nodes, this`chains, this`recycled, this`entryOf, buckets, nodes, he
      ensures Chained() && nodes == old(nodes) + {he} && entryOf == old(entryOf)[key := he] && recycled == old(recycled)
      ensures Map() == old(Map())[key := val] && count == old(count) + 1
    {
      hide Ok, HashOf, SameHash, Bucket, Members, Map, Memory, MapOf, EntriesKnown, Appended, At;
      ghost var t := Snapshot();
      MapIs();
      MemoryKeys();
      AppendedOk(t, h, b, he, key, val);
      AppendedParts(t, h, b, prev, he, hash, key, val);
      AppendedMap(t, h, b, he, key, val);
      ghost var t' := Appended(t, b, he, hash, key, val);
      Hook(b, prev, he, key, hash, val);
      Commit(count + 1, t');
      MapIs();
    }

    /** An entry is taken out of its chain, pushed on the free list and no longer counted. */
    method Remove(b: nat, prev: Entry?, he: Entry, ghost i: nat)
      requires Chained() && b < |chains| && i < |chains[b]| && he == chains[b][i]
      requires prev == (if i == 0 then null else At(chains[b], i - 1))
      modifies this`count, this`free, this`chains, this`recycled, this`entryOf, buckets, nodes
      ensures InPlace(old(Snapshot()), b, i)
      ensures Chained() && Snapshot() == Unlinked(old(Snapshot()), b, i)
      ensures Map() == old(Map()) - {old(he.key)} && count == old(count) - 1
    {
      hide Ok, HashOf, SameHash, Bucket, Members, Map, Memory, MapOf, EntriesKnown, Unlinked, At, InPlace;
      ghost var t := Snapshot();
      MapIs();
      UnlinkedOk(t, h, b, i);
      UnlinkedFacts(t, h, b, i);
      UnlinkedParts(t, h, b, prev, i);
      UnlinkedMap(t, h, b, i);
      MemoryKeys();
      MemoryAt(he);
      ghost var t' := Unlinked(t, b, i);
      PrevApart(t, b, prev, i);
      Unhook(b, prev, he);
      Commit(count - 1, t');
      MapIs();
    }

    lemma PrevApart(t: Table, b: nat, prev: Entry?, i: nat)
      requires b < |t.chains| && i < |t.chains[b]| && (i > 0 ==> t.chains[b][i - 1] != t.chains[b][i])
      requires prev == (if i == 0 then null else At(t.chains[b], i - 1))
      ensures prev != t.chains[b][i]
    {}

    lemma MemoryKeys()
      ensures Memory().Keys == nodes
    {}

    lemma MemoryAt(e: Entry)
      requires e in Memory()
      ensures e in nodes && Memory()[e] == Cell(e.next, e.hash, e.key, e.val)
    {}

    // -------------------------------------------------------------- iterating

    ghost predicate IndexOk(hi: HashIndex)
      reads this, buckets, nodes, hi
    {
      hi.ht == this && buckets.Length == max + 1
      && Iterating(Memory(), buckets[..], hi.index, hi.next, hi.ahead, hi.todo)
    }

    /** ogs_hash_next: the first entry that is left, unless there is none. */
    method Next(hi: HashIndex) returns (more: bool)
      requires IndexOk(hi)
      modifies hi
      ensures IndexOk(hi)
      ensures var rest := old(hi.ahead + Flat(hi.todo));
              if rest == [] then !more && hi.ahead == [] && hi.todo == []
              else more && hi.this_ == rest[0] && hi.ahead + Flat(hi.todo) == rest[1..]
      ensures |hi.todo| <= |old(hi.todo)| && hi.todo == old(hi.todo)[|old(hi.todo)| - |hi.todo|..]
    {
      hide Linked, Flat, Memory, Iterating;
      ghost var mem, heads, rest := Memory(), buckets[..], hi.ahead + Flat(hi.todo);
      hi.this_ := hi.next;
      assert Memory() == mem && buckets[..] == heads;
      while hi.this_ == null
        invariant hi.ht == this && Memory() == mem && buckets[..] == heads
        invariant Iterating(mem, heads, hi.index, hi.this_, hi.ahead, hi.todo) && hi.ahead + Flat(hi.todo) == rest
        invariant |hi.todo| <= |old(hi.todo)| && hi.todo == old(hi.todo)[|old(hi.todo)| - |hi.todo|..]
        decreases |hi.todo|
      {
        IterateBucket(mem, heads, hi.index, hi.ahead, hi.todo);
        IndexBound(mem, heads, hi.index, hi.this_, hi.ahead, hi.todo);
        if hi.index > max {
          NothingFlat();
          hi.next := null;
          return false;
        }
        hi.this_ := buckets[hi.index];
        hi.index := hi.index + 1;
        hi.ahead, hi.todo := hi.todo[0], hi.todo[1..];
      }
      AheadFirst(mem, heads, hi.index, hi.this_, hi.ahead, hi.todo);
      MemoryAt(hi.this_);
      hi.next := hi.this_.next;
      hi.ahead := hi.ahead[1..];
      more := true;
    }

    /** ogs_hash_first, on the iterator embedded in the table or on one of the caller's. */
    method First(hi: HashIndex) returns (more: bool)
      requires Chained()
      modifies hi
      ensures IndexOk(hi)
      ensures if Flat(chains) == [] then !more && hi.ahead == [] && hi.todo == []
              else more && hi.this_ == Flat(chains)[0] && hi.ahead + Flat(hi.todo) == Flat(chains)[1..]
      ensures |hi.todo| <= |chains| && hi.todo == chains[|chains| - |hi.todo|..]
    {
      hide Ok, Iterating, Flat, Memory, SameHash;
      ghost var t := Snapshot();
      hi.ht, hi.index, hi.this_, hi.next := this, 0, null, null;
      hi.ahead, hi.todo := [], chains;
      assert Snapshot() == t;
      IterateStart(t, h);
      assert hi.ahead + Flat(hi.todo) == Flat(chains);
      more := Next(hi);
    }

    // -------------------------------------------------------------- doubling the array

    /** The entry under the iterator goes to the front of its new bucket. */
    method Push(target: array<Entry?>, i: nat, e: Entry)
      requires e in nodes && i < target.Length && target != buckets
      modifies target, e`next
      ensures MemHas(e) && old(MemHas(e)) && Memory() == old(Memory())[e := old(Memory())[e].(next := old(target[i]))]
      ensures target[..] == old(target[..])[i := e] && buckets[..] == old(buckets[..])
    {
      e.next := target[i];
      target[i] := e;
      assert Memory() == old(Memory())[e := old(Memory())[e].(next := old(target[i]))];
    }

    /** What the iterator has found but not yet passed. */
    ghost function Rest(hi: HashIndex, more: bool): seq<Entry>
      reads hi
    {
      if more && hi.this_ != null then [hi.this_] + (hi.ahead + Flat(hi.todo)) else []
    }

    /** One entry moved to the front of its new chain. */
    method Move(target: array<Entry?>, hi: HashIndex, ghost t: Table, ghost chains': seq<seq<Entry>>)
      returns (ghost moved: seq<seq<Entry>>)
      requires IndexOk(hi) && Ok(t, h) && target != buckets && hi.this_ != null
      requires Rehashing(t, Memory(), Rest(hi, true), target[..], chains')
      modifies target, nodes
      ensures IndexOk(hi) && Rehashing(t, Memory(), hi.ahead + Flat(hi.todo), target[..], moved)
    {
      hide Ok, Iterating, Flat, Memory, Rehashing, Bucket, MaskSize, NoDup;
      ghost var mem, rest, r := Memory(), Rest(hi, true), hi.ahead + Flat(hi.todo);
      RestKnown(t, mem, rest, target[..], chains');
      var e := hi.this_;
      assert rest[0] == e && rest[1..] == r;
      MemoryAt(e);
      BucketIs(e.hash, target.Length - 1);
      var i := Bucket(e.hash, target.Length - 1);
      RehashStep(t, h, mem, rest, target[..], chains', i);
      ghost var c := mem[e].(next := target[i]);
      assert forall k :: 0 <= k < |r| ==> r[k] == rest[k + 1];
      OthersKept(mem, e, c, r);
      IterateFrame(mem, buckets[..], buckets[..], hi.index, hi.next, hi.ahead, hi.todo, mem[e := c]);
      Push(target, i, e);
      moved := chains'[i := [e] + chains'[i]];
    }

    method MoveAll(target: array<Entry?>, hi: HashIndex, first: bool, ghost t: Table, ghost chains': seq<seq<Entry>>)
      returns (ghost moved: seq<seq<Entry>>)
      requires IndexOk(hi) && Ok(t, h) && target != buckets && (first ==> hi.this_ != null)
      requires Rehashing(t, Memory(), Rest(hi, first), target[..], chains')
      modifies target, nodes, hi
      ensures Rehashing(t, Memory(), [], target[..], moved)
    {
      hide Ok, Iterating, Flat, Memory, Rehashing;
      var more := first;
      moved := chains';
      while more
        invariant IndexOk(hi) && (more ==> hi.this_ != null)
        invariant Rehashing(t, Memory(), Rest(hi, more), target[..], moved)
        decreases |Rest(hi, more)|
      {
        moved := Move(target, hi, t, moved);
        ghost var mem, heads, r := Memory(), target[..], hi.ahead + Flat(hi.todo);
        more := Next(hi);
        assert Memory() == mem && target[..] == heads;
        assert Rest(hi, more) == r;
      }
    }

    /** expand_array: every entry moves to the front of its new chain. */
    method Expand()
      requires Chained() && max < 0x8000_0000
      modifies this`buckets, this`max, this`chains, nodes, embedded
      ensures Chained() && fresh(buckets) && max == 2 * old(max) + 1 && entryOf == old(entryOf) && Map() == old(Map())
    {
      hide Ok, Iterating, Flat, Memory, SameHash, Rehashing, Bucket, Map, MaskSize, MapOf, EntriesKnown;
      ghost var t := Snapshot();
      MapIs();
      Sizes(t, h);
      MaskDouble(max);
      var newMax := max * 2 + 1;
      var newArray := AllocArray(newMax);
      var hi := embedded;
      RehashStart(t, h, newMax + 1);
      var more := FirstOf(hi, newArray);
      ghost var newChains := MoveAll(newArray, hi, more, t, seq(newMax + 1, _ => []));
      RehashEnd(t, h, Memory(), newArray[..], newChains);
      RestKnown(t, Memory(), [], newArray[..], newChains);
      ghost var mem := Memory();
      RehashMap(t, h, mem, newArray[..], newChains);
      Install(newArray, newMax, newChains);
      MapIs();
    }

    method AllocArray(newMax: nat) returns (a: array<Entry?>)
      ensures fresh(a) && a.Length == newMax + 1 && a[..] == seq(newMax + 1, _ => null)
      ensures Snapshot() == old(Snapshot())
    {
      a := new Entry?[newMax + 1](_ => null);
      assert Snapshot() == old(Snapshot());
    }

    /** First, for an iteration during which an array of the caller's stays as it is. */
    method FirstOf(hi: HashIndex, a: array<Entry?>) returns (more: bool)
      requires Chained()
      modifies hi
      ensures IndexOk(hi) && (more ==> hi.this_ != null) && Rest(hi, more) == Flat(chains)
      ensures Memory() == old(Memory()) && a[..] == old(a[..])
    {
      hide Ok, Iterating, Flat, Memory, SameHash;
      more := First(hi);
    }

    method Install(newArray: array<Entry?>, newMax: nat, ghost newChains: seq<seq<Entry>>)
      modifies this`buckets, this`max, this`chains
      ensures buckets == newArray && max == newMax && Memory() == old(Memory())
      ensures Snapshot() == Table(old(Memory()), newArray[..], free, newChains, recycled, entryOf)
    {
      hide Memory;
      buckets := newArray;
      max := newMax;
      chains := newChains;
    }

    // -------------------------------------------------------------- the operations

    /** find_entry with a value: the entry of the key, added if it is not there. */
    method FindOrAdd(key: Key, val: Value) returns (he: Entry)
      requires Valid() && val != 0
      modifies this`count, this`free, this`nodes, this`chains, this`recycled, this`entryOf, buckets, nodes
      ensures Chained() && he in nodes && key in entryOf && entryOf[key] == he && fresh(nodes - old(nodes))
      ensures Map() == if key in old(Map()) then old(Map()) else old(Map())[key := val]
      ensures old(count) <= count <= old(count) + 1
    {
      hide Ok, HashOf, SameHash, Bucket, At, Memory, Map;
      MapKeys();
      var hash := ComputeHash(key);
      var b, prev, place, i := Scan(key, hash, |key|);
      if place == null {
        ScanEnd(chains[b], i);
        he := TakeEntry();
        Append(b, prev, he, key, hash, val);
      } else {
        he := place;
        KeyNode(key);
      }
    }

    /** The value of a found entry is replaced. */
    method SetVal(key: Key, he: Entry, val: Value)
      requires Chained() && key in entryOf && entryOf[key] == he && he in nodes && val != 0
      modifies he`val
      ensures Chained() && Map() == old(Map())[key := val]
    {
      hide Ok, HashOf, SameHash;
      ghost var t := Snapshot();
      RevaluedOk(t, h, he, val);
      OtherEntries(t, h, key);
      EntryKnown(t, h);
      he.val := val;
      assert Memory() == Revalued(t, he, val).mem;
      assert Snapshot() == Revalued(t, he, val);
    }

    /** The part of ogs_hash_set for a value. */
    method Put(key: Key, val: Value)
      requires Valid() && val != 0 && count < 0x8000_0000
      modifies this`buckets, this`count, this`max, this`free, this`nodes, this`chains, this`recycled, this`entryOf,
               buckets, nodes, embedded
      ensures Valid() && fresh(nodes - old(nodes)) && (buckets == old(buckets) || fresh(buckets))
      ensures count <= old(count) + 1 && max == (if count > old(max) then 2 * old(max) + 1 else old(max))
      ensures Map() == old(Map())[key := val]
    {
      hide Ok, HashOf, SameHash, Bucket, Memory, Map;
      var he := FindOrAdd(key, val);
      SetVal(key, he, val);
      if count > max {
        Expand();
      }
    }

    /** The part of ogs_hash_set for NULL. */
    method Delete(key: Key) returns (ghost b: nat, ghost i: nat)
      requires Valid()
      modifies this`count, this`free, this`chains, this`recycled, this`entryOf, buckets, nodes
      ensures count <= old(count)
      ensures Valid() && Map() == old(Map()) - {key}
      ensures key in old(entryOf) ==> InPlace(old(Snapshot()), b, i) && old(chains)[b][i] == old(entryOf)[key]
      ensures key in old(entryOf) ==> Snapshot() == Unlinked(old(Snapshot()), b, i)
    {
      hide Ok, HashOf, SameHash, Bucket, At, Memory, Map, Unlinked, InPlace;
      MapKeys();
      MinusAbsent(Map(), key);
      var hash := ComputeHash(key);
      var place, prev, he, at := Scan(key, hash, |key|);
      b, i := place, at;
      if he != null {
        KeyNode(key);
        ScanFound(chains[b], i, he);
        Remove(place, prev, he, i);
      }
    }

    /** ogs_hash_set: a NULL value deletes. */
    method Set(bytes: Key, asString: bool, val: Value)
      requires Valid() && (asString || bytes != []) && count < 0x8000_0000
      modifies this`buckets, this`count, this`max, this`free, this`nodes, this`chains, this`recycled, this`entryOf,
               buckets, nodes, embedded
      ensures count <= old(count) + 1 && max == (if count > old(max) then 2 * old(max) + 1 else old(max))
      ensures Valid() && fresh(nodes - old(nodes)) && (buckets == old(buckets) || fresh(buckets))
      ensures var key := KeyOf(bytes, asString); Map() == if val == 0 then old(Map()) - {key} else old(Map())[key := val]
    {
      hide Ok, HashOf, SameHash, Memory, Map, KeyOf, UpToNul, Valid, Chained, Unlinked, InPlace, Snapshot;
      var key := ReadKey(bytes, asString);
      var b, i := SetKey(key, val);
    }

    method SetKey(key: Key, val: Value) returns (ghost b: nat, ghost i: nat)
      requires Valid() && count < 0x8000_0000
      modifies this`buckets, this`count, this`max, this`free, this`nodes, this`chains, this`recycled, this`entryOf,
               buckets, nodes, embedded
      ensures count <= old(count) + 1 && max == (if count > old(max) then 2 * old(max) + 1 else old(max))
      ensures Valid() && fresh(nodes - old(nodes)) && (buckets == old(buckets) || fresh(buckets))
      ensures Map() == if val == 0 then old(Map()) - {key} else old(Map())[key := val]
      ensures val == 0 && key in old(entryOf) ==>
                InPlace(old(Snapshot()), b, i) && old(chains)[b][i] == old(entryOf)[key]
      ensures val == 0 && key in old(entryOf) ==> Snapshot() == Unlinked(old(Snapshot()), b, i)
      ensures val == 0 ==> buckets == old(buckets) && max == old(max) && nodes == old(nodes) && unchanged(embedded)
    {
      hide Ok, HashOf, SameHash, Memory, Map, Unlinked, InPlace;
      if val != 0 {
        Put(key, val);
        b, i := 0, 0;
      } else {
        b, i := Delete(key);
      }
    }

    /** ogs_hash_get_or_set */
    method GetOrSet(bytes: Key, asString: bool, val: Value) returns (result: Value)
      requires Valid() && (asString || bytes != []) && count < 0x8000_0000
      modifies this`buckets, this`count, this`max, this`free, this`nodes, this`chains, this`recycled, this`entryOf,
               buckets, nodes, embedded
      ensures max == (if count > old(max) then 2 * old(max) + 1 else old(max))
      ensures Valid() && fresh(nodes - old(nodes)) && (buckets == old(buckets) || fresh(buckets))
      ensures var key := KeyOf(bytes, asString);
              result == (if key in old(Map()) then old(Map())[key] else val)
              && Map() == if key in old(Map()) || val == 0 then old(Map()) else old(Map())[key := val]
    {
      hide Ok, HashOf, SameHash, Memory, Map, KeyOf, UpToNul, Valid, Chained, Snapshot;
      var key := ReadKey(bytes, asString);
      result := GetOrSetKey(key, val);
    }

    method GetOrSetKey(key: Key, val: Value) returns (result: Value)
      requires Valid() && count < 0x8000_0000
      modifies this`buckets, this`count, this`max, this`free, this`nodes, this`chains, this`recycled, this`entryOf,
               buckets, nodes, embedded
      ensures max == (if count > old(max) then 2 * old(max) + 1 else old(max))
      ensures Valid() && fresh(nodes - old(nodes)) && (buckets == old(buckets) || fresh(buckets))
      ensures result == if key in old(Map()) then old(Map())[key] else val
      ensures Map() == if key in old(Map()) || val == 0 then old(Map()) else old(Map())[key := val]
    {
      hide Ok, HashOf, SameHash, Bucket, At, Memory;
      if val != 0 {
        var he := FindOrAdd(key, val);
        result := he.val;
        assert key in Map() && Map()[key] == he.val;
        if count > max {
          Expand();
        }
      } else {
        result := GetKey(key);
      }
    }

    /** The iterator has passed the first n entries, and the table is as it was. */
    ghost predicate Reached(hi: HashIndex, more: bool, t: Table, n: nat)
      reads this, buckets, nodes, hi
    {
      IndexOk(hi) && (more ==> hi.this_ != null) && Snapshot() == t && n <= |Flat(t.chains)|
      && Rest(hi, more) == Flat(t.chains)[n..]
    }

    method Advance(hi: HashIndex, ghost t: Table, ghost n: nat) returns (more: bool)
      requires Reached(hi, true, t, n) && n < |Flat(t.chains)|
      modifies hi
      ensures Reached(hi, more, t, n + 1)
    {
      hide Memory, Iterating, Flat;
      ghost var r, f := hi.ahead + Flat(hi.todo), Flat(t.chains);
      assert f[n + 1..] == f[n..][1..] == r;
      more := Next(hi);
      assert Snapshot() == t;
      assert Rest(hi, more) == r;
    }

    method Begin(hi: HashIndex) returns (more: bool)
      requires Chained()
      modifies hi
      ensures Reached(hi, more, old(Snapshot()), 0) && Snapshot() == old(Snapshot())
    {
      hide Ok, HashOf, SameHash, Memory, Iterating, Flat;
      ghost var t := Snapshot();
      more := First(hi);
      assert Snapshot() == t;
      assert Rest(hi, more) == Flat(chains) == Flat(chains)[0..];
    }

    lemma Current(hi: HashIndex, t: Table, n: nat)
      requires Reached(hi, true, t, n) && n < |Flat(t.chains)| && Ok(t, h)
      ensures hi.this_ == Flat(t.chains)[n] && hi.this_ in t.mem
              && t.mem[hi.this_] == Cell(hi.this_.next, hi.this_.hash, hi.this_.key, hi.this_.val)
    {
      hide Ok, Memory, Iterating, Flat;
      assert Flat(t.chains)[n..][0] == Flat(t.chains)[n];
      FlatKnown(t, h, n);
      MemoryAt(hi.this_);
    }

    lemma Finished(hi: HashIndex, more: bool, t: Table, n: nat)
      requires Reached(hi, more, t, n)
      ensures more <==> n < |Flat(t.chains)|
    {
      hide Memory, Iterating, Flat;
    }

    /** ogs_hash_do: the callback sees each entry once until it refuses one, which is then the last
        that it saw. */
    method Do(comp: (Key, Value) -> bool) returns (all: bool, visited: seq<Key>)
      requires Chained()
      ensures all <==> forall key :: key in Map() ==> comp(key, Map()[key])
      ensures all ==> (forall key :: key in visited <==> key in Map()) && |visited| == |Map()|
      ensures !all ==> visited != []
      ensures forall k :: 0 <= k < |visited| ==>
                visited[k] in Map() && (comp(visited[k], Map()[visited[k]]) <==> all || k < |visited| - 1)
      ensures forall j, k :: 0 <= j < k < |visited| ==> visited[j] != visited[k]
    {
      hide Ok, HashOf, SameHash, Memory, Flat, Reached, Visited, Accepted, Refused, Map, MapOf, EntriesKnown;
      ghost var t := Snapshot();
      ghost var f := Flat(chains);
      MapIs();
      visited := [];
      all := true;
      NoneVisited(t, f, comp);
      var hi := new HashIndex();
      assert Snapshot() == t;
      var more := Begin(hi);
      while all && more
        invariant if all then Reached(hi, more, t, |visited|) && Accepted(t, f, |visited|, comp) else |visited| > 0 && Refused(t, f, |visited| - 1, comp) && Accepted(t, f, |visited| - 1, comp)
        invariant |visited| <= |f| && Visited(t, f, visited) && Snapshot() == t
        decreases all, |f| - |visited|
      {
        ghost var n := |visited|;
        Finished(hi, more, t, n);
        Current(hi, t, n);
        all := comp(hi.this_.key, hi.this_.val);
        VisitOne(t, f, visited, comp);
        visited := visited + [hi.this_.key];
        if all {
          more := Advance(hi, t, n);
          assert Snapshot() == t;
        }
      }
      if all { Finished(hi, more, t, |visited|); }
      VisitedAll(t, h, visited, comp, all);
      VisitedEach(t, h, visited, comp, all);
      MapIs();
    }

    /** ogs_hash_clear.  It deletes by key and length, and ogs_hash_set aborts on the length 0:
        the table is cleared exactly when it does not hold the empty string. */
    method Clear() returns (ok: bool)
      requires Valid() && count < 0x8000_0000
      modifies this`buckets, this`count, this`max, this`free, this`nodes, this`chains, this`recycled, this`entryOf,
               buckets, nodes, embedded
      ensures ok <==> [] !in old(Map())
      ensures ok ==> Valid() && Map() == map[] && count == 0 && nodes == old(nodes) && Members(recycled) == nodes
      ensures buckets == old(buckets) && max == old(max)
    {
      hide Ok, HashOf, SameHash, Memory, Iterating, Flat, Map, Members, Clearing, Rest, IndexOk;
      MapKeys();
      var hi := embedded;
      var more := First(hi);
      ClearStart(hi, more);
      while more
        invariant Valid() && count < 0x8000_0000 && ([] in entryOf <==> [] in old(entryOf)) && Clearing(hi, more)
        invariant buckets == old(buckets) && max == old(max) && nodes == old(nodes)
        decreases |Flat(chains)|
      {
        ClearKey(hi);
        if hi.this_.key == [] {
          return false;
        }
        ClearOne(hi);
        more := ClearNext(hi);
      }
      ClearEnd(hi);
      NoChains(Snapshot(), h);
      MemoryKeys();
      MapKeys();
      ok := true;
    }

    /** What the iterator has not passed is what is left in the table. */
    ghost predicate Clearing(hi: HashIndex, more: bool)
      reads this, buckets, nodes, hi
    {
      && IndexOk(hi) && (more ==> hi.this_ != null) && Rest(hi, more) == Flat(chains)
      && |hi.todo| <= |chains| && hi.todo == chains[|chains| - |hi.todo|..]
    }

    lemma ClearStart(hi: HashIndex, more: bool)
      requires IndexOk(hi) && |hi.todo| <= |chains| && hi.todo == chains[|chains| - |hi.todo|..]
      requires if Flat(chains) == [] then !more && hi.ahead == [] && hi.todo == []
               else more && hi.this_ == Flat(chains)[0] && hi.ahead + Flat(hi.todo) == Flat(chains)[1..]
      ensures Clearing(hi, more)
    {
      hide Ok, HashOf, SameHash, Memory, Iterating;
    }

    lemma ClearEnd(hi: HashIndex)
      requires Clearing(hi, false)
      ensures Flat(chains) == []
    {
      hide Ok, HashOf, SameHash, Memory, Iterating, Flat;
    }

    /** The iterator goes on after the entry under it has been deleted. */
    method ClearNext(hi: HashIndex) returns (more: bool)
      requires Valid() && IndexOk(hi) && |hi.todo| <= |chains| && hi.todo == chains[|chains| - |hi.todo|..]
      requires hi.ahead + Flat(hi.todo) == Flat(chains)
      modifies hi
      ensures Clearing(hi, more) && Snapshot() == old(Snapshot()) && Valid()
    {
      hide Ok, HashOf, SameHash, Memory, Iterating, Flat;
      ghost var t, todo := Snapshot(), hi.todo;
      more := Next(hi);
      assert Snapshot() == t;
      assert todo == chains[|chains| - |todo|..];
    }

    lemma ClearKey(hi: HashIndex)
      requires Chained() && Clearing(hi, true)
      ensures hi.this_ != null && hi.this_ in nodes && hi.this_.key in entryOf
    {
      hide Ok, HashOf, SameHash, Memory, Iterating, Flat;
      assert Flat(chains)[0] == hi.this_;
      FlatKnown(Snapshot(), h, 0);
      MemoryAt(hi.this_);
    }

    method ClearOne(hi: HashIndex)
      requires Valid() && count < 0x8000_0000 && Clearing(hi, true) && hi.this_ in nodes && hi.this_.key != []
               && hi == embedded
      modifies this`buckets, this`count, this`max, this`free, this`nodes, this`chains, this`recycled, this`entryOf,
               buckets, nodes, embedded
      ensures Valid() && IndexOk(hi) && count < 0x8000_0000 && ([] in entryOf <==> [] in old(entryOf))
      ensures buckets == old(buckets) && max == old(max) && nodes == old(nodes)
      ensures hi.ahead + Flat(hi.todo) == Flat(chains) && |Flat(chains)| < |old(Flat(chains))|
      ensures |hi.todo| <= |chains| && hi.todo == chains[|chains| - |hi.todo|..] && unchanged(hi)
    {
      hide Ok, HashOf, SameHash, Memory, Iterating, Flat, Map, Unlinked;
      ghost var t, e := Snapshot(), hi.this_;
      MapKeys();
      assert Flat(chains)[0] == e;
      FlatKnown(t, h, 0);
      MemoryAt(e);
      var b, i := SetKey(hi.this_.key, 0);
      MapKeys();
      ClearedOne(t, h, b, i, hi.index, hi.next, hi.ahead, hi.todo);
    }

    // what the map of a valid table is

    /** ogs_hash_count */
    lemma CountIs()
      requires Chained()
      ensures count == |Map()|
    {
      MapKeys();
      assert |Map().Keys| == |Map()| && |entryOf.Keys| == |entryOf|;
    }

    lemma MinusAbsent(m: map<Key, Value>, key: Key)
      ensures key !in m ==> m - {key} == m
    {}

    lemma MapKeys()
      requires Chained()
      ensures Map().Keys == entryOf.Keys
    {
      hide Ok, HashOf, SameHash;
      EntryKnown(Snapshot(), h);
    }

    lemma KeyNode(key: Key)
      requires Chained() && key in entryOf
      ensures entryOf[key] in nodes && entryOf[key].key == key
    {
      hide Ok, HashOf, SameHash;
      KeyVal(Snapshot(), h, key);
    }

    lemma AtEnd(s: seq<Entry>)
      ensures forall i :: 0 <= i < |s| ==> At(s, i) == s[i]
      ensures At(s, |s|) == null
    {}

    lemma ScanEnd(s: seq<Entry>, i: nat)
      requires i <= |s| && At(s, i) == null
      ensures i == |s|
    {}

    lemma ScanFound(s: seq<Entry>, i: nat, he: Entry)
      requires i <= |s| && At(s, i) == he
      ensures i < |s| && s[i] == he
    {}
  }
}
