/** What a chained hash table holds, as a value: the chains of its buckets,
    each from its head on, and the finite map they stand for (src/hash.c). */
module Buckets {
  import opened Common
  import opened Narrowing

  datatype Entry<V> = Entry(key: string, value: V)
  type Chain<V> = seq<Entry<V>>
  type Table<V> = seq<Chain<V>>

  // ---------------------------------------------------------------- hashing

  /** The byte a C `char` holds. */
  function Byte(c: char): bv8 {
    ((c as int) % 256) as bv8
  }

  predicate High(b: bv8) {
    b >= 0x80
  }

  predicate Negative(h: bv32) {
    h >= 0x8000_0000
  }

  /** `(int)c` for a signed C `char`, as the 32 bits of the result. */
  function SignExtended(b: bv8): bv32 {
    if b >= 0x80 then 0xFFFF_FF00 | (b as bv32) else b as bv32
  }

  /** One step of the hash; shift is 0, 8, 16 or 24. */
  function Mix(hash: bv32, b: bv8, shift: nat): bv32
    requires shift <= 24
  {
    hash ^ (SignExtended(b) << shift)
  }

  /** The hash of key[i..], started from `hash`: character i is shifted left
      by 0, 8, 16, 24, 0, ... bits before it is mixed in. */
  function Mixed(hash: bv32, key: string, i: nat): bv32
    requires i <= |key|
    decreases |key| - i
  {
    if i == |key| then hash
    else Mixed(Mix(hash, Byte(key[i]), 8 * (i % 4)), key, i + 1)
  }

  /** A 32-bit pattern read as a signed integer. */
  function Signed(h: bv32): int {
    if !Negative(h) then h as int else h as int - 0x1_0000_0000
  }

  /** C's `%`, whose result has the sign of the dividend. */
  function Remainder(a: int, n: int): int
    requires n > 0
  {
    if a >= 0 then a % n else -((-a) % n)
  }

  function Index(key: string, length: int): int
    requires length > 0
  {
    Remainder(Signed(Mixed(0, key, 0)), length)
  }

  /** Number of bytes of key from position i on whose top bit is set. */
  function HighBytes(key: string, i: nat): nat
    requires i <= |key|
    decreases |key| - i
  {
    if i == |key| then 0
    else (if High(Byte(key[i])) then 1 else 0) + HighBytes(key, i + 1)
  }

  predicate SevenBit(key: string) {
    forall i :: 0 <= i < |key| ==> !High(Byte(key[i]))
  }

  lemma {:induction false} ShiftedSign(hash: bv32, b: bv8, shift: nat)
    requires shift in {0, 8, 16, 24}
    ensures Negative(Mix(hash, b, shift)) <==> (Negative(hash) != High(b))
  {
    if shift == 0 {
    } else if shift == 8 {
    } else if shift == 16 {
    } else {
      assert shift == 24;
    }
  }

  lemma {:induction false} MixedSign(hash: bv32, key: string, i: nat)
    requires i <= |key|
    ensures Negative(Mixed(hash, key, i)) <==> (Negative(hash) != (HighBytes(key, i) % 2 == 1))
    decreases |key| - i
  {
    if i < |key| {
      ShiftedSign(hash, Byte(key[i]), 8 * (i % 4));
      MixedSign(Mix(hash, Byte(key[i]), 8 * (i % 4)), key, i + 1);
    }
  }

  lemma {:induction false} SevenBitHasNoHighBytes(key: string, i: nat)
    requires i <= |key| && SevenBit(key)
    ensures HighBytes(key, i) == 0
    decreases |key| - i
  {
    if i < |key| {
      SevenBitHasNoHighBytes(key, i + 1);
    }
  }

  /** The bucket index is negative exactly when an odd number of the key's bytes
      have their top bit set and the hash is no multiple of the table length. */
  lemma {:induction false} IndexInRange(key: string, length: int)
    requires length > 0
    ensures -length < Index(key, length) < length
    ensures Index(key, length) < 0
      <==> HighBytes(key, 0) % 2 == 1 && Signed(Mixed(0, key, 0)) % length != 0
    ensures SevenBit(key) ==> 0 <= Index(key, length) < length
  {
    MixedSign(0, key, 0);
    if SevenBit(key) {
      SevenBitHasNoHighBytes(key, 0);
    }
    RemainderSign(Signed(Mixed(0, key, 0)), length);
  }

  lemma {:induction false} RemainderSign(a: int, n: int)
    requires n > 0
    ensures -n < Remainder(a, n) < n
    ensures Remainder(a, n) < 0 <==> a < 0 && a % n != 0
  {
    if a < 0 {
      var q, r := a / n, a % n;
      assert -a == n * -q - r;
      if r == 0 {
        Quotient(-a, n, -q, 0);
      } else {
        assert n * -q - r == n * (-q - 1) + (n - r);
        Quotient(-a, n, -q - 1, n - r);
      }
    }
  }

  /** Division with remainder is unique. */
  lemma {:induction false} Quotient(a: int, n: int, q: int, r: int)
    requires n > 0 && 0 <= r < n && a == n * q + r
    ensures a % n == r
  {
    var d := a / n - q;
    assert n * d == r - a % n;
    assert d >= 1 ==> n * d >= n;
    assert d <= -1 ==> n * d <= -n;
  }

  lemma {:induction false} MixedStep(hash: bv32, key: string, i: nat, b: bv8, shift: nat, next: bv32)
    requires i < |key| && Byte(key[i]) == b && shift == 8 * (i % 4) && Mix(hash, b, shift) == next
    ensures Mixed(hash, key, i) == Mixed(next, key, i + 1)
  {
    hide Mix, Byte;
  }

  lemma {:induction false} MixedEnd(hash: bv32, key: string)
    ensures Mixed(hash, key, |key|) == hash
  {
  }

  lemma {:induction false} ByteNarrows(c: char)
    ensures Byte(c) == Narrow(c as int % 256)
  {
  }

  lemma {:induction false} KeyBytes()
    ensures Byte('x') == 0x78 && Byte('m') == 0x6D && Byte('l') == 0x6C && Byte('n') == 0x6E && Byte('s') == 0x73
  {
    LettersAreBytes();
    ByteNarrows('x');
    ByteNarrows('m');
    ByteNarrows('l');
    ByteNarrows('n');
    ByteNarrows('s');
    hide *;
  }

  lemma {:induction false} XmlnsIsSevenBit()
    ensures SevenBit("xmlns")
  {
    assert "xmlns" == ['x', 'm', 'l', 'n', 's'];
    KeyBytes();
    hide Byte;
  }

  lemma {:induction false} KeyMixes()
    ensures Mix(0, 0x78, 0) == 0x78 && Mix(0x78, 0x6D, 8) == 0x6D78 && Mix(0x6D78, 0x6C, 16) == 0x6C_6D78
    ensures Mix(0x6C_6D78, 0x6E, 24) == 0x6E6C_6D78 && Mix(0x6E6C_6D78, 0x73, 0) == 0x6E6C_6D0B
  {
  }

  lemma {:induction false} IndexIs(key: string, hash: bv32)
    requires Mixed(0, key, 0) == hash
    ensures Index(key, 8) == Remainder(Signed(hash), 8)
  {
    hide Mixed, Remainder, Signed;
  }

  /** The hash of the key of namespaces: its characters are shifted by 0, 8, 16, 24 and again 0
      bits, and the index is the remainder. */
  lemma {:induction false} HashOfXmlns(key: string)
    requires key == ['x', 'm', 'l', 'n', 's']
    ensures Mixed(0, key, 0) == 0x6E6C_6D0B && Index(key, 8) == 3
  {
    hide *;
    KeyBytes();
    KeyMixes();
    MixedStep(0, key, 0, 0x78, 0, 0x78);
    MixedStep(0x78, key, 1, 0x6D, 8, 0x6D78);
    MixedStep(0x6D78, key, 2, 0x6C, 16, 0x6C_6D78);
    MixedStep(0x6C_6D78, key, 3, 0x6E, 24, 0x6E6C_6D78);
    MixedStep(0x6E6C_6D78, key, 4, 0x73, 0, 0x6E6C_6D0B);
    MixedEnd(0x6E6C_6D0B, key);
    IndexIs(key, 0x6E6C_6D0B);
    RemainderOf();
  }

  /** The pattern of 32 bits as a signed number, and its remainder: what is left of a multiple
      of the length, with the sign of the number. */
  lemma {:induction false} SignedIs(h: bv32)
    ensures -0x8000_0000 <= Signed(h) < 0x8000_0000
    ensures Signed(h) == h as int || Signed(h) == h as int - 0x1_0000_0000
  {
  }

  lemma {:induction false} RemainderIs(a: int, n: int) returns (q: int)
    requires n > 0
    ensures a == n * q + Remainder(a, n) && -n < Remainder(a, n) < n
    ensures Remainder(a, n) == 0 || (Remainder(a, n) < 0 <==> a < 0)
  {
    q := if a >= 0 then a / n else -((-a) / n);
    RemainderSign(a, n);
    if a < 0 {
      assert -a == n * ((-a) / n) + (-a) % n;
      assert n * q == -(n * ((-a) / n));
    } else {
      assert a == n * q + a % n;
    }
  }

  lemma {:induction false} RemainderOf()
    ensures Remainder(Signed(0x6E6C_6D0B), 8) == 3
  {
  }

  /** A character of 128 or more is negative, and so is the index of a key of one of them. */
  lemma {:induction false} HashOfHighKey(c: char)
    requires c as int == 0xE9
    ensures Mixed(0, [c], 0) == 0xFFFF_FFE9 && Index([c], 8) == -7
  {
  }

  // ------------------------------------------------------------------ chains

  /** Position of the first entry for key, or the length of the chain. */
  function Find<V>(chain: Chain<V>, key: string): (k: nat)
    ensures k <= |chain|
    ensures forall j :: 0 <= j < k ==> chain[j].key != key
    ensures k < |chain| ==> chain[k].key == key
  {
    if chain == [] || chain[0].key == key then 0 else 1 + Find(chain[1..], key)
  }

  /** The chain without its first entry for key. */
  function Without<V>(chain: Chain<V>, key: string): (r: Chain<V>)
    ensures forall e :: e in r ==> e in chain
  {
    if chain == [] then []
    else if chain[0].key == key then chain[1..]
    else [chain[0]] + Without(chain[1..], key)
  }

  /** The map a chain stands for: the first entry for a key wins. */
  function ChainMap<V>(chain: Chain<V>): map<string, V> {
    if chain == [] then map[] else ChainMap(chain[1..])[chain[0].key := chain[0].value]
  }

  function Lookup<V>(m: map<string, V>, key: string): Option<V> {
    if key in m then Some(m[key]) else None
  }

  ghost predicate DistinctKeys<V>(chain: Chain<V>) {
    forall i, j :: 0 <= i < j < |chain| ==> chain[i].key != chain[j].key
  }

  lemma {:induction false} ChainLookup<V>(chain: Chain<V>, key: string)
    ensures var k := Find(chain, key);
      Lookup(ChainMap(chain), key) == if k < |chain| then Some(chain[k].value) else None
  {
    if chain != [] && chain[0].key != key {
      ChainLookup(chain[1..], key);
    }
  }

  lemma {:induction false} KeysOfChain<V>(chain: Chain<V>, key: string)
    ensures key in ChainMap(chain) <==> exists j :: 0 <= j < |chain| && chain[j].key == key
  {
    ChainLookup(chain, key);
  }

  lemma {:induction false} DistinctCons<V>(e: Entry<V>, rest: Chain<V>)
    requires DistinctKeys(rest) && e.key !in ChainMap(rest)
    ensures DistinctKeys([e] + rest)
    ensures ChainMap([e] + rest) == ChainMap(rest)[e.key := e.value]
  {
    KeysOfChain(rest, e.key);
    assert ([e] + rest)[1..] == rest;
  }

  lemma {:induction false} WithoutRemoves<V>(chain: Chain<V>, key: string)
    requires DistinctKeys(chain)
    ensures DistinctKeys(Without(chain, key))
    ensures ChainMap(Without(chain, key)) == ChainMap(chain) - {key}
  {
    if chain != [] {
      var rest := chain[1..];
      KeysOfChain(rest, chain[0].key);
      if chain[0].key != key {
        WithoutRemoves(rest, key);
        DistinctCons(chain[0], Without(rest, key));
      }
    }
  }

  lemma {:induction false} CutLater<V>(chain: Chain<V>, j: nat)
    requires j + 1 < |chain|
    ensures [chain[0]] + (chain[1..][..j] + chain[1..][j + 1..]) == chain[..j + 1] + chain[j + 2..]
  {
  }

  /** Cutting out position Find(chain, key) leaves Without(chain, key). */
  lemma {:induction false} WithoutCutsOut<V>(chain: Chain<V>, key: string)
    ensures var k := Find(chain, key);
      Without(chain, key) == if k < |chain| then chain[..k] + chain[k + 1..] else chain
  {
    if chain != [] && chain[0].key != key {
      var j := Find(chain[1..], key);
      WithoutCutsOut(chain[1..], key);
      if j < |chain[1..]| {
        CutLater(chain, j);
      }
    }
  }

  // ------------------------------------------------------------------ tables

  /** The map a table stands for. */
  function Contents<V>(t: Table<V>): map<string, V> {
    if t == [] then map[] else Contents(t[1..]) + ChainMap(t[0])
  }

  /** Bucket i holds keys whose bucket index among n buckets is i + from. */
  ghost predicate KeysIn<V>(t: Table<V>, n: int, from: nat)
    requires n > 0
  {
    forall i, j :: 0 <= i < |t| && 0 <= j < |t[i]| ==> Index(t[i][j].key, n) == i + from
  }

  /** Every key once, and in its own bucket. */
  ghost predicate WellFormed<V>(t: Table<V>) {
    && |t| > 0
    && (forall i :: 0 <= i < |t| ==> DistinctKeys(t[i]))
    && KeysIn(t, |t|, 0)
  }

  function Empty<V>(length: nat): (t: Table<V>)
    ensures |t| == length && forall i :: 0 <= i < length ==> t[i] == []
  {
    seq(length, i => [])
  }

  function Drop<V>(t: Table<V>, key: string): (r: Table<V>)
    requires |t| > 0 && 0 <= Index(key, |t|)
    ensures |r| == |t|
  {
    IndexInRange(key, |t|);
    var i := Index(key, |t|);
    t[i := Without(t[i], key)]
  }

  function Add<V>(t: Table<V>, key: string, value: V): (r: Table<V>)
    requires |t| > 0 && 0 <= Index(key, |t|)
    ensures |r| == |t|
  {
    IndexInRange(key, |t|);
    var i := Index(key, |t|);
    t[i := [Entry(key, value)] + Without(t[i], key)]
  }

  lemma {:induction false} LookupInBuckets<V>(t: Table<V>, n: int, from: nat, key: string)
    requires n > 0 && KeysIn(t, n, from)
    ensures Lookup(Contents(t), key)
      == var b := Index(key, n) - from;
         if 0 <= b < |t| then Lookup(ChainMap(t[b]), key) else None
  {
    if t != [] {
      var b := Index(key, n) - from;
      assert forall i :: 0 <= i < |t[1..]| ==> t[1..][i] == t[i + 1];
      LookupInBuckets(t[1..], n, from + 1, key);
      KeysOfChain(t[0], key);
      if b != 0 {
        assert key !in ChainMap(t[0]);
      }
    }
  }

  /** Looking in the key's own bucket finds what the whole table holds. */
  lemma {:induction false} LookupInBucket<V>(t: Table<V>, key: string)
    requires WellFormed(t)
    ensures Lookup(Contents(t), key)
      == var b := Index(key, |t|); if 0 <= b < |t| then Lookup(ChainMap(t[b]), key) else None
  {
    LookupInBuckets(t, |t|, 0, key);
  }

  lemma {:induction false} SameLookups<V>(m: map<string, V>, m': map<string, V>)
    requires forall key :: Lookup(m, key) == Lookup(m', key)
    ensures m == m'
  {
    assert forall key :: key in m <==> Lookup(m, key).Some?;
    assert forall key :: key in m' <==> Lookup(m', key).Some?;
    assert forall key :: key in m ==> Lookup(m, key) == Some(m[key]);
    assert forall key :: key in m' ==> Lookup(m', key) == Some(m'[key]);
  }

  /** Putting chain c into bucket i changes what the keys of that bucket mean, and only that. */
  lemma {:induction false} ReplacedBucket<V>(t: Table<V>, i: nat, c: Chain<V>, key: string)
    requires WellFormed(t) && i < |t| && DistinctKeys(c)
    requires forall e :: e in c ==> Index(e.key, |t|) == i
    ensures WellFormed(t[i := c])
    ensures Lookup(Contents(t[i := c]), key)
      == if Index(key, |t|) == i then Lookup(ChainMap(c), key) else Lookup(Contents(t), key)
  {
    var r: Table<V> := t[i := c];
    assert forall j :: 0 <= j < |c| ==> c[j] in c;
    LookupInBucket(t, key);
    LookupInBucket(r, key);
  }

  lemma {:induction false} AddedBucket<V>(chain: Chain<V>, key: string, value: V)
    requires DistinctKeys(chain)
    ensures var c := [Entry(key, value)] + Without(chain, key);
      DistinctKeys(c) && ChainMap(c) == ChainMap(chain)[key := value]
      && forall e :: e in c ==> e.key == key || e in chain
  {
    WithoutRemoves(chain, key);
    DistinctCons(Entry(key, value), Without(chain, key));
  }

  /** If a bucket comes to mean what its keys mean in m, and m and the table agree on
      every other key, the table comes to mean m. */
  lemma {:induction false} BucketDecides<V>(t: Table<V>, i: nat, c: Chain<V>, m: map<string, V>)
    requires WellFormed(t) && i < |t| && DistinctKeys(c)
    requires forall e :: e in c ==> Index(e.key, |t|) == i
    requires forall key ::
      Lookup(m, key) == if Index(key, |t|) == i then Lookup(ChainMap(c), key) else Lookup(Contents(t), key)
    ensures WellFormed(t[i := c]) && Contents(t[i := c]) == m
  {
    forall key ensures WellFormed(t[i := c]) && Lookup(Contents(t[i := c]), key) == Lookup(m, key) {
      ReplacedBucket(t, i, c, key);
    }
    ReplacedBucket(t, i, c, "");
    SameLookups(Contents(t[i := c]), m);
  }

  lemma {:induction false} AddIsUpdate<V>(t: Table<V>, key: string, value: V)
    requires WellFormed(t) && 0 <= Index(key, |t|)
    ensures WellFormed(Add(t, key, value))
    ensures Contents(Add(t, key, value)) == Contents(t)[key := value]
  {
    IndexInRange(key, |t|);
    var i := Index(key, |t|);
    AddedBucket(t[i], key, value);
    forall other ensures Index(other, |t|) == i ==> Lookup(ChainMap(t[i]), other) == Lookup(Contents(t), other) {
      LookupInBucket(t, other);
    }
    assert forall e :: e in t[i] ==> Index(e.key, |t|) == i;
    BucketDecides(t, i, [Entry(key, value)] + Without(t[i], key), Contents(t)[key := value]);
  }

  lemma {:induction false} DropIsRemoval<V>(t: Table<V>, key: string)
    requires WellFormed(t) && 0 <= Index(key, |t|)
    ensures WellFormed(Drop(t, key))
    ensures Contents(Drop(t, key)) == Contents(t) - {key}
  {
    IndexInRange(key, |t|);
    var i := Index(key, |t|);
    WithoutRemoves(t[i], key);
    forall other ensures Index(other, |t|) == i ==> Lookup(ChainMap(t[i]), other) == Lookup(Contents(t), other) {
      LookupInBucket(t, other);
    }
    assert forall e :: e in t[i] ==> Index(e.key, |t|) == i;
    BucketDecides(t, i, Without(t[i], key), Contents(t) - {key});
  }

  // ------------------------------------------------------- counting, iterating

  function Size<V>(t: Table<V>): nat {
    if t == [] then 0 else |t[0]| + Size(t[1..])
  }

  function Keys<V>(chain: Chain<V>): (r: seq<string>)
    ensures |r| == |chain| && forall j :: 0 <= j < |r| ==> r[j] == chain[j].key
  {
    seq(|chain|, j requires 0 <= j < |chain| => chain[j].key)
  }

  /** The keys of the buckets in order, chains from the head on. */
  function AllKeys<V>(t: Table<V>): seq<string> {
    if t == [] then [] else Keys(t[0]) + AllKeys(t[1..])
  }

  /** What the iterator yields: every bucket but the last one in full, and of the
      last one only the head (the bound test of src/hash.c:269 also applies while a
      chain is being walked). */
  function Enumerated<V>(t: Table<V>): seq<string>
    requires |t| > 0
  {
    var last := t[|t| - 1];
    AllKeys(t[..|t| - 1]) + Keys(if last == [] then [] else last[..1])
  }

  lemma {:induction false} AllKeysAppend<V>(t: Table<V>, u: Table<V>)
    ensures AllKeys(t + u) == AllKeys(t) + AllKeys(u)
    ensures Size(t + u) == Size(t) + Size(u)
  {
    if t == [] {
      assert t + u == u;
    } else {
      assert (t + u)[1..] == t[1..] + u && (t + u)[0] == t[0];
      AllKeysAppend(t[1..], u);
    }
  }

  lemma {:induction false} AllKeysAreTheKeys<V>(t: Table<V>, n: int, from: nat)
    requires n > 0 && KeysIn(t, n, from)
    requires forall i :: 0 <= i < |t| ==> DistinctKeys(t[i])
    ensures |AllKeys(t)| == Size(t) == |Contents(t)|
    ensures forall key :: key in AllKeys(t) <==> key in Contents(t)
    ensures forall i, j :: 0 <= i < j < |AllKeys(t)| ==> AllKeys(t)[i] != AllKeys(t)[j]
    ensures forall key :: key in Contents(t) ==> Index(key, n) >= from
  {
    if t != [] {
      assert forall i :: 0 <= i < |t[1..]| ==> t[1..][i] == t[i + 1];
      AllKeysAreTheKeys(t[1..], n, from + 1);
      ChainKeys(t[0]);
      forall key | key in ChainMap(t[0]) ensures Index(key, n) == from {
        KeysOfChain(t[0], key);
      }
      assert Contents(t).Keys == Contents(t[1..]).Keys + ChainMap(t[0]).Keys;
      DisjointSizes(Contents(t[1..]), ChainMap(t[0]));
      DisjointAppend(Keys(t[0]), AllKeys(t[1..]));
    }
  }

  lemma {:induction false} ChainKeys<V>(chain: Chain<V>)
    requires DistinctKeys(chain)
    ensures |ChainMap(chain)| == |chain|
    ensures forall key :: key in ChainMap(chain) <==> key in Keys(chain)
  {
    if chain != [] {
      ChainKeys(chain[1..]);
      KeysOfChain(chain[1..], chain[0].key);
      assert Keys(chain) == [chain[0].key] + Keys(chain[1..]);
    }
  }

  lemma {:induction false} DisjointSizes<V>(m: map<string, V>, m': map<string, V>)
    requires m.Keys !! m'.Keys
    ensures |m + m'| == |m| + |m'|
  {
    assert (m + m').Keys == m.Keys + m'.Keys;
    assert |m| == |m.Keys| && |m'| == |m'.Keys| && |m + m'| == |(m + m').Keys|;
  }

  lemma {:induction false} DisjointAppend(a: seq<string>, b: seq<string>)
    requires forall i, j :: 0 <= i < j < |a| ==> a[i] != a[j]
    requires forall i, j :: 0 <= i < j < |b| ==> b[i] != b[j]
    requires forall key :: key in a ==> key !in b
    ensures forall i, j :: 0 <= i < j < |a + b| ==> (a + b)[i] != (a + b)[j]
  {
    assert forall i :: 0 <= i < |a| ==> a[i] in a;
    assert forall i :: 0 <= i < |b| ==> b[i] in b;
  }

  /** What the iterator leaves out. */
  function Hidden<V>(t: Table<V>): seq<string>
    requires |t| > 0
  {
    var last := t[|t| - 1];
    Keys(if last == [] then [] else last[1..])
  }

  lemma {:induction false} KeysOfLast<V>(last: Chain<V>)
    ensures AllKeys([last]) == Keys(last)
    ensures Keys(last) == Keys(if last == [] then [] else last[..1]) + Keys(if last == [] then [] else last[1..])
  {
    assert [last][1..] == [];
  }

  lemma {:induction false} ShownAndHidden<V>(t: Table<V>)
    requires |t| > 0
    ensures var last := t[|t| - 1];
      && Enumerated(t) == AllKeys(t[..|t| - 1]) + Keys(if last == [] then [] else last[..1])
      && Hidden(t) == Keys(if last == [] then [] else last[1..])
  {
    hide AllKeys, Keys;
  }

  lemma {:induction false} Regroup(a: seq<string>, b: seq<string>, c: seq<string>)
    ensures a + (b + c) == (a + b) + c
  {
  }

  lemma {:induction false} EnumeratedThenHidden<V>(t: Table<V>)
    requires |t| > 0
    ensures AllKeys(t) == Enumerated(t) + Hidden(t)
  {
    hide *;
    var front, last := t[..|t| - 1], t[|t| - 1];
    ShownAndHidden(t);
    AllKeysAppend(front, [last]);
    KeysOfLast(last);
    assert front + [last] == t;
    Regroup(AllKeys(front), Keys(if last == [] then [] else last[..1]), Hidden(t));
  }

  lemma {:induction false} PrefixIsAll(shown: seq<string>, hidden: seq<string>)
    requires forall i, j :: 0 <= i < j < |shown + hidden| ==> (shown + hidden)[i] != (shown + hidden)[j]
    ensures forall i, j :: 0 <= i < j < |shown| ==> shown[i] != shown[j]
    ensures (forall key :: key in shown + hidden ==> key in shown) <==> hidden == []
  {
    assert forall i :: 0 <= i < |shown| ==> (shown + hidden)[i] == shown[i];
    if hidden != [] {
      assert (shown + hidden)[|shown|] == hidden[0];
      assert hidden[0] in shown + hidden && hidden[0] !in shown;
    }
  }

  /** The iterator yields no key twice, only keys of the table, and all of them exactly
      when the chain of the last bucket has at most one entry. */
  lemma {:induction false} EnumeratedKeys<V>(t: Table<V>)
    requires WellFormed(t)
    ensures forall i, j :: 0 <= i < j < |Enumerated(t)| ==> Enumerated(t)[i] != Enumerated(t)[j]
    ensures forall key :: key in Enumerated(t) ==> key in Contents(t)
    ensures (forall key :: key in Contents(t) ==> key in Enumerated(t)) <==> |t[|t| - 1]| <= 1
    ensures |Contents(t)| == Size(t)
    ensures |Enumerated(t)| <= Size(t) && (|Enumerated(t)| == Size(t) <==> |t[|t| - 1]| <= 1)
  {
    var shown, hidden := Enumerated(t), Hidden(t);
    EnumeratedThenHidden(t);
    AllKeysAreTheKeys(t, |t|, 0);
    PrefixIsAll(shown, hidden);
    assert forall key :: key in Contents(t) <==> key in shown + hidden;
    assert hidden == [] <==> |t[|t| - 1]| <= 1;
  }
}
