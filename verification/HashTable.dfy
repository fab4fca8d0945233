/** The chained hash table of src/hash.c, as linked nodes hanging off an array of
    bucket heads. Each operation is tied to its counterpart on tables as values. */
module HashTables {
  import opened Common
  import opened Buckets

  class HashEntry<V> {
    var next: HashEntry?<V>
    const key: string
    const value: V

    constructor (key: string, value: V, next: HashEntry?<V>)
      ensures this.key == key && this.value == value && this.next == next
    {
      this.key, this.value, this.next := key, value, next;
    }
  }

  /** `next` links lead from head through the nodes of chain to NULL. */
  ghost predicate Linked<V>(head: HashEntry?<V>, chain: seq<HashEntry<V>>)
    reads chain
  {
    && head == (if chain == [] then null else chain[0])
    && forall j :: 0 <= j < |chain| ==> chain[j].next == After(chain, j)
  }

  ghost function After<V>(chain: seq<HashEntry<V>>, j: nat): HashEntry?<V> {
    if j + 1 < |chain| then chain[j + 1] else null
  }

  ghost function Values<V>(chain: seq<HashEntry<V>>): (r: Chain<V>)
    ensures |r| == |chain|
    ensures forall j {:trigger r[j]} :: 0 <= j < |chain| ==> r[j] == Entry(chain[j].key, chain[j].value)
  {
    seq(|chain|, j requires 0 <= j < |chain| => Entry(chain[j].key, chain[j].value))
  }

  ghost function Tabled<V>(chains: seq<seq<HashEntry<V>>>): (t: Table<V>)
    ensures |t| == |chains| && forall i {:trigger t[i]} :: 0 <= i < |t| ==> t[i] == Values(chains[i])
  {
    seq(|chains|, i requires 0 <= i < |chains| => Values(chains[i]))
  }

  ghost function NodesOf<V>(chains: seq<seq<HashEntry<V>>>): set<HashEntry<V>> {
    set i, j | 0 <= i < |chains| && 0 <= j < |chains[i]| :: chains[i][j]
  }

  ghost function Cut<V>(chains: seq<seq<HashEntry<V>>>, index: nat, k: nat): seq<seq<HashEntry<V>>>
    requires index < |chains| && k < |chains[index]|
  {
    chains[index := chains[index][..k] + chains[index][k + 1..]]
  }

  /** `_hash_key`: the cursor walks to the end of the key. */
  method HashKey(key: string, length: int) returns (index: int)
    requires length > 0
    ensures index == Index(key, length)
  {
    var hash: bv32, shift, c := 0, 0, 0;
    while c < |key|
      invariant c <= |key| && shift == 8 * (c % 4)
      invariant Mixed(hash, key, c) == Mixed(0, key, 0)
    {
      hash := Mix(hash, Byte(key[c]), shift);
      c := c + 1;
      shift := shift + 8;
      if shift > 24 {
        shift := 0;
      }
    }
    index := Remainder(Signed(hash), length);
  }

  /** Position k is the first one with the key, or the end if there is none. */
  ghost predicate FoundAt<V>(chain: Chain<V>, key: string, k: nat) {
    && k <= |chain|
    && (forall j :: 0 <= j < k ==> chain[j].key != key)
    && (k < |chain| ==> chain[k].key == key)
  }

  class HashTable<V> {
    const entries: array<HashEntry?<V>>
    var numKeys: int
    /** The nodes of each bucket, from the head on. */
    ghost var chains: seq<seq<HashEntry<V>>>

    ghost function Nodes(): set<HashEntry<V>>
      reads this
    {
      NodesOf(chains)
    }

    /** Two nodes of the table are never the same one, since no two keys are. */
    ghost predicate Valid()
      reads this, entries, Nodes()
    {
      && Shaped()
      && WellFormed(View())
      && numKeys == Size(View())
    }

    /** The links are as `chains` says. */
    ghost predicate Shaped()
      reads this, entries, Nodes()
    {
      && |chains| == entries.Length > 0
      && forall i :: 0 <= i < |chains| ==> Linked(entries[i], chains[i])
    }

    ghost function View(): Table<V>
      reads this
    {
      Tabled(chains)
    }

    /** The finite map the table stands for. */
    ghost function Map(): map<string, V>
      reads this
    {
      Contents(View())
    }

    constructor (size: int)
      requires size > 0
      ensures Valid() && fresh(entries) && Nodes() == {} && Map() == map[] && entries.Length == size
    {
      entries := new HashEntry?<V>[size](_ => null);
      numKeys := 0;
      chains := seq(size, _ => []);
      new;
      assert View() == Empty(size);
      EmptyIsEmpty<V>(size);
    }

    /** The walk along one bucket that looking up and dropping start with. */
    method Search(index: int, key: string)
      returns (prev: HashEntry?<V>, entry: HashEntry?<V>, ghost k: nat)
      requires Shaped() && 0 <= index < |chains|
      ensures FoundAt(Values(chains[index]), key, k)
      ensures entry == if k < |chains[index]| then chains[index][k] else null
      ensures prev == if k == 0 then null else chains[index][k - 1]
    {
      ghost var chain := chains[index];
      ghost var values: Chain<V> := Values(chain);
      prev, entry, k := null, entries[index], 0;
      while entry != null && key != entry.key
        invariant k <= |chain| && Linked(entries[index], chain)
        invariant entry == if k < |chain| then chain[k] else null
        invariant prev == if k == 0 then null else chain[k - 1]
        invariant forall j :: 0 <= j < k ==> values[j].key != key
        decreases |chain| - k
      {
        prev := entry;
        entry := entry.next;
        k := k + 1;
      }
      assert k < |chain| ==> values[k].key == key;
    }

    method Get(key: string) returns (result: Option<V>)
      requires Valid() && 0 <= Index(key, entries.Length)
      ensures result == Lookup(Map(), key)
    {
      IndexInRange(key, entries.Length);
      var index := HashKey(key, entries.Length);
      var _, entry, k := Search(index, key);
      FoundIsFind(View()[index], key, k);
      LookupInBucket(View(), key);
      ChainLookup(View()[index], key);
      result := if entry != null then Some(entry.value) else None;
    }

    /** `hash_drop`: returns 0, or -1 if the key is not there. */
    method Drop(key: string) returns (ret: int)
      requires Valid() && 0 <= Index(key, entries.Length)
      modifies this, entries, Nodes()
      ensures Valid() && Nodes() <= old(Nodes())
      ensures Map() == old(Map()) - {key}
      ensures View() == Buckets.Drop(old(View()), key)
      ensures ret == if key in old(Map()) then 0 else -1
    {
      hide Index, WellFormed, Contents, Size, Tabled, Buckets.Drop, FoundAt, Values, Linked;
      IndexInRange(key, entries.Length);
      var index := HashKey(key, entries.Length);
      var prev, entry, k := Search(index, key);
      CutIsDrop(chains, index, k, key);
      if entry == null {
        return -1;
      }
      Unlink(index, k, prev, entry);
      numKeys := numKeys - 1;
      assert View() == Buckets.Drop(old(View()), key);
      assert WellFormed(View());
      return 0;
    }

    /** `hash_add`: an entry for the same key is dropped first. */
    method Add(key: string, value: V)
      requires Valid() && 0 <= Index(key, entries.Length)
      modifies this, entries, Nodes()
      ensures Valid() && fresh(Nodes() - old(Nodes()))
      ensures Map() == old(Map())[key := value]
      ensures View() == Buckets.Add(old(View()), key, value)
    {
      hide Index, WellFormed, Contents, Size, Tabled, Buckets.Drop, Buckets.Add, Values, Linked;
      IndexInRange(key, entries.Length);
      var index := HashKey(key, entries.Length);
      AddIsUpdate(View(), key, value);
      ghost var added := Buckets.Add(View(), key, value);
      var _ := Drop(key);
      Prepend(index, key, value);
      numKeys := numKeys + 1;
      AddIsDropAndPrepend(old(View()), key, value);
      assert View() == added;
    }

    method Prepend(index: int, key: string, value: V)
      requires Shaped() && 0 <= index < |chains|
      modifies entries, `chains
      ensures Shaped() && fresh(Nodes() - old(Nodes()))
      ensures View() == var t := old(View()); t[index := [Entry(key, value)] + t[index]]
    {
      var entry := new HashEntry(key, value, entries[index]);
      entries[index] := entry;
      chains := chains[index := [entry] + chains[index]];
      assert Values(chains[index]) == [Entry(key, value)] + old(View())[index];
    }

    /** `hash_num_keys`. */
    method NumKeys() returns (n: int)
      requires Valid()
      ensures n == |Map()|
    {
      EnumeratedKeys(View());
      n := numKeys;
    }

    /** The link before the k-th node of a bucket is made to pass it by. */
    method Unlink(index: int, ghost k: nat, prev: HashEntry?<V>, entry: HashEntry<V>)
      requires Shaped() && 0 <= index < |chains| && k < |chains[index]|
      requires chains[index][k] == entry && prev == if k == 0 then null else chains[index][k - 1]
      requires forall i, j :: 0 <= i < |chains| && 0 <= j < |chains[i]| && chains[i][j] == prev ==>
        i == index && j == k - 1
      modifies entries, prev, `chains
      ensures chains == Cut(old(chains), index, k) && Shaped()
    {
      if prev == null {
        entries[index] := entry.next;
      } else {
        prev.next := entry.next;
      }
      ghost var was := chains;
      chains := Cut(chains, index, k);
      forall i | 0 <= i < |chains| ensures Linked(entries[i], chains[i]) {
        if i != index {
          assert chains[i] == was[i];
        }
      }
    }
  }

  /** No node is in two places, since no key is. */
  lemma {:induction false} DistinctPlaces<V>(chains: seq<seq<HashEntry<V>>>)
    requires WellFormed(Tabled(chains))
    ensures forall i, j, i', j' ::
      0 <= i < |chains| && 0 <= j < |chains[i]| && 0 <= i' < |chains| && 0 <= j' < |chains[i']| ==>
      chains[i][j] == chains[i'][j'] ==> i == i' && j == j'
  {
    var t: Table<V> := Tabled(chains);
    assert forall i, j :: 0 <= i < |chains| && 0 <= j < |chains[i]| ==> t[i][j].key == chains[i][j].key;
  }

  lemma {:induction false} CutFromChains<V>(chains: seq<seq<HashEntry<V>>>, index: nat, k: nat)
    requires index < |chains| && k < |chains[index]|
    ensures var t := Tabled(chains);
      Tabled(Cut(chains, index, k)) == t[index := t[index][..k] + t[index][k + 1..]]
    ensures NodesOf(Cut(chains, index, k)) <= NodesOf(chains)
  {
    var c, t: Table<V> := chains[index], Tabled(chains);
    assert Values(c[..k] + c[k + 1..]) == t[index][..k] + t[index][k + 1..];
    var rest := c[..k] + c[k + 1..];
    assert forall j :: 0 <= j < |rest| ==> rest[j] == c[if j < k then j else j + 1];
  }

  /** Cutting out the node the search stopped at drops the key. */
  lemma {:induction false} CutIsDrop<V>(chains: seq<seq<HashEntry<V>>>, index: nat, k: nat, key: string)
    requires WellFormed(Tabled(chains)) && index == Index(key, |chains|) < |chains|
    requires FoundAt(Values(chains[index]), key, k)
    ensures var t, t' := Tabled(chains), Drop(Tabled(chains), key);
      && WellFormed(t') && Contents(t') == Contents(t) - {key}
      && (key in Contents(t) <==> k < |chains[index]|)
      && if k == |chains[index]| then t' == t
         else
          && t' == Tabled(Cut(chains, index, k)) && Size(t') == Size(t) - 1
          && NodesOf(Cut(chains, index, k)) <= NodesOf(chains)
    ensures k < |chains[index]| ==> forall i, j :: 0 <= i < |chains| && 0 <= j < |chains[i]| ==>
      0 < k && chains[i][j] == chains[index][k - 1] ==> i == index && j == k - 1
  {
    var t: Table<V> := Tabled(chains);
    FoundIsFind(t[index], key, k);
    DropIsRemoval(t, key);
    LookupInBucket(t, key);
    ChainLookup(t[index], key);
    WithoutCutsOut(t[index], key);
    if k == |chains[index]| {
      assert t[index := t[index]] == t;
    } else {
      SizeOfReplaced(t, index, Without(t[index], key));
      CutFromChains(chains, index, k);
      DistinctPlaces(chains);
    }
  }

  lemma {:induction false} EmptyIsEmpty<V>(n: nat)
    ensures Contents(Empty<V>(n)) == map[] && Size(Empty<V>(n)) == 0
  {
    if n > 0 {
      assert Empty<V>(n)[1..] == Empty<V>(n - 1);
      EmptyIsEmpty<V>(n - 1);
    }
  }

  lemma {:induction false} FoundIsFind<V>(chain: Chain<V>, key: string, k: nat)
    requires FoundAt(chain, key, k)
    ensures k == Find(chain, key)
  {
  }

  lemma {:induction false} SizeOfReplaced<V>(t: Table<V>, i: nat, c: Chain<V>)
    requires i < |t|
    ensures Size(t[i := c]) == Size(t) - |t[i]| + |c|
  {
    if i > 0 {
      assert t[i := c][1..] == t[1..][i - 1 := c];
      SizeOfReplaced(t[1..], i - 1, c);
    } else {
      assert t[i := c][1..] == t[1..];
    }
  }

  lemma {:induction false} AddIsDropAndPrepend<V>(t: Table<V>, key: string, value: V)
    requires |t| > 0 && 0 <= Index(key, |t|) < |t|
    ensures var d, i := Drop(t, key), Index(key, |t|);
      && Add(t, key, value) == d[i := [Entry(key, value)] + d[i]]
      && Size(Add(t, key, value)) == Size(d) + 1
  {
    var d, i := Drop(t, key), Index(key, |t|);
    SizeOfReplaced(d, i, [Entry(key, value)] + d[i]);
  }

  /** The iterator of src/hash.c: a node and the index of its bucket. */
  class HashIterator<V> {
    const table: HashTable<V>
    var entry: HashEntry?<V>
    var index: int
    /** The chains at creation, the place of the node in its chain, and how many keys
        were returned so far. */
    ghost const chains: seq<seq<HashEntry<V>>>
    ghost var pos: nat
    ghost var returned: nat

    /** The table is unchanged, and the iterator is where the count says. */
    ghost predicate Valid()
      reads this, table, table.entries, table.Nodes()
    {
      && table.Shaped() && table.chains == chains
      && -1 <= index < |chains|
      && if index < 0 then entry == null && returned == 0
         else
          && pos < |chains[index]| && entry == chains[index][pos]
          && returned == Rank(Tabled(chains), index, pos)
          && (index == |chains| - 1 ==> pos == 0)
    }

    constructor (table: HashTable<V>)
      requires table.Valid()
      ensures Valid() && this.table == table && returned == 0 && chains == table.chains
    {
      this.table := table;
      entry, index := null, -1;
      chains := table.chains;
      returned := 0;
    }

    /** `hash_iter_next`: the next of the enumerated keys, then NULL for good. */
    method Next() returns (key: Option<string>)
      requires Valid()
      modifies this
      ensures Valid()
      ensures var all := Enumerated(Tabled(chains));
        if old(returned) < |all| then key == Some(all[old(returned)]) && returned == old(returned) + 1
        else key == None && returned == old(returned)
    {
      hide Size, Tabled, Values, Enumerated, Rank, WellFormed, Linked;
      var entry', i, place := Advance();
      if entry' == null || i >= table.entries.Length {
        key := None;
      } else {
        key := Some(entry'.key);
        entry, pos, returned := entry', place, returned + 1;
      }
    }

    /** The entry after the current one, or the head of the next bucket that has one; i is
        past the last bucket when there is none to return. */
    method Advance() returns (entry': HashEntry?<V>, i: int, ghost place: nat)
      requires Valid()
      modifies this`index
      ensures table.Shaped() && table.chains == chains && i >= 0
      ensures if entry' == null || i >= |chains| then
          index == old(index) && returned == |Enumerated(Tabled(chains))|
        else
          && 0 <= index < |chains| && place < |chains[index]| && entry' == chains[index][place]
          && (index == |chains| - 1 ==> place == 0) && Rank(Tabled(chains), index, place) == returned + 1
          && returned < |Enumerated(Tabled(chains))| && Enumerated(Tabled(chains))[returned] == entry'.key
    {
      hide Size, Tabled, Values, Enumerated, Rank, WellFormed, Linked;
      ghost var t := Tabled(chains);
      BucketsOf(t, chains);
      NotStarted(t, pos);
      entry', i, place := entry, index + 1, pos + 1;
      if entry' != null {
        NextIn(table.entries[index], chains[index], pos);
        entry' := entry'.next;
        if entry' != null && i < table.entries.Length {
          AdvanceInChain(t, index, pos);
        }
      }
      if entry' == null {
        i := SkipEmpty(i);
        if i < table.entries.Length {
          AdvanceToBucket(t, index, pos, i);
          HeadOf(table.entries[i], chains[i]);
          entry' := table.entries[i];
          index, place := i, 0;
        }
      }
      if entry' == null || i >= table.entries.Length {
        NoMoreKeys(t, index, pos);
      }
    }

    /** The loop that looks for the next bucket with a chain. */
    method SkipEmpty(from: int) returns (i: int)
      requires table.Shaped() && table.chains == chains && 0 <= from <= |chains|
      ensures from <= i <= |chains|
      ensures forall b :: from <= b < i ==> chains[b] == []
      ensures i < |chains| ==> chains[i] != []
    {
      i := from;
      while i < table.entries.Length && table.entries[i] == null
        invariant from <= i <= |chains|
        invariant forall b :: from <= b < i ==> chains[b] == []
      {
        assert Linked(table.entries[i], chains[i]);
        i := i + 1;
      }
      assert i < |chains| ==> Linked(table.entries[i], chains[i]);
    }
  }

  lemma {:induction false} NotStarted<V>(t: Table<V>, pos: nat)
    ensures Rank(t, -1, pos) == 0
  {
  }

  lemma {:induction false} NextIn<V>(head: HashEntry?<V>, chain: seq<HashEntry<V>>, pos: nat)
    requires Linked(head, chain) && pos < |chain|
    ensures chain[pos].next == if pos + 1 < |chain| then chain[pos + 1] else null
  {
  }

  lemma {:induction false} HeadOf<V>(head: HashEntry?<V>, chain: seq<HashEntry<V>>)
    requires Linked(head, chain) && chain != []
    ensures head == chain[0]
  {
  }

  lemma {:induction false} BucketsOf<V>(t: Table<V>, chains: seq<seq<HashEntry<V>>>)
    requires t == Tabled(chains)
    ensures |t| == |chains|
    ensures forall i :: 0 <= i < |t| ==> |t[i]| == |chains[i]|
    ensures forall i, j :: 0 <= i < |t| && 0 <= j < |t[i]| ==> t[i][j].key == chains[i][j].key
  {
    assert forall i :: 0 <= i < |t| ==> t[i] == Values(chains[i]);
  }

  lemma {:induction false} SizeStep<V>(t: Table<V>, i: nat)
    requires i < |t|
    ensures Size(t[..i + 1]) == Size(t[..i]) + |t[i]|
  {
    AllKeysAppend(t[..i], [t[i]]);
    assert t[..i] + [t[i]] == t[..i + 1];
    assert [t[i]][1..] == [];
  }

  lemma {:induction false} EmptyBuckets<V>(t: Table<V>, lo: nat, hi: nat)
    requires lo <= hi <= |t| && forall b :: lo <= b < hi ==> t[b] == []
    ensures Size(t[..hi]) == Size(t[..lo])
  {
    if lo < hi {
      EmptyBuckets(t, lo, hi - 1);
      SizeStep(t, hi - 1);
    }
  }

  lemma {:induction false} AllKeysSize<V>(t: Table<V>)
    ensures |AllKeys(t)| == Size(t)
  {
    if t != [] {
      AllKeysSize(t[1..]);
    }
  }

  lemma {:induction false} EnumeratedEnd<V>(t: Table<V>)
    requires |t| > 0
    ensures |Enumerated(t)| == Size(t[..|t| - 1]) + if t[|t| - 1] == [] then 0 else 1
    ensures Size(t) == Size(t[..|t| - 1]) + |t[|t| - 1]|
  {
    AllKeysSize(t[..|t| - 1]);
    SizeStep(t, |t| - 1);
    assert t[..|t|] == t;
  }

  /** Where the key at a position of a bucket comes in the enumeration. */
  lemma {:induction false} EnumeratedAt<V>(t: Table<V>, index: nat, pos: nat)
    requires index < |t| && pos < |t[index]| && (index == |t| - 1 ==> pos == 0)
    ensures Size(t[..index]) + pos < |Enumerated(t)|
    ensures Enumerated(t)[Size(t[..index]) + pos] == t[index][pos].key
  {
    AllKeysSize(t[..index]);
    if index < |t| - 1 {
      AllKeysAppend(t[..index], [t[index]] + t[index + 1..|t| - 1]);
      assert t[..index] + ([t[index]] + t[index + 1..|t| - 1]) == t[..|t| - 1];
      assert ([t[index]] + t[index + 1..|t| - 1])[1..] == t[index + 1..|t| - 1];
    }
  }

  /** How many keys come no later than the one at a position of a bucket. */
  ghost function Rank<V>(t: Table<V>, index: int, pos: nat): nat
    requires index < |t|
  {
    if index < 0 then 0 else Size(t[..index]) + pos + 1
  }

  lemma {:induction false} AdvanceInChain<V>(t: Table<V>, index: nat, pos: nat)
    requires index < |t| - 1 && pos + 1 < |t[index]|
    ensures Rank(t, index, pos + 1) == Rank(t, index, pos) + 1 <= |Enumerated(t)|
    ensures Enumerated(t)[Rank(t, index, pos)] == t[index][pos + 1].key
  {
    EnumeratedAt(t, index, pos + 1);
  }

  /** The place is the start or the end of its chain. */
  ghost predicate ChainDone<V>(t: Table<V>, index: int, pos: nat) {
    -1 <= index < |t| && (index >= 0 ==> pos + 1 == |t[index]|)
  }

  lemma {:induction false} AdvanceToBucket<V>(t: Table<V>, index: int, pos: nat, i: nat)
    requires ChainDone(t, index, pos) && index < i < |t| && t[i] != []
    requires forall b :: index < b < i ==> t[b] == []
    ensures Rank(t, i, 0) == Rank(t, index, pos) + 1 <= |Enumerated(t)|
    ensures Enumerated(t)[Rank(t, index, pos)] == t[i][0].key
  {
    EmptyBuckets(t, index + 1, i);
    EnumeratedAt(t, i, 0);
    if index >= 0 {
      SizeStep(t, index);
    }
  }

  lemma {:induction false} NoMoreKeys<V>(t: Table<V>, index: int, pos: nat)
    requires -1 <= index < |t| && |t| > 0
    requires if index == |t| - 1 then pos == 0 && t[index] != []
      else ChainDone(t, index, pos) && forall b :: index < b < |t| ==> t[b] == []
    ensures Rank(t, index, pos) == |Enumerated(t)|
  {
    EnumeratedEnd(t);
    if index < |t| - 1 {
      EmptyBuckets(t, index + 1, |t| - 1);
      if index >= 0 {
        SizeStep(t, index);
      }
    }
  }
}
