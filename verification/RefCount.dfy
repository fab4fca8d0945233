/** Reference counting of stanzas (src/stanza.c). Memory is a map from addresses to the
    structs that are allocated, so what was freed cannot be used again. */
module RefCounts {

  type Ptr = nat

  const NULL: Ptr := 0

  datatype Cell = Cell(ref: int, parent: Ptr, prev: Ptr, next: Ptr, children: Ptr)

  /** What the memory stands for: the children of each stanza, how many references its
      callers hold, and a rank that shows there is no cycle. */
  datatype Account = Account(kids: map<Ptr, seq<Ptr>>, handles: map<Ptr, nat>, rank: map<Ptr, nat>)

  const Nothing := Account(map[], map[], map[])

  ghost predicate Child(a: Account, q: Ptr, r: Ptr) {
    r in a.kids && q in a.kids[r]
  }

  ghost predicate HasParent(a: Account, q: Ptr) {
    exists r :: Child(a, q, r)
  }

  /** A forest: every child is alive, has one place, and ranks below its parent. */
  ghost predicate Forest(a: Account) {
    && a.handles.Keys == a.kids.Keys && a.kids.Keys <= a.rank.Keys
    && (forall q, r :: Child(a, q, r) ==> q in a.kids && a.rank[q] < a.rank[r])
    && (forall q, r, r' :: Child(a, q, r) && Child(a, q, r') ==> r == r')
    && forall r :: r in a.kids ==> NoRepeats(a.kids[r])
  }

  ghost predicate NoRepeats(s: seq<Ptr>) {
    forall i, j :: 0 <= i < j < |s| ==> s[i] != s[j]
  }

  /** The references there are to a stanza: those of callers, and one of its parent. */
  ghost function Count(a: Account, q: Ptr): nat
    requires q in a.handles
  {
    a.handles[q] + if HasParent(a, q) then 1 else 0
  }

  /** `children` and `next` lead through the list to NULL, and `parent` back. */
  ghost predicate Chained(cells: map<Ptr, Cell>, owner: Ptr, list: seq<Ptr>) {
    && owner in cells && cells[owner].children == First(list)
    && forall i :: 0 <= i < |list| ==> Link(cells, owner, list, i)
  }

  ghost predicate Link(cells: map<Ptr, Cell>, owner: Ptr, list: seq<Ptr>, i: nat)
    requires i < |list|
  {
    && list[i] in cells && list[i] != NULL
    && cells[list[i]].next == After(list, i) && cells[list[i]].parent == owner
  }

  ghost function First(list: seq<Ptr>): Ptr {
    if list == [] then NULL else list[0]
  }

  ghost function After(list: seq<Ptr>, i: nat): Ptr {
    if i + 1 < |list| then list[i + 1] else NULL
  }

  ghost predicate Fits(cells: map<Ptr, Cell>, a: Account, q: Ptr)
    requires q in a.kids && a.handles.Keys == a.kids.Keys
  {
    Chained(cells, q, a.kids[q]) && cells[q].ref == Count(a, q) >= 1
  }

  /** The part of memory the account is about is as it says, and each count is right. */
  ghost predicate Matches(cells: map<Ptr, Cell>, a: Account) {
    Forest(a) && NULL !in cells && forall q :: q in a.kids ==> Fits(cells, a, q)
  }

  // ------------------------------------------------------------------ releasing

  /** References held when one to each member of a set was given up. */
  ghost function Held(a: Account, given: set<Ptr>, q: Ptr): int
    requires q in a.handles
  {
    var held: int := a.handles[q];
    held - if q in given then 1 else 0
  }

  /** From a to b by giving up those references: a stanza is freed exactly when nobody
      holds it any more, neither a caller nor a parent that is left. */
  ghost predicate Released(a: Account, given: set<Ptr>, b: Account) {
    && b.kids.Keys <= a.kids.Keys && b.handles.Keys == b.kids.Keys && b.rank == a.rank && a.handles.Keys == a.kids.Keys
    && (forall q :: q in b.kids ==> b.kids[q] == a.kids[q] && b.handles[q] == Held(a, given, q))
    && forall q :: q in a.kids ==> (q in b.kids <==> Held(a, given, q) > 0 || HasLiveParent(a, b, q))
  }

  ghost predicate HasLiveParent(a: Account, b: Account, q: Ptr) {
    exists r :: r in b.kids && Child(a, q, r)
  }

  lemma {:induction false} ReleaseMore(a: Account, given: set<Ptr>, b: Account, p: Ptr, c: Account)
    requires Released(a, given, b) && p !in given && p in b.kids && Released(b, {p}, c)
    ensures Released(a, given + {p}, c)
  {
    forall q | q in a.kids ensures q in c.kids <==> Held(a, given + {p}, q) > 0 || HasLiveParent(a, c, q) {
      LiveParentToo(a, given, b, p, c, q);
    }
  }

  lemma {:induction false} LiveParentToo(a: Account, given: set<Ptr>, b: Account, p: Ptr, c: Account, q: Ptr)
    requires Released(a, given, b) && p !in given && p in b.kids && Released(b, {p}, c) && q in a.kids
    ensures q in c.kids <==> Held(a, given + {p}, q) > 0 || HasLiveParent(a, c, q)
  {
    if r :| r in c.kids && Child(a, q, r) {
      assert Child(b, q, r);
      assert HasLiveParent(a, b, q) && HasLiveParent(b, c, q);
    }
    if q in b.kids && HasLiveParent(b, c, q) {
      var r :| r in c.kids && Child(b, q, r);
      assert Child(a, q, r);
    }
  }

  /** A stanza on its way out: its children become stanzas of their own, each with one
      more reference to give up. */
  ghost function Detach(a: Account, p: Ptr): Account
    requires p in a.kids && a.handles.Keys == a.kids.Keys
  {
    Account(a.kids - {p}, map q | q in a.kids && q != p :: a.handles[q] + (if q in a.kids[p] then 1 else 0), a.rank)
  }

  lemma {:induction false} DetachedParents(a: Account, p: Ptr, q: Ptr)
    requires Forest(a) && p in a.kids
    ensures HasParent(Detach(a, p), q) <==> HasParent(a, q) && !Child(a, q, p)
  {
    var d := Detach(a, p);
    assert forall r :: Child(d, q, r) <==> Child(a, q, r) && r != p;
    if r :| Child(a, q, r) && !Child(a, q, p) {
      assert Child(d, q, r);
    }
    if r :| Child(d, q, r) {
      assert Child(a, q, r);
    }
  }

  /** The account of the stanzas but one whose last reference is given up. */
  lemma {:induction false} DetachMatches(cells: map<Ptr, Cell>, a: Account, p: Ptr)
    requires Matches(cells, a) && p in a.kids && !HasParent(a, p)
    ensures Matches(cells, Detach(a, p))
  {
    hide HasParent, Chained;
    var d := Detach(a, p);
    assert forall q, r :: Child(d, q, r) ==> Child(a, q, r);
    assert forall q :: q in a.kids[p] ==> Child(a, q, p);
    NoParent(a, p);
    assert Forest(d);
    forall q | q in d.kids ensures Fits(cells, d, q) {
      assert Fits(cells, a, q);
      DetachedParents(a, p, q);
      if Child(a, q, p) {
        SomeParent(a, q, p);
      }
    }
  }

  lemma {:induction false} NoParent(a: Account, q: Ptr)
    requires !HasParent(a, q)
    ensures forall r :: !Child(a, q, r)
  {
  }

  lemma {:induction false} SomeParent(a: Account, q: Ptr, r: Ptr)
    requires Child(a, q, r)
    ensures HasParent(a, q)
  {
  }

  ghost function Fewer(a: Account, p: Ptr): Account
    requires p in a.handles && a.handles[p] >= 1
  {
    a.(handles := a.handles[p := a.handles[p] - 1])
  }

  function WithRef(cells: map<Ptr, Cell>, p: Ptr, ref: int): map<Ptr, Cell>
    requires p in cells
  {
    cells[p := cells[p].(ref := ref)]
  }

  lemma {:induction false} FewerReleased(cells: map<Ptr, Cell>, a: Account, p: Ptr)
    requires Matches(cells, a) && p in a.kids && a.handles[p] >= 1 && cells[p].ref > 1
    ensures Released(a, {p}, Fewer(a, p))
  {
    var b := Fewer(a, p);
    forall q | q in a.kids ensures Held(a, {p}, q) > 0 || HasLiveParent(a, b, q) {
      assert Count(a, q) >= if q == p then 2 else 1;
      if HasParent(a, q) {
        var r :| Child(a, q, r);
        assert r in b.kids;
      }
    }
  }

  /** A struct changed in its count alone. */
  lemma {:induction false} ChainKept(cells: map<Ptr, Cell>, p: Ptr, ref: int, owner: Ptr, list: seq<Ptr>)
    requires Chained(cells, owner, list) && p in cells
    ensures Chained(WithRef(cells, p, ref), owner, list)
  {
    forall i | 0 <= i < |list| ensures Link(WithRef(cells, p, ref), owner, list, i) {
      assert Link(cells, owner, list, i);
    }
  }

  lemma {:induction false} FewerMatches(cells: map<Ptr, Cell>, a: Account, p: Ptr)
    requires Matches(cells, a) && p in a.kids && a.handles[p] >= 1 && cells[p].ref > 1
    ensures Matches(WithRef(cells, p, cells[p].ref - 1), Fewer(a, p))
  {
    var b, after := Fewer(a, p), WithRef(cells, p, cells[p].ref - 1);
    hide HasParent, Chained;
    SameParents(a, b);
    SameForest(a, b);
    forall q | q in b.kids ensures Fits(after, b, q) {
      assert Fits(cells, a, p) && Fits(cells, a, q);
      ChainKept(cells, p, cells[p].ref - 1, q, a.kids[q]);
    }
  }

  lemma {:induction false} SameForest(a: Account, b: Account)
    requires Forest(a) && b.kids == a.kids && b.rank == a.rank && b.handles.Keys == b.kids.Keys
    ensures Forest(b)
  {
    hide HasParent;
    SameParents(a, b);
  }

  lemma {:induction false} SameParents(a: Account, b: Account)
    requires a.kids == b.kids
    ensures forall q, r :: Child(a, q, r) <==> Child(b, q, r)
    ensures forall q :: HasParent(a, q) <==> HasParent(b, q)
  {
    forall q ensures HasParent(a, q) <==> HasParent(b, q) {
      if r :| Child(a, q, r) {
        assert Child(b, q, r);
      }
      if r :| Child(b, q, r) {
        assert Child(a, q, r);
      }
    }
  }

  ghost function Members(s: seq<Ptr>): set<Ptr> {
    set q | q in s
  }

  /** All children of the stanza were released in their turn. */
  lemma {:induction false} ChildrenReleased(a: Account, p: Ptr, e: Account)
    requires Forest(a) && p in a.kids && a.handles[p] == 1 && !HasParent(a, p)
    requires Released(Detach(a, p), Members(a.kids[p]), e)
    ensures Released(a, {p}, e) && p !in e.kids
  {
    var d := Detach(a, p);
    NoParent(a, p);
    forall q | q in a.kids ensures q in e.kids <==> Held(a, {p}, q) > 0 || HasLiveParent(a, e, q) {
      if r :| r in e.kids && Child(a, q, r) {
        assert Child(d, q, r);
      }
      if r :| r in e.kids && Child(d, q, r) {
        assert Child(a, q, r);
      }
    }
  }

  lemma {:induction false} FreedMatches(cells: map<Ptr, Cell>, e: Account, p: Ptr)
    requires Matches(cells, e) && p !in e.kids
    ensures Matches(cells - {p}, e)
  {
    hide HasParent, Chained;
    forall q | q in e.kids ensures Fits(cells - {p}, e, q) {
      assert Fits(cells, e, q);
      assert forall c :: c in e.kids[q] ==> Child(e, c, q);
      ChainWithout(cells, p, q, e.kids[q]);
    }
  }

  lemma {:induction false} ChainWithout(cells: map<Ptr, Cell>, p: Ptr, owner: Ptr, list: seq<Ptr>)
    requires Chained(cells, owner, list) && p != owner && p !in list
    ensures Chained(cells - {p}, owner, list)
  {
    forall i | 0 <= i < |list| ensures Link(cells - {p}, owner, list, i) {
      assert Link(cells, owner, list, i);
    }
  }

  // ------------------------------------------------- the children, one by one

  /** What releasing leaves alone: structs the account is not about, and stanzas without
      a parent other than the one released. */
  ghost predicate Untouched(before: map<Ptr, Cell>, a: Account, p: Ptr, after: map<Ptr, Cell>) {
    forall q :: q in before && q != p && (q !in a.kids || !HasParent(a, q)) ==> q in after && after[q] == before[q]
  }

  ghost predicate FreedOnly(before: map<Ptr, Cell>, a: Account, after: map<Ptr, Cell>, b: Account) {
    after.Keys == before.Keys - (a.kids.Keys - b.kids.Keys)
  }

  /** A stanza that can be released as one of its own, with the link to the next one. */
  ghost predicate Ready(cells: map<Ptr, Cell>, a: Account, list: seq<Ptr>, j: nat)
    requires j < |list|
  {
    var q := list[j];
    && q in a.kids && q in a.handles && a.handles[q] >= 1 && !HasParent(a, q)
    && q in cells && q != NULL && cells[q].next == After(list, j)
  }

  ghost predicate Waiting(cells: map<Ptr, Cell>, a: Account, list: seq<Ptr>, i: nat) {
    i <= |list| && NoRepeats(list) && forall j :: i <= j < |list| ==> Ready(cells, a, list, j)
  }

  lemma {:induction false} AllWait(cells: map<Ptr, Cell>, a: Account, p: Ptr)
    requires Matches(cells, a) && p in a.kids && !HasParent(a, p)
    ensures Waiting(cells, Detach(a, p), a.kids[p], 0)
  {
    hide HasParent;
    var list := a.kids[p];
    assert Fits(cells, a, p);
    NoParent(a, p);
    forall j | 0 <= j < |list| ensures Ready(cells, Detach(a, p), list, j) {
      assert Link(cells, p, list, j) && Child(a, list[j], p);
      DetachedParents(a, p, list[j]);
    }
  }

  lemma {:induction false} OrphanStays(a: Account, p: Ptr, b: Account, q: Ptr)
    requires Released(a, {p}, b) && q != p && q in a.kids && a.handles[q] >= 1 && !HasParent(a, q)
    ensures q in b.kids && q in b.handles && b.handles[q] >= 1 && !HasParent(b, q)
  {
    NoParent(a, q);
    assert forall r :: Child(b, q, r) ==> Child(a, q, r);
  }

  lemma {:induction false} OneLessWaits(cells: map<Ptr, Cell>, a: Account, list: seq<Ptr>, i: nat, after: map<Ptr, Cell>, b: Account)
    requires Waiting(cells, a, list, i) && i < |list|
    requires Released(a, {list[i]}, b) && Untouched(cells, a, list[i], after)
    ensures Waiting(after, b, list, i + 1)
  {
    hide HasParent, Released, Untouched;
    forall j | i + 1 <= j < |list| ensures Ready(after, b, list, j) {
      assert Ready(cells, a, list, j) && list[i] != list[j];
      UntouchedIs(cells, a, list[i], after, list[j]);
      OrphanStays(a, list[i], b, list[j]);
    }
  }

  lemma {:induction false} UntouchedIs(before: map<Ptr, Cell>, a: Account, p: Ptr, after: map<Ptr, Cell>, q: Ptr)
    requires Untouched(before, a, p, after)
    ensures q in before && q != p && (q !in a.kids || !HasParent(a, q)) ==> q in after && after[q] == before[q]
  {
  }

  /** Some of the stanzas are gone, and the others have the same children. */
  ghost predicate Within(b: Account, a: Account) {
    b.kids.Keys <= a.kids.Keys && forall q :: q in b.kids ==> b.kids[q] == a.kids[q]
  }

  lemma {:induction false} StillUntouched(c0: map<Ptr, Cell>, a: Account, p: Ptr, c1: map<Ptr, Cell>, b: Account, t: Ptr, c2: map<Ptr, Cell>)
    requires Untouched(c0, a, p, c1) && Within(b, a) && t in a.kids && HasParent(a, t) && Untouched(c1, b, t, c2)
    ensures Untouched(c0, a, p, c2)
  {
    hide HasParent, Within;
    forall q | q in c0 && q != p && (q !in a.kids || !HasParent(a, q)) ensures q in c2 && c2[q] == c0[q] {
      UntouchedIs(c0, a, p, c1, q);
      UntouchedIs(c1, b, t, c2, q);
      FewerParents(b, a, q);
    }
  }

  lemma {:induction false} FewerParents(b: Account, a: Account, q: Ptr)
    requires Within(b, a)
    ensures HasParent(b, q) ==> HasParent(a, q)
    ensures q in b.kids ==> q in a.kids
  {
    if r :| Child(b, q, r) {
      assert Child(a, q, r);
    }
  }

  lemma {:induction false} WithinReleased(a: Account, given: set<Ptr>, b: Account, top: Account)
    requires Released(a, given, b) && Within(a, top)
    ensures Within(b, top) && |b.kids| <= |a.kids|
  {
    SmallerMap(b.kids, a.kids);
  }

  lemma {:induction false} SmallerMap(b: map<Ptr, seq<Ptr>>, a: map<Ptr, seq<Ptr>>)
    requires b.Keys <= a.Keys
    ensures |b| <= |a|
  {
    FewerElements(b.Keys, a.Keys);
  }

  lemma {:induction false} FewerElements(b: set<Ptr>, a: set<Ptr>)
    requires b <= a
    ensures |b| <= |a|
  {
    assert a == b + (a - b);
  }

  lemma {:induction false} DetachedIsLess(a: Account, p: Ptr)
    requires p in a.kids && a.handles.Keys == a.kids.Keys
    ensures Within(Detach(a, p), a) && |Detach(a, p).kids| < |a.kids|
  {
    assert a.kids == Detach(a, p).kids[p := a.kids[p]];
  }

  lemma {:induction false} FreedMore(c0: map<Ptr, Cell>, a: Account, c1: map<Ptr, Cell>, b: Account, c2: map<Ptr, Cell>, c: Account)
    requires FreedOnly(c0, a, c1, b) && FreedOnly(c1, b, c2, c) && c.kids.Keys <= b.kids.Keys <= a.kids.Keys
    ensures FreedOnly(c0, a, c2, c)
  {
  }

  lemma {:induction false} FreedItself(c0: map<Ptr, Cell>, a: Account, p: Ptr, c1: map<Ptr, Cell>, e: Account)
    requires p in a.kids && a.handles.Keys == a.kids.Keys && p !in e.kids && FreedOnly(c0, Detach(a, p), c1, e)
    ensures FreedOnly(c0, a, c1 - {p}, e)
  {
  }

  lemma {:induction false} NothingReleased(a: Account)
    requires Forest(a) && forall q :: q in a.kids ==> Count(a, q) >= 1
    ensures Released(a, {}, a)
  {
    forall q | q in a.kids ensures Held(a, {}, q) > 0 || HasLiveParent(a, a, q) {
      assert Count(a, q) >= 1;
      if r :| Child(a, q, r) {
        assert r in a.kids;
      }
    }
  }

  lemma {:induction false} CountsPositive(cells: map<Ptr, Cell>, a: Account)
    requires Matches(cells, a)
    ensures Forest(a) && forall q :: q in a.kids ==> Count(a, q) >= 1 && Fits(cells, a, q)
  {
    hide Count;
    forall q | q in a.kids ensures Count(a, q) >= 1 && Fits(cells, a, q) {
      assert Fits(cells, a, q);
    }
  }

  lemma {:induction false} MembersGrow(list: seq<Ptr>, i: nat)
    requires i < |list| && NoRepeats(list)
    ensures Members(list[..i + 1]) == Members(list[..i]) + {list[i]} && list[i] !in Members(list[..i])
    ensures list[..|list|] == list && Members(list[..0]) == {}
  {
    assert list[..i + 1] == list[..i] + [list[i]];
  }

  lemma {:induction false} ReadyIs(cells: map<Ptr, Cell>, a: Account, list: seq<Ptr>, i: nat)
    requires Waiting(cells, a, list, i) && i < |list|
    ensures var q := list[i];
      && q in a.kids && q in a.handles && a.handles[q] >= 1 && !HasParent(a, q)
      && q in cells && q != NULL && cells[q].next == After(list, i) && NoRepeats(list)
  {
    hide HasParent, NoRepeats;
    assert Ready(cells, a, list, i);
  }

  lemma {:induction false} LastReference(cells: map<Ptr, Cell>, a: Account, p: Ptr)
    requires Matches(cells, a) && p in a.kids && a.handles[p] >= 1
    ensures p in cells && Forest(a) && NoRepeats(a.kids[p]) && a.handles.Keys == a.kids.Keys
    ensures cells[p].ref <= 1 ==> a.handles[p] == 1 && !HasParent(a, p)
    ensures cells[p].children == First(a.kids[p])
    ensures forall q :: q in a.kids[p] ==> q in a.kids && HasParent(a, q)
  {
    hide HasParent;
    assert Fits(cells, a, p);
    forall q | q in a.kids[p] ensures q in a.kids && HasParent(a, q) {
      assert Child(a, q, p);
      SomeParent(a, q, p);
    }
  }

  lemma {:induction false} Start(cells: map<Ptr, Cell>, a: Account, p: Ptr)
    ensures Untouched(cells, a, p, cells) && FreedOnly(cells, a, cells, a)
  {
  }

  lemma {:induction false} Freed(c0: map<Ptr, Cell>, a: Account, p: Ptr, c1: map<Ptr, Cell>)
    requires Untouched(c0, a, p, c1)
    ensures Untouched(c0, a, p, c1 - {p})
  {
  }

  lemma {:induction false} Recounted(cells: map<Ptr, Cell>, a: Account, p: Ptr, ref: int)
    requires p in cells && p in a.handles && a.handles[p] >= 1
    ensures Untouched(cells, a, p, WithRef(cells, p, ref)) && FreedOnly(cells, a, WithRef(cells, p, ref), Fewer(a, p))
    ensures Fewer(a, p).kids == a.kids
  {
  }

  lemma {:induction false} ReleasedKeys(a: Account, given: set<Ptr>, b: Account)
    requires Released(a, given, b)
    ensures b.kids.Keys <= a.kids.Keys
  {
  }

  ghost function At(list: seq<Ptr>, i: nat): Ptr {
    if i < |list| then list[i] else NULL
  }

  lemma {:induction false} NotAtEnd(list: seq<Ptr>, i: nat)
    ensures At(list, i) != NULL ==> i < |list| && At(list, i) == list[i]
  {
  }

  lemma {:induction false} AfterIsAt(list: seq<Ptr>, i: nat)
    ensures After(list, i) == At(list, i + 1) && First(list) == At(list, 0)
  {
  }

  lemma {:induction false} WaitingEnds(cells: map<Ptr, Cell>, a: Account, list: seq<Ptr>, i: nat)
    requires Waiting(cells, a, list, i) && At(list, i) == NULL
    ensures i == |list| && list[..i] == list
  {
    assert i < |list| ==> Ready(cells, a, list, i);
  }

  lemma {:induction false} MembersEnds(list: seq<Ptr>)
    ensures Members(list[..0]) == {}
  {
  }

  lemma {:induction false} DetachKeys(a: Account, p: Ptr)
    requires p in a.kids && a.handles.Keys == a.kids.Keys
    ensures p !in Detach(a, p).kids
  {
  }

  class Memory {
    var cells: map<Ptr, Cell>
    ghost var account: Account

    /** The account is about every struct there is. */
    ghost predicate Valid()
      reads this
    {
      Matches(cells, account) && account.kids.Keys == cells.Keys
    }

    constructor ()
      ensures Valid() && account == Nothing
    {
      cells, account := map[], Nothing;
    }

    /** `xmpp_stanza_release`. */
    method Release(p: Ptr) returns (released: bool)
      requires Matches(cells, account) && p in account.kids && account.handles[p] >= 1
      modifies this
      ensures Matches(cells, account) && Released(old(account), {p}, account)
      ensures released <==> p !in account.kids
      ensures Untouched(old(cells), old(account), p, cells)
      ensures FreedOnly(old(cells), old(account), cells, account)
      ensures old(account.kids.Keys == cells.Keys) ==> account.kids.Keys == cells.Keys
      decreases |account.kids|
    {
      hide *;
      ghost var before, a := cells, account;
      LastReference(cells, a, p);
      if cells[p].ref > 1 {
        FewerReleased(cells, a, p);
        FewerMatches(cells, a, p);
        Recounted(cells, a, p, cells[p].ref - 1);
        cells := WithRef(cells, p, cells[p].ref - 1);
        account := Fewer(account, p);
        KeysFollow(before, a, cells, account);
        return false;
      }
      ghost var list := a.kids[p];
      released := true;
      DetachMatches(cells, a, p);
      AllWait(cells, a, p);
      DetachedIsLess(a, p);
      ghost var d := Detach(a, p);
      account := d;
      Start(cells, a, p);
      Start(cells, d, p);
      CountsPositive(cells, d);
      NothingReleased(d);
      MembersEnds(list);
      DetachKeys(a, p);
      AfterIsAt(list, 0);
      var child := cells[p].children;
      ghost var i := 0;
      while child != NULL
        invariant i <= |list| && child == At(list, i)
        invariant Matches(cells, account) && Released(d, Members(list[..i]), account)
        invariant Within(account, a) && |account.kids| < |a.kids|
        invariant Waiting(cells, account, list, i)
        invariant p in cells && p !in account.kids && account.kids.Keys <= d.kids.Keys
        invariant Untouched(before, a, p, cells) && FreedOnly(before, d, cells, account)
        decreases |list| - i
      {
        ghost var c1, b := cells, account;
        NotAtEnd(list, i);
        ReadyIs(c1, b, list, i);
        var tchild := child;
        child := cells[child].next;
        var _ := Release(tchild);
        OneLessWaits(c1, b, list, i, cells, account);
        MembersGrow(list, i);
        ReleaseMore(d, Members(list[..i]), b, tchild, account);
        StillUntouched(before, a, p, c1, b, tchild, cells);
        UntouchedIs(c1, b, tchild, cells, p);
        ReleasedKeys(b, {tchild}, account);
        FreedMore(before, d, c1, b, cells, account);
        WithinReleased(b, {tchild}, account, a);
        AfterIsAt(list, i);
        i := i + 1;
      }
      WaitingEnds(cells, account, list, i);
      ChildrenReleased(a, p, account);
      FreedMatches(cells, account, p);
      FreedItself(before, a, p, cells, account);
      Freed(before, a, p, cells);
      cells := cells - {p};
      ReleasedKeys(a, {p}, account);
      KeysFollow(before, a, cells, account);
    }

    /** `xmpp_stanza_new`, at the address the allocator gave. */
    method New(p: Ptr)
      requires Valid() && p != NULL && p !in cells
      modifies this
      ensures Valid() && account == Grown(old(account), p)
    {
      hide *;
      ValidIs();
      GrownMatches(cells, account, p);
      cells := cells[p := Cell(1, NULL, NULL, NULL, NULL)];
      account := Grown(account, p);
      IsValid();
    }

    /** `xmpp_stanza_clone`. */
    method Clone(p: Ptr)
      requires Valid() && p in cells
      modifies this
      ensures Valid() && account == More(old(account), p)
    {
      hide *;
      ValidIs();
      MoreMatches(cells, account, p);
      cells := WithRef(cells, p, cells[p].ref + 1);
      account := More(account, p);
      IsValid();
    }

    /** `xmpp_stanza_add_child`. The memory stands for stanzas afterwards just when the child
        could be added. */
    method AddChild(stanza: Ptr, child: Ptr)
      requires Valid() && stanza in cells && child in cells
      modifies this
      ensures var a := old(account);
        && stanza in a.kids && (Last(a.kids[stanza]) != NULL ==> Last(a.kids[stanza]) in old(cells))
        && cells == LinkedIn(old(cells), stanza, child, Last(a.kids[stanza])) && account.handles == a.handles
        && (Valid() <==> Addable(old(cells), a, stanza, child))
        && (Valid() ==> account.kids == a.kids[stanza := a.kids[stanza] + [child]])
    {
      hide *;
      ValidIs();
      ghost var before, a, list := cells, account, account.kids[stanza];
      ChainFacts(cells, a, stanza);
      LinkedKeys(cells, stanza, child, Last(list));
      cells := cells[child := cells[child].(ref := cells[child].ref + 1, parent := stanza)];
      ghost var counted := cells;
      var s := NULL;
      if cells[stanza].children == NULL {
        cells := cells[stanza := cells[stanza].(children := child)];
      } else {
        s := cells[stanza].children;
        ghost var i := 0;
        LastIs(list, 0);
        while cells[s].next != NULL
          invariant account == a && cells == counted && i < |list| && s == list[i] && s in cells && cells[s].next == After(list, i)
          decreases |list| - i
        {
          LastIs(list, i);
          s := cells[s].next;
          i := i + 1;
        }
        LastIs(list, i);
        cells := cells[s := cells[s].(next := child)];
        cells := cells[child := cells[child].(prev := s)];
      }
      LinkedInIs(before, stanza, child, s);
      AddKeepsIff(before, a, stanza, child);
      if Addable(before, a, stanza, child) {
        ghost var below := AddableBelow(before, a, stanza, child);
        JoinedMatches(before, a, stanza, child, below);
        JoinedKids(a, stanza, child, below);
        account := Joined(a, stanza, child, below);
        IsValid();
      } else if Valid() {
        ValidIs();
        StandsWhen(cells, account);
        assert false;
      }
    }

    lemma {:induction false} ValidIs()
      requires Valid()
      ensures Matches(cells, account) && account.kids.Keys == account.handles.Keys == cells.Keys && NULL !in cells
      ensures forall q :: q in cells ==> q in account.kids
    {
      hide Fits;
    }

    lemma {:induction false} IsValid()
      requires Matches(cells, account) && account.kids.Keys == cells.Keys
      ensures Valid()
    {
    }
  }

  ghost function Grown(a: Account, p: Ptr): Account {
    Account(a.kids[p := []], a.handles[p := 1], a.rank[p := 0])
  }

  ghost function More(a: Account, p: Ptr): Account
    requires p in a.handles
  {
    a.(handles := a.handles[p := a.handles[p] + 1])
  }

  lemma {:induction false} GrownMatches(cells: map<Ptr, Cell>, a: Account, p: Ptr)
    requires Matches(cells, a) && a.kids.Keys == cells.Keys && p != NULL && p !in cells
    ensures var after := cells[p := Cell(1, NULL, NULL, NULL, NULL)];
      Matches(after, Grown(a, p)) && Grown(a, p).kids.Keys == after.Keys
  {
    hide HasParent, Chained;
    var b, after := Grown(a, p), cells[p := Cell(1, NULL, NULL, NULL, NULL)];
    assert forall q, r :: Child(a, q, r) ==> q != p && r != p;
    assert forall q, r :: Child(b, q, r) <==> Child(a, q, r);
    assert Forest(b);
    forall q | q in b.kids ensures Fits(after, b, q) {
      SameParentsAt(a, b, q);
      if q == p {
        NoChain(after, p);
        NotChild(a, p);
      } else {
        assert Fits(cells, a, q);
        assert forall c :: c in a.kids[q] ==> Child(a, c, q);
        ChainIn(cells, after, q, a.kids[q]);
      }
    }
  }

  lemma {:induction false} NotChild(a: Account, p: Ptr)
    requires Forest(a) && p !in a.kids
    ensures !HasParent(a, p)
  {
  }

  lemma {:induction false} NoChain(cells: map<Ptr, Cell>, p: Ptr)
    requires p in cells && cells[p].children == NULL
    ensures Chained(cells, p, [])
  {
  }

  lemma {:induction false} SameParentsAt(a: Account, b: Account, q: Ptr)
    requires forall r :: Child(b, q, r) <==> Child(a, q, r)
    ensures HasParent(b, q) <==> HasParent(a, q)
  {
    if r :| Child(a, q, r) {
      assert Child(b, q, r);
    }
    if r :| Child(b, q, r) {
      assert Child(a, q, r);
    }
  }

  /** A chain stays when its own structs do, but for their counts. */
  lemma {:induction false} ChainIn(cells: map<Ptr, Cell>, after: map<Ptr, Cell>, owner: Ptr, list: seq<Ptr>)
    requires Chained(cells, owner, list) && owner in after && after[owner].children == cells[owner].children
    requires forall c :: c in list && c in cells ==>
      c in after && after[c].next == cells[c].next && after[c].parent == cells[c].parent
    ensures Chained(after, owner, list)
  {
    forall i | 0 <= i < |list| ensures Link(after, owner, list, i) {
      assert Link(cells, owner, list, i) && list[i] in list;
    }
  }

  lemma {:induction false} MoreMatches(cells: map<Ptr, Cell>, a: Account, p: Ptr)
    requires Matches(cells, a) && a.kids.Keys == cells.Keys && p in cells
    ensures Matches(WithRef(cells, p, cells[p].ref + 1), More(a, p))
    ensures More(a, p).kids.Keys == WithRef(cells, p, cells[p].ref + 1).Keys
  {
    var b, after := More(a, p), WithRef(cells, p, cells[p].ref + 1);
    hide Fits, Forest;
    SameForest(a, b);
    forall q | q in b.kids ensures Fits(after, b, q) {
      assert Fits(cells, a, q);
      MoreFits(cells, a, p, q);
    }
  }

  lemma {:induction false} MoreFits(cells: map<Ptr, Cell>, a: Account, p: Ptr, q: Ptr)
    requires a.handles.Keys == a.kids.Keys == cells.Keys && p in cells && q in cells && Fits(cells, a, q)
    ensures Fits(WithRef(cells, p, cells[p].ref + 1), More(a, p), q)
  {
    hide HasParent, Chained;
    SameParents(a, More(a, p));
    ChainKept(cells, p, cells[p].ref + 1, q, a.kids[q]);
  }

  // -------------------------------------------------------------------- leaks

  lemma {:induction false} HighestRank(s: set<Ptr>, rank: map<Ptr, nat>) returns (top: Ptr)
    requires s != {} && s <= rank.Keys
    ensures top in s && forall q :: q in s ==> rank[q] <= rank[top]
  {
    top :| top in s;
    var rest := s - {top};
    if rest != {} {
      var t := HighestRank(rest, rank);
      assert forall q :: q in s ==> q == top || q in rest;
      if rank[top] < rank[t] {
        top := t;
      }
    } else {
      assert forall q :: q in s && q != top ==> q in rest;
    }
  }

  lemma {:induction false} TopHasNoParent(a: Account, top: Ptr)
    requires Forest(a) && top in a.kids && forall q :: q in a.kids ==> a.rank[q] <= a.rank[top]
    ensures !HasParent(a, top) && Count(a, top) == a.handles[top]
  {
  }

  /** When callers have given up all their references, nothing is left. */
  lemma {:induction false} AllReleased(cells: map<Ptr, Cell>, a: Account)
    requires Matches(cells, a) && forall q :: q in a.handles ==> a.handles[q] == 0
    ensures a.kids.Keys == {}
  {
    CountsPositive(cells, a);
    hide Fits, HasParent;
    if a.kids.Keys != {} {
      var top := HighestRank(a.kids.Keys, a.rank);
      TopHasNoParent(a, top);
    }
  }

  // ---------------------------------------------------------------- adding a child

  ghost predicate Below(a: Account, child: Ptr, below: set<Ptr>) {
    child in below && forall q, r :: Child(a, q, r) && r in below ==> q in below
  }

  /** The child becomes the last of the stanza's children; ranks above it move up. */
  ghost function Joined(a: Account, stanza: Ptr, child: Ptr, below: set<Ptr>): Account
    requires stanza in a.kids && child in a.rank
  {
    Account(a.kids[stanza := a.kids[stanza] + [child]], a.handles,
      map q | q in a.rank :: if q in below then a.rank[q] else a.rank[q] + a.rank[child] + 1)
  }

  lemma {:induction false} JoinedChildren(a: Account, stanza: Ptr, child: Ptr, below: set<Ptr>)
    requires stanza in a.kids && child in a.rank
    ensures forall q, r :: Child(Joined(a, stanza, child, below), q, r) <==> Child(a, q, r) || (q == child && r == stanza)
  {
  }

  lemma {:induction false} JoinedForest(a: Account, stanza: Ptr, child: Ptr, below: set<Ptr>)
    requires Forest(a) && stanza in a.kids && child in a.kids && !HasParent(a, child)
    requires Below(a, child, below) && stanza !in below
    ensures Forest(Joined(a, stanza, child, below))
  {
    hide HasParent;
    var b := Joined(a, stanza, child, below);
    NoParent(a, child);
    JoinedChildren(a, stanza, child, below);
    assert !Child(a, child, stanza);
    assert NoRepeats(b.kids[stanza]);
  }

  /** Memory with the child linked in: as the only child, or after the last one. */
  function LinkedIn(cells: map<Ptr, Cell>, stanza: Ptr, child: Ptr, last: Ptr): map<Ptr, Cell>
    requires stanza in cells && child in cells && (last != NULL ==> last in cells)
  {
    var c := cells[child := cells[child].(ref := cells[child].ref + 1, parent := stanza)];
    if last == NULL then c[stanza := c[stanza].(children := child)]
    else
      var d := c[last := c[last].(next := child)];
      d[child := d[child].(prev := last)]
  }

  ghost function Last(list: seq<Ptr>): Ptr {
    if list == [] then NULL else list[|list| - 1]
  }

  lemma {:induction false} LongerChain(cells: map<Ptr, Cell>, stanza: Ptr, child: Ptr, list: seq<Ptr>)
    requires Chained(cells, stanza, list) && NoRepeats(list) && child !in list && child != stanza && stanza !in list
    requires child in cells && child != NULL && cells[child].next == NULL && (list != [] ==> Last(list) in cells)
    ensures Chained(LinkedIn(cells, stanza, child, Last(list)), stanza, list + [child])
  {
    var after := LinkedIn(cells, stanza, child, Last(list));
    assert list != [] ==> Link(cells, stanza, list, |list| - 1);
    forall i | 0 <= i < |list| + 1 ensures Link(after, stanza, list + [child], i) {
      if i < |list| {
        assert Link(cells, stanza, list, i);
      }
    }
  }

  lemma {:induction false} LinkedElsewhere(cells: map<Ptr, Cell>, stanza: Ptr, child: Ptr, last: Ptr, q: Ptr)
    requires stanza in cells && child in cells && (last != NULL ==> last in cells) && q in cells && child != stanza
    ensures var after := LinkedIn(cells, stanza, child, last);
      && q in after && after[q].ref == cells[q].ref + (if q == child then 1 else 0)
      && (q != stanza ==> after[q].children == cells[q].children)
      && (q != child && q != last ==> after[q].next == cells[q].next && after[q].parent == cells[q].parent)
      && after.Keys == cells.Keys
  {
  }

  lemma {:induction false} JoinedMatches(cells: map<Ptr, Cell>, a: Account, stanza: Ptr, child: Ptr, below: set<Ptr>)
    requires Matches(cells, a) && stanza in a.kids && child in a.kids && !HasParent(a, child)
    requires Below(a, child, below) && stanza !in below && cells[child].next == NULL
    requires stanza in cells && child in cells && (a.kids[stanza] != [] ==> Last(a.kids[stanza]) in cells)
    ensures Matches(LinkedIn(cells, stanza, child, Last(a.kids[stanza])), Joined(a, stanza, child, below))
  {
    hide HasParent, Chained, LinkedIn, Forest;
    ForestKeys(a);
    var list, b := a.kids[stanza], Joined(a, stanza, child, below);
    JoinedForest(a, stanza, child, below);
    ForestKeys(b);
    var after := LinkedIn(cells, stanza, child, Last(list));
    LinkedElsewhere(cells, stanza, child, Last(list), child);
    forall q | q in b.kids ensures Fits(after, b, q) {
      JoinedFits(cells, a, stanza, child, below, q);
    }
  }

  /** The child has no parent and no `next` link, and the stanza is not below it. */
  ghost predicate Addable(cells: map<Ptr, Cell>, a: Account, stanza: Ptr, child: Ptr)
    requires child in cells
  {
    !HasParent(a, child) && cells[child].next == NULL && exists below :: Below(a, child, below) && stanza !in below
  }

  lemma {:induction false} AddableBelow(cells: map<Ptr, Cell>, a: Account, stanza: Ptr, child: Ptr) returns (below: set<Ptr>)
    requires child in cells && Addable(cells, a, stanza, child)
    ensures !HasParent(a, child) && cells[child].next == NULL && Below(a, child, below) && stanza !in below
  {
    hide HasParent, Below;
    below :| Below(a, child, below) && stanza !in below;
  }

  /** The memory stands for stanzas of which callers hold what they held. */
  ghost predicate Stands(cells: map<Ptr, Cell>, handles: map<Ptr, nat>) {
    exists b :: Matches(cells, b) && b.kids.Keys == cells.Keys && b.handles == handles
  }

  lemma {:induction false} StandsWhen(cells: map<Ptr, Cell>, b: Account)
    requires Matches(cells, b) && b.kids.Keys == cells.Keys
    ensures Stands(cells, b.handles)
  {
    hide Matches;
  }

  /** Whatever stanza is added as a child: the memory stands for stanzas afterwards if and
      only if it has no parent, no `next` link that was left over, and nothing above it is
      added to it. */
  lemma {:induction false} AddKeepsIff(cells: map<Ptr, Cell>, a: Account, stanza: Ptr, child: Ptr)
    requires Matches(cells, a) && a.kids.Keys == cells.Keys && stanza in cells && child in cells
    requires Last(a.kids[stanza]) != NULL ==> Last(a.kids[stanza]) in cells
    ensures Stands(LinkedIn(cells, stanza, child, Last(a.kids[stanza])), a.handles) <==> Addable(cells, a, stanza, child)
  {
    hide *;
    var last := Last(a.kids[stanza]);
    var after := LinkedIn(cells, stanza, child, last);
    LinkedKeys(cells, stanza, child, last);
    ChainFacts(cells, a, stanza);
    if Addable(cells, a, stanza, child) {
      var below := AddableBelow(cells, a, stanza, child);
      JoinedMatches(cells, a, stanza, child, below);
      JoinedKids(a, stanza, child, below);
      StandsWhen(after, Joined(a, stanza, child, below));
    }
    if Stands(after, a.handles) {
      var b := StandsFor(after, a.handles);
      ChainFacts(after, b, stanza);
      AddedFirst(cells, a, stanza, child, b);
      OthersKeep(cells, a, stanza, child, b);
      HadNoParent(a, stanza, child, b);
      HadNoNext(cells, a, stanza, child, b);
      HadNotBelow(a, stanza, child, b);
      IsAddable(cells, a, stanza, child, LowerThan(b, stanza));
    }
  }

  lemma {:induction false} StandsFor(cells: map<Ptr, Cell>, handles: map<Ptr, nat>) returns (b: Account)
    requires Stands(cells, handles)
    ensures Matches(cells, b) && b.kids.Keys == cells.Keys && b.handles == handles
  {
    hide Matches;
    b :| Matches(cells, b) && b.kids.Keys == cells.Keys && b.handles == handles;
  }

  lemma {:induction false} IsAddable(cells: map<Ptr, Cell>, a: Account, stanza: Ptr, child: Ptr, below: set<Ptr>)
    requires child in cells && !HasParent(a, child) && cells[child].next == NULL && Below(a, child, below) && stanza !in below
    ensures Addable(cells, a, stanza, child)
  {
    hide HasParent, Below;
  }

  /** The links lead through x from `first` on, and then on to somewhere. */
  ghost predicate Leads(cells: map<Ptr, Cell>, first: Ptr, x: seq<Ptr>) {
    && x != [] && first == x[0] && NULL !in x
    && forall j :: 0 <= j < |x| - 1 ==> x[j] in cells && cells[x[j]].next == x[j + 1]
  }

  lemma {:induction false} LedThrough(cells: map<Ptr, Cell>, owner: Ptr, x: seq<Ptr>, y: seq<Ptr>)
    requires Chained(cells, owner, y) && owner in cells && Leads(cells, cells[owner].children, x)
    ensures x <= y
  {
    if |x| == 1 {
      assert y[0] == x[0];
    } else {
      var n := |x| - 1;
      LedThrough(cells, owner, x[..n], y);
      assert Link(cells, owner, y, n - 1);
      assert y[n - 1] == x[n - 1] && cells[x[n - 1]].next == x[n];
    }
  }

  /** Links that end in NULL. */
  lemma {:induction false} LedToEnd(cells: map<Ptr, Cell>, owner: Ptr, x: seq<Ptr>, y: seq<Ptr>)
    requires Chained(cells, owner, y) && owner in cells && cells[owner].children == First(x) && NULL !in x
    requires forall j :: 0 <= j < |x| ==> x[j] in cells && cells[x[j]].next == After(x, j)
    ensures x == y
  {
    ChainsNoNull(cells, owner, y);
    if x != [] {
      var n := |x|;
      LedThrough(cells, owner, x, y);
      assert Link(cells, owner, y, n - 1) && y[n - 1] == x[n - 1];
    }
  }

  lemma {:induction false} ChainsNoNull(cells: map<Ptr, Cell>, owner: Ptr, list: seq<Ptr>)
    requires Chained(cells, owner, list)
    ensures NULL !in list
  {
    forall i | 0 <= i < |list| ensures list[i] != NULL {
      assert Link(cells, owner, list, i);
    }
  }

  lemma {:induction false} LinkedNext(cells: map<Ptr, Cell>, stanza: Ptr, child: Ptr, last: Ptr, q: Ptr)
    requires stanza in cells && child in cells && (last != NULL ==> last in cells) && q in cells && NULL !in cells
    ensures var after := LinkedIn(cells, stanza, child, last);
      && q in after && after[q].next == (if q == last then child else cells[q].next)
      && after[q].children == (if q == stanza && last == NULL then child else cells[q].children)
      && after[q].ref == cells[q].ref + (if q == child then 1 else 0)
  {
  }

  /** After the children that were there comes the new one. */
  lemma {:induction false} AddedFirst(cells: map<Ptr, Cell>, a: Account, stanza: Ptr, child: Ptr, b: Account)
    requires Matches(cells, a) && a.kids.Keys == cells.Keys && stanza in cells && child in cells
    requires Last(a.kids[stanza]) != NULL ==> Last(a.kids[stanza]) in cells
    requires Matches(LinkedIn(cells, stanza, child, Last(a.kids[stanza])), b) && b.kids.Keys == cells.Keys
    ensures a.kids[stanza] + [child] <= b.kids[stanza] && child !in a.kids[stanza] && Child(b, child, stanza)
  {
    hide HasParent, LinkedIn, Chained;
    var list, last := a.kids[stanza], Last(a.kids[stanza]);
    var after, x := LinkedIn(cells, stanza, child, last), list + [child];
    ChainFacts(cells, a, stanza);
    LinkedNext(cells, stanza, child, last, stanza);
    forall j | 0 <= j < |x| - 1 ensures x[j] in after && after[x[j]].next == x[j + 1] {
      LinkedNext(cells, stanza, child, last, list[j]);
      if j < |list| - 1 {
        assert list[j] != list[|list| - 1];
      }
    }
    assert Fits(after, b, stanza);
    LedThrough(after, stanza, x, b.kids[stanza]);
    assert b.kids[stanza][|list|] == child;
    assert forall j :: 0 <= j < |list| ==> b.kids[stanza][j] == list[j];
  }

  /** The other stanzas have the children they had. */
  lemma {:induction false} OthersKeep(cells: map<Ptr, Cell>, a: Account, stanza: Ptr, child: Ptr, b: Account)
    requires Matches(cells, a) && a.kids.Keys == cells.Keys && stanza in cells && child in cells
    requires Last(a.kids[stanza]) != NULL ==> Last(a.kids[stanza]) in cells
    requires Matches(LinkedIn(cells, stanza, child, Last(a.kids[stanza])), b) && b.kids.Keys == cells.Keys
    ensures forall q :: q in a.kids && q != stanza ==> b.kids[q] == a.kids[q]
  {
    hide HasParent, LinkedIn, Chained;
    var last := Last(a.kids[stanza]);
    var after := LinkedIn(cells, stanza, child, last);
    forall q | q in a.kids && q != stanza ensures b.kids[q] == a.kids[q] {
      var x := a.kids[q];
      ChainFacts(cells, a, q);
      LinkedNext(cells, stanza, child, last, q);
      forall j | 0 <= j < |x| ensures x[j] in after && after[x[j]].next == After(x, j) {
        LinkedNext(cells, stanza, child, last, x[j]);
        NotLast(a, stanza, q, x[j]);
      }
      assert Fits(after, b, q);
      LedToEnd(after, q, x, b.kids[q]);
    }
  }

  lemma {:induction false} NotLast(a: Account, stanza: Ptr, q: Ptr, c: Ptr)
    requires Forest(a) && stanza in a.kids && q in a.kids && q != stanza && c in a.kids[q] && c != NULL
    ensures c != Last(a.kids[stanza])
  {
    assert Child(a, c, q) && !Child(a, c, stanza);
  }

  lemma {:induction false} HadNoParent(a: Account, stanza: Ptr, child: Ptr, b: Account)
    requires Forest(b) && b.kids.Keys == a.kids.Keys && Child(b, child, stanza)
    requires child !in a.kids[stanza] && forall q :: q in a.kids && q != stanza ==> b.kids[q] == a.kids[q]
    ensures !HasParent(a, child)
  {
    if r :| Child(a, child, r) {
      assert Child(b, child, r);
    }
  }

  /** A stanza the child still had as its next would be one more child, with a reference
      less than it needs. */
  lemma {:induction false} HadNoNext(cells: map<Ptr, Cell>, a: Account, stanza: Ptr, child: Ptr, b: Account)
    requires Matches(cells, a) && a.kids.Keys == cells.Keys && stanza in cells && child in cells
    requires Last(a.kids[stanza]) != NULL ==> Last(a.kids[stanza]) in cells
    requires var after := LinkedIn(cells, stanza, child, Last(a.kids[stanza])); Matches(after, b) && after.Keys == cells.Keys
    requires b.kids.Keys == cells.Keys && b.handles == a.handles && a.kids[stanza] + [child] <= b.kids[stanza]
    requires forall q :: q in a.kids && q != stanza ==> b.kids[q] == a.kids[q]
    ensures cells[child].next == NULL
  {
    hide *;
    var list, y, x := a.kids[stanza], b.kids[stanza], cells[child].next;
    var after := LinkedIn(cells, stanza, child, Last(list));
    ChainFacts(cells, a, stanza);
    ChainFacts(after, b, stanza);
    MatchesNoNull(cells, a);
    AddedIsNew(b, stanza, list, child);
    LinkedNext(cells, stanza, child, Last(list), child);
    assert after[child].next == After(y, |list|);
    if x != NULL {
      AfterIs(y, |list|);
      AddedIsNew(b, stanza, list + [child], x);
      HadNoParent(a, stanza, x, b);
      LinkedNext(cells, stanza, child, Last(list), x);
      RefIs(cells, a, x, HasParent(a, x));
      ParentIs(b, x, stanza);
      RefIs(after, b, x, true);
      assert false;
    }
  }

  lemma {:induction false} MatchesNoNull(cells: map<Ptr, Cell>, a: Account)
    requires Matches(cells, a)
    ensures NULL !in cells
  {
    hide Forest, Fits;
  }

  lemma {:induction false} AfterIs(list: seq<Ptr>, i: nat)
    requires i < |list|
    ensures After(list, i) != NULL ==> i + 1 < |list| && list[i + 1] == After(list, i)
  {
  }

  lemma {:induction false} AddedIsNew(b: Account, stanza: Ptr, list: seq<Ptr>, c: Ptr)
    requires Forest(b) && stanza in b.kids && list <= b.kids[stanza] && |list| < |b.kids[stanza]| && c == b.kids[stanza][|list|]
    ensures c !in list && Child(b, c, stanza)
  {
    hide Forest;
    assert NoRepeats(b.kids[stanza]) by {
      ForestRepeats(b, stanza);
    }
    assert forall j :: 0 <= j < |list| ==> b.kids[stanza][j] == list[j];
  }

  lemma {:induction false} ForestRepeats(a: Account, q: Ptr)
    requires Forest(a) && q in a.kids
    ensures NoRepeats(a.kids[q])
  {
  }

  lemma {:induction false} ParentIs(a: Account, q: Ptr, r: Ptr)
    requires Child(a, q, r)
    ensures HasParent(a, q)
  {
  }

  lemma {:induction false} RefIs(cells: map<Ptr, Cell>, a: Account, q: Ptr, parented: bool)
    requires Matches(cells, a) && a.kids.Keys == cells.Keys && q in cells && parented == HasParent(a, q)
    ensures q in a.handles && cells[q].ref == a.handles[q] + if parented then 1 else 0
  {
    hide HasParent, Chained;
    assert Fits(cells, a, q);
  }

  ghost function LowerThan(b: Account, stanza: Ptr): set<Ptr>
    requires b.kids.Keys <= b.rank.Keys && stanza in b.kids
  {
    set q | q in b.kids && b.rank[q] < b.rank[stanza]
  }

  lemma {:induction false} HadNotBelow(a: Account, stanza: Ptr, child: Ptr, b: Account)
    requires Forest(a) && Forest(b) && b.kids.Keys == a.kids.Keys && Child(b, child, stanza)
    requires forall q :: q in a.kids && q != stanza ==> b.kids[q] == a.kids[q]
    ensures Below(a, child, LowerThan(b, stanza)) && stanza !in LowerThan(b, stanza)
  {
    hide HasParent;
    var below := LowerThan(b, stanza);
    forall q, r | Child(a, q, r) && r in below ensures q in below {
      assert Child(b, q, r);
    }
  }

  lemma {:induction false} JoinedFits(cells: map<Ptr, Cell>, a: Account, stanza: Ptr, child: Ptr, below: set<Ptr>, q: Ptr)
    requires Matches(cells, a) && stanza in a.kids && child in a.kids && !HasParent(a, child)
    requires Below(a, child, below) && stanza !in below && cells[child].next == NULL && q in a.kids
    requires stanza in cells && child in cells && (a.kids[stanza] != [] ==> Last(a.kids[stanza]) in cells)
    ensures Fits(LinkedIn(cells, stanza, child, Last(a.kids[stanza])), Joined(a, stanza, child, below), q)
  {
    hide HasParent, Chained, LinkedIn, Below;
    assert child in below by {
      BelowHas(a, child, below);
    }
    var list, b := a.kids[stanza], Joined(a, stanza, child, below);
    var after := LinkedIn(cells, stanza, child, Last(list));
    assert Fits(cells, a, q) && Fits(cells, a, stanza);
    OwnerIn(cells, q, a.kids[q]);
    LinkedElsewhere(cells, stanza, child, Last(list), q);
    NoParent(a, child);
    JoinedCount(a, stanza, child, below, q);
    if q == stanza {
      assert !Child(a, child, stanza) && !Child(a, stanza, stanza);
      LongerChain(cells, stanza, child, list);
    } else {
      OtherChain(cells, a, stanza, child, q);
    }
  }

  lemma {:induction false} ForestKeys(a: Account)
    requires Forest(a)
    ensures a.handles.Keys == a.kids.Keys && a.kids.Keys <= a.rank.Keys
  {
  }

  lemma {:induction false} BelowHas(a: Account, child: Ptr, below: set<Ptr>)
    requires Below(a, child, below)
    ensures child in below
  {
  }

  lemma {:induction false} OtherChain(cells: map<Ptr, Cell>, a: Account, stanza: Ptr, child: Ptr, q: Ptr)
    requires Forest(a) && stanza in a.kids && !HasParent(a, child) && q in a.kids && q != stanza && child != stanza
    requires Chained(cells, q, a.kids[q]) && stanza in cells && child in cells
    requires a.kids[stanza] != [] ==> Last(a.kids[stanza]) in cells
    ensures Chained(LinkedIn(cells, stanza, child, Last(a.kids[stanza])), q, a.kids[q])
  {
    hide HasParent, Chained, LinkedIn;
    var list := a.kids[stanza];
    var after := LinkedIn(cells, stanza, child, Last(list));
    NoParent(a, child);
    OwnerIn(cells, q, a.kids[q]);
    LinkedElsewhere(cells, stanza, child, Last(list), q);
    forall c | c in a.kids[q] && c in cells
      ensures c in after && after[c].next == cells[c].next && after[c].parent == cells[c].parent
    {
      LinkedElsewhere(cells, stanza, child, Last(list), c);
      assert Child(a, c, q) && !Child(a, child, q);
      assert list != [] ==> Child(a, Last(list), stanza);
      NotNull(cells, q, a.kids[q], c);
    }
    ChainIn(cells, after, q, a.kids[q]);
  }

  lemma {:induction false} OwnerIn(cells: map<Ptr, Cell>, owner: Ptr, list: seq<Ptr>)
    requires Chained(cells, owner, list)
    ensures owner in cells
  {
  }

  lemma {:induction false} NotNull(cells: map<Ptr, Cell>, owner: Ptr, list: seq<Ptr>, c: Ptr)
    requires Chained(cells, owner, list) && c in list
    ensures c != NULL
  {
    var i :| 0 <= i < |list| && list[i] == c;
    assert Link(cells, owner, list, i);
  }

  lemma {:induction false} JoinedCount(a: Account, stanza: Ptr, child: Ptr, below: set<Ptr>, q: Ptr)
    requires Forest(a) && stanza in a.kids && child in a.kids && !HasParent(a, child) && q in a.kids
    ensures Count(Joined(a, stanza, child, below), q) == Count(a, q) + (if q == child then 1 else 0)
  {
    var b := Joined(a, stanza, child, below);
    JoinedChildren(a, stanza, child, below);
    if q == child {
      assert Child(b, child, stanza);
    } else {
      assert forall r :: Child(b, q, r) <==> Child(a, q, r);
      SameParentsAt(a, b, q);
    }
  }

  lemma {:induction false} KeysFollow(before: map<Ptr, Cell>, a: Account, after: map<Ptr, Cell>, b: Account)
    requires b.kids.Keys <= a.kids.Keys && FreedOnly(before, a, after, b)
    ensures a.kids.Keys == before.Keys ==> b.kids.Keys == after.Keys
  {
  }

  ghost predicate NoNull(list: seq<Ptr>) {
    NULL !in list
  }

  lemma {:induction false} LastIs(list: seq<Ptr>, i: nat)
    requires NULL !in list && i < |list|
    ensures if After(list, i) == NULL then i == |list| - 1 && list[i] == Last(list)
      else i + 1 < |list| && After(list, i) == list[i + 1]
    ensures list != [] && First(list) == list[0] && Last(list) != NULL && NoNull(list)
  {
    assert Last(list) in list;
  }

  lemma {:induction false} ChainFacts(cells: map<Ptr, Cell>, a: Account, stanza: Ptr)
    requires Matches(cells, a) && stanza in a.kids
    ensures var list := a.kids[stanza];
      && stanza in cells && cells[stanza].children == First(list) && NULL !in list
      && (First(list) == NULL <==> list == []) && (list == [] ==> Last(list) == NULL) && (list != [] ==> Last(list) in cells && Last(list) in list)
      && (forall j :: 0 <= j < |list| ==> list[j] in cells && cells[list[j]].next == After(list, j))
    ensures Forest(a) && a.kids.Keys <= a.rank.Keys
  {
    var list := a.kids[stanza];
    assert Fits(cells, a, stanza);
    forall j | 0 <= j < |list| ensures list[j] in cells && list[j] != NULL && cells[list[j]].next == After(list, j) {
      assert Link(cells, stanza, list, j);
    }
  }

  lemma {:induction false} JoinedKids(a: Account, stanza: Ptr, child: Ptr, below: set<Ptr>)
    requires stanza in a.kids && child in a.rank
    ensures var b := Joined(a, stanza, child, below);
      && b.handles == a.handles && b.kids == a.kids[stanza := a.kids[stanza] + [child]] && b.kids.Keys == a.kids.Keys
  {
  }

  lemma {:induction false} LinkedKeys(cells: map<Ptr, Cell>, stanza: Ptr, child: Ptr, last: Ptr)
    requires stanza in cells && child in cells && (last != NULL ==> last in cells)
    ensures LinkedIn(cells, stanza, child, last).Keys == cells.Keys
  {
  }

  lemma {:induction false} LinkedInIs(cells: map<Ptr, Cell>, stanza: Ptr, child: Ptr, last: Ptr)
    requires stanza in cells && child in cells && (last != NULL ==> last in cells)
    ensures LinkedIn(cells, stanza, child, last) ==
      var c := cells[child := cells[child].(ref := cells[child].ref + 1, parent := stanza)];
      if last == NULL then c[stanza := c[stanza].(children := child)]
      else
        var d := c[last := c[last].(next := child)];
        d[child := d[child].(prev := last)]
  {
  }

  /** Which stanzas a release frees is fixed: no other account fits what it promises. */
  lemma {:induction false} ReleasedIsUnique(a: Account, given: set<Ptr>, b: Account, c: Account)
    requires Forest(a) && Released(a, given, b) && Released(a, given, c)
    ensures b == c
  {
    SameSurvivors(a, given, b, c);
    hide Forest, Held, HasLiveParent;
    assert b.kids == c.kids && b.handles == c.handles;
  }

  lemma {:induction false} SameSurvivors(a: Account, given: set<Ptr>, b: Account, c: Account)
    requires Forest(a) && Released(a, given, b) && Released(a, given, c)
    ensures b.kids.Keys == c.kids.Keys
  {
    ForestKeys(a);
    ReleasedKeys(a, given, b);
    ReleasedKeys(a, given, c);
    hide *;
    var apart := (b.kids.Keys - c.kids.Keys) + (c.kids.Keys - b.kids.Keys);
    if apart != {} {
      var top := HighestRank(apart, a.rank);
      ApartIs(b, c, apart);
      TopIsShared(a, given, b, c, top);
      TopIsShared(a, given, c, b, top);
    }
  }

  lemma {:induction false} ApartIs(b: Account, c: Account, apart: set<Ptr>)
    requires apart == (b.kids.Keys - c.kids.Keys) + (c.kids.Keys - b.kids.Keys)
    ensures forall q {:trigger Apart(b, c, q)} {:trigger Apart(c, b, q)} :: (Apart(b, c, q) <==> q in apart) && (Apart(c, b, q) <==> q in apart)
  {
  }

  ghost predicate Apart(b: Account, c: Account, q: Ptr) {
    (q in b.kids) != (q in c.kids)
  }

  lemma {:induction false} TopIsShared(a: Account, given: set<Ptr>, b: Account, c: Account, top: Ptr)
    requires Forest(a) && Released(a, given, b) && Released(a, given, c) && top in a.rank
    requires forall q :: q in a.rank && Apart(b, c, q) ==> a.rank[q] <= a.rank[top]
    ensures top in b.kids ==> top in c.kids
  {
    if top in b.kids && Held(a, given, top) <= 0 {
      var r :| r in b.kids && Child(a, top, r);
      assert a.rank[r] > a.rank[top];
      assert !Apart(b, c, r);
    }
  }
}
