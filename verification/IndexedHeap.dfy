/** The indexed generational binary heap: a max-heap whose entries are reached through handles
    that never come back to life. */
module IndexedHeap {
  import opened Wrappers

  const EMPTY_MARKER: nat := 0
  const RESERVED_MARKER: nat := 1
  /** `usize::MAX`, which no slot number reaches. */
  const NIL: nat := 0xFFFF_FFFF_FFFF_FFFF

  datatype RawHandle = RawHandle(slot: nat, gen: nat)

  /** Handles are only made by the heap, and the heap numbers generations from 2. */
  type Handle = h: RawHandle | h.gen >= 2 witness RawHandle(0, 2)

  datatype Entry<T> = Entry(item: T, prio: int, slot: nat)

  /** Position in the heap or next free slot, and generation or marker. */
  datatype Slot = Slot(idx: nat, gen: nat)

  predicate Live(s: Slot) { s.gen >= 2 }

  /** Heap entries and live slots point at each other. */
  predicate Linked<T>(data: seq<Entry<T>>, table: seq<Slot>) {
    && (forall d :: 0 <= d < |data| ==> data[d].slot < |table|)
    && (forall d :: 0 <= d < |data| ==> table[data[d].slot].idx == d && Live(table[data[d].slot]))
    && (forall s :: 0 <= s < |table| && Live(table[s]) ==> table[s].idx < |data|)
    && (forall s :: 0 <= s < |table| && Live(table[s]) ==> data[table[s].idx].slot == s)
  }

  /** `items` is exactly what the live handles lead to. */
  ghost predicate Shows<T(!new)>(data: seq<Entry<T>>, table: seq<Slot>, items: map<Handle, (T, int)>)
    requires Linked(data, table)
  {
    && (forall h: Handle :: h in items <==> h.slot < |table| && table[h.slot].gen == h.gen)
    && (forall h: Handle :: h in items ==>
          items[h] == (data[table[h.slot].idx].item, data[table[h.slot].idx].prio))
  }

  function Parent(i: nat): nat
    requires i > 0
  {
    (i - 1) / 2
  }

  /** No entry is greater than its parent. */
  predicate Ordered<T>(data: seq<Entry<T>>) {
    forall i :: 1 <= i < |data| ==> data[Parent(i)].prio >= data[i].prio
  }

  lemma {:induction false} RootIsMaximal<T>(data: seq<Entry<T>>, i: nat)
    requires Ordered(data) && i < |data|
    ensures data[0].prio >= data[i].prio
  {
    if i > 0 {
      RootIsMaximal(data, Parent(i));
    }
  }

  function Swapped<T>(data: seq<Entry<T>>, a: nat, b: nat): seq<Entry<T>>
    requires a < |data| && b < |data|
  {
    data[a := data[b]][b := data[a]]
  }

  function Relinked<T>(data: seq<Entry<T>>, table: seq<Slot>, a: nat, b: nat): seq<Slot>
    requires Linked(data, table) && a < |data| && b < |data|
  {
    var t := table[data[a].slot := table[data[a].slot].(idx := b)];
    t[data[b].slot := t[data[b].slot].(idx := a)]
  }

  lemma SwapLinked<T(!new)>(data: seq<Entry<T>>, table: seq<Slot>, a: nat, b: nat, items: map<Handle, (T, int)>)
    requires Linked(data, table) && a < |data| && b < |data| && Shows(data, table, items)
    ensures Linked(Swapped(data, a, b), Relinked(data, table, a, b))
    ensures Shows(Swapped(data, a, b), Relinked(data, table, a, b), items)
  {
  }

  /** Everything is in order but the entry at `p` against its children and, when `p` is `at`,
      its parent; the parent of `p` is no smaller than the children of `p`. */
  predicate DownInv<T>(data: seq<Entry<T>>, at: nat, p: nat) {
    && (forall i :: 1 <= i < |data| && i != at && Parent(i) != p ==> data[Parent(i)].prio >= data[i].prio)
    && (forall i :: 1 <= i < |data| && Parent(i) == p && p > 0 ==> data[Parent(p)].prio >= data[i].prio)
  }

  /** What has happened at `at` since the data was `was`. */
  predicate Entered<T>(was: seq<Entry<T>>, data: seq<Entry<T>>, at: nat)
    requires |was| == |data|
  {
    0 < at < |data| ==>
      && data[Parent(at)].prio == was[Parent(at)].prio
      && data[at].prio >= was[at].prio
      && (data[at].prio == was[at].prio || data[at].prio <= data[Parent(at)].prio)
  }

  /** The child of `p` that `bubble_down` compares with. */
  function LargestChild<T>(data: seq<Entry<T>>, p: nat): (c: nat)
    requires 2 * p + 1 < |data|
    ensures c < |data| && c > 0 && Parent(c) == p
    ensures forall i :: 1 <= i < |data| && Parent(i) == p ==> data[i].prio <= data[c].prio
  {
    assert forall i :: 1 <= i && Parent(i) == p ==> i == 2 * p + 1 || i == 2 * p + 2;
    if 2 * p + 2 < |data| && data[2 * p + 2].prio > data[2 * p + 1].prio then 2 * p + 2 else 2 * p + 1
  }

  lemma DownStep<T>(was: seq<Entry<T>>, data: seq<Entry<T>>, at: nat, p: nat)
    requires |was| == |data| && DownInv(data, at, p) && Entered(was, data, at) && at <= p && 2 * p + 1 < |data|
    requires data[LargestChild(data, p)].prio > data[p].prio
    ensures
      var c := LargestChild(data, p);
      c > p && DownInv(Swapped(data, p, c), at, c) && Entered(was, Swapped(data, p, c), at)
  {
    assert forall i :: 1 <= i < |data| ==> Parent(i) < i;
  }

  lemma DownDone<T>(was: seq<Entry<T>>, data: seq<Entry<T>>, at: nat, p: nat)
    requires |was| == |data| && DownInv(data, at, p) && Entered(was, data, at)
    requires 2 * p + 1 < |data| ==> data[LargestChild(data, p)].prio <= data[p].prio
    ensures forall i :: 1 <= i < |data| && i != at ==> data[Parent(i)].prio >= data[i].prio
    ensures
      0 < at < |data| ==>
        (data[Parent(at)].prio >= data[at].prio <==> was[Parent(at)].prio >= was[at].prio)
  {
    assert forall i :: 1 <= i && Parent(i) == p ==> i >= 2 * p + 1;
  }

  lemma StartDown<T>(data: seq<Entry<T>>, at: nat)
    ensures Entered(data, data, at)
  {
  }

  lemma LargestIs<T>(data: seq<Entry<T>>, p: nat)
    requires 2 * p + 1 < |data|
    ensures LargestChild(data, p) ==
      if 2 * p + 2 < |data| && data[2 * p + 2].prio > data[2 * p + 1].prio then 2 * p + 2 else 2 * p + 1
  {
  }

  predicate UpInv<T>(data: seq<Entry<T>>, c: nat) {
    && (forall i :: 1 <= i < |data| && i != c ==> data[Parent(i)].prio >= data[i].prio)
    && (forall i :: 1 <= i < |data| && Parent(i) == c && c > 0 ==> data[Parent(c)].prio >= data[i].prio)
  }

  lemma UpStep<T>(data: seq<Entry<T>>, c: nat)
    requires 0 < c < |data| && UpInv(data, c) && data[c].prio > data[Parent(c)].prio
    ensures UpInv(Swapped(data, Parent(c), c), Parent(c))
  {
    var p := Parent(c);
    var t := Swapped(data, p, c);
    Below(c);
    forall i | 1 <= i < |t| && i != p ensures t[Parent(i)].prio >= t[i].prio {
      Below(i);
    }
    forall i | 1 <= i < |t| && Parent(i) == p && p > 0 ensures t[Parent(p)].prio >= t[i].prio {
      Below(p);
      assert data[Parent(p)].prio >= data[p].prio;
      assert data[Parent(i)].prio >= data[i].prio || i == c;
    }
  }

  lemma Below(i: nat)
    requires i > 0
    ensures Parent(i) < i
  {
  }

  /** The two tables agree on every slot that is not live. */
  predicate SameRest(t: seq<Slot>, u: seq<Slot>) {
    && |t| == |u|
    && (forall s :: 0 <= s < |t| ==> t[s].gen == u[s].gen)
    && (forall s :: 0 <= s < |t| && !Live(t[s]) ==> t[s] == u[s])
  }

  /** From `head`, each slot leads to the next and the last to nowhere; all of them are empty. */
  predicate Chain(table: seq<Slot>, head: nat, free: seq<nat>)
    decreases |free|
  {
    if free == [] then head == NIL
    else
      && head == free[0] && head < |table| && head != NIL && table[head].gen == EMPTY_MARKER
      && Chain(table, table[head].idx, free[1..])
  }

  predicate Distinct(free: seq<nat>) {
    forall i, j :: 0 <= i < j < |free| ==> free[i] != free[j]
  }

  /** The intrusive free list: an acyclic chain over exactly the empty slots. */
  predicate FreeList(table: seq<Slot>, head: nat, free: seq<nat>) {
    && Chain(table, head, free) && Distinct(free)
    && forall s :: 0 <= s < |table| && table[s].gen == EMPTY_MARKER ==> s in free
  }

  lemma {:induction false} ChainMembers(table: seq<Slot>, head: nat, free: seq<nat>)
    requires Chain(table, head, free)
    ensures forall s :: s in free ==> s < |table| && table[s].gen == EMPTY_MARKER
    decreases |free|
  {
    if free != [] {
      ChainMembers(table, table[head].idx, free[1..]);
      assert forall s :: s in free ==> s == free[0] || s in free[1..];
    }
  }

  lemma {:induction false} ChainFrame(table: seq<Slot>, other: seq<Slot>, head: nat, free: seq<nat>)
    requires Chain(table, head, free)
    requires forall s :: s in free ==> s < |table| && s < |other| && table[s] == other[s]
    ensures Chain(other, head, free)
    decreases |free|
  {
    if free != [] {
      assert forall s :: s in free[1..] ==> s in free;
      ChainFrame(table, other, table[head].idx, free[1..]);
    }
  }

  /** Removing the entry at `d` keeps the heap in order: nothing moves, or the tail that takes its
      place is no greater than the parent. */
  predicate RemovalFits<T>(data: seq<Entry<T>>, d: nat)
    requires d < |data|
  {
    d == |data| - 1 || d == 0 || data[|data| - 1].prio <= data[Parent(d)].prio
  }

  /** Bubbling down alone does not restore the order: removing the 1 from this heap puts the 8 below
      the 5. */
  lemma RemovalMisfit()
    ensures exists data: seq<Entry<int>>, d: nat :: Ordered(data) && d < |data| && !RemovalFits(data, d)
  {
    var data := [Entry(0, 10, 0), Entry(0, 5, 1), Entry(0, 9, 2), Entry(0, 1, 3), Entry(0, 2, 4), Entry(0, 8, 5)];
    assert Ordered(data) && !RemovalFits(data, 3);
  }

  /** Generations in use are distinct and not from the future; `claims` gives the generation under
      which each reserved slot was handed out. */
  ghost predicate Numbered(table: seq<Slot>, generation: nat, claims: map<nat, nat>) {
    && generation >= 1
    && (forall s :: 0 <= s < |table| ==> table[s].gen <= generation)
    && (forall s, t :: 0 <= s < t < |table| && Live(table[s]) ==> table[s].gen != table[t].gen)
    && (forall s: nat :: s in claims <==> s < |table| && table[s].gen == RESERVED_MARKER)
    && (forall s :: s in claims ==> 2 <= claims[s] <= generation)
    && (forall s, t :: s in claims && t in claims && s != t ==> claims[s] != claims[t])
    && (forall s, t :: s in claims && 0 <= t < |table| ==> table[t].gen != claims[s])
  }

  lemma RestKept(t: seq<Slot>, u: seq<Slot>, head: nat, free: seq<nat>, generation: nat, claims: map<nat, nat>)
    requires SameRest(t, u) && FreeList(t, head, free) && Numbered(t, generation, claims)
    ensures FreeList(u, head, free) && Numbered(u, generation, claims)
  {
    ChainMembers(t, head, free);
    ChainFrame(t, u, head, free);
  }

  /** A slot joins the free list. */
  lemma FreePush(table: seq<Slot>, head: nat, free: seq<nat>, s: nat)
    requires FreeList(table, head, free) && s < |table| <= NIL && table[s].gen != EMPTY_MARKER
    ensures FreeList(table[s := Slot(head, EMPTY_MARKER)], s, [s] + free)
  {
    var t := table[s := Slot(head, EMPTY_MARKER)];
    ChainMembers(table, head, free);
    ChainFrame(table, t, head, free);
    assert ([s] + free)[1..] == free;
    assert forall k :: k in [s] + free <==> k == s || k in free;
  }

  /** The head of the free list is taken off it. */
  lemma FreePop(table: seq<Slot>, head: nat, free: seq<nat>, taken: Slot)
    requires FreeList(table, head, free) && free != [] && taken.gen != EMPTY_MARKER
    ensures head < |table| && table[head].gen == EMPTY_MARKER
    ensures FreeList(table[head := taken], table[head].idx, free[1..])
  {
    var t, f := table[head := taken], free[1..];
    ChainMembers(table, head, free);
    assert forall k :: k in free <==> k == head || k in f;
    assert head !in f;
    ChainFrame(table, t, table[head].idx, f);
  }

  /** The last entry leaves the heap. */
  lemma PopLinked<T(!new)>(data: seq<Entry<T>>, table: seq<Slot>, items: map<Handle, (T, int)>, head: nat)
    requires Linked(data, table) && Shows(data, table, items) && |data| > 0
    ensures
      var e := data[|data| - 1];
      var t := table[e.slot := Slot(head, EMPTY_MARKER)];
      var h: Handle := RawHandle(e.slot, table[e.slot].gen);
      Linked(data[..|data| - 1], t) && Shows(data[..|data| - 1], t, items - {h})
  {
    var e := data[|data| - 1];
    var t := table[e.slot := Slot(head, EMPTY_MARKER)];
    var rest := data[..|data| - 1];
    assert forall s :: 0 <= s < |t| && Live(t[s]) ==> s != e.slot && table[s].idx != |data| - 1;
    assert Linked(rest, t);
  }

  lemma NumberedDrop(table: seq<Slot>, generation: nat, claims: map<nat, nat>, s: nat, idx: nat)
    requires Numbered(table, generation, claims) && s < |table| && Live(table[s])
    ensures Numbered(table[s := Slot(idx, EMPTY_MARKER)], generation, claims)
  {
  }

  /** Where the order stands when the tail has been put in the place of the removed entry. */
  lemma RemovalOrder<T>(was: seq<Entry<T>>, d: nat)
    requires Ordered(was) && d < |was|
    ensures
      var last := |was| - 1;
      var mid := Swapped(was, d, last)[..last];
      && DownInv(mid, d, d)
      && (0 < d < last ==> (mid[Parent(d)].prio >= mid[d].prio <==> RemovalFits(was, d)))
  {
    var last := |was| - 1;
    var mid := Swapped(was, d, last)[..last];
    assert forall i :: 1 <= i < |was| ==> Parent(i) < i;
    if d < last {
      forall i | 1 <= i < |mid| && Parent(i) == d && d > 0 ensures mid[Parent(d)].prio >= mid[i].prio {
        assert was[Parent(i)].prio >= was[i].prio && was[Parent(d)].prio >= was[d].prio;
      }
    }
  }

  /** Changing a slot that is not live to one that is not live either. */
  lemma StillLinked<T(!new)>(data: seq<Entry<T>>, table: seq<Slot>, items: map<Handle, (T, int)>, s: nat, v: Slot)
    requires Linked(data, table) && Shows(data, table, items) && s < |table| && !Live(table[s]) && !Live(v)
    ensures Linked(data, table[s := v]) && Shows(data, table[s := v], items)
  {
  }

  lemma AppendLinked<T(!new)>(data: seq<Entry<T>>, table: seq<Slot>, items: map<Handle, (T, int)>, v: Slot)
    requires Linked(data, table) && Shows(data, table, items) && !Live(v)
    ensures Linked(data, table + [v]) && Shows(data, table + [v], items)
  {
  }

  lemma AppendFree(table: seq<Slot>, head: nat, free: seq<nat>, v: Slot)
    requires FreeList(table, head, free) && v.gen != EMPTY_MARKER
    ensures FreeList(table + [v], head, free)
  {
    ChainMembers(table, head, free);
    ChainFrame(table, table + [v], head, free);
  }

  /** An empty slot, or a new one, is reserved under the next generation. */
  lemma ReserveOld(table: seq<Slot>, generation: nat, claims: map<nat, nat>, s: nat)
    requires Numbered(table, generation, claims) && s < |table| && table[s].gen == EMPTY_MARKER
    ensures Numbered(table[s := Slot(0, RESERVED_MARKER)], generation + 1, claims[s := generation + 1])
  {
  }

  lemma ReserveNew(table: seq<Slot>, generation: nat, claims: map<nat, nat>)
    requires Numbered(table, generation, claims)
    ensures Numbered(table + [Slot(0, RESERVED_MARKER)], generation + 1, claims[|table| := generation + 1])
  {
  }

  /** A claim is given up. */
  lemma ClaimDropped(table: seq<Slot>, generation: nat, claims: map<nat, nat>, s: nat, v: Slot)
    requires Numbered(table, generation, claims) && s in claims
    requires v.gen == EMPTY_MARKER || v.gen == claims[s]
    ensures Numbered(table[s := v], generation, claims - {s})
  {
  }

  /** Every handle in use was given out, and no two handles given out have the same generation. */
  ghost predicate AllIssued<T(!new)>(issued: set<Handle>, items: map<Handle, (T, int)>, claims: map<nat, nat>,
                                     generation: nat) {
    && items.Keys <= issued
    && (forall s :: s in claims && claims[s] >= 2 ==> RawHandle(s, claims[s]) in issued)
    && (forall h :: h in issued ==> h.gen <= generation)
    && (forall h, k :: h in issued && k in issued && h != k ==> h.gen != k.gen)
  }

  /** A reserved slot takes the generation of any handle given out for it. */
  lemma ClaimFilled<T(!new)>(data: seq<Entry<T>>, table: seq<Slot>, items: map<Handle, (T, int)>, issued: set<Handle>,
                             generation: nat, claims: map<nat, nat>, h: Handle, idx: nat)
    requires Linked(data, table) && Shows(data, table, items) && Numbered(table, generation, claims)
    requires AllIssued(issued, items, claims, generation) && h in issued && h.slot in claims
    ensures Numbered(table[h.slot := Slot(idx, h.gen)], generation, claims - {h.slot})
    ensures h !in items
  {
    var t := table[h.slot := Slot(idx, h.gen)];
    forall s | 0 <= s < |table| && s != h.slot ensures table[s].gen != h.gen {
      if Live(table[s]) {
        var k: Handle := RawHandle(s, table[s].gen);
        assert k in items;
      }
    }
  }

  lemma IssuedLess<T(!new)>(issued: set<Handle>, items: map<Handle, (T, int)>, claims: map<nat, nat>, generation: nat,
                            h: Handle)
    requires AllIssued(issued, items, claims, generation)
    ensures AllIssued(issued, items - {h}, claims, generation)
      && AllIssued(issued, items, claims - {h.slot}, generation)
  {
  }

  lemma IssuedItem<T(!new)>(issued: set<Handle>, items: map<Handle, (T, int)>, claims: map<nat, nat>, generation: nat,
                            h: Handle, v: (T, int))
    requires AllIssued(issued, items, claims, generation) && h in issued
    ensures AllIssued(issued, items[h := v], claims, generation)
    ensures AllIssued(issued, items[h := v], claims - {h.slot}, generation)
  {
  }

  lemma IssuedNone<T(!new)>(issued: set<Handle>, items: map<Handle, (T, int)>, claims: map<nat, nat>, generation: nat)
    requires AllIssued(issued, items, claims, generation)
    ensures AllIssued<T>(issued, map[], map[], generation)
  {
  }

  lemma IssuedItems<T(!new)>(issued: set<Handle>, items: map<Handle, (T, int)>, claims: map<nat, nat>, generation: nat)
    requires AllIssued(issued, items, claims, generation)
    ensures items.Keys <= issued
  {
  }

  lemma IssuedMore<T(!new)>(issued: set<Handle>, items: map<Handle, (T, int)>, claims: map<nat, nat>, generation: nat,
                            h: Handle)
    requires AllIssued(issued, items, claims, generation) && h.gen == generation + 1
    ensures AllIssued(issued + {h}, items, claims[h.slot := h.gen], generation + 1)
  {
  }

  /** A claimed slot takes an entry at the end of the heap. */
  lemma PushLinked<T(!new)>(data: seq<Entry<T>>, table: seq<Slot>, items: map<Handle, (T, int)>, h: Handle, item: T,
                     prio: int)
    requires Linked(data, table) && Shows(data, table, items) && h.slot < |table| && !Live(table[h.slot])
    ensures
      var d := data + [Entry(item, prio, h.slot)];
      var t := table[h.slot := Slot(|data|, h.gen)];
      Linked(d, t) && Shows(d, t, items[h := (item, prio)])
  {
    var d := data + [Entry(item, prio, h.slot)];
    var t := table[h.slot := Slot(|data|, h.gen)];
    assert forall i :: 0 <= i < |data| ==> data[i].slot != h.slot;
    assert Linked(d, t);
  }

  /** The entry of a handle changes but keeps its slot. */
  lemma ChangeLinked<T(!new)>(data: seq<Entry<T>>, table: seq<Slot>, items: map<Handle, (T, int)>, h: Handle,
                       e: Entry<T>)
    requires Linked(data, table) && Shows(data, table, items) && h in items && e.slot == h.slot
    ensures
      var d := data[table[h.slot].idx := e];
      Linked(d, table) && Shows(d, table, items[h := (e.item, e.prio)])
  {
  }

  lemma ChangeOrder<T>(was: seq<Entry<T>>, d: nat, prio: int)
    requires d < |was|
    ensures
      var now := was[d := was[d].(prio := prio)];
      Ordered(was) ==> if was[d].prio > prio then DownInv(now, d, d) else UpInv(now, d)
  {
    var now := was[d := was[d].(prio := prio)];
    if Ordered(was) {
      assert forall i :: 1 <= i < |was| ==> Parent(i) < i;
      forall i | 1 <= i < |was| && Parent(i) == d && d > 0 ensures now[Parent(d)].prio >= now[i].prio {
        assert was[Parent(d)].prio >= was[d].prio >= was[i].prio;
      }
    }
  }

  lemma ChangedDown<T>(was: seq<Entry<T>>, d: nat, prio: int, data: seq<Entry<T>>)
    requires d < |was| == |data| && Ordered(was) && was[d].prio > prio
    requires forall i :: 1 <= i < |data| && i != d ==> data[Parent(i)].prio >= data[i].prio
    requires
      var now := was[d := was[d].(prio := prio)];
      0 < d < |data| ==> (data[Parent(d)].prio >= data[d].prio <==> now[Parent(d)].prio >= now[d].prio)
    ensures Ordered(data)
  {
  }

  lemma ShownIs<T(!new)>(data: seq<Entry<T>>, table: seq<Slot>, items: map<Handle, (T, int)>, h: Handle)
    requires Linked(data, table) && Shows(data, table, items)
    ensures h in items <==> h.slot < |table| && table[h.slot].gen == h.gen
    ensures h in items ==> table[h.slot].idx < |data| && data[table[h.slot].idx].slot == h.slot
  {
  }

  lemma SameOrder<T>(data: seq<Entry<T>>, d: nat, e: Entry<T>)
    requires d < |data| && e.prio == data[d].prio
    ensures Ordered(data) ==> Ordered(data[d := e])
  {
    assert forall i :: 0 <= i < |data| ==> data[d := e][i].prio == data[i].prio;
  }

  lemma ClaimIs(table: seq<Slot>, generation: nat, claims: map<nat, nat>, s: nat)
    requires Numbered(table, generation, claims)
    ensures s in claims <==> s < |table| && table[s].gen == RESERVED_MARKER
    ensures s < |table| ==> table[s].gen <= generation
    ensures generation >= 1 && (s in claims ==> claims[s] >= 2)
  {
  }

  lemma PushOrder<T>(was: seq<Entry<T>>, data: seq<Entry<T>>)
    requires |data| == |was| + 1 && data[..|was|] == was
    ensures Ordered(was) ==> UpInv(data, |was|)
  {
    assert forall i :: 0 <= i < |was| ==> data[i] == was[i];
  }

  lemma FreeEmpty(table: seq<Slot>, head: nat, free: seq<nat>)
    requires FreeList(table, head, free)
    ensures head == NIL <==> free == []
  {
  }

  lemma FreeOther(table: seq<Slot>, head: nat, free: seq<nat>, s: nat, v: Slot)
    requires FreeList(table, head, free) && s < |table| && table[s].gen != EMPTY_MARKER && v.gen != EMPTY_MARKER
    ensures FreeList(table[s := v], head, free)
  {
    ChainMembers(table, head, free);
    ChainFrame(table, table[s := v], head, free);
  }

  /** A handle of the next generation has not been seen before. */
  lemma OldGeneration<T(!new)>(data: seq<Entry<T>>, table: seq<Slot>, items: map<Handle, (T, int)>, generation: nat,
                        claims: map<nat, nat>, h: Handle)
    requires Linked(data, table) && Shows(data, table, items) && Numbered(table, generation, claims)
      && h.gen > generation
    ensures h !in items && forall k :: k in items ==> k.gen <= generation
  {
  }

  lemma OrderAfter<T>(was: seq<Entry<T>>, d: nat, data: seq<Entry<T>>)
    requires d < |was| && |data| == |was| - 1
    requires forall i :: 1 <= i < |data| && i != d ==> data[Parent(i)].prio >= data[i].prio
    requires 0 < d < |data| ==> (data[Parent(d)].prio >= data[d].prio <==> RemovalFits(was, d))
    ensures Ordered(data) <==> RemovalFits(was, d)
  {
  }

  lemma HandleLive<T(!new)>(data: seq<Entry<T>>, table: seq<Slot>, items: map<Handle, (T, int)>, d: nat)
    requires Linked(data, table) && Shows(data, table, items) && d < |data|
    ensures data[d].slot < |table| && Live(table[data[d].slot])
    ensures
      var h: Handle := RawHandle(data[d].slot, table[data[d].slot].gen);
      h in items && items[h] == (data[d].item, data[d].prio)
  {
  }

  lemma NothingShown<T(!new)>(data: seq<Entry<T>>, table: seq<Slot>, items: map<Handle, (T, int)>)
    requires Linked(data, table) && Shows(data, table, items) && data == []
    ensures items == map[]
  {
    assert forall h: Handle :: h.slot < |table| ==> table[h.slot].gen != h.gen;
  }

  lemma TailIs<T(!new)>(data: seq<Entry<T>>, table: seq<Slot>, d: nat, items: map<Handle, (T, int)>)
    requires Linked(data, table) && d < |data|
    ensures
      var last := |data| - 1;
      var e := Swapped(data, d, last)[last];
      var t := Relinked(data, table, d, last);
      && e == data[d] && e.slot < |t| == |table| && t[e.slot].gen == table[e.slot].gen && Live(t[e.slot])
  {
  }

  /** Nothing is above the root, so its removal always fits. */
  lemma RootFits<T>(data: seq<Entry<T>>)
    requires |data| > 0
    ensures RemovalFits(data, 0)
  {
  }

  class IndexedBinaryHeap<T(!new)> {
    var generation: nat
    var freeListHead: nat
    var data: seq<Entry<T>>
    var table: seq<Slot>

    /** What the heap holds, by handle; the free slots in order; the outstanding reservations; all
        handles ever given out. */
    ghost var items: map<Handle, (T, int)>
    ghost var free: seq<nat>
    ghost var claims: map<nat, nat>
    ghost var issued: set<Handle>

    ghost predicate Valid()
      reads this
    {
      && Linked(data, table) && Shows(data, table, items)
      && FreeList(table, freeListHead, free) && |table| <= NIL
      && Numbered(table, generation, claims) && AllIssued(issued, items, claims, generation)
    }

    /** The handle is an outstanding reservation. */
    ghost predicate Reserved(h: Handle)
      reads this
    {
      h.slot in claims && claims[h.slot] == h.gen
    }

    /** A handle given out earlier that leads nowhere and holds no reservation. */
    ghost predicate Dead(h: Handle)
      reads this
    {
      h.gen <= generation && h !in items && !Reserved(h)
    }

    constructor ()
      ensures Valid() && items == map[] && claims == map[] && Ordered(data)
    {
      generation, freeListHead, data, table := 1, NIL, [], [];
      items, free, claims, issued := map[], [], map[], {};
    }

    /** The greatest priority, if the heap order is intact. */
    method Peek() returns (r: Option<(T, int, Handle)>)
      requires Valid()
      ensures r.None? <==> items == map[]
      ensures r.Some? ==> r.value.2 in items && items[r.value.2] == (r.value.0, r.value.1)
      ensures r.Some? ==> Deref(r.value.2) == Some(0) && r.value.2.slot !in claims && RemovalFits(data, 0)
      ensures r.Some? && Ordered(data) ==> forall h :: h in items ==> items[h].1 <= r.value.1
    {
      if |data| == 0 {
        NothingShown(data, table, items);
        return None;
      }
      var h: Handle := RawHandle(data[0].slot, table[data[0].slot].gen);
      assert h in items;
      if Ordered(data) {
        forall k | k in items ensures items[k].1 <= data[0].prio {
          RootIsMaximal(data, table[k.slot].idx);
        }
      }
      return Some((data[0].item, data[0].prio, h));
    }

    method Swap(a: nat, b: nat)
      requires Linked(data, table) && Shows(data, table, items) && a < |data| && b < |data|
      modifies this`data, this`table
      ensures data == Swapped(old(data), a, b) && table == Relinked(old(data), old(table), a, b)
      ensures Linked(data, table) && Shows(data, table, items) && SameRest(old(table), table)
    {
      SwapLinked(data, table, a, b, items);
      table := table[data[a].slot := table[data[a].slot].(idx := b)];
      table := table[data[b].slot := table[data[b].slot].(idx := a)];
      data := data[a := data[b]][b := data[a]];
    }

    /** Repairs the heap below `at`, if it was in order elsewhere. The edge into `at` is in order
        afterwards exactly when it was before the move. */
    method BubbleDown(at: nat)
      requires Linked(data, table) && Shows(data, table, items)
      modifies this`data, this`table
      ensures |data| == |old(data)| && Linked(data, table) && Shows(data, table, items) && SameRest(old(table), table)
      ensures
        DownInv(old(data), at, at) ==>
          && (forall i :: 1 <= i < |data| && i != at ==> data[Parent(i)].prio >= data[i].prio)
          && (0 < at < |data| ==>
                (data[Parent(at)].prio >= data[at].prio <==> old(data)[Parent(at)].prio >= old(data)[at].prio))
    {
      hide Linked, Shows, DownInv, Entered, LargestChild;
      StartDown(data, at);
      ghost var fit := DownInv(data, at, at);
      var p := at;
      while true
        invariant |data| == |old(data)| && Linked(data, table) && Shows(data, table, items)
          && SameRest(old(table), table)
        invariant p >= at && (fit ==> DownInv(data, at, p) && Entered(old(data), data, at))
        decreases |data| - p
      {
        var child0 := p * 2 + 1;
        var child1 := child0 + 1;
        if child0 >= |data| {
          break;
        }
        var largest := if child1 < |data| && data[child1].prio > data[child0].prio then child1 else child0;
        assert largest == LargestChild(data, p) by { LargestIs(data, p); }
        if data[largest].prio <= data[p].prio {
          break;
        }
        if fit { DownStep(old(data), data, at, p); }
        Swap(p, largest);
        p := largest;
      }
      if fit { DownDone(old(data), data, at, p); }
    }

    method BubbleUp(at: nat)
      requires Linked(data, table) && Shows(data, table, items) && at < |data|
      modifies this`data, this`table
      ensures |data| == |old(data)| && Linked(data, table) && Shows(data, table, items) && SameRest(old(table), table)
      ensures UpInv(old(data), at) ==> Ordered(data)
    {
      hide Linked, Shows;
      ghost var fit := UpInv(data, at);
      var c: nat := at;
      while c > 0
        invariant c < |data| == |old(data)| && Linked(data, table) && Shows(data, table, items)
          && SameRest(old(table), table)
        invariant fit ==> UpInv(data, c)
      {
        var p := (c - 1) / 2;
        if data[c].prio <= data[p].prio {
          break;
        }
        if fit { UpStep(data, c); }
        Swap(p, c);
        c := p;
      }
    }

    /** The handle of the entry at a heap position. */
    ghost function HandleAt(d: nat): (h: Handle)
      requires Linked(data, table) && d < |data|
      reads this
    {
      RawHandle(data[d].slot, table[data[d].slot].gen)
    }

    /** The first half of `remove_idx`: the last entry takes the place of the removed one, whose slot is freed. */
    method Detach(d: nat) returns (e: Entry<T>)
      requires Valid() && d < |data|
      modifies this`data, this`table, this`freeListHead, this`items, this`free
      ensures Valid() && items == old(items) - {old(HandleAt(d))} && e == old(data)[d]
      ensures data == Swapped(old(data), d, |old(data)| - 1)[..|old(data)| - 1]
    {
      hide Linked, Shows, FreeList, Numbered, AllIssued;
      ghost var h := HandleAt(d);
      ghost var was := data;
      HandleLive(data, table, items, d);
      IssuedLess(issued, items, claims, generation, h);
      var last := |data| - 1;
      Swap(d, last);
      RestKept(old(table), table, freeListHead, free, generation, claims);
      TailIs(was, old(table), d, items);
      e := data[last];
      PopLinked(data, table, items, freeListHead);
      FreePush(table, freeListHead, free, e.slot);
      NumberedDrop(table, generation, claims, e.slot, freeListHead);
      data := data[..last];
      table := table[e.slot := Slot(freeListHead, EMPTY_MARKER)];
      freeListHead := e.slot;
      items, free := items - {h}, [e.slot] + free;
    }

    /** `remove_idx`: the last entry takes the place of the removed one and sinks. */
    method RemoveIdx(d: nat) returns (r: (T, int))
      requires Valid() && d < |data|
      modifies this`data, this`table, this`freeListHead, this`items, this`free
      ensures Valid() && items == old(items) - {old(HandleAt(d))}
      ensures old(HandleAt(d)) in old(items) && r == old(items)[old(HandleAt(d))]
      ensures old(Ordered(data)) ==> (Ordered(data) <==> old(RemovalFits(data, d)))
    {
      hide Linked, Shows, FreeList, Numbered, Ordered, RemovalFits, DownInv, AllIssued;
      ghost var was := data;
      HandleLive(data, table, items, d);
      var e := Detach(d);
      ghost var rest := table;
      BubbleDown(d);
      RestKept(rest, table, freeListHead, free, generation, claims);
      if old(Ordered(data)) {
        RemovalOrder(was, d);
        OrderAfter(was, d, data);
      }
      return (e.item, e.prio);
    }

    /** The greatest entry leaves the heap. */
    method Pop() returns (r: Option<(T, int)>)
      requires Valid()
      modifies this
      ensures Valid() && claims == old(claims) && generation == old(generation) && issued == old(issued)
      ensures old(items) == map[] ==> r == None && items == map[]
      ensures old(items) != map[] ==>
        exists h :: h in old(items) && items == old(items) - {h} && r == Some(old(items)[h])
          && (old(Ordered(data)) ==> forall k :: k in old(items) ==> old(items)[k].1 <= old(items)[h].1)
      ensures old(Ordered(data)) ==> Ordered(data)
      ensures forall h: Handle :: old(Dead(h)) ==> Dead(h)
    {
      hide Linked, Shows, FreeList, Numbered, Ordered, RemovalFits, AllIssued;
      if |data| == 0 {
        NothingShown(data, table, items);
        return None;
      }
      RootFits(data);
      ghost var h := HandleAt(0);
      HandleLive(data, table, items, 0);
      if Ordered(data) {
        forall k | k in items ensures items[k].1 <= data[0].prio {
          RootIsMaximal(data, Deref(k).value);
        }
      }
      var e := RemoveIdx(0);
      return Some(e);
    }

    /** A new handle, which leads nowhere until `PushReserved`. */
    method ReserveIndex() returns (h: Handle)
      requires Valid() && |table| < NIL
      modifies this
      ensures Valid() && items == old(items) && claims == old(claims)[h.slot := h.gen] && data == old(data)
      ensures h !in old(items) && h.slot !in old(claims) && h.gen > old(generation) && generation == h.gen
      ensures issued == old(issued) + {h}
      ensures forall k: Handle :: old(Dead(k)) ==> Dead(k)
    {
      hide Linked, Shows, FreeList, Numbered, Chain, AllIssued;
      generation := generation + 1;
      FreeEmpty(table, freeListHead, free);
      if freeListHead != NIL {
        var head := freeListHead;
        FreePop(table, head, free, Slot(0, RESERVED_MARKER));
        ClaimIs(table, generation - 1, claims, head);
        StillLinked(data, table, items, head, Slot(0, RESERVED_MARKER));
        ReserveOld(table, generation - 1, claims, head);
        freeListHead := table[head].idx;
        table := table[head := Slot(0, RESERVED_MARKER)];
        free := free[1..];
        h := RawHandle(head, generation);
      } else {
        AppendLinked(data, table, items, Slot(0, RESERVED_MARKER));
        ClaimIs(table, generation - 1, claims, |table|);
        AppendFree(table, freeListHead, free, Slot(0, RESERVED_MARKER));
        ReserveNew(table, generation - 1, claims);
        table := table + [Slot(0, RESERVED_MARKER)];
        h := RawHandle(|table| - 1, generation);
      }
      OldGeneration(old(data), old(table), items, old(generation), claims, h);
      IssuedMore(issued, items, claims, old(generation), h);
      claims, issued := claims[h.slot := h.gen], issued + {h};
    }

    /** Fills a reservation. The code checks only that the slot is reserved, so any handle ever given
        out for the slot fills it, a dead one comes back to life, and the reservation is gone. */
    method PushReserved(h: Handle, item: T, prio: int) returns (ok: bool)
      requires Valid() && (h.slot in claims ==> h in issued)
      modifies this`data, this`table, this`items, this`claims
      ensures Valid() && ok == (h.slot in old(claims))
      ensures ok ==> items == old(items)[h := (item, prio)] && claims == old(claims) - {h.slot}
      ensures !ok ==> items == old(items) && claims == old(claims) && data == old(data)
      ensures old(Ordered(data)) ==> Ordered(data)
      ensures forall k: Handle :: old(Dead(k)) && (k != h || !ok) ==> Dead(k)
    {
      hide Linked, Shows, FreeList, Numbered, Ordered, UpInv, AllIssued;
      ClaimIs(table, generation, claims, h.slot);
      if h.slot < |table| && table[h.slot].gen == RESERVED_MARKER {
        var d := |data|;
        PushLinked(data, table, items, h, item, prio);
        ClaimFilled(data, table, items, issued, generation, claims, h, d);
        IssuedItem(issued, items, claims, generation, h, (item, prio));
        FreeOther(table, freeListHead, free, h.slot, Slot(d, h.gen));
        table := table[h.slot := Slot(d, h.gen)];
        data := data + [Entry(item, prio, h.slot)];
        items, claims := items[h := (item, prio)], claims - {h.slot};
        ghost var rest := table;
        PushOrder(old(data), data);
        BubbleUp(d);
        RestKept(rest, table, freeListHead, free, generation, claims);
        return true;
      }
      return false;
    }
  
    /** Adds an item under a fresh handle. */
    method Push(item: T, prio: int) returns (h: Handle)
      requires Valid() && |table| < NIL
      modifies this
      ensures Valid() && h !in old(items) && items == old(items)[h := (item, prio)] && claims == old(claims)
      ensures h.gen > old(generation) && issued == old(issued) + {h}
      ensures old(Ordered(data)) ==> Ordered(data)
      ensures forall k: Handle :: old(Dead(k)) ==> Dead(k)
    {
      hide Linked, Shows, FreeList, Numbered, Ordered, AllIssued;
      h := ReserveIndex();
      var ok := PushReserved(h, item, prio);
    }

    /** The handle of an entry was given out. */
    lemma Given(h: Handle)
      requires Valid() && h in items
      ensures h.gen <= generation
    {
    }

    /** `deref_index`: the heap position a handle leads to. */
    function Deref(h: Handle): (r: Option<nat>)
      requires Valid()
      reads this
      ensures r.Some? <==> h in items
      ensures r.Some? ==> r.value < |data| && items[h] == (data[r.value].item, data[r.value].prio)
    {
      if h.slot < |table| && table[h.slot].gen == h.gen then Some(table[h.slot].idx) else None
    }

    method Get(h: Handle) returns (r: Option<(T, int)>)
      requires Valid()
      ensures r == if h in items then Some(items[h]) else None
    {
      var d := Deref(h);
      if d.None? { return None; }
      return Some((data[d.value].item, data[d.value].prio));
    }

    /** Gives an entry the priority `f` asks for, if any, and returns the one it had. */
    method UpdatePriority(h: Handle, f: int -> Option<int>) returns (r: Option<int>)
      requires Valid()
      modifies this`data, this`table, this`items
      ensures Valid()
      ensures
        if h in old(items) && f(old(items)[h].1).Some?
        then r == Some(old(items)[h].1) && items == old(items)[h := (old(items)[h].0, f(old(items)[h].1).value)]
        else r == None && items == old(items)
      ensures old(Ordered(data)) ==> Ordered(data)
      ensures forall k: Handle :: old(Dead(k)) ==> Dead(k)
    {
      hide Linked, Shows, FreeList, Numbered, Ordered, UpInv, DownInv, AllIssued;
      var d := Deref(h);
      if d.None? { return None; }
      IssuedItems(issued, items, claims, generation);
      var p := data[d.value].prio;
      var new_ := f(p);
      if new_.None? { return None; }
      ShownIs(data, table, items, h);
      ghost var was, rest := data, table;
      ChangeLinked(data, table, items, h, data[d.value].(prio := new_.value));
      data := data[d.value := data[d.value].(prio := new_.value)];
      IssuedItem(issued, items, claims, generation, h, (items[h].0, new_.value));
      items := items[h := (items[h].0, new_.value)];
      ChangeOrder(was, d.value, new_.value);
      if p > new_.value {
        BubbleDown(d.value);
        if old(Ordered(data)) { ChangedDown(was, d.value, new_.value, data); }
      } else {
        BubbleUp(d.value);
      }
      RestKept(rest, table, freeListHead, free, generation, claims);
      return Some(p);
    }

    method ChangePriority(h: Handle, prio: int) returns (r: Option<int>)
      requires Valid()
      modifies this`data, this`table, this`items
      ensures Valid()
      ensures
        if h in old(items)
        then r == Some(old(items)[h].1) && items == old(items)[h := (old(items)[h].0, prio)]
        else r == None && items == old(items)
      ensures old(Ordered(data)) ==> Ordered(data)
      ensures forall k: Handle :: old(Dead(k)) ==> Dead(k)
    {
      r := UpdatePriority(h, _ => Some(prio));
    }

    method ChangeItem(h: Handle, item: T) returns (r: Option<T>)
      requires Valid()
      modifies this`data, this`table, this`items
      ensures Valid()
      ensures
        if h in old(items)
        then r == Some(old(items)[h].0) && items == old(items)[h := (item, old(items)[h].1)]
        else r == None && items == old(items)
      ensures old(Ordered(data)) ==> Ordered(data)
      ensures forall k: Handle :: old(Dead(k)) ==> Dead(k)
    {
      hide Linked, Shows, FreeList, Numbered, Ordered, AllIssued;
      var d := Deref(h);
      if d.None? { return None; }
      IssuedItems(issued, items, claims, generation);
      IssuedItem(issued, items, claims, generation, h, (item, items[h].1));
      ShownIs(data, table, items, h);
      SameOrder(data, d.value, data[d.value].(item := item));
      r := Some(data[d.value].item);
      ChangeLinked(data, table, items, h, data[d.value].(item := item));
      data := data[d.value := data[d.value].(item := item)];
      items := items[h := (item, items[h].1)];
    }

    /** Removes an entry, or frees a reserved slot; as with `PushReserved`, whose reservation it is does
        not matter. The heap order survives exactly when the entry that takes the place fits. */
    method Remove(h: Handle) returns (r: Option<(T, int)>)
      requires Valid()
      modifies this`data, this`table, this`freeListHead, this`items, this`free, this`claims
      ensures Valid()
      ensures r == if h in old(items) then Some(old(items)[h]) else None
      ensures items == old(items) - {h} && claims == old(claims) - {h.slot}
      ensures
        old(Ordered(data)) && h in old(items) ==>
          (Ordered(data) <==> old(RemovalFits(data, table[h.slot].idx)))
      ensures old(Ordered(data)) && h !in old(items) ==> Ordered(data)
      ensures Dead(h) || h.gen > generation
      ensures forall k: Handle :: old(Dead(k)) ==> Dead(k)
    {
      hide Linked, Shows, FreeList, Numbered, Ordered, RemovalFits, AllIssued;
      ClaimIs(table, generation, claims, h.slot);
      ShownIs(data, table, items, h);
      IssuedLess(issued, items, claims, generation, h);
      if h.slot >= |table| {
        return None;
      }
      if table[h.slot].gen == RESERVED_MARKER {
        FreePush(table, freeListHead, free, h.slot);
        ClaimDropped(table, generation, claims, h.slot, Slot(freeListHead, EMPTY_MARKER));
        StillLinked(data, table, items, h.slot, Slot(freeListHead, EMPTY_MARKER));
        table := table[h.slot := Slot(freeListHead, EMPTY_MARKER)];
        freeListHead, free, claims := h.slot, [h.slot] + free, claims - {h.slot};
        return None;
      }
      if table[h.slot].gen == h.gen {
        var e := RemoveIdx(table[h.slot].idx);
        return Some(e);
      }
      return None;
    }

    /** Empties the heap. Generations go on, so no earlier handle comes back. */
    method Clear()
      requires Valid()
      modifies this
      ensures Valid() && items == map[] && claims == map[] && Ordered(data)
      ensures generation == old(generation) && issued == old(issued)
      ensures forall k: Handle :: k.gen <= generation ==> Dead(k)
    {
      IssuedNone(issued, items, claims, generation);
      assert generation >= 1;
      hide AllIssued;
      freeListHead, table, data := NIL, [], [];
      items, free, claims := map[], [], map[];
    }
  }
}
