/** The cache of fragments that belong to no session yet: a two-choice hash table of packets over a
    ring of fragment slots with holes. */
module FragCache {
  import opened Wrappers
  import opened Bits
  import opened Common
  import opened Slots

  const PACKETS: nat := 32
  const SLOTS: nat := 1024
  const MAX_PACKET_SIZE: nat := 1749
  /** `u32::MAX` in the slots' owner table: the slot belongs to no packet. */
  const NONE: nat := 0xFFFF_FFFF

  datatype Meta = Meta(key: nat, start: nat, have: nat, count: nat, size: nat, created: int)

  const NoMeta := Meta(0, 0, 0, 0, 0, 0)

  /** A fragment together with the key, number and count it arrived under. The labels say which
      fragment a buffer is; no operation looks at them. */
  datatype Arrival<F> = Arrival(key: nat, no: nat, count: nat, body: F)

  /** The whole cache as a value. */
  datatype Cache<F> = Cache(first: nat, unused: nat, metas: seq<Meta>, frags: seq<Option<Arrival<F>>>, owner: seq<nat>)

  // ---------- the ring ----------

  /** Reduction modulo the ring size of a number below twice the ring size. */
  function Wrap(x: nat): (r: nat)
    ensures x < 2 * SLOTS ==> r == x % SLOTS
  {
    if x < SLOTS then x else x - SLOTS
  }

  /** How far slot `i` lies after slot `first`, going round. */
  function Pos(i: nat, first: nat): (p: nat)
    ensures i < SLOTS && first < SLOTS ==> p < SLOTS && Wrap(first + p) == i
  {
    if i >= first then i - first else if i + SLOTS >= first then i + SLOTS - first else 0
  }

  lemma PosOfWrap(first: nat, p: nat)
    requires first < SLOTS && p < SLOTS
    ensures Wrap(first + p) < SLOTS && Pos(Wrap(first + p), first) == p
  {
  }

  predicate Shape<F>(c: Cache<F>) {
    && |c.metas| == PACKETS && |c.frags| == SLOTS && |c.owner| == SLOTS
    && c.first < SLOTS && c.unused <= SLOTS
  }

  predicate Live(m: Meta) { m.key != 0 }

  predicate MetaOk(m: Meta) {
    if Live(m) then 1 <= m.count <= MAX_FRAGMENTS && m.start < SLOTS && m.size <= MAX_PACKET_SIZE else m == NoMeta
  }

  /** The slot lies in the packet's run. */
  predicate In(m: Meta, i: nat) { Pos(i, m.start) < m.count }

  /** The packet's run lies in the used region of the ring and is not cut by its ends. */
  predicate Placed(m: Meta, first: nat, unused: nat) {
    unused <= Pos(m.start, first) && Pos(m.start, first) + m.count <= SLOTS
  }

  predicate OwnerOk<F>(c: Cache<F>, i: nat)
    requires Shape(c) && i < SLOTS
  {
    c.owner[i] == NONE || (c.owner[i] < PACKETS && Live(c.metas[c.owner[i]]) && In(c.metas[c.owner[i]], i))
  }

  /** The used region of the ring consists of whole runs of live packets and of unowned holes. */
  predicate Ring<F>(c: Cache<F>)
    requires Shape(c)
  {
    && (forall e :: 0 <= e < PACKETS ==> MetaOk(c.metas[e]))
    && (forall e :: 0 <= e < PACKETS && Live(c.metas[e]) ==> Placed(c.metas[e], c.first, c.unused))
    && (forall i :: 0 <= i < SLOTS ==> OwnerOk(c, i))
    && (forall e, i :: 0 <= e < PACKETS && 0 <= i < SLOTS && Live(c.metas[e]) && In(c.metas[e], i) ==> c.owner[i] == e)
  }

  function Head<F>(c: Cache<F>): nat { Wrap(c.first + c.unused) }

  /** The first slot of the used region is not a hole. */
  predicate HeadOwned<F>(c: Cache<F>)
    requires Shape(c)
  {
    c.unused < SLOTS ==> c.owner[Head(c)] != NONE
  }

  /** A slot holds a fragment exactly when it is owned and its owner's mask says so, and it is the
      fragment that belongs there. */
  ghost predicate SlotOk<F>(c: Cache<F>, i: nat)
    requires Shape(c) && i < SLOTS
  {
    var o := c.owner[i];
    && (c.frags[i].Some? <==> o < PACKETS && Bit(c.metas[o].have, Pos(i, c.metas[o].start)))
    && (c.frags[i].Some? && o < PACKETS ==>
          var a, m := c.frags[i].value, c.metas[o];
          a.key == m.key && a.count == m.count && a.no == Pos(i, m.start))
  }

  ghost predicate MaskBelow(m: Meta) { forall j: nat :: Bit(m.have, j) ==> j < m.count }

  /** Every live packet still waits for some fragment. */
  ghost predicate Masks<F>(c: Cache<F>)
    requires Shape(c)
  {
    && (forall i :: 0 <= i < SLOTS ==> SlotOk(c, i))
    && (forall e :: 0 <= e < PACKETS && Live(c.metas[e]) ==>
          MaskBelow(c.metas[e]) && !IsFull(c.metas[e].have, c.metas[e].count))
  }

  function Index0(key: nat): (i: nat)
    ensures i < PACKETS
  {
    key % PACKETS
  }

  function Index1(key: nat): (i: nat)
    ensures i < PACKETS && i != Index0(key)
  {
    var i := key / PACKETS % (PACKETS - 1);
    if i == Index0(key) then PACKETS - 1 else i
  }

  predicate KeyOk<F>(c: Cache<F>, e: nat)
    requires Shape(c) && e < PACKETS
  {
    Live(c.metas[e]) ==>
      && (e == Index0(c.metas[e].key) || e == Index1(c.metas[e].key))
      && forall f :: 0 <= f < PACKETS && f != e ==> c.metas[f].key != c.metas[e].key
  }

  /** Each key appears at most once, and only in one of its two slots. */
  predicate Keys<F>(c: Cache<F>)
    requires Shape(c)
  {
    forall e :: 0 <= e < PACKETS ==> KeyOk(c, e)
  }

  ghost predicate Inv<F>(c: Cache<F>) {
    Shape(c) && Ring(c) && HeadOwned(c) && Masks(c) && Keys(c)
  }

  /** Along the used region packets are older first, and none is from the future. */
  predicate Aged<F>(c: Cache<F>, now: int)
    requires Shape(c)
  {
    && (forall e :: 0 <= e < PACKETS && Live(c.metas[e]) ==> c.metas[e].created <= now)
    && (forall e, f :: 0 <= e < PACKETS && 0 <= f < PACKETS && Live(c.metas[e]) && Live(c.metas[f]) &&
                       Pos(c.metas[e].start, c.first) <= Pos(c.metas[f].start, c.first) ==>
          c.metas[e].created <= c.metas[f].created)
  }

  function Fresh<F>(): Cache<F> {
    Cache(0, SLOTS, seq(PACKETS, _ => NoMeta), seq(SLOTS, _ => None), seq(SLOTS, _ => NONE))
  }

  lemma FreshInv<F>(now: int)
    ensures Inv(Fresh<F>()) && Aged(Fresh<F>(), now)
  {
  }

  // ---------- freeing a packet ----------

  /** The cache without the packet at `e`; its slots become a hole. */
  function Freed<F>(c: Cache<F>, e: nat): (d: Cache<F>)
    requires Shape(c) && e < PACKETS
    ensures Shape(d)
  {
    var m := c.metas[e];
    c.(metas := c.metas[e := NoMeta],
       owner := seq(SLOTS, i requires 0 <= i < SLOTS => if In(m, i) then NONE else c.owner[i]),
       frags := seq(SLOTS, i requires 0 <= i < SLOTS => if In(m, i) then None else c.frags[i]))
  }

  lemma FreedRing<F>(c: Cache<F>, e: nat)
    requires Shape(c) && Ring(c) && e < PACKETS && Live(c.metas[e])
    ensures Ring(Freed(c, e))
  {
    hide Pos;
    var d := Freed(c, e);
    forall i | 0 <= i < SLOTS ensures OwnerOk(d, i) {
      assert OwnerOk(c, i);
    }
    forall f, i | 0 <= f < PACKETS && 0 <= i < SLOTS && Live(d.metas[f]) && In(d.metas[f], i) ensures d.owner[i] == f {
      assert c.owner[i] == f;
    }
  }

  /** Masks are in order everywhere but in the run of `e`. */
  ghost predicate MasksBut<F>(c: Cache<F>, e: nat)
    requires Shape(c) && e < PACKETS
  {
    && (forall i :: 0 <= i < SLOTS && c.owner[i] != e ==> SlotOk(c, i))
    && (forall f :: 0 <= f < PACKETS && f != e && Live(c.metas[f]) ==>
          MaskBelow(c.metas[f]) && !IsFull(c.metas[f].have, c.metas[f].count))
  }

  lemma FreedMasks<F>(c: Cache<F>, e: nat)
    requires Shape(c) && Ring(c) && e < PACKETS && MasksBut(c, e) && Live(c.metas[e])
    ensures Masks(Freed(c, e))
  {
    hide Pos, Bit, IsFull;
    var d := Freed(c, e);
    forall i | 0 <= i < SLOTS ensures SlotOk(d, i) {
      assert OwnerOk(c, i);
      if !In(c.metas[e], i) {
        assert SlotOk(c, i);
      }
    }
  }

  lemma FreedAged<F>(c: Cache<F>, e: nat, now: int)
    requires Shape(c) && Aged(c, now) && e < PACKETS
    ensures Aged(Freed(c, e), now)
  {
    hide Pos;
  }

  lemma FreedKeys<F>(c: Cache<F>, e: nat)
    requires Shape(c) && Keys(c) && e < PACKETS
    ensures Keys(Freed(c, e))
  {
    hide Index0, Index1;
    var d := Freed(c, e);
    forall f | 0 <= f < PACKETS ensures KeyOk(d, f) {
      assert KeyOk(c, f);
    }
  }

  /** The used region without the holes at its start. */
  function SkipHoles<F>(c: Cache<F>): (d: Cache<F>)
    requires Shape(c)
    ensures Shape(d) && HeadOwned(d) && c.unused <= d.unused
    ensures d == c.(unused := d.unused)
    decreases SLOTS - c.unused
  {
    if c.unused < SLOTS && c.owner[Head(c)] == NONE then SkipHoles(c.(unused := c.unused + 1)) else c
  }

  /** Holes can be given back one by one. */
  lemma Advanced<F>(c: Cache<F>)
    requires Shape(c) && Ring(c) && c.unused < SLOTS && c.owner[Head(c)] == NONE
    ensures Ring(c.(unused := c.unused + 1))
  {
    var h, d := Head(c), c.(unused := c.unused + 1);
    forall e | 0 <= e < PACKETS && Live(c.metas[e]) ensures Placed(c.metas[e], d.first, d.unused) {
      assert Placed(c.metas[e], c.first, c.unused);
      assert In(c.metas[e], c.metas[e].start);
    }
    forall i | 0 <= i < SLOTS ensures OwnerOk(d, i) {
      assert OwnerOk(c, i);
    }
  }

  lemma {:induction false} SkipHolesKeeps<F>(c: Cache<F>, now: int)
    requires Shape(c) && Ring(c) && Masks(c) && Keys(c)
    ensures Inv(SkipHoles(c))
    ensures Aged(c, now) ==> Aged(SkipHoles(c), now)
    decreases SLOTS - c.unused
  {
    hide Pos, Bit, IsFull, Index0, Index1, OwnerOk, Wrap;
    if c.unused < SLOTS && c.owner[Head(c)] == NONE {
      var d := c.(unused := c.unused + 1);
      Advanced(c);
      forall i | 0 <= i < SLOTS ensures SlotOk(d, i) {
        assert SlotOk(c, i);
      }
      forall f | 0 <= f < PACKETS ensures KeyOk(d, f) {
        assert KeyOk(c, f);
      }
      SkipHolesKeeps(d, now);
    }
  }

  /** What `invalidate` leaves. */
  function Invalidated<F>(c: Cache<F>, e: nat): (d: Cache<F>)
    requires Shape(c) && e < PACKETS
    ensures Shape(d) && c.unused <= d.unused
  {
    var d := Freed(c, e);
    if Head(d) == c.metas[e].start then SkipHoles(d) else d
  }

  lemma InvalidatedKeeps<F>(c: Cache<F>, e: nat, now: int)
    requires Shape(c) && Ring(c) && HeadOwned(c) && Keys(c) && e < PACKETS && MasksBut(c, e) && Live(c.metas[e])
    ensures Inv(Invalidated(c, e))
    ensures Aged(c, now) ==> Aged(Invalidated(c, e), now)
  {
    FreedRing(c, e);
    FreedMasks(c, e);
    FreedKeys(c, e);
    if Aged(c, now) {
      FreedAged(c, e, now);
    }
    var d := Freed(c, e);
    if Head(d) == c.metas[e].start {
      SkipHolesKeeps(d, now);
    } else if c.unused < SLOTS {
      HeadStarts(c);
    }
  }

  // ---------- expiry ----------

  /** The first used slot starts a live packet. */
  lemma HeadStarts<F>(c: Cache<F>)
    requires Shape(c) && Ring(c) && HeadOwned(c) && c.unused < SLOTS
    ensures Head(c) < SLOTS && c.owner[Head(c)] < PACKETS
    ensures Live(c.metas[c.owner[Head(c)]]) && c.metas[c.owner[Head(c)]].start == Head(c)
  {
    assert OwnerOk(c, Head(c));
  }

  /** Freeing the packet at the head moves the head. */
  lemma HeadMoves<F>(c: Cache<F>)
    requires Shape(c) && Ring(c) && HeadOwned(c) && c.unused < SLOTS
    ensures c.owner[Head(c)] < PACKETS && c.unused < Invalidated(c, c.owner[Head(c)]).unused
  {
    HeadStarts(c);
    var e := c.owner[Head(c)];
    assert In(c.metas[e], Head(c));
    assert Freed(c, e).owner[Head(c)] == NONE;
  }

  /** What `check_for_expiry_inner` leaves: the oldest packets are freed until one is young enough. */
  function Expired<F>(c: Cache<F>, timeout: int, now: int): (d: Cache<F>)
    requires Shape(c)
    ensures Shape(d)
    decreases SLOTS - c.unused
  {
    if c.unused < SLOTS && c.owner[Head(c)] < PACKETS && c.metas[c.owner[Head(c)]].created + timeout <= now then
      var d := Invalidated(c, c.owner[Head(c)]);
      if c.unused < d.unused then Expired(d, timeout, now) else d
    else
      c
  }

  /** When the packet at the head expires. */
  function HeadExpiry<F>(c: Cache<F>, timeout: int): int
    requires Shape(c)
  {
    if c.unused < SLOTS && c.owner[Head(c)] < PACKETS then c.metas[c.owner[Head(c)]].created + timeout else NEVER
  }

  lemma InvMasksBut<F>(c: Cache<F>, e: nat)
    requires Inv(c) && e < PACKETS
    ensures MasksBut(c, e)
  {
    hide Pos, Bit, IsFull, Index0, Index1, OwnerOk, Wrap, SlotOk, MaskBelow;
  }

  /** Expiry keeps the invariants, removes only packets that are past the timeout, and stops before a
      packet that is not. With `HeadIsFirst`, if the clock has not run backwards, none that is past
      the timeout stays. */
  lemma {:induction false} ExpiredKeeps<F>(c: Cache<F>, timeout: int, clock: int, now: int)
    requires Inv(c)
    ensures var d := Expired(c, timeout, now);
      && Inv(d)
      && (forall e :: 0 <= e < PACKETS ==> d.metas[e] == c.metas[e] || d.metas[e] == NoMeta)
      && (forall e :: 0 <= e < PACKETS && Live(c.metas[e]) && c.metas[e].created + timeout > now ==>
            d.metas[e] == c.metas[e])
      && (HeadExpiry(d, timeout) > now || d.unused == SLOTS)
      && (Aged(c, clock) ==> Aged(d, clock))
    decreases SLOTS - c.unused
  {
    hide Pos, Bit, IsFull, Index0, Index1, OwnerOk, Wrap, SlotOk, MaskBelow, Ring, Masks, KeyOk, Aged, Placed;
    if c.unused < SLOTS {
      HeadStarts(c);
      var e := c.owner[Head(c)];
      if c.metas[e].created + timeout <= now {
        InvMasksBut(c, e);
        HeadMoves(c);
        InvalidatedKeeps(c, e, clock);
        ExpiredKeeps(Invalidated(c, e), timeout, clock, now);
      }
    }
  }

  /** With every packet freed the whole ring is unused again. */
  lemma AllFreed<F>(c: Cache<F>)
    requires Inv(c) && forall e :: 0 <= e < PACKETS ==> !Live(c.metas[e])
    ensures c.unused == SLOTS
  {
    if c.unused < SLOTS {
      HeadStarts(c);
      assert false;
    }
  }

  lemma NothingHeld<F>(c: Cache<F>)
    requires Inv(c) && forall e :: 0 <= e < PACKETS ==> !Live(c.metas[e])
    ensures Held(c.frags) == multiset{}
  {
    forall i | 0 <= i < SLOTS ensures c.frags[i].None? {
      assert SlotOk(c, i) && OwnerOk(c, i);
    }
    HeldNone(c.frags);
  }

  /** The deadline that expiry reports comes no later than that of any packet in the cache. */
  lemma HeadIsFirst<F>(c: Cache<F>, timeout: int, now: int, e: nat)
    requires Inv(c) && Aged(c, now) && e < PACKETS && Live(c.metas[e])
    ensures c.unused < SLOTS && HeadExpiry(c, timeout) <= c.metas[e].created + timeout
  {
    hide Bit, IsFull, Index0, Index1, SlotOk, MaskBelow, KeyOk;
    assert Placed(c.metas[e], c.first, c.unused);
    HeadStarts(c);
    PosOfWrap(c.first, c.unused);
  }

  // ---------- a new packet ----------

  function NewMeta(key: nat, start: nat, count: nat, now: int): Meta { Meta(key, start, 0, count, 0, now) }

  /** The cache with a run of `count` slots for a new packet. */
  function Allocated<F>(c: Cache<F>, e: nat, key: nat, count: nat, now: int): (d: Cache<F>)
    requires Shape(c) && e < PACKETS && count <= c.unused
    ensures Shape(d)
  {
    c.(metas := c.metas[e := NewMeta(key, c.first, count, now)],
       owner := seq(SLOTS, i requires 0 <= i < SLOTS => if Pos(i, c.first) < count then e else c.owner[i]),
       first := Wrap(c.first + count), unused := c.unused - count)
  }

  lemma UnusedUnowned<F>(c: Cache<F>, i: nat)
    requires Shape(c) && Ring(c) && i < SLOTS && Pos(i, c.first) < c.unused
    ensures c.owner[i] == NONE
  {
    assert OwnerOk(c, i);
    assert c.owner[i] < PACKETS && Live(c.metas[c.owner[i]]) ==> Placed(c.metas[c.owner[i]], c.first, c.unused);
  }

  lemma AllocatedRing<F>(c: Cache<F>, e: nat, key: nat, count: nat, now: int)
    requires Shape(c) && Ring(c) && e < PACKETS && !Live(c.metas[e]) && key != 0
    requires 1 <= count <= MAX_FRAGMENTS && count <= c.unused
    ensures Ring(Allocated(c, e, key, count, now))
  {
    var d := Allocated(c, e, key, count, now);
    forall f | 0 <= f < PACKETS && Live(d.metas[f]) ensures Placed(d.metas[f], d.first, d.unused) {
      assert f != e ==> Placed(c.metas[f], c.first, c.unused);
    }
    forall i | 0 <= i < SLOTS ensures OwnerOk(d, i) {
      assert OwnerOk(c, i);
    }
    forall f, i | 0 <= f < PACKETS && 0 <= i < SLOTS && Live(d.metas[f]) && In(d.metas[f], i) ensures d.owner[i] == f {
      if f != e {
        assert c.owner[i] == f;
        if Pos(i, c.first) < count {
          UnusedUnowned(c, i);
        }
      }
    }
  }

  lemma AllocatedHead<F>(c: Cache<F>, e: nat, key: nat, count: nat, now: int)
    requires Shape(c) && HeadOwned(c) && e < PACKETS && count <= c.unused
    ensures HeadOwned(Allocated(c, e, key, count, now))
  {
    var d := Allocated(c, e, key, count, now);
    if c.unused < SLOTS {
      PosOfWrap(c.first, c.unused);
      assert Head(d) == Head(c);
    } else if count > 0 {
      PosOfWrap(c.first, 0);
      assert Head(d) == c.first;
    }
  }

  lemma AllocatedKeys<F>(c: Cache<F>, e: nat, key: nat, count: nat, now: int)
    requires Shape(c) && Keys(c) && e < PACKETS && !Live(c.metas[e]) && count <= c.unused && key != 0
    requires e == Index0(key) || e == Index1(key)
    requires c.metas[Index0(key)].key != key && c.metas[Index1(key)].key != key
    ensures Keys(Allocated(c, e, key, count, now))
  {
    hide Index0, Index1;
    var d := Allocated(c, e, key, count, now);
    forall f | 0 <= f < PACKETS ensures KeyOk(d, f) && d.metas[f].key == (if f == e then key else c.metas[f].key) {
      assert KeyOk(c, f);
      forall g | 0 <= g < PACKETS && c.metas[g].key == key ensures g == Index0(key) || g == Index1(key) {
        assert KeyOk(c, g);
      }
    }
  }

  lemma AllocatedMasks<F>(c: Cache<F>, e: nat, key: nat, count: nat, now: int)
    requires Shape(c) && Ring(c) && Masks(c) && e < PACKETS && !Live(c.metas[e]) && 1 <= count <= c.unused
    ensures Masks(Allocated(c, e, key, count, now))
  {
    hide Bit, IsFull;
    var d := Allocated(c, e, key, count, now);
    forall j: nat ensures !Bit(0, j) {
      ZeroBit(j);
    }
    forall i | 0 <= i < SLOTS ensures SlotOk(d, i) {
      assert SlotOk(c, i) && OwnerOk(c, i);
      if Pos(i, c.first) < count {
        UnusedUnowned(c, i);
      }
    }
    assert !IsFull(0, count) by {
      EmptyNotFull(count);
    }
  }

  lemma EmptyNotFull(count: nat)
    requires count >= 1
    ensures !IsFull(0, count)
  {
    assert Pow2(count) == 2 * Pow2(count - 1);
  }

  lemma AllocatedAged<F>(c: Cache<F>, e: nat, key: nat, count: nat, now: int)
    requires Shape(c) && Ring(c) && Aged(c, now) && e < PACKETS && !Live(c.metas[e]) && 1 <= count <= c.unused
    ensures Aged(Allocated(c, e, key, count, now), now)
  {
    var d := Allocated(c, e, key, count, now);
    forall f | 0 <= f < PACKETS && Live(d.metas[f])
      ensures Pos(d.metas[f].start, d.first) == if f == e then SLOTS - count else Pos(c.metas[f].start, c.first) - count
      ensures f != e ==> Pos(c.metas[f].start, c.first) < SLOTS
    {
      assert f != e ==> Placed(c.metas[f], c.first, c.unused) && MetaOk(c.metas[f]);
    }
  }

  lemma AllocatedKeeps<F>(c: Cache<F>, e: nat, key: nat, count: nat, now: int)
    requires Inv(c) && e < PACKETS && !Live(c.metas[e]) && key != 0 && 1 <= count <= MAX_FRAGMENTS && count <= c.unused
    requires e == Index0(key) || e == Index1(key)
    requires c.metas[Index0(key)].key != key && c.metas[Index1(key)].key != key
    ensures Inv(Allocated(c, e, key, count, now))
    ensures Aged(c, now) ==> Aged(Allocated(c, e, key, count, now), now)
  {
    AllocatedRing(c, e, key, count, now);
    AllocatedHead(c, e, key, count, now);
    AllocatedKeys(c, e, key, count, now);
    AllocatedMasks(c, e, key, count, now);
    if Aged(c, now) {
      AllocatedAged(c, e, key, count, now);
    }
  }

  // ---------- a fragment ----------

  /** The tests a fragment must pass once its packet has an entry. */
  predicate Wanted(m: Meta, no: nat, count: nat, size: nat) {
    !Bit(m.have, no) && count == m.count && m.size + size <= MAX_PACKET_SIZE
  }

  function Marked(m: Meta, no: nat, size: nat): Meta { m.(have := m.have + Pow2(no), size := m.size + size) }

  /** The cache with a fragment put in its slot. */
  function Filled<F>(c: Cache<F>, e: nat, no: nat, size: nat, body: F): (d: Cache<F>)
    requires Shape(c) && e < PACKETS && c.metas[e].start < SLOTS && no < MAX_FRAGMENTS
    ensures Shape(d)
  {
    var m := c.metas[e];
    c.(metas := c.metas[e := Marked(m, no, size)],
       frags := c.frags[Wrap(m.start + no) := Some(Arrival(m.key, no, m.count, body))])
  }

  lemma MarkedBelow(m: Meta, no: nat, size: nat)
    requires MaskBelow(m) && no < m.count && !Bit(m.have, no)
    ensures MaskBelow(Marked(m, no, size))
  {
    forall j: nat | Bit(Marked(m, no, size).have, j) ensures j < m.count {
      SetBit(m.have, no, j);
    }
  }

  /** Filling a slot keeps everything except that the packet may now be complete. */
  lemma FilledSlots<F>(c: Cache<F>, e: nat, no: nat, size: nat, body: F)
    requires Inv(c) && e < PACKETS && Live(c.metas[e]) && no < c.metas[e].count
      && Wanted(c.metas[e], no, c.metas[e].count, size)
    ensures var d := Filled(c, e, no, size, body);
      && (forall i :: 0 <= i < SLOTS ==> SlotOk(d, i))
      && MaskBelow(d.metas[e])
      && c.frags[Wrap(c.metas[e].start + no)].None?
  {
    hide IsFull, Keys, Bit, MaskBelow;
    var d, m := Filled(c, e, no, size, body), c.metas[e];
    SetBits(m.have, no);
    MarkedBelow(m, no, size);
    var k := Wrap(m.start + no);
    PosOfWrap(m.start, no);
    assert In(m, k);
    assert SlotOk(c, k);
    forall i | 0 <= i < SLOTS ensures SlotOk(d, i) {
      assert SlotOk(c, i) && OwnerOk(c, i);
      assert Pos(i, m.start) == no ==> i == k;
    }
  }

  lemma FilledKeeps<F>(c: Cache<F>, e: nat, no: nat, size: nat, body: F, now: int)
    requires Inv(c) && e < PACKETS && Live(c.metas[e]) && no < c.metas[e].count
      && Wanted(c.metas[e], no, c.metas[e].count, size)
    ensures var d := Filled(c, e, no, size, body);
      && Ring(d) && HeadOwned(d) && Keys(d) && MasksBut(d, e)
      && (!IsFull(d.metas[e].have, d.metas[e].count) ==> Masks(d))
      && (Aged(c, now) ==> Aged(d, now))
  {
    hide IsFull, Bit, Pos, Wrap, SlotOk, Index0, Index1, MaskBelow;
    FilledSlots(c, e, no, size, body);
    var d := Filled(c, e, no, size, body);
    forall i | 0 <= i < SLOTS ensures OwnerOk(d, i) {
      assert OwnerOk(c, i);
    }
    forall f | 0 <= f < PACKETS ensures KeyOk(d, f) && Live(d.metas[f]) == Live(c.metas[f]) {
      assert KeyOk(c, f);
    }
  }

  /** A complete packet: its slots hold its fragments 0 to count - 1, each under the packet's own
      key and count. */
  lemma FullSlots<F>(c: Cache<F>, e: nat, no: nat)
    requires Shape(c) && Ring(c) && e < PACKETS && Live(c.metas[e]) && (forall i :: 0 <= i < SLOTS ==> SlotOk(c, i))
    requires IsFull(c.metas[e].have, c.metas[e].count) && no < c.metas[e].count
    ensures var m := c.metas[e]; var k := Wrap(m.start + no);
      k < SLOTS && c.frags[k].Some? && c.frags[k].value == Arrival(m.key, no, m.count, c.frags[k].value.body)
  {
    var m := c.metas[e];
    FullBit(m.count, no);
    PosOfWrap(m.start, no);
    assert In(m, Wrap(m.start + no));
    assert SlotOk(c, Wrap(m.start + no));
  }

  /** Where the fragments of a packet go, and the cache after any expiry this takes. `None` when
      the fragment finds no room. */
  datatype Located<F> = Located(cache: Cache<F>, index: Option<nat>)

  function Locate<F>(c: Cache<F>, key: nat, count: nat, resend: int, now: int): (r: Located<F>)
    requires Shape(c)
    ensures Shape(r.cache) && (r.index.Some? ==> r.index.value < PACKETS)
  {
    var i0, i1 := Index0(key), Index1(key);
    if c.metas[i0].key == key then Located(c, Some(i0))
    else if c.metas[i1].key == key then Located(c, Some(i1))
    else if c.metas[i0].key == 0 || c.metas[i1].key == 0 then
      var d := if count > c.unused then Expired(c, resend, now) else c;
      Located(d, Some(if d.metas[i0].key == 0 then i0 else i1))
    else
      var d := Expired(c, resend, now);
      Located(d, if d.metas[i0].key == 0 then Some(i0) else if d.metas[i1].key == 0 then Some(i1) else None)
  }

  lemma LocateKeeps<F>(c: Cache<F>, key: nat, count: nat, resend: int, clock: int, now: int)
    requires Inv(c) && key != 0
    ensures var r := Locate(c, key, count, resend, now);
      && Inv(r.cache) && (Aged(c, clock) ==> Aged(r.cache, clock))
      && (r.index.Some? ==>
            && (r.index.value == Index0(key) || r.index.value == Index1(key))
            && ((r.cache.metas[r.index.value].key == key && r.cache == c)
                || (!Live(r.cache.metas[r.index.value])
                    && r.cache.metas[Index0(key)].key != key && r.cache.metas[Index1(key)].key != key)))
  {
    hide Index0, Index1, Aged, Ring, Masks, Keys;
    ExpiredKeeps(c, resend, clock, now);
  }

  /** The cache after a fragment reached the entry of its packet. */
  function Stored<F>(c: Cache<F>, e: nat, no: nat, count: nat, size: nat, body: F): (d: Cache<F>)
    requires Shape(c) && e < PACKETS
  {
    if no >= MAX_FRAGMENTS || c.metas[e].start >= SLOTS || !Wanted(c.metas[e], no, count, size) then c else
    var f := Filled(c, e, no, size, body);
    if IsFull(f.metas[e].have, count) then Invalidated(f, e) else f
  }

  /** What one call of `assemble` leaves. */
  function Assembled<F>(c: Cache<F>, key: nat, no: nat, count: nat, size: nat, body: F, resend: int,
                        now: int): (d: Cache<F>)
    requires Shape(c)
  {
    if no >= count || count > MAX_FRAGMENTS || size > MAX_PACKET_SIZE then c else
    var r := Locate(c, key, count, resend, now);
    if r.index.None? then r.cache else
    var e := r.index.value;
    if !Live(r.cache.metas[e]) && count > r.cache.unused then r.cache else
    var d := if Live(r.cache.metas[e]) then r.cache else Allocated(r.cache, e, key, count, now);
    Stored(d, e, no, count, size, body)
  }

  lemma StoredKeeps<F>(c: Cache<F>, e: nat, no: nat, count: nat, size: nat, body: F, now: int)
    requires Inv(c) && e < PACKETS && Live(c.metas[e]) && no < count
    ensures Inv(Stored(c, e, no, count, size, body))
    ensures Aged(c, now) ==> Aged(Stored(c, e, no, count, size, body), now)
  {
    hide Pos, Wrap, Bit, IsFull, Index0, Index1, Aged, Masks, Keys, HeadOwned, OwnerOk, MasksBut, Placed;
    if Wanted(c.metas[e], no, count, size) {
      FilledKeeps(c, e, no, size, body, now);
      if IsFull(Filled(c, e, no, size, body).metas[e].have, count) {
        InvalidatedKeeps(Filled(c, e, no, size, body), e, now);
      }
    }
  }

  lemma AssembledKeeps<F>(c: Cache<F>, key: nat, no: nat, count: nat, size: nat, body: F, resend: int, now: int)
    requires Inv(c) && key != 0
    ensures Inv(Assembled(c, key, no, count, size, body, resend, now))
    ensures Aged(c, now) ==> Aged(Assembled(c, key, no, count, size, body, resend, now), now)
  {
    hide Ring, Index0, Index1, Aged, Masks, Keys, HeadOwned, Locate, Stored;
    if no < count <= MAX_FRAGMENTS && size <= MAX_PACKET_SIZE {
      LocateKeeps(c, key, count, resend, now, now);
      var r := Locate(c, key, count, resend, now);
      if r.index.Some? && (Live(r.cache.metas[r.index.value]) || count <= r.cache.unused) {
        var e := r.index.value;
        if !Live(r.cache.metas[e]) {
          AllocatedKeeps(r.cache, e, key, count, now);
        }
        var d := if Live(r.cache.metas[e]) then r.cache else Allocated(r.cache, e, key, count, now);
        StoredKeeps(d, e, no, count, size, body, now);
      }
    }
  }

  /** A key is never the mark of an empty entry. */
  function KeyOf(hash: nat): (key: nat)
    ensures key != 0
  {
    if hash == 0 then 1 else hash
  }

  predicate Sane(no: nat, count: nat, size: nat) { no < count <= MAX_FRAGMENTS && size <= MAX_PACKET_SIZE }

  /** The fragment opens a new packet. */
  predicate Opens<F>(c: Cache<F>, key: nat, no: nat, count: nat, size: nat, resend: int, now: int)
    requires Shape(c)
  {
    && Sane(no, count, size)
    && var r := Locate(c, key, count, resend, now);
       r.index.Some? && !Live(r.cache.metas[r.index.value]) && count <= r.cache.unused
  }

  /** The fragment continues a packet that is there and takes it. */
  predicate Continues<F>(c: Cache<F>, key: nat, no: nat, count: nat, size: nat)
    requires Shape(c)
  {
    && Sane(no, count, size)
    && exists e | e in {Index0(key), Index1(key)} :: c.metas[e].key == key && Wanted(c.metas[e], no, count, size)
  }

  predicate Accepts<F>(c: Cache<F>, key: nat, no: nat, count: nat, size: nat, resend: int, now: int)
    requires Shape(c)
  {
    Opens(c, key, no, count, size, resend, now) || Continues(c, key, no, count, size)
  }

  /** Fragment `j` of the packet is in the cache. */
  ghost predicate Holds<F>(c: Cache<F>, key: nat, j: nat, count: nat) {
    exists i :: 0 <= i < |c.frags| && c.frags[i].Some?
      && c.frags[i].value == Arrival(key, j, count, c.frags[i].value.body)
  }

  /** The fragment is accepted and is the last one its packet waits for. */
  ghost predicate Completes<F>(c: Cache<F>, key: nat, no: nat, count: nat, size: nat, resend: int, now: int)
    requires Shape(c)
  {
    && Accepts(c, key, no, count, size, resend, now)
    && forall j: nat :: j < count && j != no ==> Holds(c, key, j, count)
  }

  /** The fragments of an assembled packet, under the names they arrived with. */
  function Labelled<F>(key: nat, count: nat, packet: seq<F>): seq<Arrival<F>> {
    seq(|packet|, j requires 0 <= j < |packet| => Arrival(key, j, count, packet[j]))
  }

  /** A packet's mask names exactly the fragments of it that the cache holds. */
  lemma HoldsIffBit<F>(c: Cache<F>, e: nat, j: nat)
    requires Inv(c) && e < PACKETS && Live(c.metas[e]) && j < c.metas[e].count
    ensures Holds(c, c.metas[e].key, j, c.metas[e].count) <==> Bit(c.metas[e].have, j)
  {
    hide Bit, IsFull, Index0, Index1;
    var m := c.metas[e];
    var k := Wrap(m.start + j);
    PosOfWrap(m.start, j);
    assert In(m, k) && SlotOk(c, k);
    forall i | 0 <= i < SLOTS && c.frags[i].Some? && c.frags[i].value.key == m.key ensures c.owner[i] == e {
      assert SlotOk(c, i) && OwnerOk(c, i) && KeyOk(c, e);
    }
    if Holds(c, m.key, j, m.count) {
      var i :| 0 <= i < |c.frags| && c.frags[i].Some?
        && c.frags[i].value == Arrival(m.key, j, m.count, c.frags[i].value.body);
      assert SlotOk(c, i);
    }
  }

  /** Only packets with an entry have fragments in the cache. */
  lemma HoldsHasEntry<F>(c: Cache<F>, key: nat, j: nat, count: nat)
    requires Inv(c) && key != 0 && Holds(c, key, j, count)
    ensures c.metas[Index0(key)].key == key || c.metas[Index1(key)].key == key
  {
    hide Bit, IsFull, Index0, Index1, Pos, Wrap, MaskBelow;
    var i :| 0 <= i < |c.frags| && c.frags[i].Some?
      && c.frags[i].value == Arrival(key, j, count, c.frags[i].value.body);
    assert SlotOk(c, i) && OwnerOk(c, i);
    assert KeyOk(c, c.owner[i]);
  }

  /** The mask is full once the last missing fragment is there. */
  lemma FullWhen<F>(c: Cache<F>, e: nat, no: nat, size: nat)
    requires Inv(c) && e < PACKETS && Live(c.metas[e]) && no < c.metas[e].count && !Bit(c.metas[e].have, no)
    ensures IsFull(Marked(c.metas[e], no, size).have, c.metas[e].count) <==>
            forall j: nat :: j < c.metas[e].count && j != no ==> Holds(c, c.metas[e].key, j, c.metas[e].count)
  {
    var m := c.metas[e];
    var have := Marked(m, no, size).have;
    assert MaskBelow(m);
    MarkedBelow(m, no, size);
    FullIff(have, m.count);
    forall j: nat | j < m.count ensures Bit(have, j) <==> j == no || Holds(c, m.key, j, m.count) {
      SetBit(m.have, no, j);
      HoldsIffBit(c, e, j);
    }
  }

  /** A new packet is complete at once exactly when it has one fragment. */
  lemma OpensFull<F>(c: Cache<F>, key: nat, start: nat, no: nat, count: nat, size: nat, now: int)
    requires Inv(c) && key != 0 && no < count && c.metas[Index0(key)].key != key && c.metas[Index1(key)].key != key
    ensures IsFull(Marked(NewMeta(key, start, count, now), no, size).have, count) <==>
            forall j: nat :: j < count && j != no ==> Holds(c, key, j, count)
  {
    hide IsFull, Inv, Holds, Index0, Index1;
    var m := NewMeta(key, start, count, now);
    forall j: nat ensures !Bit(0, j) {
      ZeroBit(j);
    }
    MarkedBelow(m, no, size);
    FullIff(Marked(m, no, size).have, count);
    forall j: nat | j < count ensures Bit(Marked(m, no, size).have, j) <==> j == no {
      SetBit(0, no, j);
    }
    forall j: nat ensures !Holds(c, key, j, count) {
      if Holds(c, key, j, count) {
        HoldsHasEntry(c, key, j, count);
      }
    }
    if !IsFull(Marked(m, no, size).have, count) {
      var j: nat :| j < count && !Bit(Marked(m, no, size).have, j);
      assert j != no && !Holds(c, key, j, count);
    } else {
      assert count > 1 ==> Bit(Marked(m, no, size).have, 1);
      assert Bit(Marked(m, no, size).have, 0);
    }
  }

  /** The branches of `assemble`: a fragment whose packet is there is accepted exactly when the
      entry wants it, one whose packet is not there exactly when expiry leaves room for it, and the
      accepted fragment fills the mask exactly when it was the last one missing. */
  lemma Branches<F>(c: Cache<F>, key: nat, no: nat, count: nat, size: nat, resend: int, now: int)
    requires Inv(c) && key != 0 && Sane(no, count, size)
    ensures var r := Locate(c, key, count, resend, now);
      && (r.index.None? ==> !Accepts(c, key, no, count, size, resend, now))
      && (Opens(c, key, no, count, size, resend, now) <==>
            r.index.Some? && !Live(r.cache.metas[r.index.value]) && count <= r.cache.unused)
      && (r.index.Some? && !Live(r.cache.metas[r.index.value]) ==>
            && Accepts(c, key, no, count, size, resend, now) == (count <= r.cache.unused)
            && Wanted(NewMeta(key, r.cache.first, count, now), no, count, size)
            && (count <= r.cache.unused ==>
                  IsFull(Marked(NewMeta(key, r.cache.first, count, now), no, size).have, count) ==
                  Completes(c, key, no, count, size, resend, now)))
      && (r.index.Some? && Live(r.cache.metas[r.index.value]) ==>
            var m := c.metas[r.index.value];
            && Accepts(c, key, no, count, size, resend, now) == Wanted(m, no, count, size)
            && (Wanted(m, no, count, size) ==>
                  IsFull(Marked(m, no, size).have, count) == Completes(c, key, no, count, size, resend, now)))
  {
    assert Shape(c);
    LocateKeeps(c, key, count, resend, now, now);
    var r := Locate(c, key, count, resend, now);
    if r.index.Some? {
      if Live(r.cache.metas[r.index.value]) {
        SameKey(c, key);
        if Wanted(c.metas[r.index.value], no, count, size) {
          FullWhen(c, r.index.value, no, size);
        }
      } else {
        OpensFull(c, key, r.cache.first, no, count, size, now);
        ZeroBit(no);
      }
    }
  }

  /** The same, in the terms of the code's own branches. */
  lemma Summary<F>(c: Cache<F>, key: nat, no: nat, count: nat, size: nat, body: F, resend: int, now: int)
    requires Inv(c) && key != 0
    ensures Shape(c)
    ensures
      var r := Locate(c, key, count, resend, now);
      var opens := r.index.Some? && !Live(r.cache.metas[r.index.value]);
      var m := if opens then NewMeta(key, r.cache.first, count, now)
               else if r.index.Some? then r.cache.metas[r.index.value] else NoMeta;
      var takes := Sane(no, count, size) && r.index.Some? && (opens ==> count <= r.cache.unused)
        && Wanted(m, no, count, size);
      && Opens(c, key, no, count, size, resend, now) == (Sane(no, count, size) && opens && count <= r.cache.unused)
      && Accepts(c, key, no, count, size, resend, now) == takes
      && Completes(c, key, no, count, size, resend, now) == (takes && IsFull(Marked(m, no, size).have, count))
      && Assembled(c, key, no, count, size, body, resend, now) ==
         (if !Sane(no, count, size) then c
          else if r.index.None? then r.cache
          else if !opens then Stored(r.cache, r.index.value, no, count, size, body)
          else if count > r.cache.unused then r.cache
          else Stored(Allocated(r.cache, r.index.value, key, count, now), r.index.value, no, count, size, body))
  {
    assert Shape(c);
    LocateKeeps(c, key, count, resend, now, now);
    if Sane(no, count, size) {
      Branches(c, key, no, count, size, resend, now);
    }
  }

  /** Every packet that is there after a fragment came in was there before, since the same time, or
      is the one the fragment opened. */
  lemma AssembledCreated<F>(c: Cache<F>, key: nat, no: nat, count: nat, size: nat, body: F, resend: int, now: int,
                            e: nat)
    requires Inv(c) && key != 0 && e < PACKETS
    ensures var m := Assembled(c, key, no, count, size, body, resend, now).metas[e];
      Live(m) ==>
        || (Live(c.metas[e]) && m.created == c.metas[e].created)
        || (Opens(c, key, no, count, size, resend, now) && m.created == now)
  {
    hide Inv, Opens, Index0, Index1, Expired, Wanted, IsFull, Ring, Masks, Keys, HeadOwned;
    Summary(c, key, no, count, size, body, resend, now);
    ExpiredKeeps(c, resend, now, now);
  }

  /** The same for all packets: an entry is as old as it was, or was opened now. */
  lemma AssembledSince<F>(c: Cache<F>, key: nat, no: nat, count: nat, size: nat, body: F, resend: int, now: int)
    requires Inv(c) && key != 0
    ensures Shape(c) && Shape(Assembled(c, key, no, count, size, body, resend, now))
    ensures forall e :: 0 <= e < PACKETS ==>
      var m := Assembled(c, key, no, count, size, body, resend, now).metas[e];
      Live(m) ==>
        || (Live(c.metas[e]) && m.created == c.metas[e].created)
        || (Opens(c, key, no, count, size, resend, now) && m.created == now)
  {
    hide Opens, Assembled, Ring, Masks, Keys, HeadOwned;
    AssembledKeeps(c, key, no, count, size, body, resend, now);
    forall e | 0 <= e < PACKETS
      ensures var m := Assembled(c, key, no, count, size, body, resend, now).metas[e];
        Live(m) ==>
          || (Live(c.metas[e]) && m.created == c.metas[e].created)
          || (Opens(c, key, no, count, size, resend, now) && m.created == now)
    {
      AssembledCreated(c, key, no, count, size, body, resend, now, e);
    }
  }

  lemma NoLabels<F>(key: nat, count: nat)
    ensures multiset(Labelled<F>(key, count, [])) == multiset{}
  {
  }

  lemma SameKey<F>(c: Cache<F>, key: nat)
    requires Inv(c) && key != 0
    ensures c.metas[Index0(key)].key != key || c.metas[Index1(key)].key != key
  {
    hide Index0, Index1;
    assert KeyOk(c, Index0(key));
  }

  // ---------- the cache itself ----------

  class UnassociatedFragCache<F> {
    var first: nat
    var unused: nat
    const metas: array<Meta>
    const frags: array<Option<Arrival<F>>>
    const owner: array<nat>
    /** Every fragment ever put in a slot, moved out in a packet, and dropped. */
    ghost var accepted: multiset<Arrival<F>>
    ghost var emitted: multiset<Arrival<F>>
    ghost var dropped: multiset<Arrival<F>>

    ghost function View(): Cache<F>
      reads this, metas, frags, owner
    {
      Cache(first, unused, metas[..], frags[..], owner[..])
    }

    /** Every accepted fragment is in exactly one slot, or was moved out once, or was dropped once. */
    ghost predicate Conserved()
      reads this, frags
    {
      accepted == Held(frags[..]) + emitted + dropped
    }

    ghost predicate Valid()
      reads this, metas, frags, owner
    {
      Inv(View()) && Conserved()
    }

    constructor ()
      ensures Valid() && View() == Fresh() && accepted == multiset{}
      ensures fresh(metas) && fresh(frags) && fresh(owner)
    {
      first := 0;
      unused := SLOTS;
      metas := new Meta[PACKETS](_ => NoMeta);
      frags := new Option<Arrival<F>>[SLOTS](_ => None);
      owner := new nat[SLOTS](_ => NONE);
      accepted, emitted, dropped := multiset{}, multiset{}, multiset{};
      new;
      FreshInv<F>(0);
      HeldNone(frags[..]);
      assert View() == Fresh();
    }

    /** Drops the fragment in a slot, which must hold one. */
    method DropSlot(k: nat)
      requires frags.Length == SLOTS && k < SLOTS && frags[k].Some? && Conserved()
      modifies frags, this`dropped
      ensures frags[..] == old(frags[..])[k := None] && Conserved()
    {
      hide Held;
      HeldUpdate(frags[..], k, None);
      ghost var one := multiset{frags[k].value};
      assert Held(frags[..][k := None]) + one == Held(frags[..]);
      dropped := dropped + one;
      frags[k] := None;
      assert frags[..] == old(frags[..])[k := None];
    }

    /** Gives the slots of a packet back, dropping the fragments its mask names. */
    method Release(drop: bool, idx: nat)
      requires idx < PACKETS && Shape(View()) && Ring(View()) && Conserved() && Live(metas[idx])
      requires drop ==> forall i :: 0 <= i < SLOTS ==> SlotOk(View(), i)
      requires !drop ==> forall i :: 0 <= i < SLOTS && In(metas[idx], i) ==> frags[i].None?
      modifies this`dropped, frags, owner
      ensures forall i :: 0 <= i < SLOTS ==> owner[i] == if In(metas[idx], i) then NONE else old(owner[i])
      ensures forall i :: 0 <= i < SLOTS ==> frags[i] == if In(metas[idx], i) then None else old(frags[i])
      ensures Conserved()
      ensures !drop ==> dropped == old(dropped)
    {
      hide Bit, Held;
      ghost var c := View();
      var entry := metas[idx];
      var start := entry.start;
      for no := 0 to entry.count
        invariant forall i :: 0 <= i < SLOTS ==> owner[i] == if Pos(i, start) < no then NONE else c.owner[i]
        invariant forall i :: 0 <= i < SLOTS ==> frags[i] == if Pos(i, start) < no then None else c.frags[i]
        invariant Conserved()
        invariant !drop ==> dropped == old(dropped)
      {
        var k := Wrap(start + no);
        PosOfWrap(start, no);
        assert In(entry, k);
        owner[k] := NONE;
        assert drop ==> SlotOk(c, k);
        if drop && Bit(entry.have, no) {
          DropSlot(k);
        }
      }
    }

    /** Moves the start of the used region to the first owned slot. */
    method Reclaim()
      requires Shape(View())
      modifies this`unused
      ensures View() == SkipHoles(old(View()))
    {
      ghost var d := View();
      var used := Wrap(first + unused);
      while unused < SLOTS && owner[used] == NONE
        invariant unused <= SLOTS && used == Wrap(first + unused)
        invariant View() == d.(unused := unused)
        invariant SkipHoles(View()) == SkipHoles(d)
        decreases SLOTS - unused
      {
        unused := unused + 1;
        used := Wrap(first + unused);
      }
    }

    method Invalidate(drop: bool, idx: nat)
      requires idx < PACKETS && Shape(View()) && Ring(View()) && Conserved() && Live(metas[idx])
      requires drop ==> forall i :: 0 <= i < SLOTS ==> SlotOk(View(), i)
      requires !drop ==> forall i :: 0 <= i < SLOTS && In(metas[idx], i) ==> frags[i].None?
      modifies this`unused, this`dropped, metas, frags, owner
      ensures View() == Invalidated(old(View()), idx)
      ensures Conserved()
      ensures !drop ==> dropped == old(dropped)
    {
      hide Bit, Held, SlotOk, OwnerOk, Pos;
      ghost var c := View();
      var start := metas[idx].start;
      Release(drop, idx);
      metas[idx] := NoMeta;
      assert View() == Freed(c, idx);
      if Wrap(first + unused) == start {
        Reclaim();
      }
    }

    method CheckForExpiryInner(timeout: int, now: int) returns (expiry: int)
      requires Valid()
      modifies this`unused, this`dropped, metas, frags, owner
      ensures Valid() && View() == Expired(old(View()), timeout, now)
      ensures expiry == HeadExpiry(View(), timeout)
    {
      hide Bit, Held, SlotOk, OwnerOk, Pos, Index0, Index1, KeyOk, MaskBelow, IsFull, Placed;
      ghost var c := View();
      while unused < SLOTS
        invariant Valid()
        invariant Expired(View(), timeout, now) == Expired(c, timeout, now)
        decreases SLOTS - unused
      {
        var head := Wrap(first + unused);
        var idx := owner[head];
        HeadStarts(View());
        if metas[idx].created + timeout <= now {
          HeadMoves(View());
          InvMasksBut(View(), idx);
          InvalidatedKeeps(View(), idx, 0);
          Invalidate(true, idx);
        } else {
          return metas[idx].created + timeout;
        }
      }
      return NEVER;
    }

    method CheckForExpiry(assemblyTimeout: int, now: int) returns (expiry: int)
      requires Valid()
      modifies this`unused, this`dropped, metas, frags, owner
      ensures Valid() && View() == Expired(old(View()), assemblyTimeout, now)
      ensures unused == SLOTS || expiry > now
      ensures forall e :: 0 <= e < PACKETS && old(Live(metas[e]) && metas[e].created + assemblyTimeout > now) ==>
        metas[e] == old(metas[e])
      ensures old(Aged(View(), now)) ==>
        && Aged(View(), now)
        && forall e :: 0 <= e < PACKETS && Live(metas[e]) ==>
             metas[e] == old(metas[e]) && now < expiry <= metas[e].created + assemblyTimeout
    {
      ExpiredKeeps(View(), assemblyTimeout, now, now);
      expiry := CheckForExpiryInner(assemblyTimeout, now);
      hide *;
      forall e | 0 <= e < PACKETS && Live(metas[e]) && Aged(View(), now)
        ensures expiry <= metas[e].created + assemblyTimeout
      {
        HeadIsFirst(View(), assemblyTimeout, now, e);
      }
    }

    /** Takes the next `count` unused slots for a new packet. */
    method Allocate(idx: nat, key: nat, count: nat, now: int)
      requires Shape(View()) && idx < PACKETS && count <= unused
      modifies this`first, this`unused, metas, owner
      ensures View() == Allocated(old(View()), idx, key, count, now)
    {
      ghost var c := View();
      metas[idx] := NewMeta(key, first, count, now);
      for n := 0 to count
        invariant first == Wrap(c.first + n) && unused == c.unused - n
        invariant metas[..] == c.metas[idx := NewMeta(key, c.first, count, now)]
        invariant forall i :: 0 <= i < SLOTS ==> owner[i] == if Pos(i, c.first) < n then idx else c.owner[i]
      {
        owner[first] := idx;
        first := Wrap(first + 1);
        unused := unused - 1;
      }
      assert owner[..] == Allocated(c, idx, key, count, now).owner;
      assert View() == Allocated(c, idx, key, count, now);
    }

    /** Moves the fragment out of a slot, which must hold one. */
    method TakeSlot(k: nat) returns (a: Arrival<F>)
      requires frags.Length == SLOTS && k < SLOTS && frags[k].Some? && Conserved()
      modifies frags, this`emitted
      ensures frags[..] == old(frags[..])[k := None] && Conserved()
      ensures old(frags[k]) == Some(a) && emitted == old(emitted) + multiset{a}
    {
      hide Held;
      HeldUpdate(frags[..], k, None);
      a := frags[k].value;
      assert Held(frags[..][k := None]) + multiset{a} == Held(frags[..]);
      emitted := emitted + multiset{a};
      frags[k] := None;
      assert frags[..] == old(frags[..])[k := None];
    }

    /** Puts a fragment in an empty slot. */
    method PutSlot(k: nat, a: Arrival<F>)
      requires frags.Length == SLOTS && k < SLOTS && frags[k].None? && Conserved()
      modifies frags, this`accepted
      ensures frags[..] == old(frags[..])[k := Some(a)] && Conserved()
      ensures accepted == old(accepted) + multiset{a}
    {
      hide Held;
      HeldUpdate(frags[..], k, Some(a));
      assert Held(frags[..][k := Some(a)]) == Held(frags[..]) + multiset{a};
      accepted := accepted + multiset{a};
      frags[k] := Some(a);
      assert frags[..] == old(frags[..])[k := Some(a)];
    }

    /** Moves a complete packet out of its slots. */
    method TakeOut(idx: nat) returns (packet: seq<F>)
      requires idx < PACKETS && Shape(View()) && Ring(View()) && Conserved() && Live(metas[idx])
      requires forall i :: 0 <= i < SLOTS ==> SlotOk(View(), i)
      requires IsFull(metas[idx].have, metas[idx].count)
      modifies this`emitted, frags
      ensures forall i :: 0 <= i < SLOTS ==> frags[i] == if In(metas[idx], i) then None else old(frags[i])
      ensures Conserved()
      ensures |packet| == metas[idx].count
      ensures emitted == old(emitted) + multiset(Labelled(metas[idx].key, metas[idx].count, packet))
    {
      hide Bit, Held, IsFull, SlotOk, OwnerOk;
      ghost var c := View();
      var entry := metas[idx];
      var start, count := entry.start, entry.count;
      packet := [];
      for no := 0 to count
        invariant forall i :: 0 <= i < SLOTS ==> frags[i] == if Pos(i, start) < no then None else c.frags[i]
        invariant Conserved()
        invariant |packet| == no
        invariant emitted == old(emitted) + multiset(Labelled(entry.key, count, packet))
      {
        var k := Wrap(start + no);
        PosOfWrap(start, no);
        FullSlots(c, idx, no);
        var a := TakeSlot(k);
        assert Labelled(entry.key, count, packet + [a.body]) == Labelled(entry.key, count, packet) + [a];
        packet := packet + [a.body];
      }
    }

    /** Moves a complete packet out of the cache. */
    method Move(idx: nat) returns (packet: seq<F>)
      requires idx < PACKETS && Shape(View()) && Ring(View()) && Conserved() && Live(metas[idx])
      requires forall i :: 0 <= i < SLOTS ==> SlotOk(View(), i)
      requires IsFull(metas[idx].have, metas[idx].count)
      modifies this`unused, this`emitted, this`dropped, metas, frags, owner
      ensures View() == Invalidated(old(View()), idx)
      ensures Conserved() && dropped == old(dropped)
      ensures |packet| == old(metas[idx].count)
      ensures emitted == old(emitted) + multiset(Labelled(old(metas[idx].key), old(metas[idx].count), packet))
    {
      hide SlotOk, IsFull, Pos, Held, SkipHoles;
      ghost var c := View();
      packet := TakeOut(idx);
      ghost var d := View();
      forall i | 0 <= i < SLOTS ensures OwnerOk(d, i) {
        assert OwnerOk(c, i);
      }
      assert Freed(d, idx) == Freed(c, idx);
      Invalidate(false, idx);
    }

    /** The entry for a packet, after making room where that is needed. */
    method Find(key: nat, count: nat, resend: int, now: int) returns (index: Option<nat>)
      requires Valid() && key != 0
      modifies this`unused, this`dropped, metas, frags, owner
      ensures Valid() && Located(View(), index) == Locate(old(View()), key, count, resend, now)
    {
      assert Shape(View());
      hide Inv, Expired, Index0, Index1, Conserved;
      ghost var c := View();
      var i0, i1 := Index0(key), Index1(key);
      assert metas[i0] == c.metas[i0] && metas[i1] == c.metas[i1];
      if metas[i0].key == key {
        return Some(i0);
      } else if metas[i1].key == key {
        return Some(i1);
      } else if metas[i0].key == 0 || metas[i1].key == 0 {
        if count > unused {
          var _ := CheckForExpiryInner(resend, now);
        }
        return Some(if metas[i0].key == 0 then i0 else i1);
      } else {
        var _ := CheckForExpiryInner(resend, now);
        return if metas[i0].key == 0 then Some(i0) else if metas[i1].key == 0 then Some(i1) else None;
      }
    }

    /** Puts a fragment in its packet's slot. */
    method Put(idx: nat, no: nat, size: nat, fragment: F)
      requires Valid() && idx < PACKETS && Live(metas[idx]) && no < metas[idx].count
        && Wanted(metas[idx], no, metas[idx].count, size)
      modifies this`accepted, metas, frags
      ensures View() == Filled(old(View()), idx, no, size, fragment) && Ring(View()) && Conserved()
      ensures metas[idx] == Marked(old(metas[idx]), no, size)
      ensures forall i :: 0 <= i < SLOTS ==> SlotOk(View(), i)
      ensures accepted == old(accepted) + multiset{Arrival(metas[idx].key, no, metas[idx].count, fragment)}
    {
      hide Keys, HeadOwned, Masks, Bit, IsFull, Held, Pos, SlotOk, OwnerOk;
      ghost var c := View();
      var m := metas[idx];
      FilledSlots(c, idx, no, size, fragment);
      FilledKeeps(c, idx, no, size, fragment, 0);
      metas[idx] := Marked(m, no, size);
      PutSlot(Wrap(m.start + no), Arrival(m.key, no, m.count, fragment));
      assert View() == Filled(c, idx, no, size, fragment);
    }

    /** Puts a fragment in its packet's slot, and moves the packet out if it is complete. */
    method Store(idx: nat, no: nat, count: nat, size: nat, fragment: F) returns (packet: seq<F>)
      requires Valid() && idx < PACKETS && Live(metas[idx]) && no < count
      modifies this`unused, this`accepted, this`emitted, this`dropped, metas, frags, owner
      ensures Valid() && View() == Stored(old(View()), idx, no, count, size, fragment)
      ensures
        var m := old(metas[idx]);
        var full := Wanted(m, no, count, size) && IsFull(Marked(m, no, size).have, count);
        && |packet| == (if full then count else 0)
        && emitted == old(emitted) + multiset(Labelled(m.key, count, packet))
        && accepted == old(accepted) +
             if Wanted(m, no, count, size) then multiset{Arrival(m.key, no, count, fragment)} else multiset{}
    {
      ghost var c := View();
      var m := metas[idx];
      packet := [];
      StoredKeeps(c, idx, no, count, size, fragment, 0);
      hide Keys, HeadOwned, Masks, Ring, Bit, IsFull, Held, Pos, SlotOk, Invalidated, Filled;
      if Wanted(m, no, count, size) {
        Put(idx, no, size, fragment);
        if IsFull(metas[idx].have, count) {
          packet := Move(idx);
        }
      }
    }

    /** Makes an entry for the packet if there is none, and puts the fragment in it. */
    method Enter(idx: nat, key: nat, no: nat, count: nat, size: nat, fragment: F, assemblyTimeout: int, now: int)
      returns (newExpiry: Option<int>, packet: seq<F>)
      requires Valid() && idx < PACKETS && key != 0 && Sane(no, count, size)
      requires idx == Index0(key) || idx == Index1(key)
      requires var c := View();
        || c.metas[idx].key == key
        || (!Live(c.metas[idx]) && c.metas[Index0(key)].key != key && c.metas[Index1(key)].key != key)
      modifies this, metas, frags, owner
      ensures Valid()
      ensures
        var c := old(View());
        var opens := !Live(c.metas[idx]);
        var m := if opens then NewMeta(key, c.first, count, now) else c.metas[idx];
        var takes := (opens ==> count <= c.unused) && Wanted(m, no, count, size);
        && View() == (if !opens then Stored(c, idx, no, count, size, fragment)
                      else if count > c.unused then c
                      else Stored(Allocated(c, idx, key, count, now), idx, no, count, size, fragment))
        && newExpiry == (if opens && count <= c.unused then Some(now + assemblyTimeout) else None)
        && accepted == old(accepted) + (if takes then multiset{Arrival(key, no, count, fragment)} else multiset{})
        && |packet| == (if takes && IsFull(Marked(m, no, size).have, count) then count else 0)
        && emitted == old(emitted) + multiset(Labelled(key, count, packet))
    {
      assert Shape(View());
      newExpiry, packet := None, [];
      assert |Labelled(key, count, packet)| == 0;
      if metas[idx].key == 0 {
        if count > unused {
          return;
        }
        newExpiry := Some(now + assemblyTimeout);
        AllocatedKeeps(View(), idx, key, count, now);
        Allocate(idx, key, count, now);
      }
      packet := Store(idx, no, count, size, fragment);
    }

    /** Adds a fragment. The caller learns the deadline of a packet this opens and gets the packet
        this completes. */
    method Assemble(hash: nat, size: nat, fragment: F, no: nat, count: nat, resend: int, assemblyTimeout: int, now: int)
      returns (newExpiry: Option<int>, packet: seq<F>)
      requires Valid()
      modifies this, metas, frags, owner
      ensures Valid() && View() == Assembled(old(View()), KeyOf(hash), no, count, size, fragment, resend, now)
      ensures newExpiry ==
        if old(Opens(View(), KeyOf(hash), no, count, size, resend, now)) then Some(now + assemblyTimeout) else None
      ensures accepted == old(accepted) +
        if old(Accepts(View(), KeyOf(hash), no, count, size, resend, now))
        then multiset{Arrival(KeyOf(hash), no, count, fragment)} else multiset{}
      ensures |packet| == if old(Completes(View(), KeyOf(hash), no, count, size, resend, now)) then count else 0
      ensures emitted == old(emitted) + multiset(Labelled(KeyOf(hash), count, packet))
    {
      hide Inv, Locate, Opens, Accepts, Completes, Stored, IsFull, Wanted, Marked, Allocated, Labelled, KeyOf, Held,
        Index0, Index1, Conserved, NewMeta, Assembled, Shape;
      newExpiry, packet := None, [];
      ghost var c := View();
      var key := KeyOf(hash);
      Summary(c, key, no, count, size, fragment, resend, now);
      NoLabels<F>(key, count);
      if no >= count || count > MAX_FRAGMENTS || size > MAX_PACKET_SIZE {
        return;
      }
      var index := Find(key, count, resend, now);
      if index.None? {
        return;
      }
      LocateKeeps(c, key, count, resend, now, now);
      newExpiry, packet := Enter(index.value, key, no, count, size, fragment, assemblyTimeout, now);
    }

    /** The cache goes away: every fragment still held is dropped. */
    method Drop()
      requires Valid()
      modifies this`unused, this`dropped, metas, frags, owner
      ensures Valid() && unused == SLOTS && Held(frags[..]) == multiset{}
      ensures accepted == emitted + dropped
    {
      hide Bit, Held, SlotOk, OwnerOk, Pos, Index0, Index1, KeyOk, MaskBelow, IsFull, Placed, SkipHoles;
      for i := 0 to PACKETS
        invariant Valid()
        invariant forall e :: 0 <= e < i ==> !Live(metas[e])
      {
        if metas[i].key != 0 {
          InvMasksBut(View(), i);
          InvalidatedKeeps(View(), i, 0);
          Invalidate(true, i);
        }
      }
      AllFreed(View());
      NothingHeld(View());
    }
  }
}
