/** The defragmenter of one packet at a time that a session uses for each of its counters' slots. */
module Fragged {
  import opened Wrappers
  import opened Bits
  import opened Common
  import opened Slots

  /** `u64::MAX`, which marks an idle defragmenter. */
  const NO_NONCE: nat := 0xFFFF_FFFF_FFFF_FFFF

  /** A fragment with the counter, number and count it arrived under. No operation looks at the labels. */
  datatype Arrival<T> = Arrival(nonce: nat, no: nat, count: nat, body: T)

  datatype Packet<T> = Packet(nonce: nat, count: nat, have: nat, frags: seq<Option<Arrival<T>>>)

  ghost predicate SlotOk<T>(p: Packet<T>, i: nat)
    requires i < |p.frags|
  {
    && (p.frags[i].Some? <==> Bit(p.have, i))
    && (p.frags[i].Some? ==>
          p.frags[i].value.nonce == p.nonce && p.frags[i].value.count == p.count && p.frags[i].value.no == i)
  }

  /** A slot holds a fragment exactly when the mask says so, and it is that fragment of the current
      packet; the packet is not complete. The counter `u64::MAX` may also be that of a packet. */
  ghost predicate Inv<T>(p: Packet<T>) {
    && |p.frags| == MAX_FRAGMENTS
    && (forall i :: 0 <= i < MAX_FRAGMENTS ==> SlotOk(p, i))
    && (forall j: nat :: Bit(p.have, j) ==> j < p.count)
    && p.count <= MAX_FRAGMENTS
    && (p.count > 0 ==> !IsFull(p.have, p.count))
  }

  function Empty<T>(): Packet<T> { Packet(NO_NONCE, 0, 0, seq(MAX_FRAGMENTS, _ => None)) }

  lemma EmptyInv<T>()
    ensures Inv(Empty<T>())
  {
    forall j: nat ensures !Bit(0, j) {
      ZeroBit(j);
    }
  }

  /** The packet that a fragment with this counter joins. */
  function Joined<T>(p: Packet<T>, nonce: nat, count: nat): Packet<T> {
    if nonce == p.nonce then p else Empty().(nonce := nonce, count := count)
  }

  predicate Accepts<T>(p: Packet<T>, nonce: nat, no: nat, count: nat) {
    && no < count <= MAX_FRAGMENTS
    && var q := Joined(p, nonce, count);
       !Bit(q.have, no) && q.count == count
  }

  /** An idle defragmenter takes any well-formed fragment, except under the counter `u64::MAX`, which it
      takes for its own idle mark; a busy one takes that counter like any other. */
  lemma IdleRefuses<T>(nonce: nat, no: nat, count: nat)
    ensures Accepts<T>(Empty(), nonce, no, count) <==> nonce != NO_NONCE && no < count <= MAX_FRAGMENTS
    ensures forall p: Packet<T> :: p.nonce != nonce ==> (Accepts(p, nonce, no, count) <==> no < count <= MAX_FRAGMENTS)
  {
    ZeroBit(no);
  }

  ghost predicate Holds<T>(p: Packet<T>, nonce: nat, j: nat) {
    p.nonce == nonce && j < |p.frags| && p.frags[j].Some?
  }

  /** The fragment is accepted and was the last one missing. */
  ghost predicate Completes<T>(p: Packet<T>, nonce: nat, no: nat, count: nat) {
    Accepts(p, nonce, no, count) && forall j: nat :: j < count && j != no ==> Holds(p, nonce, j)
  }

  function Filled<T>(p: Packet<T>, no: nat, body: T): Packet<T>
    requires |p.frags| == MAX_FRAGMENTS && no < MAX_FRAGMENTS
  {
    p.(have := p.have + Pow2(no), frags := p.frags[no := Some(Arrival(p.nonce, no, p.count, body))])
  }

  /** What one call of `assemble` leaves. */
  function Assembled<T>(p: Packet<T>, nonce: nat, no: nat, count: nat, body: T): Packet<T>
    requires |p.frags| == MAX_FRAGMENTS
  {
    if !(no < count <= MAX_FRAGMENTS) then p else
    var q := Joined(p, nonce, count);
    if !Accepts(p, nonce, no, count) then q else
    var f := Filled(q, no, body);
    if IsFull(f.have, count) then Empty() else f
  }

  /** A fresh packet is in order as soon as it has room for one fragment. */
  lemma JoinedInv<T>(p: Packet<T>, nonce: nat, count: nat)
    requires Inv(p) && 1 <= count <= MAX_FRAGMENTS
    ensures Inv(Joined(p, nonce, count))
  {
    forall j: nat ensures !Bit(0, j) {
      ZeroBit(j);
    }
    assert Pow2(count) == 2 * Pow2(count - 1);
  }

  lemma FilledSlots<T>(p: Packet<T>, no: nat, body: T)
    requires Inv(p) && no < p.count && !Bit(p.have, no)
    ensures var f := Filled(p, no, body);
      && (forall i :: 0 <= i < MAX_FRAGMENTS ==> SlotOk(f, i))
      && (forall j: nat :: Bit(f.have, j) ==> j < f.count)
  {
    var f := Filled(p, no, body);
    forall i | 0 <= i < MAX_FRAGMENTS ensures SlotOk(f, i) {
      SetBit(p.have, no, i);
      assert SlotOk(p, i);
    }
    forall j: nat | Bit(f.have, j) ensures j < f.count {
      SetBit(p.have, no, j);
    }
  }

  /** The mask is full exactly when the accepted fragment was the last one missing. */
  lemma FullWhen<T>(p: Packet<T>, nonce: nat, no: nat, count: nat, body: T)
    requires Inv(p) && Accepts(p, nonce, no, count)
    ensures IsFull(Filled(Joined(p, nonce, count), no, body).have, count) <==> Completes(p, nonce, no, count)
  {
    hide IsFull, Holds;
    JoinedInv(p, nonce, count);
    var q := Joined(p, nonce, count);
    FilledSlots(q, no, body);
    var f := Filled(q, no, body);
    FullIff(f.have, count);
    forall j: nat | j < count ensures Bit(f.have, j) <==> j == no || Holds(p, nonce, j) {
      SetBit(q.have, no, j);
      HoldsIff(p, nonce, count, j);
    }
    if IsFull(f.have, count) {
      forall j: nat | j < count && j != no ensures Holds(p, nonce, j) {
        assert Bit(f.have, j);
      }
    } else {
      var j: nat :| j < count && !Bit(f.have, j);
      assert !Holds(p, nonce, j);
    }
  }

  lemma HoldsIff<T>(p: Packet<T>, nonce: nat, count: nat, j: nat)
    requires Inv(p) && j < MAX_FRAGMENTS
    ensures Holds(p, nonce, j) <==> Bit(Joined(p, nonce, count).have, j)
  {
    ZeroBit(j);
    assert SlotOk(p, j);
  }

  /** A fragment of the packet under way is taken if and only if its numbers are in order, it says the
      packet's count and that fragment is not held yet; then it is held, unless the packet is complete. */
  lemma SameTaken<T>(p: Packet<T>, no: nat, count: nat, body: T)
    requires Inv(p)
    ensures Accepts(p, p.nonce, no, count) <==> no < count == p.count && count <= 48 && !Holds(p, p.nonce, no)
    ensures Accepts(p, p.nonce, no, count) && !Completes(p, p.nonce, no, count) ==>
      var d := Assembled(p, p.nonce, no, count, body);
      d.nonce == p.nonce && d.count == count && forall j :: Holds(d, p.nonce, j) <==> j == no || Holds(p, p.nonce, j)
  {
    hide IsFull;
    if no < count <= MAX_FRAGMENTS { HoldsIff(p, p.nonce, count, no); }
    if Accepts(p, p.nonce, no, count) { FullWhen(p, p.nonce, no, count, body); }
  }

  lemma AssembledInv<T>(p: Packet<T>, nonce: nat, no: nat, count: nat, body: T)
    requires Inv(p)
    ensures Inv(Assembled(p, nonce, no, count, body))
  {
    hide IsFull, Bit, SlotOk;
    if no < count <= MAX_FRAGMENTS {
      JoinedInv(p, nonce, count);
      EmptyInv<T>();
      if Accepts(p, nonce, no, count) {
        FilledSlots(Joined(p, nonce, count), no, body);
      }
    }
  }

  lemma CompletesAccepts<T>(p: Packet<T>, nonce: nat, no: nat, count: nat)
    ensures Completes(p, nonce, no, count) ==> Accepts(p, nonce, no, count)
  {
  }

  lemma Sized<T>(p: Packet<T>)
    requires Inv(p)
    ensures |p.frags| == MAX_FRAGMENTS
  {
  }

  /** The slots of a complete packet hold its fragments in order and nothing else. */
  lemma FullSlots<T>(p: Packet<T>, no: nat, body: T)
    requires Inv(p) && no < p.count && !Bit(p.have, no) && IsFull(Filled(p, no, body).have, p.count)
    ensures var f := Filled(p, no, body).frags;
      && (forall i :: 0 <= i < p.count ==> f[i].Some? && f[i].value == Arrival(p.nonce, i, p.count, f[i].value.body))
      && (forall i :: p.count <= i < MAX_FRAGMENTS ==> f[i].None?)
  {
    FilledSlots(p, no, body);
    var q := Filled(p, no, body);
    forall i | 0 <= i < MAX_FRAGMENTS
      ensures q.frags[i].Some? <==> i < p.count
      ensures q.frags[i].Some? ==> q.frags[i].value == Arrival(p.nonce, i, p.count, q.frags[i].value.body)
    {
      FullBit(p.count, i);
      assert SlotOk(q, i);
    }
  }

  /** The fragments of an assembled packet, under the names they arrived with. */
  function Labelled<T>(nonce: nat, count: nat, packet: seq<T>): seq<Arrival<T>> {
    seq(|packet|, j requires 0 <= j < |packet| => Arrival(nonce, j, count, packet[j]))
  }

  /** `rest` is the mask shifted right by `i`. */
  ghost predicate Tail(rest: nat, have: nat, i: nat) { forall j: nat :: Bit(rest, j) <==> Bit(have, i + j) }

  /** The low bit tells about slot `i`, and shifting once more moves on to the next slot. */
  lemma HalfTail<T>(rest: nat, p: Packet<T>, i: nat)
    requires Inv(p) && Tail(rest, p.have, i)
    ensures Tail(rest / 2, p.have, i + 1)
    ensures rest % 2 == 1 ==> i < MAX_FRAGMENTS
    ensures i < MAX_FRAGMENTS ==> (p.frags[i].Some? <==> rest % 2 == 1)
  {
    assert Bit(rest, 0) == Bit(p.have, i + 0);
    assert i < MAX_FRAGMENTS ==> SlotOk(p, i);
    forall j: nat ensures Bit(rest / 2, j) <==> Bit(p.have, i + 1 + j) {
      assert Bit(rest, j + 1) == Bit(p.have, i + (j + 1));
    }
  }

  lemma WholeTail(have: nat)
    ensures Tail(have, have, 0)
  {
  }

  lemma NoTail<T>(p: Packet<T>, i: nat)
    requires Inv(p) && Tail(0, p.have, i)
    ensures forall k :: i <= k < MAX_FRAGMENTS ==> p.frags[k].None?
  {
    forall k | i <= k < MAX_FRAGMENTS ensures p.frags[k].None? {
      ZeroBit(k - i);
      assert Bit(0, k - i) == Bit(p.have, i + (k - i));
      assert SlotOk(p, k);
    }
  }

  class Defragmenter<T> {
    var nonce: nat
    var count: nat
    var have: nat
    const frags: array<Option<Arrival<T>>>
    /** Every fragment ever taken in, moved out in a packet, and dropped. */
    ghost var accepted: multiset<Arrival<T>>
    ghost var emitted: multiset<Arrival<T>>
    ghost var dropped: multiset<Arrival<T>>

    ghost function View(): Packet<T>
      reads this, frags
    {
      Packet(nonce, count, have, frags[..])
    }

    ghost predicate Conserved()
      reads this, frags
    {
      accepted == Held(frags[..]) + emitted + dropped
    }

    ghost predicate Valid()
      reads this, frags
    {
      Inv(View()) && Conserved()
    }

    constructor ()
      ensures Valid() && View() == Empty() && accepted == multiset{} && fresh(frags)
    {
      nonce, count, have := NO_NONCE, 0, 0;
      frags := new Option<Arrival<T>>[MAX_FRAGMENTS](_ => None);
      accepted, emitted, dropped := multiset{}, multiset{}, multiset{};
      new;
      EmptyInv<T>();
      HeldNone(frags[..]);
      assert View() == Empty();
    }

    /** Takes the fragment out of a slot, which must hold one, to drop it or to hand it on. */
    method Release(k: nat, drop: bool) returns (a: Arrival<T>)
      requires k < frags.Length && frags[k].Some? && Conserved()
      modifies frags, this`dropped, this`emitted
      ensures frags[..] == old(frags[..])[k := None] && old(frags[k]) == Some(a) && Conserved()
      ensures if drop then emitted == old(emitted) else emitted == old(emitted) + multiset{a}
      ensures if drop then dropped == old(dropped) + multiset{a} else dropped == old(dropped)
    {
      hide Held;
      HeldUpdate(frags[..], k, None);
      a := frags[k].value;
      assert Held(frags[..][k := None]) + multiset{a} == Held(frags[..]);
      if drop {
        dropped := dropped + multiset{a};
      } else {
        emitted := emitted + multiset{a};
      }
      frags[k] := None;
      assert frags[..] == old(frags[..])[k := None];
    }

    method DropInPlace()
      requires Valid()
      modifies this`nonce, this`count, this`have, this`dropped, this`emitted, frags
      ensures Valid() && View() == Empty() && emitted == old(emitted)
    {
      hide Held, Inv, Tail;
      ghost var p := View();
      Sized(p);
      WholeTail(have);
      var rest, i := have, 0;
      while rest != 0
        invariant Tail(rest, p.have, i)
        invariant forall k :: 0 <= k < MAX_FRAGMENTS ==> frags[k] == if k < i then None else p.frags[k]
        invariant Conserved() && emitted == old(emitted)
        decreases rest
      {
        HalfTail(rest, p, i);
        if rest % 2 == 1 {
          var _ := Release(i, true);
        }
        rest := rest / 2;
        i := i + 1;
      }
      NoTail(p, i);
      have, count, nonce := 0, 0, NO_NONCE;
      EmptyInv<T>();
      HeldNone(frags[..]);
      assert frags[..] == Empty<T>().frags;
      assert View() == Empty();
    }

    /** Moves a complete packet out, in order. */
    method Move(ghost nonce: nat, count: nat) returns (packet: seq<T>)
      requires frags.Length == MAX_FRAGMENTS && count <= MAX_FRAGMENTS && Conserved()
      requires forall i :: 0 <= i < count ==>
        frags[i].Some? && frags[i].value == Arrival(nonce, i, count, frags[i].value.body)
      modifies frags, this`emitted, this`dropped
      ensures Conserved() && dropped == old(dropped)
      ensures forall i :: 0 <= i < MAX_FRAGMENTS ==> frags[i] == if i < count then None else old(frags[i])
      ensures |packet| == count
      ensures emitted == old(emitted) + multiset(Labelled(nonce, count, packet))
    {
      hide Held;
      packet := [];
      for i := 0 to count
        invariant forall k :: 0 <= k < MAX_FRAGMENTS ==> frags[k] == if k < i then None else old(frags[k])
        invariant Conserved() && dropped == old(dropped) && |packet| == i
        invariant emitted == old(emitted) + multiset(Labelled(nonce, count, packet))
      {
        var a := Release(i, false);
        assert Labelled(nonce, count, packet + [a.body]) == Labelled(nonce, count, packet) + [a];
        packet := packet + [a.body];
      }
    }

    /** Puts a fragment in its empty slot. */
    method Put(no: nat, fragment: T)
      requires Valid() && no < count && !Bit(have, no)
      modifies this`have, this`accepted, frags
      ensures View() == Filled(old(View()), no, fragment) && Conserved()
      ensures accepted == old(accepted) + multiset{Arrival(nonce, no, count, fragment)}
    {
      hide Held, Bit;
      assert SlotOk(View(), no);
      var a := Arrival(nonce, no, count, fragment);
      HeldUpdate(frags[..], no, Some(a));
      assert Held(frags[..][no := Some(a)]) == Held(frags[..]) + multiset{a};
      accepted := accepted + multiset{a};
      have := have + Pow2(no);
      frags[no] := Some(a);
      assert frags[..] == old(frags[..])[no := Some(a)];
    }

    /** Puts a fragment in the packet it belongs to, and moves the packet out if it is complete. */
    method Store(no: nat, fragment: T) returns (packet: seq<T>)
      requires Valid() && no < count && !Bit(have, no)
      modifies this, frags
      ensures Conserved() && dropped == old(dropped)
      ensures var f := Filled(old(View()), no, fragment); var full := IsFull(f.have, f.count);
        && View() == (if full then Empty() else f)
        && |packet| == (if full then f.count else 0)
        && emitted == old(emitted) + multiset(Labelled(f.nonce, f.count, packet))
        && accepted == old(accepted) + multiset{Arrival(f.nonce, no, f.count, fragment)}
    {
      hide Held, Bit, IsFull, SlotOk;
      packet := [];
      ghost var p := View();
      Put(no, fragment);
      if IsFull(have, count) {
        FullSlots(p, no, fragment);
        var total := count;
        ghost var counter := nonce;
        have, count, nonce := 0, 0, NO_NONCE;
        packet := Move(counter, total);
        assert frags[..] == Empty<T>().frags;
      }
    }

    /** Makes room for a packet with this counter, dropping what another one had. */
    method Join(nonce: nat, count: nat)
      requires Valid() && 1 <= count <= MAX_FRAGMENTS
      modifies this`nonce, this`count, this`have, this`dropped, this`emitted, frags
      ensures Valid() && View() == Joined(old(View()), nonce, count) && emitted == old(emitted)
      ensures nonce == old(this.nonce) ==> dropped == old(dropped)
    {
      hide Held, Inv, Empty;
      JoinedInv(View(), nonce, count);
      if nonce != this.nonce {
        DropInPlace();
        this.count := count;
        this.nonce := nonce;
        assert View() == Empty().(nonce := nonce, count := count);
      }
    }

    /** Adds a fragment and returns the packet that it completes. A fragment with another counter
        first drops what the previous packet had. */
    method Assemble(nonce: nat, fragment: T, no: nat, count: nat) returns (packet: seq<T>)
      requires Valid()
      modifies this, frags
      ensures Valid() && View() == Assembled(old(View()), nonce, no, count, fragment)
      ensures |packet| == if old(Completes(View(), nonce, no, count)) then count else 0
      ensures emitted == old(emitted) + multiset(Labelled(nonce, count, packet))
      ensures accepted == old(accepted) +
        if old(Accepts(View(), nonce, no, count)) then multiset{Arrival(nonce, no, count, fragment)} else multiset{}
      ensures nonce == old(this.nonce) ==> dropped == old(dropped)
    {
      hide Held, Bit, IsFull, SlotOk, Completes, Inv, Empty, Pow2;
      packet := [];
      ghost var p := View();
      Sized(p);
      assert Labelled(nonce, count, packet) == [];
      CompletesAccepts(p, nonce, no, count);
      AssembledInv(p, nonce, no, count, fragment);
      if no < count <= MAX_FRAGMENTS {
        Join(nonce, count);
        if !Bit(have, no) && this.count == count {
          FullWhen(p, nonce, no, count, fragment);
          packet := Store(no, fragment);
        }
      }
    }
  }
}
