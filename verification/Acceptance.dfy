/** Which fragments the cache of fragments that belong to no session takes, said of the fragments that
    it holds, and what the entry of a packet then says. */
module Acceptance {
  import opened Wrappers
  import opened Common
  import opened Bits
  import opened FragCache

  /** A fragment of a packet that has an entry is taken if and only if its numbers are in order, it says
      the packet's count, that fragment is not held yet, and the sizes of all its fragments stay within
      the limit. A fragment that is not taken changes nothing; one that is adds to the packet's size. */
  lemma KnownTaken<F>(c: Cache<F>, e: nat, no: nat, count: nat, size: nat, body: F, resend: int, now: int)
    requires Inv(c) && e < PACKETS && c.metas[e].key != 0
    ensures
      var m := c.metas[e];
      var d := Assembled(c, m.key, no, count, size, body, resend, now);
      && (Accepts(c, m.key, no, count, size, resend, now) <==>
            no < count == m.count && count <= 48 && !Holds(c, m.key, no, count) && m.size + size <= MAX_PACKET_SIZE)
      && (!Accepts(c, m.key, no, count, size, resend, now) ==> d == c)
      && (Accepts(c, m.key, no, count, size, resend, now) && !Completes(c, m.key, no, count, size, resend, now) ==>
            && d.metas[e].key == m.key && d.metas[e].count == count && d.metas[e].created == m.created
            && d.metas[e].size == m.size + size && Holds(d, m.key, no, count)
            && forall f :: 0 <= f < PACKETS && f != e ==> d.metas[f] == c.metas[f])
  {
    hide Index0, Index1, Bit, IsFull, Ring, Masks, HeadOwned, Pos, Opens, Expired;
    var key := c.metas[e].key;
    assert KeyOk(c, e);
    Summary(c, key, no, count, size, body, resend, now);
    if no < c.metas[e].count { HoldsIffBit(c, e, no); }
    if Accepts(c, key, no, count, size, resend, now) {
      FilledHolds(c, e, no, count, size, body);
    }
  }

  lemma FilledHolds<F>(c: Cache<F>, e: nat, no: nat, count: nat, size: nat, body: F)
    requires Inv(c) && e < PACKETS && c.metas[e].key != 0 && no < MAX_FRAGMENTS && c.metas[e].count == count
    ensures c.metas[e].start < SLOTS && Holds(Filled(c, e, no, size, body), c.metas[e].key, no, count)
  {
    var m, d := c.metas[e], Filled(c, e, no, size, body);
    var k := Wrap(m.start + no);
    assert d.frags[k] == Some(Arrival(m.key, no, count, body));
  }

  /** Neither of the two entries that a packet may have is its. */
  predicate Unknown<F>(c: Cache<F>, key: nat)
    requires Shape(c)
  {
    c.metas[Index0(key)].key != key && c.metas[Index1(key)].key != key
  }

  /** A fragment of a packet without an entry is taken if one of its two entries is free and the ring has
      room for all its fragments, if necessary after what is older than the resend time has gone; and
      then the entry says this fragment's count and size and the present time. */
  lemma NewTaken<F>(c: Cache<F>, key: nat, no: nat, count: nat, size: nat, body: F, resend: int, now: int)
    requires Inv(c) && key != 0 && Unknown(c, key)
    ensures
      var r := if (c.metas[Index0(key)].key != 0 && c.metas[Index1(key)].key != 0) || count > c.unused
               then Expired(c, resend, now) else c;
      Accepts(c, key, no, count, size, resend, now) <==>
        && no < count <= 48 && size <= MAX_PACKET_SIZE
        && (r.metas[Index0(key)].key == 0 || r.metas[Index1(key)].key == 0) && count <= r.unused
    ensures
      var d := Assembled(c, key, no, count, size, body, resend, now);
      Accepts(c, key, no, count, size, resend, now) && count > 1 ==>
        exists e | e in {Index0(key), Index1(key)} ::
          && d.metas[e].key == key && d.metas[e].count == count && d.metas[e].size == size
          && d.metas[e].created == now && Holds(d, key, no, count)
  {
    hide Index0, Index1, Bit, IsFull, Ring, Masks, HeadOwned, Pos, Expired;
    Summary(c, key, no, count, size, body, resend, now);
    LocateKeeps(c, key, count, resend, now, now);
    if Accepts(c, key, no, count, size, resend, now) && count > 1 {
      var r := Locate(c, key, count, resend, now);
      OpenedHolds(r.cache, r.index.value, key, no, count, size, body, now);
    }
  }

  lemma OpenedHolds<F>(c: Cache<F>, e: nat, key: nat, no: nat, count: nat, size: nat, body: F, now: int)
    requires Inv(c) && e < PACKETS && no < count <= MAX_FRAGMENTS && count <= c.unused && 1 < count
    ensures
      var a := Allocated(c, e, key, count, now);
      && a.metas[e].start < SLOTS && !IsFull(Filled(a, e, no, size, body).metas[e].have, count)
      && Holds(Filled(a, e, no, size, body), key, no, count)
  {
    var a := Allocated(c, e, key, count, now);
    var k := Wrap(a.metas[e].start + no);
    assert Filled(a, e, no, size, body).frags[k] == Some(Arrival(key, no, count, body));
    var have := Marked(a.metas[e], no, size).have;
    forall j: nat ensures !Bit(0, j) { ZeroBit(j); }
    MarkedBelow(a.metas[e], no, size);
    FullIff(have, count);
    var other: nat := if no == 0 then 1 else 0;
    SetBit(0, no, other);
  }
}
