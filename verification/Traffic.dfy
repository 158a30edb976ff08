/** The receiver of fragments under arbitrary traffic: what it refuses leaves no trace, and what it
    holds or hands out passed the caller's test when it arrived. */
module Traffic {
  import opened Wrappers
  import opened Fragmentation
  import opened Reassembly

  // ---------- one fragment ----------

  function NonceOf(f: Bytes): Bytes
    requires |f| >= HEADER_SIZE
  {
    f[NONCE_START..HEADER_SIZE]
  }

  /** Long enough, with a fragment number below its count and a count within the limit. */
  predicate WellFormed(hk: Option<Prp>, raw: Bytes) {
    && |raw| >= MIN_PACKET_SIZE
    && var f := Unsealed(hk, raw);
       |f| >= MIN_PACKET_SIZE && f[FRAGMENT_NO] < f[FRAGMENT_COUNT] && f[FRAGMENT_COUNT] <= 48
  }

  /** The caller's test passes on the fragment's own nonce, number and count. */
  predicate Vouches(hk: Option<Prp>, raw: Bytes, vrfy: Verifier)
    requires WellFormed(hk, raw)
  {
    var f := Unsealed(hk, raw);
    vrfy(NonceOf(f), f[FRAGMENT_NO], f[FRAGMENT_COUNT])
  }

  /** A fragment that is malformed, or that the caller's test refuses, changes nothing and is reported as
      that; a packet is handed out, or more is waited for, only when the test has passed. */
  lemma Refuses(hk: Option<Prp>, buffers: Buffers, raw: Bytes, now: int, timeout: int, vrfy: Verifier)
    ensures
      var (b, r) := Received(hk, buffers, raw, now, timeout, vrfy);
      && (!WellFormed(hk, raw) ==> b == buffers && r == Invalid(true))
      && (r == Unverified <==> WellFormed(hk, raw) && !Vouches(hk, raw, vrfy))
      && (r == Unverified || r.Invalid? ==> b == buffers)
      && (r.Packet? || r.Pending? ==> WellFormed(hk, raw) && Vouches(hk, raw, vrfy))
  {
    hide Unsealed;
  }

  /** A fragment that is waited for next to others is held, and renews its packet's time; the first one
      allows the others one byte more than its own length. Longer ones, ones with another count and ones
      that are there already are refused. Nothing else changes. */
  lemma Keeps(hk: Option<Prp>, buffers: Buffers, raw: Bytes, now: int, timeout: int, vrfy: Verifier)
    requires WellFormed(hk, raw) && Vouches(hk, raw, vrfy)
    ensures
      var (b, r) := Received(hk, buffers, raw, now, timeout, vrfy);
      var f := Unsealed(hk, raw);
      var n, no, count := NonceOf(f), f[FRAGMENT_NO], f[FRAGMENT_COUNT];
      && (r == Invalid(false) <==>
            && n in buffers
            && (count != |buffers[n].fragments| || buffers[n].fragments[no].Some? || |f| > buffers[n].maxSize))
      && (n !in buffers && count == 1 ==> b == buffers && r == Packet(n, f[HEADER_SIZE..]))
      && (r != Invalid(false) && (n in buffers || count > 1) ==>
            && n in b && |b[n].fragments| == count && b[n].fragments[no] == Some(f) && b[n].expiry == now + timeout
            && b[n].maxSize == (if n in buffers then buffers[n].maxSize else |f| + 1)
            && forall i :: 0 <= i < count && i != no ==>
                 b[n].fragments[i] == if n in buffers then buffers[n].fragments[i] else None)
      && forall m :: m != n ==> (m in b <==> m in buffers) && (m in b ==> b[m] == buffers[m])
  {
    hide Unsealed, Joined;
  }

  // ---------- arbitrary traffic ----------

  datatype Event =
    | Arrives(raw: Bytes, now: int, timeout: int, vrfy: Verifier)
    | Services(now: int)

  /** The buffers after the first `k` events. */
  function BuffersAfter(hk: Option<Prp>, es: seq<Event>, k: nat): Buffers
    requires k <= |es|
  {
    if k == 0 then map[] else
      var b := BuffersAfter(hk, es, k - 1);
      match es[k - 1]
      case Arrives(raw, now, timeout, vrfy) => Received(hk, b, raw, now, timeout, vrfy).0
      case Services(now) => Serviced(b, now)
  }

  /** What is reported for an arrival. */
  function ReportOf(hk: Option<Prp>, es: seq<Event>, k: nat): Reception
    requires k < |es| && es[k].Arrives?
  {
    Received(hk, BuffersAfter(hk, es, k), es[k].raw, es[k].now, es[k].timeout, es[k].vrfy).1
  }

  /** The event brought the fragment `f` with this nonce, number and count, and its test passed. */
  predicate Brings(hk: Option<Prp>, e: Event, n: Bytes, no: nat, count: nat, f: Bytes) {
    && e.Arrives? && WellFormed(hk, e.raw) && Vouches(hk, e.raw, e.vrfy)
    && f == Unsealed(hk, e.raw) && NonceOf(f) == n && f[FRAGMENT_NO] == no && f[FRAGMENT_COUNT] == count
  }

  ghost predicate Vouched(hk: Option<Prp>, es: seq<Event>, k: nat, n: Bytes, no: nat, count: nat, f: Bytes)
    requires k <= |es|
  {
    exists j :: 0 <= j < k && Brings(hk, es[j], n, no, count, f)
  }

  lemma VouchedLater(hk: Option<Prp>, es: seq<Event>, k: nat, n: Bytes, no: nat, count: nat, f: Bytes)
    requires k < |es| && Vouched(hk, es, k, n, no, count, f)
    ensures Vouched(hk, es, k + 1, n, no, count, f)
  {
  }

  /** A buffer holds vouched fragments of its own nonce and count, and knows how many. */
  ghost predicate BufferOk(hk: Option<Prp>, es: seq<Event>, k: nat, n: Bytes, b: Buffer)
    requires k <= |es|
  {
    && b.total == CountSome(b.fragments) && |b.fragments| > 0
    && forall no :: 0 <= no < |b.fragments| && b.fragments[no].Some? ==>
         Vouched(hk, es, k, n, no, |b.fragments|, b.fragments[no].value)
  }

  ghost predicate AllOk(hk: Option<Prp>, es: seq<Event>, k: nat, buffers: Buffers)
    requires k <= |es|
  {
    forall n :: n in buffers ==> BufferOk(hk, es, k, n, buffers[n])
  }

  /** A packet put together from vouched fragments, one for each number. */
  ghost predicate Genuine(hk: Option<Prp>, es: seq<Event>, k: nat, n: Bytes, bytes: Bytes)
    requires k <= |es|
  {
    exists fs: seq<Option<Bytes>> :: Whole(hk, es, k, n, fs) && bytes == Joined(fs, |fs|)
  }

  ghost predicate Whole(hk: Option<Prp>, es: seq<Event>, k: nat, n: Bytes, fs: seq<Option<Bytes>>)
    requires k <= |es|
  {
    |fs| > 0 && forall no :: 0 <= no < |fs| ==> fs[no].Some? && Vouched(hk, es, k, n, no, |fs|, fs[no].value)
  }

  lemma BufferLater(hk: Option<Prp>, es: seq<Event>, k: nat, n: Bytes, b: Buffer)
    requires k < |es| && BufferOk(hk, es, k, n, b)
    ensures BufferOk(hk, es, k + 1, n, b)
  {
    hide Brings, CountSome;
    forall no | 0 <= no < |b.fragments| && b.fragments[no].Some?
      ensures Vouched(hk, es, k + 1, n, no, |b.fragments|, b.fragments[no].value)
    {
      VouchedLater(hk, es, k, n, no, |b.fragments|, b.fragments[no].value);
    }
  }

  /** One more vouched fragment. */
  lemma PlacedOk(hk: Option<Prp>, es: seq<Event>, k: nat, buffers: Buffers, n: Bytes, no: nat, count: nat, f: Bytes,
                 expiry: int)
    requires k < |es| && AllOk(hk, es, k, buffers) && no < count && Brings(hk, es[k], n, no, count, f)
    ensures
      var (b, r) := Placed(buffers, n, no, count, f, expiry);
      && (r.Packet? ==> r.nonce == n && Genuine(hk, es, k + 1, n, r.bytes))
      && AllOk(hk, es, k + 1, b)
  {
    hide Brings, CountSome, Joined, Body;
    forall m | m in buffers ensures BufferOk(hk, es, k + 1, m, buffers[m]) { BufferLater(hk, es, k, m, buffers[m]); }
    assert Vouched(hk, es, k + 1, n, no, count, f);
    if n in buffers && count == |buffers[n].fragments| && buffers[n].fragments[no].None? {
      var fs := buffers[n].fragments;
      var gs := fs[no := Some(f)];
      CountSomeUpdate(fs, no, f);
      CountSomeAll(gs);
      forall i | 0 <= i < |gs| && gs[i].Some? ensures Vouched(hk, es, k + 1, n, i, |gs|, gs[i].value) {
        if i != no { assert gs[i] == fs[i]; }
      }
      if CountSome(gs) == |gs| { assert Whole(hk, es, k + 1, n, gs); }
    } else if n !in buffers {
      var none: seq<Option<Bytes>> := seq(count, _ => None);
      CountNone(count);
      CountSomeUpdate(none, no, f);
      if count == 1 {
        OneJoined(f);
        assert Whole(hk, es, k + 1, n, [Some(f)]);
      }
    }
  }

  lemma OneJoined(f: Bytes)
    ensures Joined([Some(f)], 1) == Body(f)
  {
    assert Joined([Some(f)], 0) == [];
  }

  lemma AllLater(hk: Option<Prp>, es: seq<Event>, k: nat, buffers: Buffers)
    requires k < |es| && AllOk(hk, es, k, buffers)
    ensures AllOk(hk, es, k + 1, buffers)
  {
    hide BufferOk;
    forall n | n in buffers ensures BufferOk(hk, es, k + 1, n, buffers[n]) { BufferLater(hk, es, k, n, buffers[n]); }
  }

  lemma ReceivedOk(hk: Option<Prp>, es: seq<Event>, k: nat, buffers: Buffers)
    requires k < |es| && AllOk(hk, es, k, buffers) && es[k].Arrives?
    ensures
      var e := es[k];
      var (b, r) := Received(hk, buffers, e.raw, e.now, e.timeout, e.vrfy);
      && AllOk(hk, es, k + 1, b)
      && (r.Packet? ==> Genuine(hk, es, k + 1, r.nonce, r.bytes))
  {
    hide AllOk, Genuine, Unsealed, Placed, BufferOk;
    var e := es[k];
    Refuses(hk, buffers, e.raw, e.now, e.timeout, e.vrfy);
    AllLater(hk, es, k, buffers);
    if WellFormed(hk, e.raw) && Vouches(hk, e.raw, e.vrfy) {
      var f := Unsealed(hk, e.raw);
      PlacedOk(hk, es, k, buffers, NonceOf(f), f[FRAGMENT_NO], f[FRAGMENT_COUNT], f, e.now + e.timeout);
    }
  }

  lemma {:induction false} BuffersOk(hk: Option<Prp>, es: seq<Event>, k: nat)
    requires k <= |es|
    ensures AllOk(hk, es, k, BuffersAfter(hk, es, k))
  {
    hide BufferOk, Received;
    if k > 0 {
      BuffersOk(hk, es, k - 1);
      if es[k - 1].Arrives? {
        ReceivedOk(hk, es, k - 1, BuffersAfter(hk, es, k - 1));
      } else {
        AllLater(hk, es, k - 1, BuffersAfter(hk, es, k - 1));
      }
    }
  }

  /** Whatever arrives, in whatever order, with services in between and with a test that may change from
      call to call: every fragment that is held passed the test when it arrived, under the nonce, number
      and count it is held under. */
  lemma HeldIsVouched(hk: Option<Prp>, es: seq<Event>, k: nat, n: Bytes, no: nat)
    requires k <= |es| && n in BuffersAfter(hk, es, k)
    requires var fs := BuffersAfter(hk, es, k)[n].fragments; no < |fs| && fs[no].Some?
    ensures var fs := BuffersAfter(hk, es, k)[n].fragments; Vouched(hk, es, k, n, no, |fs|, fs[no].value)
  {
    hide BuffersAfter, Vouched;
    BuffersOk(hk, es, k);
  }

  /** And every packet that is handed out consists of such fragments, one for each number, joined in
      order. */
  lemma DeliveredIsVouched(hk: Option<Prp>, es: seq<Event>, k: nat)
    requires k < |es| && es[k].Arrives? && ReportOf(hk, es, k).Packet?
    ensures Genuine(hk, es, k + 1, ReportOf(hk, es, k).nonce, ReportOf(hk, es, k).bytes)
  {
    hide BuffersAfter, Genuine, Received;
    BuffersOk(hk, es, k);
    ReceivedOk(hk, es, k, BuffersAfter(hk, es, k));
  }
}
