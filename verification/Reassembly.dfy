/** Reassembly of fragments that arrive in any order, and the round trip with the sender. */
module Reassembly {
  import opened Wrappers
  import opened Common
  import opened Fragmentation

  datatype Buffer = Buffer(fragments: seq<Option<Bytes>>, maxSize: nat, total: nat, expiry: int)

  type Buffers = map<Bytes, Buffer>

  /** What the receiver reports for one fragment. */
  datatype Reception = Invalid(unnatural: bool) | Unverified | Pending | Packet(nonce: Bytes, bytes: Bytes)

  /** The caller's test of a fragment's nonce, number and count. */
  type Verifier = (Bytes, nat, nat) -> bool

  // ---------- one fragment ----------

  function Body(f: Bytes): Bytes { if |f| >= HEADER_SIZE then f[HEADER_SIZE..] else [] }

  /** The payloads of the first `n` fragments, joined. */
  function Joined(fragments: seq<Option<Bytes>>, n: nat): Bytes
    requires n <= |fragments|
  {
    if n == 0 then [] else
      Joined(fragments, n - 1) + if fragments[n - 1].Some? then Body(fragments[n - 1].value) else []
  }

  function CountSome(fragments: seq<Option<Bytes>>): nat {
    if fragments == [] then 0 else CountSome(fragments[1..]) + if fragments[0].Some? then 1 else 0
  }

  lemma {:induction false} CountSomeUpdate(s: seq<Option<Bytes>>, i: nat, f: Bytes)
    requires i < |s| && s[i].None?
    ensures CountSome(s[i := Some(f)]) == CountSome(s) + 1
  {
    if i > 0 {
      assert s[i := Some(f)][1..] == s[1..][i - 1 := Some(f)];
      CountSomeUpdate(s[1..], i - 1, f);
    } else {
      assert s[i := Some(f)][1..] == s[1..];
    }
  }

  /** The count reaches the length exactly when no fragment is missing. */
  lemma {:induction false} CountSomeAll(s: seq<Option<Bytes>>)
    ensures CountSome(s) <= |s|
    ensures CountSome(s) == |s| <==> forall i :: 0 <= i < |s| ==> s[i].Some?
  {
    if s != [] {
      CountSomeAll(s[1..]);
      if CountSome(s) == |s| {
        forall i | 0 <= i < |s| ensures s[i].Some? {
          if i > 0 {
            assert s[i] == s[1..][i - 1];
          }
        }
      } else if CountSome(s[1..]) < |s| - 1 {
        var i :| 0 <= i < |s[1..]| && s[1..][i].None?;
        assert s[i + 1].None?;
      }
    }
  }

  lemma {:induction false} CountNone(n: nat)
    ensures CountSome(seq(n, _ => None)) == 0
  {
    if n > 0 {
      var s: seq<Option<Bytes>> := seq(n, _ => None);
      CountNone(n - 1);
      assert s[1..] == seq(n - 1, _ => None);
    }
  }

  /** The buffers and the report after one fragment. */
  function Received(hk: Option<Prp>, buffers: Buffers, raw: Bytes, now: int, timeout: int, vrfy: Verifier)
    : (Buffers, Reception)
  {
    if |raw| < MIN_PACKET_SIZE then (buffers, Invalid(true)) else
    var f := Unsealed(hk, raw);
    if |f| < MIN_PACKET_SIZE then (buffers, Invalid(true)) else
    var no, count, n := f[FRAGMENT_NO], f[FRAGMENT_COUNT], f[NONCE_START..HEADER_SIZE];
    if no >= count || count > MAX_FRAGMENTS then (buffers, Invalid(true)) else
    if !vrfy(n, no, count) then (buffers, Unverified) else Placed(buffers, n, no, count, f, now + timeout)
  }

  /** What a verified fragment does to the buffers. */
  function Placed(buffers: Buffers, n: Bytes, no: nat, count: nat, f: Bytes, expiry: int): (Buffers, Reception)
    requires no < count
  {
    if n in buffers then
      var b := buffers[n];
      if count != |b.fragments| || b.fragments[no].Some? || |f| > b.maxSize then (buffers, Invalid(false)) else
      var b' := Buffer(b.fragments[no := Some(f)], b.maxSize, b.total + 1, expiry);
      (buffers[n := b'], if b'.total < |b'.fragments| then Pending else Packet(n, Joined(b'.fragments, |b'.fragments|)))
    else if count == 1 then
      (buffers, Packet(n, Body(f)))
    else
      (buffers[n := Buffer(seq(count, _ => None)[no := Some(f)], |f| + 1, 1, expiry)], Pending)
  }

  /** What a service leaves: the code keeps the buffers that have expired. */
  function Serviced(buffers: Buffers, now: int): Buffers {
    map n | n in buffers && buffers[n].expiry < now :: buffers[n]
  }

  /** The bodies of the fragments that are there, in order. */
  method Join(fragments: seq<Option<Bytes>>) returns (packet: Bytes)
    ensures packet == Joined(fragments, |fragments|)
  {
    packet := [];
    for i := 0 to |fragments|
      invariant packet == Joined(fragments, i)
    {
      if fragments[i].Some? {
        packet := packet + Body(fragments[i].value);
      }
    }
  }

  class DefragBuffer {
    var fragmentMap: Buffers
    const hkRecv: Option<Prp>

    constructor (hk: Option<Prp>)
      ensures hkRecv == hk && fragmentMap == map[]
    {
      hkRecv := hk;
      fragmentMap := map[];
    }

    method Service(now: int)
      modifies this
      ensures fragmentMap == Serviced(old(fragmentMap), now)
    {
      fragmentMap := map n | n in fragmentMap && fragmentMap[n].expiry < now :: fragmentMap[n];
    }

    /** The rest of `received_fragment`, for a fragment whose header is in order. */
    method Place(n: Bytes, no: nat, count: nat, raw: Bytes, expiry: int) returns (r: Reception)
      requires no < count && |raw| >= HEADER_SIZE
      modifies this
      ensures (fragmentMap, r) == Placed(old(fragmentMap), n, no, count, raw, expiry)
    {
      hide Joined;
      if n in fragmentMap {
        var buffer := fragmentMap[n];
        if count != |buffer.fragments| || buffer.fragments[no].Some? || |raw| > buffer.maxSize {
          return Invalid(false);
        }
        buffer := buffer.(
          fragments := buffer.fragments[no := Some(raw)], total := buffer.total + 1, expiry := expiry);
        fragmentMap := fragmentMap[n := buffer];
        if buffer.total < |buffer.fragments| {
          return Pending;
        }
        var packet := Join(buffer.fragments);
        return Packet(n, packet);
      }
      if count == 1 {
        return Packet(n, raw[HEADER_SIZE..]);
      }
      fragmentMap := fragmentMap[n := Buffer(seq(count, _ => None)[no := Some(raw)], |raw| + 1, 1, expiry)];
      return Pending;
    }

    method ReceivedFragment(rawFragment: Bytes, now: int, timeout: int, vrfy: Verifier) returns (r: Reception)
      requires KeyOk(hkRecv)
      modifies this
      ensures (fragmentMap, r) == Received(hkRecv, old(fragmentMap), rawFragment, now, timeout, vrfy)
    {
      hide Placed;
      var raw := rawFragment;
      if |raw| < MIN_PACKET_SIZE {
        return Invalid(true);
      }
      if hkRecv.Some? {
        DecryptedLength(hkRecv, raw);
        raw := raw[..AUTH_START] + hkRecv.value.dec(raw[AUTH_START..AUTH_END]) + raw[AUTH_END..];
      }
      var no, count := raw[FRAGMENT_NO], raw[FRAGMENT_COUNT];
      if no >= count || count > MAX_FRAGMENTS {
        return Invalid(true);
      }
      var n := raw[NONCE_START..HEADER_SIZE];
      if !vrfy(n, no, count) {
        return Unverified;
      }
      r := Place(n, no, count, raw, now + timeout);
    }
  }

  lemma DecryptedLength(hk: Option<Prp>, raw: Bytes)
    requires KeyOk(hk)
    ensures |Unsealed(hk, raw)| == |raw|
  {
    if hk.Some? && |raw| >= AUTH_END {
      assert |hk.value.dec(raw[AUTH_START..AUTH_END])| == 16;
    }
  }

  // ---------- the packet that is sent ----------

  /** Everything that determines the fragments of one packet. */
  datatype Outgoing = Outgoing(kid: Bytes, nonce: Bytes, packet: Bytes, mtu: nat, hk: Option<Prp>) {
    function Total(): nat { if mtu > HEADER_SIZE then Count(|packet|, mtu - HEADER_SIZE) else 0 }
  }

  ghost predicate Sendable(s: Outgoing) {
    && |s.kid| == 4 && |s.nonce| == 10 && KeyOk(s.hk)
    && s.mtu >= MIN_TRANSPORT_MTU && |s.packet| >= TAG_SIZE
    && s.Total() <= MAX_FRAGMENTS
  }

  lemma AtLeastOne(s: Outgoing)
    requires Sendable(s)
    ensures s.Total() >= 1
  {
    CountPositive(|s.packet|, s.mtu - HEADER_SIZE);
  }

  function Frag(s: Outgoing, no: nat): Bytes
    requires no < s.Total()
  {
    Fragment(s.kid, s.nonce, s.packet, s.Total(), s.hk, no)
  }

  /** The part of the packet that a fragment carries. */
  function Part(s: Outgoing, no: nat): Bytes
    requires no < s.Total()
  {
    InBounds(|s.packet|, s.Total(), no);
    s.packet[Start(|s.packet|, s.Total(), no)..Start(|s.packet|, s.Total(), no + 1)]
  }

  /** The fragment before it was sealed. */
  function Plain(s: Outgoing, no: nat): Bytes
    requires no < s.Total()
  {
    Header(s.kid, s.Total(), no, s.nonce) + Part(s, no)
  }

  /** The receiver reads the header that the sender wrote, and finds no fragment too short. Any two
      fragments differ in length by at most one. */
  lemma Parsed(s: Outgoing, no: nat)
    requires Sendable(s) && no < s.Total()
    ensures var f := Plain(s, no);
      && Unsealed(s.hk, Frag(s, no)) == f && |Frag(s, no)| == |f|
      && |f| >= MIN_PACKET_SIZE && |f| <= s.mtu
      && f[FRAGMENT_NO] == no && f[FRAGMENT_COUNT] == s.Total() && f[NONCE_START..HEADER_SIZE] == s.nonce
      && Body(f) == Part(s, no)
      && var base := HEADER_SIZE + |s.packet| / s.Total(); base <= |f| <= base + 1
  {
    hide Sealed, Unsealed, Permutes;
    var len, c, f := |s.packet|, s.Total(), Plain(s, no);
    InBounds(len, c, no);
    UnsealedSealed(s.hk, f);
    LargeEnough(len, s.mtu);
    SizeFits(len, s.mtu - HEADER_SIZE, no);
  }

  lemma FragmentsDiffer(s: Outgoing, i: nat, j: nat)
    requires Sendable(s) && i < s.Total() && j < s.Total() && Frag(s, i) == Frag(s, j)
    ensures i == j
  {
    hide Frag, Plain;
    Parsed(s, i);
    Parsed(s, j);
  }

  // ---------- runs of the receiver ----------

  /** A fragment from the network, at a time. */
  datatype Arrival = Arrival(raw: Bytes, now: int)

  /** The buffers after the first `k` arrivals. */
  function After(hk: Option<Prp>, buffers: Buffers, trace: seq<Arrival>, timeout: int, vrfy: Verifier, k: nat): Buffers
    requires k <= |trace|
  {
    if k == 0 then buffers else
      Received(hk, After(hk, buffers, trace, timeout, vrfy, k - 1), trace[k - 1].raw, trace[k - 1].now, timeout, vrfy).0
  }

  /** What the receiver reports for arrival `k`. */
  function Report(hk: Option<Prp>, buffers: Buffers, trace: seq<Arrival>, timeout: int, vrfy: Verifier,
                  k: nat): Reception
    requires k < |trace|
  {
    Received(hk, After(hk, buffers, trace, timeout, vrfy, k), trace[k].raw, trace[k].now, timeout, vrfy).1
  }

  /** The bytes are too short or carry, once decrypted, another nonce than the packet's. */
  predicate Foreign(s: Outgoing, raw: Bytes) {
    var f := Unsealed(s.hk, raw);
    |raw| < MIN_PACKET_SIZE || |f| < MIN_PACKET_SIZE || f[NONCE_START..HEADER_SIZE] != s.nonce
  }

  /** The number of a fragment of the packet. */
  function Numbers(s: Outgoing, raw: Bytes): set<nat> {
    set no | 0 <= no < s.Total() && raw == Frag(s, no)
  }

  /** The numbers of the fragments among the first `k` arrivals. */
  function Arrived(s: Outgoing, trace: seq<Arrival>, k: nat): set<nat>
    requires k <= |trace|
  {
    set no | 0 <= no < s.Total() && exists t :: 0 <= t < k && trace[t].raw == Frag(s, no)
  }

  lemma ArrivedNext(s: Outgoing, trace: seq<Arrival>, k: nat)
    requires k < |trace|
    ensures Arrived(s, trace, k + 1) == Arrived(s, trace, k) + Numbers(s, trace[k].raw)
  {
    hide Frag;
  }

  predicate Complete(s: Outgoing, numbers: set<nat>) { forall no :: 0 <= no < s.Total() ==> no in numbers }

  /** The arrival of the fragments with the numbers `more` completes the packet. A packet of one
      fragment is complete whenever that fragment arrives. */
  predicate Completes(s: Outgoing, numbers: set<nat>, more: set<nat>) {
    if s.Total() == 1 then more != {} else !Complete(s, numbers) && Complete(s, numbers + more)
  }

  /** The buffer of the packet once the fragments with these numbers have arrived. A packet of one
      fragment has none. */
  ghost predicate Holds(s: Outgoing, buffers: Buffers, numbers: set<nat>) {
    if numbers == {} || s.Total() == 1 then s.nonce !in buffers else
      && s.nonce in buffers && s.Total() > 0
      && var b := buffers[s.nonce];
         && |b.fragments| == s.Total()
         && (forall no :: 0 <= no < s.Total() ==> b.fragments[no] == if no in numbers then Some(Plain(s, no)) else None)
         && b.total == CountSome(b.fragments)
         && b.maxSize >= HEADER_SIZE + |s.packet| / s.Total() + 1
  }

  lemma JoinSlices(p: Bytes, i: nat, j: nat)
    requires i <= j <= |p|
    ensures p[..i] + p[i..j] == p[..j]
  {
  }

  lemma {:induction false} JoinedParts(s: Outgoing, fragments: seq<Option<Bytes>>, n: nat)
    requires Sendable(s) && n <= |fragments| == s.Total()
    requires forall no :: 0 <= no < s.Total() ==> fragments[no] == Some(Plain(s, no))
    ensures Start(|s.packet|, s.Total(), n) <= |s.packet|
    ensures Joined(fragments, n) == s.packet[..Start(|s.packet|, s.Total(), n)]
  {
    hide Plain, Start, Unsealed, Frag, Header;
    AtLeastOne(s);
    if n > 0 {
      JoinedParts(s, fragments, n - 1);
      Parsed(s, n - 1);
      InBounds(|s.packet|, s.Total(), n - 1);
      JoinSlices(s.packet, Start(|s.packet|, s.Total(), n - 1), Start(|s.packet|, s.Total(), n));
    } else {
      NextStart(|s.packet|, s.Total(), 0);
    }
  }

  /** The parts of all fragments make the packet. */
  lemma JoinedAll(s: Outgoing, fragments: seq<Option<Bytes>>)
    requires Sendable(s) && |fragments| == s.Total()
    requires forall no :: 0 <= no < s.Total() ==> fragments[no] == Some(Plain(s, no))
    ensures Joined(fragments, |fragments|) == s.packet
  {
    JoinedParts(s, fragments, s.Total());
    Covers(|s.packet|, s.Total());
    assert s.packet[..|s.packet|] == s.packet;
  }

  lemma WholePart(s: Outgoing)
    requires s.Total() == 1
    ensures Part(s, 0) == s.packet
  {
    Covers(|s.packet|, 1);
    NextStart(|s.packet|, 1, 0);
  }

  /** The first fragment to arrive opens the buffer, or is the packet. */
  lemma FirstFragment(s: Outgoing, buffers: Buffers, no: nat, expiry: int)
    requires Sendable(s) && s.nonce !in buffers && no < s.Total()
    ensures var (b, r) := Placed(buffers, s.nonce, no, s.Total(), Plain(s, no), expiry); 
      if s.Total() == 1 then b == buffers && r == Packet(s.nonce, s.packet) else Holds(s, b, {no}) && r == Pending
  {
    hide Plain;
    Parsed(s, no);
    if s.Total() == 1 {
      WholePart(s);
    }
    var none: seq<Option<Bytes>> := seq(s.Total(), _ => None);
    CountNone(s.Total());
    CountSomeUpdate(none, no, Plain(s, no));
  }

  /** A later one is stored unless it was there already, and completes the packet exactly when it
      was the last one missing. */
  lemma NextFragmentPlaced(s: Outgoing, buffers: Buffers, numbers: set<nat>, no: nat, expiry: int)
    requires Sendable(s) && numbers != {} && Holds(s, buffers, numbers) && no < s.Total() && s.Total() > 1
    ensures var (b, r) := Placed(buffers, s.nonce, no, s.Total(), Plain(s, no), expiry);
      && Holds(s, b, numbers + {no})
      && (r.Packet? <==> !Complete(s, numbers) && Complete(s, numbers + {no}))
      && (r.Packet? ==> r.nonce == s.nonce && r.bytes == s.packet)
      && (no in numbers ==> r == Invalid(false))
  {
    hide Plain;
    Parsed(s, no);
    var f := buffers[s.nonce].fragments;
    if no in numbers {
      assert numbers + {no} == numbers;
    } else {
      CountSomeUpdate(f, no, Plain(s, no));
      var g := f[no := Some(Plain(s, no))];
      CountSomeAll(g);
      if Complete(s, numbers + {no}) {
        JoinedAll(s, g);
      }
    }
  }

  /** The receiver gets past its tests with a fragment of the packet. */
  lemma OwnFragment(s: Outgoing, buffers: Buffers, no: nat, now: int, timeout: int, vrfy: Verifier)
    requires Sendable(s) && no < s.Total() && vrfy(s.nonce, no, s.Total())
    ensures Received(s.hk, buffers, Frag(s, no), now, timeout, vrfy) ==
            Placed(buffers, s.nonce, no, s.Total(), Plain(s, no), now + timeout)
  {
    hide Plain, Frag, Unsealed, Placed;
    Parsed(s, no);
  }

  /** A fragment with another nonce changes nothing about the packet. */
  lemma ForeignFragment(s: Outgoing, buffers: Buffers, raw: Bytes, now: int, timeout: int, vrfy: Verifier)
    requires Foreign(s, raw)
    ensures var (b, r) := Received(s.hk, buffers, raw, now, timeout, vrfy);
      && (s.nonce in b <==> s.nonce in buffers) && (s.nonce in b ==> b[s.nonce] == buffers[s.nonce])
      && (r.Packet? ==> r.nonce != s.nonce)
  {
    hide Unsealed;
  }

  /** Every arrival is a fragment of the packet or foreign to it, and the caller accepts the packet. */
  ghost predicate Mixed(s: Outgoing, trace: seq<Arrival>, vrfy: Verifier) {
    && (forall no :: 0 <= no < s.Total() ==> vrfy(s.nonce, no, s.Total()))
    && forall t :: 0 <= t < |trace| ==> Foreign(s, trace[t].raw) || Numbers(s, trace[t].raw) != {}
  }

  lemma OneNumber(s: Outgoing, no: nat)
    requires Sendable(s) && no < s.Total()
    ensures Numbers(s, Frag(s, no)) == {no} && !Foreign(s, Frag(s, no))
  {
    hide Frag, Plain, Unsealed;
    Parsed(s, no);
    forall i | i in Numbers(s, Frag(s, no)) ensures i == no {
      FragmentsDiffer(s, i, no);
    }
  }

  lemma NothingComplete(s: Outgoing)
    requires Sendable(s)
    ensures !Complete(s, {})
  {
    AtLeastOne(s);
    var none: set<nat> := {};
    assert 0 !in none;
  }

  lemma OneIsNotAll(s: Outgoing, no: nat)
    requires Sendable(s) && s.Total() > 1
    ensures !Complete(s, {no})
  {
    var one, other: nat := {no}, if no == 0 then 1 else 0;
    assert other !in one && other < s.Total();
  }

  /** What one arrival does. */
  lemma OneArrival(s: Outgoing, buffers: Buffers, numbers: set<nat>, raw: Bytes, now: int, timeout: int, vrfy: Verifier)
    requires Sendable(s) && Holds(s, buffers, numbers)
    requires forall no :: 0 <= no < s.Total() ==> vrfy(s.nonce, no, s.Total())
    requires Foreign(s, raw) || Numbers(s, raw) != {}
    ensures var (b, r) := Received(s.hk, buffers, raw, now, timeout, vrfy);
      var next := numbers + Numbers(s, raw);
      && Holds(s, b, next)
      && (r.Packet? && r.nonce == s.nonce <==> Completes(s, numbers, Numbers(s, raw)))
      && (r.Packet? && r.nonce == s.nonce ==> r.bytes == s.packet)
  {
    hide Frag, Plain, Received, Placed, Foreign;
    if Numbers(s, raw) == {} {
      ForeignFragment(s, buffers, raw, now, timeout, vrfy);
      assert numbers + Numbers(s, raw) == numbers;
    } else {
      var no :| no in Numbers(s, raw);
      OneNumber(s, no);
      OwnFragment(s, buffers, no, now, timeout, vrfy);
      if numbers == {} || s.Total() == 1 {
        FirstFragment(s, buffers, no, now + timeout);
        assert numbers == {} ==> numbers + {no} == {no};
        if s.Total() > 1 { OneIsNotAll(s, no); }
        NothingComplete(s);
      } else {
        NextFragmentPlaced(s, buffers, numbers, no, now + timeout);
      }
    }
  }

  lemma {:induction false} RunHolds(s: Outgoing, buffers: Buffers, trace: seq<Arrival>, timeout: int, vrfy: Verifier,
                                    k: nat)
    requires Sendable(s) && s.nonce !in buffers && Mixed(s, trace, vrfy) && k <= |trace|
    ensures Holds(s, After(s.hk, buffers, trace, timeout, vrfy, k), Arrived(s, trace, k))
  {
    hide Frag, Holds, Received, Foreign, Arrived, Numbers;
    if k == 0 {
      NothingArrived(s, buffers, trace);
    } else {
      RunHolds(s, buffers, trace, timeout, vrfy, k - 1);
      ArrivedNext(s, trace, k - 1);
      OneArrival(s, After(s.hk, buffers, trace, timeout, vrfy, k - 1), Arrived(s, trace, k - 1), trace[k - 1].raw,
        trace[k - 1].now, timeout, vrfy);
    }
  }

  lemma NoneArrived(s: Outgoing, trace: seq<Arrival>)
    ensures Arrived(s, trace, 0) == {}
  {
  }

  lemma NothingArrived(s: Outgoing, buffers: Buffers, trace: seq<Arrival>)
    requires s.nonce !in buffers
    ensures Holds(s, buffers, Arrived(s, trace, 0))
  {
    NoneArrived(s, trace);
  }

  /** The receiver hands out a packet under the nonce of `s`. */
  predicate Delivers(s: Outgoing, r: Reception) { r.Packet? && r.nonce == s.nonce }

  /** The round trip. However the fragments of a packet are ordered, duplicated and mixed with
      fragments of other packets and with noise, the receiver hands out a packet under its nonce at
      exactly the arrival that makes it complete, and it is the packet that was sent. */
  lemma RoundTrip(s: Outgoing, buffers: Buffers, trace: seq<Arrival>, timeout: int, vrfy: Verifier, k: nat)
    requires Sendable(s) && s.nonce !in buffers && Mixed(s, trace, vrfy) && k < |trace|
    ensures var r := Report(s.hk, buffers, trace, timeout, vrfy, k);
      && (Delivers(s, r) <==> Completes(s, Arrived(s, trace, k), Numbers(s, trace[k].raw)))
      && (Delivers(s, r) ==> r.bytes == s.packet)
      && Arrived(s, trace, k + 1) == Arrived(s, trace, k) + Numbers(s, trace[k].raw)
  {
    hide Frag, Holds, Received, Foreign, Arrived, Numbers;
    RunHolds(s, buffers, trace, timeout, vrfy, k);
    ArrivedNext(s, trace, k);
    OneArrival(s, After(s.hk, buffers, trace, timeout, vrfy, k), Arrived(s, trace, k), trace[k].raw, trace[k].now,
      timeout, vrfy);
  }

  lemma ArrivedGrows(s: Outgoing, trace: seq<Arrival>, i: nat, j: nat)
    requires i <= j <= |trace|
    ensures Arrived(s, trace, i) <= Arrived(s, trace, j)
  {
    hide Frag;
  }

  /** So a packet all of whose fragments arrive is handed out, and if it has two or more, only once. */
  lemma ExactlyOnce(s: Outgoing, buffers: Buffers, trace: seq<Arrival>, timeout: int, vrfy: Verifier)
    returns (at: nat)
    requires Sendable(s) && s.nonce !in buffers && Mixed(s, trace, vrfy) && Complete(s, Arrived(s, trace, |trace|))
    ensures at < |trace| && Report(s.hk, buffers, trace, timeout, vrfy, at) == Packet(s.nonce, s.packet)
    ensures forall k :: 0 <= k < |trace| && k != at && s.Total() > 1 ==>
      !Delivers(s, Report(s.hk, buffers, trace, timeout, vrfy, k))
  {
    hide Report, Arrived, Mixed, Numbers;
    at := 0;
    NothingComplete(s);
    NoneArrived(s, trace);
    while !Complete(s, Arrived(s, trace, at + 1))
      invariant at < |trace| && !Complete(s, Arrived(s, trace, at))
      decreases |trace| - at
    {
      at := at + 1;
      assert at != |trace|;
    }
    forall k | 0 <= k < |trace| && k != at && s.Total() > 1
      ensures !Delivers(s, Report(s.hk, buffers, trace, timeout, vrfy, k))
    {
      RoundTrip(s, buffers, trace, timeout, vrfy, k);
      if k < at {
        ArrivedGrows(s, trace, k + 1, at);
      } else {
        ArrivedGrows(s, trace, at + 1, k);
      }
    }
    RoundTrip(s, buffers, trace, timeout, vrfy, at);
    assert Arrived(s, trace, at + 1) != Arrived(s, trace, at);
  }

  /** A packet of one fragment is handed out every time that fragment arrives, so as often as it is
      repeated. */
  lemma EveryTime(s: Outgoing, buffers: Buffers, trace: seq<Arrival>, timeout: int, vrfy: Verifier, k: nat)
    requires Sendable(s) && s.nonce !in buffers && Mixed(s, trace, vrfy) && k < |trace| && s.Total() == 1
    ensures Delivers(s, Report(s.hk, buffers, trace, timeout, vrfy, k)) <==> trace[k].raw == Frag(s, 0)
  {
    hide Report, Arrived, Frag;
    RoundTrip(s, buffers, trace, timeout, vrfy, k);
    OneNumber(s, 0);
  }

  /** A service forgets what has arrived of a packet exactly when its time has not run out. */
  lemma ServiceForgets(s: Outgoing, buffers: Buffers, numbers: set<nat>, now: int)
    requires Sendable(s) && s.Total() > 1 && numbers != {} && Holds(s, buffers, numbers)
    ensures Holds(s, Serviced(buffers, now), numbers) <==> buffers[s.nonce].expiry < now
    ensures Holds(s, Serviced(buffers, now), {}) <==> buffers[s.nonce].expiry >= now
  {
  }

  /** After a first fragment and a service at once, the others do not complete the packet. */
  lemma ServiceInBetween(s: Outgoing, buffers: Buffers, no: nat, timeout: int, now: int, trace: seq<Arrival>,
                         vrfy: Verifier, k: nat)
    requires Sendable(s) && s.nonce !in buffers && no < s.Total() && s.Total() > 1 && timeout >= 0
    requires Mixed(s, trace, vrfy) && k < |trace| && no !in Arrived(s, trace, k + 1)
    ensures
      var first := Received(s.hk, buffers, Frag(s, no), now, timeout, vrfy).0;
      !Delivers(s, Report(s.hk, Serviced(first, now), trace, timeout, vrfy, k))
  {
    hide Frag, Plain, Received, Placed, Report, Arrived, Numbers;
    var first := Received(s.hk, buffers, Frag(s, no), now, timeout, vrfy).0;
    OwnFragment(s, buffers, no, now, timeout, vrfy);
    FirstFragment(s, buffers, no, now + timeout);
    Expires(s, buffers, no, now + timeout);
    assert s.nonce !in Serviced(first, now);
    RoundTrip(s, Serviced(first, now), trace, timeout, vrfy, k);
  }

  lemma Expires(s: Outgoing, buffers: Buffers, no: nat, expiry: int)
    requires Sendable(s) && s.nonce !in buffers && no < s.Total() && s.Total() > 1
    ensures var b := Placed(buffers, s.nonce, no, s.Total(), Plain(s, no), expiry).0;
      s.nonce in b && b[s.nonce].expiry == expiry
  {
    hide Plain;
  }
}
