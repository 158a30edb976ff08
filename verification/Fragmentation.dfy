/** Splitting a packet into fragments: the sizes, the headers, and two senders. One copies each
    fragment into a new buffer, the other builds each fragment in place over bytes already sent. */
module Fragmentation {
  import opened Wrappers
  import opened Common

  const HEADER_SIZE: nat := 16
  const TAG_SIZE: nat := 16
  const AUTH_START: nat := 4
  const AUTH_END: nat := 20
  const FRAGMENT_NO: nat := 4
  const FRAGMENT_COUNT: nat := 5
  const NONCE_START: nat := 6
  const MIN_PACKET_SIZE: nat := HEADER_SIZE + TAG_SIZE
  const MIN_TRANSPORT_MTU: nat := 128

  type Byte = x: nat | x < 256
  type Bytes = seq<Byte>

  // ---------- sizes ----------

  /** The number of fragments: the length over the room in a fragment, rounded up. */
  function Count(len: nat, room: nat): nat
    requires room > 0
  {
    (len + room - 1) / room
  }

  function Size(len: nat, count: nat, no: nat): nat
    requires count > 0
  {
    len / count + if no < len % count then 1 else 0
  }

  /** Where fragment `no` starts. */
  function Start(len: nat, count: nat, no: nat): nat
    requires count > 0
  {
    if no == 0 then 0 else Start(len, count, no - 1) + Size(len, count, no - 1)
  }

  lemma {:induction false} StartIs(len: nat, count: nat, no: nat)
    requires count > 0
    ensures Start(len, count, no) == no * (len / count) + if no < len % count then no else len % count
  {
    if no > 0 {
      StartIs(len, count, no - 1);
      assert no * (len / count) == (no - 1) * (len / count) + len / count;
    }
  }

  /** The fragments cover the packet. */
  lemma Covers(len: nat, count: nat)
    requires count > 0
    ensures Start(len, count, count) == len
  {
    StartIs(len, count, count);
  }

  lemma {:induction false} StartMonotone(len: nat, count: nat, i: nat, j: nat)
    requires count > 0 && i <= j
    ensures Start(len, count, i) <= Start(len, count, j)
    decreases j
  {
    if i < j {
      StartMonotone(len, count, i, j - 1);
    }
  }

  lemma InBounds(len: nat, count: nat, no: nat)
    requires no < count
    ensures Start(len, count, no) <= Start(len, count, no + 1) <= len
  {
    Covers(len, count);
    StartMonotone(len, count, no + 1, count);
  }

  /** The bounds that rounding up gives. */
  lemma CountBounds(len: nat, room: nat)
    requires room > 0
    ensures var c := Count(len, room); (c == 0 <==> len == 0) && len <= c * room && (c > 0 ==> (c - 1) * room < len)
  {
    var c := Count(len, room);
    var r := (len + room - 1) % room;
    assert len + room - 1 == room * c + r;
    assert room * c == c * room;
    if c > 0 {
      assert (c - 1) * room == c * room - room;
    } else {
      assert c * room == 0;
    }
  }

  lemma CountPositive(len: nat, room: nat)
    requires room > 0
    ensures Count(len, room) > 0 <==> len > 0
    ensures Count(len, room) == (len + room - 1) / room
  {
    CountBounds(len, room);
  }

  /** The number of fragments is at most `n` exactly when the packet fits in `n` fragments. */
  lemma CountAtMost(len: nat, room: nat, n: nat)
    requires room > 0
    ensures Count(len, room) <= n <==> len <= n * room
  {
    CountBounds(len, room);
    var c := Count(len, room);
    if c <= n {
      MulMono(c, n, room);
    } else {
      MulMono(n, c - 1, room);
    }
  }

  lemma MulMono(a: nat, b: nat, k: nat)
    requires a <= b
    ensures a * k <= b * k
  {
    assert b * k == a * k + (b - a) * k;
  }

  lemma QuotientAtMost(len: nat, c: nat, k: nat)
    requires c > 0 && len <= c * k
    ensures len / c <= k && (len % c > 0 ==> len / c < k)
  {
    var q := len / c;
    assert len == c * q + len % c;
    assert c * k == k * c && c * q == q * c && c * (k + 1) == c * k + c;
    if q > k {
      MulMono(k + 1, q, c);
    } else if q == k {
      assert c * q == c * k;
    }
  }

  /** Fragment sizes differ by at most one, the last fragment has the base size, and all of them
      fit in the transport's unit. */
  lemma SizeFits(len: nat, room: nat, no: nat)
    requires room > 0 && len > 0 && no < Count(len, room)
    ensures var c := Count(len, room);
      && len / c <= Size(len, c, no) <= len / c + 1
      && Size(len, c, no) <= room
      && (no == c - 1 ==> Size(len, c, no) == len / c)
  {
    hide Count;
    CountBounds(len, room);
    QuotientAtMost(len, Count(len, room), room);
  }

  /** With a transport unit of at least 128 bytes no fragment of a packet of at least 16 bytes has
      less than 16 bytes: the header's protected block lies inside it and the receiver does not
      find it too short. */
  lemma LargeEnough(len: nat, mtu: nat)
    requires mtu >= MIN_TRANSPORT_MTU && len >= TAG_SIZE
    ensures len / Count(len, mtu - HEADER_SIZE) >= TAG_SIZE
  {
    var room := mtu - HEADER_SIZE;
    CountBounds(len, room);
    var c := Count(len, room);
    if c > 1 {
      MulMono(112, room, c - 1);
      assert (c - 1) * room == room * (c - 1) && len > 112 * (c - 1) && len >= 16 * c;
    }
    assert len >= 16 * c;
    Quotient(len, c, 16);
  }

  lemma Quotient(len: nat, c: nat, k: nat)
    requires c > 0 && len >= k * c
    ensures len / c >= k
  {
    var q := len / c;
    assert len == c * q + len % c && (q + 1) * c == c * q + c;
    if q < k {
      MulMono(q + 1, k, c);
    }
  }

  // ---------- headers ----------

  /** A pseudo-random permutation of 16-byte blocks with its inverse. */
  datatype Prp = Prp(enc: Bytes -> Bytes, dec: Bytes -> Bytes)

  ghost predicate Permutes(p: Prp) {
    forall b: Bytes :: |b| == 16 ==> |p.enc(b)| == 16 && |p.dec(b)| == 16 && p.dec(p.enc(b)) == b
  }

  ghost predicate KeyOk(hk: Option<Prp>) { hk.Some? ==> Permutes(hk.value) }

  function Header(kid: Bytes, count: nat, no: nat, nonce: Bytes): Bytes {
    kid + [no % 256, count % 256] + nonce
  }

  /** The fragment with its protected block encrypted. */
  function Sealed(hk: Option<Prp>, f: Bytes): Bytes {
    if hk.None? || |f| < AUTH_END then f else f[..AUTH_START] + hk.value.enc(f[AUTH_START..AUTH_END]) + f[AUTH_END..]
  }

  function Unsealed(hk: Option<Prp>, f: Bytes): Bytes {
    if hk.None? || |f| < AUTH_END then f else f[..AUTH_START] + hk.value.dec(f[AUTH_START..AUTH_END]) + f[AUTH_END..]
  }

  lemma UnsealedSealed(hk: Option<Prp>, f: Bytes)
    requires KeyOk(hk)
    ensures Unsealed(hk, Sealed(hk, f)) == f && |Sealed(hk, f)| == |f|
  {
    if hk.Some? && |f| >= AUTH_END {
      var b := f[AUTH_START..AUTH_END];
      assert |hk.value.enc(b)| == 16;
      var s := Sealed(hk, f);
      assert s[..AUTH_START] == f[..AUTH_START];
      assert s[AUTH_START..AUTH_END] == hk.value.enc(b);
      assert s[AUTH_END..] == f[AUTH_END..];
      assert f == f[..AUTH_START] + b + f[AUTH_END..];
    }
  }

  /** What the network gets as fragment `no` of a packet. */
  function Fragment(kid: Bytes, nonce: Bytes, packet: Bytes, count: nat, hk: Option<Prp>, no: nat): Bytes
    requires no < count
  {
    InBounds(|packet|, count, no);
    Sealed(hk, Header(kid, count, no, nonce) + packet[Start(|packet|, count, no)..Start(|packet|, count, no + 1)])
  }

  lemma SealedParts(hk: Option<Prp>, kid: Bytes, block: Bytes, rest: Bytes)
    requires |kid| == 4 && |block| == 16 && KeyOk(hk)
    ensures Sealed(hk, kid + block + rest) == kid + (if hk.Some? then hk.value.enc(block) else block) + rest
  {
    var g := kid + block + rest;
    assert g[..4] == kid && g[4..20] == block && g[20..] == rest;
  }

  lemma HeaderBlock(kid: Bytes, nonce: Bytes, count: nat, no: nat, part: Bytes)
    requires no < count <= 48 && |part| >= 4
    ensures Header(kid, count, no, nonce) + part == kid + ([no, count] + nonce + part[..4]) + part[4..]
  {
    assert part == part[..4] + part[4..];
  }

  /** The bytes of a fragment: the key id in the clear, then fragment number, count, nonce and the first
      four bytes of the fragment's part, encrypted under the header key if there is one, then the rest. */
  lemma Layout(kid: Bytes, nonce: Bytes, packet: Bytes, count: nat, hk: Option<Prp>, no: nat)
    requires |kid| == 4 && |nonce| == 10 && no < count <= 48 && KeyOk(hk)
    requires Start(|packet|, count, no) + 4 <= Start(|packet|, count, no + 1) <= |packet|
    ensures
      var part := packet[Start(|packet|, count, no)..Start(|packet|, count, no + 1)];
      var block := [no, count] + nonce + part[..4];
      Fragment(kid, nonce, packet, count, hk, no) ==
      kid + (if hk.Some? then hk.value.enc(block) else block) + part[4..]
  {
    hide Start, Sealed, Header, KeyOk;
    var part := packet[Start(|packet|, count, no)..Start(|packet|, count, no + 1)];
    HeaderBlock(kid, nonce, count, no, part);
    SealedParts(hk, kid, [no, count] + nonce + part[..4], part[4..]);
  }

  /** The first `n` fragments of a packet. */
  function Fragments(kid: Bytes, nonce: Bytes, packet: Bytes, count: nat, hk: Option<Prp>, n: nat): seq<Bytes>
    requires n <= count
  {
    if n == 0 then [] else
      Fragments(kid, nonce, packet, count, hk, n - 1) + [Fragment(kid, nonce, packet, count, hk, n - 1)]
  }

  /** How far a sender comes when the transport refuses the fragment after `limit` others. */
  function Reach(count: nat, limit: nat): nat { if limit < count then limit + 1 else count }

  datatype SendResult = Sent | TooLarge | Refused

  lemma NoFragments(kid: Bytes, nonce: Bytes, packet: Bytes, count: nat, hk: Option<Prp>)
    requires count > 0
    ensures Fragments(kid, nonce, packet, count, hk, 0) == [] && Start(|packet|, count, 0) == 0
  {
  }

  lemma NextFragment(kid: Bytes, nonce: Bytes, packet: Bytes, count: nat, hk: Option<Prp>, no: nat)
    requires no < count
    ensures Fragments(kid, nonce, packet, count, hk, no + 1) ==
            Fragments(kid, nonce, packet, count, hk, no) + [Fragment(kid, nonce, packet, count, hk, no)]
  {
  }

  lemma NextStart(len: nat, count: nat, no: nat)
    requires count > 0
    ensures Start(len, count, 0) == 0
    ensures Start(len, count, no + 1) == Start(len, count, no) + Size(len, count, no)
  {
  }

  lemma FragmentIs(kid: Bytes, nonce: Bytes, packet: Bytes, count: nat, hk: Option<Prp>, no: nat)
    requires no < count
    ensures Start(|packet|, count, no) <= Start(|packet|, count, no + 1) <= |packet|
    ensures Fragment(kid, nonce, packet, count, hk, no) ==
      Sealed(hk, Header(kid, count, no, nonce) + packet[Start(|packet|, count, no)..Start(|packet|, count, no + 1)])
  {
    InBounds(|packet|, count, no);
  }

  lemma HeaderSize(kid: Bytes, count: nat, no: nat, nonce: Bytes)
    requires |kid| == 4 && |nonce| == 10
    ensures |Header(kid, count, no, nonce)| == HEADER_SIZE
  {
  }

  /** The loop of the copying sender. */
  method CopyRounds(kid: Bytes, nonce: Bytes, packet: Bytes, count: nat, base: nat, rem: nat, hk: Option<Prp>,
                    limit: nat)
    returns (ok: bool, sent: seq<Bytes>)
    requires |kid| == 4 && |nonce| == 10 && count > 0
    requires base == |packet| / count && rem == |packet| % count && (hk.Some? ==> base >= AUTH_END - HEADER_SIZE)
    ensures sent == Fragments(kid, nonce, packet, count, hk, Reach(count, limit))
    ensures ok <==> limit >= count
  {
    hide Header, Fragment, Start, Fragments;
    sent := [];
    var i := 0;
    NoFragments(kid, nonce, packet, count, hk);
    for no := 0 to count
      invariant i == Start(|packet|, count, no) && no <= limit
      invariant sent == Fragments(kid, nonce, packet, count, hk, no)
    {
      NextFragment(kid, nonce, packet, count, hk, no);
      NextStart(|packet|, count, no);
      FragmentIs(kid, nonce, packet, count, hk, no);
      HeaderSize(kid, count, no, nonce);
      var j := i + base + if no < rem then 1 else 0;
      var fragment := Header(kid, count, no, nonce) + packet[i..j];
      if hk.Some? {
        fragment := fragment[..AUTH_START] + hk.value.enc(fragment[AUTH_START..AUTH_END]) + fragment[AUTH_END..];
      }
      sent := sent + [fragment];
      if no == limit {
        return false, sent;
      }
      i := j;
    }
    return true, sent;
  }

  /** The copying sender. `limit` is the number of fragments that the transport takes before it
      refuses one. */
  method SendWithFragmentation(mtu: nat, kid: Bytes, nonce: Bytes, packet: Bytes, hk: Option<Prp>, limit: nat)
    returns (result: SendResult, sent: seq<Bytes>)
    requires mtu > HEADER_SIZE && packet != [] && |kid| == 4 && |nonce| == 10
    requires hk.Some? ==> |packet| / Count(|packet|, mtu - HEADER_SIZE) >= AUTH_END - HEADER_SIZE
    ensures result == TooLarge <==> |packet| > MAX_FRAGMENTS * (mtu - HEADER_SIZE)
    ensures result == TooLarge ==> sent == []
    ensures var count := Count(|packet|, mtu - HEADER_SIZE);
      result != TooLarge ==>
        && sent == Fragments(kid, nonce, packet, count, hk, Reach(count, limit))
        && (result == Sent <==> limit >= count)
  {
    hide Fragments, Start, Count;
    var room := mtu - HEADER_SIZE;
    var count := (|packet| + room - 1) / room;
    CountPositive(|packet|, room);
    CountAtMost(|packet|, room, MAX_FRAGMENTS);
    if count > MAX_FRAGMENTS {
      return TooLarge, [];
    }
    var ok;
    ok, sent := CopyRounds(kid, nonce, packet, count, |packet| / count, |packet| % count, hk, limit);
    return if ok then Sent else Refused, sent;
  }

  // ---------- the sender that works in place ----------

  /** `s` with `b` written over what is at `at`. */
  function Patched(s: Bytes, at: nat, b: Bytes): (t: Bytes)
    requires at + |b| <= |s|
    ensures |t| == |s|
  {
    s[..at] + b + s[at + |b|..]
  }

  method CopyInto(a: array<Byte>, at: nat, b: Bytes)
    requires at + |b| <= a.Length
    modifies a
    ensures a[..] == Patched(old(a[..]), at, b)
  {
    forall k | 0 <= k < |b| {
      a[at + k] := b[k];
    }
    assert a[..] == Patched(old(a[..]), at, b);
  }

  lemma PatchedSlice(s: Bytes, at: nat, b: Bytes, i: nat, j: nat)
    requires i <= at && at + |b| <= j <= |s|
    ensures Patched(s, at, b)[i..j] == s[i..at] + b + s[at + |b|..j]
    ensures Patched(s, at, b)[j..] == s[j..]
  {
  }

  /** The buffer after a header was written over the 16 bytes before `i` and the protected block of
      the fragment was encrypted in place. */
  function Built(s: Bytes, header: Bytes, hk: Option<Prp>, i: nat): Bytes
    requires |header| == HEADER_SIZE <= i <= |s| && KeyOk(hk) && (hk.Some? ==> i + 4 <= |s|)
  {
    var t := Patched(s, i - HEADER_SIZE, header);
    if hk.None? then t else Patched(t, i - 12, hk.value.enc(t[i - 12..i + 4]))
  }

  /** That fragment is the one the copying sender makes, and the bytes behind it are intact. */
  lemma BuiltFragment(s: Bytes, header: Bytes, hk: Option<Prp>, i: nat, j: nat)
    requires |header| == HEADER_SIZE <= i <= j <= |s| && KeyOk(hk) && (hk.Some? ==> i + 4 <= j)
    ensures var t := Built(s, header, hk, i);
      |t| == |s| && t[i - HEADER_SIZE..j] == Sealed(hk, header + s[i..j]) && t[j..] == s[j..]
  {
    hide Patched;
    var t := Patched(s, i - HEADER_SIZE, header);
    var f := header + s[i..j];
    PatchedSlice(s, i - HEADER_SIZE, header, i - HEADER_SIZE, j);
    assert t[i - HEADER_SIZE..j] == f;
    if hk.Some? {
      var at := i - HEADER_SIZE;
      SliceSlice(t, at, j, AUTH_START, AUTH_END);
      SliceSlice(t, at, j, 0, AUTH_START);
      SliceSlice(t, at, j, AUTH_END, |f|);
      PatchedSlice(t, i - 12, hk.value.enc(t[i - 12..i + 4]), at, j);
    }
  }

  lemma SliceSlice(t: Bytes, at: nat, j: nat, k: nat, l: nat)
    requires at <= j <= |t| && k <= l <= j - at
    ensures t[at..j][k..l] == t[at + k..at + l]
  {
    var u := t[at..j];
    assert forall m :: 0 <= m < l - k ==> u[k..l][m] == t[at + k..at + l][m];
  }

  method BuildInPlace(a: array<Byte>, header: Bytes, hk: Option<Prp>, i: nat)
    requires |header| == HEADER_SIZE <= i <= a.Length && KeyOk(hk) && (hk.Some? ==> i + 4 <= a.Length)
    modifies a
    ensures a[..] == Built(old(a[..]), header, hk, i)
  {
    hide Patched;
    CopyInto(a, i - HEADER_SIZE, header);
    if hk.Some? {
      var at := i - HEADER_SIZE + AUTH_START;
      assert a[..][at..at + 16] == a[at..at + 16];
      CopyInto(a, at, hk.value.enc(a[at..at + 16]));
    }
  }

  /** The header with its two numbers set. */
  lemma HeaderIs(s: Bytes, count: nat, no: nat)
    requires |s| >= HEADER_SIZE
    ensures s[..HEADER_SIZE][FRAGMENT_COUNT := count % 256][FRAGMENT_NO := no % 256] ==
            Header(s[..4], count, no, s[NONCE_START..HEADER_SIZE])
  {
    var h := s[..HEADER_SIZE][FRAGMENT_COUNT := count % 256][FRAGMENT_NO := no % 256];
    assert h == h[..4] + [h[4], h[5]] + h[NONCE_START..];
    assert h[..4] == s[..4] && h[NONCE_START..] == s[NONCE_START..HEADER_SIZE];
  }

  /** The part of the packet that is still to be sent is intact in the buffer. */
  ghost predicate Intact(s: Bytes, packet: Bytes, count: nat, no: nat)
    requires no <= count && count > 0
  {
    && |s| == HEADER_SIZE + |packet|
    && Start(|packet|, count, no) <= |packet|
    && s[HEADER_SIZE + Start(|packet|, count, no)..] == packet[Start(|packet|, count, no)..]
  }

  lemma IntactFirst(s: Bytes, count: nat)
    requires |s| >= HEADER_SIZE && count > 0
    ensures Intact(s, s[HEADER_SIZE..], count, 0)
  {
  }

  /** One round of the sender in place. */
  lemma RoundInPlace(s: Bytes, packet: Bytes, kid: Bytes, nonce: Bytes, count: nat, hk: Option<Prp>, no: nat)
    requires no < count && |kid| == 4 && |nonce| == 10 && KeyOk(hk) && Intact(s, packet, count, no)
    requires hk.Some? ==> |packet| / count >= 4
    ensures
      var i, header := HEADER_SIZE + Start(|packet|, count, no), Header(kid, count, no, nonce);
      var j := i + Size(|packet|, count, no);
      && j <= |s| && (hk.Some? ==> i + 4 <= |s|) && |header| == HEADER_SIZE
      && var t := Built(s, header, hk, i);
         && Intact(t, packet, count, no + 1)
         && t[i - HEADER_SIZE..j] == Fragment(kid, nonce, packet, count, hk, no)
         && Start(|packet|, count, no + 1) == j - HEADER_SIZE
  {
    hide Built, Sealed;
    var len := |packet|;
    InBounds(len, count, no);
    var i, j, header := Start(len, count, no), Start(len, count, no + 1), Header(kid, count, no, nonce);
    BuiltFragment(s, header, hk, HEADER_SIZE + i, HEADER_SIZE + j);
    var rest := s[HEADER_SIZE + i..];
    assert s[HEADER_SIZE + i..HEADER_SIZE + j] == rest[..j - i];
    assert packet[i..j] == packet[i..][..j - i];
    assert s[HEADER_SIZE + j..] == rest[j - i..];
    assert packet[j..] == packet[i..][j - i..];
  }

  /** The loop of the sender in place. */
  method SendRounds(a: array<Byte>, header: Bytes, count: nat, base: nat, rem: nat, hk: Option<Prp>, limit: nat)
    returns (ok: bool, sent: seq<Bytes>)
    requires a.Length >= HEADER_SIZE == |header| && count > 0 && KeyOk(hk)
    requires base == (a.Length - HEADER_SIZE) / count && rem == (a.Length - HEADER_SIZE) % count
    requires header == a[..][..HEADER_SIZE][FRAGMENT_COUNT := count % 256]
    requires hk.Some? ==> base >= 4
    modifies a
    ensures
      var s := old(a[..]);
      sent == Fragments(s[..4], s[NONCE_START..HEADER_SIZE], s[HEADER_SIZE..], count, hk, Reach(count, limit))
    ensures ok <==> limit >= count
  {
    hide Permutes, Sealed, Built, Header, Fragment, Start, Intact, Fragments;
    ghost var s := a[..];
    ghost var kid, nonce, packet := s[..4], s[NONCE_START..HEADER_SIZE], s[HEADER_SIZE..];
    sent := [];
    var i := HEADER_SIZE;
    IntactFirst(s, count);
    NoFragments(kid, nonce, packet, count, hk);
    for no := 0 to count
      invariant i == HEADER_SIZE + Start(|packet|, count, no) && no <= limit
      invariant Intact(a[..], packet, count, no)
      invariant sent == Fragments(kid, nonce, packet, count, hk, no)
    {
      HeaderIs(s, count, no);
      RoundInPlace(a[..], packet, kid, nonce, count, hk, no);
      NextFragment(kid, nonce, packet, count, hk, no);
      var j := i + base + if no < rem then 1 else 0;
      BuildInPlace(a, header[FRAGMENT_NO := no % 256], hk, i);
      sent := sent + [a[..][i - HEADER_SIZE..j]];
      if no == limit {
        return false, sent;
      }
      i := j;
    }
    return true, sent;
  }

  /** The sender that destroys the packet it sends. It emits exactly the fragments that the copying
      sender emits for the packet behind the header. */
  method SendInPlace(mtu: nat, a: array<Byte>, hk: Option<Prp>, limit: nat) returns (ok: bool, sent: seq<Bytes>)
    requires mtu > HEADER_SIZE && a.Length > HEADER_SIZE && KeyOk(hk)
    requires hk.Some? ==>
      (a.Length - HEADER_SIZE) / Count(a.Length - HEADER_SIZE, mtu - HEADER_SIZE) >= AUTH_END - HEADER_SIZE
    modifies a
    ensures
      var s := old(a[..]);
      var packet := s[HEADER_SIZE..];
      var count := Count(|packet|, mtu - HEADER_SIZE);
      && sent == Fragments(s[..4], s[NONCE_START..HEADER_SIZE], packet, count, hk, Reach(count, limit))
      && (ok <==> limit >= count)
  {
    hide Fragments, Start, Permutes, Count;
    var len, room := a.Length - HEADER_SIZE, mtu - HEADER_SIZE;
    CountPositive(len, room);
    var count := (len + room - 1) / room;
    var header := a[..][..HEADER_SIZE][FRAGMENT_COUNT := count % 256];
    ok, sent := SendRounds(a, header, count, len / count, len % count, hk, limit);
  }
}
