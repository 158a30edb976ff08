/** Sending a data packet: the payload is encrypted piece by piece, and every fragment is built in
    one reused buffer of the size of the transport's unit. */
module Streaming {
  import opened Wrappers
  import opened Common
  import opened Fragmentation

  /** A stream cipher with a tag, ready for one packet: what a byte at a position becomes, and the
      16-byte tag of a ciphertext. */
  datatype Aead = Aead(mask: (nat, Byte) -> Byte, tag: Bytes -> Bytes)

  ghost predicate Tags(c: Aead) { forall b: Bytes :: |c.tag(b)| == TAG_SIZE }

  /** The ciphertext of `data`, which begins at position `at` of the packet. */
  function Encrypted(c: Aead, at: nat, data: Bytes): (r: Bytes)
    ensures |r| == |data|
  {
    seq(|data|, k requires 0 <= k < |data| => c.mask(at + k, data[k]))
  }

  /** The packet that a payload becomes: its ciphertext and the tag. */
  function Packet(c: Aead, payload: Bytes): Bytes {
    Encrypted(c, 0, payload) + c.tag(Encrypted(c, 0, payload))
  }

  /** Encryption may be done in pieces. */
  lemma Pieces(c: Aead, payload: Bytes, i: nat, j: nat)
    requires i <= j <= |payload|
    ensures Encrypted(c, i, payload[i..j]) == Encrypted(c, 0, payload)[i..j]
    ensures Encrypted(c, 0, payload[..j]) == Encrypted(c, 0, payload)[..j]
    ensures Encrypted(c, 0, payload[..i]) + Encrypted(c, i, payload[i..j]) == Encrypted(c, 0, payload[..j])
  {
  }

  /** The longest payload that fits in 48 fragments with its tag. */
  function MaxSendable(mtu: nat): nat
    requires mtu >= MIN_TRANSPORT_MTU
  {
    (mtu - HEADER_SIZE) * MAX_FRAGMENTS - TAG_SIZE
  }

  datatype PayloadResult = AllSent | MtuTooSmall | DataTooLarge | Stopped

  /** The buffer after a header and a payload were written to its start and sealed. */
  function Written(s: Bytes, header: Bytes, chunk: Bytes, hk: Prp): Bytes
    requires |header| == HEADER_SIZE && 4 <= |chunk| && HEADER_SIZE + |chunk| <= |s| && Permutes(hk)
  {
    var t := Patched(Patched(s, 0, header), HEADER_SIZE, chunk);
    Patched(t, AUTH_START, hk.enc(t[AUTH_START..AUTH_END]))
  }

  lemma WrittenFragment(s: Bytes, header: Bytes, chunk: Bytes, hk: Prp)
    requires |header| == HEADER_SIZE && 4 <= |chunk| && HEADER_SIZE + |chunk| <= |s| && Permutes(hk)
    ensures |Written(s, header, chunk, hk)| == |s|
    ensures Written(s, header, chunk, hk)[..HEADER_SIZE + |chunk|] == Sealed(Some(hk), header + chunk)
  {
    var t := Patched(Patched(s, 0, header), HEADER_SIZE, chunk);
    var n := HEADER_SIZE + |chunk|;
    var f := header + chunk;
    assert t[0..n] == f;
    SliceSlice(t, 0, n, AUTH_START, AUTH_END);
    SliceSlice(t, 0, n, 0, AUTH_START);
    SliceSlice(t, 0, n, AUTH_END, n);
    PatchedSlice(t, AUTH_START, hk.enc(t[AUTH_START..AUTH_END]), 0, n);
  }

  /** A chunk may be written in two parts. */
  lemma TwoParts(s: Bytes, x: Bytes, y: Bytes)
    requires HEADER_SIZE + |x| + |y| <= |s|
    ensures Patched(Patched(s, HEADER_SIZE, x), HEADER_SIZE + |x|, y) == Patched(s, HEADER_SIZE, x + y)
  {
  }

  method WriteFragment(buffer: array<Byte>, header: Bytes, body: Bytes, tag: Bytes, hk: Prp)
    requires |header| == HEADER_SIZE && 4 <= |body + tag| && HEADER_SIZE + |body + tag| <= buffer.Length && Permutes(hk)
    modifies buffer
    ensures buffer[..] == Written(old(buffer[..]), header, body + tag, hk)
  {
    hide Patched;
    CopyInto(buffer, 0, header);
    TwoParts(buffer[..], body, tag);
    CopyInto(buffer, HEADER_SIZE, body);
    CopyInto(buffer, HEADER_SIZE + |body|, tag);
    var block := buffer[..][AUTH_START..AUTH_END];
    CopyInto(buffer, AUTH_START, hk.enc(block));
  }

  /** The ciphertext that fragment `no` carries, when it is not the last one. */
  lemma MiddleFragment(c: Aead, payload: Bytes, count: nat, no: nat)
    requires Tags(c) && no + 1 < count && (|payload| + TAG_SIZE) / count >= TAG_SIZE
    ensures
      var len := |payload| + TAG_SIZE;
      var i := Start(len, count, no);
      var j := i + Size(len, count, no);
      && j <= |payload|
      && |Packet(c, payload)| == len
      && Encrypted(c, i, payload[i..j]) == Packet(c, payload)[i..j]
      && Encrypted(c, 0, payload[..i]) + Encrypted(c, i, payload[i..j]) == Encrypted(c, 0, payload[..j])
  {
    var len := |payload| + TAG_SIZE;
    var i := Start(len, count, no);
    var j := i + Size(len, count, no);
    Covers(len, count);
    assert j == Start(len, count, no + 1);
    StartMonotone(len, count, no + 1, count - 1);
    assert Start(len, count, count) == Start(len, count, count - 1) + Size(len, count, count - 1);
    Pieces(c, payload, i, j);
  }

  /** The last fragment has the base size and holds the end of the ciphertext and the whole tag. */
  lemma LastFragment(c: Aead, payload: Bytes, count: nat)
    requires Tags(c) && count > 0 && (|payload| + TAG_SIZE) / count >= TAG_SIZE
    ensures
      var len := |payload| + TAG_SIZE;
      var i := Start(len, count, count - 1);
      && i <= |payload|
      && |payload| - i + TAG_SIZE == len / count
      && Encrypted(c, i, payload[i..]) + c.tag(Encrypted(c, 0, payload[..i]) + Encrypted(c, i, payload[i..])) ==
         Packet(c, payload)[i..Start(len, count, count)]
  {
    var len := |payload| + TAG_SIZE;
    var i := Start(len, count, count - 1);
    Covers(len, count);
    assert Start(len, count, count) == i + Size(len, count, count - 1);
    LastSize(len, count);
    Pieces(c, payload, i, |payload|);
    assert payload[i..|payload|] == payload[i..] && payload[..|payload|] == payload;
  }

  lemma LastSize(len: nat, count: nat)
    requires count > 0
    ensures Size(len, count, count - 1) == len / count
  {
    assert len % count < count;
  }

  /** The loop of the streaming sender and the last fragment after it. */
  method SendPieces(buffer: array<Byte>, payload: Bytes, kid: Bytes, nonce: Bytes, hk: Prp, c: Aead, count: nat,
                    base: nat, rem: nat, limit: nat)
    returns (ok: bool, sent: seq<Bytes>)
    requires |kid| == 4 && |nonce| == 10 && count > 0 && Permutes(hk) && Tags(c)
    requires base == (|payload| + TAG_SIZE) / count >= TAG_SIZE && rem == (|payload| + TAG_SIZE) % count
    requires HEADER_SIZE + Size(|payload| + TAG_SIZE, count, 0) <= buffer.Length
    modifies buffer
    ensures sent == Fragments(kid, nonce, Packet(c, payload), count, Some(hk), Reach(count, limit))
    ensures ok <==> limit >= count
  {
    hide Permutes, Tags, Sealed, Written, Header, Fragment, Start, Fragments, Encrypted, Packet;
    ghost var len := |payload| + TAG_SIZE;
    ghost var packet := Packet(c, payload);
    sent := [];
    var i, done: Bytes := 0, [];
    PacketLen(c, payload);
    NoFragments(kid, nonce, packet, count, Some(hk));
    NextStart(len, count, 0);
    for no := 0 to count - 1
      invariant i == Start(len, count, no) <= |payload| && no <= limit
      invariant done == Encrypted(c, 0, payload[..i])
      invariant sent == Fragments(kid, nonce, packet, count, Some(hk), no)
    {
      MiddleFragment(c, payload, count, no);
      NextFragment(kid, nonce, packet, count, Some(hk), no);
      NextStart(len, count, no);
      var size := base + if no < rem then 1 else 0;
      var j := i + size;
      var body := Encrypted(c, i, payload[i..j]);
      ghost var s := buffer[..];
      HeaderSize(kid, count, no, nonce);
      WriteFragment(buffer, Header(kid, count, no, nonce), body, [], hk);
      assert body + [] == body;
      WrittenFragment(s, Header(kid, count, no, nonce), body, hk);
      FragmentIs(kid, nonce, packet, count, Some(hk), no);
      done := done + body;
      sent := sent + [buffer[..][..HEADER_SIZE + size]];
      if no == limit {
        return false, sent;
      }
      i := j;
    }
    LastFragment(c, payload, count);
    LastSize(len, count);
    NextFragment(kid, nonce, packet, count, Some(hk), count - 1);
    NextStart(len, count, count - 1);
    var body := Encrypted(c, i, payload[i..]);
    var tag := c.tag(done + body);
    TagSize(c, done + body);
    ghost var s := buffer[..];
    HeaderSize(kid, count, count - 1, nonce);
    WriteFragment(buffer, Header(kid, count, count - 1, nonce), body, tag, hk);
    WrittenFragment(s, Header(kid, count, count - 1, nonce), body + tag, hk);
    FragmentIs(kid, nonce, packet, count, Some(hk), count - 1);
    sent := sent + [buffer[..][..HEADER_SIZE + |body| + TAG_SIZE]];
    return limit >= count, sent;
  }

  lemma PacketLen(c: Aead, payload: Bytes)
    ensures Encrypted(c, 0, payload[..0]) == []
    ensures Tags(c) ==> |Packet(c, payload)| == |payload| + TAG_SIZE
  {
  }

  lemma TagSize(c: Aead, b: Bytes)
    requires Tags(c)
    ensures |c.tag(b)| == TAG_SIZE
  {
  }

  /** Sends a payload. It is refused exactly when it is longer than the promised maximum; otherwise
      what goes out is what the copying sender would send for the encrypted packet. */
  method SendPayload(buffer: array<Byte>, payload: Bytes, kid: Bytes, nonce: Bytes, hk: Prp, c: Aead, limit: nat)
    returns (result: PayloadResult, sent: seq<Bytes>)
    requires |kid| == 4 && |nonce| == 10 && Permutes(hk) && Tags(c)
    modifies buffer
    ensures result == MtuTooSmall <==> buffer.Length < MIN_TRANSPORT_MTU
    ensures buffer.Length >= MIN_TRANSPORT_MTU ==> (result == DataTooLarge <==> |payload| > MaxSendable(buffer.Length))
    ensures result == MtuTooSmall || result == DataTooLarge ==> sent == [] && buffer[..] == old(buffer[..])
    ensures result == AllSent || result == Stopped ==>
      var packet := Packet(c, payload);
      var count := Count(|packet|, buffer.Length - HEADER_SIZE);
      && sent == Fragments(kid, nonce, packet, count, Some(hk), Reach(count, limit))
      && (result == AllSent <==> limit >= count)
  {
    hide Fragments, Permutes, Encrypted, Count, Start;
    sent := [];
    if buffer.Length < MIN_TRANSPORT_MTU {
      return MtuTooSmall, sent;
    }
    var room, len := buffer.Length - HEADER_SIZE, |payload| + TAG_SIZE;
    CountPositive(len, room);
    CountAtMost(len, room, MAX_FRAGMENTS);
    LargeEnough(len, buffer.Length);
    PacketLen(c, payload);
    var count := (len + room - 1) / room;
    if count > MAX_FRAGMENTS {
      return DataTooLarge, sent;
    }
    SizeFits(len, room, 0);
    var ok;
    ok, sent := SendPieces(buffer, payload, kid, nonce, hk, c, count, len / count, len % count, limit);
    return if ok then AllSent else Stopped, sent;
  }
}
