/** The two Noise key exchanges of the protocol, message by message: XK to open a session and KK to
    rekey it. Every step takes `plain`, which says whether the mixes that the optimised
    implementation leaves uninitialised are initialised all the same. */
module KeyExchange {
  import opened Wrappers
  import opened Noise
  import R = Ratchet
  import Z = Zeta

  const HELLO: nat := 0
  const RESPONSE: nat := 1
  const COMPLETION: nat := 2
  const REKEY_INIT: nat := 5
  const REKEY_COMPLETE: nat := 6

  datatype Ratchet = Ratchet(key: Term, fingerprint: Term, chainLen: nat)

  /** `create_ratchet_state`. */
  function NextRatchet(s: Sym, preLen: nat): Ratchet {
    var (rk, rf) := s.GetAsk(ForRatchet);
    Ratchet(rk, rf, preLen + 1)
  }

  datatype Channel = Channel(send: Term, recv: Term)

  /** The keys a side holds when an exchange is over. */
  datatype Transport = Transport(kek: Channel, nk: Channel)

  function InitiatorTransport(s: Sym): Transport {
    var (kekRecv, kekSend) := s.GetAsk(ForKex);
    var (nkRecv, nkSend) := s.Split();
    Transport(Channel(kekSend, kekRecv), Channel(nkSend, nkRecv))
  }

  function ResponderTransport(s: Sym): Transport {
    var (kekSend, kekRecv) := s.GetAsk(ForKex);
    var (nkSend, nkRecv) := s.Split();
    Transport(Channel(kekSend, kekRecv), Channel(nkSend, nkRecv))
  }

  function InitiatorHeader(s: Sym): Channel {
    var (hkRecv, hkSend) := s.GetAsk(ForHeader);
    Channel(hkSend, hkRecv)
  }

  function ResponderHeader(s: Sym): Channel {
    var (hkSend, hkRecv) := s.GetAsk(ForHeader);
    Channel(hkSend, hkRecv)
  }

  predicate Mirrored(a: Channel, b: Channel) { a.send == b.recv && a.recv == b.send }

  /** The two sides send under different keys, of which none serves two purposes; and no other state
      with another chaining key gives any of them. */
  lemma KeysDiffer(s: Sym, t: Sym)
    ensures
      var (a, b, n) := (InitiatorTransport(s), ResponderTransport(s), NextRatchet(s, 0));
      && a.kek.send != b.kek.send && a.nk.send != b.nk.send
      && {a.kek.send, b.kek.send} !! {a.nk.send, b.nk.send} && n.key !in {a.kek.send, b.kek.send, a.nk.send, b.nk.send}
      && n.fingerprint !in {n.key, a.kek.send, b.kek.send, a.nk.send, b.nk.send}
    ensures
      s.ck != t.ck ==>
        var (a, b) := (InitiatorTransport(s), ResponderTransport(s));
        var (c, d) := (InitiatorTransport(t), ResponderTransport(t));
        {a.kek.send, b.kek.send, a.nk.send, b.nk.send, NextRatchet(s, 0).key} !!
        {c.kek.send, d.kek.send, c.nk.send, d.nk.send, NextRatchet(t, 0).key}
  {
    var os, ot := Outputs(s), Outputs(t);
    forall i: nat, j: nat | i < 8 && j < 8 ensures os[i] == os[j] ==> i == j { OutputsDiffer(s, s, i, j); }
    forall i: nat, j: nat | i < 8 && j < 8 ensures os[i] == ot[j] ==> s.ck == t.ck { OutputsDiffer(s, t, i, j); }
  }

  function Agreed(secret: nat, remote: Term): Term
    requires remote.Pub?
  {
    if secret <= remote.secret then Dh(secret, remote.secret) else Dh(remote.secret, secret)
  }

  /** The `e` token, as written and as read. */
  function MixEphemeral(s: Sym, e: Term, plain: bool): Sym { s.MixHash(e).Mix(e, plain) }

  // ---------- XK, message 1 ----------

  datatype X1 = X1(kid: nat, e: Term, e1: Term, payload: Term)

  /** `create_a1_state`. */
  function WriteX1(plain: bool, kid: nat, remote: Term, e: nat, e1: nat, rf1: Term, rf2: Term): (Sym, X1)
    requires remote.Pub?
  {
    var s0 := Initialize(XK).MixHash(Bytes(kid)).MixHash(remote);
    var s := MixEphemeral(s0, Pub(e), plain).Mix(Agreed(e, remote), true);
    var (s1, c1) := s.Encrypt(Nonce(HELLO, 0), KemPub(e1));
    var (s2, c2) := s1.Encrypt(Nonce(HELLO, 1), Pair(rf1, rf2));
    (s2, X1(kid, Pub(e), c1, c2))
  }

  /** The first half of `received_x1_trans`: the state, the KEM key and the ratchet fingerprints. */
  function ReadX1(plain: bool, secret: nat, x1: X1): Option<(Sym, Term, Term)> {
    if x1.kid == 0 || !x1.e.Pub? then None else
      var s := MixEphemeral(Initialize(XK).MixHash(Bytes(x1.kid)).MixHash(Pub(secret)), x1.e, plain)
               .Mix(Agreed(secret, x1.e), true);
      var (s1, e1) := s.Decrypt(Nonce(HELLO, 0), x1.e1);
      var (s2, rfs) := s1.Decrypt(Nonce(HELLO, 1), x1.payload);
      if e1.None? || rfs.None? then None else Some((s2, e1.value, rfs.value))
  }

  // ---------- XK, message 2 ----------

  datatype X2 = X2(e: Term, ekem1: Term, payload: Term)

  /** The second half of `received_x1_trans`. */
  function WriteX2(plain: bool, s: Sym, eRemote: Term, e1Remote: Term, e: nat, coins: nat, psk: Term,
                   kid: nat): Option<(Sym, X2)>
    requires eRemote.Pub?
  {
    if !e1Remote.KemPub? then None else
      var s0 := MixEphemeral(s, Pub(e), plain).Mix(Agreed(e, eRemote), true);
      var (s1, c1) := s0.Encrypt(Nonce(RESPONSE, 0), KemCiphertext(e1Remote.kem, coins));
      var s2 := s1.Mix(KemSecret(e1Remote.kem, coins), plain).MixAndHash(psk, true);
      var (s3, c3) := s2.Encrypt(Nonce(RESPONSE, 0), Bytes(kid));
      Some((s3, X2(Pub(e), c1, c3)))
  }

  /** `test_ratchet_key`: a key id of zero counts as a failure. */
  function TestRatchetKey(s: Sym, key: Term, payload: Term): Option<(nat, Sym)> {
    var (s', pt) := s.MixAndHash(key, true).Decrypt(Nonce(RESPONSE, 0), payload);
    if pt.Some? && pt.value.Bytes? && pt.value.value != 0 then Some((pt.value.value, s')) else None
  }

  /** What Alice reads in message 2: the state, Bob's key id and ephemeral key, which of her ratchet
      states matched and the length of its chain. */
  datatype Response = Response(sym: Sym, kid: nat, e: Term, ratchetI: nat, chainLen: nat)

  function Trial(s: Sym, e: Term, payload: Term, rs1: Ratchet, rs2: Option<Ratchet>,
                 disallowDowngrade: bool): Option<Response> {
    var first := TestRatchetKey(s, rs1.key, payload);
    if first.Some? then Some(Response(first.value.1, first.value.0, e, 1, rs1.chainLen)) else
    var second := if rs2.Some? then TestRatchetKey(s, rs2.value.key, payload) else None;
    if second.Some? then Some(Response(second.value.1, second.value.0, e, 2, rs2.value.chainLen)) else
    var third := if disallowDowngrade then None else TestRatchetKey(s, Zero, payload);
    if third.Some? then Some(Response(third.value.1, third.value.0, e, 2, 0)) else None
  }

  /** The state of message 2 before its pre-shared key is mixed. */
  function BeforePsk(plain: bool, s: Sym, e: nat, e1: nat, x2: X2): Option<Sym> {
    if !x2.e.Pub? then None else
      var s0 := MixEphemeral(s, x2.e, plain).Mix(Agreed(e, x2.e), true);
      var (s1, ct) := s0.Decrypt(Nonce(RESPONSE, 0), x2.ekem1);
      if ct.None? || !ct.value.KemCiphertext? || ct.value.kem != e1 then None else
        Some(s1.Mix(KemSecret(e1, ct.value.coins), plain))
  }

  /** The first half of `received_x2_trans`. */
  function ReadX2(plain: bool, s: Sym, e: nat, e1: nat, rs1: Ratchet, rs2: Option<Ratchet>, disallowDowngrade: bool,
                  x2: X2)
    : Option<Response>
  {
    var s2 := BeforePsk(plain, s, e, e1, x2);
    if s2.None? then None else Trial(s2.value, x2.e, x2.payload, rs1, rs2, disallowDowngrade)
  }

  // ---------- XK, message 3 ----------

  datatype X3 = X3(s: Term, payload: Term)

  /** The second half of `received_x2_trans`. */
  function WriteX3(s: Sym, secret: nat, eRemote: Term, identity: Term): (Sym, X3)
    requires eRemote.Pub?
  {
    var (s1, c1) := s.Encrypt(Nonce(COMPLETION, 1), Pub(secret));
    var (s2, c2) := s1.Mix(Agreed(secret, eRemote), true).Encrypt(Nonce(COMPLETION, 0), identity);
    (s2, X3(c1, c2))
  }

  /** The Noise part of `received_x3_trans`: the state, Alice's static key and her identity. */
  function ReadX3(s: Sym, e: nat, x3: X3): Option<(Sym, Term, Term)> {
    var (s1, remote) := s.Decrypt(Nonce(COMPLETION, 1), x3.s);
    if remote.None? || !remote.value.Pub? then None else
      var (s2, identity) := s1.Mix(Agreed(e, remote.value), true).Decrypt(Nonce(COMPLETION, 0), x3.payload);
      if identity.None? then None else Some((s2, remote.value, identity.value))
  }

  // ---------- KK ----------

  datatype K = K(e: Term, payload: Term)

  /** The prologue of a rekey with the pre-shared key mixed in. */
  function StartKk(plain: bool, initiator: Term, responder: Term, psk: Term): Sym {
    Initialize(KK).MixHash(initiator).MixHash(responder).MixAndHash(psk, plain)
  }

  /** The rekey branch of `timeout_trans`. */
  function WriteK1(plain: bool, secret: nat, remote: Term, psk: Term, e: nat, kid: nat): (Sym, K)
    requires remote.Pub?
  {
    var s := MixEphemeral(StartKk(plain, Pub(secret), remote, psk), Pub(e), plain)
             .Mix(Agreed(e, remote), plain).Mix(Agreed(secret, remote), true);
    var (s1, c) := s.Encrypt(Nonce(REKEY_INIT, 0), Bytes(kid));
    (s1, K(Pub(e), c))
  }

  /** The Noise part of `received_k1_trans` that reads: the state and the peer's new key id. */
  function ReadK1(plain: bool, secret: nat, remote: Term, psk: Term, k1: K): Option<(Sym, nat)>
    requires remote.Pub?
  {
    if !k1.e.Pub? then None else
      var s := MixEphemeral(StartKk(plain, remote, Pub(secret), psk), k1.e, plain)
               .Mix(Agreed(secret, k1.e), plain).Mix(Agreed(secret, remote), true);
      var (s1, kid) := s.Decrypt(Nonce(REKEY_INIT, 0), k1.payload);
      if kid.Some? && kid.value.Bytes? && kid.value.value != 0 then Some((s1, kid.value.value)) else None
  }

  /** The part that answers. The last token mixes the responder's static key with the initiator's
      ephemeral key. */
  function WriteK2(plain: bool, s: Sym, secret: nat, eRemote: Term, e: nat, kid: nat): (Sym, K)
    requires eRemote.Pub?
  {
    var s0 := MixEphemeral(s, Pub(e), plain).Mix(Agreed(e, eRemote), plain).Mix(Agreed(secret, eRemote), true);
    var (s1, c) := s0.Encrypt(Nonce(REKEY_COMPLETE, 0), Bytes(kid));
    (s1, K(Pub(e), c))
  }

  /** The Noise part of `received_k2_trans`. */
  function ReadK2(plain: bool, s: Sym, e: nat, remote: Term, k2: K): Option<(Sym, nat)>
    requires remote.Pub?
  {
    if !k2.e.Pub? then None else
      var s0 := MixEphemeral(s, k2.e, plain).Mix(Agreed(e, k2.e), plain).Mix(Agreed(e, remote), true);
      var (s1, kid) := s0.Decrypt(Nonce(REKEY_COMPLETE, 0), k2.payload);
      if kid.Some? && kid.value.Bytes? && kid.value.value != 0 then Some((s1, kid.value.value)) else None
  }

  // ---------- the optimised implementation computes the same ----------

  /** Every message of the optimised implementation is the plain implementation's, and so is what
      it makes of any message it receives. */
  lemma XkFastIsPlain(kid: nat, remote: Term, secret: nat, e: nat, e1: nat, rf1: Term, rf2: Term, x1: X1,
    s: Sym, eRemote: Term, e1Remote: Term, coins: nat, psk: Term)
    requires remote.Pub? && eRemote.Pub?
    ensures WriteX1(false, kid, remote, e, e1, rf1, rf2) == WriteX1(true, kid, remote, e, e1, rf1, rf2)
    ensures ReadX1(false, secret, x1) == ReadX1(true, secret, x1)
    ensures WriteX2(false, s, eRemote, e1Remote, e, coins, psk, kid) ==
      WriteX2(true, s, eRemote, e1Remote, e, coins, psk, kid)
  {
  }

  lemma XkFastIsPlainX2(s: Sym, e: nat, e1: nat, rs1: Ratchet, rs2: Option<Ratchet>, disallowDowngrade: bool, x2: X2)
    ensures ReadX2(false, s, e, e1, rs1, rs2, disallowDowngrade, x2) ==
      ReadX2(true, s, e, e1, rs1, rs2, disallowDowngrade, x2)
  {
    var f, p := BeforePsk(false, s, e, e1, x2), BeforePsk(true, s, e, e1, x2);
    if f.Some? {
      assert f.value.ck == p.value.ck && f.value.h == p.value.h;
    }
  }

  lemma KkFastIsPlain(secret: nat, remote: Term, psk: Term, e: nat, kid: nat, k: K, s: Sym, eRemote: Term)
    requires remote.Pub? && eRemote.Pub?
    ensures WriteK1(false, secret, remote, psk, e, kid) == WriteK1(true, secret, remote, psk, e, kid)
    ensures ReadK1(false, secret, remote, psk, k) == ReadK1(true, secret, remote, psk, k)
    ensures WriteK2(false, s, secret, eRemote, e, kid) == WriteK2(true, s, secret, eRemote, e, kid)
    ensures ReadK2(false, s, e, remote, k) == ReadK2(true, s, e, remote, k)
  {
  }

  /** A key id of zero is refused, although the message is authentic. */
  lemma ZeroRefused(plain: bool, s: Sym, psk: Term, secret: nat, remote: nat, e: nat, eRemote: nat, x1: X1)
    ensures x1.kid == 0 ==> ReadX1(plain, secret, x1) == None
    ensures
      TestRatchetKey(s, psk, s.MixAndHash(psk, true).Encrypt(Nonce(RESPONSE, 0), Bytes(0)).1) == None
    ensures ReadK1(plain, remote, Pub(secret), psk, WriteK1(plain, secret, Pub(remote), psk, e, 0).1) == None
    ensures ReadK2(plain, s, eRemote, Pub(remote), WriteK2(plain, s, remote, Pub(eRemote), e, 0).1) == None
  {
  }

  // ---------- honest XK runs ----------

  /** The inputs of an honest run: the static, ephemeral and KEM secrets, the key ids, what Alice
      remembers, what Bob looked up and what Alice's identity is. */
  datatype Xk = Xk(plain: bool, sa: nat, sb: nat, ea: nat, e1: nat, eb: nat, coins: nat, kidA: nat, kidB: nat,
                   rs1: Ratchet, rs2: Option<Ratchet>, disallowDowngrade: bool, bob: Ratchet, identity: Term) {
    function First(): (Sym, X1) {
      WriteX1(plain, kidA, Pub(sb), ea, e1, rs1.fingerprint, if rs2.Some? then rs2.value.fingerprint else Zero)
    }

    function Second(): Option<(Sym, X2)> {
      var r := ReadX1(plain, sb, First().1);
      if r.None? then None else WriteX2(plain, r.value.0, Pub(ea), r.value.1, eb, coins, bob.key, kidB)
    }

    function Heard(): Option<Response> {
      if Second().None? then None else ReadX2(plain, First().0, ea, e1, rs1, rs2, disallowDowngrade, Second().value.1)
    }
  }

  /** What a side has at the end: the state, the new ratchet state, the keys, the header keys and
      the two key ids. */
  datatype End = End(
    ck: Term, h: Term, ratchet: Ratchet, transport: Transport, header: Channel, kidSend: nat, kidRecv: nat)

  function AliceEnd(x: Xk): Option<End> {
    var r := x.Heard();
    if r.None? || !r.value.e.Pub? then None else
      var (s, _) := WriteX3(r.value.sym, x.sa, r.value.e, x.identity);
      Some(End(s.ck, s.h, NextRatchet(s, r.value.chainLen), InitiatorTransport(s), InitiatorHeader(x.First().0),
               r.value.kid, x.kidA))
  }

  /** Bob's end, with the static key and the identity that he learns. */
  function BobEnd(x: Xk): Option<(End, Term, Term)> {
    var r := x.Heard();
    if r.None? || !r.value.e.Pub? then None else
      var x3 := WriteX3(r.value.sym, x.sa, r.value.e, x.identity).1;
      var first := ReadX1(x.plain, x.sb, x.First().1);
      var b := ReadX3(x.Second().value.0, x.eb, x3);
      if first.None? || b.None? then None else
        var s := b.value.0;
        Some((End(s.ck, s.h, NextRatchet(s, x.bob.chainLen), ResponderTransport(s), ResponderHeader(first.value.0),
                  x.First().1.kid, x.kidB), b.value.1, b.value.2))
  }

  /** Bob reads message 1 as Alice wrote it. */
  lemma ReadsX1(x: Xk)
    requires x.kidA != 0
    ensures var (s, m) := x.First();
      m.kid == x.kidA && ReadX1(x.plain, x.sb, m) ==
        Some((s, KemPub(x.e1), Pair(x.rs1.fingerprint, if x.rs2.Some? then x.rs2.value.fingerprint else Zero)))
  {
  }

  /** A trial succeeds exactly with the key that was mixed. */
  lemma TrialOpens(s: Sym, psk: Term, kid: nat, key: Term)
    requires kid != 0
    ensures var (s', c) := s.MixAndHash(psk, true).Encrypt(Nonce(RESPONSE, 0), Bytes(kid));
      TestRatchetKey(s, key, c) == if key == psk then Some((kid, s')) else None
  {
  }

  predicate Selectable(x: Xk) {
    || x.bob.key == x.rs1.key
    || (x.rs2.Some? && x.bob.key == x.rs2.value.key)
    || (!x.disallowDowngrade && x.bob.key == Zero)
  }

  /** Alice finds the ratchet key that Bob mixed if and only if she still knows it or may downgrade
      to none, and then both have the same state. */
  lemma TrialSelects(x: Xk)
    requires x.kidA != 0 && x.kidB != 0
    ensures x.Second().Some?
    ensures x.Heard().Some? <==> Selectable(x)
    ensures x.Heard().Some? ==>
      var r := x.Heard().value;
      && r.sym == x.Second().value.0 && r.kid == x.kidB && r.e == Pub(x.eb)
      && r.ratchetI == (if x.bob.key == x.rs1.key then 1 else 2)
      && r.chainLen == (if x.bob.key == x.rs1.key then x.rs1.chainLen
                        else if x.rs2.Some? && x.bob.key == x.rs2.value.key then x.rs2.value.chainLen else 0)
  {
    ReadsX1(x);
    var (s, m1) := x.First();
    var (_, m2) := x.Second().value;
    var before := BeforePsk(x.plain, s, x.ea, x.e1, m2);
    assert before.Some? by { PskReached(x.plain, s, x.ea, x.eb, x.e1, x.coins, x.bob.key, x.kidB); }
    PskReached(x.plain, s, x.ea, x.eb, x.e1, x.coins, x.bob.key, x.kidB);
    TrialOpens(before.value, x.bob.key, x.kidB, x.rs1.key);
    if x.rs2.Some? {
      TrialOpens(before.value, x.bob.key, x.kidB, x.rs2.value.key);
    }
    TrialOpens(before.value, x.bob.key, x.kidB, Zero);
  }

  lemma PskReached(plain: bool, s: Sym, ea: nat, eb: nat, e1: nat, coins: nat, psk: Term, kid: nat)
    ensures var w := WriteX2(plain, s, Pub(ea), KemPub(e1), eb, coins, psk, kid);
      var before := BeforePsk(plain, s, ea, e1, w.value.1);
      && w.Some? && before.Some? && w.value.1.e == Pub(eb)
      && (w.value.0, w.value.1.payload) == before.value.MixAndHash(psk, true).Encrypt(Nonce(RESPONSE, 0), Bytes(kid))
  {
  }

  /** Bob reads message 3 as Alice wrote it. */
  lemma ReadsX3(s: Sym, sa: nat, eb: nat, identity: Term)
    ensures var (s', m) := WriteX3(s, sa, Pub(eb), identity); ReadX3(s, eb, m) == Some((s', Pub(sa), identity))
  {
  }

  /** Bob's state has a chain of the length that Alice's state with the same key has. */
  predicate Coherent(x: Xk) {
    && (x.bob.key == x.rs1.key ==> x.bob.chainLen == x.rs1.chainLen)
    && (x.rs2.Some? && x.bob.key == x.rs2.value.key ==> x.bob.chainLen == x.rs2.value.chainLen)
    && (x.bob.key == Zero ==> x.bob.chainLen == 0)
  }

  predicate Matching(a: End, b: End) {
    && a.ck == b.ck && a.h == b.h
    && Mirrored(a.transport.kek, b.transport.kek) && Mirrored(a.transport.nk, b.transport.nk)
    && a.kidSend == b.kidRecv && a.kidRecv == b.kidSend
    && a.ratchet.key == b.ratchet.key && a.ratchet.fingerprint == b.ratchet.fingerprint
  }

  /** An honest exchange ends with both sides holding the same secrets, mirrored, and Bob knowing
      Alice's static key and identity; it ends at all exactly when the ratchet key is selectable. */
  lemma XkAgreement(x: Xk)
    requires x.kidA != 0 && x.kidB != 0
    ensures AliceEnd(x).Some? <==> Selectable(x)
    ensures BobEnd(x).Some? <==> Selectable(x)
    ensures Selectable(x) ==>
      var (a, (b, remote, identity)) := (AliceEnd(x).value, BobEnd(x).value);
      && Matching(a, b) && Mirrored(a.header, b.header)
      && remote == Pub(x.sa) && identity == x.identity
      && (Coherent(x) ==> a.ratchet == b.ratchet)
  {
    hide ReadX1, ReadX2, ReadX3, WriteX1, WriteX2, WriteX3;
    TrialSelects(x);
    ReadsX1(x);
    if Selectable(x) {
      ReadsX3(x.Heard().value.sym, x.sa, x.eb, x.identity);
    }
  }

  ghost predicate Names(keyOf: R.RatchetState -> Term) {
    keyOf(R.Empty) == Zero && forall r, s :: keyOf(r) == keyOf(s) ==> r == s
  }

  /** The trial decryption of the session model, which compares ratchet states, is what the Noise
      messages do, under any naming of the states by their keys. */
  lemma TrialIsIdeal(keyOf: R.RatchetState -> Term, z: Z.Zeta, psk: R.RatchetState, x: Xk)
    requires Names(keyOf) && x.kidA != 0 && x.kidB != 0
    requires x.bob.key == keyOf(psk) && x.rs1.key == keyOf(z.rs1)
    requires x.rs2.Some? == z.rs2.Some? && (z.rs2.Some? ==> x.rs2.value.key == keyOf(z.rs2.value))
    ensures Z.TrialDecrypt(z, psk, x.disallowDowngrade) ==
      if x.Heard().Some? then Some(x.Heard().value.ratchetI) else None
  {
    hide ReadX1, ReadX2, WriteX1, WriteX2;
    TrialSelects(x);
    assert x.bob.key == x.rs1.key <==> psk == z.rs1;
    if z.rs2.Some? {
      assert x.bob.key == x.rs2.value.key <==> psk == z.rs2.value;
    }
    assert x.bob.key == Zero <==> psk == R.Empty;
  }

  // ---------- honest KK runs ----------

  datatype Kk = Kk(
    plain: bool, sa: nat, sb: nat, ea: nat, eb: nat, kidA: nat, kidB: nat, alice: Ratchet, bob: Ratchet)
  {
    function First(): (Sym, K) { WriteK1(plain, sa, Pub(sb), alice.key, ea, kidA) }

    function Read(): Option<(Sym, nat)> { ReadK1(plain, sb, Pub(sa), bob.key, First().1) }

    function Second(): (Sym, K)
      requires Read().Some?
    {
      WriteK2(plain, Read().value.0, sb, Pub(ea), eb, kidB)
    }
  }

  /** Bob opens the rekey message if and only if both sides have the same ratchet key. */
  lemma K1Opens(x: Kk)
    requires x.kidA != 0
    ensures x.Read() == if x.alice.key == x.bob.key then Some((x.First().0, x.kidA)) else None
  {
  }

  /** A rekey gives both sides the same ratchet state and mirrored keys. */
  lemma KkAgreement(x: Kk)
    requires x.kidA != 0 && x.kidB != 0 && x.alice.key == x.bob.key
    ensures x.Read() == Some((x.First().0, x.kidA))
    ensures var (s, m2) := x.Second();
      && ReadK2(x.plain, x.First().0, x.ea, Pub(x.sb), m2) == Some((s, x.kidB))
      && Mirrored(InitiatorTransport(s).kek, ResponderTransport(s).kek)
      && Mirrored(InitiatorTransport(s).nk, ResponderTransport(s).nk)
      && NextRatchet(s, x.alice.chainLen).key == NextRatchet(s, x.bob.chainLen).key
      && (x.alice.chainLen == x.bob.chainLen ==> NextRatchet(s, x.alice.chainLen) == NextRatchet(s, x.bob.chainLen))
  {
    K1Opens(x);
    ReadsK2(x.plain, x.First().0, x.ea, x.sb, x.eb, x.kidB);
  }

  lemma ReadsK2(plain: bool, s: Sym, ea: nat, sb: nat, eb: nat, kid: nat)
    requires kid != 0
    ensures var (s', m) := WriteK2(plain, s, sb, Pub(ea), eb, kid); ReadK2(plain, s, ea, Pub(sb), m) == Some((s', kid))
  {
  }

  /** A response opens at Alice if and only if it continues her own rekey message: made with her
      ephemeral key, her ratchet key and her key id. */
  lemma K2Opens(x: Kk, y: Kk)
    requires x.kidA != 0 && x.kidB != 0 && y.kidA != 0
    requires x.plain == y.plain && x.sa == y.sa && x.sb == y.sb && x.Read().Some?
    ensures ReadK2(x.plain, y.First().0, y.ea, Pub(y.sb), x.Second().1).Some? <==>
            x.ea == y.ea && x.alice.key == y.alice.key && x.kidA == y.kidA
  {
    K1Opens(x);
  }
}
