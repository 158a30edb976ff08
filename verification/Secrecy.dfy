/** What an intruder can learn. He holds some Diffie-Hellman and KEM secrets and every message that was
    ever sent, computes whatever he likes and takes part in as many exchanges as he likes. Which secrets
    he needs for the keys of an exchange is said exactly. */
module Secrecy {
  import opened Wrappers
  import opened Noise
  import opened KeyExchange

  /** The secrets of others that the intruder holds, besides his own. */
  datatype Held = Held(secrets: set<nat>, kems: set<nat>, coins: set<nat>)

  // ---------- what can be computed ----------

  /** How a term is computed. Constants and public keys are anybody's. */
  datatype Derivation =
    | Given(t: Term)
    | Constant(t: Term)
    | MakePair(d: Derivation, e: Derivation)
    | Left(d: Derivation)
    | Right(d: Derivation)
    | Agree(secret: nat, d: Derivation)
    | Encapsulate(coins: nat, d: Derivation)
    | Encapsulated(coins: nat, d: Derivation)
    | Decapsulate(kem: nat, d: Derivation)
    | MakeHash(d: Derivation, e: Derivation)
    | MakeKdf(d: Derivation, purpose: Purpose, e: Derivation, bits: nat, no: nat)
    | MakeHalf(d: Derivation)
    | Seal(key: Derivation, nonce: Nonce, ad: Derivation, plain: Derivation)
    | Unseal(key: Derivation, d: Derivation)

  predicate IsPublic(t: Term) { t.Zero? || t.Name? || t.Bytes? || t.Pub? || t.KemPub? }

  /** What a derivation yields, if every step of it can be taken. */
  function Yields(d: Derivation, h: Held, known: set<Term>): Option<Term> {
    match d
    case Given(t) => if t in known then Some(t) else None
    case Constant(t) => if IsPublic(t) then Some(t) else None
    case MakePair(d, e) =>
      var (a, b) := (Yields(d, h, known), Yields(e, h, known));
      if a.Some? && b.Some? then Some(Pair(a.value, b.value)) else None
    case Left(d) =>
      var a := Yields(d, h, known);
      if a.Some? && a.value.Pair? then Some(a.value.left) else None
    case Right(d) =>
      var a := Yields(d, h, known);
      if a.Some? && a.value.Pair? then Some(a.value.right) else None
    case Agree(secret, d) =>
      var a := Yields(d, h, known);
      if secret in h.secrets && a.Some? && a.value.Pub? then
        Some(if secret <= a.value.secret then Dh(secret, a.value.secret) else Dh(a.value.secret, secret))
      else None
    case Encapsulate(coins, d) =>
      var a := Yields(d, h, known);
      if coins in h.coins && a.Some? && a.value.KemPub? then Some(KemCiphertext(a.value.kem, coins)) else None
    case Encapsulated(coins, d) =>
      var a := Yields(d, h, known);
      if coins in h.coins && a.Some? && a.value.KemPub? then Some(KemSecret(a.value.kem, coins)) else None
    case Decapsulate(kem, d) =>
      var a := Yields(d, h, known);
      if kem in h.kems && a.Some? && a.value.KemCiphertext? && a.value.kem == kem
      then Some(KemSecret(kem, a.value.coins)) else None
    case MakeHash(d, e) =>
      var (a, b) := (Yields(d, h, known), Yields(e, h, known));
      if a.Some? && b.Some? then Some(Hash(a.value, b.value)) else None
    case MakeKdf(d, purpose, e, bits, no) =>
      var (a, b) := (Yields(d, h, known), Yields(e, h, known));
      if a.Some? && b.Some? then Some(Kdf(a.value, purpose, b.value, bits, no)) else None
    case MakeHalf(d) =>
      var a := Yields(d, h, known);
      if a.Some? then Some(Half(a.value)) else None
    case Seal(key, nonce, ad, plain) =>
      var (k, a, p) := (Yields(key, h, known), Yields(ad, h, known), Yields(plain, h, known));
      if k.Some? && a.Some? && p.Some? then Some(Sealed(k.value, nonce, a.value, p.value)) else None
    case Unseal(key, d) =>
      var (k, c) := (Yields(key, h, known), Yields(d, h, known));
      if k.Some? && c.Some? && c.value.Sealed? && c.value.key == k.value then Some(c.value.plain) else None
  }

  ghost predicate Derivable(h: Held, known: set<Term>, t: Term) { exists d :: Yields(d, h, known) == Some(t) }

  // ---------- what cannot ----------

  /** The second output that is derived for a ratchet state, its fingerprint, counts as public. */
  predicate IsFingerprint(block: Term) { block.Kdf? && block.purpose.ForRatchet? && block.no == 2 }

  /** A term that gives nothing away beyond what the intruder holds. */
  predicate Safe(t: Term, h: Held) {
    match t
    case Zero => true
    case Name(_) => true
    case Bytes(_) => true
    case Pair(l, r) => Safe(l, h) && Safe(r, h)
    case Pub(_) => true
    case Dh(low, high) => low in h.secrets || high in h.secrets
    case KemPub(_) => true
    case KemCiphertext(_, _) => true
    case KemSecret(kem, coins) => kem in h.kems || coins in h.coins
    case Hash(_, _) => true
    case Kdf(ikm, _, context, _, _) => Safe(ikm, h) && Safe(context, h)
    case Half(block) => Safe(block, h) || IsFingerprint(block)
    case Sealed(key, _, _, plain) => Safe(key, h) ==> Safe(plain, h)
  }

  ghost predicate AllSafe(known: set<Term>, h: Held) { forall t :: t in known ==> Safe(t, h) }

  /** From terms that give nothing away nothing else can be computed. */
  lemma {:induction false} DerivedIsSafe(d: Derivation, h: Held, known: set<Term>)
    requires AllSafe(known, h)
    ensures Yields(d, h, known).Some? ==> Safe(Yields(d, h, known).value, h)
  {
    match d
    case Given(t) =>
    case Constant(t) =>
    case MakePair(d, e) => DerivedIsSafe(d, h, known); DerivedIsSafe(e, h, known);
    case Left(d) => DerivedIsSafe(d, h, known);
    case Right(d) => DerivedIsSafe(d, h, known);
    case Agree(secret, d) => DerivedIsSafe(d, h, known);
    case Encapsulate(coins, d) => DerivedIsSafe(d, h, known);
    case Encapsulated(coins, d) => DerivedIsSafe(d, h, known);
    case Decapsulate(kem, d) => DerivedIsSafe(d, h, known);
    case MakeHash(d, e) => DerivedIsSafe(d, h, known); DerivedIsSafe(e, h, known);
    case MakeKdf(d, purpose, e, bits, no) => DerivedIsSafe(d, h, known); DerivedIsSafe(e, h, known);
    case MakeHalf(d) => DerivedIsSafe(d, h, known);
    case Seal(key, nonce, ad, plain) =>
      DerivedIsSafe(key, h, known);
      DerivedIsSafe(ad, h, known);
      DerivedIsSafe(plain, h, known);
    case Unseal(key, d) => DerivedIsSafe(key, h, known); DerivedIsSafe(d, h, known);
  }

  lemma NotDerivable(h: Held, known: set<Term>, t: Term)
    requires AllSafe(known, h) && !Safe(t, h)
    ensures !Derivable(h, known, t)
  {
    forall d ensures Yields(d, h, known) != Some(t) {
      DerivedIsSafe(d, h, known);
    }
  }

  // ---------- the symmetric state ----------

  lemma SafeMix(s: Sym, ikm: Term, init: bool, h: Held)
    ensures Safe(s.Mix(ikm, init).ck, h) <==> Safe(s.ck, h) && Safe(ikm, h)
    ensures Safe(s.MixAndHash(ikm, init).ck, h) <==> Safe(s.ck, h) && Safe(ikm, h)
    ensures s.MixHash(ikm).ck == s.ck
  {
  }

  lemma SafeCipherKey(s: Sym, ikm: Term, h: Held)
    ensures Safe(s.Mix(ikm, true).k, h) <==> Safe(s.ck, h) && Safe(ikm, h)
    ensures Safe(s.MixAndHash(ikm, true).k, h) <==> Safe(s.ck, h) && Safe(ikm, h)
  {
  }

  lemma SafeCrypt(s: Sym, nonce: Nonce, t: Term, h: Held)
    ensures s.Encrypt(nonce, t).0.ck == s.ck && s.Decrypt(nonce, t).0.ck == s.ck
    ensures s.Encrypt(nonce, t).0.h.Hash? && s.Decrypt(nonce, t).0.h.Hash?
    ensures Safe(s.Encrypt(nonce, t).1, h) <==> (Safe(s.k, h) ==> Safe(t, h))
  {
  }

  lemma SafeAgreed(secret: nat, remote: nat, h: Held)
    ensures Safe(Agreed(secret, Pub(remote)), h) <==> secret in h.secrets || remote in h.secrets
  {
  }

  /** The keys that are read out of a state give as much away as its chaining key. */
  predicate KeysLike(s: Sym, known: bool, h: Held) {
    && (Safe(s.Split().0, h) <==> known) && (Safe(s.Split().1, h) <==> known)
    && (Safe(s.GetAsk(ForKex).0, h) <==> known) && (Safe(s.GetAsk(ForKex).1, h) <==> known)
    && (Safe(s.GetAsk(ForHeader).0, h) <==> known) && (Safe(s.GetAsk(ForHeader).1, h) <==> known)
    && (Safe(s.GetAsk(ForRatchet).0, h) <==> known)
  }

  lemma SafeKeys(s: Sym, h: Held)
    requires s.h.Hash?
    ensures KeysLike(s, Safe(s.ck, h), h) && Safe(s.GetAsk(ForRatchet).1, h)
  {
    SafeOutputs(s.ck, Zero, Chain, h);
    SafeOutputs(s.ck, s.h, ForKex, h);
    SafeOutputs(s.ck, s.h, ForHeader, h);
    SafeOutputs(s.ck, s.h, ForRatchet, h);
    assert Safe(s.h, h);
  }

  lemma SafeOutputs(ck: Term, ikm: Term, purpose: Purpose, h: Held)
    ensures Safe(Half(Kbkdf(ck, ikm, purpose, 2, 1)), h) <==> Safe(ck, h) && Safe(ikm, h)
    ensures Safe(Half(Kbkdf(ck, ikm, purpose, 2, 2)), h) <==> (Safe(ck, h) && Safe(ikm, h)) || purpose.ForRatchet?
  {
  }

  // ---------- XK ----------

  predicate KnowsDh(a: nat, b: nat, h: Held) { a in h.secrets || b in h.secrets }

  predicate KnowsKem(kem: nat, coins: nat, h: Held) { kem in h.kems || coins in h.coins }

  /** After the first message: the intruder needs the ephemeral or the responder's static secret. */
  lemma FirstState(plain: bool, kid: nat, sb: nat, ea: nat, e1: nat, rf1: Term, rf2: Term, h: Held)
    ensures
      var (s, m) := WriteX1(plain, kid, Pub(sb), ea, e1, rf1, rf2);
      && (Safe(s.ck, h) <==> KnowsDh(ea, sb, h)) && s.h.Hash?
      && Safe(m.e, h) && Safe(m.e1, h) && (Safe(rf1, h) && Safe(rf2, h) ==> Safe(m.payload, h))
  {
    hide Safe;
    var s0 := Initialize(XK).MixHash(Bytes(kid)).MixHash(Pub(sb)).MixHash(Pub(ea));
    SafeStart(XK, h);
    SafeMix(s0, Pub(ea), plain, h);
    var s1 := s0.Mix(Pub(ea), plain);
    SafeMix(s1, Agreed(ea, Pub(sb)), true, h);
    var s2 := s1.Mix(Agreed(ea, Pub(sb)), true);
    SafeAgreed(ea, sb, h);
    SafePublic(ea, e1, 0, h);
    SafeCrypt(s2, Nonce(HELLO, 0), KemPub(e1), h);
    var s3 := s2.Encrypt(Nonce(HELLO, 0), KemPub(e1)).0;
    SafeCrypt(s3, Nonce(HELLO, 1), Pair(rf1, rf2), h);
    SafePair(rf1, rf2, h);
  }

  lemma SafeStart(p: Protocol, h: Held)
    ensures Safe(Initialize(p).ck, h)
  {
  }

  lemma SafePublic(secret: nat, kem: nat, n: nat, h: Held)
    ensures Safe(Pub(secret), h) && Safe(KemPub(kem), h) && Safe(Bytes(n), h) && Safe(KemCiphertext(kem, n), h)
    ensures Safe(Zero, h) && (Safe(KemSecret(kem, n), h) <==> KnowsKem(kem, n, h))
  {
  }

  lemma SafePair(l: Term, r: Term, h: Held)
    ensures Safe(Pair(l, r), h) <==> Safe(l, h) && Safe(r, h)
  {
  }

  /** What the responder makes of any first message, if he can read it. */
  lemma FirstRead(plain: bool, sb: nat, x1: X1, h: Held)
    requires ReadX1(plain, sb, x1).Some?
    ensures x1.e.Pub? && ReadX1(plain, sb, x1).value.0.h.Hash?
    ensures Safe(ReadX1(plain, sb, x1).value.0.ck, h) <==> KnowsDh(x1.e.secret, sb, h)
  {
    hide Safe;
    var s0 := Initialize(XK).MixHash(Bytes(x1.kid)).MixHash(Pub(sb)).MixHash(x1.e);
    SafeStart(XK, h);
    SafeMix(s0, x1.e, plain, h);
    SafePublic(x1.e.secret, 0, 0, h);
    SafeMix(s0.Mix(x1.e, plain), Agreed(sb, x1.e), true, h);
    SafeAgreed(sb, x1.e.secret, h);
  }

  /** After the second message, as the responder writes it for whatever he read. */
  lemma SecondState(plain: bool, s: Sym, ea: nat, e1: nat, eb: nat, coins: nat, psk: Term, kid: nat, h: Held)
    requires s.h.Hash?
    ensures
      var w := WriteX2(plain, s, Pub(ea), KemPub(e1), eb, coins, psk, kid);
      && w.Some? && w.value.0.h.Hash?
      && (Safe(w.value.0.ck, h) <==>
            Safe(s.ck, h) && KnowsDh(ea, eb, h) && KnowsKem(e1, coins, h) && Safe(psk, h))
      && Safe(w.value.1.e, h) && Safe(w.value.1.ekem1, h) && Safe(w.value.1.payload, h)
  {
    hide Safe;
    SafePublic(eb, e1, coins, h);
    SafePublic(eb, e1, kid, h);
    var s0 := s.MixHash(Pub(eb)).Mix(Pub(eb), plain);
    SafeMix(s.MixHash(Pub(eb)), Pub(eb), plain, h);
    var s1 := s0.Mix(Agreed(eb, Pub(ea)), true);
    SafeMix(s0, Agreed(eb, Pub(ea)), true, h);
    SafeAgreed(eb, ea, h);
    SafeCrypt(s1, Nonce(RESPONSE, 0), KemCiphertext(e1, coins), h);
    var s2 := s1.Encrypt(Nonce(RESPONSE, 0), KemCiphertext(e1, coins)).0;
    SafeMix(s2, KemSecret(e1, coins), plain, h);
    var s3 := s2.Mix(KemSecret(e1, coins), plain);
    SafeMix(s3, psk, true, h);
    SafeCrypt(s3.MixAndHash(psk, true), Nonce(RESPONSE, 0), Bytes(kid), h);
  }

  /** What the initiator makes of any second message before the pre-shared key. */
  lemma SecondRead(plain: bool, s: Sym, ea: nat, e1: nat, x2: X2, h: Held) returns (eb: nat, coins: nat)
    requires BeforePsk(plain, s, ea, e1, x2).Some?
    ensures x2.e == Pub(eb)
    ensures Safe(BeforePsk(plain, s, ea, e1, x2).value.ck, h) <==>
      Safe(s.ck, h) && KnowsDh(ea, eb, h) && KnowsKem(e1, coins, h)
  {
    hide Safe;
    eb := x2.e.secret;
    var s0 := s.MixHash(x2.e).Mix(x2.e, plain);
    SafeMix(s.MixHash(x2.e), x2.e, plain, h);
    SafePublic(eb, e1, 0, h);
    var s1 := s0.Mix(Agreed(ea, x2.e), true);
    SafeMix(s0, Agreed(ea, x2.e), true, h);
    SafeAgreed(ea, eb, h);
    var (s2, ct) := s1.Decrypt(Nonce(RESPONSE, 0), x2.ekem1);
    SafeCrypt(s1, Nonce(RESPONSE, 0), x2.ekem1, h);
    coins := ct.value.coins;
    SafePublic(eb, e1, coins, h);
    SafeMix(s2, KemSecret(e1, coins), plain, h);
  }

  /** The third message, as it is written and as it is read. */
  lemma ThirdState(s: Sym, sa: nat, eb: nat, identity: Term, h: Held)
    requires s.h.Hash?
    ensures
      var (t, m) := WriteX3(s, sa, Pub(eb), identity);
      && t.h.Hash? && (Safe(t.ck, h) <==> Safe(s.ck, h) && KnowsDh(sa, eb, h))
      && Safe(m.s, h)
      && (Safe(m.payload, h) <==> (Safe(s.ck, h) && KnowsDh(sa, eb, h) ==> Safe(identity, h)))
  {
    hide Safe;
    SafePublic(sa, 0, 0, h);
    SafeCrypt(s, Nonce(COMPLETION, 1), Pub(sa), h);
    var s1 := s.Encrypt(Nonce(COMPLETION, 1), Pub(sa)).0;
    SafeMix(s1, Agreed(sa, Pub(eb)), true, h);
    SafeCipherKey(s1, Agreed(sa, Pub(eb)), h);
    SafeAgreed(sa, eb, h);
    SafeCrypt(s1.Mix(Agreed(sa, Pub(eb)), true), Nonce(COMPLETION, 0), identity, h);
  }

  lemma ThirdRead(s: Sym, eb: nat, x3: X3, h: Held) returns (sa: nat)
    requires ReadX3(s, eb, x3).Some?
    ensures ReadX3(s, eb, x3).value.1 == Pub(sa) && ReadX3(s, eb, x3).value.0.h.Hash?
    ensures Safe(ReadX3(s, eb, x3).value.0.ck, h) <==> Safe(s.ck, h) && KnowsDh(sa, eb, h)
  {
    hide Safe;
    var (s1, remote) := s.Decrypt(Nonce(COMPLETION, 1), x3.s);
    SafeCrypt(s, Nonce(COMPLETION, 1), x3.s, h);
    sa := remote.value.secret;
    SafeMix(s1, Agreed(eb, remote.value), true, h);
    SafeAgreed(eb, sa, h);
    SafeCrypt(s1.Mix(Agreed(eb, remote.value), true), Nonce(COMPLETION, 0), x3.payload, h);
  }

  /** What the intruder needs for the keys of an XK exchange: one secret of each Diffie-Hellman pair, of
      the KEM, and the pre-shared key. `ea`, `sb`, `eb` and `sa` are the ephemeral and static secrets. */
  predicate XkNeeds(ea: nat, sb: nat, eb: nat, sa: nat, kem: nat, coins: nat, psk: Term, h: Held) {
    KnowsDh(ea, sb, h) && KnowsDh(ea, eb, h) && KnowsKem(kem, coins, h) && KnowsDh(sa, eb, h) && Safe(psk, h)
  }

  predicate XkBroken(x: Xk, h: Held) { XkNeeds(x.ea, x.sb, x.eb, x.sa, x.e1, x.coins, x.bob.key, h) }

  /** The transport, key-exchange and ratchet keys of an end. */
  function Keys(e: End): set<Term> {
    {e.transport.nk.send, e.transport.nk.recv, e.transport.kek.send, e.transport.kek.recv, e.ratchet.key}
  }

  /** The parts of the three messages of a run. */
  function Messages(x: Xk): set<Term> {
    var m1 := x.First().1;
    {m1.e, m1.e1, m1.payload}
    + (if x.Second().Some? then {x.Second().value.1.e, x.Second().value.1.ekem1, x.Second().value.1.payload} else {})
    + (if x.Heard().Some? && x.Heard().value.e.Pub? then
         var m3 := WriteX3(x.Heard().value.sym, x.sa, x.Heard().value.e, x.identity).1; {m3.s, m3.payload}
       else {})
  }

  /** The ratchet fingerprints that the initiator sends are public, and so is her identity, unless the
      intruder cannot read the third message. */
  predicate Discreet(x: Xk, h: Held) {
    && Safe(x.rs1.fingerprint, h) && (x.rs2.Some? ==> Safe(x.rs2.value.fingerprint, h))
    && (XkBroken(x, h) ==> Safe(x.identity, h))
  }

  lemma XkStates(x: Xk, h: Held)
    requires x.kidA != 0 && x.kidB != 0 && Selectable(x)
    ensures x.Second().Some? && x.Heard().Some? && AliceEnd(x).Some?
    ensures Safe(AliceEnd(x).value.ck, h) <==> XkBroken(x, h)
    ensures forall k :: k in Keys(AliceEnd(x).value) ==> (Safe(k, h) <==> XkBroken(x, h))
  {
    hide ReadX1, ReadX2, ReadX3, WriteX1, WriteX2, WriteX3, Safe, Kbkdf;
    XkAgreement(x);
    TrialSelects(x);
    ReadsX1(x);
    var rf2 := if x.rs2.Some? then x.rs2.value.fingerprint else Zero;
    FirstState(x.plain, x.kidA, x.sb, x.ea, x.e1, x.rs1.fingerprint, rf2, h);
    SecondState(x.plain, x.First().0, x.ea, x.e1, x.eb, x.coins, x.bob.key, x.kidB, h);
    ThirdState(x.Second().value.0, x.sa, x.eb, x.identity, h);
    SafeKeys(WriteX3(x.Second().value.0, x.sa, Pub(x.eb), x.identity).0, h);
  }

  /** The messages of a run may be known to everybody. */
  lemma XkMessages(x: Xk, h: Held)
    requires x.kidA != 0 && x.kidB != 0 && Selectable(x) && Discreet(x, h)
    ensures AllSafe(Messages(x), h)
  {
    hide ReadX1, ReadX2, ReadX3, WriteX1, WriteX2, WriteX3, Safe, Kbkdf;
    TrialSelects(x);
    ReadsX1(x);
    var rf2 := if x.rs2.Some? then x.rs2.value.fingerprint else Zero;
    SafePublic(0, 0, 0, h);
    FirstState(x.plain, x.kidA, x.sb, x.ea, x.e1, x.rs1.fingerprint, rf2, h);
    SecondState(x.plain, x.First().0, x.ea, x.e1, x.eb, x.coins, x.bob.key, x.kidB, h);
    ThirdState(x.Second().value.0, x.sa, x.eb, x.identity, h);
  }

  /** No key of an honest handshake can be computed from everything that was ever sent, unless the
      intruder holds what it takes. Both sides have the same keys by `XkAgreement`. */
  lemma XkSecrecy(x: Xk, h: Held, known: set<Term>, k: Term)
    requires x.kidA != 0 && x.kidB != 0 && Selectable(x) && AllSafe(known, h)
    requires AliceEnd(x).Some? && k in Keys(AliceEnd(x).value) && Derivable(h, known, k)
    ensures XkBroken(x, h)
  {
    hide Safe, AllSafe, Derivable;
    XkStates(x, h);
    if !Safe(k, h) { NotDerivable(h, known, k); }
  }

  // ---------- and what he holds is enough ----------

  lemma DerivableKdf(h: Held, known: set<Term>, ikm: Term, purpose: Purpose, context: Term, bits: nat, no: nat)
    requires Derivable(h, known, ikm) && Derivable(h, known, context)
    ensures Derivable(h, known, Kdf(ikm, purpose, context, bits, no))
    ensures Derivable(h, known, Half(Kdf(ikm, purpose, context, bits, no)))
  {
    var d :| Yields(d, h, known) == Some(ikm);
    var e :| Yields(e, h, known) == Some(context);
    var f := MakeKdf(d, purpose, e, bits, no);
    assert Yields(f, h, known) == Some(Kdf(ikm, purpose, context, bits, no));
    assert Yields(MakeHalf(f), h, known) == Some(Half(Kdf(ikm, purpose, context, bits, no)));
  }

  lemma DerivableMix(h: Held, known: set<Term>, s: Sym, ikm: Term, init: bool)
    requires Derivable(h, known, s.ck) && Derivable(h, known, ikm)
    ensures Derivable(h, known, s.Mix(ikm, init).ck) && Derivable(h, known, s.MixAndHash(ikm, init).ck)
    ensures Derivable(h, known, s.Mix(ikm, true).k)
  {
    hide Derivable;
    DerivableKdf(h, known, ikm, Chain, s.ck, 2 * 8 * HASHLEN, 1);
    DerivableKdf(h, known, ikm, Chain, s.ck, 2 * 8 * HASHLEN, 2);
    DerivableKdf(h, known, ikm, Chain, s.ck, 3 * 8 * HASHLEN, 1);
  }

  lemma DerivableAgreed(h: Held, known: set<Term>, a: nat, b: nat)
    requires KnowsDh(a, b, h)
    ensures Derivable(h, known, Agreed(a, Pub(b)))
  {
    if a in h.secrets {
      assert Yields(Agree(a, Constant(Pub(b))), h, known) == Some(Agreed(a, Pub(b)));
    } else {
      assert Yields(Agree(b, Constant(Pub(a))), h, known) == Some(Agreed(a, Pub(b)));
    }
  }

  lemma DerivablePublic(h: Held, known: set<Term>, t: Term)
    requires IsPublic(t)
    ensures Derivable(h, known, t)
  {
    assert Yields(Constant(t), h, known) == Some(t);
  }

  lemma DerivableKem(h: Held, known: set<Term>, s: Sym, nonce: Nonce, kem: nat, coins: nat)
    requires Derivable(h, known, s.k) && s.Encrypt(nonce, KemCiphertext(kem, coins)).1 in known
    requires KnowsKem(kem, coins, h)
    ensures Derivable(h, known, KemSecret(kem, coins))
  {
    var c := s.Encrypt(nonce, KemCiphertext(kem, coins)).1;
    if coins in h.coins {
      assert Yields(Encapsulated(coins, Constant(KemPub(kem))), h, known) == Some(KemSecret(kem, coins));
    } else {
      var d :| Yields(d, h, known) == Some(s.k);
      var e := Unseal(d, Given(c));
      assert Yields(e, h, known) == Some(KemCiphertext(kem, coins));
      assert Yields(Decapsulate(kem, e), h, known) == Some(KemSecret(kem, coins));
    }
  }

  lemma DerivableFirst(plain: bool, kid: nat, sb: nat, ea: nat, e1: nat, rf1: Term, rf2: Term, h: Held,
                       known: set<Term>)
    requires KnowsDh(ea, sb, h)
    ensures Derivable(h, known, WriteX1(plain, kid, Pub(sb), ea, e1, rf1, rf2).0.ck)
  {
    hide Derivable;
    var s0 := Initialize(XK).MixHash(Bytes(kid)).MixHash(Pub(sb)).MixHash(Pub(ea));
    DerivablePublic(h, known, Name(XK));
    DerivablePublic(h, known, Pub(ea));
    DerivableMix(h, known, s0, Pub(ea), plain);
    DerivableAgreed(h, known, ea, sb);
    DerivableMix(h, known, s0.Mix(Pub(ea), plain), Agreed(ea, Pub(sb)), true);
  }

  lemma DerivableSecond(plain: bool, s: Sym, ea: nat, e1: nat, eb: nat, coins: nat, psk: Term, kid: nat, h: Held,
                        known: set<Term>)
    requires Derivable(h, known, s.ck) && Derivable(h, known, psk) && KnowsDh(ea, eb, h) && KnowsKem(e1, coins, h)
    requires var w := WriteX2(plain, s, Pub(ea), KemPub(e1), eb, coins, psk, kid); w.Some? && w.value.1.ekem1 in known
    ensures Derivable(h, known, WriteX2(plain, s, Pub(ea), KemPub(e1), eb, coins, psk, kid).value.0.ck)
  {
    hide Derivable;
    DerivablePublic(h, known, Pub(eb));
    DerivableMix(h, known, s.MixHash(Pub(eb)), Pub(eb), plain);
    var s0 := s.MixHash(Pub(eb)).Mix(Pub(eb), plain);
    DerivableAgreed(h, known, eb, ea);
    DerivableMix(h, known, s0, Agreed(eb, Pub(ea)), true);
    var s1 := s0.Mix(Agreed(eb, Pub(ea)), true);
    DerivableKem(h, known, s1, Nonce(RESPONSE, 0), e1, coins);
    var s2 := s1.Encrypt(Nonce(RESPONSE, 0), KemCiphertext(e1, coins)).0;
    DerivableMix(h, known, s2, KemSecret(e1, coins), plain);
    DerivableMix(h, known, s2.Mix(KemSecret(e1, coins), plain), psk, true);
  }

  lemma DerivableThird(s: Sym, sa: nat, eb: nat, identity: Term, h: Held, known: set<Term>)
    requires Derivable(h, known, s.ck) && KnowsDh(sa, eb, h)
    ensures var t := WriteX3(s, sa, Pub(eb), identity).0;
      Derivable(h, known, t.ck) && Derivable(h, known, t.Split().0) && Derivable(h, known, t.Split().1)
  {
    hide Derivable;
    var s1 := s.Encrypt(Nonce(COMPLETION, 1), Pub(sa)).0;
    DerivableAgreed(h, known, sa, eb);
    DerivableMix(h, known, s1, Agreed(sa, Pub(eb)), true);
    var t := WriteX3(s, sa, Pub(eb), identity).0;
    DerivablePublic(h, known, Zero);
    DerivableKdf(h, known, Zero, Chain, t.ck, 2 * 8 * HASHLEN, 1);
    DerivableKdf(h, known, Zero, Chain, t.ck, 2 * 8 * HASHLEN, 2);
  }

  /** So an intruder who has seen the messages of a handshake can compute its transport keys if and only
      if he holds one secret of each pair, of the KEM, and the pre-shared key. */
  lemma XkExactly(x: Xk, h: Held, known: set<Term>)
    requires x.kidA != 0 && x.kidB != 0 && Selectable(x) && AliceEnd(x).Some?
    requires Messages(x) <= known && AllSafe(known, h) && (Safe(x.bob.key, h) ==> Derivable(h, known, x.bob.key))
    ensures Derivable(h, known, AliceEnd(x).value.transport.nk.send) <==> XkBroken(x, h)
    ensures Derivable(h, known, AliceEnd(x).value.transport.nk.recv) <==> XkBroken(x, h)
  {
    hide ReadX1, ReadX2, ReadX3, WriteX1, WriteX2, WriteX3, Safe, Derivable, AllSafe, Yields;
    XkStates(x, h);
    TrialSelects(x);
    ReadsX1(x);
    var e := AliceEnd(x).value;
    if XkBroken(x, h) {
      var rf2 := if x.rs2.Some? then x.rs2.value.fingerprint else Zero;
      DerivableFirst(x.plain, x.kidA, x.sb, x.ea, x.e1, x.rs1.fingerprint, rf2, h, known);
      assert x.Second().value.1.ekem1 in Messages(x);
      DerivableSecond(x.plain, x.First().0, x.ea, x.e1, x.eb, x.coins, x.bob.key, x.kidB, h, known);
      DerivableThird(x.Second().value.0, x.sa, x.eb, x.identity, h, known);
    } else {
      NotDerivable(h, known, e.transport.nk.send);
      NotDerivable(h, known, e.transport.nk.recv);
    }
  }

  // ---------- against a peer that is the intruder ----------

  /** The initiator mixes one of the ratchet keys she remembers, or none. */
  lemma TrialMixes(s: Sym, e: Term, payload: Term, rs1: Ratchet, rs2: Option<Ratchet>, disallowDowngrade: bool)
    returns (psk: Term)
    requires Trial(s, e, payload, rs1, rs2, disallowDowngrade).Some?
    ensures psk == rs1.key || (rs2.Some? && psk == rs2.value.key) || (psk == Zero && !disallowDowngrade)
    ensures Trial(s, e, payload, rs1, rs2, disallowDowngrade).value.sym ==
      s.MixAndHash(psk, true).Decrypt(Nonce(RESPONSE, 0), payload).0
  {
    psk := if TestRatchetKey(s, rs1.key, payload).Some? then rs1.key
           else if rs2.Some? && TestRatchetKey(s, rs2.value.key, payload).Some? then rs2.value.key else Zero;
  }

  /** Whoever answers an initiator, with whatever ephemeral key and KEM coins, needs for the keys that she
      ends with a secret of the pair with the responder's static key, besides the rest. */
  lemma InitiatorKeys(plain: bool, kid: nat, sa: nat, sb: nat, ea: nat, e1: nat, rs1: Ratchet, rs2: Option<Ratchet>,
                      rf2: Term, disallowDowngrade: bool, x2: X2, identity: Term, h: Held)
    returns (eb: nat, coins: nat, psk: Term)
    requires
      var s := WriteX1(plain, kid, Pub(sb), ea, e1, rs1.fingerprint, rf2).0;
      ReadX2(plain, s, ea, e1, rs1, rs2, disallowDowngrade, x2).Some?
    ensures x2.e == Pub(eb)
    ensures psk == rs1.key || (rs2.Some? && psk == rs2.value.key) || (psk == Zero && !disallowDowngrade)
    ensures
      var s := WriteX1(plain, kid, Pub(sb), ea, e1, rs1.fingerprint, rf2).0;
      var r := ReadX2(plain, s, ea, e1, rs1, rs2, disallowDowngrade, x2).value;
      r.e == x2.e && KeysLike(WriteX3(r.sym, sa, r.e, identity).0, XkNeeds(ea, sb, eb, sa, e1, coins, psk, h), h)
  {
    hide WriteX1, WriteX3, BeforePsk, Trial, Safe, KeysLike;
    var s := WriteX1(plain, kid, Pub(sb), ea, e1, rs1.fingerprint, rf2).0;
    FirstState(plain, kid, sb, ea, e1, rs1.fingerprint, rf2, h);
    var before := BeforePsk(plain, s, ea, e1, x2).value;
    eb, coins := SecondRead(plain, s, ea, e1, x2, h);
    psk := TrialMixes(before, x2.e, x2.payload, rs1, rs2, disallowDowngrade);
    TrialKeeps(before, x2.e, x2.payload, rs1, rs2, disallowDowngrade);
    SafeMix(before, psk, true, h);
    var t := before.MixAndHash(psk, true);
    SafeCrypt(t, Nonce(RESPONSE, 0), x2.payload, h);
    ThirdState(t.Decrypt(Nonce(RESPONSE, 0), x2.payload).0, sa, eb, identity, h);
    SafeKeys(WriteX3(t.Decrypt(Nonce(RESPONSE, 0), x2.payload).0, sa, x2.e, identity).0, h);
  }

  lemma TrialKeeps(s: Sym, e: Term, payload: Term, rs1: Ratchet, rs2: Option<Ratchet>, disallowDowngrade: bool)
    ensures
      var r := Trial(s, e, payload, rs1, rs2, disallowDowngrade);
      r.Some? ==> r.value.e == e
  {
  }

  /** Whoever talks to a responder, with whatever keys, needs for the keys that he ends with a secret of
      the pair with the static key that he learns, besides the rest. */
  lemma ResponderKeys(plain: bool, sb: nat, x1: X1, eb: nat, coins: nat, psk: Term, kid: nat, x3: X3, h: Held)
    returns (sa: nat, kem: nat)
    requires ReadX1(plain, sb, x1).Some?
    requires
      var (s, e1, rfs) := ReadX1(plain, sb, x1).value;
      && x1.e.Pub? && WriteX2(plain, s, x1.e, e1, eb, coins, psk, kid).Some?
      && ReadX3(WriteX2(plain, s, x1.e, e1, eb, coins, psk, kid).value.0, eb, x3).Some?
    ensures
      var (s, e1, rfs) := ReadX1(plain, sb, x1).value;
      var (t, remote, identity) := ReadX3(WriteX2(plain, s, x1.e, e1, eb, coins, psk, kid).value.0, eb, x3).value;
      && remote == Pub(sa) && e1 == KemPub(kem)
      && KeysLike(t, XkNeeds(x1.e.secret, sb, eb, sa, kem, coins, psk, h), h)
  {
    hide ReadX1, ReadX3, Safe, KeysLike;
    var (s, e1, rfs) := ReadX1(plain, sb, x1).value;
    FirstRead(plain, sb, x1, h);
    kem := e1.kem;
    SecondState(plain, s, x1.e.secret, kem, eb, coins, psk, kid, h);
    var u := WriteX2(plain, s, x1.e, e1, eb, coins, psk, kid).value.0;
    hide WriteX2;
    sa := ThirdRead(u, eb, x3, h);
    SafeKeys(ReadX3(u, eb, x3).value.0, h);
  }

  /** Whatever an honest participant answers in a handshake or a rekey, and to whom, gives nothing away:
      of what it encrypts, only an initiator's fingerprints and identity need not be public. */
  lemma AnswersAreSafe(plain: bool, s: Sym, eRemote: Term, e1Remote: Term, e: nat, coins: nat, psk: Term, kid: nat,
                       secret: nat, h: Held)
    requires eRemote.Pub?
    ensures
      var w := WriteX2(plain, s, eRemote, e1Remote, e, coins, psk, kid);
      w.Some? ==> Safe(w.value.1.e, h) && Safe(w.value.1.ekem1, h) && Safe(w.value.1.payload, h)
    ensures var m := WriteK1(plain, secret, eRemote, psk, e, kid).1; Safe(m.e, h) && Safe(m.payload, h)
    ensures var m := WriteK2(plain, s, secret, eRemote, e, kid).1; Safe(m.e, h) && Safe(m.payload, h)
  {
    hide Kbkdf;
  }

  // ---------- KK ----------

  /** What the intruder needs for the keys of a rekey. The last token mixes the responder's static with
      the initiator's ephemeral key once more. */
  predicate KkNeeds(ea: nat, sa: nat, sb: nat, eb: nat, psk: Term, h: Held) {
    KnowsDh(ea, sb, h) && KnowsDh(sa, sb, h) && KnowsDh(ea, eb, h) && Safe(psk, h)
  }

  lemma StartedKk(plain: bool, initiator: Term, responder: Term, psk: Term, e: Term, h: Held)
    requires e.Pub?
    ensures
      var s := MixEphemeral(StartKk(plain, initiator, responder, psk), e, plain);
      (Safe(s.ck, h) <==> Safe(psk, h)) && s.h.Hash?
  {
    hide Safe;
    var s0 := Initialize(KK).MixHash(initiator).MixHash(responder);
    SafeStart(KK, h);
    SafeMix(s0, psk, plain, h);
    SafePublic(e.secret, 0, 0, h);
    SafeMix(s0.MixAndHash(psk, plain).MixHash(e), e, plain, h);
  }

  /** The rekey message, as written and as read. */
  lemma RekeyState(plain: bool, secret: nat, remote: nat, psk: Term, e: nat, kid: nat, k1: K, h: Held)
    ensures
      var s := WriteK1(plain, secret, Pub(remote), psk, e, kid).0;
      s.h.Hash? && (Safe(s.ck, h) <==> Safe(psk, h) && KnowsDh(e, remote, h) && KnowsDh(secret, remote, h))
    ensures ReadK1(plain, secret, Pub(remote), psk, k1).Some? ==>
      var s := ReadK1(plain, secret, Pub(remote), psk, k1).value.0;
      && k1.e.Pub? && s.h.Hash?
      && (Safe(s.ck, h) <==> Safe(psk, h) && KnowsDh(k1.e.secret, secret, h) && KnowsDh(secret, remote, h))
  {
    hide Safe;
    StartedKk(plain, Pub(secret), Pub(remote), psk, Pub(e), h);
    var s0 := MixEphemeral(StartKk(plain, Pub(secret), Pub(remote), psk), Pub(e), plain);
    SafeMix(s0, Agreed(e, Pub(remote)), plain, h);
    SafeAgreed(e, remote, h);
    SafeMix(s0.Mix(Agreed(e, Pub(remote)), plain), Agreed(secret, Pub(remote)), true, h);
    SafeAgreed(secret, remote, h);
    if ReadK1(plain, secret, Pub(remote), psk, k1).Some? {
      StartedKk(plain, Pub(remote), Pub(secret), psk, k1.e, h);
      var s1 := MixEphemeral(StartKk(plain, Pub(remote), Pub(secret), psk), k1.e, plain);
      SafeMix(s1, Agreed(secret, k1.e), plain, h);
      SafeAgreed(secret, k1.e.secret, h);
      SafeMix(s1.Mix(Agreed(secret, k1.e), plain), Agreed(secret, Pub(remote)), true, h);
    }
  }

  /** The answer, as written and as read. */
  lemma AnswerState(plain: bool, s: Sym, secret: nat, eRemote: nat, e: nat, kid: nat, remote: nat, k2: K, h: Held)
    requires s.h.Hash?
    ensures
      var t := WriteK2(plain, s, secret, Pub(eRemote), e, kid).0;
      t.h.Hash? && (Safe(t.ck, h) <==> Safe(s.ck, h) && KnowsDh(e, eRemote, h) && KnowsDh(secret, eRemote, h))
    ensures ReadK2(plain, s, e, Pub(remote), k2).Some? ==>
      var t := ReadK2(plain, s, e, Pub(remote), k2).value.0;
      && k2.e.Pub? && t.h.Hash?
      && (Safe(t.ck, h) <==> Safe(s.ck, h) && KnowsDh(e, k2.e.secret, h) && KnowsDh(e, remote, h))
  {
    hide Safe;
    SafePublic(e, 0, 0, h);
    SafeMix(s.MixHash(Pub(e)), Pub(e), plain, h);
    var s0 := s.MixHash(Pub(e)).Mix(Pub(e), plain);
    SafeMix(s0, Agreed(e, Pub(eRemote)), plain, h);
    SafeAgreed(e, eRemote, h);
    SafeMix(s0.Mix(Agreed(e, Pub(eRemote)), plain), Agreed(secret, Pub(eRemote)), true, h);
    SafeAgreed(secret, eRemote, h);
    if ReadK2(plain, s, e, Pub(remote), k2).Some? {
      SafePublic(k2.e.secret, 0, 0, h);
      SafeMix(s.MixHash(k2.e), k2.e, plain, h);
      var s1 := s.MixHash(k2.e).Mix(k2.e, plain);
      SafeMix(s1, Agreed(e, k2.e), plain, h);
      SafeAgreed(e, k2.e.secret, h);
      SafeMix(s1.Mix(Agreed(e, k2.e), plain), Agreed(e, Pub(remote)), true, h);
      SafeAgreed(e, remote, h);
    }
  }

  predicate KkBroken(x: Kk, h: Held) { KkNeeds(x.ea, x.sa, x.sb, x.eb, x.bob.key, h) }

  /** The keys of an honest rekey give as much away as the intruder holds of what he needs. */
  lemma KkKeys(x: Kk, h: Held)
    requires x.kidA != 0 && x.kidB != 0 && x.alice.key == x.bob.key
    ensures x.Read().Some? && KeysLike(x.Second().0, KkBroken(x, h), h)
  {
    hide Safe, KeysLike, WriteK1, ReadK1, WriteK2, ReadK2;
    K1Opens(x);
    var m := x.First().1;
    RekeyState(x.plain, x.sa, x.sb, x.alice.key, x.ea, x.kidA, m, h);
    AnswerState(x.plain, x.First().0, x.sb, x.ea, x.eb, x.kidB, 0, m, h);
    SafeKeys(x.Second().0, h);
  }

  /** Whoever answers a rekey needs for the keys that the initiator ends with a secret of the pair with
      the responder's static key, besides the rest; and so with the sides exchanged. */
  lemma RekeyKeys(plain: bool, secret: nat, remote: nat, psk: Term, e: nat, kid: nat, k1: K, k2: K, kid2: nat, h: Held)
    ensures
      var s := WriteK1(plain, secret, Pub(remote), psk, e, kid).0;
      var r := ReadK2(plain, s, e, Pub(remote), k2);
      r.Some? ==> k2.e.Pub? && KeysLike(r.value.0, KkNeeds(e, secret, remote, k2.e.secret, psk, h), h)
    ensures
      var r := ReadK1(plain, secret, Pub(remote), psk, k1);
      r.Some? ==>
        && k1.e.Pub?
        && KeysLike(WriteK2(plain, r.value.0, secret, k1.e, e, kid2).0,
                    KkNeeds(k1.e.secret, remote, secret, e, psk, h), h)
  {
    hide Safe, KeysLike, WriteK1, ReadK1, WriteK2, ReadK2;
    RekeyState(plain, secret, remote, psk, e, kid, k1, h);
    var s := WriteK1(plain, secret, Pub(remote), psk, e, kid).0;
    var r := ReadK2(plain, s, e, Pub(remote), k2);
    AnswerState(plain, s, secret, 0, e, kid2, remote, k2, h);
    if r.Some? { SafeKeys(r.value.0, h); }
    var q := ReadK1(plain, secret, Pub(remote), psk, k1);
    if q.Some? {
      AnswerState(plain, q.value.0, secret, k1.e.secret, e, kid2, remote, k2, h);
      SafeKeys(WriteK2(plain, q.value.0, secret, k1.e, e, kid2).0, h);
    }
  }

  // ---------- the ratchet ----------

  /** An honest exchange: a handshake or a rekey. */
  datatype Exchange = Opening(xk: Xk) | Rekey(kk: Kk)

  predicate Completes(x: Exchange) {
    match x
    case Opening(xk) => xk.kidA != 0 && xk.kidB != 0 && Selectable(xk) && AliceEnd(xk).Some?
    case Rekey(kk) => kk.kidA != 0 && kk.kidB != 0 && kk.alice.key == kk.bob.key && kk.Read().Some?
  }

  function Psk(x: Exchange): Term { if x.Opening? then x.xk.bob.key else x.kk.bob.key }

  /** The ratchet key that an exchange leaves. */
  function RatchetKey(x: Exchange): Term
    requires Completes(x)
  {
    if x.Opening? then AliceEnd(x.xk).value.ratchet.key else NextRatchet(x.kk.Second().0, x.kk.bob.chainLen).key
  }

  /** The intruder holds one secret of each pair of the exchange, and of its KEM. */
  predicate Broken(x: Exchange, h: Held) { if x.Opening? then XkBroken(x.xk, h) else KkBroken(x.kk, h) }

  lemma RatchetKeySafe(x: Exchange, h: Held)
    requires Completes(x)
    ensures Safe(RatchetKey(x), h) <==> Broken(x, h)
    ensures Broken(x, h) ==> Safe(Psk(x), h)
  {
    hide Safe, AliceEnd, Keys;
    if x.Opening? { XkRatchet(x.xk, h); } else { KkKeys(x.kk, h); }
  }

  lemma XkRatchet(x: Xk, h: Held)
    requires x.kidA != 0 && x.kidB != 0 && Selectable(x) && AliceEnd(x).Some?
    ensures Safe(AliceEnd(x).value.ratchet.key, h) <==> XkBroken(x, h)
  {
    hide Safe, AliceEnd;
    XkStates(x, h);
    assert AliceEnd(x).value.ratchet.key in Keys(AliceEnd(x).value);
  }

  /** Each exchange mixes the ratchet key of the one before. */
  predicate Chained(xs: seq<Exchange>) {
    && (forall i :: 0 <= i < |xs| ==> Completes(xs[i]))
    && forall i :: 0 < i < |xs| ==> Psk(xs[i]) == RatchetKey(xs[i - 1])
  }

  /** To compute the ratchet key of an exchange, an intruder who knows every message ever sent must have
      broken it and every exchange before it in the chain, each by secrets of its own. */
  lemma RatchetSecrecy(xs: seq<Exchange>, n: nat, i: nat, h: Held, known: set<Term>)
    requires Chained(xs) && i <= n < |xs| && AllSafe(known, h) && Derivable(h, known, RatchetKey(xs[n]))
    ensures Broken(xs[i], h)
  {
    hide Safe, AllSafe, Derivable, RatchetKey, Psk, Broken, Completes;
    if !Safe(RatchetKey(xs[n]), h) { NotDerivable(h, known, RatchetKey(xs[n])); }
    AllBroken(xs, n, i, h);
  }

  lemma {:induction false} AllBroken(xs: seq<Exchange>, n: nat, i: nat, h: Held)
    requires Chained(xs) && i <= n < |xs| && Safe(RatchetKey(xs[n]), h)
    ensures Broken(xs[i], h)
  {
    hide Safe, RatchetKey, Psk, Broken, Completes;
    RatchetKeySafe(xs[n], h);
    if i < n { AllBroken(xs, n - 1, i, h); }
  }
}
