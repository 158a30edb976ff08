/** The Noise symmetric state over ideal cryptography. Byte strings are terms: two of them are equal
    exactly when they were computed in the same way from the same inputs. */
module Noise {
  import opened Wrappers

  datatype Purpose = Chain | ForRatchet | ForHeader | ForKex

  datatype Protocol = XK | KK

  /** The packet type and the counter that an AEAD nonce is made of. */
  datatype Nonce = Nonce(packetType: nat, counter: nat)

  datatype Term =
    | Zero                                                            // the all-zero key
    | Name(protocol: Protocol)
    | Bytes(value: nat)
    | Pair(left: Term, right: Term)
    | Pub(secret: nat)
    | Dh(low: nat, high: nat)
    | KemPub(kem: nat)
    | KemCiphertext(kem: nat, coins: nat)
    | KemSecret(kem: nat, coins: nat)
    | Hash(prior: Term, data: Term)
    | Kdf(ikm: Term, purpose: Purpose, context: Term, bits: nat, no: nat) // one block of HMAC output
    | Half(block: Term)                                               // the first 32 bytes of a block
    | Sealed(key: Term, nonce: Nonce, ad: Term, plain: Term)          // ciphertext and tag

  const HASHLEN: nat := 64

  /** `kbkdf`: output `no` of `outputs` under a chaining key. */
  function Kbkdf(ck: Term, ikm: Term, purpose: Purpose, outputs: nat, no: nat): Term {
    Kdf(ikm, purpose, ck, outputs * 8 * HASHLEN, no)
  }

  function Open(key: Term, nonce: Nonce, ad: Term, c: Term): Option<Term> {
    if c.Sealed? && c.key == key && c.nonce == nonce && c.ad == ad then Some(c.plain) else None
  }

  /** The state as the plain implementation keeps it. Mixing a key initialises the cipher key
      unless `init` is false, which is what the optimised implementation adds. */
  datatype Sym = Sym(k: Term, ck: Term, h: Term) {
    function MixHash(data: Term): Sym { this.(h := Hash(h, data)) }

    function Mix(ikm: Term, init: bool): Sym {
      Sym(if init then Half(Kbkdf(ck, ikm, Chain, 2, 2)) else k, Kbkdf(ck, ikm, Chain, 2, 1), h)
    }

    function MixAndHash(ikm: Term, init: bool): Sym {
      Sym(if init then Half(Kbkdf(ck, ikm, Chain, 3, 3)) else k, Kbkdf(ck, ikm, Chain, 3, 1),
          Hash(h, Kbkdf(ck, ikm, Chain, 3, 2)))
    }

    function Encrypt(nonce: Nonce, plain: Term): (Sym, Term) {
      var c := Sealed(k, nonce, h, plain);
      (MixHash(c), c)
    }

    function Decrypt(nonce: Nonce, c: Term): (Sym, Option<Term>) { (MixHash(c), Open(k, nonce, h, c)) }

    function GetAsk(purpose: Purpose): (Term, Term) {
      (Half(Kbkdf(ck, h, purpose, 2, 1)), Half(Kbkdf(ck, h, purpose, 2, 2)))
    }

    function Split(): (Term, Term) { (Half(Kbkdf(ck, Zero, Chain, 2, 1)), Half(Kbkdf(ck, Zero, Chain, 2, 2))) }
  }

  function Initialize(p: Protocol): Sym { Sym(Zero, Name(p), Name(p)) }

  /** The keys that can be read out of a state: both outputs for each purpose. */
  function Outputs(s: Sym): seq<Term> {
    var ((t1, t2), (r1, r2), (h1, h2), (k1, k2)) :=
      (s.Split(), s.GetAsk(ForRatchet), s.GetAsk(ForHeader), s.GetAsk(ForKex));
    [t1, t2, r1, r2, h1, h2, k1, k2]
  }

  /** They all differ, and none comes out of two states with different chaining keys. */
  lemma OutputsDiffer(s: Sym, t: Sym, i: nat, j: nat)
    requires i < 8 && j < 8
    ensures Outputs(s)[i] == Outputs(t)[j] ==> i == j && s.ck == t.ck
  {
  }

  /** A ciphertext opens exactly in a state with the same cipher key, the same transcript before it and
      the same nonce, and then both states have the same transcript after it. */
  lemma OpensExactly(s: Sym, t: Sym, nonce: Nonce, nonce': Nonce, plain: Term)
    ensures
      var (s', c) := s.Encrypt(nonce, plain);
      var (t', p) := t.Decrypt(nonce', c);
      && (p.Some? <==> s.k == t.k && s.h == t.h && nonce == nonce')
      && (p.Some? ==> p.value == plain && t'.h == s'.h)
  {
  }

  /** The transcript hash takes in everything: two equal ones were computed in the same way. */
  lemma TranscriptBinds(s: Sym, t: Sym, a: Term, b: Term, nonce: Nonce, init: bool)
    ensures s.MixHash(a).h == t.MixHash(b).h <==> s.h == t.h && a == b
    ensures s.MixAndHash(a, init).h == t.MixAndHash(b, init).h <==> s.h == t.h && s.ck == t.ck && a == b
    ensures s.Encrypt(nonce, a).0.h == t.Encrypt(nonce, b).0.h <==> s.h == t.h && s.k == t.k && a == b
    ensures s.Mix(a, init).ck == t.Mix(b, init).ck <==> s.ck == t.ck && a == b
  {
  }

  // ---------- the optimised implementation ----------

  class SymmetricState {
    var k: Term
    var ck: Term
    var h: Term

    ghost function Value(): Sym
      reads this
    {
      Sym(k, ck, h)
    }

    constructor (p: Protocol)
      ensures Value() == Initialize(p)
    {
      k, ck, h := Zero, Name(p), Name(p);
    }

    constructor Clone(of: SymmetricState)
      ensures Value() == of.Value()
    {
      k, ck, h := of.k, of.ck, of.h;
    }

    method MixHash(data: Term)
      modifies this
      ensures Value() == old(Value()).MixHash(data)
    {
      h := Hash(h, data);
    }

    method MixKey(ikm: Term)
      modifies this
      ensures Value() == old(Value()).Mix(ikm, true)
    {
      var nextCk, tempK := Kbkdf(ck, ikm, Chain, 2, 1), Kbkdf(ck, ikm, Chain, 2, 2);
      ck := nextCk;
      k := Half(tempK);
    }

    method MixKeyNoInit(ikm: Term)
      modifies this
      ensures Value() == old(Value()).Mix(ikm, false)
    {
      ck := Kbkdf(ck, ikm, Chain, 2, 1);
    }

    method MixKeyAndHash(ikm: Term)
      modifies this
      ensures Value() == old(Value()).MixAndHash(ikm, true)
    {
      var nextCk, tempH, tempK := Kbkdf(ck, ikm, Chain, 3, 1), Kbkdf(ck, ikm, Chain, 3, 2), Kbkdf(ck, ikm, Chain, 3, 3);
      ck := nextCk;
      MixHash(tempH);
      k := Half(tempK);
    }

    method MixKeyAndHashNoInit(ikm: Term)
      modifies this
      ensures Value() == old(Value()).MixAndHash(ikm, false)
    {
      var nextCk, tempH := Kbkdf(ck, ikm, Chain, 3, 1), Kbkdf(ck, ikm, Chain, 3, 2);
      ck := nextCk;
      MixHash(tempH);
    }

    method EncryptAndHash(nonce: Nonce, plain: Term) returns (c: Term)
      modifies this
      ensures (Value(), c) == old(Value()).Encrypt(nonce, plain)
    {
      c := Sealed(k, nonce, h, plain);
      h := Hash(h, c);
    }

    /** The hash takes in the ciphertext before it is decrypted, and whether or not it opens. */
    method DecryptAndHash(nonce: Nonce, c: Term) returns (plain: Option<Term>)
      modifies this
      ensures (Value(), plain) == old(Value()).Decrypt(nonce, c)
    {
      var hash := Hash(h, c);
      plain := Open(k, nonce, h, c);
      h := hash;
    }

    method GetAsk(purpose: Purpose) returns (key1: Term, key2: Term)
      ensures (key1, key2) == Value().GetAsk(purpose)
    {
      key1, key2 := Half(Kbkdf(ck, h, purpose, 2, 1)), Half(Kbkdf(ck, h, purpose, 2, 2));
    }

    method Split() returns (key1: Term, key2: Term)
      ensures (key1, key2) == Value().Split()
    {
      key1, key2 := Half(Kbkdf(ck, Zero, Chain, 2, 1)), Half(Kbkdf(ck, Zero, Chain, 2, 2));
    }
  }

  // ---------- when leaving the cipher key alone goes unnoticed ----------

  datatype Op =
    | MixHashOp(data: Term)
    | MixOp(ikm: Term, init: bool)
    | MixAndHashOp(ikm: Term, init: bool)
    | EncryptOp(nonce: Nonce, plain: Term)
    | DecryptOp(nonce: Nonce, c: Term)
    | AskOp(purpose: Purpose)
    | SplitOp

  /** What a caller sees of an operation. */
  datatype Out = Nothing | Ciphertext(c: Term) | Opened(plain: Option<Term>) | Keys(key1: Term, key2: Term)

  /** One operation; `plain` says that every mix initialises the cipher key. */
  function Do(s: Sym, op: Op, plain: bool): (Sym, Out) {
    match op
    case MixHashOp(data) => (s.MixHash(data), Nothing)
    case MixOp(ikm, init) => (s.Mix(ikm, init || plain), Nothing)
    case MixAndHashOp(ikm, init) => (s.MixAndHash(ikm, init || plain), Nothing)
    case EncryptOp(nonce, pt) => var (s', c) := s.Encrypt(nonce, pt); (s', Ciphertext(c))
    case DecryptOp(nonce, c) => var (s', pt) := s.Decrypt(nonce, c); (s', Opened(pt))
    case AskOp(purpose) => var (a, b) := s.GetAsk(purpose); (s, Keys(a, b))
    case SplitOp => var (a, b) := s.Split(); (s, Keys(a, b))
  }

  function Outs(s: Sym, ops: seq<Op>, plain: bool): seq<Out>
    decreases |ops|
  {
    if ops == [] then [] else
      var (s', out) := Do(s, ops[0], plain);
      [out] + Outs(s', ops[1..], plain)
  }

  function Final(s: Sym, ops: seq<Op>, plain: bool): Sym
    decreases |ops|
  {
    if ops == [] then s else Final(Do(s, ops[0], plain).0, ops[1..], plain)
  }

  /** Whether the cipher key is out of date after an operation. */
  predicate StaleAfter(stale: bool, op: Op) {
    match op
    case MixOp(_, init) => !init
    case MixAndHashOp(_, init) => !init
    case _ => stale
  }

  /** No encryption or decryption falls between a mix without initialisation and the next mix with. */
  predicate Safe(ops: seq<Op>, stale: bool) {
    ops == [] || (!((ops[0].EncryptOp? || ops[0].DecryptOp?) && stale) && Safe(ops[1..], StaleAfter(stale, ops[0])))
  }

  predicate StaleAtEnd(ops: seq<Op>, stale: bool) {
    if ops == [] then stale else StaleAtEnd(ops[1..], StaleAfter(stale, ops[0]))
  }

  /** The two states agree, up to a cipher key that is out of date. */
  predicate Agree(fast: Sym, plain: Sym, stale: bool) {
    fast.ck == plain.ck && fast.h == plain.h && (!stale ==> fast.k == plain.k)
  }

  /** A safe sequence gives the same ciphertexts, plaintexts and derived keys either way, and the
      same state unless a mix without initialisation is the last one. */
  lemma {:induction false} SafeMeansSame(fast: Sym, plain: Sym, ops: seq<Op>, stale: bool)
    requires Agree(fast, plain, stale) && Safe(ops, stale)
    decreases |ops|
    ensures Outs(fast, ops, false) == Outs(plain, ops, true)
    ensures Agree(Final(fast, ops, false), Final(plain, ops, true), StaleAtEnd(ops, stale))
  {
    if ops != [] {
      SafeMeansSame(Do(fast, ops[0], false).0, Do(plain, ops[0], true).0, ops[1..], StaleAfter(stale, ops[0]));
    }
  }

  /** The keys under which a sequence encrypts and decrypts. */
  function KeysUsed(s: Sym, ops: seq<Op>, plain: bool): seq<Term>
    decreases |ops|
  {
    if ops == [] then [] else
      (if ops[0].EncryptOp? || ops[0].DecryptOp? then [s.k] else []) + KeysUsed(Do(s, ops[0], plain).0, ops[1..], plain)
  }

  function Links(ck: Term): nat {
    if ck.Kdf? then 1 + Links(ck.context) else 0
  }

  function KeyLinks(k: Term): nat {
    if k.Half? && k.block.Kdf? then 1 + Links(k.block.context) else 0
  }

  /** The plain state's cipher key is as old as its chaining key; the optimised state's is at most
      as old, and older exactly when it is out of date. */
  predicate Aged(fast: Sym, plain: Sym, stale: bool) {
    && fast.ck == plain.ck && fast.h == plain.h
    && KeyLinks(plain.k) == Links(plain.ck)
    && if stale then KeyLinks(fast.k) < Links(plain.ck) else fast.k == plain.k
  }

  /** The condition is exact: a sequence that is not safe uses a wrong key, so the implementations
      use the same keys exactly for the safe sequences. */
  lemma {:induction false} SameKeysMeansSafe(fast: Sym, plain: Sym, ops: seq<Op>, stale: bool)
    requires Aged(fast, plain, stale)
    decreases |ops|
    ensures KeysUsed(fast, ops, false) == KeysUsed(plain, ops, true) <==> Safe(ops, stale)
  {
    if ops != [] {
      var f, p := Do(fast, ops[0], false).0, Do(plain, ops[0], true).0;
      var rest := ops[1..];
      if ops[0].EncryptOp? || ops[0].DecryptOp? {
        if stale {
          assert KeysUsed(fast, ops, false)[0] != KeysUsed(plain, ops, true)[0];
        } else {
          SameKeysMeansSafe(f, p, rest, StaleAfter(stale, ops[0]));
          assert KeysUsed(fast, ops, false)[1..] == KeysUsed(f, rest, false);
          assert KeysUsed(plain, ops, true)[1..] == KeysUsed(p, rest, true);
        }
      } else {
        SameKeysMeansSafe(f, p, rest, StaleAfter(stale, ops[0]));
        assert KeysUsed(fast, ops, false) == KeysUsed(f, rest, false);
        assert KeysUsed(plain, ops, true) == KeysUsed(p, rest, true);
      }
    }
  }

  /** From a fresh state, leaving the cipher key alone goes unnoticed exactly for the safe sequences. */
  lemma NoInitIsExact(p: Protocol, ops: seq<Op>)
    ensures Safe(ops, false) ==> Outs(Initialize(p), ops, false) == Outs(Initialize(p), ops, true)
    ensures Safe(ops, false) <==> KeysUsed(Initialize(p), ops, false) == KeysUsed(Initialize(p), ops, true)
  {
    SameKeysMeansSafe(Initialize(p), Initialize(p), ops, false);
    if Safe(ops, false) {
      SafeMeansSame(Initialize(p), Initialize(p), ops, false);
    }
  }
}
