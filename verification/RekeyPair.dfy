/** Two sessions that came out of one Noise XK exchange, and a network that loses, duplicates and
    reorders. Storage may answer every request any way it likes, clocks are arbitrary, either side
    may stop at any time, and packets of other sessions may appear. */
module RekeyPair {
  import opened Wrappers
  import opened Ratchet
  import opened Zeta

  // ---------- what the two sessions keep ----------

  /** The part of a session the argument is about: its automaton, its confirmed and its other key
      slot, its ratchet states and its routes. */
  datatype Face = Face(
    wasBob: bool, beta: Automata, cur: DuplexKey, nxt: DuplexKey,
    rs1: RatchetState, rs2: Option<RatchetState>, routes: set<Kid>)

  function FaceOf(z: Zeta): Face {
    Face(z.wasBob, z.beta, Cur(z), Nxt(z), z.rs1, z.rs2, z.routes)
  }

  predicate IsKey(k: DuplexKey) {
    && k.send.kek.Some? && k.send.kid.Some? && k.recv.kid.Some?
    && var kex := k.send.kek.value.kex;
       || k == InitiatorKey(kex, k.send.kid.value, k.recv.kid)
       || k == ResponderKey(kex, k.send.kid.value, k.recv.kid.value)
  }

  function KexOf(k: DuplexKey): Kex
    requires k.send.kek.Some?
  {
    k.send.kek.value.kex
  }

  /** The session's newest ratchet state belongs to its confirmed key. */
  predicate Settled(f: Face) {
    IsKey(f.cur) && f.rs2 == None && f.rs1 == NewRatchet(KexOf(f.cur))
  }

  /** The session answered a rekey: it holds the next key and both ratchet states. */
  predicate Pending(f: Face) {
    && IsKey(f.cur) && IsKey(f.nxt)
    && f.nxt == ResponderKey(KexOf(f.nxt), f.nxt.send.kid.value, f.nxt.recv.kid.value)
    && KexOf(f.nxt).psk == NewRatchet(KexOf(f.cur))
    && f.rs2 == Some(NewRatchet(KexOf(f.cur)))
    && f.rs1 == NewRatchet(KexOf(f.nxt))
  }

  /** The other slot receives under no key of the confirmed exchange. */
  predicate Apart(f: Face)
    requires f.cur.send.kek.Some?
  {
    && (f.nxt.recv.kek.Some? ==> f.nxt.recv.kek.value.kex != KexOf(f.cur))
    && (f.nxt.recv.nk.Some? ==> f.nxt.recv.nk.value.kex != KexOf(f.cur))
  }

  predicate Routed(f: Face, k: DuplexKey) { k.recv.kid.Some? && k.recv.kid.value in f.routes }

  /** An established session. */
  predicate Local(f: Face) {
    && (Settled(f) || Pending(f)) && Apart(f)
    && f.cur.recv.kid != f.nxt.recv.kid
    && (!f.beta.Null? ==> Routed(f, f.cur))
    && match f.beta
       case Null => true
       case A1(_) => false
       case A3(_) => false
       case S1 => Settled(f)
       case S2 => Settled(f)
       case R1(x, k1) =>
         && Settled(f) && (Routed(f, f.nxt) || f.wasBob)
         && k1.K1? && k1.x == x && k1.psk == f.rs1 && f.nxt.recv.kid == Some(k1.kid)
       case R2(k2) =>
         Pending(f) && Routed(f, f.nxt) && k2 == K2(KexOf(f.nxt), f.nxt.recv.kid.value)
  }

  predicate Mirror(k: DuplexKey, l: DuplexKey) { k.send == l.recv && k.recv == l.send }

  /** `p` confirmed the key that `q` still waits to hear confirmed. */
  predicate Ahead(p: Face, q: Face) {
    && Settled(p) && (p.beta.S1? || p.beta.Null?) && Pending(q)
    && Mirror(p.cur, q.nxt) && Mirror(p.nxt, q.cur) && (p.beta.S1? ==> Routed(p, p.nxt))
  }

  predicate Paired(p: Face, q: Face) {
    Local(p) && Local(q) && p.wasBob != q.wasBob && (Mirror(p.cur, q.cur) || Ahead(p, q) || Ahead(q, p))
  }

  predicate Unused(net: set<Packet>, key: Option<Key>) {
    forall m :: m in net && m.Sealed? ==> Some(m.key) != key
  }

  /** What a K1 sealed under `p`'s confirmed key says about `p`. */
  predicate K1Fact(p: Face, k1: Body)
    requires k1.K1?
  {
    && (p.beta.R1? || p.beta.Null? || p.beta.R2?)
    && (Pending(p) ==> p.wasBob)
    && (p.beta.R1? ==> p.beta.x == k1.x && p.nxt.recv.kid == Some(k1.kid))
  }

  /** What a K2 sealed under `p`'s confirmed key says about `p`. */
  predicate K2Fact(p: Face, k2: Body)
    requires k2.K2?
  {
    Pending(p) && k2.kex == KexOf(p.nxt) && Some(k2.kid) == p.nxt.recv.kid
  }

  predicate BodyFact(p: Face, body: Body) {
    (body.K1? ==> K1Fact(p, body)) && (body.K2? ==> K2Fact(p, body))
  }

  predicate SentFacts(p: Face, net: set<Packet>) {
    forall m :: m in net && m.Sealed? && Some(m.key) == p.cur.send.kek ==> BodyFact(p, m.body)
  }

  predicate Numbered(p: Face, nonce: nat) {
    && IsKey(p.cur) && KexOf(p.cur).y < nonce
    && (Pending(p) ==> KexOf(p.nxt).x < nonce && KexOf(p.nxt).y < nonce)
    && (p.beta.R1? ==> p.beta.x < nonce)
  }

  /** A side that answered a rekey has sealed nothing under the new key; while the peer has not
      moved on, neither has the peer, and the peer is the initiator of that rekey or gone. */
  predicate Answered(q: Face, p: Face, net: set<Packet>) {
    Pending(q) ==>
      && Unused(net, q.nxt.send.kek)
      && (Mirror(p.cur, q.cur) ==>
            && Unused(net, q.nxt.recv.kek) && Settled(p) && (p.beta.R1? || p.beta.Null?)
            && (p.beta.R1? ==>
                  p.beta.x == KexOf(q.nxt).x && q.nxt.send.kid == p.nxt.recv.kid && Routed(p, p.nxt)))
  }

  /** A rekeying side keeps the route of its next slot, unless storage failed while it answered
      the peer's own K1. */
  predicate Rerouted(p: Face, net: set<Packet>) {
    p.beta.R1? && !Routed(p, p.nxt) ==>
      p.wasBob && exists m :: m in net && m.Sealed? && Some(m.key) == p.cur.recv.kek && m.body.K1?
  }

  predicate NumberedBelow(m: Packet, nonce: nat)
    requires m.Sealed?
  {
    && m.key.kex.y < nonce && (m.body.K1? ==> m.body.x < nonce)
    && (m.body.K2? ==> m.body.kex.x < nonce && m.body.kex.y < nonce)
  }

  predicate FreshBelow(net: set<Packet>, nonce: nat) {
    forall m :: m in net && m.Sealed? ==> NumberedBelow(m, nonce)
  }

  /** The invariant of an established pair; `nonce` is above every ephemeral key drawn so far. */
  predicate PairInv(p: Face, q: Face, net: set<Packet>, nonce: nat) {
    && FreshBelow(net, nonce) && Paired(p, q)
    && Numbered(p, nonce) && Numbered(q, nonce)
    && SentFacts(p, net) && SentFacts(q, net)
    && Answered(p, q, net) && Answered(q, p, net)
    && Rerouted(p, net) && Rerouted(q, net)
  }

  // ---------- one side moves ----------

  lemma KeepStop(p: Face, q: Face, net: set<Packet>, nonce: nat, routes: set<Kid>)
    requires PairInv(p, q, net, nonce)
    ensures PairInv(p.(beta := Null, routes := routes), q, net, nonce)
  {
  }

  /** Sealing a packet whose body is true of the sender. */
  lemma KeepSend(p: Face, q: Face, net: set<Packet>, nonce: nat, m: Packet)
    requires PairInv(p, q, net, nonce) && m.Sealed?
    requires Some(m.key) == p.cur.send.kek || Some(m.key) == p.cur.send.nk
    requires BodyFact(p, m.body) && (m.body.K1? ==> m.body.x < nonce)
    requires Some(m.key) == p.cur.send.nk ==> m.body.Data?
    ensures PairInv(p, q, net + {m}, nonce)
  {
  }

  lemma KeepAcked(p: Face, q: Face, net: set<Packet>, nonce: nat, m: Packet)
    requires PairInv(p, q, net, nonce) && m in net && m.Sealed? && p.beta.S1? && p.cur.recv.kek == Some(m.key)
    ensures PairInv(p.(beta := S2), q, net, nonce)
  {
  }

  lemma KeepConfirmed(p: Face, q: Face, net: set<Packet>, nonce: nat, m: Packet)
    requires PairInv(p, q, net, nonce) && m in net && m.Sealed? && p.beta.R2? && p.nxt.recv.kek == Some(m.key)
    ensures PairInv(p.(beta := S2, cur := p.nxt, nxt := p.cur, rs2 := None), q, net, nonce)
  {
    assert Ahead(q, p);
  }

  lemma KeepStarted(p: Face, q: Face, net: set<Packet>, nonce: nat, kid: Kid, routes: set<Kid>)
    requires PairInv(p, q, net, nonce) && p.beta.S2?
    requires Some(kid) != p.cur.recv.kid && kid in routes && p.cur.recv.kid.value in routes
    ensures
      var k1 := K1(nonce, p.rs1, kid);
      var p1 := p.(beta := R1(nonce, k1), nxt := p.nxt.(recv := p.nxt.recv.(kid := Some(kid))), routes := routes);
      PairInv(p1, q, net, nonce + 1) && BodyFact(p1, k1)
  {
  }

  lemma KeepAnswered(p: Face, q: Face, net: set<Packet>, nonce: nat, m: Packet, kid: Kid, routes: set<Kid>)
    requires PairInv(p, q, net, nonce) && m in net && m.Sealed? && m.body.K1? && p.cur.recv.kek == Some(m.key)
    requires p.beta.S2? || (p.beta.R1? && p.wasBob)
    requires Some(kid) != p.cur.recv.kid && kid in routes && p.cur.recv.kid.value in routes
    ensures
      var kex := Kex(m.body.x, nonce, p.rs1);
      var k2 := K2(kex, kid);
      var p1 := p.(beta := R2(k2), nxt := ResponderKey(kex, m.body.kid, kid),
                   rs1 := NewRatchet(kex), rs2 := Some(p.rs1), routes := routes);
      PairInv(p1, q, net, nonce + 1) && BodyFact(p1, k2)
  {
    assert Mirror(p.cur, q.cur);
  }

  lemma KeepAdvanced(p: Face, q: Face, net: set<Packet>, nonce: nat, m: Packet)
    requires PairInv(p, q, net, nonce) && m in net && m.Sealed? && m.body.K2? && p.cur.recv.kek == Some(m.key)
    requires p.beta.R1? && m.body.kex.x == p.beta.x
    ensures
      PairInv(p.(beta := S1, cur := InitiatorKey(m.body.kex, m.body.kid, p.nxt.recv.kid), nxt := p.cur,
                 rs1 := NewRatchet(m.body.kex)), q, net, nonce)
  {
    assert Mirror(p.cur, q.cur);
  }

  lemma KeepNonce(p: Face, q: Face, net: set<Packet>, nonce: nat)
    requires PairInv(p, q, net, nonce)
    ensures PairInv(p, q, net, nonce + 1)
  {
  }

  // ---------- the transition functions, one side acting ----------

  function Sent(net: set<Packet>, p: Option<Packet>): set<Packet> {
    if p.Some? then net + {p.value} else net
  }

  /** The invariant after the side whose peer is `q` made a transition. */
  predicate Kept(o: Outcome, q: Face, net: set<Packet>, nonce: nat) {
    PairInv(FaceOf(o.zeta), q, Sent(net, o.sent), nonce + 1)
  }

  /** The invariant as the lemmas below use it, without its definition. */
  lemma KeepBasics(p: Zeta, q: Face, net: set<Packet>, nonce: nat)
    requires PairInv(FaceOf(p), q, net, nonce)
    ensures !p.beta.A1? && !p.beta.A3? && PairInv(FaceOf(p), q, net, nonce + 1)
    ensures p.beta.R1? ==>
      p.beta.k1.K1? && p.beta.x < nonce && BodyFact(FaceOf(p), p.beta.k1) && p.beta.k1.x == p.beta.x
    ensures p.beta.R2? ==> p.beta.k2.K2? && BodyFact(FaceOf(p), p.beta.k2)
    ensures !p.beta.Null? ==> Cur(p).recv.kid.Some? && Routed(FaceOf(p), Cur(p)) && Cur(p).recv.kid != Nxt(p).recv.kid
  {
    KeepNonce(FaceOf(p), q, net, nonce);
  }

  lemma KeepControl(p: Zeta, q: Face, net: set<Packet>, nonce: nat, body: Body)
    requires PairInv(FaceOf(p), q, net, nonce)
    requires BodyFact(FaceOf(p), body) && (body.K1? ==> body.x < nonce)
    ensures
      var (z, m) := SendControl(p, body);
      PairInv(FaceOf(z), q, Sent(net, m), nonce)
  {
    var (z, m) := SendControl(p, body);
    assert FaceOf(z) == FaceOf(p);
    if m.Some? {
      KeepSend(FaceOf(p), q, net, nonce, m.value);
    }
  }

  lemma KeepStopped(p: Zeta, q: Face, net: set<Packet>, nonce: nat)
    requires PairInv(FaceOf(p), q, net, nonce)
    ensures PairInv(FaceOf(Expire(p)), q, net, nonce)
  {
    KeepStop(FaceOf(p), q, net, nonce, Expire(p).routes);
  }

  lemma KeepExpire(p: Zeta, q: Face, net: set<Packet>, nonce: nat)
    requires PairInv(FaceOf(p), q, net, nonce)
    ensures PairInv(FaceOf(Expire(p)), q, net, nonce + 1)
  {
    KeepStopped(p, q, net, nonce);
    KeepNonce(FaceOf(Expire(p)), q, net, nonce);
  }

  lemma KeepConfirm(p: Zeta, q: Face, net: set<Packet>, nonce: nat, env: Env, m: Packet)
    requires PairInv(FaceOf(p), q, net, nonce) && m in net && m.Sealed? && p.beta.R2? && Nxt(p).recv.kek == Some(m.key)
    ensures
      var (z, c2) := SendControl(Confirmed(p, env), C2);
      PairInv(FaceOf(z), q, Sent(net, c2), nonce)
  {
    hide PairInv;
    KeepConfirmed(FaceOf(p), q, net, nonce, m);
    KeepControl(Confirmed(p, env), q, net, nonce, C2);
  }

  lemma KeepC1(p: Zeta, q: Face, net: set<Packet>, nonce: nat, env: Env, m: Packet, answer: SaveResult)
    requires PairInv(FaceOf(p), q, net, nonce) && m in net && m.Sealed?
    ensures Kept(ReceivedC1(p, env, m.to, m.key, m.counter, answer), q, net, nonce)
  {
    hide PairInv, BodyFact, Routed;
    KeepBasics(p, q, net, nonce);
    var w := UpdateWindow(p, m.counter);
    if w.Some? {
      var z := w.value;
      assert FaceOf(z) == FaceOf(p);
      KeepControl(z, q, net, nonce + 1, C2);
      KeepExpire(z, q, net, nonce);
      if z.beta.R2? && Nxt(z).recv.kek == Some(m.key) {
        KeepConfirm(z, q, net, nonce + 1, env, m);
      }
    }
  }

  lemma KeepC2(p: Zeta, q: Face, net: set<Packet>, nonce: nat, env: Env, m: Packet)
    requires PairInv(FaceOf(p), q, net, nonce) && m in net && m.Sealed?
    ensures Kept(ReceivedC2(p, env, m.to, m.key, m.counter), q, net, nonce)
  {
    hide PairInv;
    KeepBasics(p, q, net, nonce);
    if p.beta.S1? && Cur(p).recv.kek == Some(m.key) {
      KeepAcked(FaceOf(p), q, net, nonce + 1, m);
    }
  }

  /** Storage failed after `remap`: the next slot lost its route, nothing else changed. */
  lemma KeepRemap(p: Zeta, q: Face, net: set<Packet>, nonce: nat, kid: Kid, m: Packet)
    requires PairInv(FaceOf(p), q, net, nonce) && RekeysAsBob(p) && kid !in KeptRoutes(p)
    requires m in net && m.Sealed? && m.body.K1? && Cur(p).recv.kek == Some(m.key)
    ensures PairInv(FaceOf(Remap(p, kid)), q, net, nonce)
  {
  }

  lemma KeepAnswer(p: Zeta, q: Face, net: set<Packet>, nonce: nat, env: Env, m: Packet, kid: Kid)
    requires PairInv(FaceOf(p), q, net, nonce) && RekeysAsBob(p) && kid !in KeptRoutes(p)
    requires m in net && m.Sealed? && m.body.K1? && Cur(p).recv.kek == Some(m.key)
    ensures
      var kex := Kex(m.body.x, nonce, p.rs1);
      var (z, k2) := SendControl(Answering(Remap(p, kid), env, kex, m.body.kid, kid), K2(kex, kid));
      PairInv(FaceOf(z), q, Sent(net, k2), nonce + 1)
  {
    hide PairInv;
    KeepBasics(p, q, net, nonce);
    var kex := Kex(m.body.x, nonce, p.rs1);
    KeepAnswered(FaceOf(p), q, net, nonce, m, kid, Remap(p, kid).routes);
    KeepControl(Answering(Remap(p, kid), env, kex, m.body.kid, kid), q, net, nonce + 1, K2(kex, kid));
  }

  lemma KeepK1(p: Zeta, q: Face, net: set<Packet>, nonce: nat, env: Env, m: Packet, kid: Kid, answer: SaveResult)
    requires PairInv(FaceOf(p), q, net, nonce) && m in net && m.Sealed? && m.body.K1? && kid !in KeptRoutes(p)
    ensures Kept(ReceivedK1(p, env, m.to, m.key, m.counter, m.body, nonce, kid, answer), q, net, nonce)
  {
    hide PairInv, KeptRoutes, SendControl, Answering;
    KeepBasics(p, q, net, nonce);
    var w := UpdateWindow(p, m.counter);
    if w.Some? && RekeysAsBob(p) && Cur(p).recv.kek == Some(m.key) {
      var z := w.value;
      assert FaceOf(z) == FaceOf(p) && kid !in KeptRoutes(z) by { KeptAfterWindow(p, m.counter); }
      KeepExpire(z, q, net, nonce);
      KeepRemap(z, q, net, nonce, kid, m);
      KeepExpire(Remap(z, kid), q, net, nonce);
      KeepNonce(FaceOf(Remap(z, kid)), q, net, nonce);
      KeepAnswer(z, q, net, nonce, env, m, kid);
    }
  }

  lemma KeptAfterWindow(p: Zeta, c: nat)
    ensures UpdateWindow(p, c).Some? ==> KeptRoutes(UpdateWindow(p, c).value) == KeptRoutes(p)
  {
  }

  lemma KeepAdvance(p: Zeta, q: Face, net: set<Packet>, nonce: nat, env: Env, m: Packet)
    requires PairInv(FaceOf(p), q, net, nonce) && m in net && m.Sealed? && m.body.K2? && Cur(p).recv.kek == Some(m.key)
    requires p.beta.R1? && m.body.kex.x == p.beta.x
    ensures
      var (z, c1) := SendControl(Advancing(p, env, m.body.kex, m.body.kid), C1);
      PairInv(FaceOf(z), q, Sent(net, c1), nonce)
  {
    hide PairInv;
    KeepAdvanced(FaceOf(p), q, net, nonce, m);
    KeepControl(Advancing(p, env, m.body.kex, m.body.kid), q, net, nonce, C1);
  }

  lemma KeepK2(p: Zeta, q: Face, net: set<Packet>, nonce: nat, env: Env, m: Packet, answer: SaveResult)
    requires PairInv(FaceOf(p), q, net, nonce) && m in net && m.Sealed? && m.body.K2?
    ensures Kept(ReceivedK2(p, env, m.to, m.key, m.counter, m.body, answer), q, net, nonce)
  {
    hide PairInv;
    KeepBasics(p, q, net, nonce);
    var w := UpdateWindow(p, m.counter);
    if w.Some? && p.beta.R1? && Cur(p).recv.kek == Some(m.key) {
      var z := w.value;
      assert FaceOf(z) == FaceOf(p);
      KeepExpire(z, q, net, nonce);
      if m.body.kex.x == p.beta.x {
        KeepAdvance(z, q, net, nonce + 1, env, m);
      }
    }
  }

  lemma KeepReceive(p: Zeta, q: Face, net: set<Packet>, nonce: nat, env: Env, m: Packet, kid: Kid, answer: SaveResult)
    requires PairInv(FaceOf(p), q, net, nonce) && m in net && m.Sealed? && kid !in KeptRoutes(p)
    ensures Kept(Receive(p, env, m, nonce, kid, answer), q, net, nonce)
  {
    hide PairInv;
    KeepBasics(p, q, net, nonce);
    match m.body
    case C1 => KeepC1(p, q, net, nonce, env, m, answer);
    case C2 => KeepC2(p, q, net, nonce, env, m);
    case K1(_, _, _) => KeepK1(p, q, net, nonce, env, m, kid, answer);
    case K2(_, _) => KeepK2(p, q, net, nonce, env, m, answer);
    case D => assert FaceOf(ReceivedD(p, m.to, m.key, m.counter).zeta) == FaceOf(p);
    case Data => assert FaceOf(ReceivedPayload(p, m.to, m.key, m.counter).zeta) == FaceOf(p);
  }

  lemma KeepStart(p: Zeta, q: Face, net: set<Packet>, nonce: nat, env: Env, kid: Kid)
    requires PairInv(FaceOf(p), q, net, nonce) && p.beta.S2? && kid !in KeptRoutes(p)
    ensures
      var (z, k1) := SendControl(Rekeying(p, env, nonce, kid), K1(nonce, p.rs1, kid));
      PairInv(FaceOf(z), q, Sent(net, k1), nonce + 1)
  {
    hide PairInv;
    KeepBasics(p, q, net, nonce);
    KeepStarted(FaceOf(p), q, net, nonce, kid, Remap(p, kid).routes);
    KeepControl(Rekeying(p, env, nonce, kid), q, net, nonce + 1, K1(nonce, p.rs1, kid));
  }

  lemma KeepResend(p: Zeta, q: Face, net: set<Packet>, nonce: nat, env: Env)
    requires PairInv(FaceOf(p), q, net, nonce)
    ensures Kept(Resend(p, env), q, net, nonce)
  {
    hide PairInv;
    KeepBasics(p, q, net, nonce);
    var z := p.(resendTimer := env.now + env.settings.resendTime);
    assert FaceOf(z) == FaceOf(p);
    match p.beta
    case Null =>
    case S1 => KeepControl(z, q, net, nonce + 1, C1);
    case S2 =>
    case R1(_, k1) => KeepControl(z, q, net, nonce + 1, k1);
    case R2(k2) => KeepControl(z, q, net, nonce + 1, k2);
  }

  lemma KeepService(p: Zeta, q: Face, net: set<Packet>, nonce: nat, env: Env, kid: Kid)
    requires PairInv(FaceOf(p), q, net, nonce) && kid !in KeptRoutes(p)
    ensures Kept(Service(p, env, nonce, kid), q, net, nonce)
  {
    hide PairInv, FaceOf;
    KeepBasics(p, q, net, nonce);
    if p.timeoutTimer <= env.now {
      KeepExpire(p, q, net, nonce);
      if p.beta.S2? {
        KeepStart(p, q, net, nonce, env, kid);
      }
    } else if p.resendTimer <= env.now {
      KeepResend(p, q, net, nonce, env);
    }
  }

  lemma KeepPayload(p: Zeta, q: Face, net: set<Packet>, nonce: nat, env: Env)
    requires PairInv(FaceOf(p), q, net, nonce)
    ensures Kept(SendPayload(p, env), q, net, nonce)
  {
    hide PairInv;
    KeepBasics(p, q, net, nonce);
    KeepExpire(p, q, net, nonce);
    var o := SendPayload(p, env);
    if o.sent.Some? {
      assert FaceOf(o.zeta) == FaceOf(p);
      KeepSend(FaceOf(p), q, net, nonce + 1, o.sent.value);
    }
  }

  // ---------- before the first key confirmation ----------

  /** The initiator of the session: the handshake is done, the confirmation has not arrived. */
  predicate Awaiting(a: Face) {
    && !a.wasBob && a.cur == NoDuplexKey && IsKey(a.nxt) && a.rs1 == NewRatchet(KexOf(a.nxt))
    && (a.beta.A3? || a.beta.Null?) && (a.beta.A3? ==> Routed(a, a.nxt) && a.beta.x3.X3?)
  }

  predicate XkInv(a: Face, b: Face, net: set<Packet>, nonce: nat) {
    && FreshBelow(net, nonce) && Awaiting(a)
    && b.wasBob && Local(b) && Settled(b) && (b.beta.S1? || b.beta.Null?)
    && Mirror(a.nxt, b.cur) && Unused(net, a.nxt.send.kek)
    && Numbered(b, nonce) && SentFacts(b, net)
  }

  /** The initiator gave the exchange up before it was confirmed. */
  predicate Ended(a: Face) {
    && !a.wasBob && a.cur == NoDuplexKey && a.nxt.recv == NoKeys.(kid := a.nxt.recv.kid) && a.nxt.send.kek == None
    && (a.beta.A1? || a.beta.Null?)
  }

  predicate FaceInv(a: Face, b: Face, net: set<Packet>, nonce: nat) {
    Ended(a) || XkInv(a, b, net, nonce) || (PairInv(a, b, net, nonce) && !a.wasBob)
  }

  lemma XkConfirmed(a: Face, b: Face, net: set<Packet>, nonce: nat)
    requires XkInv(a, b, net, nonce) && a.beta.A3?
    ensures PairInv(a.(beta := S2, cur := a.nxt, nxt := a.cur, rs2 := None), b, net, nonce)
  {
  }

  lemma XkKept(a: Face, a1: Face, b: Face, net: set<Packet>, nonce: nat)
    requires XkInv(a, b, net, nonce)
    requires a1 == a || exists routes :: a1 == a.(beta := Null, routes := routes)
    ensures XkInv(a1, b, net, nonce + 1)
  {
  }

  lemma XkC1(a: Zeta, b: Face, net: set<Packet>, nonce: nat, env: Env, m: Packet, answer: SaveResult)
    requires XkInv(FaceOf(a), b, net, nonce) && m in net && m.Sealed?
    requires a.beta.A3? && Cur(a) == NoDuplexKey && !a.wasBob
    ensures
      var o := ReceivedC1(a, env, m.to, m.key, m.counter, answer);
      FaceInv(FaceOf(o.zeta), b, Sent(net, o.sent), nonce + 1)
  {
    hide XkInv, PairInv;
    var o := ReceivedC1(a, env, m.to, m.key, m.counter, answer);
    var w := UpdateWindow(a, m.counter);
    if w.Some? && Nxt(a).recv.kid == Some(m.to) && Nxt(a).recv.kek == Some(m.key) && (a.rs2.None? || answer == Saved) {
      XkKept(FaceOf(a), FaceOf(a), b, net, nonce);
      XkConfirmed(FaceOf(a), b, net, nonce + 1);
      KeepControl(Confirmed(w.value, env), b, net, nonce + 1, C2);
      assert o == Acknowledge(Confirmed(w.value, env), o.save);
    } else {
      assert o.sent == None;
      XkKept(FaceOf(a), FaceOf(o.zeta), b, net, nonce);
    }
  }

  lemma XkReceiveA(a: Zeta, b: Face, net: set<Packet>, nonce: nat, env: Env, m: Packet, kid: Kid, answer: SaveResult)
    requires XkInv(FaceOf(a), b, net, nonce) && m in net && m.Sealed?
    ensures
      var o := Receive(a, env, m, nonce, kid, answer);
      FaceInv(FaceOf(o.zeta), b, Sent(net, o.sent), nonce + 1)
  {
    assert (a.beta.A3? || a.beta.Null?) && Cur(a) == NoDuplexKey && !a.wasBob;
    var o := Receive(a, env, m, nonce, kid, answer);
    if m.body.C1? && a.beta.A3? && m.to in a.routes {
      XkC1(a, b, net, nonce, env, m, answer);
    } else {
      XkKept(FaceOf(a), FaceOf(o.zeta), b, net, nonce);
    }
  }

  lemma XkServiceA(a: Zeta, b: Face, net: set<Packet>, nonce: nat, env: Env, kid: Kid)
    requires XkInv(FaceOf(a), b, net, nonce)
    ensures
      var o := Service(a, env, nonce, kid);
      FaceInv(FaceOf(o.zeta), b, Sent(net, o.sent), nonce + 1)
  {
    var o := Service(a, env, nonce, kid);
    if a.timeoutTimer <= env.now && a.beta.A3? {
      assert Ended(FaceOf(o.zeta));
    } else {
      assert FaceOf(o.zeta) == FaceOf(a);
      assert XkInv(FaceOf(a), b, Sent(net, o.sent), nonce + 1);
    }
  }

  lemma XkSendB(a: Face, b: Face, net: set<Packet>, nonce: nat, m: Packet)
    requires XkInv(a, b, net, nonce) && m.Sealed?
    requires Some(m.key) == b.cur.send.kek || Some(m.key) == b.cur.send.nk
    requires m.body.C1? || m.body.C2? || m.body.Data?
    ensures XkInv(a, b, net + {m}, nonce)
  {
  }

  lemma XkMoveB(a: Face, b: Zeta, o: Outcome, net: set<Packet>, nonce: nat)
    requires XkInv(a, FaceOf(b), net, nonce)
    requires FaceOf(o.zeta) == FaceOf(b)
      || exists routes :: FaceOf(o.zeta) == FaceOf(b).(beta := Null, routes := routes)
    requires o.sent.Some? ==>
      && o.sent.value.Sealed? && (o.sent.value.body.C1? || o.sent.value.body.C2? || o.sent.value.body.Data?)
      && (Some(o.sent.value.key) == Cur(b).send.kek || Some(o.sent.value.key) == Cur(b).send.nk)
    ensures XkInv(a, FaceOf(o.zeta), Sent(net, o.sent), nonce + 1)
  {
    assert XkInv(a, FaceOf(o.zeta), net, nonce + 1);
    if o.sent.Some? {
      hide XkInv;
      XkSendB(a, FaceOf(o.zeta), net, nonce + 1, o.sent.value);
    }
  }

  /** What a session that no packet of its peer reaches does in S1: at most acknowledge. */
  predicate Stays(b: Zeta, o: Outcome) {
    && o.save == None && FaceOf(o.zeta) == FaceOf(b)
    && (o.sent.Some? ==>
          o.sent.value.Sealed? && o.sent.value.body.C2? && Some(o.sent.value.key) == Cur(b).send.kek)
  }

  lemma S1HearsC1(b: Zeta, env: Env, m: Packet, answer: SaveResult)
    requires m.Sealed? && (b.beta.S1? || b.beta.Null?)
    ensures Stays(b, ReceivedC1(b, env, m.to, m.key, m.counter, answer))
  {
    hide WindowAccepts;
  }

  lemma S1Hears(b: Zeta, env: Env, m: Packet, y: nat, kid: Kid, answer: SaveResult)
    requires m.Sealed? && (b.beta.S1? || b.beta.Null?) && Some(m.key) != Cur(b).recv.kek
    ensures Stays(b, Receive(b, env, m, y, kid, answer))
  {
    hide ReceivedC1, WindowAccepts;
    S1HearsC1(b, env, m, answer);
  }

  lemma XkReceiveB(a: Face, b: Zeta, net: set<Packet>, nonce: nat, env: Env, m: Packet, kid: Kid, answer: SaveResult)
    requires XkInv(a, FaceOf(b), net, nonce) && m in net && m.Sealed?
    ensures
      var o := Receive(b, env, m, nonce, kid, answer);
      XkInv(a, FaceOf(o.zeta), Sent(net, o.sent), nonce + 1)
  {
    assert b.beta.S1? || b.beta.Null?;
    assert Some(m.key) != Cur(b).recv.kek;
    S1Hears(b, env, m, nonce, kid, answer);
    XkMoveB(a, b, Receive(b, env, m, nonce, kid, answer), net, nonce);
  }

  lemma XkServiceB(a: Face, b: Zeta, net: set<Packet>, nonce: nat, env: Env, kid: Kid)
    requires XkInv(a, FaceOf(b), net, nonce)
    ensures
      var o := Service(b, env, nonce, kid);
      XkInv(a, FaceOf(o.zeta), Sent(net, o.sent), nonce + 1)
  {
    assert b.beta.S1? || b.beta.Null?;
    hide XkInv;
    XkMoveB(a, b, Service(b, env, nonce, kid), net, nonce);
  }

  // ---------- the pair as a transition system ----------

  /** `net` holds every packet ever sent; delivering never removes one. `nonce` counts the
      ephemeral keys drawn. */
  datatype Pair = Pair(a: Zeta, b: Zeta, net: set<Packet>, nonce: nat)

  datatype Event =
    | Deliver(atA: bool, packet: Packet, env: Env, kid: Kid, answer: SaveResult)
    | Tick(atA: bool, env: Env, kid: Kid)
    | Transmit(atA: bool, env: Env)
    | Stop(atA: bool)
    | Foreign(packet: Packet)

  function Side(s: Pair, atA: bool): Zeta { if atA then s.a else s.b }

  function Apply(s: Pair, atA: bool, o: Outcome): Pair {
    if atA then s.(a := o.zeta, net := Sent(s.net, o.sent), nonce := s.nonce + 1)
    else s.(b := o.zeta, net := Sent(s.net, o.sent), nonce := s.nonce + 1)
  }

  function SlotKeys(k: DuplexKey): set<Option<Key>> { {k.send.kek, k.send.nk, k.recv.kek, k.recv.nk} }

  function SessionKeys(z: Zeta): set<Option<Key>> { SlotKeys(Cur(z)) + SlotKeys(Nxt(z)) }

  /** A packet of another session: sealed under no key that either side holds. */
  predicate IsForeign(s: Pair, p: Packet) {
    p.Sealed? ==> Some(p.key) !in SessionKeys(s.a) + SessionKeys(s.b) && NumberedBelow(p, s.nonce)
  }

  /** `gen_kid` draws a key id outside the session map. */
  predicate Enabled(s: Pair, e: Event) {
    match e
    case Deliver(atA, p, _, kid, _) => p in s.net && p.Sealed? && kid !in KeptRoutes(Side(s, atA))
    case Tick(atA, _, kid) => kid !in KeptRoutes(Side(s, atA))
    case Transmit(_, _) => true
    case Stop(_) => true
    case Foreign(p) => IsForeign(s, p)
  }

  function Next(s: Pair, e: Event): Pair
    requires Enabled(s, e)
  {
    match e
    case Deliver(atA, p, env, kid, answer) =>
      Apply(s, atA, Receive(Side(s, atA), env, p, s.nonce, kid, answer))
    case Tick(atA, env, kid) => Apply(s, atA, Service(Side(s, atA), env, s.nonce, kid))
    case Transmit(atA, env) => Apply(s, atA, SendPayload(Side(s, atA), env))
    case Stop(atA) => if atA then s.(a := Expire(s.a)) else s.(b := Expire(s.b))
    case Foreign(p) => s.(net := s.net + {p})
  }

  predicate Inv(s: Pair) { FaceInv(FaceOf(s.a), FaceOf(s.b), s.net, s.nonce) }

  lemma PairInvSymmetric(p: Face, q: Face, net: set<Packet>, nonce: nat)
    ensures PairInv(p, q, net, nonce) <==> PairInv(q, p, net, nonce)
    ensures PairInv(p, q, net, nonce) ==> p.wasBob != q.wasBob
  {
  }

  predicate NotOf(f: Face, m: Packet)
    requires m.Sealed?
  {
    Some(m.key) !in SlotKeys(f.cur) && Some(m.key) !in SlotKeys(f.nxt)
  }

  /** A stranger's packet changes nothing. */
  lemma PairForeign(p: Face, q: Face, net: set<Packet>, nonce: nat, m: Packet)
    requires PairInv(p, q, net, nonce) && m.Sealed? && NotOf(p, m) && NotOf(q, m) && NumberedBelow(m, nonce)
    ensures PairInv(p, q, net + {m}, nonce)
  {
  }

  lemma PairUnsealed(p: Face, q: Face, net: set<Packet>, nonce: nat, m: Packet)
    requires PairInv(p, q, net, nonce) && !m.Sealed?
    ensures PairInv(p, q, net + {m}, nonce)
  {
  }

  lemma XkForeign(a: Face, b: Face, net: set<Packet>, nonce: nat, m: Packet)
    requires XkInv(a, b, net, nonce)
    requires m.Sealed? ==> NotOf(a, m) && NotOf(b, m) && NumberedBelow(m, nonce)
    ensures XkInv(a, b, net + {m}, nonce)
  {
  }

  lemma PairKept(s: Pair, m: Packet)
    requires PairInv(FaceOf(s.a), FaceOf(s.b), s.net, s.nonce) && IsForeign(s, m)
    ensures PairInv(FaceOf(s.a), FaceOf(s.b), s.net + {m}, s.nonce)
  {
    hide PairInv;
    if m.Sealed? {
      PairForeign(FaceOf(s.a), FaceOf(s.b), s.net, s.nonce, m);
    } else {
      PairUnsealed(FaceOf(s.a), FaceOf(s.b), s.net, s.nonce, m);
    }
  }

  lemma ForeignKept(s: Pair, m: Packet)
    requires Inv(s) && IsForeign(s, m)
    ensures Inv(s.(net := s.net + {m}))
  {
    hide PairInv, XkInv;
    var a, b := FaceOf(s.a), FaceOf(s.b);
    if XkInv(a, b, s.net, s.nonce) {
      XkForeign(a, b, s.net, s.nonce, m);
    } else if PairInv(a, b, s.net, s.nonce) {
      PairKept(s, m);
    }
  }

  lemma EndedKept(s: Pair, e: Event)
    requires Ended(FaceOf(s.a)) && Enabled(s, e)
    ensures Ended(FaceOf(Next(s, e).a))
  {
  }

  lemma XkStopB(a: Face, b: Zeta, net: set<Packet>, nonce: nat)
    requires XkInv(a, FaceOf(b), net, nonce)
    ensures XkInv(a, FaceOf(Expire(b)), net, nonce)
  {
  }

  lemma XkPayloadA(a: Zeta, b: Face, net: set<Packet>, nonce: nat, env: Env)
    requires XkInv(FaceOf(a), b, net, nonce)
    ensures SendPayload(a, env).zeta == a && SendPayload(a, env).sent == None
    ensures XkInv(FaceOf(a), b, net, nonce + 1)
  {
  }

  lemma XkStopA(a: Zeta, b: Face, net: set<Packet>, nonce: nat)
    requires XkInv(FaceOf(a), b, net, nonce)
    ensures XkInv(FaceOf(Expire(a)), b, net, nonce)
  {
  }

  lemma XkPayloadB(a: Face, b: Zeta, net: set<Packet>, nonce: nat, env: Env)
    requires XkInv(a, FaceOf(b), net, nonce)
    ensures
      var o := SendPayload(b, env);
      XkInv(a, FaceOf(o.zeta), Sent(net, o.sent), nonce + 1)
  {
    XkMoveB(a, b, SendPayload(b, env), net, nonce);
  }

  lemma XkStep(s: Pair, e: Event)
    requires XkInv(FaceOf(s.a), FaceOf(s.b), s.net, s.nonce) && Enabled(s, e)
    ensures Inv(Next(s, e))
  {
    hide XkInv, PairInv, FaceOf, Receive, Service, SendPayload, Expire;
    match e
    case Deliver(atA, p, env, kid, answer) =>
      if atA { XkReceiveA(s.a, FaceOf(s.b), s.net, s.nonce, env, p, kid, answer); }
      else { XkReceiveB(FaceOf(s.a), s.b, s.net, s.nonce, env, p, kid, answer); }
    case Tick(atA, env, kid) =>
      if atA { XkServiceA(s.a, FaceOf(s.b), s.net, s.nonce, env, kid); }
      else { XkServiceB(FaceOf(s.a), s.b, s.net, s.nonce, env, kid); }
    case Transmit(atA, env) =>
      if atA { XkPayloadA(s.a, FaceOf(s.b), s.net, s.nonce, env); }
      else { XkPayloadB(FaceOf(s.a), s.b, s.net, s.nonce, env); }
    case Stop(atA) =>
      XkStopA(s.a, FaceOf(s.b), s.net, s.nonce);
      XkStopB(FaceOf(s.a), s.b, s.net, s.nonce);
    case Foreign(p) => ForeignKept(s, p);
  }

  lemma FaceRole(z: Zeta)
    ensures FaceOf(z).wasBob == z.wasBob
  {
  }

  lemma PairStep(s: Pair, e: Event)
    requires PairInv(FaceOf(s.a), FaceOf(s.b), s.net, s.nonce) && !s.a.wasBob && Enabled(s, e)
    ensures var t := Next(s, e); PairInv(FaceOf(t.a), FaceOf(t.b), t.net, t.nonce) && !t.a.wasBob
  {
    hide PairInv, FaceOf, Receive, Service, SendPayload, Expire;
    var a, b := FaceOf(s.a), FaceOf(s.b);
    PairInvSymmetric(a, b, s.net, s.nonce);
    var t := Next(s, e);
    PairInvSymmetric(FaceOf(t.a), FaceOf(t.b), t.net, t.nonce);
    FaceRole(s.a);
    FaceRole(s.b);
    FaceRole(t.a);
    FaceRole(t.b);
    match e
    case Deliver(atA, p, env, kid, answer) =>
      if atA { KeepReceive(s.a, b, s.net, s.nonce, env, p, kid, answer); }
      else { KeepReceive(s.b, a, s.net, s.nonce, env, p, kid, answer); }
    case Tick(atA, env, kid) =>
      if atA { KeepService(s.a, b, s.net, s.nonce, env, kid); }
      else { KeepService(s.b, a, s.net, s.nonce, env, kid); }
    case Transmit(atA, env) =>
      if atA { KeepPayload(s.a, b, s.net, s.nonce, env); }
      else { KeepPayload(s.b, a, s.net, s.nonce, env); }
    case Stop(atA) =>
      if atA { KeepStopped(s.a, b, s.net, s.nonce); }
      else { KeepStopped(s.b, a, s.net, s.nonce); }
    case Foreign(p) => PairKept(s, p);
  }

  lemma Step(s: Pair, e: Event)
    requires Inv(s) && Enabled(s, e)
    ensures Inv(Next(s, e))
  {
    hide XkInv, PairInv;
    if Ended(FaceOf(s.a)) {
      EndedKept(s, e);
    } else if XkInv(FaceOf(s.a), FaceOf(s.b), s.net, s.nonce) {
      XkStep(s, e);
    } else {
      PairStep(s, e);
    }
  }

  // ---------- runs ----------

  /** The responder has just completed the XK exchange `kex` and the initiator waits for its
      confirmation. Nothing is known of the network except that no packet is sealed under the new
      keys, unless it is the confirmation sent with the counter 0 when the responder's session was
      made, and that no ephemeral key is from the future. */
  ghost predicate Init(s: Pair) {
    && !s.a.wasBob && s.b.wasBob
    && s.a.beta.A3? && s.a.beta.x3.X3? && s.b.beta.S1?
    && Cur(s.a) == NoDuplexKey && Nxt(s.b) == NoDuplexKey
    && exists kex: Kex, kidA: Kid, kidB: Kid :: Fresh(s, kex, kidA, kidB)
  }

  predicate Fresh(s: Pair, kex: Kex, kidA: Kid, kidB: Kid) {
    && kex.y < s.nonce && FreshBelow(s.net, s.nonce)
    && s.b.sendCounter > 0
    && (forall m :: m in s.net && m.Sealed? && m.key.kex == kex ==> m == Sealed(kidA, Key(kex, Kek, true), 0, C1))
    && Nxt(s.a) == InitiatorKey(kex, kidB, Some(kidA)) && Cur(s.b) == ResponderKey(kex, kidA, kidB)
    && s.a.rs1 == NewRatchet(kex) && s.b.rs1 == NewRatchet(kex) && s.b.rs2 == None
    && kidA in s.a.routes && kidB in s.b.routes
  }

  ghost predicate IsRun(run: seq<Pair>, events: seq<Event>) {
    && |run| == |events| + 1 && Init(run[0])
    && forall i :: 0 <= i < |events| ==> Enabled(run[i], events[i]) && run[i + 1] == Next(run[i], events[i])
  }

  lemma InitInv(s: Pair)
    requires Init(s)
    ensures Inv(s)
  {
  }

  lemma {:induction false} RunInv(run: seq<Pair>, events: seq<Event>, i: nat)
    requires IsRun(run, events) && i < |run|
    ensures Inv(run[i])
  {
    if i == 0 {
      InitInv(run[0]);
    } else {
      RunInv(run, events, i - 1);
      Step(run[i - 1], events[i - 1]);
    }
  }

  /** There is always a key id left to draw. */
  lemma KidOutside(kids: set<Kid>) returns (kid: Kid)
    ensures forall k :: k in kids ==> k < kid
  {
    if kids == {} {
      kid := 0;
    } else {
      var k :| k in kids;
      var below := KidOutside(kids - {k});
      kid := if k < below then below else k + 1;
      assert forall j :: j in kids ==> j == k || j in kids - {k};
    }
  }

  predicate Alive(z: Zeta) { CanSend(z) }

  /** The number of key exchanges behind a session's confirmed key. */
  function Epoch(z: Zeta): nat
    requires Cur(z).send.kek.Some?
  {
    ChainLen(NewRatchet(KexOf(Cur(z))))
  }

  /** In every state of every run: never both sides in R2, and the epochs of the confirmed keys
      differ by at most one. A side that stopped keeps its last epoch. */
  lemma NeverBothAnswering(run: seq<Pair>, events: seq<Event>, i: nat)
    requires IsRun(run, events) && i < |run|
    ensures !(run[i].a.beta.R2? && run[i].b.beta.R2?)
    ensures
      Cur(run[i].a).send.kek.Some? && Cur(run[i].b).send.kek.Some? ==>
        -1 <= Epoch(run[i].a) - Epoch(run[i].b) <= 1
  {
    RunInv(run, events, i);
  }

  /** The slot of `q` that holds the keys `p` sends with. */
  predicate Installed(p: Zeta, q: Zeta, slot: DuplexKey) {
    && slot.recv == Cur(p).send && slot.send == Cur(p).recv
    && slot.recv.kek.Some? && slot.recv.nk.Some? && slot.recv.kid.Some? && slot.recv.kid.value in q.routes
  }

  /** In every state of every run in which both sides are established and alive, the keys each
      side sends with sit, mirrored and under the same key id, in a slot its peer is reached by. */
  lemma SendingKeyInstalled(run: seq<Pair>, events: seq<Event>, i: nat)
    requires IsRun(run, events) && i < |run|
    requires Alive(run[i].a) && Alive(run[i].b)
    ensures Installed(run[i].a, run[i].b, Cur(run[i].b)) || Installed(run[i].a, run[i].b, Nxt(run[i].b))
    ensures Installed(run[i].b, run[i].a, Cur(run[i].a)) || Installed(run[i].b, run[i].a, Nxt(run[i].a))
  {
    RunInv(run, events, i);
  }
}
