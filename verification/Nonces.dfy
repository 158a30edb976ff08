/** Which packets of a run each of the two sessions sealed. Every packet that opens at one side was
    sealed by the other, every seal spends a counter, and no two seals share a key and a counter. */
module Nonces {
  import opened Wrappers
  import opened Ratchet
  import opened Zeta
  import opened RekeyPair
  import opened Handshake

  // ---------- one transition ----------

  /** What a transition seals goes out under its current sending keys with the counter it found, and
      that counter is spent. */
  predicate Spends(p: Zeta, o: Outcome) {
    && p.sendCounter <= o.zeta.sendCounter
    && (o.sent.Some? && o.sent.value.Sealed? ==>
          && o.sent.value.counter == p.sendCounter < o.zeta.sendCounter
          && SendsWith(FaceOf(o.zeta), o.sent.value.key))
  }

  predicate SendsWith(f: Face, k: Key) { f.cur.send.kek == Some(k) || f.cur.send.nk == Some(k) }

  predicate ReceivesWith(f: Face, k: Key) {
    || f.cur.recv.kek == Some(k) || f.cur.recv.nk == Some(k)
    || f.nxt.recv.kek == Some(k) || f.nxt.recv.nk == Some(k)
  }

  /** An attempt under way repeats handshake messages only. */
  predicate PlainAttempt(z: Zeta) { (z.beta.A1? ==> z.beta.x1.X1?) && (z.beta.A3? ==> z.beta.x3.X3?) }

  lemma ReceiveSpends(p: Zeta, env: Env, m: Packet, y: nat, kid: Kid, answer: SaveResult)
    requires m.Sealed?
    ensures Spends(p, Receive(p, env, m, y, kid, answer))
  {
    hide WindowAccepts;
    match m.body
    case C1 => C1Spends(p, env, m, answer);
    case C2 =>
    case K1(_, _, _) => K1Spends(p, env, m, y, kid, answer);
    case K2(_, _) => K2Spends(p, env, m, answer);
    case D =>
    case Data =>
  }

  lemma ControlSpends(p: Zeta, z: Zeta, body: Body)
    requires z.sendCounter == p.sendCounter
    ensures var (t, sent) := SendControl(z, body); Spends(p, Outcome(t, sent, None, Done))
  {
  }

  lemma C1Spends(p: Zeta, env: Env, m: Packet, answer: SaveResult)
    requires m.Sealed?
    ensures Spends(p, ReceivedC1(p, env, m.to, m.key, m.counter, answer))
  {
    hide WindowAccepts, SendControl;
    var w := UpdateWindow(p, m.counter);
    if w.Some? {
      ControlSpends(p, Confirmed(w.value, env), C2);
      ControlSpends(p, w.value, C2);
    }
  }

  lemma K1Spends(p: Zeta, env: Env, m: Packet, y: nat, kid: Kid, answer: SaveResult)
    requires m.Sealed? && m.body.K1?
    ensures Spends(p, ReceivedK1(p, env, m.to, m.key, m.counter, m.body, y, kid, answer))
  {
    hide WindowAccepts, SendControl;
    var w := UpdateWindow(p, m.counter);
    if w.Some? {
      var kex := Kex(m.body.x, y, p.rs1);
      ControlSpends(p, Answering(Remap(w.value, kid), env, kex, m.body.kid, kid), K2(kex, kid));
    }
  }

  lemma K2Spends(p: Zeta, env: Env, m: Packet, answer: SaveResult)
    requires m.Sealed? && m.body.K2?
    ensures Spends(p, ReceivedK2(p, env, m.to, m.key, m.counter, m.body, answer))
  {
    hide WindowAccepts, SendControl;
    var w := UpdateWindow(p, m.counter);
    if w.Some? {
      ControlSpends(p, Advancing(w.value, env, m.body.kex, m.body.kid), C1);
    }
  }

  lemma ServiceSpends(p: Zeta, env: Env, x: nat, kid: Kid)
    requires PlainAttempt(p)
    ensures Spends(p, Service(p, env, x, kid))
  {
  }

  lemma PayloadSpends(p: Zeta, env: Env)
    ensures Spends(p, SendPayload(p, env))
  {
  }

  // ---------- what one side sealed and the other receives ----------

  /** `sp` and `sq` are the packets sealed by `p` and by `q`. Only `p` seals what `q` receives, under
      keys that `q` does not send with; and the keys of a rekey that `q` has answered are still unused
      by `q`, and on the network in one direction only. */
  ghost predicate Own(p: Face, q: Face, sp: set<Packet>, sq: set<Packet>, net: set<Packet>, nonce: nat) {
    && sp <= net
    && (forall m :: m in sp ==> m.Sealed? && m.key.kex.y < nonce && !SendsWith(q, m.key))
    && (forall m :: m in net && m.Sealed? && ReceivesWith(q, m.key) ==> m in sp)
    && (Pending(q) ==>
          forall m :: m in net && m.Sealed? && m.key.kex == KexOf(q.nxt) ==> !m.key.first && m !in sq)
  }

  ghost predicate Shared(p: Face, q: Face, sp: set<Packet>, sq: set<Packet>, net: set<Packet>, nonce: nat) {
    && Own(p, q, sp, sq, net, nonce) && Own(q, p, sq, sp, net, nonce)
    && forall m, n :: m in sp && n in sq ==> m.key != n.key
  }

  lemma SharedSymmetric(p: Face, q: Face, sp: set<Packet>, sq: set<Packet>, net: set<Packet>, nonce: nat)
    ensures Shared(p, q, sp, sq, net, nonce) <==> Shared(q, p, sq, sp, net, nonce)
  {
  }

  // How the keys of a side can change.

  predicate StaysPut(f: Face, t: Face) {
    && t.cur == f.cur && t.nxt.send == f.nxt.send
    && t.nxt.recv.kek == f.nxt.recv.kek && t.nxt.recv.nk == f.nxt.recv.nk && (Pending(t) ==> Pending(f))
  }

  predicate Switches(f: Face, t: Face) { t.cur == f.nxt && t.nxt == f.cur && t.rs2 == None }

  predicate Awaits(f: Face, t: Face, x: nat, nonce: nat) {
    && f.rs2 == None && t.cur == f.cur && IsKey(t.nxt) && KexOf(t.nxt) == Kex(x, nonce, f.rs1)
    && t.nxt == ResponderKey(KexOf(t.nxt), t.nxt.send.kid.value, t.nxt.recv.kid.value)
  }

  predicate MovesOn(f: Face, t: Face, net: set<Packet>, m: Packet) {
    && m in net && m.Sealed? && m.body.K2? && f.cur.recv.kek == Some(m.key) && f.beta.R1? && t.rs2 == None
    && t.nxt == f.cur && t.cur == InitiatorKey(m.body.kex, m.body.kid, f.nxt.recv.kid)
  }

  lemma SharedPut(p: Face, t: Face, q: Face, sp: set<Packet>, sq: set<Packet>, net: set<Packet>, nonce: nat)
    requires Shared(p, q, sp, sq, net, nonce) && StaysPut(p, t)
    ensures Shared(t, q, sp, sq, net, nonce + 1)
  {
  }

  lemma SharedSwitch(p: Face, t: Face, q: Face, sp: set<Packet>, sq: set<Packet>, net: set<Packet>, nonce: nat)
    requires Shared(p, q, sp, sq, net, nonce) && Switches(p, t) && Pending(p)
    ensures Shared(t, q, sp, sq, net, nonce + 1)
  {
  }

  lemma SharedAwait(p: Face, t: Face, q: Face, sp: set<Packet>, sq: set<Packet>, net: set<Packet>, nonce: nat, x: nat)
    requires Shared(p, q, sp, sq, net, nonce) && Awaits(p, t, x, nonce) && FreshBelow(net, nonce)
    ensures Shared(t, q, sp, sq, net, nonce + 1)
  {
  }

  lemma SharedMove(p: Face, t: Face, q: Face, sp: set<Packet>, sq: set<Packet>, net: set<Packet>, nonce: nat, m: Packet)
    requires PairInv(p, q, net, nonce) && Shared(p, q, sp, sq, net, nonce) && MovesOn(p, t, net, m)
    ensures Shared(t, q, sp, sq, net, nonce + 1)
  {
    assert Mirror(p.cur, q.cur) && Pending(q) && m.body.kex == KexOf(q.nxt);
  }

  /** Sealing a packet under the current keys. */
  lemma SharedSend(p: Face, q: Face, sp: set<Packet>, sq: set<Packet>, net: set<Packet>, nonce: nat, m: Packet)
    requires Shared(p, q, sp, sq, net, nonce) && Paired(p, q) && Numbered(p, nonce)
    requires m.Sealed? && SendsWith(p, m.key)
    ensures Shared(p, q, sp + {m}, sq, net + {m}, nonce)
  {
  }

  function Seals(o: Outcome): set<Packet> { if o.sent.Some? && o.sent.value.Sealed? then {o.sent.value} else {} }

  /** The invariant once the packet of a transition is on the network. */
  lemma SharedSent(p: Zeta, o: Outcome, q: Face, sp: set<Packet>, sq: set<Packet>, net: set<Packet>, nonce: nat)
    requires Shared(FaceOf(o.zeta), q, sp, sq, net, nonce + 1) && Kept(o, q, net, nonce) && Spends(p, o)
    ensures Shared(FaceOf(o.zeta), q, sp + Seals(o), sq, Sent(net, o.sent), nonce + 1)
  {
    hide FaceOf;
    if Seals(o) != {} {
      SharedSend(FaceOf(o.zeta), q, sp, sq, net, nonce + 1, o.sent.value);
    } else {
      assert sp + Seals(o) == sp;
    }
  }

  lemma PairPlain(p: Zeta, q: Face, net: set<Packet>, nonce: nat)
    requires PairInv(FaceOf(p), q, net, nonce)
    ensures !p.beta.A1? && !p.beta.A3? && (p.beta.S2? || p.beta.R1? ==> p.rs2 == None)
    ensures (p.beta.R2? ==> Pending(FaceOf(p))) && FreshBelow(net, nonce)
  {
  }

  lemma C1Shape(p: Zeta, env: Env, m: Packet, answer: SaveResult)
    requires m.Sealed? && !p.beta.A3?
    ensures
      var t := FaceOf(ReceivedC1(p, env, m.to, m.key, m.counter, answer).zeta);
      StaysPut(FaceOf(p), t) || (p.beta.R2? && Switches(FaceOf(p), t))
  {
    hide SendControl, UpdateWindow, Expire, Confirmed, FaceOf;
    SameSlots(p, m.counter, C2, 0);
    var w := UpdateWindow(p, m.counter);
    if w.Some? {
      SameSlots(w.value, 0, C2, 0);
      ConfirmedSlots(w.value, env);
      SameSlots(Confirmed(w.value, env), 0, C2, 0);
    }
  }

  lemma K1Shape(p: Zeta, env: Env, m: Packet, y: nat, kid: Kid, answer: SaveResult)
    requires m.Sealed? && m.body.K1?
    ensures
      var t := FaceOf(ReceivedK1(p, env, m.to, m.key, m.counter, m.body, y, kid, answer).zeta);
      StaysPut(FaceOf(p), t) || (RekeysAsBob(p) && (p.rs2 == None ==> Awaits(FaceOf(p), t, m.body.x, y)))
  {
    hide SendControl, UpdateWindow, Expire, Remap, Answering, FaceOf;
    FaceParts(p);
    SameSlots(p, m.counter, C1, kid);
    var w := UpdateWindow(p, m.counter);
    if w.Some? {
      var kex := Kex(m.body.x, y, p.rs1);
      var r := Remap(w.value, kid);
      SameSlots(w.value, m.counter, C1, kid);
      SameSlots(r, m.counter, C1, kid);
      AnsweringSlots(r, env, kex, m.body.kid, kid);
      SameSlots(Answering(r, env, kex, m.body.kid, kid), 0, K2(kex, kid), kid);
    }
  }

  lemma K2Shape(p: Zeta, env: Env, net: set<Packet>, m: Packet, answer: SaveResult)
    requires m in net && m.Sealed? && m.body.K2?
    ensures
      var t := FaceOf(ReceivedK2(p, env, m.to, m.key, m.counter, m.body, answer).zeta);
      StaysPut(FaceOf(p), t) || (p.beta.R1? && (p.rs2 == None ==> MovesOn(FaceOf(p), t, net, m)))
  {
    hide SendControl, UpdateWindow, Expire, Advancing, FaceOf;
    FaceParts(p);
    SameSlots(p, m.counter, C1, 0);
    var w := UpdateWindow(p, m.counter);
    if w.Some? {
      FaceParts(w.value);
      SameSlots(w.value, 0, C1, 0);
      AdvancingSlots(w.value, env, m.body.kex, m.body.kid);
      SameSlots(Advancing(w.value, env, m.body.kex, m.body.kid), 0, C1, 0);
    }
  }

  lemma OtherShape(p: Zeta, env: Env, m: Packet)
    requires m.Sealed?
    ensures StaysPut(FaceOf(p), FaceOf(ReceivedC2(p, env, m.to, m.key, m.counter).zeta))
    ensures StaysPut(FaceOf(p), FaceOf(ReceivedD(p, m.to, m.key, m.counter).zeta))
    ensures StaysPut(FaceOf(p), FaceOf(ReceivedPayload(p, m.to, m.key, m.counter).zeta))
  {
    hide WindowAccepts;
  }

  lemma SharedReceive(p: Zeta, q: Face, sp: set<Packet>, sq: set<Packet>, net: set<Packet>, nonce: nat, env: Env,
                      m: Packet, kid: Kid, answer: SaveResult)
    requires PairInv(FaceOf(p), q, net, nonce) && Shared(FaceOf(p), q, sp, sq, net, nonce)
    requires m in net && m.Sealed? && kid !in KeptRoutes(p)
    ensures
      var o := Receive(p, env, m, nonce, kid, answer);
      Shared(FaceOf(o.zeta), q, sp + Seals(o), sq, Sent(net, o.sent), nonce + 1)
  {
    var o := Receive(p, env, m, nonce, kid, answer);
    var f, t := FaceOf(p), FaceOf(o.zeta);
    KeepReceive(p, q, net, nonce, env, m, kid, answer);
    ReceiveSpends(p, env, m, nonce, kid, answer);
    ReceiveShape(p, q, net, nonce, env, m, kid, answer);
    hide PairInv, Shared, FaceOf, Receive, Kept;
    if StaysPut(f, t) {
      SharedPut(f, t, q, sp, sq, net, nonce);
    } else if Switches(f, t) && Pending(f) {
      SharedSwitch(f, t, q, sp, sq, net, nonce);
    } else if m.body.K1? {
      SharedAwait(f, t, q, sp, sq, net, nonce, m.body.x);
    } else {
      SharedMove(f, t, q, sp, sq, net, nonce, m);
    }
    SharedSent(p, o, q, sp, sq, net, nonce);
  }

  lemma ReceiveShape(p: Zeta, q: Face, net: set<Packet>, nonce: nat, env: Env, m: Packet, kid: Kid, answer: SaveResult)
    requires PairInv(FaceOf(p), q, net, nonce) && m in net && m.Sealed?
    ensures
      var f, t := FaceOf(p), FaceOf(Receive(p, env, m, nonce, kid, answer).zeta);
      && FreshBelow(net, nonce)
      && (|| StaysPut(f, t) || (Switches(f, t) && Pending(f))
          || (m.body.K1? && Awaits(f, t, m.body.x, nonce)) || (m.body.K2? && MovesOn(f, t, net, m)))
  {
    PairPlain(p, q, net, nonce);
    FaceParts(p);
    hide PairInv, ReceivedC1, ReceivedK1, ReceivedK2, WindowAccepts, FaceOf;
    OtherShape(p, env, m);
    match m.body
    case C1 => C1Shape(p, env, m, answer);
    case K1(_, _, _) => K1Shape(p, env, m, nonce, kid, answer);
    case K2(_, _) => K2Shape(p, env, net, m, answer);
    case _ =>
  }

  lemma RekeyingSlots(p: Zeta, env: Env, x: nat, kid: Kid)
    ensures
      var f, t := FaceOf(p), FaceOf(Rekeying(p, env, x, kid));
      t.cur == f.cur && t.nxt == f.nxt.(recv := f.nxt.recv.(kid := Some(kid))) && t.rs1 == f.rs1 && t.rs2 == f.rs2
  {
  }

  lemma ServiceShape(p: Zeta, env: Env, x: nat, kid: Kid)
    requires !p.beta.A1? && !p.beta.A3? && (p.beta.S2? ==> p.rs2 == None)
    ensures StaysPut(FaceOf(p), FaceOf(Service(p, env, x, kid).zeta))
  {
    hide SendControl, Expire, Rekeying, FaceOf, IsKey;
    var z := p.(resendTimer := env.now + env.settings.resendTime);
    FaceParts(p);
    SameSlots(p, 0, C1, kid);
    ResentSlots(p, env);
    RekeyingSlots(p, env, x, kid);
    SameSlots(Rekeying(p, env, x, kid), 0, K1(x, p.rs1, kid), kid);
    match p.beta
    case S1 => SameSlots(z, 0, C1, kid);
    case R1(_, k1) => SameSlots(z, 0, k1, kid);
    case R2(k2) => SameSlots(z, 0, k2, kid);
    case _ =>
  }

  lemma ResentSlots(p: Zeta, env: Env)
    ensures FaceOf(p.(resendTimer := env.now + env.settings.resendTime)) == FaceOf(p)
  {
  }

  lemma PayloadShape(p: Zeta, env: Env)
    ensures StaysPut(FaceOf(p), FaceOf(SendPayload(p, env).zeta))
  {
  }

  lemma SharedService(p: Zeta, q: Face, sp: set<Packet>, sq: set<Packet>, net: set<Packet>, nonce: nat, env: Env,
                      kid: Kid)
    requires PairInv(FaceOf(p), q, net, nonce) && Shared(FaceOf(p), q, sp, sq, net, nonce) && kid !in KeptRoutes(p)
    ensures
      var o := Service(p, env, nonce, kid);
      Shared(FaceOf(o.zeta), q, sp + Seals(o), sq, Sent(net, o.sent), nonce + 1)
  {
    var o := Service(p, env, nonce, kid);
    PairPlain(p, q, net, nonce);
    ServiceSpends(p, env, nonce, kid);
    KeepService(p, q, net, nonce, env, kid);
    ServiceShape(p, env, nonce, kid);
    hide PairInv, Shared, Service, Kept, FaceOf;
    SharedPut(FaceOf(p), FaceOf(o.zeta), q, sp, sq, net, nonce);
    SharedSent(p, o, q, sp, sq, net, nonce);
  }

  lemma SharedPayload(p: Zeta, q: Face, sp: set<Packet>, sq: set<Packet>, net: set<Packet>, nonce: nat, env: Env)
    requires PairInv(FaceOf(p), q, net, nonce) && Shared(FaceOf(p), q, sp, sq, net, nonce)
    ensures
      var o := SendPayload(p, env);
      Shared(FaceOf(o.zeta), q, sp + Seals(o), sq, Sent(net, o.sent), nonce + 1)
  {
    var o := SendPayload(p, env);
    PayloadSpends(p, env);
    KeepPayload(p, q, net, nonce, env);
    PayloadShape(p, env);
    hide PairInv, Shared, SendPayload, Kept, FaceOf;
    SharedPut(FaceOf(p), FaceOf(o.zeta), q, sp, sq, net, nonce);
    SharedSent(p, o, q, sp, sq, net, nonce);
  }

  // ---------- before the first confirmation ----------

  /** The responder's session that nothing has reached yet. */
  ghost predicate Lonely(b: Face, sb: set<Packet>, net: set<Packet>, nonce: nat) {
    && b.wasBob && IsKey(b.cur) && KexOf(b.cur).y < nonce && b.nxt == NoDuplexKey && b.rs2 == None
    && (b.beta.S1? || b.beta.Null?) && sb <= net
    && (forall m :: m in sb ==> m.Sealed? && SendsWith(b, m.key))
    && (forall m :: m in net && m.Sealed? ==> !ReceivesWith(b, m.key))
  }

  /** The initiator has sealed nothing: it waits, or has given the exchange up. */
  ghost predicate Early(a: Face, b: Face, sa: set<Packet>, sb: set<Packet>, net: set<Packet>, nonce: nat) {
    && sa == {} && Lonely(b, sb, net, nonce)
    && (Ended(a) || (XkInv(a, b, net, nonce)
                     && forall m :: m in net && m.Sealed? && ReceivesWith(a, m.key) ==> m in sb))
  }

  /** The responder moves by itself, or hears what does not open. */
  predicate Idles(b: Zeta, o: Outcome) {
    && (|| FaceOf(o.zeta) == FaceOf(b)
        || FaceOf(o.zeta) == FaceOf(b).(beta := Null, routes := FaceOf(o.zeta).routes))
    && (o.sent.Some? ==>
          o.sent.value.Sealed? && (o.sent.value.body.C1? || o.sent.value.body.C2? || o.sent.value.body.Data?))
  }

  lemma EarlyB(a: Face, b: Zeta, o: Outcome, sb: set<Packet>, net: set<Packet>, nonce: nat)
    requires Early(a, FaceOf(b), {}, sb, net, nonce) && Idles(b, o) && Spends(b, o)
    ensures Early(a, FaceOf(o.zeta), {}, sb + Seals(o), Sent(net, o.sent), nonce + 1)
  {
    if XkInv(a, FaceOf(b), net, nonce) {
      XkMoveB(a, b, o, net, nonce);
    }
    hide XkInv;
  }

  lemma EarlyReceiveB(a: Face, b: Zeta, sb: set<Packet>, net: set<Packet>, nonce: nat, env: Env, m: Packet, kid: Kid,
                      answer: SaveResult)
    requires Early(a, FaceOf(b), {}, sb, net, nonce) && m in net && m.Sealed?
    ensures
      var o := Receive(b, env, m, nonce, kid, answer);
      Early(a, FaceOf(o.zeta), {}, sb + Seals(o), Sent(net, o.sent), nonce + 1)
  {
    assert (b.beta.S1? || b.beta.Null?) && Some(m.key) != Cur(b).recv.kek;
    hide Early;
    S1Hears(b, env, m, nonce, kid, answer);
    ReceiveSpends(b, env, m, nonce, kid, answer);
    EarlyB(a, b, Receive(b, env, m, nonce, kid, answer), sb, net, nonce);
  }

  lemma EarlyOwnB(a: Face, b: Zeta, sb: set<Packet>, net: set<Packet>, nonce: nat, env: Env, kid: Kid)
    requires Early(a, FaceOf(b), {}, sb, net, nonce)
    ensures
      var o := Service(b, env, nonce, kid);
      Early(a, FaceOf(o.zeta), {}, sb + Seals(o), Sent(net, o.sent), nonce + 1)
    ensures
      var o := SendPayload(b, env);
      Early(a, FaceOf(o.zeta), {}, sb + Seals(o), Sent(net, o.sent), nonce + 1)
  {
    assert b.beta.S1? || b.beta.Null?;
    hide Early;
    ServiceSpends(b, env, nonce, kid);
    PayloadSpends(b, env);
    EarlyB(a, b, Service(b, env, nonce, kid), sb, net, nonce);
    EarlyB(a, b, SendPayload(b, env), sb, net, nonce);
  }

  /** The initiator stays as it is, gives up or stops, and seals nothing. */
  predicate Waits(a: Zeta, o: Outcome) {
    && (|| FaceOf(o.zeta) == FaceOf(a) || Ended(FaceOf(o.zeta))
        || FaceOf(o.zeta) == FaceOf(a).(beta := Null, routes := FaceOf(o.zeta).routes))
    && Seals(o) == {}
  }

  lemma EarlyA(a: Zeta, o: Outcome, b: Face, sb: set<Packet>, net: set<Packet>, nonce: nat)
    requires Early(FaceOf(a), b, {}, sb, net, nonce) && Waits(a, o)
    ensures Early(FaceOf(o.zeta), b, {}, sb, Sent(net, o.sent), nonce + 1)
  {
    assert Lonely(b, sb, Sent(net, o.sent), nonce + 1);
    if XkInv(FaceOf(a), b, net, nonce) && !Ended(FaceOf(o.zeta)) {
      XkKept(FaceOf(a), FaceOf(o.zeta), b, net, nonce);
      if o.sent.Some? { XkForeign(FaceOf(o.zeta), b, net, nonce + 1, o.sent.value); }
    }
  }

  /** The confirmation arrives: from now on both seal. */
  lemma EarlyConfirmed(a: Face, t: Face, b: Face, sb: set<Packet>, net: set<Packet>, nonce: nat)
    requires Early(a, b, {}, sb, net, nonce) && a.beta.A3? && Switches(a, t)
    ensures Shared(t, b, {}, sb, net, nonce + 1)
  {
  }

  // ---------- runs ----------

  /** What a side seals at an event. */
  function SealedBy(s: Pair, e: Event, atA: bool): set<Packet>
    requires Enabled(s, e)
  {
    match e
    case Deliver(side, m, env, kid, answer) =>
      if side == atA then Seals(Receive(Side(s, side), env, m, s.nonce, kid, answer)) else {}
    case Tick(side, env, kid) => if side == atA then Seals(Service(Side(s, side), env, s.nonce, kid)) else {}
    case Transmit(side, env) => if side == atA then Seals(SendPayload(Side(s, side), env)) else {}
    case Stop(_) => {}
    case Foreign(_) => {}
  }

  ghost predicate Below(z: Zeta, sent: set<Packet>) {
    forall m :: m in sent ==> m.Sealed? && m.counter < z.sendCounter
  }

  /** The invariant: `sa` and `sb` are what the two sides have sealed. */
  ghost predicate SealInv(s: Pair, sa: set<Packet>, sb: set<Packet>) {
    && PlainAttempt(s.a) && Below(s.a, sa) && Below(s.b, sb)
    && (|| Early(FaceOf(s.a), FaceOf(s.b), sa, sb, s.net, s.nonce)
        || (PairInv(FaceOf(s.a), FaceOf(s.b), s.net, s.nonce) && !s.a.wasBob
            && Shared(FaceOf(s.a), FaceOf(s.b), sa, sb, s.net, s.nonce)))
  }

  /** Each event spends the counters of what it seals, and no side's counter goes back. */
  lemma CountersSpent(s: Pair, e: Event, atA: bool)
    requires Enabled(s, e) && PlainAttempt(s.a) && PlainAttempt(s.b)
    ensures Side(s, atA).sendCounter <= Side(Next(s, e), atA).sendCounter
    ensures forall m :: m in SealedBy(s, e, atA) ==>
      m.Sealed? && m.counter == Side(s, atA).sendCounter < Side(Next(s, e), atA).sendCounter
  {
    hide Receive, Service, SendPayload;
    match e
    case Deliver(side, m, env, kid, answer) => ReceiveSpends(Side(s, side), env, m, s.nonce, kid, answer);
    case Tick(side, env, kid) => ServiceSpends(Side(s, side), env, s.nonce, kid);
    case Transmit(side, env) => PayloadSpends(Side(s, side), env);
    case Stop(_) =>
    case Foreign(_) =>
  }

  lemma ControlBeta(z: Zeta, body: Body)
    ensures SendControl(z, body).0.beta == z.beta
  {
  }

  /** A sealed packet leads to no other attempt. */
  predicate NoAttempt(a: Zeta, o: Outcome) { o.zeta.beta == a.beta || (!o.zeta.beta.A1? && !o.zeta.beta.A3?) }

  lemma C1NoAttempt(a: Zeta, env: Env, m: Packet, answer: SaveResult)
    requires m.Sealed?
    ensures NoAttempt(a, ReceivedC1(a, env, m.to, m.key, m.counter, answer))
  {
    hide WindowAccepts, SendControl;
    var w := UpdateWindow(a, m.counter);
    if w.Some? {
      ControlBeta(w.value, C2);
      ControlBeta(Confirmed(w.value, env), C2);
    }
  }

  lemma RekeyNoAttempt(a: Zeta, env: Env, m: Packet, y: nat, kid: Kid, answer: SaveResult)
    requires m.Sealed?
    ensures m.body.K1? ==> NoAttempt(a, ReceivedK1(a, env, m.to, m.key, m.counter, m.body, y, kid, answer))
    ensures m.body.K2? ==> NoAttempt(a, ReceivedK2(a, env, m.to, m.key, m.counter, m.body, answer))
  {
    hide WindowAccepts, SendControl;
    var w := UpdateWindow(a, m.counter);
    if w.Some? && m.body.K1? {
      var kex := Kex(m.body.x, y, a.rs1);
      ControlBeta(Answering(Remap(w.value, kid), env, kex, m.body.kid, kid), K2(kex, kid));
    }
    if w.Some? && m.body.K2? {
      ControlBeta(Advancing(w.value, env, m.body.kex, m.body.kid), C1);
    }
  }

  lemma PlainReceived(a: Zeta, env: Env, m: Packet, y: nat, kid: Kid, answer: SaveResult)
    requires PlainAttempt(a) && m.Sealed?
    ensures PlainAttempt(Receive(a, env, m, y, kid, answer).zeta)
  {
    hide ReceivedC1, ReceivedK1, ReceivedK2, WindowAccepts;
    C1NoAttempt(a, env, m, answer);
    RekeyNoAttempt(a, env, m, y, kid, answer);
  }

  lemma PlainOwn(a: Zeta, env: Env, x: nat, kid: Kid)
    requires PlainAttempt(a)
    ensures PlainAttempt(Service(a, env, x, kid).zeta) && PlainAttempt(SendPayload(a, env).zeta)
      && PlainAttempt(Expire(a))
  {
  }

  /** A session that has no current key takes nothing but the confirmation it waits for. */
  lemma C1Waits(a: Zeta, env: Env, m: Packet, answer: SaveResult)
    requires m.Sealed? && Cur(a) == NoDuplexKey && !a.beta.R2?
    ensures
      var o := ReceivedC1(a, env, m.to, m.key, m.counter, answer);
      || Waits(a, o)
      || (Nxt(a).recv.kek == Some(m.key) && a.beta.A3? && Switches(FaceOf(a), FaceOf(o.zeta)))
  {
    hide SendControl, UpdateWindow, Expire, Confirmed, FaceOf;
    SameSlots(a, m.counter, C2, 0);
    var w := UpdateWindow(a, m.counter);
    if w.Some? {
      NothingSealed(a, m.counter);
      SameSlots(w.value, 0, C2, 0);
      ConfirmedSlots(w.value, env);
      SameSlots(Confirmed(w.value, env), 0, C2, 0);
    }
  }

  lemma NothingSealed(a: Zeta, c: nat)
    requires Cur(a) == NoDuplexKey && UpdateWindow(a, c).Some?
    ensures var w := UpdateWindow(a, c).value; w.beta == a.beta && SendControl(w, C2).1 == None
  {
  }

  lemma Unmoved(a: Zeta, status: Status)
    ensures Waits(a, Reject(a, status))
  {
  }

  lemma NothingCurrent(a: Zeta, env: Env, m: Packet, y: nat, kid: Kid, answer: SaveResult)
    requires m.Sealed? && Cur(a) == NoDuplexKey
    ensures Waits(a, ReceivedC2(a, env, m.to, m.key, m.counter))
    ensures m.body.K1? ==> Waits(a, ReceivedK1(a, env, m.to, m.key, m.counter, m.body, y, kid, answer))
    ensures m.body.K2? ==> Waits(a, ReceivedK2(a, env, m.to, m.key, m.counter, m.body, answer))
  {
  }

  lemma DWaits(a: Zeta, m: Packet)
    requires m.Sealed?
    ensures Waits(a, ReceivedD(a, m.to, m.key, m.counter)) && Waits(a, ReceivedPayload(a, m.to, m.key, m.counter))
  {
    hide WindowAccepts;
  }

  lemma EarlyFacts(a: Zeta, b: Face, sb: set<Packet>, net: set<Packet>, nonce: nat, m: Packet)
    requires Early(FaceOf(a), b, {}, sb, net, nonce)
    ensures Cur(a) == NoDuplexKey && (a.beta.A1? || a.beta.A3? || a.beta.Null?)
    ensures Ended(FaceOf(a)) ==> Nxt(a).recv.kek == None
    ensures !Ended(FaceOf(a)) ==> a.beta.A3? || a.beta.Null?
  {
  }

  /** The initiator before the first confirmation: it waits, or the confirmation reaches it. */
  lemma WaitsA(a: Zeta, b: Face, sb: set<Packet>, net: set<Packet>, nonce: nat, env: Env, m: Packet, kid: Kid,
               answer: SaveResult)
    requires Early(FaceOf(a), b, {}, sb, net, nonce) && m.Sealed?
    ensures
      var o := Receive(a, env, m, nonce, kid, answer);
      Waits(a, o) || (a.beta.A3? && !Ended(FaceOf(a)) && Switches(FaceOf(a), FaceOf(o.zeta)))
  {
    EarlyFacts(a, b, sb, net, nonce, m);
    hide Early, ReceivedC1, ReceivedC2, ReceivedK1, ReceivedK2, ReceivedD, ReceivedPayload, FaceOf, Waits, Switches;
    Unmoved(a, UnknownLocalKeyId);
    match m.body
    case C1 => C1Waits(a, env, m, answer);
    case D => DWaits(a, m);
    case Data => DWaits(a, m);
    case _ => NothingCurrent(a, env, m, nonce, kid, answer);
  }

  lemma WaitsOwn(a: Zeta, b: Face, sb: set<Packet>, net: set<Packet>, nonce: nat, env: Env, kid: Kid)
    requires Early(FaceOf(a), b, {}, sb, net, nonce) && PlainAttempt(a)
    ensures Waits(a, Service(a, env, nonce, kid)) && Waits(a, SendPayload(a, env))
  {
  }

  lemma EarlyStep(s: Pair, sb: set<Packet>, e: Event)
    requires Early(FaceOf(s.a), FaceOf(s.b), {}, sb, s.net, s.nonce) && PlainAttempt(s.a) && Enabled(s, e)
    ensures
      var t := Next(s, e);
      var sa', sb' := SealedBy(s, e, true), sb + SealedBy(s, e, false);
      || Early(FaceOf(t.a), FaceOf(t.b), sa', sb', t.net, t.nonce)
      || (PairInv(FaceOf(t.a), FaceOf(t.b), t.net, t.nonce) && !t.a.wasBob
          && Shared(FaceOf(t.a), FaceOf(t.b), sa', sb', t.net, t.nonce))
  {
    hide Early, FaceOf, Receive, Service, SendPayload, Expire, Shared, PairInv;
    var a, b := FaceOf(s.a), FaceOf(s.b);
    assert sb + {} == sb;
    match e
    case Deliver(atA, m, env, kid, answer) =>
      if atA { EarlyHears(s, sb, m, env, kid, answer); }
      else { EarlyReceiveB(a, s.b, sb, s.net, s.nonce, env, m, kid, answer); }
    case Tick(atA, env, kid) =>
      if atA {
        WaitsOwn(s.a, b, sb, s.net, s.nonce, env, kid);
        EarlyA(s.a, Service(s.a, env, s.nonce, kid), b, sb, s.net, s.nonce);
      } else { EarlyOwnB(a, s.b, sb, s.net, s.nonce, env, kid); }
    case Transmit(atA, env) =>
      if atA {
        WaitsOwn(s.a, b, sb, s.net, s.nonce, env, 0);
        EarlyA(s.a, SendPayload(s.a, env), b, sb, s.net, s.nonce);
      } else { EarlyOwnB(a, s.b, sb, s.net, s.nonce, env, 0); }
    case Stop(_) => EarlyStops(s.a, s.b, sb, s.net, s.nonce);
    case Foreign(m) => EarlyForeign(s, sb, m);
  }

  lemma EarlyHears(s: Pair, sb: set<Packet>, m: Packet, env: Env, kid: Kid, answer: SaveResult)
    requires Early(FaceOf(s.a), FaceOf(s.b), {}, sb, s.net, s.nonce) && PlainAttempt(s.a)
    requires Enabled(s, Deliver(true, m, env, kid, answer))
    ensures
      var o := Receive(s.a, env, m, s.nonce, kid, answer);
      var a, b, net := FaceOf(o.zeta), FaceOf(s.b), Sent(s.net, o.sent);
      || (Seals(o) == {} && Early(a, b, {}, sb, net, s.nonce + 1))
      || (PairInv(a, b, net, s.nonce + 1) && !o.zeta.wasBob && Shared(a, b, Seals(o), sb, net, s.nonce + 1))
  {
    var o := Receive(s.a, env, m, s.nonce, kid, answer);
    WaitsA(s.a, FaceOf(s.b), sb, s.net, s.nonce, env, m, kid, answer);
    if Waits(s.a, o) {
      EarlyA(s.a, o, FaceOf(s.b), sb, s.net, s.nonce);
    } else {
      XkReceiveA(s.a, FaceOf(s.b), s.net, s.nonce, env, m, kid, answer);
      EarlyConfirmed(FaceOf(s.a), FaceOf(o.zeta), FaceOf(s.b), sb, s.net, s.nonce);
      ReceiveSpends(s.a, env, m, s.nonce, kid, answer);
      NowPaired(s.a, o, FaceOf(s.b), sb, s.net, s.nonce);
      hide Early, FaceOf, Receive, Shared, PairInv;
      SharedSent(s.a, o, FaceOf(s.b), {}, sb, s.net, s.nonce);
      assert {} + Seals(o) == Seals(o);
    }
  }

  lemma NowPaired(a: Zeta, o: Outcome, b: Face, sb: set<Packet>, net: set<Packet>, nonce: nat)
    requires Early(FaceOf(a), b, {}, sb, net, nonce) && !Ended(FaceOf(a)) && a.beta.A3?
    requires Switches(FaceOf(a), FaceOf(o.zeta))
    requires FaceInv(FaceOf(o.zeta), b, Sent(net, o.sent), nonce + 1)
    ensures PairInv(FaceOf(o.zeta), b, Sent(net, o.sent), nonce + 1) && !o.zeta.wasBob
  {
  }

  lemma EarlyStops(a: Zeta, b: Zeta, sb: set<Packet>, net: set<Packet>, nonce: nat)
    requires Early(FaceOf(a), FaceOf(b), {}, sb, net, nonce)
    ensures Early(FaceOf(Expire(a)), FaceOf(b), {}, sb, net, nonce)
    ensures Early(FaceOf(a), FaceOf(Expire(b)), {}, sb, net, nonce)
  {
    if XkInv(FaceOf(a), FaceOf(b), net, nonce) {
      XkStopA(a, FaceOf(b), net, nonce);
      XkStopB(FaceOf(a), b, net, nonce);
    }
    hide XkInv;
  }

  lemma EarlyForeign(s: Pair, sb: set<Packet>, m: Packet)
    requires Early(FaceOf(s.a), FaceOf(s.b), {}, sb, s.net, s.nonce) && IsForeign(s, m)
    ensures Early(FaceOf(s.a), FaceOf(s.b), {}, sb, s.net + {m}, s.nonce)
  {
    if XkInv(FaceOf(s.a), FaceOf(s.b), s.net, s.nonce) {
      XkForeign(FaceOf(s.a), FaceOf(s.b), s.net, s.nonce, m);
    }
    hide XkInv;
  }

  lemma NotItsKeys(f: Face, m: Packet)
    requires Pending(f) && m.Sealed? && NotOf(f, m)
    ensures m.key.kex != KexOf(f.nxt)
  {
    match m.key.lbl
    case Kek =>
    case Nk =>
  }

  lemma SharedForeign(s: Pair, sa: set<Packet>, sb: set<Packet>, m: Packet)
    requires Shared(FaceOf(s.a), FaceOf(s.b), sa, sb, s.net, s.nonce) && IsForeign(s, m)
    ensures Shared(FaceOf(s.a), FaceOf(s.b), sa, sb, s.net + {m}, s.nonce)
  {
    if m.Sealed? {
      if Pending(FaceOf(s.a)) { NotItsKeys(FaceOf(s.a), m); }
      if Pending(FaceOf(s.b)) { NotItsKeys(FaceOf(s.b), m); }
    }
  }

  lemma SharedStops(a: Zeta, b: Face, sa: set<Packet>, sb: set<Packet>, net: set<Packet>, nonce: nat)
    requires Shared(FaceOf(a), b, sa, sb, net, nonce)
    ensures Shared(FaceOf(Expire(a)), b, sa, sb, net, nonce)
  {
  }

  lemma SharedStep(s: Pair, sa: set<Packet>, sb: set<Packet>, e: Event)
    requires PairInv(FaceOf(s.a), FaceOf(s.b), s.net, s.nonce) && Enabled(s, e)
    requires Shared(FaceOf(s.a), FaceOf(s.b), sa, sb, s.net, s.nonce)
    ensures
      var t := Next(s, e);
      Shared(FaceOf(t.a), FaceOf(t.b), sa + SealedBy(s, e, true), sb + SealedBy(s, e, false), t.net, t.nonce)
  {
    hide FaceOf, Receive, Service, SendPayload, Expire, Shared, PairInv;
    var a, b, t := FaceOf(s.a), FaceOf(s.b), Next(s, e);
    PairInvSymmetric(a, b, s.net, s.nonce);
    SharedSymmetric(a, b, sa, sb, s.net, s.nonce);
    SharedSymmetric(FaceOf(t.a), FaceOf(t.b), sa + SealedBy(s, e, true), sb + SealedBy(s, e, false), t.net, t.nonce);
    assert sa + {} == sa && sb + {} == sb;
    match e
    case Deliver(atA, m, env, kid, answer) =>
      if atA { SharedReceive(s.a, b, sa, sb, s.net, s.nonce, env, m, kid, answer); }
      else { SharedReceive(s.b, a, sb, sa, s.net, s.nonce, env, m, kid, answer); }
    case Tick(atA, env, kid) =>
      if atA { SharedService(s.a, b, sa, sb, s.net, s.nonce, env, kid); }
      else { SharedService(s.b, a, sb, sa, s.net, s.nonce, env, kid); }
    case Transmit(atA, env) =>
      if atA { SharedPayload(s.a, b, sa, sb, s.net, s.nonce, env); }
      else { SharedPayload(s.b, a, sb, sa, s.net, s.nonce, env); }
    case Stop(atA) =>
      if atA { SharedStops(s.a, b, sa, sb, s.net, s.nonce); } else { SharedStops(s.b, a, sb, sa, s.net, s.nonce); }
    case Foreign(m) => SharedForeign(s, sa, sb, m);
  }

  lemma PlainStep(s: Pair, e: Event)
    requires Enabled(s, e) && PlainAttempt(s.a)
    ensures PlainAttempt(Next(s, e).a)
  {
    hide Receive, Service, SendPayload, Expire, PlainAttempt;
    match e
    case Deliver(atA, m, env, kid, answer) => PlainReceived(s.a, env, m, s.nonce, kid, answer);
    case Tick(atA, env, kid) => PlainOwn(s.a, env, s.nonce, kid);
    case Transmit(atA, env) => PlainOwn(s.a, env, 0, 0);
    case Stop(_) => PlainOwn(s.a, Env(Settings(0, 0, 0, 0, 0), 0, 0), 0, 0);
    case Foreign(_) =>
  }

  lemma SealPlain(s: Pair, sa: set<Packet>, sb: set<Packet>)
    requires SealInv(s, sa, sb)
    ensures PlainAttempt(s.b) && (Early(FaceOf(s.a), FaceOf(s.b), sa, sb, s.net, s.nonce) ==> sa == {})
  {
  }

  lemma SealStep(s: Pair, sa: set<Packet>, sb: set<Packet>, e: Event)
    requires SealInv(s, sa, sb) && Enabled(s, e)
    ensures SealInv(Next(s, e), sa + SealedBy(s, e, true), sb + SealedBy(s, e, false))
  {
    hide Early, Shared, PairInv, FaceOf, Next, SealedBy, PlainAttempt;
    SealPlain(s, sa, sb);
    CountersSpent(s, e, true);
    CountersSpent(s, e, false);
    PlainStep(s, e);
    if Early(FaceOf(s.a), FaceOf(s.b), sa, sb, s.net, s.nonce) {
      EarlyStep(s, sb, e);
      assert sa + SealedBy(s, e, true) == SealedBy(s, e, true);
    } else {
      SharedStep(s, sa, sb, e);
      PairStep(s, e);
    }
  }

  /** The confirmation with which the responder's session may have begun. */
  function First(s: Pair): set<Packet> { set m | m in s.net && m.Sealed? && SendsWith(FaceOf(s.b), m.key) }

  /** Everything a side has sealed before event `i`. */
  function SealedBefore(run: seq<Pair>, events: seq<Event>, i: nat, atA: bool): set<Packet>
    requires i < |run| && i <= |events| && forall j :: 0 <= j < i ==> Enabled(run[j], events[j])
  {
    if i == 0 then if atA then {} else First(run[0])
    else SealedBefore(run, events, i - 1, atA) + SealedBy(run[i - 1], events[i - 1], atA)
  }

  lemma InitSeals(s: Pair)
    requires Init(s)
    ensures SealInv(s, {}, First(s))
  {
    var kex, kidA, kidB :| Fresh(s, kex, kidA, kidB);
    assert FaceOf(s.b).cur == ResponderKey(kex, kidA, kidB);
  }

  lemma {:induction false} RunSeals(run: seq<Pair>, events: seq<Event>, i: nat)
    requires IsRun(run, events) && i < |run|
    ensures SealInv(run[i], SealedBefore(run, events, i, true), SealedBefore(run, events, i, false))
  {
    hide SealInv, Init, Next, Enabled, SealedBy;
    if i == 0 {
      InitSeals(run[0]);
    } else {
      RunSeals(run, events, i - 1);
      var sa, sb := SealedBefore(run, events, i - 1, true), SealedBefore(run, events, i - 1, false);
      SealStep(run[i - 1], sa, sb, events[i - 1]);
    }
  }

  /** In every state of every run, a packet that opens under a key one side receives with was sealed
      by the other side. */
  lemma OpensMeansSealed(run: seq<Pair>, events: seq<Event>, i: nat, atA: bool, m: Packet)
    requires IsRun(run, events) && i < |run|
    requires m in run[i].net && m.Sealed? && ReceivesWith(FaceOf(Side(run[i], atA)), m.key)
    ensures m in SealedBefore(run, events, i, !atA)
  {
    RunSeals(run, events, i);
    hide XkInv, PairInv, SealedBefore, IsRun;
  }

  /** The counter of what a side seals is above every counter it used before, under whatever keys, and
      the other side never sealed anything under the same key. */
  lemma NonceIsNew(run: seq<Pair>, events: seq<Event>, i: nat, atA: bool, m: Packet)
    requires IsRun(run, events) && i < |events| && m in SealedBy(run[i], events[i], atA)
    ensures m.Sealed?
    ensures forall n :: n in SealedBefore(run, events, i, atA) ==> n.Sealed? && n.counter < m.counter
    ensures forall n :: n in SealedBefore(run, events, i, !atA) ==> n.Sealed? && n.key != m.key
  {
    RunSeals(run, events, i);
    RunSeals(run, events, i + 1);
    hide Early, Shared, PairInv, SealedBefore, SealedBy, Next, Enabled, Init, FaceOf;
    var sa, sb := SealedBefore(run, events, i, true), SealedBefore(run, events, i, false);
    SealPlain(run[i], sa, sb);
    CountersSpent(run[i], events[i], atA);
    SealedNext(run, events, i);
    KeysApart(run[i + 1], sa + SealedBy(run[i], events[i], true), sb + SealedBy(run[i], events[i], false));
  }

  lemma SealedNext(run: seq<Pair>, events: seq<Event>, i: nat)
    requires IsRun(run, events) && i < |events|
    ensures forall atA ::
      SealedBefore(run, events, i + 1, atA) == SealedBefore(run, events, i, atA) + SealedBy(run[i], events[i], atA)
  {
    hide SealedBy, Enabled, Next, Init;
  }

  lemma KeysApart(s: Pair, sa: set<Packet>, sb: set<Packet>)
    requires SealInv(s, sa, sb)
    ensures forall m, n :: m in sa && n in sb ==> m.Sealed? && n.Sealed? && m.key != n.key
  {
    hide XkInv, PairInv;
  }

  /** So in a run no two seals share a key and a counter. */
  lemma NoNonceTwice(run: seq<Pair>, events: seq<Event>, i: nat, j: nat, atA: bool, atA': bool, m: Packet, n: Packet)
    requires IsRun(run, events) && i <= j < |events| && (i < j || atA != atA')
    requires m in SealedBy(run[i], events[i], atA) && n in SealedBy(run[j], events[j], atA')
    ensures m.Sealed? && n.Sealed? && (m.key != n.key || m.counter != n.counter)
  {
    hide SealedBy, Enabled, Next, Init;
    if i < j {
      SealedLater(run, events, i, j, atA, m);
      NonceIsNew(run, events, j, atA', n);
    } else {
      OneActs(run[i], events[i], m, n, atA);
    }
  }

  lemma OneActs(s: Pair, e: Event, m: Packet, n: Packet, atA: bool)
    requires Enabled(s, e) && m in SealedBy(s, e, atA)
    ensures n !in SealedBy(s, e, !atA)
  {
  }

  lemma {:induction false} SealedLater(run: seq<Pair>, events: seq<Event>, i: nat, j: nat, atA: bool, m: Packet)
    requires IsRun(run, events) && i < j < |run| && m in SealedBy(run[i], events[i], atA)
    ensures m in SealedBefore(run, events, j, atA)
  {
    hide SealedBy, Enabled, Next, Init;
    SealedNext(run, events, j - 1);
    if i < j - 1 { SealedLater(run, events, i, j - 1, atA, m); }
  }
}
