/** A responder's session and its storage while the initiator is not established with it: whatever is
    delivered, storage keeps one given ratchet state, or takes the one the initiator already stored. */
module Handshake {
  import opened Wrappers
  import opened Ratchet
  import opened Zeta
  import opened RekeyPair
  import opened Ladders

  // ---------- a responder session that outlives the initiator's ----------

  function Memory(f: Face): States { States(f.rs1, f.rs2) }

  /** An answer to this side's own K1 that it can still be brought to take. */
  ghost predicate Answers(b: Face, window: seq<nat>, net: set<Packet>, m: Packet) {
    IsAnswer(b, m) && Reach(window, Steps(b, net), m.counter)
  }

  ghost predicate NoAnswer(b: Face, window: seq<nat>, net: set<Packet>) {
    forall m :: m in net ==> !Answers(b, window, net, m)
  }

  predicate NoRekey(b: Face, net: set<Packet>) {
    forall m :: m in net && m.Sealed? && Some(m.key) == b.cur.recv.kek ==> !m.body.K1?
  }

  /** Every answer it can still take leads to the ratchet state `s`. With `Empty` there is none. */
  ghost predicate AnswersGive(b: Face, window: seq<nat>, net: set<Packet>, s: RatchetState) {
    forall m :: m in net && IsAnswer(b, m) ==>
      && Routed(b, b.nxt) && NoRekey(b, net)
      && (Reach(window, Steps(b, net), m.counter) ==> NewRatchet(m.body.kex) == s)
  }

  /** Whatever the network still holds, this session cannot make storage lose `g`, unless by taking
      a response that leads to `s`. */
  ghost predicate Holding(b: Face, window: seq<nat>, stored: States, net: set<Packet>, g: RatchetState,
                          s: RatchetState) {
    && stored == Memory(b)
    && (Settled(b) ==> g == b.rs1)
    && (Pending(b) ==> g == b.rs1 || (b.rs2 == Some(g) && Unused(net, b.nxt.recv.kek)))
    && AnswersGive(b, window, net, s)
  }

  /** Storage holds `g` and the responder's session, if alive, keeps it so: either its memory is
      out of date and every swap it requests is refused, or it is `Holding`. */
  ghost predicate Guarded(b: Face, window: seq<nat>, stored: States, net: set<Packet>, nonce: nat,
                          g: RatchetState, s: RatchetState) {
    && Holds(stored, g) && FreshBelow(net, nonce)
    && (b.beta.Null? || (&& Local(b) && Numbered(b, nonce)
                         && (b.rs1 != stored.state1 || Holding(b, window, stored, net, g, s))))
  }

  /** A response to the session's own rekey that storage would let it take. */
  ghost predicate LateReply(b: Zeta, stored: States, net: set<Packet>, m: Packet) {
    stored == Memory(FaceOf(b)) && Answers(FaceOf(b), b.window, net, m)
  }

  ghost predicate NoLateReply(b: Zeta, stored: States, net: set<Packet>) {
    forall m :: m in net ==> !LateReply(b, stored, net, m)
  }

  lemma GuardNoLate(b: Zeta, stored: States, net: set<Packet>, nonce: nat, g: RatchetState, s: RatchetState)
    requires Guarded(FaceOf(b), b.window, stored, net, nonce, g, s)
    ensures
      NoLateReply(b, stored, net) <==> Guarded(FaceOf(b), b.window, stored, net, nonce, g, Empty)
  {
    var f := FaceOf(b);
    if Guarded(f, b.window, stored, net, nonce, g, Empty) {
      forall m | m in net && LateReply(b, stored, net, m) ensures false {
      }
    } else {
      assert NoLateReply(b, stored, net) && stored == Memory(f) ==> NoAnswer(f, b.window, net);
    }
  }

  lemma GuardAny(b: Face, window: seq<nat>, stored: States, net: set<Packet>, nonce: nat, g: RatchetState,
                 s: RatchetState)
    requires Guarded(b, window, stored, net, nonce, g, Empty)
    ensures Guarded(b, window, stored, net, nonce, g, s)
  {
  }

  lemma GuardStop(b: Face, window: seq<nat>, stored: States, net: set<Packet>, nonce: nat, g: RatchetState,
                  s: RatchetState, routes: set<Kid>)
    requires Guarded(b, window, stored, net, nonce, g, s)
    ensures Guarded(b.(beta := Null, routes := routes), window, stored, net, nonce, g, s)
  {
  }

  lemma GuardNonce(b: Face, window: seq<nat>, stored: States, net: set<Packet>, nonce: nat, g: RatchetState,
                   s: RatchetState)
    requires Guarded(b, window, stored, net, nonce, g, s)
    ensures Guarded(b, window, stored, net, nonce + 1, g, s)
  {
  }

  lemma GuardSend(b: Face, window: seq<nat>, stored: States, net: set<Packet>, nonce: nat, g: RatchetState,
                  s: RatchetState, m: Packet)
    requires Guarded(b, window, stored, net, nonce, g, s) && !b.beta.Null? && m.Sealed?
    requires Some(m.key) == b.cur.send.kek || Some(m.key) == b.cur.send.nk
    requires (m.body.K1? ==> m.body.x < nonce) && (m.body.K2? ==> m.body.kex.x < nonce && m.body.kex.y < nonce)
    ensures Guarded(b, window, stored, net + {m}, nonce, g, s)
  {
    StepsSame(b, net, m);
  }

  lemma GuardAcked(b: Face, window: seq<nat>, stored: States, net: set<Packet>, nonce: nat, g: RatchetState,
                   s: RatchetState)
    requires Guarded(b, window, stored, net, nonce, g, s) && b.beta.S1?
    ensures Guarded(b.(beta := S2), window, stored, net, nonce, g, s)
  {
  }

  lemma GuardConfirmed(b: Face, window: seq<nat>, stored: States, net: set<Packet>, nonce: nat, g: RatchetState,
                       s: RatchetState, m: Packet)
    requires Guarded(b, window, stored, net, nonce, g, s) && b.beta.R2? && stored == Memory(b)
    requires m in net && m.Sealed? && b.nxt.recv.kek == Some(m.key)
    ensures
      Guarded(b.(beta := S2, cur := b.nxt, nxt := b.cur, rs2 := None), window, States(b.rs1, None), net, nonce, g, s)
  {
  }

  lemma GuardStarted(b: Face, window: seq<nat>, stored: States, net: set<Packet>, nonce: nat, g: RatchetState,
                     s: RatchetState, kid: Kid, routes: set<Kid>)
    requires Guarded(b, window, stored, net, nonce, g, s) && b.beta.S2?
    requires Some(kid) != b.cur.recv.kid && kid in routes && b.cur.recv.kid.value in routes
    ensures
      var k1 := K1(nonce, b.rs1, kid);
      var b1 := b.(beta := R1(nonce, k1), nxt := b.nxt.(recv := b.nxt.recv.(kid := Some(kid))), routes := routes);
      Guarded(b1, window, stored, net, nonce + 1, g, s)
  {
  }

  lemma GuardAnswered(b: Face, window: seq<nat>, stored: States, net: set<Packet>, nonce: nat, g: RatchetState,
                      s: RatchetState, k1: Body, kid: Kid, routes: set<Kid>)
    requires Guarded(b, window, stored, net, nonce, g, s) && stored == Memory(b) && k1.K1? && k1.x < nonce
    requires b.beta.S2? || b.beta.R1?
    requires Some(kid) != b.cur.recv.kid && kid in routes && b.cur.recv.kid.value in routes
    ensures
      var kex := Kex(k1.x, nonce, b.rs1);
      var b1 := b.(beta := R2(K2(kex, kid)), nxt := ResponderKey(kex, k1.kid, kid),
                   rs1 := NewRatchet(kex), rs2 := Some(b.rs1), routes := routes);
      Guarded(b1, window, Memory(b1), net, nonce + 1, g, s)
  {
  }

  // ---------- a session and its host's storage ----------

  /** A transition together with the storage it leaves behind. */
  datatype Reply = Reply(out: Outcome, stored: States)

  function Commit(stored: States, save: Option<CompareAndSwap>, answer: SaveResult): States {
    if save.Some? then Stored(stored, save.value, answer) else stored
  }

  function AnswerTo(stored: States, save: Option<CompareAndSwap>, ioError: bool): SaveResult {
    if save.Some? then Respond(stored, save.value, ioError) else Saved
  }

  /** A sealed packet reaches a session whose host answers its storage request. */
  function HostReceive(z: Zeta, stored: States, env: Env, m: Packet, y: nat, kid: Kid, ioError: bool): Reply
    requires m.Sealed?
  {
    var save := Receive(z, env, m, y, kid, Saved).save;
    var answer := AnswerTo(stored, save, ioError);
    Reply(Receive(z, env, m, y, kid, answer), Commit(stored, save, answer))
  }

  predicate Uses(f: Face, y: nat) {
    || (f.cur.send.kek.Some? && f.cur.send.kek.value.kex.y == y)
    || (f.nxt.send.kek.Some? && f.nxt.send.kek.value.kex.y == y)
  }

  predicate Drawn(r: RatchetState, nonce: nat) { r.Derived? && r.kex.y == nonce }

  /** A move uses no key but its own and one drawn now, stores no ratchet state but its own and one
      drawn now, and seals under its own key. */
  ghost predicate Modest(b: Face, stored: States, r: Reply, nonce: nat) {
    && (forall y :: Uses(FaceOf(r.out.zeta), y) ==> Uses(b, y) || y == nonce)
    && (forall g :: Holds(r.stored, g) ==> Holds(stored, g) || Drawn(g, nonce))
    && (r.out.sent.Some? ==> r.out.sent.value.Sealed? && Uses(b, r.out.sent.value.key.kex.y))
  }

  /** What the responder's move has to leave behind while the initiator is not established. */
  ghost predicate Guards(b: Face, stored: States, net: set<Packet>, nonce: nat, g: RatchetState, s: RatchetState,
                         r: Reply) {
    && Guarded(FaceOf(r.out.zeta), r.out.zeta.window, r.stored, Sent(net, r.out.sent), nonce + 1, g, s)
    && Modest(b, stored, r, nonce)
  }

  lemma SameFace(z: Zeta, b: Zeta)
    requires z.key0 == b.key0 && z.key1 == b.key1 && z.keyIndex == b.keyIndex && z.beta == b.beta
    requires z.rs1 == b.rs1 && z.rs2 == b.rs2 && z.routes == b.routes && z.wasBob == b.wasBob
    ensures FaceOf(z) == FaceOf(b) && Cur(z) == Cur(b) && Nxt(z) == Nxt(b)
  {
  }

  lemma FaceParts(z: Zeta)
    ensures
      var f := FaceOf(z);
      && f.beta == z.beta && f.cur == Cur(z) && f.nxt == Nxt(z) && f.rs1 == z.rs1 && f.rs2 == z.rs2
      && f.wasBob == z.wasBob && f.routes == z.routes
  {
  }

  lemma MemoryIs(z: Zeta)
    ensures Memory(FaceOf(z)) == States(z.rs1, z.rs2)
  {
  }

  // What a transition does to the slots, one building block at a time.

  lemma SameSlots(z: Zeta, c: nat, body: Body, kid: Kid)
    ensures FaceOf(SendControl(z, body).0) == FaceOf(z)
    ensures UpdateWindow(z, c).Some? ==> FaceOf(UpdateWindow(z, c).value) == FaceOf(z)
    ensures var f := FaceOf(Expire(z)); f == FaceOf(z).(beta := Null, routes := f.routes)
    ensures var f := FaceOf(Remap(z, kid)); f == FaceOf(z).(routes := f.routes)
  {
  }

  lemma AnsweringSlots(z: Zeta, env: Env, kex: Kex, send: Kid, recv: Kid)
    ensures
      var f := FaceOf(Answering(z, env, kex, send, recv));
      f.cur == FaceOf(z).cur && f.nxt == ResponderKey(kex, send, recv)
        && Memory(f) == States(NewRatchet(kex), Some(z.rs1))
  {
  }

  lemma ConfirmedSlots(z: Zeta, env: Env)
    ensures
      var f := FaceOf(Confirmed(z, env));
      f.cur == FaceOf(z).nxt && f.nxt == FaceOf(z).cur && Memory(f) == States(z.rs1, None)
  {
  }

  lemma AdvancingSlots(z: Zeta, env: Env, kex: Kex, send: Kid)
    ensures
      var f := FaceOf(Advancing(z, env, kex, send));
      && f.cur == InitiatorKey(kex, send, FaceOf(z).nxt.recv.kid) && f.nxt == FaceOf(z).cur
      && Memory(f) == States(NewRatchet(kex), z.rs2)
  {
  }

  /** A control packet is sealed under the key of the current slot. */
  lemma SentUnder(z: Zeta, body: Body)
    ensures
      var sent := SendControl(z, body).1;
      sent.Some? ==>
        sent.value.Sealed? && FaceOf(z).cur.send.kek == Some(sent.value.key)
  {
  }

  /** Taking note of a counter that answers may climb over makes no further one reachable. */
  lemma GuardCounted(b: Zeta, stored: States, net: set<Packet>, nonce: nat, g: RatchetState, s: RatchetState, c: nat)
    requires Guarded(FaceOf(b), b.window, stored, net, nonce, g, s) && UpdateWindow(b, c).Some?
    requires stored == Memory(FaceOf(b)) ==>
      forall m :: m in net && IsAnswer(FaceOf(b), m) ==> c in Steps(FaceOf(b), net)
    ensures
      var z := UpdateWindow(b, c).value;
      && FaceOf(z) == FaceOf(b) && KeptRoutes(z) == KeptRoutes(b)
      && Guarded(FaceOf(z), z.window, stored, net, nonce, g, s)
      && Guarded(FaceOf(z), z.window, stored, net, nonce + 1, g, s)
  {
    var z := UpdateWindow(b, c).value;
    SameFace(z, b);
    assert z.window == Taken(b.window, c);
    var steps := Steps(FaceOf(b), net);
    forall m | m in net && m.Sealed? && c in steps && Reach(z.window, steps, m.counter)
      ensures Reach(b.window, steps, m.counter)
    {
      ReachBefore(b.window, steps, c, m.counter);
    }
  }

  /** The slot as the transition functions find it. */
  lemma SlotIs(b: Zeta, to: Kid)
    ensures var slot := SlotOf(b, to);
      Slot(FaceOf(b), to) == if slot.Some? then KeyRef(b, slot.value) else NoDuplexKey
  {
  }

  /** Where a K1 of the peer is under way there is no answer of it. */
  lemma GuardNoAnswers(b: Zeta, stored: States, net: set<Packet>, nonce: nat, g: RatchetState, s: RatchetState,
                       m: Packet)
    requires Guarded(FaceOf(b), b.window, stored, net, nonce, g, s) && stored == Memory(FaceOf(b))
    requires m in net && m.Sealed? && m.body.K1? && Cur(b).recv.kek == Some(m.key)
    ensures forall p :: p in net ==> !IsAnswer(FaceOf(b), p)
  {
    forall p | p in net && IsAnswer(FaceOf(b), p) ensures false {
    }
  }

  lemma GuardControl(b: Zeta, stored: States, net: set<Packet>, nonce: nat, g: RatchetState, s: RatchetState,
                     body: Body)
    requires Guarded(FaceOf(b), b.window, stored, net, nonce, g, s) && !b.beta.Null?
    requires (body.K1? ==> body.x < nonce) && (body.K2? ==> body.kex.x < nonce && body.kex.y < nonce)
    ensures
      var (z, m) := SendControl(b, body);
      Guarded(FaceOf(z), z.window, stored, Sent(net, m), nonce, g, s) && FaceOf(z) == FaceOf(b)
  {
    var (z, m) := SendControl(b, body);
    assert FaceOf(z) == FaceOf(b);
    if m.Some? {
      GuardSend(FaceOf(b), b.window, stored, net, nonce, g, s, m.value);
    }
  }

  /** A session that stops keeps everything, wherever its window stands. */
  lemma GuardExpire(b: Zeta, stored: States, net: set<Packet>, nonce: nat, g: RatchetState, s: RatchetState, z: Zeta)
    requires Guarded(FaceOf(b), b.window, stored, net, nonce, g, s) && z.rs1 == b.rs1 && z.rs2 == b.rs2
    ensures Guarded(FaceOf(Expire(z)), Expire(z).window, stored, net, nonce + 1, g, s)
  {
  }

  /** What the lemmas below use of `Guarded` for a live session. */
  lemma GuardBasics(b: Zeta, stored: States, net: set<Packet>, nonce: nat, g: RatchetState, s: RatchetState)
    requires Guarded(FaceOf(b), b.window, stored, net, nonce, g, s) && !b.beta.Null?
    ensures !b.beta.A1? && !b.beta.A3? && Cur(b).recv.kid.Some? && Cur(b).recv.kid.value in b.routes
    ensures b.rs1 == stored.state1 ==> stored == Memory(FaceOf(b))
    ensures b.beta.R1? ==> b.beta.k1.K1? && b.beta.k1.x < nonce
    ensures b.beta.R2? ==> b.beta.k2.K2? && b.beta.k2.kex.x < nonce && b.beta.k2.kex.y < nonce && b.rs2.Some?
    ensures !b.beta.R2? ==> b.rs2.None?
    ensures Cur(b).recv.kid != Nxt(b).recv.kid && (b.beta.R2? ==> IsKey(Nxt(b)))
    ensures IsKey(Cur(b)) && FreshBelow(net, nonce)
    ensures Guarded(FaceOf(b), b.window, stored, net, nonce + 1, g, s)
  {
  }

  lemma GuardConfirm(b: Zeta, stored: States, net: set<Packet>, nonce: nat, g: RatchetState, s: RatchetState,
                     env: Env, m: Packet)
    requires Guarded(FaceOf(b), b.window, stored, net, nonce, g, s) && b.beta.R2? && stored == Memory(FaceOf(b))
    requires m in net && m.Sealed? && Nxt(b).recv.kek == Some(m.key)
    ensures
      var (z, c2) := SendControl(Confirmed(b, env), C2);
      Guarded(FaceOf(z), z.window, States(b.rs1, None), Sent(net, c2), nonce, g, s)
  {
    hide Guarded;
    GuardConfirmed(FaceOf(b), b.window, stored, net, nonce, g, s, m);
    GuardControl(Confirmed(b, env), States(b.rs1, None), net, nonce, g, s, C2);
  }

  lemma GuardC1(b: Zeta, stored: States, net: set<Packet>, nonce: nat, g: RatchetState, s: RatchetState, env: Env,
                m: Packet, io: bool)
    requires Guarded(FaceOf(b), b.window, stored, net, nonce, g, s) && m in net && m.Sealed? && m.body.C1?
      && !b.beta.Null?
    ensures
      var answer := AnswerTo(stored, Some(C1Request(b)), io);
      var o := ReceivedC1(b, env, m.to, m.key, m.counter, answer);
      Guarded(FaceOf(o.zeta), o.zeta.window, Commit(stored, o.save, answer), Sent(net, o.sent), nonce + 1, g, s)
  {
    hide Guarded;
    GuardBasics(b, stored, net, nonce, g, s);
    SlotIs(b, m.to);
    var w := UpdateWindow(b, m.counter);
    if w.Some? && Climbs(FaceOf(b), m) {
      var z := w.value;
      StepsIn(FaceOf(b), net, m);
      GuardCounted(b, stored, net, nonce, g, s, m.counter);
      GuardControl(z, stored, net, nonce + 1, g, s, C2);
      GuardExpire(b, stored, net, nonce, g, s, z);
      if b.beta.R2? && Nxt(b).recv.kek == Some(m.key) && stored == Memory(FaceOf(b)) {
        GuardConfirm(z, stored, net, nonce + 1, g, s, env, m);
      }
    }
  }

  lemma GuardK1(b: Zeta, stored: States, net: set<Packet>, nonce: nat, g: RatchetState, s: RatchetState, env: Env,
                m: Packet, kid: Kid, io: bool)
    requires Guarded(FaceOf(b), b.window, stored, net, nonce, g, s) && m in net && m.Sealed? && m.body.K1?
      && !b.beta.Null?
    requires kid !in KeptRoutes(b)
    ensures
      var answer := AnswerTo(stored, Some(K1Request(b, Kex(m.body.x, nonce, b.rs1))), io);
      var o := ReceivedK1(b, env, m.to, m.key, m.counter, m.body, nonce, kid, answer);
      Guarded(FaceOf(o.zeta), o.zeta.window, Commit(stored, o.save, answer), Sent(net, o.sent), nonce + 1, g, s)
  {
    hide Guarded;
    GuardBasics(b, stored, net, nonce, g, s);
    var w := UpdateWindow(b, m.counter);
    if w.Some? && RekeysAsBob(b) && Cur(b).recv.kek == Some(m.key) {
      var z := w.value;
      if stored == Memory(FaceOf(b)) { GuardNoAnswers(b, stored, net, nonce, g, s, m); }
      GuardCounted(b, stored, net, nonce, g, s, m.counter);
      GuardExpire(b, stored, net, nonce, g, s, z);
      GuardRemap(z, stored, net, nonce, g, s, m, kid);
      GuardExpire(b, stored, net, nonce, g, s, Remap(z, kid));
      if stored == Memory(FaceOf(b)) {
        GuardAnswer(z, stored, net, nonce, g, s, env, m, kid);
      }
    }
  }

  lemma GuardRemap(b: Zeta, stored: States, net: set<Packet>, nonce: nat, g: RatchetState, s: RatchetState,
                   m: Packet, kid: Kid)
    requires Guarded(FaceOf(b), b.window, stored, net, nonce, g, s) && RekeysAsBob(b) && kid !in KeptRoutes(b)
    requires m in net && m.Sealed? && m.body.K1? && Cur(b).recv.kek == Some(m.key)
    ensures Guarded(FaceOf(Remap(b, kid)), Remap(b, kid).window, stored, net, nonce, g, s)
    ensures Guarded(FaceOf(Remap(b, kid)), Remap(b, kid).window, stored, net, nonce + 1, g, s)
  {
    var z := Remap(b, kid);
    assert FaceOf(z) == FaceOf(b).(routes := z.routes);
    assert stored == Memory(FaceOf(b)) ==> forall p :: p in net ==> !IsAnswer(FaceOf(z), p) by {
      if stored == Memory(FaceOf(b)) { GuardNoAnswers(b, stored, net, nonce, g, s, m); }
    }
  }

  lemma GuardAnswer(b: Zeta, stored: States, net: set<Packet>, nonce: nat, g: RatchetState, s: RatchetState, env: Env,
                    m: Packet, kid: Kid)
    requires Guarded(FaceOf(b), b.window, stored, net, nonce, g, s) && RekeysAsBob(b) && kid !in KeptRoutes(b)
    requires m in net && m.Sealed? && m.body.K1? && stored == Memory(FaceOf(b))
    ensures
      var kex := Kex(m.body.x, nonce, b.rs1);
      var (z, k2) := SendControl(Answering(Remap(b, kid), env, kex, m.body.kid, kid), K2(kex, kid));
      Guarded(FaceOf(z), z.window, States(NewRatchet(kex), Some(b.rs1)), Sent(net, k2), nonce + 1, g, s)
  {
    hide Guarded;
    GuardBasics(b, stored, net, nonce, g, s);
    var kex := Kex(m.body.x, nonce, b.rs1);
    var z := Answering(Remap(b, kid), env, kex, m.body.kid, kid);
    GuardAnswered(FaceOf(b), b.window, stored, net, nonce, g, s, m.body, kid, Remap(b, kid).routes);
    GuardControl(z, Memory(FaceOf(z)), net, nonce + 1, g, s, K2(kex, kid));
  }

  /** A response to this side's K1 that it will not take, or that storage refuses. */
  lemma GuardK2(b: Zeta, stored: States, net: set<Packet>, nonce: nat, g: RatchetState, s: RatchetState,
                env: Env, m: Packet, io: bool)
    requires Guarded(FaceOf(b), b.window, stored, net, nonce, g, s) && !b.beta.Null?
    requires m in net && m.Sealed? && m.body.K2? && !LateReply(b, stored, net, m)
    ensures
      var answer := AnswerTo(stored, Some(K2Request(b, m.body.kex)), io);
      var o := ReceivedK2(b, env, m.to, m.key, m.counter, m.body, answer);
      && Guarded(FaceOf(o.zeta), o.zeta.window, Commit(stored, o.save, answer), Sent(net, o.sent), nonce + 1, g, s)
      && o.sent == None && (o.save.Some? ==> answer != Saved)
      && Cur(o.zeta) == Cur(b) && Nxt(o.zeta) == Nxt(b)
  {
    hide Guarded;
    GuardRekeying(b, stored, net, nonce, g, s, m);
    GuardBasics(b, stored, net, nonce, g, s);
    var w := UpdateWindow(b, m.counter);
    if w.Some? {
      GuardExpire(b, stored, net, nonce, g, s, w.value);
      if stored != Memory(FaceOf(b)) { GuardCounted(b, stored, net, nonce, g, s, m.counter); }
    }
  }

  /** What a response that storage would let it take finds. */
  lemma GuardAwaited(b: Zeta, stored: States, net: set<Packet>, nonce: nat, g: RatchetState, s: RatchetState, m: Packet)
    requires Guarded(FaceOf(b), b.window, stored, net, nonce, g, s)
    requires m in net && m.Sealed? && LateReply(b, stored, net, m)
    ensures b.beta.R1? && b.beta.k1.K1? && b.beta.k1.psk == m.body.kex.psk && b.beta.x == m.body.kex.x
    ensures stored == States(b.rs1, b.rs2) && Cur(b).recv.kid == Some(m.to) && Cur(b).recv.kek == Some(m.key)
    ensures NewRatchet(m.body.kex) == s && !Holds(stored, s)
  {
    assert ChainLen(NewRatchet(m.body.kex)) == ChainLen(b.rs1) + 1;
  }

  /** What makes a response acceptable to a session whose memory is stored. */
  lemma GuardRekeying(b: Zeta, stored: States, net: set<Packet>, nonce: nat, g: RatchetState, s: RatchetState,
                      m: Packet)
    requires Guarded(FaceOf(b), b.window, stored, net, nonce, g, s) && m in net && m.Sealed? && m.body.K2?
    ensures
      && b.beta.R1? && Cur(b).recv.kid == Some(m.to) && Cur(b).recv.kek == Some(m.key)
      && UpdateWindow(b, m.counter).Some? && b.beta.k1.K1?
      && m.body.kex.x == b.beta.x && m.body.kex.psk == b.beta.k1.psk && stored == Memory(FaceOf(b)) ==>
        LateReply(b, stored, net, m)
  {
    if UpdateWindow(b, m.counter).Some? { ReachNow(b.window, Steps(FaceOf(b), net), m.counter); }
  }

  /** Every request of a session expects its first state to be stored. */
  lemma RequestsFirst(z: Zeta, env: Env, m: Packet, y: nat, kid: Kid)
    requires m.Sealed?
    ensures var save := Receive(z, env, m, y, kid, Saved).save; save.Some? ==> save.value.cur1 == z.rs1
  {
    hide WindowAccepts, SendControl;
  }

  /** An outcome with the session's first ratchet state, whose request is the one `asked`. */
  predicate Unsaved(z: Zeta, o: Outcome, asked: Outcome) { o.zeta.rs1 == z.rs1 && o.save == asked.save }

  lemma UnsavedC1(z: Zeta, env: Env, m: Packet, answer: SaveResult)
    requires m.Sealed?
    ensures
      var asked := ReceivedC1(z, env, m.to, m.key, m.counter, Saved);
      (answer == Saved ==> asked.save == None) ==>
        Unsaved(z, ReceivedC1(z, env, m.to, m.key, m.counter, answer), asked)
  {
    hide WindowAccepts;
  }

  lemma UnsavedK1(z: Zeta, env: Env, m: Packet, y: nat, kid: Kid, answer: SaveResult)
    requires m.Sealed? && m.body.K1?
    ensures
      var asked := ReceivedK1(z, env, m.to, m.key, m.counter, m.body, y, kid, Saved);
      (answer == Saved ==> asked.save == None) ==>
        Unsaved(z, ReceivedK1(z, env, m.to, m.key, m.counter, m.body, y, kid, answer), asked)
  {
    hide WindowAccepts, SendControl, Answering;
  }

  lemma UnsavedK2(z: Zeta, env: Env, m: Packet, answer: SaveResult)
    requires m.Sealed? && m.body.K2?
    ensures
      var asked := ReceivedK2(z, env, m.to, m.key, m.counter, m.body, Saved);
      (answer == Saved ==> asked.save == None) ==>
        Unsaved(z, ReceivedK2(z, env, m.to, m.key, m.counter, m.body, answer), asked)
  {
    hide WindowAccepts, SendControl, Advancing;
  }

  lemma UnsavedKeeps(z: Zeta, env: Env, m: Packet, y: nat, kid: Kid, answer: SaveResult)
    requires m.Sealed? && (answer == Saved ==> Receive(z, env, m, y, kid, Saved).save == None)
    ensures Unsaved(z, Receive(z, env, m, y, kid, answer), Receive(z, env, m, y, kid, Saved))
  {
    hide ReceivedC1, ReceivedK1, ReceivedK2, WindowAccepts;
    match m.body
    case C1 => UnsavedC1(z, env, m, answer);
    case K1(_, _, _) => UnsavedK1(z, env, m, y, kid, answer);
    case K2(_, _) => UnsavedK2(z, env, m, answer);
    case _ =>
  }

  /** A session whose first ratchet state is not the stored one leaves storage as it is, whatever it
      hears, and stays so. */
  lemma StaleHarmless(z: Zeta, stored: States, env: Env, m: Packet, y: nat, kid: Kid, io: bool)
    requires m.Sealed? && z.rs1 != stored.state1
    ensures var r := HostReceive(z, stored, env, m, y, kid, io); r.stored == stored && r.out.zeta.rs1 == z.rs1
  {
    hide Receive;
    RequestsFirst(z, env, m, y, kid);
    UnsavedKeeps(z, env, m, y, kid, AnswerTo(stored, Receive(z, env, m, y, kid, Saved).save, io));
  }

  /** The session took the response `m`. */
  predicate Advanced(b: Zeta, r: Reply, m: Packet)
    requires m.Sealed? && m.body.K2?
  {
    && r.stored == States(NewRatchet(m.body.kex), None) && r.out.zeta.beta.S1?
    && Cur(r.out.zeta) == InitiatorKey(m.body.kex, m.body.kid, Nxt(b).recv.kid) && Nxt(r.out.zeta) == Cur(b)
    && (r.out.sent.Some? ==> r.out.sent.value.Sealed? && r.out.sent.value.key == Key(m.body.kex, Kek, false))
  }

  lemma GuardAdvancing(b: Zeta, stored: States, net: set<Packet>, nonce: nat, g: RatchetState, s: RatchetState,
                       env: Env, m: Packet)
    requires Guarded(FaceOf(b), b.window, stored, net, nonce, g, s)
    requires m in net && m.Sealed? && LateReply(b, stored, net, m)
    requires UpdateWindow(b, m.counter).Some?
    ensures
      var z := Advancing(UpdateWindow(b, m.counter).value, env, m.body.kex, m.body.kid);
      && NewRatchet(m.body.kex) == s && Guarded(FaceOf(z), z.window, States(s, None), net, nonce + 1, s, Empty)
      && z.beta.S1? && Cur(z) == InitiatorKey(m.body.kex, m.body.kid, Nxt(b).recv.kid) && Nxt(z) == Cur(b)
  {
  }

  lemma GuardAdvanced(b: Zeta, stored: States, net: set<Packet>, nonce: nat, g: RatchetState, s: RatchetState,
                      env: Env, m: Packet)
    requires Guarded(FaceOf(b), b.window, stored, net, nonce, g, s)
    requires m in net && m.Sealed? && LateReply(b, stored, net, m)
    requires UpdateWindow(b, m.counter).Some?
    ensures
      var (z, c1) := SendControl(Advancing(UpdateWindow(b, m.counter).value, env, m.body.kex, m.body.kid), C1);
      && NewRatchet(m.body.kex) == s
      && Guarded(FaceOf(z), z.window, States(s, None), Sent(net, c1), nonce + 1, s, Empty)
      && Advanced(b, Reply(Outcome(z, c1, None, Done), States(s, None)), m)
  {
    hide Guarded, Advancing, UpdateWindow;
    GuardAdvancing(b, stored, net, nonce, g, s, env, m);
    var z := Advancing(UpdateWindow(b, m.counter).value, env, m.body.kex, m.body.kid);
    GuardControl(z, States(s, None), net, nonce + 1, s, Empty, C1);
  }

  /** A response that storage would let the session take: it is ignored, or taken. */
  lemma GuardLate(b: Zeta, stored: States, net: set<Packet>, nonce: nat, g: RatchetState, s: RatchetState,
                  env: Env, m: Packet, io: bool)
    requires Guarded(FaceOf(b), b.window, stored, net, nonce, g, s) && m in net && m.Sealed? && m.body.K2?
      && LateReply(b, stored, net, m)
    ensures
      var answer := AnswerTo(stored, Some(K2Request(b, m.body.kex)), io);
      var o := ReceivedK2(b, env, m.to, m.key, m.counter, m.body, answer);
      var r := Reply(o, Commit(stored, o.save, answer));
      || (&& Guarded(FaceOf(o.zeta), o.zeta.window, stored, net, nonce + 1, g, s) && o.sent == None
          && r.stored == stored && Cur(o.zeta) == Cur(b) && Nxt(o.zeta) == Nxt(b))
      || (&& Advanced(b, r, m) && NewRatchet(m.body.kex) == s
          && Guarded(FaceOf(o.zeta), o.zeta.window, r.stored, Sent(net, o.sent), nonce + 1, s, Empty))
  {
    hide Guarded, Reach, Advancing, SendControl, Steps;
    GuardAwaited(b, stored, net, nonce, g, s, m);
    StepsIn(FaceOf(b), net, m);
    GuardBasics(b, stored, net, nonce, g, s);
    var w := UpdateWindow(b, m.counter);
    if w.Some? {
      GuardCounted(b, stored, net, nonce, g, s, m.counter);
      GuardAdvanced(b, stored, net, nonce, g, s, env, m);
    }
  }

  // The reply of a host, by the kind of packet.

  lemma HostC1(z: Zeta, stored: States, env: Env, m: Packet, y: nat, kid: Kid, io: bool)
    requires m.Sealed? && m.body.C1? && m.to in z.routes
    ensures
      var answer := AnswerTo(stored, Some(C1Request(z)), io);
      var o := ReceivedC1(z, env, m.to, m.key, m.counter, answer);
      HostReceive(z, stored, env, m, y, kid, io) == Reply(o, Commit(stored, o.save, answer))
  {
  }

  lemma HostK1(z: Zeta, stored: States, env: Env, m: Packet, y: nat, kid: Kid, io: bool)
    requires m.Sealed? && m.body.K1? && m.to in z.routes
    ensures
      var answer := AnswerTo(stored, Some(K1Request(z, Kex(m.body.x, y, z.rs1))), io);
      var o := ReceivedK1(z, env, m.to, m.key, m.counter, m.body, y, kid, answer);
      HostReceive(z, stored, env, m, y, kid, io) == Reply(o, Commit(stored, o.save, answer))
  {
  }

  lemma HostK2(z: Zeta, stored: States, env: Env, m: Packet, y: nat, kid: Kid, io: bool)
    requires m.Sealed? && m.body.K2? && m.to in z.routes
    ensures
      var answer := AnswerTo(stored, Some(K2Request(z, m.body.kex)), io);
      var o := ReceivedK2(z, env, m.to, m.key, m.counter, m.body, answer);
      HostReceive(z, stored, env, m, y, kid, io) == Reply(o, Commit(stored, o.save, answer))
  {
  }

  lemma ModestC1(b: Zeta, stored: States, nonce: nat, env: Env, m: Packet, io: bool)
    requires m.Sealed? && IsKey(Cur(b)) && !b.beta.A3? && (b.beta.R2? ==> IsKey(Nxt(b)))
    ensures
      var answer := AnswerTo(stored, Some(C1Request(b)), io);
      var o := ReceivedC1(b, env, m.to, m.key, m.counter, answer);
      Modest(FaceOf(b), stored, Reply(o, Commit(stored, o.save, answer)), nonce)
  {
  }

  lemma ModestK1(b: Zeta, stored: States, nonce: nat, env: Env, m: Packet, kid: Kid, io: bool)
    requires m.Sealed? && m.body.K1? && IsKey(Cur(b))
    ensures
      var answer := AnswerTo(stored, Some(K1Request(b, Kex(m.body.x, nonce, b.rs1))), io);
      var o := ReceivedK1(b, env, m.to, m.key, m.counter, m.body, nonce, kid, answer);
      Modest(FaceOf(b), stored, Reply(o, Commit(stored, o.save, answer)), nonce)
  {
    hide SendControl, UpdateWindow, Expire, Remap, Answering, FaceOf;
    MemoryIs(b);
    SameSlots(b, m.counter, C1, kid);
    FaceParts(b);
    var w := UpdateWindow(b, m.counter);
    if w.Some? {
      var kex := Kex(m.body.x, nonce, b.rs1);
      var r := Remap(w.value, kid);
      var z := Answering(r, env, kex, m.body.kid, kid);
      SameSlots(w.value, m.counter, C1, kid);
      SameSlots(r, m.counter, C1, kid);
      AnsweringSlots(r, env, kex, m.body.kid, kid);
      SameSlots(z, 0, K2(kex, kid), kid);
      SentUnder(z, K2(kex, kid));
    }
  }

  lemma ModestSame(b: Face, stored: States, r: Reply, nonce: nat)
    requires Cur(r.out.zeta) == b.cur && Nxt(r.out.zeta) == b.nxt && r.stored == stored && r.out.sent == None
    ensures Modest(b, stored, r, nonce)
  {
  }

  lemma ModestSending(b: Zeta, stored: States, r: Reply, nonce: nat)
    requires Cur(r.out.zeta) == Cur(b) && Nxt(r.out.zeta) == Nxt(b) && r.stored == stored && IsKey(Cur(b))
    requires r.out.sent.Some? ==>
      && r.out.sent.value.Sealed?
      && (Some(r.out.sent.value.key) == Cur(b).send.kek || Some(r.out.sent.value.key) == Cur(b).send.nk)
    ensures Modest(FaceOf(b), stored, r, nonce)
  {
  }

  lemma ModestTimers(b: Zeta, stored: States, nonce: nat, env: Env)
    requires IsKey(Cur(b)) && !b.beta.A1? && !b.beta.A3?
    ensures Modest(FaceOf(b), stored, Reply(Resend(b, env), stored), nonce)
    ensures Modest(FaceOf(b), stored, Reply(SendPayload(b, env), stored), nonce)
  {
    hide Modest;
    ModestSending(b, stored, Reply(Resend(b, env), stored), nonce);
    ModestSending(b, stored, Reply(SendPayload(b, env), stored), nonce);
  }

  lemma ModestOthers(b: Zeta, stored: States, nonce: nat, env: Env, m: Packet, kid: Kid, io: bool)
    requires m.Sealed? && (m.body.C2? || m.body.D? || m.body.Data? || m.to !in b.routes)
    ensures Modest(FaceOf(b), stored, HostReceive(b, stored, env, m, nonce, kid, io), nonce)
  {
    hide Modest;
    ModestSame(FaceOf(b), stored, HostReceive(b, stored, env, m, nonce, kid, io), nonce);
  }

  /** The packets that at most move the window, acknowledge, or confirm that this side's C1 came. */
  lemma OthersMove(b: Zeta, stored: States, env: Env, m: Packet, y: nat, kid: Kid, io: bool)
    requires m.Sealed? && !b.beta.A3? && (m.body.C2? || m.body.D? || m.body.Data? || m.to !in b.routes)
    ensures
      var r := HostReceive(b, stored, env, m, y, kid, io);
      var w := UpdateWindow(b, m.counter);
      && r.stored == stored && r.out.sent == None
      && (|| r.out.zeta == b
          || (w.Some? && r.out.zeta == w.value && Climbs(FaceOf(b), m))
          || (w.Some? && b.beta.S1? && FaceOf(r.out.zeta) == FaceOf(w.value).(beta := S2)
              && r.out.zeta.window == w.value.window))
  {
    hide UpdateWindow;
    SlotIs(b, m.to);
  }

  lemma GuardOthers(b: Zeta, stored: States, net: set<Packet>, nonce: nat, g: RatchetState, s: RatchetState,
                    env: Env, m: Packet, kid: Kid, io: bool)
    requires Guarded(FaceOf(b), b.window, stored, net, nonce, g, s) && m in net && m.Sealed? && !b.beta.Null?
    requires m.body.C2? || m.body.D? || m.body.Data? || m.to !in b.routes
    ensures Guards(FaceOf(b), stored, net, nonce, g, s, HostReceive(b, stored, env, m, nonce, kid, io))
  {
    hide Guarded, Modest, HostReceive, FaceOf, UpdateWindow, Climbs;
    GuardBasics(b, stored, net, nonce, g, s);
    ModestOthers(b, stored, nonce, env, m, kid, io);
    OthersMove(b, stored, env, m, nonce, kid, io);
    FaceParts(b);
    if UpdateWindow(b, m.counter).Some? && (b.beta.S1? || Climbs(FaceOf(b), m)) {
      if Climbs(FaceOf(b), m) { StepsIn(FaceOf(b), net, m); }
      GuardCounted(b, stored, net, nonce, g, s, m.counter);
      var z := UpdateWindow(b, m.counter).value;
      if b.beta.S1? { GuardAcked(FaceOf(z), z.window, stored, net, nonce + 1, g, s); }
    }
  }

  /** What taking a response to its own rekey leaves behind. */
  ghost predicate TakesAnswer(b: Zeta, stored: States, net: set<Packet>, nonce: nat, s: RatchetState, m: Packet,
                              r: Reply) {
    && LateReply(b, stored, net, m) && NewRatchet(m.body.kex) == s && Advanced(b, r, m)
    && Guarded(FaceOf(r.out.zeta), r.out.zeta.window, r.stored, Sent(net, r.out.sent), nonce + 1, s, Empty)
  }

  lemma GuardReceive(b: Zeta, stored: States, net: set<Packet>, nonce: nat, g: RatchetState, s: RatchetState,
                     env: Env, m: Packet, kid: Kid, io: bool)
    requires Guarded(FaceOf(b), b.window, stored, net, nonce, g, s) && m in net && m.Sealed? && !b.beta.Null?
    requires kid !in KeptRoutes(b)
    ensures
      var r := HostReceive(b, stored, env, m, nonce, kid, io);
      Guards(FaceOf(b), stored, net, nonce, g, s, r) || TakesAnswer(b, stored, net, nonce, s, m, r)
  {
    hide Guarded, Modest, HostReceive, ReceivedC1, ReceivedK1, ReceivedK2, LateReply, Advanced;
    GuardBasics(b, stored, net, nonce, g, s);
    if m.to in b.routes && m.body.C1? {
      GuardC1(b, stored, net, nonce, g, s, env, m, io);
      HostC1(b, stored, env, m, nonce, kid, io);
      ModestC1(b, stored, nonce, env, m, io);
    } else if m.to in b.routes && m.body.K1? {
      GuardK1(b, stored, net, nonce, g, s, env, m, kid, io);
      HostK1(b, stored, env, m, nonce, kid, io);
      ModestK1(b, stored, nonce, env, m, kid, io);
    } else if m.to in b.routes && m.body.K2? {
      GuardAnswerHeard(b, stored, net, nonce, g, s, env, m, kid, io);
    } else {
      GuardOthers(b, stored, net, nonce, g, s, env, m, kid, io);
    }
  }

  lemma GuardAnswerHeard(b: Zeta, stored: States, net: set<Packet>, nonce: nat, g: RatchetState, s: RatchetState,
                         env: Env, m: Packet, kid: Kid, io: bool)
    requires Guarded(FaceOf(b), b.window, stored, net, nonce, g, s) && !b.beta.Null?
    requires m in net && m.Sealed? && m.to in b.routes && m.body.K2?
    ensures
      var r := HostReceive(b, stored, env, m, nonce, kid, io);
      Guards(FaceOf(b), stored, net, nonce, g, s, r) || TakesAnswer(b, stored, net, nonce, s, m, r)
  {
    hide Guarded, Modest, HostReceive, ReceivedK2, LateReply;
    var r := HostReceive(b, stored, env, m, nonce, kid, io);
    HostK2(b, stored, env, m, nonce, kid, io);
    if LateReply(b, stored, net, m) {
      GuardLate(b, stored, net, nonce, g, s, env, m, io);
      GuardAwaited(b, stored, net, nonce, g, s, m);
      if r.stored == stored { ModestSame(FaceOf(b), stored, r, nonce); }
    } else {
      GuardK2(b, stored, net, nonce, g, s, env, m, io);
      ModestSame(FaceOf(b), stored, r, nonce);
    }
  }

  lemma GuardStart(b: Zeta, stored: States, net: set<Packet>, nonce: nat, g: RatchetState, s: RatchetState, env: Env,
                   kid: Kid)
    requires Guarded(FaceOf(b), b.window, stored, net, nonce, g, s) && b.beta.S2? && kid !in KeptRoutes(b)
    ensures
      var (z, k1) := SendControl(Rekeying(b, env, nonce, kid), K1(nonce, b.rs1, kid));
      Guards(FaceOf(b), stored, net, nonce, g, s, Reply(Outcome(z, k1, None, Done), stored))
  {
    hide Guarded;
    GuardBasics(b, stored, net, nonce, g, s);
    GuardStarted(FaceOf(b), b.window, stored, net, nonce, g, s, kid, Remap(b, kid).routes);
    GuardControl(Rekeying(b, env, nonce, kid), stored, net, nonce + 1, g, s, K1(nonce, b.rs1, kid));
  }

  lemma GuardResend(b: Zeta, stored: States, net: set<Packet>, nonce: nat, g: RatchetState, s: RatchetState, env: Env)
    requires Guarded(FaceOf(b), b.window, stored, net, nonce, g, s) && !b.beta.Null?
    ensures Guards(FaceOf(b), stored, net, nonce, g, s, Reply(Resend(b, env), stored))
  {
    hide Guarded, Modest, FaceOf, SendControl;
    GuardBasics(b, stored, net, nonce, g, s);
    ModestTimers(b, stored, nonce, env);
    var z := b.(resendTimer := env.now + env.settings.resendTime);
    SameFace(z, b);
    match b.beta
    case S1 => GuardControl(z, stored, net, nonce + 1, g, s, C1);
    case S2 =>
    case R1(_, k1) => GuardControl(z, stored, net, nonce + 1, g, s, k1);
    case R2(k2) => GuardControl(z, stored, net, nonce + 1, g, s, k2);
  }

  lemma GuardService(b: Zeta, stored: States, net: set<Packet>, nonce: nat, g: RatchetState, s: RatchetState,
                     env: Env, kid: Kid)
    requires Guarded(FaceOf(b), b.window, stored, net, nonce, g, s) && !b.beta.Null? && kid !in KeptRoutes(b)
    ensures Guards(FaceOf(b), stored, net, nonce, g, s, Reply(Service(b, env, nonce, kid), stored))
  {
    hide Guarded;
    GuardBasics(b, stored, net, nonce, g, s);
    if b.timeoutTimer <= env.now {
      GuardExpire(b, stored, net, nonce, g, s, b);
      if b.beta.S2? {
        GuardStart(b, stored, net, nonce, g, s, env, kid);
      }
    } else if b.resendTimer <= env.now {
      GuardResend(b, stored, net, nonce, g, s, env);
    }
  }

  /** Sending a payload ends the session, or leaves all but its counter and a timer as they are. */
  lemma PayloadMoves(b: Zeta, env: Env)
    requires !b.beta.Null?
    ensures var o := SendPayload(b, env);
      || (o.zeta == Expire(b) && o.sent == None)
      || (&& FaceOf(o.zeta) == FaceOf(b) && o.zeta.window == b.window
          && (o.sent.Some? ==>
                && o.sent.value.Sealed? && o.sent.value.body.Data?
                && Some(o.sent.value.key) == Cur(b).send.nk))
  {
    var o := SendPayload(b, env);
    if CanSend(b) && b.sendCounter < U64_MAX { SameFace(o.zeta, b); }
  }

  lemma GuardPayload(b: Zeta, stored: States, net: set<Packet>, nonce: nat, g: RatchetState, s: RatchetState, env: Env)
    requires Guarded(FaceOf(b), b.window, stored, net, nonce, g, s) && !b.beta.Null?
    ensures Guards(FaceOf(b), stored, net, nonce, g, s, Reply(SendPayload(b, env), stored))
  {
    hide Guarded, Modest, FaceOf, Expire, SendPayload;
    GuardBasics(b, stored, net, nonce, g, s);
    GuardExpire(b, stored, net, nonce, g, s, b);
    ModestTimers(b, stored, nonce, env);
    PayloadMoves(b, env);
    FaceParts(b);
    var o := SendPayload(b, env);
    if o.sent.Some? {
      GuardSend(FaceOf(b), b.window, stored, net, nonce + 1, g, s, o.sent.value);
    }
  }
}
