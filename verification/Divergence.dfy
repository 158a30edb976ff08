/** When a session's memory and its storage part. A response is taken with whichever ratchet state it
    was made with. Memory then keeps the first state as its second one; so does storage if that state
    was used, and otherwise, also after a downgrade, storage keeps the second state it had. */
module Divergence {
  import opened Wrappers
  import opened Ratchet
  import opened Zeta
  import opened RekeyPair
  import opened Handshake
  import opened World
  import opened Desync

  /** The response was made with the session's first ratchet state, or with a second state equal to it. */
  predicate KeepsFirst(z: Zeta, x2: Packet)
    requires x2.X2?
  {
    x2.kex.psk == z.rs1 || z.rs2 == Some(z.rs1)
  }

  /** A response that the session takes. */
  predicate Acceptable(z: Zeta, x2: Packet, disallowDowngrade: bool) {
    && x2.X2? && z.beta.A1? && z.beta.x1.X1? && Nxt(z).recv.kid == Some(x2.to) && x2.kex.x == z.beta.x1.x
    && TrialDecrypt(z, x2.kex.psk, disallowDowngrade).Some?
  }

  /** Taking a response leaves memory equal to storage exactly when the first state was used. */
  lemma MemoryAfterResponse(w: World, x2: Packet, env: Env, disallowDowngrade: bool, kid: Kid)
    requires Acceptable(w.a, x2, disallowDowngrade) && w.sa == Memory(FaceOf(w.a))
    ensures
      var r := DoX2(w, x2, env, disallowDowngrade, kid, false);
      && r.out.zeta.beta.A3? && r.out.zeta.rs2 == Some(w.a.rs1) && r.stored.state1 == r.out.zeta.rs1
      && (r.stored == Memory(FaceOf(r.out.zeta)) <==> KeepsFirst(w.a, x2))
  {
  }

  /** A packet that confirms the exchange a session waits for. */
  predicate Confirms(z: Zeta, m: Packet) {
    && m.Sealed? && m.body.C1? && m.to in z.routes && Nxt(z).recv.kid == Some(m.to) && Nxt(z).recv.kek == Some(m.key)
    && UpdateWindow(z, m.counter).Some?
  }

  /** The confirmation establishes the session exactly when memory equals storage; otherwise it ends it. */
  lemma ConfirmationNeedsMemory(z: Zeta, stored: States, env: Env, m: Packet, y: nat, kid: Kid)
    requires z.beta.A3? && z.rs2.Some? && Confirms(z, m)
    ensures
      var r := HostReceive(z, stored, env, m, y, kid, false);
      && (r.out.zeta.beta.S2? <==> stored == Memory(FaceOf(z)))
      && (r.out.zeta.beta.S2? ==> r.stored == States(z.rs1, None))
      && (!r.out.zeta.beta.S2? ==> r.out.zeta.beta.Null? && r.stored == stored)
  {
    hide WindowAccepts;
  }

  /** A response and then its confirmation: the session is established exactly when the response was
      made with the first state, and ends otherwise, with the newest state stored in both cases. */
  lemma ConfirmedExactly(w: World, x2: Packet, env: Env, disallowDowngrade: bool, kid: Kid,
                         m: Packet, later: Env, y: nat, kidLater: Kid)
    requires Acceptable(w.a, x2, disallowDowngrade) && w.sa == Memory(FaceOf(w.a))
    requires x2.to in w.a.routes && m.Sealed? && m.body.C1? && m.to == x2.to && m.key == Key(x2.kex, Kek, true)
    requires UpdateWindow(w.a, m.counter).Some?
    ensures
      var r := DoX2(w, x2, env, disallowDowngrade, kid, false);
      var t := HostReceive(r.out.zeta, r.stored, later, m, y, kidLater, false);
      && (t.out.zeta.beta.S2? <==> KeepsFirst(w.a, x2)) && (t.out.zeta.beta.Null? <==> !KeepsFirst(w.a, x2))
      && t.stored.state1 == NewRatchet(x2.kex)
  {
    MemoryAfterResponse(w, x2, env, disallowDowngrade, kid);
    var r := DoX2(w, x2, env, disallowDowngrade, kid, false);
    assert r.out.zeta.window == w.a.window && r.out.zeta.routes == w.a.routes && r.out.zeta.rs1 == NewRatchet(x2.kex)
      && Nxt(r.out.zeta) == InitiatorKey(x2.kex, x2.kid, Some(x2.to));
    hide DoX2, HostReceive;
    ConfirmationNeedsMemory(r.out.zeta, r.stored, later, m, y, kidLater);
  }

  // ---------- a careful history in which the first confirmation ends the session ----------

  const HELLO3 := X1(4, 11, R0, Empty)
  const Q3 := StateB2(Empty, 4, 5, 11, 21)
  const K3 := Q3.Exchange()
  const CONFIRM3 := Sealed(11, Key(K3, Kek, true), 0, C1)

  /** The first attempt's half-open handshake is dropped, and the initiator starts over. */
  lemma Again(w3: World) returns (w4: World, w5: World)
    requires AfterAttempt(w3)
    ensures Possible(w3, Forget(Q0)) && w4 == Take(w3, Forget(Q0))
    ensures Possible(w4, Timer(true, LATE, 11)) && w5 == Take(w4, Timer(true, LATE, 11)) && !Late(w4)
    ensures w5.a.beta == A1(HELLO3) && HELLO3 in w5.net && Nxt(w5.a).recv.kid == Some(11) && w5.a.routes == {11}
    ensures w5.a.rs1 == R0 && w5.a.rs2 == Some(Empty) && w5.sa == States(R0, Some(Empty)) && w5.sb == InitialStates
    ensures w5.nonce == 5 && Unseen(w5.a, 0)
  {
    w4 := Take(w3, Forget(Q0));
    assert w4.b2 == {};
    w5 := Take(w4, Timer(true, LATE, 11));
  }

  /** The second response is made without a ratchet state. */
  lemma SecondResponse(w5: World) returns (w6: World, w7: World)
    requires w5.a.beta == A1(HELLO3) && HELLO3 in w5.net && Nxt(w5.a).recv.kid == Some(11) && w5.a.routes == {11}
    requires w5.a.rs1 == R0 && w5.a.rs2 == Some(Empty) && w5.sa == States(R0, Some(Empty)) && w5.sb == InitialStates
    requires w5.nonce == 5 && Unseen(w5.a, 0)
    ensures Possible(w5, HearX1(HELLO3, false, 21)) && w6 == Take(w5, HearX1(HELLO3, false, 21))
    ensures Possible(w6, HearX2(X2Of(Q3), LATE, true, 12, false))
      && w7 == Take(w6, HearX2(X2Of(Q3), LATE, true, 12, false))
    ensures w7.a.beta.A3? && w7.a.rs1 == NewRatchet(K3) && w7.a.rs2 == Some(R0)
    ensures w7.sa == States(NewRatchet(K3), Some(Empty)) && w7.sb == InitialStates
    ensures X3(21, K3) in w7.net && Q3 in w7.b2
    ensures Nxt(w7.a) == InitiatorKey(K3, 21, Some(11)) && w7.a.routes == {11} && Unseen(w7.a, 0)
  {
    w6 := Take(w5, HearX1(HELLO3, false, 21));
    assert Q3 in w6.b2 && X2Of(Q3) in w6.net;
    w7 := Take(w6, HearX2(X2Of(Q3), LATE, true, 12, false));
  }

  const TAKEN3 := HearX3(X3(21, K3), Q3, LATE, YES, false)
  const CONFIRMED3 := Hear(true, CONFIRM3, LATE, 13, false)

  lemma ThirdHeard(w7: World) returns (w8: World, w9: World)
    requires w7.a.beta.A3? && w7.a.rs1 == NewRatchet(K3) && w7.a.rs2 == Some(R0)
    requires w7.sa == States(NewRatchet(K3), Some(Empty)) && w7.sb == InitialStates
    requires X3(21, K3) in w7.net && Q3 in w7.b2
    requires Nxt(w7.a) == InitiatorKey(K3, 21, Some(11)) && w7.a.routes == {11} && Unseen(w7.a, 0)
    ensures Possible(w7, TAKEN3) && w8 == Take(w7, TAKEN3) && w8.a == w7.a && w8.b.beta.S1? && Confirms(w8.a, CONFIRM3)
    ensures Possible(w8, CONFIRMED3) && w9 == Take(w8, CONFIRMED3) && w9.a.beta.Null? && w9.sa == w7.sa
  {
    w8 := Take(w7, TAKEN3);
    assert w8.a == w7.a && w8.sa == w7.sa && CONFIRM3 in w8.net && Confirms(w8.a, CONFIRM3);
    ConfirmationNeedsMemory(w8.a, w8.sa, LATE, CONFIRM3, w8.nonce, 13);
    w9 := Take(w8, CONFIRMED3);
  }

  /** Nine possible and careful steps in which the first confirmation, although it opens under the
      awaited key and is within the window, ends the initiator's session. */
  lemma ConfirmationEnds() returns (ws: seq<World>, es: seq<Action>)
    ensures IsHistory(ws, es) && IsCareful(ws, es) && |es| == 9
    ensures ws[8].a.beta.A3? && ws[8].b.beta.S1? && es[8].Hear? && es[8].atA && Confirms(ws[8].a, es[8].m)
    ensures ws[9].a.beta.Null?
  {
    hide Take, Possible, Confirms, Late, AfterAttempt;
    var w1, w2, w3 := FirstAttempt();
    var w4, w5 := Again(w3);
    var w6, w7 := SecondResponse(w5);
    var w8, w9 := ThirdHeard(w7);
    ws := [FIRST, w1, w2, w3, w4, w5, w6, w7, w8, w9];
    es := [Open(EARLY, 10), HearX1(X1(0, 10, Empty, Empty), false, 20), HearX2(X2Of(Q0), EARLY, true, 11, false),
           Forget(Q0), Timer(true, LATE, 11), HearX1(HELLO3, false, 21), HearX2(X2Of(Q3), LATE, true, 12, false),
           TAKEN3, CONFIRMED3];
  }
}
