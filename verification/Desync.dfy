/** Exactly what keeps a common ratchet state: two short histories in which every step is possible,
    the timing is broken once, and the stored pairs end up with no ratchet state in common; and, for
    every reachable state, that a step can lead there if and only if it is not allowed. */
module Desync {
  import opened Wrappers
  import opened Ratchet
  import opened Zeta
  import opened RekeyPair
  import opened Ladders
  import opened Handshake
  import opened World

  const EARLY := Env(Settings(1, 1, 1, 1, 1), 0, 0)
  const LATE := Env(Settings(1, 1, 1, 1, 1), 10, 0)
  const YES := Accept(true, true, false, false)
  const FIRST := World(NoSession, NoSession.(wasBob := true), InitialStates, InitialStates, {}, {}, 0)

  /** The half-open handshakes and exchanges of two attempts. */
  const Q0 := StateB2(Empty, 0, 1, 10, 20)
  const Q1 := StateB2(Empty, 3, 4, 11, 21)

  /** The state after a first attempt whose third message is under way. */
  predicate AfterAttempt(w: World) {
    && w.a.beta == A3(X3(20, Q0.Exchange())) && Cur(w.a) == NoDuplexKey && Nxt(w.a).recv.kid == Some(10)
    && w.a.rs1 == NewRatchet(Q0.Exchange()) && w.a.rs2 == Some(Empty) && w.a.routes == {10} && w.a.timeoutTimer <= 10
    && w.sa == States(NewRatchet(Q0.Exchange()), Some(Empty)) && w.sb == InitialStates && w.nonce == 3
    && Q0 in w.b2 && X3(20, Q0.Exchange()) in w.net
    && Nxt(w.a) == InitiatorKey(Q0.Exchange(), 20, Some(10)) && Unseen(w.a, 0) && w.a.sendCounter == 0
    && w.b.beta.Null? && w.b2 == {Q0}
  }

  /** The counter window has not seen a counter from `c` on. */
  predicate Unseen(z: Zeta, c: nat) {
    |z.window| == WINDOW_LEN && forall i :: c <= i < WINDOW_LEN ==> z.window[i] == 0
  }

  lemma FirstAttempt() returns (w1: World, w2: World, w: World)
    ensures Possible(FIRST, Open(EARLY, 10)) && w1 == Take(FIRST, Open(EARLY, 10))
    ensures Possible(w1, HearX1(X1(0, 10, Empty, Empty), false, 20))
      && w2 == Take(w1, HearX1(X1(0, 10, Empty, Empty), false, 20))
    ensures Possible(w2, HearX2(X2Of(Q0), EARLY, true, 11, false))
      && w == Take(w2, HearX2(X2Of(Q0), EARLY, true, 11, false))
    ensures Careful(FIRST, Open(EARLY, 10)) && AfterAttempt(w)
  {
    w1 := Take(FIRST, Open(EARLY, 10));
    var x1 := X1(0, 10, Empty, Empty);
    assert w1.a.beta == A1(x1) && x1 in w1.net;
    w2 := Take(w1, HearX1(x1, false, 20));
    assert Q0 in w2.b2 && X2Of(Q0) in w2.net;
    w := Take(w2, HearX2(X2Of(Q0), EARLY, true, 11, false));
  }

  const R0 := NewRatchet(Q0.Exchange())
  const HELLO1 := X1(3, 11, R0, Empty)

  /** The initiator gives up while its third message is still under way, and starts over. */
  lemma SecondAttempt(w3: World) returns (w4: World, w5: World, w: World)
    requires AfterAttempt(w3)
    ensures Possible(w3, Timer(true, LATE, 11)) && w4 == Take(w3, Timer(true, LATE, 11))
    ensures Possible(w4, HearX1(HELLO1, false, 21)) && w5 == Take(w4, HearX1(HELLO1, false, 21))
    ensures Possible(w5, HearX2(X2Of(Q1), LATE, true, 12, false))
      && w == Take(w5, HearX2(X2Of(Q1), LATE, true, 12, false))
    ensures !NoneCompletes(w3.net, w3.b2)
    ensures w.sa == States(NewRatchet(Q1.Exchange()), Some(Empty)) && w.sb == InitialStates
    ensures Q0 in w.b2 && X3(20, Q0.Exchange()) in w.net
  {
    assert Completes(X3(20, Q0.Exchange()), Q0);
    w4 := Take(w3, Timer(true, LATE, 11));
    assert w4.a.beta == A1(HELLO1) && HELLO1 in w4.net;
    w5 := Take(w4, HearX1(HELLO1, false, 21));
    assert Q1 in w5.b2 && X2Of(Q1) in w5.net;
    w := Take(w5, HearX2(X2Of(Q1), LATE, true, 12, false));
  }

  /** The first attempt's third message arrives after the second attempt's response: seven steps,
      of which only the restart is careless, and no common ratchet state is left. */
  lemma LateThirdMessage() returns (ws: seq<World>, es: seq<Action>)
    ensures IsHistory(ws, es) && |es| == 7
    ensures forall i :: 0 <= i < 7 && i != 3 ==> Careful(ws[i], es[i])
    ensures es[3].Timer? && !NoneCompletes(ws[3].net, ws[3].b2) && !Careful(ws[3], es[3])
    ensures !Share(ws[7].sa, ws[7].sb)
  {
    hide Take;
    var w1, w2, w3 := FirstAttempt();
    var w4, w5, w6 := SecondAttempt(w3);
    var e6 := HearX3(X3(20, Q0.Exchange()), Q0, LATE, YES, false);
    var w7 := Take(w6, e6);
    Third(w6);
    ws := [FIRST, w1, w2, w3, w4, w5, w6, w7];
    es := [Open(EARLY, 10), HearX1(X1(0, 10, Empty, Empty), false, 20), HearX2(X2Of(Q0), EARLY, true, 11, false),
           Timer(true, LATE, 11), HearX1(HELLO1, false, 21), HearX2(X2Of(Q1), LATE, true, 12, false), e6];
  }

  lemma Third(w6: World)
    requires w6.sa == States(NewRatchet(Q1.Exchange()), Some(Empty)) && w6.sb == InitialStates
    requires Q0 in w6.b2 && X3(20, Q0.Exchange()) in w6.net
    ensures
      var w7 := Take(w6, HearX3(X3(20, Q0.Exchange()), Q0, LATE, YES, false));
      w7.sb == States(R0, None) && w7.sa == w6.sa
  {
  }

  // ---------- an answer to a rekey arrives after the initiator started over ----------

  const K0 := Q0.Exchange()
  const CONFIRM := Sealed(10, Key(K0, Kek, true), 0, C1)
  const ACK := Sealed(20, Key(K0, Kek, false), 0, C2)
  const REKEY := Sealed(10, Key(K0, Kek, true), 1, K1(6, R0, 22))
  const NEXT := Kex(6, 7, R0)
  const ANSWER := Sealed(20, Key(K0, Kek, false), 1, K2(NEXT, 12))
  const HELLO2 := X1(8, 13, NewRatchet(NEXT), R0)
  const Q2 := StateB2(Empty, 8, 9, 13, 23)

  const ACCEPT0 := HearX3(X3(20, K0), Q0, EARLY, YES, false)
  const E4 := Hear(true, CONFIRM, EARLY, 12, false)
  const E5 := Hear(false, ACK, EARLY, 22, false)
  const E6 := Timer(false, LATE, 22)
  const E7 := Hear(true, REKEY, EARLY, 12, false)
  const E9 := Open(EARLY, 13)
  const E10 := HearX1(HELLO2, false, 23)
  const E11 := HearX2(X2Of(Q2), EARLY, false, 14, false)
  const E12 := Hear(false, ANSWER, EARLY, 24, false)

  /** Both sides settled on the first exchange. */
  predicate InS2(z: Zeta, key: DuplexKey)
    requires key.recv.kid.Some?
  {
    && z.beta == S2 && z.rs1 == R0 && z.rs2 == None && z.sendCounter == 1 && Unseen(z, 1)
    && Cur(z) == key && Nxt(z) == NoDuplexKey && z.routes == {key.recv.kid.value} && z.timeoutTimer <= 10
  }

  const KEY_A := InitiatorKey(K0, 20, Some(10))
  const KEY_B := ResponderKey(K0, 10, 20)

  lemma Accepted(w3: World) returns (w: World)
    requires AfterAttempt(w3)
    ensures Possible(w3, ACCEPT0) && w == Take(w3, ACCEPT0)
    ensures w.b == NewSession(Q0, EARLY) && w.sb == States(R0, None) && w.a == w3.a && w.sa == w3.sa && w.nonce == 4
    ensures CONFIRM in w.net
  {
    w := Take(w3, ACCEPT0);
  }

  lemma Confirmed4(w4: World) returns (w: World)
    requires w4.a.beta.A3? && Cur(w4.a) == NoDuplexKey && Nxt(w4.a) == KEY_A && w4.a.routes == {10}
    requires w4.a.rs1 == R0 && w4.a.rs2 == Some(Empty) && w4.sa == States(R0, Some(Empty)) && Unseen(w4.a, 0)
    requires w4.a.sendCounter == 0 && CONFIRM in w4.net
    ensures Possible(w4, E4) && w == Take(w4, E4)
    ensures InS2(w.a, KEY_A) && w.sa == States(R0, None) && w.sb == w4.sb && w.b == w4.b
    ensures w.nonce == w4.nonce + 1 && ACK in w.net
  {
    assert UpdateWindow(w4.a, 0).Some? && UpdateWindow(w4.a, 0).value.beta == w4.a.beta;
    w := Take(w4, E4);
  }

  lemma Acked(w5: World) returns (w: World)
    requires w5.b == NewSession(Q0, EARLY) && ACK in w5.net
    ensures Possible(w5, E5) && w == Take(w5, E5)
    ensures InS2(w.b, KEY_B) && w.a == w5.a && w.sa == w5.sa && w.sb == w5.sb && w.nonce == w5.nonce + 1
  {
    w := Take(w5, E5);
  }

  predicate Rekeys(z: Zeta) {
    && z.beta == R1(6, K1(6, R0, 22)) && z.rs1 == R0 && z.rs2 == None && Unseen(z, 1)
    && Cur(z) == KEY_B && z.routes == {20, 22} && Nxt(z).recv.kid == Some(22)
  }

  lemma Rekeyed(w6: World) returns (w: World)
    requires InS2(w6.b, KEY_B) && w6.nonce == 6
    ensures Possible(w6, E6) && w == Take(w6, E6)
    ensures Rekeys(w.b) && REKEY in w.net && w.a == w6.a && w.sa == w6.sa && w.sb == w6.sb && w.nonce == 7
  {
    w := Take(w6, E6);
  }

  lemma Answered7(w7: World) returns (w8: World, w: World)
    requires InS2(w7.a, KEY_A) && REKEY in w7.net && w7.nonce == 7 && w7.sa == States(R0, None)
    ensures Possible(w7, E7) && w8 == Take(w7, E7) && Possible(w8, Halt(true)) && w == Take(w8, Halt(true))
    ensures w.a.beta == Null && w.sa == States(NewRatchet(NEXT), Some(R0)) && ANSWER in w.net && w.nonce == 8
    ensures w.b == w7.b && w.sb == w7.sb
  {
    w8 := Take(w7, E7);
    w := Take(w8, Halt(true));
  }

  lemma Reopened(w9: World) returns (w10: World, w11: World, w: World)
    requires w9.a.beta == Null && w9.sa == States(NewRatchet(NEXT), Some(R0)) && w9.nonce == 8
    requires w9.sb == States(R0, None)
    ensures Possible(w9, E9) && w10 == Take(w9, E9)
    ensures Possible(w10, E10) && w11 == Take(w10, E10)
    ensures Possible(w11, E11) && w == Take(w11, E11)
    ensures w.sa == States(NewRatchet(Q2.Exchange()), Some(R0)) && w.sb == w9.sb && w.b == w9.b && w9.net <= w.net
  {
    w10 := Take(w9, E9);
    assert w10.a.beta == A1(HELLO2) && HELLO2 in w10.net;
    w11 := Take(w10, E10);
    assert Q2 in w11.b2 && X2Of(Q2) in w11.net;
    w := Take(w11, E11);
  }

  lemma Advanced12(w12: World) returns (w: World)
    requires Rekeys(w12.b) && ANSWER in w12.net && w12.sb == States(R0, None)
    ensures Possible(w12, E12) && w == Take(w12, E12)
    ensures w.sb == States(NewRatchet(NEXT), None) && w.sa == w12.sa
  {
    w := Take(w12, E12);
  }

  lemma UnderWay(w: World)
    requires Rekeys(w.b) && ANSWER in w.net
    ensures !NoAnswer(FaceOf(w.b), w.b.window, w.net)
  {
    ReachNow(w.b.window, Steps(FaceOf(w.b), w.net), ANSWER.counter);
    assert Answers(FaceOf(w.b), w.b.window, w.net, ANSWER);
  }

  lemma Apart(w: World)
    requires w.sa == States(NewRatchet(Q2.Exchange()), Some(R0)) && w.sb == States(NewRatchet(NEXT), None)
    ensures !Share(w.sa, w.sb)
  {
  }

  /** A piece of a history. */
  predicate Piece(ws: seq<World>, es: seq<Action>) {
    && |ws| == |es| + 1
    && forall i :: 0 <= i < |es| ==> Possible(ws[i], es[i]) && ws[i + 1] == Take(ws[i], es[i])
  }

  /** The session is opened, established and acknowledged, and the responder starts a rekey. */
  lemma UntilRekey() returns (ws: seq<World>, es: seq<Action>)
    ensures |es| == 7 && Piece(ws, es) && ws[0] == FIRST && forall i :: 0 <= i < 7 ==> Careful(ws[i], es[i])
    ensures var w := ws[7];
      && InS2(w.a, KEY_A) && Rekeys(w.b) && REKEY in w.net && w.nonce == 7
      && w.sa == States(R0, None) && w.sb == States(R0, None)
  {
    hide Take, Possible, InS2, Rekeys;
    var w1, w2, w3 := FirstAttempt();
    var w4 := Accepted(w3);
    var w5 := Confirmed4(w4);
    var w6 := Acked(w5);
    var w7 := Rekeyed(w6);
    ws := [FIRST, w1, w2, w3, w4, w5, w6, w7];
    es := [Open(EARLY, 10), HearX1(X1(0, 10, Empty, Empty), false, 20), HearX2(X2Of(Q0), EARLY, true, 11, false),
           ACCEPT0, E4, E5, E6];
  }

  /** The rekey is answered, the initiator stops and starts over, and then the answer arrives. */
  lemma UntilAnswer(w7: World) returns (ws: seq<World>, es: seq<Action>)
    requires InS2(w7.a, KEY_A) && Rekeys(w7.b) && REKEY in w7.net && w7.nonce == 7
    requires w7.sa == States(R0, None) && w7.sb == States(R0, None)
    ensures |es| == 6 && Piece(ws, es) && ws[0] == w7 && forall i :: 0 <= i < 6 && i != 2 ==> Careful(ws[i], es[i])
    ensures es[2].Open? && !NoAnswer(FaceOf(ws[2].b), ws[2].b.window, ws[2].net) && !Share(ws[6].sa, ws[6].sb)
  {
    hide Take, Possible, InS2, Rekeys, NoAnswer, Share;
    var w8, w9 := Answered7(w7);
    var w10, w11, w12 := Reopened(w9);
    var w13 := Advanced12(w12);
    UnderWay(w9);
    Apart(w13);
    ws := [w7, w8, w9, w10, w11, w12, w13];
    es := [E7, Halt(true), E9, E10, E11, E12];
  }

  lemma PiecesJoin(us: seq<World>, ds: seq<Action>, vs: seq<World>, fs: seq<Action>)
    requires Piece(us, ds) && Piece(vs, fs) && us[|ds|] == vs[0]
    ensures Piece(us + vs[1..], ds + fs)
  {
    hide Take, Possible;
    var ws, es := us + vs[1..], ds + fs;
    forall i | 0 <= i <= |es| ensures ws[i] == if i <= |ds| then us[i] else vs[i - |ds|] {
    }
  }

  /** A rekey answered just before the initiator stops: the answer arrives after the initiator has
      opened a new session and heard the response. Thirteen steps, of which only the opening is
      careless, and no common ratchet state is left. */
  lemma LateAnswer() returns (ws: seq<World>, es: seq<Action>)
    ensures IsHistory(ws, es) && |es| == 13
    ensures forall i :: 0 <= i < 13 && i != 9 ==> Careful(ws[i], es[i])
    ensures es[9].Open? && !NoAnswer(FaceOf(ws[9].b), ws[9].b.window, ws[9].net)
    ensures !Share(ws[13].sa, ws[13].sb)
  {
    hide Take, Possible, InS2, Rekeys, NoAnswer, Share, Careful;
    var us, ds := UntilRekey();
    var vs, fs := UntilAnswer(us[7]);
    PiecesJoin(us, ds, vs, fs);
    ws, es := us + vs[1..], ds + fs;
  }

  // ---------- whenever it happens ----------

  /** The initiator has just started over: its Hello is on the network, it remembers what is stored,
      and the responder does not know its newest ratchet state. */
  predicate Restarted(w: World) {
    && w.a.beta.A1? && w.a.beta.x1.X1? && w.a.beta.x1 in w.net && w.a.beta.x1.rf1 == w.a.rs1
    && Nxt(w.a).recv.kid == Some(w.a.beta.x1.kid) && w.a.rs1 != Empty
    && w.sa == Memory(FaceOf(w.a)) && !Holds(w.sb, w.a.rs1)
  }

  /** The exchange that the attempt leads to: the responder finds no ratchet state to mix. */
  function NextExchange(w: World): Kex
    requires Restarted(w)
  {
    Kex(w.a.beta.x1.x, w.nonce, Empty)
  }

  ghost predicate Follows(w: World, e: Action, v: World) { Possible(w, e) && Careful(w, e) && v == Take(w, e) }

  /** The next two steps may lose the initiator's newest state. */
  lemma Reattempt(w: World, env: Env, kidA: Kid, kidB: Kid) returns (v: World, u: World)
    requires Restarted(w) && kidA !in KeptRoutes(w.a)
    ensures Follows(w, HearX1(w.a.beta.x1, false, kidB), v)
    ensures
      var q := StateB2(Empty, w.a.beta.x1.x, w.nonce, w.a.beta.x1.kid, kidB);
      Follows(v, HearX2(X2Of(q), env, false, kidA, false), u)
    ensures u.b == w.b && u.sb == w.sb && w.b2 <= u.b2 && w.net <= u.net
    ensures u.sa == States(NewRatchet(NextExchange(w)), w.sa.state2)
  {
    var x1 := w.a.beta.x1;
    assert PickRatchet(w.sb, x1) == None;
    var q := StateB2(Empty, x1.x, w.nonce, x1.kid, kidB);
    assert ReceivedX1(w.sb, x1, false, w.nonce, kidB) == Some(q);
    v := Take(w, HearX1(x1, false, kidB));
    assert v == w.(b2 := w.b2 + {q}, net := w.net + {X2Of(q)}, nonce := w.nonce + 1);
    assert TrialDecrypt(w.a, Empty, false) == Some(2);
    var save := Some(X2Request(w.a, q.Exchange(), 2));
    assert AnswerTo(w.sa, save, false) == Saved;
    u := Take(v, HearX2(X2Of(q), env, false, kidA, false));
  }

  /** In every state in which the initiator has started over while a third message of it can still
      complete, three more steps, careful ones, leave the stored pairs without a common state. */
  lemma CarelessThird(w: World, env: Env, kidA: Kid, kidB: Kid, x3: Packet, q: StateB2)
    returns (ws: seq<World>, es: seq<Action>)
    requires Restarted(w) && kidA !in KeptRoutes(w.a)
    requires x3 in w.net && q in w.b2 && Completes(x3, q) && x3.to == q.kidRecv && RatchetAccepted(w.sb, q, false)
    requires q.y != w.nonce && w.sa.state2 != Some(NewRatchet(q.Exchange()))
    ensures |es| == 3 && |ws| == 4 && ws[0] == w && forall i :: 0 <= i < 3 ==> Follows(ws[i], es[i], ws[i + 1])
    ensures es[0] == HearX1(w.a.beta.x1, false, kidB) && !es[1].HearX1? && !es[2].HearX1?
    ensures !Share(ws[3].sa, ws[3].sb)
  {
    var v, u := Reattempt(w, env, kidA, kidB);
    var e := HearX3(x3, q, env, Accept(true, false, false, false), false);
    var t := Take(u, e);
    assert t.sa == u.sa && t.sb == States(NewRatchet(q.Exchange()), None);
    ws := [w, v, u, t];
    es := [HearX1(w.a.beta.x1, false, kidB),
           HearX2(X2Of(StateB2(Empty, w.a.beta.x1.x, w.nonce, w.a.beta.x1.kid, kidB)), env, false, kidA, false), e];
  }

  /** The responder's session waits for an answer to its own rekey and would be allowed to take it. */
  predicate Waiting(b: Zeta, stored: States) {
    && b.beta.R1? && b.beta.k1.K1? && b.beta.k1.psk == b.rs1 && stored == Memory(FaceOf(b))
    && Cur(b).recv.kid.Some? && Cur(b).recv.kid.value in b.routes
    && Nxt(b).recv.kid.Some? && Nxt(b).recv.kid.value in b.routes
  }

  function Delivery(m: Packet, kid: Kid): Action { Hear(false, m, EARLY, kid, false) }

  /** Another packet that it takes meanwhile only moves its window. */
  lemma ClimbStep(u: World, p: Packet, kid: Kid)
    requires Waiting(u.b, u.sb) && p in u.net && Climbs(FaceOf(u.b), p) && !IsAnswer(FaceOf(u.b), p)
    requires |u.b.window| == WINDOW_LEN && WindowAccepts(u.b.window, p.counter) && kid !in KeptRoutes(u.b)
    ensures Possible(u, Delivery(p, kid))
    ensures var t := Take(u, Delivery(p, kid));
      && t.sa == u.sa && t.sb == u.sb && u.net <= t.net && FaceOf(t.b) == FaceOf(u.b)
      && t.b.window == Taken(u.b.window, p.counter) && KeptRoutes(t.b) == KeptRoutes(u.b) && Waiting(t.b, t.sb)
  {
    SlotIs(u.b, p.to);
    var r := HostReceive(u.b, u.sb, EARLY, p, u.nonce, kid, false);
    assert r.stored == u.sb && UpdateWindow(u.b, p.counter).Some?;
    SameFace(r.out.zeta, u.b);
  }

  lemma AnswerTaken(u: World, m: Packet, kid: Kid)
    requires Waiting(u.b, u.sb) && m in u.net && IsAnswer(FaceOf(u.b), m)
    requires |u.b.window| == WINDOW_LEN && WindowAccepts(u.b.window, m.counter) && kid !in KeptRoutes(u.b)
    ensures Possible(u, Delivery(m, kid))
    ensures var t := Take(u, Delivery(m, kid)); t.sa == u.sa && t.sb == States(NewRatchet(m.body.kex), None)
  {
  }

  /** If the window can be brought to accept an answer, deliveries make the responder take one. */
  lemma {:induction false} Climb(u: World, net: set<Packet>, cs: seq<nat>, m: Packet, kid: Kid)
    returns (ws: seq<World>, es: seq<Action>, p: Packet)
    requires Waiting(u.b, u.sb) && net <= u.net && m in net && IsAnswer(FaceOf(u.b), m) && kid !in KeptRoutes(u.b)
    requires Ladder(u.b.window, cs, m.counter) && Within(cs, Steps(FaceOf(u.b), net))
    ensures |ws| == |es| + 1 && |es| > 0 && ws[0] == u
    ensures forall i :: 0 <= i < |es| ==> Follows(ws[i], es[i], ws[i + 1]) && !es[i].HearX1?
    ensures p in net && Answers(FaceOf(u.b), u.b.window, net, p)
    ensures ws[|es|].sa == u.sa && ws[|es|].sb == States(NewRatchet(p.body.kex), None)
    decreases cs
  {
    hide Waiting, Take, Possible, FaceOf, KeptRoutes, WindowAccepts;
    if cs == [] {
      p := m;
      ReachNow(u.b.window, Steps(FaceOf(u.b), net), m.counter);
      AnswerTaken(u, m, kid);
      ws, es := [u, Take(u, Delivery(m, kid))], [Delivery(m, kid)];
    } else {
      assert cs[0] in Steps(FaceOf(u.b), net);
      var k :| k in net && Climbs(FaceOf(u.b), k) && k.Sealed? && k.counter == cs[0];
      var t := ClimbOn(u, k, kid);
      if IsAnswer(FaceOf(u.b), k) {
        p := k;
        ReachNow(u.b.window, Steps(FaceOf(u.b), net), k.counter);
        ws, es := [u, t], [Delivery(k, kid)];
      } else {
        var vs, fs;
        vs, fs, p := Climb(t, net, cs[1..], m, kid);
        ReachBefore(u.b.window, Steps(FaceOf(u.b), net), cs[0], p.counter);
        ws, es := [u] + vs, [Delivery(k, kid)] + fs;
      }
    }
  }

  lemma ClimbOn(u: World, k: Packet, kid: Kid) returns (t: World)
    requires Waiting(u.b, u.sb) && k in u.net && Climbs(FaceOf(u.b), k)
    requires |u.b.window| == WINDOW_LEN && WindowAccepts(u.b.window, k.counter) && kid !in KeptRoutes(u.b)
    ensures Follows(u, Delivery(k, kid), t)
    ensures IsAnswer(FaceOf(u.b), k) ==> t.sa == u.sa && t.sb == States(NewRatchet(k.body.kex), None)
    ensures !IsAnswer(FaceOf(u.b), k) ==>
      && t.sa == u.sa && u.net <= t.net && FaceOf(t.b) == FaceOf(u.b)
      && t.b.window == Taken(u.b.window, k.counter) && kid !in KeptRoutes(t.b) && Waiting(t.b, t.sb)
  {
    hide Waiting, Take, Possible, FaceOf, KeptRoutes, WindowAccepts, Climbs;
    if IsAnswer(FaceOf(u.b), k) {
      AnswerTaken(u, k, kid);
    } else {
      ClimbStep(u, k, kid);
    }
    t := Take(u, Delivery(k, kid));
  }

  /** So the stored pairs lose their common state from every state in which the initiator has started
      over while the responder can still be brought to take an answer to its own rekey, however far
      the answer is ahead of the window. */
  lemma CarelessAnswer(w: World, env: Env, kidA: Kid, kidB: Kid, kid: Kid, cs: seq<nat>, m: Packet)
    returns (ws: seq<World>, es: seq<Action>)
    requires Restarted(w) && kidA !in KeptRoutes(w.a) && kid !in KeptRoutes(w.b) && Waiting(w.b, w.sb)
    requires m in w.net && IsAnswer(FaceOf(w.b), m)
    requires Ladder(w.b.window, cs, m.counter) && Within(cs, Steps(FaceOf(w.b), w.net))
    requires forall p :: p in w.net && Answers(FaceOf(w.b), w.b.window, w.net, p) ==>
      p.body.kex.y != w.nonce && w.sa.state2 != Some(NewRatchet(p.body.kex))
    ensures |ws| == |es| + 1 && |es| >= 3 && ws[0] == w
    ensures forall i :: 0 <= i < |es| ==> Follows(ws[i], es[i], ws[i + 1])
    ensures es[0] == HearX1(w.a.beta.x1, false, kidB) && forall i :: 1 <= i < |es| ==> !es[i].HearX1?
    ensures !Share(ws[|es|].sa, ws[|es|].sb)
  {
    hide Waiting, Follows, Take, FaceOf, KeptRoutes;
    var v, u := Reattempt(w, env, kidA, kidB);
    var us, ds, p := Climb(u, w.net, cs, m, kid);
    ws := [w, v] + us;
    es := [HearX1(w.a.beta.x1, false, kidB),
           HearX2(X2Of(StateB2(Empty, w.a.beta.x1.x, w.nonce, w.a.beta.x1.kid, kidB)), env, false, kidA, false)] + ds;
    assert ws[|es|] == us[|ds|];
  }

  // ---------- exactly when ----------

  ghost predicate Continues(ws: seq<World>, es: seq<Action>, quiet: bool) {
    && |ws| == |es| + 1
    && forall i :: 0 <= i < |es| ==>
         Possible(ws[i], es[i]) && Allowed(ws[i], es[i], quiet) && ws[i + 1] == Take(ws[i], es[i])
  }

  /** Further allowed steps can lead to stored pairs without a common ratchet state. */
  ghost predicate CanLose(w: World, quiet: bool) {
    exists ws, es :: Loses(w, ws, es, quiet)
  }

  ghost predicate Loses(w: World, ws: seq<World>, es: seq<Action>, quiet: bool) {
    Continues(ws, es, quiet) && ws[0] == w && !Share(ws[|es|].sa, ws[|es|].sb)
  }

  lemma {:induction false} ContinuesInv(ws: seq<World>, es: seq<Action>, i: nat, quiet: bool)
    requires Continues(ws, es, quiet) && WorldInv(ws[0], quiet) && i < |ws|
    ensures WorldInv(ws[i], quiet)
  {
    hide WorldInv, Allowed, Possible, Take;
    if i > 0 {
      ContinuesInv(ws, es, i - 1, quiet);
      WorldStep(ws[i - 1], es[i - 1], quiet);
    }
  }

  lemma NothingLost(w: World, quiet: bool)
    requires WorldInv(w, quiet)
    ensures !CanLose(w, quiet)
  {
    hide WorldInv, Continues, Share;
    forall ws, es ensures !Loses(w, ws, es, quiet) {
      if Loses(w, ws, es, quiet) {
        ContinuesLength(ws, es, quiet);
        ContinuesInv(ws, es, |es|, quiet);
        InvShares(ws[|es|], quiet);
      }
    }
  }

  lemma ContinuesLength(ws: seq<World>, es: seq<Action>, quiet: bool)
    requires Continues(ws, es, quiet)
    ensures |ws| == |es| + 1
  {
  }

  lemma Unquiet(w: World)
    requires WorldInv(w, true)
    ensures WorldInv(w, false)
  {
    hide Secured, Attempt, Late, NoLateReply, Completed;
    if g :| Hello(w, g, true) { assert Hello(w, g, false); }
  }

  /** A third message that the responder will accept, and what it then stores. */
  predicate Deliverable(w: World, x3: Packet, q: StateB2) {
    && x3 in w.net && q in w.b2 && Completes(x3, q) && x3.to == q.kidRecv && RatchetAccepted(w.sb, q, false)
    && q.y != w.nonce && w.sa.state2 != Some(NewRatchet(q.Exchange()))
  }

  lemma LateThirdIs(w: World, g: RatchetState, x3: Packet, q: StateB2)
    requires Always(w) && Secured(w, g) && Late(w) && x3 in w.net && q in w.b2 && Completes(x3, q)
    ensures Deliverable(w, x3, q)
  {
    LateLacks(w, g);
    assert X2Of(q) in w.net;
    hide Guarded, NoLateReply, NoneCompletes;
  }

  /** The responder's session waits for an answer, and every one it can take is news to the initiator's
      second state. */
  lemma LateAnswerIs(w: World, g: RatchetState)
    requires Always(w) && Secured(w, g) && !NoLateReply(w.b, w.sb, w.net)
    ensures Waiting(w.b, w.sb)
    ensures forall p :: p in w.net && Answers(FaceOf(w.b), w.b.window, w.net, p) ==>
      p.body.kex.y != w.nonce && w.sa.state2 != Some(NewRatchet(p.body.kex))
  {
    LateLacks(w, g);
    var m :| m in w.net && LateReply(w.b, w.sb, w.net, m);
    GuardAwaited(w.b, w.sb, w.net, w.nonce, g, w.sa.state1, m);
    GuardBasics(w.b, w.sb, w.net, w.nonce, g, w.sa.state1);
    hide Reach;
  }

  /** An attempt under way while something is late has just been started over, in the sense above. */
  lemma LateRestarted(w: World, g: RatchetState, quiet: bool)
    requires Always(w) && Hello(w, g, quiet) && w.a.beta.A1? && w.sa == Memory(FaceOf(w.a)) && Late(w)
    ensures Restarted(w)
  {
    LateLacks(w, g);
    AttemptIs(w, g);
    MemoryIs(w.a);
    assert w.a.rs1 == w.sa.state1;
  }

  /** While something is late, an attempt that storage will accept can lead to the loss. */
  lemma LosingSteps(w: World, kidB: Kid) returns (ws: seq<World>, es: seq<Action>)
    requires WorldInv(w, false) && w.a.beta.A1? && w.sa == Memory(FaceOf(w.a)) && Late(w)
    ensures |ws| == |es| + 1 && |es| >= 3 && ws[0] == w
    ensures forall i :: 0 <= i < |es| ==> Follows(ws[i], es[i], ws[i + 1])
    ensures es[0] == HearX1(w.a.beta.x1, false, kidB) && forall i :: 1 <= i < |es| ==> !es[i].HearX1?
    ensures !Share(ws[|es|].sa, ws[|es|].sb)
  {
    hide WorldInv, Hello, Secured, Restarted, Deliverable, Follows, Share, Always, KeptRoutes, FaceOf, Waiting, Reach;
    InAttempt(w, false);
    var g :| Hello(w, g, false);
    AlwaysIs(w, false);
    HelloIs(w, g, false);
    LateRestarted(w, g, false);
    var kidA := KidOutside(KeptRoutes(w.a));
    var kid := KidOutside(KeptRoutes(w.b));
    if !NoneCompletes(w.net, w.b2) {
      var x3, q :| x3 in w.net && q in w.b2 && Completes(x3, q);
      LateThirdIs(w, g, x3, q);
      ws, es := LosingThird(w, kidA, kidB, x3, q);
    } else {
      LateAnswerIs(w, g);
      var m :| m in w.net && LateReply(w.b, w.sb, w.net, m);
      var cs := LadderOf(w.b.window, Steps(FaceOf(w.b), w.net), m.counter);
      ws, es := CarelessAnswer(w, EARLY, kidA, kidB, kid, cs, m);
    }
  }

  lemma LadderOf(window: seq<nat>, steps: set<nat>, c: nat) returns (cs: seq<nat>)
    requires Reach(window, steps, c)
    ensures Within(cs, steps) && Ladder(window, cs, c)
  {
    cs :| Within(cs, steps) && Ladder(window, cs, c);
  }

  lemma LosingThird(w: World, kidA: Kid, kidB: Kid, x3: Packet, q: StateB2) returns (ws: seq<World>, es: seq<Action>)
    requires Restarted(w) && kidA !in KeptRoutes(w.a) && Deliverable(w, x3, q)
    ensures |es| == 3 && |ws| == 4 && ws[0] == w && forall i :: 0 <= i < 3 ==> Follows(ws[i], es[i], ws[i + 1])
    ensures es[0] == HearX1(w.a.beta.x1, false, kidB) && !es[1].HearX1? && !es[2].HearX1?
    ensures !Share(ws[3].sa, ws[3].sb)
  {
    hide Restarted, Follows, Share, RatchetAccepted;
    ws, es := CarelessThird(w, EARLY, kidA, kidB, x3, q);
  }

  lemma AlwaysIs(w: World, quiet: bool)
    requires WorldInv(w, quiet)
    ensures Always(w)
  {
  }

  /** Starting over leaves what is late where it is. */
  lemma StartedOver(w: World, e: Action)
    requires Possible(w, e) && StartsOver(w, e) && Late(w)
    ensures
      var v := Take(w, e);
      v.a.beta.A1? && v.sa == Memory(FaceOf(v.a)) && Late(v)
  {
    var v := Take(w, e);
    assert v.b == w.b && v.sb == w.sb && v.b2 == w.b2 && v.net == w.net + {v.a.beta.x1};
    StepsSame(FaceOf(w.b), w.net, v.a.beta.x1);
    hide FaceOf, IsAnswer, Steps, Reach;
    if !NoneCompletes(w.net, w.b2) {
      var p, q :| p in w.net && q in w.b2 && Completes(p, q);
      assert p in v.net && q in v.b2;
    } else {
      var m :| m in w.net && LateReply(w.b, w.sb, w.net, m);
      assert m in v.net && LateReply(v.b, v.sb, v.net, m);
    }
  }

  lemma FollowsAllowed(w: World, e: Action, v: World, quiet: bool)
    requires Follows(w, e, v) && (e.HearX1? ==> quiet)
    ensures Possible(w, e) && Allowed(w, e, quiet) && v == Take(w, e)
  {
  }

  /** A restart while something is late, with the timing broken this once, can lead to the loss. */
  lemma RestartLoses(w: World, e: Action)
    requires WorldInv(w, true) && Possible(w, e) && !Careful(w, e)
    ensures CanLose(Take(w, e), true)
  {
    hide WorldInv, Share, Follows, Take, Possible, Late, StartsOver, Allowed;
    var v := Take(w, e);
    Unquiet(w);
    NotHeedless(w, e);
    WorldStep(w, e, false);
    StartedOver(w, e);
    var ws, es := LosingSteps(v, 0);
    forall i | 0 <= i < |es|
      ensures Possible(ws[i], es[i]) && Allowed(ws[i], es[i], true) && ws[i + 1] == Take(ws[i], es[i])
    {
      FollowsAllowed(ws[i], es[i], ws[i + 1], true);
    }
    assert Loses(v, ws, es, true);
  }

  lemma NotHeedless(w: World, e: Action)
    requires StartsOver(w, e)
    ensures Allowed(w, e, false)
  {
  }

  /** So can a heedless answer, whatever the timing was. */
  lemma HeedlessLoses(w: World, e: Action)
    requires WorldInv(w, false) && Possible(w, e) && Heedless(w, e)
    ensures CanLose(Take(w, e), false)
  {
    HeedlessIs(w, e);
    hide WorldInv, Share, Follows, Take, Possible, Late, Allowed;
    var ws, es := LosingSteps(w, e.kid);
    FollowsAllowed(ws[0], es[0], ws[1], true);
    forall i | 1 <= i < |es|
      ensures Possible(ws[i], es[i]) && Allowed(ws[i], es[i], false) && ws[i + 1] == Take(ws[i], es[i])
    {
      FollowsAllowed(ws[i], es[i], ws[i + 1], false);
    }
    assert Loses(Take(w, e), ws[1..], es[1..], false);
  }

  lemma HeedlessIs(w: World, e: Action)
    requires Heedless(w, e)
    ensures e == HearX1(w.a.beta.x1, false, e.kid)
  {
  }

  /** From every state that allowed steps reach, a step can lead to the loss of the common ratchet
      state by further allowed steps if and only if it is not allowed itself: with the timing, if and
      only if the initiator starts over, remembering what it has stored, while something is late;
      without it, if and only if the responder answers heedlessly. */
  lemma LosesExactly(w: World, e: Action, quiet: bool)
    requires WorldInv(w, quiet) && Possible(w, e)
    ensures CanLose(Take(w, e), quiet) <==> !Allowed(w, e, quiet)
  {
    hide WorldInv, CanLose, Take, Possible, Careful, Heedless;
    if Allowed(w, e, quiet) {
      WorldStep(w, e, quiet);
      NothingLost(Take(w, e), quiet);
    } else if quiet {
      RestartLoses(w, e);
    } else {
      HeedlessLoses(w, e);
    }
  }

  /** In a history: what has been allowed so far decides, step by step, what can still go wrong. */
  lemma HistoryLosesExactly(ws: seq<World>, es: seq<Action>, e: Action, quiet: bool)
    requires IsHistory(ws, es) && AllAllowed(ws, es, quiet)
    requires Possible(ws[|es|], e)
    ensures CanLose(Take(ws[|es|], e), quiet) <==> !Allowed(ws[|es|], e, quiet)
  {
    HistoryInv(ws, es, |es|, quiet);
    LosesExactly(ws[|es|], e, quiet);
  }
}
