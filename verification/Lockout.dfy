/** Whether the common ratchet state can still be used. A responder that insists on a ratchet state it
    recognises looks up the first one offered only. Once it lacks the initiator's first state, and
    nothing is late that would give it that state, no attempt ever completes again, although the two
    stored pairs still share a state. */
module Lockout {
  import opened Wrappers
  import opened Ratchet
  import opened Zeta
  import opened RekeyPair
  import opened Ladders
  import opened Handshake
  import opened World
  import opened Desync

  predicate Insists(e: Action) { e.HearX1? ==> e.requireRatchet }

  predicate Insisting(ws: seq<World>, es: seq<Action>) {
    Piece(ws, es) && forall i :: 0 <= i < |es| ==> Insists(es[i])
  }

  /** Both ends have finished a handshake: the initiator waits for the confirmation, under the keys and
      the ratchet state that the responder's new session has. */
  predicate Handshaken(w: World) {
    && w.a.beta.A3? && w.b.beta.S1? && Mirror(Nxt(w.a), Cur(w.b))
    && w.sa.state1 == w.sb.state1 && w.sa.state1.Derived?
  }

  ghost predicate LeadsTo(w: World, ws: seq<World>, es: seq<Action>) {
    Insisting(ws, es) && ws[0] == w && Handshaken(ws[|es|])
  }

  ghost predicate CanComplete(w: World) { exists ws, es :: LeadsTo(w, ws, es) }

  /** The look-ups of a Hello that the initiator makes from what it has stored find something. */
  predicate Recognised(w: World) { Lookup(w.sb, w.sa.state1).Some? }

  // ---------- when the first state is held, an attempt can complete ----------

  const NEW_KID: Kid := 10
  const PEER_KID: Kid := 20

  /** The initiator starts afresh, and its Hello is answered. */
  lemma FreshHello(w: World) returns (w1: World, w2: World, w3: World, q: StateB2)
    requires Recognised(w)
    ensures Possible(w, Halt(true)) && w1 == Take(w, Halt(true))
    ensures Possible(w1, Open(EARLY, NEW_KID)) && w2 == Take(w1, Open(EARLY, NEW_KID)) && w2.a.beta.A1?
    ensures Possible(w2, HearX1(w2.a.beta.x1, true, PEER_KID)) && w3 == Take(w2, HearX1(w2.a.beta.x1, true, PEER_KID))
    ensures q.ratchet == w.sa.state1 && q.kidSend == NEW_KID && q.kidRecv == PEER_KID
    ensures q in w3.b2 && X2Of(q) in w3.net && w3.a == w2.a && w3.sa == w.sa && w3.sb == w.sb
    ensures w3.a.beta.A1? && w3.a.beta.x1.X1? && w3.a.beta.x1.x == q.x
    ensures w3.a.rs1 == w.sa.state1 && w3.a.rs2 == w.sa.state2 && Nxt(w3.a).recv.kid == Some(NEW_KID)
  {
    w1 := Take(w, Halt(true));
    w2 := Take(w1, Open(EARLY, NEW_KID));
    var x1 := w2.a.beta.x1;
    PickExactly(w.sb, x1);
    q := StateB2(w.sa.state1, x1.x, w2.nonce, NEW_KID, PEER_KID);
    assert ReceivedX1(w2.sb, x1, true, w2.nonce, PEER_KID) == Some(q);
    w3 := Take(w2, HearX1(x1, true, PEER_KID));
  }

  /** The response is accepted, and the third message completes the handshake. */
  lemma FreshFinish(w3: World, q: StateB2, kid: Kid) returns (w4: World, w5: World, e: Action)
    requires q in w3.b2 && X2Of(q) in w3.net && q.ratchet == w3.a.rs1 && Holds(w3.sb, q.ratchet)
    requires q.kidSend == NEW_KID && q.kidRecv == PEER_KID && w3.sa == States(w3.a.rs1, w3.a.rs2)
    requires w3.a.beta.A1? && w3.a.beta.x1.X1? && w3.a.beta.x1.x == q.x && Nxt(w3.a).recv.kid == Some(NEW_KID)
    requires kid !in KeptRoutes(w3.a)
    ensures Possible(w3, HearX2(X2Of(q), EARLY, true, kid, false))
    ensures w4 == Take(w3, HearX2(X2Of(q), EARLY, true, kid, false))
    ensures !e.HearX1? && Possible(w4, e) && w5 == Take(w4, e) && Handshaken(w5)
  {
    w4 := Take(w3, HearX2(X2Of(q), EARLY, true, kid, false));
    assert w4.a.beta == A3(X3(PEER_KID, q.Exchange())) && X3(PEER_KID, q.Exchange()) in w4.net;
    e := HearX3(X3(PEER_KID, q.Exchange()), q, EARLY, YES, false);
    w5 := Take(w4, e);
  }

  lemma CompletesIf(w: World)
    requires Recognised(w)
    ensures CanComplete(w)
  {
    hide Take, Possible, Handshaken;
    var w1, w2, w3, q := FreshHello(w);
    var kid := KidOutside(KeptRoutes(w3.a));
    var w4, w5, e := FreshFinish(w3, q, kid);
    var ws := [w, w1, w2, w3, w4, w5];
    var es := [Halt(true), Open(EARLY, NEW_KID), HearX1(w2.a.beta.x1, true, PEER_KID),
               HearX2(X2Of(q), EARLY, true, kid, false), e];
    assert LeadsTo(w, ws, es);
  }

  // ---------- so it can when something is late that gives the responder that state ----------

  lemma CompletesAfter(w: World, us: seq<World>, ds: seq<Action>)
    requires Piece(us, ds) && us[0] == w && CanComplete(us[|ds|]) && forall i :: 0 <= i < |ds| ==> !ds[i].HearX1?
    ensures CanComplete(w)
  {
    hide Take, Possible, Handshaken;
    var vs, fs :| LeadsTo(us[|ds|], vs, fs);
    PiecesJoin(us, ds, vs, fs);
    var ws, es := us + vs[1..], ds + fs;
    forall i | 0 <= i < |es| ensures Insists(es[i]) {
      assert es[i] == if i < |ds| then ds[i] else fs[i - |ds|];
    }
    assert ws[|es|] == vs[|fs|];
    assert LeadsTo(w, ws, es);
  }

  lemma ThirdCompletes(w: World, g: RatchetState, x3: Packet, q: StateB2)
    requires Always(w) && Secured(w, g) && Late(w) && x3 in w.net && q in w.b2 && Completes(x3, q)
    ensures CanComplete(w)
  {
    LateThirdIs(w, g, x3, q);
    LastOne(w, g, x3, q);
    LateLacks(w, g);
    hide Secured, Late, CanComplete, Always;
    var e := HearX3(x3, q, EARLY, Accept(true, false, false, false), false);
    var t := Take(w, e);
    assert t.sa == w.sa && t.sb == States(NewRatchet(q.Exchange()), None);
    CompletesIf(t);
    CompletesAfter(w, [w, t], [e]);
  }

  lemma FollowedPiece(ws: seq<World>, es: seq<Action>)
    requires |ws| == |es| + 1 && forall i :: 0 <= i < |es| ==> Follows(ws[i], es[i], ws[i + 1])
    ensures Piece(ws, es)
  {
    forall i | 0 <= i < |es| ensures Possible(ws[i], es[i]) && ws[i + 1] == Take(ws[i], es[i]) {
      assert Follows(ws[i], es[i], ws[i + 1]);
    }
  }

  lemma AnswerCompletes(w: World, g: RatchetState)
    requires Always(w) && Secured(w, g) && !NoLateReply(w.b, w.sb, w.net)
    ensures CanComplete(w)
  {
    LateLacks(w, g);
    LateAnswerIs(w, g);
    var m :| m in w.net && LateReply(w.b, w.sb, w.net, m);
    hide Secured, Always, Waiting, Ladder, CanComplete, Follows, FaceOf, KeptRoutes, Reach;
    var cs := LadderOf(w.b.window, Steps(FaceOf(w.b), w.net), m.counter);
    var kid := KidOutside(KeptRoutes(w.b));
    var ws, es, p := Climb(w, w.net, cs, m, kid);
    AnswerGives(w, g, m, p);
    FollowedPiece(ws, es);
    hide Piece;
    CompletesIf(ws[|es|]);
    CompletesAfter(w, ws, es);
  }

  lemma AnswerGives(w: World, g: RatchetState, m: Packet, p: Packet)
    requires Secured(w, g) && m in w.net && LateReply(w.b, w.sb, w.net, m)
    requires p in w.net && Answers(FaceOf(w.b), w.b.window, w.net, p)
    ensures NewRatchet(p.body.kex) == w.sa.state1
  {
    GuardAwaited(w.b, w.sb, w.net, w.nonce, g, w.sa.state1, p);
  }

  // ---------- when it is neither, none ever does ----------

  /** An attempt that storage would accept has no response, if the responder lacks its first state. */
  predicate Unheard(w: World) {
    w.a.beta.A1? && w.a.beta.x1.X1? && w.sa == Memory(FaceOf(w.a)) && !Recognised(w) ==>
      Unanswered(w.net, w.a.beta.x1.x)
  }

  /** The responder keeps the initiator's first state once it has it. */
  lemma StillRecognised(w: World, g: RatchetState, e: Action)
    requires Always(w) && Secured(w, g) && Recognised(w) && Possible(w, e) && w.a.beta.A1? && !e.HearX2?
    ensures Lookup(Take(w, e).sb, w.sa.state1).Some?
  {
    hide Secured, HostReceive, DoX3;
    match e
    case Hear(atA, m, env, kid, io) => if !atA { StillAfterHearing(w, g, m, env, kid, io); }
    case HearX3(x3, q, env, act, io) => StillAfterThird(w, g, x3, q, env, act, io);
    case _ =>
  }

  lemma StillAfterHearing(w: World, g: RatchetState, m: Packet, env: Env, kid: Kid, io: bool)
    requires Secured(w, g) && Recognised(w) && Possible(w, Hear(false, m, env, kid, io))
    ensures Lookup(HostReceive(w.b, w.sb, env, m, w.nonce, kid, io).stored, w.sa.state1).Some?
  {
    KeptHears(w, g, m, env, kid, io);
    var r := HostReceive(w.b, w.sb, env, m, w.nonce, kid, io);
    assert g == w.sa.state1;
    hide Guarded, HostReceive, Modest, LateReply;
    if Guides(w, g, r) {
      GuardFresh(FaceOf(r.out.zeta), r.out.zeta.window, r.stored, Sent(w.net, r.out.sent), w.nonce + 1, g, w.sa.state1);
    }
  }

  lemma StillAfterThird(w: World, g: RatchetState, x3: Packet, q: StateB2, env: Env, act: Accept, io: bool)
    requires Always(w) && Secured(w, g) && Recognised(w) && Possible(w, HearX3(x3, q, env, act, io))
    ensures Lookup(DoX3(w, x3, q, env, act, io).sb, w.sa.state1).Some?
  {
    hide Secured, DoX3, NewSession, Rejection;
    X3Cases(w, x3, q, env, act, io);
    if Completes(x3, q) { LastOne(w, g, x3, q); }
  }

  /** The Hello that the responder answers, if it insists, is not one it cannot recognise. */
  lemma OwnHelloSilent(w: World, g: RatchetState, x1: Packet, kid: Kid)
    requires Attempt(w, g) && !Recognised(w) && w.sa == Memory(FaceOf(w.a)) && x1 in w.net && x1.X1?
    ensures x1.x == w.a.beta.x1.x ==> ReceivedX1(w.sb, x1, true, w.nonce, kid) == None
  {
    PickExactly(w.sb, x1);
    MemoryIs(w.a);
  }

  /** A new attempt has no response. */
  lemma FreshUnheard(w: World, o: Outcome, b: World)
    requires Always(w) && b == Moved(w, true, Reply(o, w.sa)) && o.zeta.beta.A1? && o.zeta.beta.x1.X1?
    requires o.zeta.beta.x1.x == w.nonce && o.sent == Some(o.zeta.beta.x1)
    ensures Unanswered(b.net, b.a.beta.x1.x)
  {
  }

  lemma UnheardX1(w: World, g: RatchetState, x1: Packet, kid: Kid)
    requires Attempt(w, g) && Unheard(w) && Possible(w, HearX1(x1, true, kid))
    ensures Unheard(Take(w, HearX1(x1, true, kid)))
  {
    if w.sa == Memory(FaceOf(w.a)) && !Recognised(w) { OwnHelloSilent(w, g, x1, kid); }
    PickShape(w.sb, x1, true, w.nonce, kid);
    hide Attempt, Recognised, FaceOf, ReceivedX1;
  }

  lemma UnheardX2(w: World, x2: Packet, env: Env, disallowDowngrade: bool, kid: Kid, io: bool)
    requires Always(w) && Unheard(w) && w.a.beta.A1? && w.a.beta.x1.X1?
    requires Possible(w, HearX2(x2, env, disallowDowngrade, kid, io))
    ensures Unheard(Take(w, HearX2(x2, env, disallowDowngrade, kid, io)))
  {
    X2Cases(w, x2, env, disallowDowngrade, kid, io);
    var r := DoX2(w, x2, env, disallowDowngrade, kid, io);
    var o := StartAttempt(w.a, env, w.nonce, kid);
    if Leads(r, o.zeta, o.sent, w.sa) {
      FreshUnheard(w, o, Moved(w, true, Reply(o, w.sa)));
    }
    hide DoX2;
  }

  /** The step adds no response to the network. */
  predicate NoResponse(net: set<Packet>, after: set<Packet>) { forall p :: p in after && p.X2? ==> p in net }

  /** What the responder's side does while an attempt is under way. */
  lemma UnheardB(w: World, g: RatchetState, e: Action)
    requires Always(w) && Secured(w, g) && Possible(w, e) && w.a.beta.A1? && Unheard(w) && !e.HearX2?
    requires Take(w, e).a == w.a && Take(w, e).sa == w.sa && NoResponse(w.net, Take(w, e).net)
    ensures Unheard(Take(w, e))
  {
    hide Always, Secured, Possible, Take, FaceOf;
    if Recognised(w) { StillRecognised(w, g, e); }
  }

  lemma QuietThird(w: World, x3: Packet, q: StateB2, env: Env, act: Accept, io: bool)
    requires Possible(w, HearX3(x3, q, env, act, io))
    ensures var t := Take(w, HearX3(x3, q, env, act, io)); t.a == w.a && t.sa == w.sa && NoResponse(w.net, t.net)
  {
    hide NewSession;
  }

  lemma QuietHears(w: World, m: Packet, env: Env, kid: Kid, io: bool)
    requires Possible(w, Hear(false, m, env, kid, io))
    ensures var t := Take(w, Hear(false, m, env, kid, io)); t.a == w.a && t.sa == w.sa && NoResponse(w.net, t.net)
  {
    hide Receive;
    SealedReceive(w.b, env, m, w.nonce, kid, AnswerTo(w.sb, Receive(w.b, env, m, w.nonce, kid, Saved).save, io));
  }

  lemma QuietTimers(w: World, g: RatchetState, env: Env, kid: Kid)
    requires Secured(w, g) && !w.b.beta.Null?
    ensures var o := Service(w.b, env, w.nonce, kid); o.sent.Some? ==> o.sent.value.Sealed?
    ensures var o := SendPayload(w.b, env); o.sent.Some? ==> o.sent.value.Sealed?
  {
    GuardBasics(w.b, w.sb, w.net, w.nonce, g, w.sa.state1);
    SealedTimers(w.b, env, w.nonce, kid);
  }

  /** What the initiator's session does by itself starts an attempt, keeps the one it has, or is no attempt. */
  lemma OwnTimer(w: World, env: Env, kid: Kid)
    ensures var o := Service(w.a, env, w.nonce, kid);
      o.zeta.beta.A1? ==> o == StartAttempt(w.a, env, w.nonce, kid) || (w.a.beta.A1? && w.a.beta == o.zeta.beta)
  {
  }

  lemma OwnHearsC1(a: Zeta, env: Env, m: Packet, answer: SaveResult)
    requires m.Sealed?
    ensures var o := ReceivedC1(a, env, m.to, m.key, m.counter, answer); o.zeta.beta.A1? ==> a.beta == o.zeta.beta
  {
    hide WindowAccepts;
  }

  lemma OwnHearsK1(a: Zeta, env: Env, m: Packet, y: nat, kid: Kid, answer: SaveResult)
    requires m.Sealed? && m.body.K1?
    ensures
      var o := ReceivedK1(a, env, m.to, m.key, m.counter, m.body, y, kid, answer);
      o.zeta.beta.A1? ==> a.beta == o.zeta.beta
  {
    hide WindowAccepts;
  }

  lemma OwnHearsK2(a: Zeta, env: Env, m: Packet, answer: SaveResult)
    requires m.Sealed? && m.body.K2?
    ensures
      var o := ReceivedK2(a, env, m.to, m.key, m.counter, m.body, answer);
      o.zeta.beta.A1? ==> a.beta == o.zeta.beta
  {
    hide WindowAccepts;
  }

  lemma OwnHears(a: Zeta, env: Env, m: Packet, y: nat, kid: Kid, answer: SaveResult)
    requires m.Sealed?
    ensures var o := Receive(a, env, m, y, kid, answer); o.zeta.beta.A1? ==> a.beta == o.zeta.beta
  {
    hide ReceivedC1, ReceivedK1, ReceivedK2, WindowAccepts;
    match m.body
    case C1 => OwnHearsC1(a, env, m, answer);
    case K1(_, _, _) => OwnHearsK1(a, env, m, y, kid, answer);
    case K2(_, _) => OwnHearsK2(a, env, m, answer);
    case _ =>
  }

  lemma UnheardA(w: World, g: RatchetState, e: Action)
    requires Always(w) && Hello(w, g, false) && Possible(w, e) && w.a.beta.A1? && Unheard(w)
    requires (e.Hear? && e.atA) || (e.Timer? && e.atA) || (e.Payload? && e.atA)
    ensures Unheard(Take(w, e))
  {
    AttemptIs(w, g);
    hide Secured, Attempt, Pausing, HostReceive, Service, SendPayload, StartAttempt, Recognised;
    match e
    case Hear(_, m, env, kid, io) => HelloDeaf(w, g, false, env, m, kid, io);
    case Payload(_, env) => HelloDeaf(w, g, false, env, Sealed(0, Key(Kex(0, 0, Empty), Kek, true), 0, Data), 0, false);
    case Timer(_, env, kid) =>
      HelloTimer(w, g, false, env, kid);
      var o := Service(w.a, env, w.nonce, kid);
      StartIs(w, env, kid);
      FaceParts(w.a);
      FaceParts(o.zeta);
      if o == StartAttempt(w.a, env, w.nonce, kid) {
        FreshUnheard(w, o, Moved(w, true, Reply(o, w.sa)));
      } else {
        assert Sent(w.net, o.sent) == w.net;
      }
  }

  lemma StartIs(w: World, env: Env, kid: Kid)
    ensures var o := StartAttempt(w.a, env, w.nonce, kid);
      o.zeta.beta.A1? && o.zeta.beta.x1.X1? && o.zeta.beta.x1.x == w.nonce && o.sent == Some(o.zeta.beta.x1)
  {
  }

  /** In a phase without an attempt, only opening or giving up an exchange starts one. */
  lemma UnheardNew(w: World, e: Action)
    requires Always(w) && Possible(w, e) && !w.a.beta.A1? && !e.HearX2?
    ensures Unheard(Take(w, e))
  {
    hide HostReceive, Service, SendPayload, StartAttempt, Recognised, DoX3, Always;
    match e
    case Hear(atA, m, env, kid, io) =>
      if atA { HostOwn(w, env, m, kid, io); }
    case Timer(atA, env, kid) =>
      if atA {
        OwnTimer(w, env, kid);
        StartIs(w, env, kid);
        var o := Service(w.a, env, w.nonce, kid);
        if o.zeta.beta.A1? { FreshUnheard(w, o, Moved(w, true, Reply(o, w.sa))); }
      }
    case Payload(atA, env) => if atA { OwnPayload(w, env); }
    case Open(env, kid) =>
      var o := Opened(w.sa, env, w.nonce, kid);
      OpenIs(w, env, kid);
      FreshUnheard(w, o, Moved(w, true, Reply(o, w.sa)));
    case HearX3(x3, q, env, act, io) => ThirdOwn(w, x3, q, env, act, io);
    case _ =>
  }

  lemma HostOwn(w: World, env: Env, m: Packet, kid: Kid, io: bool)
    requires m.Sealed?
    ensures var o := HostReceive(w.a, w.sa, env, m, w.nonce, kid, io).out; o.zeta.beta.A1? ==> w.a.beta == o.zeta.beta
  {
    hide Receive;
    OwnHears(w.a, env, m, w.nonce, kid, AnswerTo(w.sa, Receive(w.a, env, m, w.nonce, kid, Saved).save, io));
  }

  lemma OwnPayload(w: World, env: Env)
    ensures var o := SendPayload(w.a, env); o.zeta.beta.A1? ==> w.a.beta == o.zeta.beta
  {
  }

  lemma OpenIs(w: World, env: Env, kid: Kid)
    ensures var o := Opened(w.sa, env, w.nonce, kid);
      o.zeta.beta.A1? && o.zeta.beta.x1.X1? && o.zeta.beta.x1.x == w.nonce && o.sent == Some(o.zeta.beta.x1)
  {
  }

  lemma ThirdOwn(w: World, x3: Packet, q: StateB2, env: Env, act: Accept, io: bool)
    requires x3.X3?
    ensures DoX3(w, x3, q, env, act, io).a == w.a
  {
  }

  /** Whoever insists leaves an attempt without a response while it lacks the first state. */
  lemma UnheardStep(w: World, e: Action)
    requires WorldInv(w, false) && Unheard(w) && Possible(w, e) && Insists(e)
    ensures Unheard(Take(w, e))
  {
    hide WorldInv, Hello, Secured, Attempt, Unheard, Take, Recognised, FaceOf;
    AlwaysIs(w, false);
    if w.a.beta.A1? {
      InAttempt(w, false);
      var g :| Hello(w, g, false);
      HelloIs(w, g, false);
      HelloAttempt(w, g);
      UnheardAttempt(w, g, e);
    } else if !e.HearX2? {
      UnheardNew(w, e);
    }
  }

  lemma HelloAttempt(w: World, g: RatchetState)
    requires Hello(w, g, false) && w.a.beta.A1?
    ensures Attempt(w, g)
  {
  }

  lemma UnheardAttempt(w: World, g: RatchetState, e: Action)
    requires Always(w) && Hello(w, g, false) && Secured(w, g) && Attempt(w, g) && w.a.beta.A1?
    requires Unheard(w) && Possible(w, e) && Insists(e)
    ensures Unheard(Take(w, e))
  {
    AttemptIs(w, g);
    hide Always, Hello, Secured, Attempt, Unheard, Recognised, FaceOf, HostReceive, DoX3, DoX2, Service,
      SendPayload, Unrelated;
    match e
    case Open(_, _) => assert false;
    case HearX1(x1, _, kid) => UnheardX1(w, g, x1, kid);
    case HearX2(x2, env, disallow, kid, io) => UnheardX2(w, x2, env, disallow, kid, io);
    case HearX3(x3, q, env, act, io) =>
      QuietThird(w, x3, q, env, act, io);
      UnheardB(w, g, e);
    case Hear(atA, m, env, kid, io) =>
      if atA { UnheardA(w, g, e); } else {
        QuietHears(w, m, env, kid, io);
        UnheardB(w, g, e);
      }
    case Timer(atA, env, kid) =>
      if atA { UnheardA(w, g, e); } else {
        QuietTimers(w, g, env, kid);
        UnheardB(w, g, e);
      }
    case Payload(atA, env) =>
      if atA { UnheardA(w, g, e); } else {
        QuietTimers(w, g, env, 0);
        UnheardB(w, g, e);
      }
    case Halt(atA) => if atA { UnheardHalt(w); } else { UnheardB(w, g, e); }
    case Forget(q) => UnheardB(w, g, e);
    case Other(m) =>
      OtherSealed(w, m);
      UnheardB(w, g, e);
  }

  lemma OtherSealed(w: World, m: Packet)
    requires Unrelated(w, m)
    ensures m.Sealed?
  {
  }

  lemma UnheardHalt(w: World)
    ensures Unheard(Take(w, Halt(true)))
  {
  }

  // ---------- nothing changes any more ----------

  /** The initiator is not established, nothing it sent before is late, and the responder lacks its
      first state. */
  ghost predicate Stuck(w: World) {
    && WorldInv(w, false) && Unheard(w) && !Late(w) && !Recognised(w)
    && (w.a.beta.Null? || w.a.beta.A1? || w.a.beta.A3?)
  }

  /** While the initiator is not established it is in an attempt, waits for a confirmation or is gone. */
  lemma IdlePhase(w: World) returns (g: RatchetState)
    requires WorldInv(w, false) && (w.a.beta.Null? || w.a.beta.A1? || w.a.beta.A3?)
    ensures Always(w) && Secured(w, g)
    ensures
      || Hello(w, g, false)
      || Completed(w, g)
      || (Confirming(w) && Recognised(w))
      || (Established(w) && w.a.beta.Null?)
  {
    hide Secured, Attempt, Pausing, Unheard, Late, PairInv, XkInv;
    if h :| Hello(w, h, false) {
      g := h;
    } else if h :| Completed(w, h) {
      g := h;
    } else if Confirming(w) {
      ConfirmingRecognised(w);
      ConfirmingAnchor(w);
      g := w.a.rs1;
    } else {
      EstablishedBasics(w, true);
      g := EstablishedAnchor(w);
    }
  }

  lemma ConfirmingRecognised(w: World)
    requires Confirming(w)
    ensures Recognised(w)
  {
  }

  /** What a step leaves alone. */
  ghost predicate Idles(w: World, t: World) {
    && t.sa == w.sa && !Late(t) && !Recognised(t) && (t.a.beta.Null? || t.a.beta.A1? || t.a.beta.A3?)
    && (w.b.beta.Null? ==> t.b.beta.Null? && t.sb == w.sb)
  }

  lemma IdlesGuided(w: World, g: RatchetState, r: Reply)
    requires Always(w) && Secured(w, g) && !Late(w) && !Recognised(w) && Guides(w, g, r) && !w.b.beta.Null?
    requires w.a.beta.Null? || w.a.beta.A1? || w.a.beta.A3?
    ensures Idles(w, Moved(w, false, r))
  {
    KeptB(w, g, r);
  }

  lemma IdlesHearing(w: World, g: RatchetState, m: Packet, env: Env, kid: Kid, io: bool)
    requires Always(w) && Secured(w, g) && !Late(w) && !Recognised(w) && Possible(w, Hear(false, m, env, kid, io))
    requires w.a.beta.Null? || w.a.beta.A1? || w.a.beta.A3?
    ensures Idles(w, Take(w, Hear(false, m, env, kid, io)))
  {
    hide Secured, Guides, TakesAnswer, HostReceive, Recognised;
    KeptHears(w, g, m, env, kid, io);
    IdlesGuided(w, g, HostReceive(w.b, w.sb, env, m, w.nonce, kid, io));
  }

  lemma IdlesTimers(w: World, g: RatchetState, env: Env, kid: Kid)
    requires Always(w) && Secured(w, g) && !Late(w) && !Recognised(w) && !w.b.beta.Null?
    requires w.a.beta.Null? || w.a.beta.A1? || w.a.beta.A3?
    ensures kid !in KeptRoutes(w.b) ==> Idles(w, Moved(w, false, Reply(Service(w.b, env, w.nonce, kid), w.sb)))
    ensures Idles(w, Moved(w, false, Reply(SendPayload(w.b, env), w.sb)))
  {
    hide Secured, Guides, Service, SendPayload, Recognised, Idles, KeptRoutes, Late;
    KeptTimers(w, g, env, kid);
    IdlesGuided(w, g, Reply(SendPayload(w.b, env), w.sb));
    if kid !in KeptRoutes(w.b) { IdlesGuided(w, g, Reply(Service(w.b, env, w.nonce, kid), w.sb)); }
  }

  /** The initiator sends a handshake message of an attempt, or nothing, and storage is not asked. */
  lemma IdlesOwn(w: World, g: RatchetState, o: Outcome)
    requires Always(w) && Secured(w, g) && !Late(w) && !Recognised(w)
    requires o.zeta.beta.Null? || o.zeta.beta.A1? || o.zeta.beta.A3?
    requires o.sent.Some? ==> o.sent.value in w.net || o.sent.value.X1?
    ensures Idles(w, Moved(w, true, Reply(o, w.sa)))
  {
    if o.sent.Some? {
      if o.sent.value in w.net {
        assert w.net + {o.sent.value} == w.net;
      } else {
        KeptX1(w, g, o.sent.value, o.zeta);
      }
    }
    hide Secured, NoLateReply, NoneCompletes;
  }

  lemma IdlesX1(w: World, g: RatchetState, x1: Packet, kid: Kid)
    requires Always(w) && Secured(w, g) && !Late(w) && !Recognised(w) && Possible(w, HearX1(x1, true, kid))
    requires w.a.beta.Null? || w.a.beta.A1? || w.a.beta.A3?
    ensures Idles(w, Take(w, HearX1(x1, true, kid)))
  {
    hide Secured, NoLateReply, NoneCompletes, ReceivedX1;
    PickShape(w.sb, x1, true, w.nonce, kid);
    var q := ReceivedX1(w.sb, x1, true, w.nonce, kid);
    if q.Some? { OfferKept(w, g, q.value); }
  }

  /** A response of another attempt, or to one that storage will refuse. */
  lemma IdlesX2(w: World, g: RatchetState, x2: Packet, env: Env, disallowDowngrade: bool, kid: Kid, io: bool)
    requires Always(w) && Hello(w, g, false) && Unheard(w) && !Late(w) && !Recognised(w)
    requires Possible(w, HearX2(x2, env, disallowDowngrade, kid, io))
    ensures Idles(w, Take(w, HearX2(x2, env, disallowDowngrade, kid, io)))
  {
    hide Secured, Attempt, Pausing, DoX2, StartAttempt, Completing, TrialDecrypt, Recognised, Late, Idles, Always;
    AttemptFacts(w, g, false);
    HelloAttempt(w, g);
    AttemptIs(w, g);
    X2Cases(w, x2, env, disallowDowngrade, kid, io);
    MemoryIs(w.a);
    StartIs(w, env, kid);
    var r := DoX2(w, x2, env, disallowDowngrade, kid, io);
    if !Leads(r, w.a, None, w.sa) {
      assert Leads(r, StartAttempt(w.a, env, w.nonce, kid).zeta, StartAttempt(w.a, env, w.nonce, kid).sent, w.sa);
    }
    IdlesOwn(w, g, r.out);
  }

  lemma IdlesDrop(w: World, g: RatchetState, q: StateB2)
    requires Secured(w, g) && !Late(w) && !Recognised(w) && (w.a.beta.Null? || w.a.beta.A1? || w.a.beta.A3?)
    ensures Idles(w, Dropped(w, q))
  {
    DropKept(w, q, g);
  }

  /** No third message completes, so one more is ignored. */
  lemma IdlesX3(w: World, g: RatchetState, x3: Packet, q: StateB2, env: Env, act: Accept, io: bool)
    requires Secured(w, g) && !Late(w) && !Recognised(w) && (w.a.beta.Null? || w.a.beta.A1? || w.a.beta.A3?)
    requires Possible(w, HearX3(x3, q, env, act, io))
    ensures Idles(w, Take(w, HearX3(x3, q, env, act, io)))
  {
    hide Secured, DoX3, Recognised, NoLateReply, Rejection, NewSession;
    X3Cases(w, x3, q, env, act, io);
    IdlesDrop(w, g, q);
  }

  lemma IdlesHalt(w: World, g: RatchetState, atA: bool)
    requires Secured(w, g) && !Late(w) && !Recognised(w) && (w.a.beta.Null? || w.a.beta.A1? || w.a.beta.A3?)
    ensures Idles(w, Take(w, Halt(atA)))
  {
    HaltKept(w, g, atA);
    hide Secured, NoLateReply;
  }

  lemma IdlesOther(w: World, g: RatchetState, m: Packet)
    requires Secured(w, g) && !Late(w) && !Recognised(w) && (w.a.beta.Null? || w.a.beta.A1? || w.a.beta.A3?)
    requires Unrelated(w, m)
    ensures Idles(w, w.(net := w.net + {m}))
  {
    OtherKept(w, g, m);
    hide Secured, NoLateReply, NoneCompletes;
  }

  /** What the initiator does by itself, in an attempt. */
  lemma IdlesHello(w: World, g: RatchetState, e: Action)
    requires Always(w) && Hello(w, g, false) && !Late(w) && !Recognised(w) && Possible(w, e)
    requires (e.Hear? && e.atA) || (e.Timer? && e.atA) || (e.Payload? && e.atA)
    ensures Idles(w, Take(w, e))
  {
    NotNull(w, g, false);
    HelloIs(w, g, false);
    HelloAttempt(w, g);
    AttemptIs(w, g);
    hide Secured, Attempt, Pausing, HostReceive, Service, SendPayload, StartAttempt, Recognised, Late, Idles,
      Hello, Always;
    match e
    case Hear(_, m, env, kid, io) =>
      HelloDeaf(w, g, false, env, m, kid, io);
      IdlesOwn(w, g, HostReceive(w.a, w.sa, env, m, w.nonce, kid, io).out);
    case Payload(_, env) =>
      HelloDeaf(w, g, false, env, Sealed(0, Key(Kex(0, 0, Empty), Kek, true), 0, Data), 0, false);
      IdlesOwn(w, g, SendPayload(w.a, env));
    case Timer(_, env, kid) =>
      HelloTimer(w, g, false, env, kid);
      StartIs(w, env, kid);
      FaceParts(w.a);
      FaceParts(Service(w.a, env, w.nonce, kid).zeta);
      IdlesOwn(w, g, Service(w.a, env, w.nonce, kid));
  }

  /** What it does while it waits for the confirmation. */
  lemma IdlesCompleted(w: World, g: RatchetState, e: Action)
    requires Always(w) && Completed(w, g) && !Late(w) && !Recognised(w) && Possible(w, e)
    requires (e.Hear? && e.atA) || (e.Timer? && e.atA) || (e.Payload? && e.atA)
    ensures Idles(w, Take(w, e))
  {
    CompletedGuard(w, g);
    CompletedIsA3(w, g);
    FaceParts(w.a);
    hide Secured, HostReceive, Service, SendPayload, StartAttempt, Recognised, Late, Idles, Completed, Always,
      FaceOf, Expire;
    match e
    case Hear(_, m, env, kid, io) =>
      CompletedHears(w, g, env, m, kid, io);
      var o := HostReceive(w.a, w.sa, env, m, w.nonce, kid, io).out;
      ExpireFields(w.a);
      FaceParts(o.zeta);
      IdlesOwn(w, g, o);
    case Payload(_, env) =>
      CompletedSilent(w, g, env);
      IdlesOwn(w, g, SendPayload(w.a, env));
    case Timer(_, env, kid) =>
      CompletedTimer(w, g, env, kid);
      StartIs(w, env, kid);
      FaceParts(Service(w.a, env, w.nonce, kid).zeta);
      IdlesOwn(w, g, Service(w.a, env, w.nonce, kid));
  }

  lemma ExpireFields(z: Zeta)
    ensures FaceOf(Expire(z)).beta == Null
  {
  }

  lemma IdlesOpen(w: World, g: RatchetState, env: Env, kid: Kid)
    requires Always(w) && Secured(w, g) && !Late(w) && !Recognised(w)
    ensures Idles(w, Moved(w, true, Reply(Opened(w.sa, env, w.nonce, kid), w.sa)))
  {
    hide Secured, Recognised, Late, Idles, Always, Opened;
    OpenIs(w, env, kid);
    IdlesOwn(w, g, Opened(w.sa, env, w.nonce, kid));
  }

  lemma StuckIdles(w: World, e: Action)
    requires Stuck(w) && Possible(w, e) && Insists(e)
    ensures Idles(w, Take(w, e))
  {
    hide WorldInv, Secured, Hello, Completed, Established, Always, Unheard, Recognised, Late, Idles, Unrelated,
      KeptRoutes;
    var g := IdlePhase(w);
    StuckAlive(w, g);
    match e
    case Open(env, kid) => IdlesOpen(w, g, env, kid);
    case HearX1(x1, _, kid) => IdlesX1(w, g, x1, kid);
    case HearX2(x2, env, disallow, kid, io) => IdlesX2(w, g, x2, env, disallow, kid, io);
    case HearX3(x3, q, env, act, io) => IdlesX3(w, g, x3, q, env, act, io);
    case Hear(atA, m, env, kid, io) =>
      if !atA { IdlesHearing(w, g, m, env, kid, io); }
      else if Hello(w, g, false) { IdlesHello(w, g, e); } else { IdlesCompleted(w, g, e); }
    case Timer(atA, env, kid) =>
      if !atA { IdlesTimers(w, g, env, kid); }
      else if Hello(w, g, false) { IdlesHello(w, g, e); } else { IdlesCompleted(w, g, e); }
    case Payload(atA, env) =>
      if !atA { IdlesTimers(w, g, env, 0); }
      else if Hello(w, g, false) { IdlesHello(w, g, e); } else { IdlesCompleted(w, g, e); }
    case Halt(atA) => IdlesHalt(w, g, atA);
    case Forget(q) => IdlesDrop(w, g, q);
    case Other(m) => IdlesOther(w, g, m);
  }

  lemma StuckAlive(w: World, g: RatchetState)
    ensures Completed(w, g) ==> !w.a.beta.A1?
    ensures Established(w) ==> !w.a.beta.A1?
  {
    hide Secured;
    if Established(w) && Always(w) { EstablishedBasics(w, true); }
  }

  /** A stuck state stays stuck, and what the initiator has stored stays the same. */
  lemma StuckStep(w: World, e: Action)
    requires Stuck(w) && Possible(w, e) && Insists(e)
    ensures Stuck(Take(w, e)) && Idles(w, Take(w, e))
  {
    hide WorldInv, Unheard, Recognised, Late, Take, Possible;
    StuckIdles(w, e);
    UnheardStep(w, e);
    WorldStep(w, e, false);
  }

  lemma {:induction false} StuckForever(ws: seq<World>, es: seq<Action>, i: nat)
    requires Insisting(ws, es) && Stuck(ws[0]) && i < |ws|
    ensures Stuck(ws[i]) && ws[i].sa == ws[0].sa && !Handshaken(ws[i])
    ensures ws[0].b.beta.Null? ==> ws[i].b.beta.Null? && ws[i].sb == ws[0].sb
  {
    hide Take, Possible, WorldInv, Unheard, Late;
    if i > 0 {
      StuckForever(ws, es, i - 1);
      StuckStep(ws[i - 1], es[i - 1]);
    }
  }

  // ---------- the two together ----------

  lemma LateCompletes(w: World)
    requires WorldInv(w, false) && Late(w) && (w.a.beta.Null? || w.a.beta.A1? || w.a.beta.A3?)
    ensures CanComplete(w)
  {
    hide WorldInv, Secured, Always, CanComplete, Hello, Completed, Confirming, Established, NoLateReply;
    var g := IdlePhase(w);
    if !NoneCompletes(w.net, w.b2) {
      var x3, q :| x3 in w.net && q in w.b2 && Completes(x3, q);
      ThirdCompletes(w, g, x3, q);
    } else {
      AnswerCompletes(w, g);
    }
  }

  /** In every state that a responder which insists lets a history reach: while the initiator is not
      established, a handshake can complete if and only if the responder holds the first ratchet state
      that the initiator has stored, or something is late that gives it that state. */
  lemma CompletesExactly(w: World)
    requires WorldInv(w, false) && Unheard(w) && (w.a.beta.Null? || w.a.beta.A1? || w.a.beta.A3?)
    ensures CanComplete(w) <==> Recognised(w) || Late(w)
  {
    hide WorldInv, Unheard, Late, Handshaken;
    if Recognised(w) {
      CompletesIf(w);
    } else if Late(w) {
      LateCompletes(w);
    } else {
      forall ws, es ensures !LeadsTo(w, ws, es) {
        if LeadsTo(w, ws, es) { StuckForever(ws, es, |es|); }
      }
    }
  }

  lemma {:induction false} HistoryUnheard(ws: seq<World>, es: seq<Action>, i: nat)
    requires IsHistory(ws, es) && i < |ws| && forall j :: 0 <= j < |es| ==> Insists(es[j])
    ensures WorldInv(ws[i], false) && Unheard(ws[i])
  {
    hide Take, Possible, WorldInv, Unheard;
    if i == 0 {
      StartInv(ws[0], false);
      StartUnheard(ws[0]);
    } else {
      HistoryUnheard(ws, es, i - 1);
      UnheardStep(ws[i - 1], es[i - 1]);
      WorldStep(ws[i - 1], es[i - 1], false);
    }
  }

  lemma StartUnheard(w: World)
    requires Start(w)
    ensures Unheard(w)
  {
  }

  lemma HistoryCompletesExactly(ws: seq<World>, es: seq<Action>, i: nat)
    requires IsHistory(ws, es) && i < |ws| && forall j :: 0 <= j < |es| ==> Insists(es[j])
    requires ws[i].a.beta.Null? || ws[i].a.beta.A1? || ws[i].a.beta.A3?
    ensures CanComplete(ws[i]) <==> Recognised(ws[i]) || Late(ws[i])
  {
    HistoryUnheard(ws, es, i);
    hide WorldInv, Unheard, Late, Recognised, CanComplete;
    CompletesExactly(ws[i]);
  }

  // ---------- a history that ends there ----------

  const SECRET := Otp(1)
  const KNOWN := World(NoSession, NoSession.(wasBob := true), States(SECRET, None), States(SECRET, None), {}, {}, 0)
  const OFFER := X1(0, 10, SECRET, Empty)
  const HALF := StateB2(SECRET, 0, 1, 10, 20)

  lemma LostThird() returns (w1: World, w2: World, w3: World, w4: World)
    ensures Possible(KNOWN, Open(EARLY, 10)) && w1 == Take(KNOWN, Open(EARLY, 10))
    ensures Possible(w1, HearX1(OFFER, true, 20)) && w2 == Take(w1, HearX1(OFFER, true, 20))
    ensures Possible(w2, HearX2(X2Of(HALF), EARLY, true, 11, false))
    ensures w3 == Take(w2, HearX2(X2Of(HALF), EARLY, true, 11, false))
    ensures Possible(w3, Forget(HALF)) && w4 == Take(w3, Forget(HALF))
    ensures w4.a.beta.A3? && w4.sa == States(NewRatchet(HALF.Exchange()), Some(SECRET))
    ensures w4.sb == States(SECRET, None) && w4.b2 == {} && w4.b.beta.Null?
  {
    w1 := Take(KNOWN, Open(EARLY, 10));
    assert w1.a.beta == A1(OFFER) && OFFER in w1.net;
    PickExactly(w1.sb, OFFER);
    w2 := Take(w1, HearX1(OFFER, true, 20));
    assert w2.b2 == {HALF} && X2Of(HALF) in w2.net;
    w3 := Take(w2, HearX2(X2Of(HALF), EARLY, true, 11, false));
    w4 := Take(w3, Forget(HALF));
  }

  /** The third message of the first attempt is lost and the responder drops its half-open handshake.
      The stored pairs share the one-time password, yet no attempt can complete any more. */
  lemma LockedOut() returns (ws: seq<World>, es: seq<Action>)
    ensures IsHistory(ws, es) && |es| == 4 && forall i :: 0 <= i < 4 ==> Insists(es[i])
    ensures Share(ws[4].sa, ws[4].sb) && !CanComplete(ws[4])
  {
    hide Take, Possible, CanComplete;
    var w1, w2, w3, w4 := LostThird();
    ws := [KNOWN, w1, w2, w3, w4];
    es := [Open(EARLY, 10), HearX1(OFFER, true, 20), HearX2(X2Of(HALF), EARLY, true, 11, false), Forget(HALF)];
    assert Holds(w4.sa, SECRET) && Holds(w4.sb, SECRET);
    NothingLate(w4);
    HistoryCompletesExactly(ws, es, 4);
  }

  lemma NothingLate(w: World)
    requires w.b2 == {} && w.b.beta.Null?
    ensures !Late(w)
  {
  }
}
