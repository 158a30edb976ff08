/** The whole system: an initiating and a responding host over any number of XK attempts, sessions
    and rekeys. The stored ratchet pairs of the two hosts always share a ratchet state, provided one
    of two conditions is met: the initiator starts over only when nothing of its last attempt can
    still reach the responder, or the responder answers only Hellos whose ratchet state it holds. */
module World {
  import Common
  import opened Wrappers
  import opened Ratchet
  import opened Zeta
  import opened RekeyPair
  import opened Ladders
  import opened Handshake

  /** `sa` and `sb` are what the hosts have stored for each other, `b2` the responder's half-open
      handshakes, `net` every packet ever sent, `nonce` the number of ephemeral keys drawn. */
  datatype World = World(a: Zeta, b: Zeta, sa: States, sb: States, b2: set<StateB2>, net: set<Packet>, nonce: nat)

  datatype Action =
    | Open(env: Env, kid: Kid)
    | HearX1(x1: Packet, requireRatchet: bool, kid: Kid)
    | HearX2(x2: Packet, env: Env, disallowDowngrade: bool, kid: Kid, ioError: bool)
    | HearX3(x3: Packet, q: StateB2, env: Env, act: Accept, ioError: bool)
    | Hear(atA: bool, m: Packet, env: Env, kid: Kid, ioError: bool)
    | Timer(atA: bool, env: Env, kid: Kid)
    | Payload(atA: bool, env: Env)
    | Halt(atA: bool)
    | Forget(q: StateB2)
    | Other(m: Packet)

  function Acting(w: World, atA: bool): Zeta { if atA then w.a else w.b }

  function StoredAt(w: World, atA: bool): States { if atA then w.sa else w.sb }

  function Moved(w: World, atA: bool, r: Reply): World {
    if atA then w.(a := r.out.zeta, sa := r.stored, net := Sent(w.net, r.out.sent), nonce := w.nonce + 1)
    else w.(b := r.out.zeta, sb := r.stored, net := Sent(w.net, r.out.sent), nonce := w.nonce + 1)
  }

  predicate Completes(p: Packet, q: StateB2) { p.X3? && p.kex == q.Exchange() }

  /** No third handshake message on the network completes a half-open handshake. */
  predicate NoneCompletes(net: set<Packet>, b2: set<StateB2>) {
    forall p, q :: p in net && q in b2 ==> !Completes(p, q)
  }

  /** Something the initiator sent earlier can still change what the responder has stored: a third
      message that completes a half-open handshake, or an answer to the responder's own rekey. */
  ghost predicate Late(w: World) { !NoneCompletes(w.net, w.b2) || !NoLateReply(w.b, w.sb, w.net) }

  /** A packet of a session outside the model: no key, no exchange of this one. */
  predicate Unrelated(w: World, m: Packet) {
    && m.Sealed? && Some(m.key) !in SessionKeys(w.a) + SessionKeys(w.b) && NumberedBelow(m, w.nonce)
    && (forall p :: p in w.net && p.X2? ==> p.kex.y != m.key.kex.y)
  }

  predicate Possible(w: World, e: Action) {
    match e
    case Open(_, _) => w.a.beta.Null?
    case HearX1(x1, _, _) => x1 in w.net && x1.X1?
    case HearX2(x2, _, _, kid, _) => x2 in w.net && x2.X2? && w.a.beta.A1? && kid !in KeptRoutes(w.a)
    case HearX3(x3, q, _, _, _) => x3 in w.net && x3.X3? && q in w.b2
    case Hear(atA, m, _, kid, _) =>
      m in w.net && m.Sealed? && !Acting(w, atA).beta.Null? && kid !in KeptRoutes(Acting(w, atA))
    case Timer(atA, _, kid) => !Acting(w, atA).beta.Null? && kid !in KeptRoutes(Acting(w, atA))
    case Payload(atA, _) => !Acting(w, atA).beta.Null?
    case Halt(_) => true
    case Forget(_) => true
    case Other(m) => Unrelated(w, m)
  }

  /** The initiator opens a session, or gives up an exchange whose third message it has sent, and
      remembers what it has stored. */
  predicate StartsOver(w: World, e: Action) {
    || e.Open?
    || (e.Timer? && e.atA && w.a.beta.A3? && w.a.timeoutTimer <= e.env.now && w.sa == Memory(FaceOf(w.a)))
  }

  /** The timing that keeps a common state: the initiator starts over only when nothing is late. */
  ghost predicate Careful(w: World, e: Action) { StartsOver(w, e) ==> !Late(w) }

  /** The responder may answer, without a ratchet state it recognises, the Hello of an initiator that
      remembers what it has stored, while something that initiator sent earlier is late. */
  ghost predicate Heedless(w: World, e: Action) {
    && e.HearX1? && !e.requireRatchet && w.a.beta.A1? && e.x1 == w.a.beta.x1
    && w.sa == Memory(FaceOf(w.a)) && Late(w)
  }

  /** Either of the two conditions. */
  ghost predicate Allowed(w: World, e: Action, quiet: bool) { if quiet then Careful(w, e) else !Heedless(w, e) }

  function DoX2(w: World, x2: Packet, env: Env, disallowDowngrade: bool, kid: Kid, ioError: bool): Reply
    requires x2.X2?
  {
    var save := ReceivedX2(w.a, env, x2, disallowDowngrade, w.nonce, kid, Saved).save;
    var answer := AnswerTo(w.sa, save, ioError);
    Reply(ReceivedX2(w.a, env, x2, disallowDowngrade, w.nonce, kid, answer), Commit(w.sa, save, answer))
  }

  function DoX3(w: World, x3: Packet, q: StateB2, env: Env, act: Accept, ioError: bool): World
    requires x3.X3?
  {
    var save := ReceivedX3(w.sb, q, env, x3, act, Saved).save;
    var answer := AnswerTo(w.sb, save, ioError);
    var o := ReceivedX3(w.sb, q, env, x3, act, answer);
    w.(b := if o.session.Some? then o.session.value else w.b, sb := Commit(w.sb, save, answer),
       b2 := w.b2 - {q}, net := Sent(w.net, o.sent), nonce := w.nonce + 1)
  }

  function Dropped(w: World, q: StateB2): World { w.(b2 := w.b2 - {q}, nonce := w.nonce + 1) }

  function Take(w: World, e: Action): World
    requires Possible(w, e)
  {
    match e
    case Open(env, kid) => Moved(w, true, Reply(Opened(w.sa, env, w.nonce, kid), w.sa))
    case HearX1(x1, requireRatchet, kid) =>
      var q := ReceivedX1(w.sb, x1, requireRatchet, w.nonce, kid);
      if q.None? then w
      else w.(b2 := w.b2 + {q.value}, net := w.net + {X2Of(q.value)}, nonce := w.nonce + 1)
    case HearX2(x2, env, disallowDowngrade, kid, io) => Moved(w, true, DoX2(w, x2, env, disallowDowngrade, kid, io))
    case HearX3(x3, q, env, act, io) => DoX3(w, x3, q, env, act, io)
    case Hear(atA, m, env, kid, io) =>
      Moved(w, atA, HostReceive(Acting(w, atA), StoredAt(w, atA), env, m, w.nonce, kid, io))
    case Timer(atA, env, kid) =>
      Moved(w, atA, Reply(Service(Acting(w, atA), env, w.nonce, kid), StoredAt(w, atA)))
    case Payload(atA, env) => Moved(w, atA, Reply(SendPayload(Acting(w, atA), env), StoredAt(w, atA)))
    case Halt(atA) => if atA then w.(a := Expire(w.a)) else w.(b := Expire(w.b))
    case Forget(q) => Dropped(w, q)
    case Other(m) => w.(net := w.net + {m})
  }

  // ---------- the invariant ----------

  predicate Below(r: RatchetState, nonce: nat) { r.Derived? ==> r.kex.y < nonce }

  predicate StatesBelow(s: States, nonce: nat) {
    Below(s.state1, nonce) && (s.state2.Some? ==> Below(s.state2.value, nonce))
  }

  /** Storage holds a ratchet state that came out of the exchange numbered `y`. */
  predicate HoldsFrom(s: States, y: nat) {
    || (s.state1.Derived? && s.state1.kex.y == y)
    || (s.state2.Some? && s.state2.value.Derived? && s.state2.value.kex.y == y)
  }

  /** What holds in every phase. */
  predicate Always(w: World) {
    && FreshBelow(w.net, w.nonce)
    && (forall p :: p in w.net ==>
          && (p.X1? ==> p.x < w.nonce)
          && (p.X2? || p.X3? ==> p.kex.x < w.nonce && p.kex.y < w.nonce))
    && (forall q :: q in w.b2 ==> X2Of(q) in w.net)
    && (forall p, q :: p in w.net && q in w.b2 && p.X2? && p.kex.y == q.y ==> p == X2Of(q))
    && (w.sa.state1 == Empty ==> w.sa.state2 == None)
    && Below(w.sa.state1, w.nonce) && StatesBelow(w.sb, w.nonce)
    && UsesBelow(FaceOf(w.a), w.nonce) && UsesBelow(FaceOf(w.b), w.nonce)
  }

  predicate UsesBelow(f: Face, nonce: nat) {
    && (f.cur.send.kek.Some? ==> f.cur.send.kek.value.kex.y < nonce)
    && (f.nxt.send.kek.Some? ==> f.nxt.send.kek.value.kex.y < nonce)
  }

  /** Nothing is sealed under the exchange `y`, and the responder's session does not use it. */
  predicate Clean(y: nat, b: Face, net: set<Packet>) {
    !Uses(b, y) && forall m :: m in net && m.Sealed? ==> m.key.kex.y != y
  }

  /** `g` is common to both stored pairs, and it is the one the responder's choice will make the
      initiator preserve: its first state, or its second if the responder lacks the first. */
  predicate Anchored(sa: States, sb: States, g: RatchetState) {
    && Holds(sb, g)
    && (g == sa.state1 || (sa.state2 == Some(g) && sa.state1 != Empty && !Holds(sb, sa.state1)))
  }

  predicate PskFits(a: Face, sa: States, g: RatchetState, psk: RatchetState) {
    Memory(a) == sa ==> psk == if g == a.rs1 then a.rs1 else Empty
  }

  /** A handshake that can still complete was made with `g` or without a ratchet state, leads to the
      initiator's newest state, and is used and known nowhere yet. */
  predicate Outstanding(w: World, g: RatchetState) {
    forall p, q :: p in w.net && q in w.b2 && Completes(p, q) ==>
      && NewRatchet(p.kex) == w.sa.state1 && p.to == q.kidRecv && (q.ratchet == Empty || q.ratchet == g)
      && !HoldsFrom(w.sb, q.y) && !Uses(FaceOf(w.b), q.y)
  }

  /** An attempt under way: the packets of the attempt are what they should be. */
  predicate Attempt(w: World, g: RatchetState) {
    var a := FaceOf(w.a);
    && a.beta.A1? && a.beta.x1.X1?
    && var x1 := a.beta.x1;
       && x1 in w.net && x1.x < w.nonce && x1.rf1 == a.rs1 && x1.rf2 == (if a.rs2.Some? then a.rs2.value else Empty)
       && a.nxt.recv.kid == Some(x1.kid) && x1.kid in a.routes && Below(a.rs1, w.nonce)
       && (forall p :: p in w.net ==> (p.X1? && p.x == x1.x ==> p == x1) && (p.X3? ==> p.kex.x != x1.x))
       && (forall p :: p in w.net && p.X2? && p.kex.x == x1.x ==>
             && Clean(p.kex.y, FaceOf(w.b), w.net) && !HoldsFrom(w.sb, p.kex.y)
             && PskFits(a, w.sa, g, p.kex.psk))
       && (forall q :: q in w.b2 && q.x == x1.x ==> q.kidSend == x1.kid)
  }

  predicate Unanswered(net: set<Packet>, x: nat) { forall p :: p in net && p.X2? ==> p.kex.x != x }

  /** While something is late, an attempt that may be accepted has no response; if the network is
      `quiet`, nothing is late. An attempt that storage will refuse sees no late answer. */
  ghost predicate Pausing(w: World, quiet: bool)
    requires w.a.beta.A1? && w.a.beta.x1.X1?
  {
    if w.sa == Memory(FaceOf(w.a)) then Late(w) ==> !quiet && Unanswered(w.net, w.a.beta.x1.x)
    else NoLateReply(w.b, w.sb, w.net)
  }

  /** The responder keeps `g` until what is late arrives. */
  ghost predicate Secured(w: World, g: RatchetState) {
    && Anchored(w.sa, w.sb, g) && Outstanding(w, g)
    && Guarded(FaceOf(w.b), w.b.window, w.sb, w.net, w.nonce, g, w.sa.state1)
    && (NoneCompletes(w.net, w.b2) || NoLateReply(w.b, w.sb, w.net))
  }

  /** The initiator has no response yet. */
  ghost predicate Hello(w: World, g: RatchetState, quiet: bool) {
    && Ended(FaceOf(w.a)) && Secured(w, g)
    && (w.a.beta.A1? ==> Attempt(w, g) && Pausing(w, quiet))
  }

  /** The initiator has the response; the responder's session of this exchange does not exist. */
  ghost predicate Completed(w: World, g: RatchetState) {
    var a := FaceOf(w.a);
    && Awaiting(a)
    && var kex := KexOf(a.nxt);
       && a.nxt == InitiatorKey(kex, a.nxt.send.kid.value, a.nxt.recv.kid) && kex.y < w.nonce
       && w.sa.state1 == a.rs1 && Secured(w, g) && NoLateReply(w.b, w.sb, w.net)
       && Unused(w.net, a.nxt.send.kek)
       && (forall m :: m in w.net && m.Sealed? && Some(m.key) == a.nxt.recv.kek ==> m.body.D?)
       && !Uses(FaceOf(w.b), kex.y)
       && (forall q :: q in w.b2 && q.Exchange() == kex ==>
             Some(q.kidRecv) == a.nxt.send.kid && Some(q.kidSend) == a.nxt.recv.kid)
       && (a.beta.A3? ==> a.beta.x3.X3? && a.beta.x3.kex == kex && a.beta.x3 in w.net && a.rs2.Some?)
  }

  /** The responder's session of the exchange exists; its confirmation has not arrived. */
  predicate Confirming(w: World) {
    && XkInv(FaceOf(w.a), FaceOf(w.b), w.net, w.nonce)
    && w.sa.state1 == w.a.rs1 && w.sb == Memory(FaceOf(w.b))
    && NoneCompletes(w.net, w.b2)
    && (w.a.beta.A3? ==> w.a.beta.x3 in w.net && w.a.rs2.Some?)
  }

  /** Both sides are established, or were; memory and storage agree. */
  predicate Established(w: World) {
    && PairInv(FaceOf(w.a), FaceOf(w.b), w.net, w.nonce) && !w.a.wasBob
    && w.sa == Memory(FaceOf(w.a)) && w.sb == Memory(FaceOf(w.b))
    && NoneCompletes(w.net, w.b2)
  }

  ghost predicate WorldInv(w: World, quiet: bool) {
    && Always(w)
    && ((exists g :: Hello(w, g, quiet)) || (exists g :: Completed(w, g)) || Confirming(w) || Established(w))
  }

  ghost predicate Share(s: States, t: States) { exists g :: Holds(s, g) && Holds(t, g) }

  lemma InvShares(w: World, quiet: bool)
    requires WorldInv(w, quiet)
    ensures Share(w.sa, w.sb)
  {
    hide Guarded, Outstanding, Attempt, Pausing, NoLateReply;
    if g :| Hello(w, g, quiet) {
      assert Holds(w.sa, g) && Holds(w.sb, g);
    } else if g :| Completed(w, g) {
      assert Holds(w.sa, g) && Holds(w.sb, g);
    } else if Confirming(w) {
      assert Holds(w.sa, w.a.rs1) && Holds(w.sb, w.a.rs1);
    } else {
      var a, b := FaceOf(w.a), FaceOf(w.b);
      if Mirror(a.cur, b.cur) {
        var g := NewRatchet(KexOf(a.cur));
        assert Holds(w.sa, g) && Holds(w.sb, g);
      } else if Ahead(a, b) {
        assert Holds(w.sa, a.rs1) && Holds(w.sb, a.rs1);
      } else {
        assert Holds(w.sa, b.rs1) && Holds(w.sb, b.rs1);
      }
    }
  }

  // ---------- the responder moves while the initiator is not established ----------

  lemma AlwaysB(w: World, r: Reply)
    requires Always(w) && Modest(FaceOf(w.b), w.sb, r, w.nonce)
    requires FreshBelow(Sent(w.net, r.out.sent), w.nonce + 1)
    ensures Always(Moved(w, false, r))
  {
    ModestBelow(FaceOf(w.b), w.sb, r, w.nonce);
  }

  lemma AttemptB(w: World, g: RatchetState, r: Reply)
    requires Always(w) && Attempt(w, g) && Modest(FaceOf(w.b), w.sb, r, w.nonce)
    ensures Attempt(Moved(w, false, r), g)
  {
    ModestBelow(FaceOf(w.b), w.sb, r, w.nonce);
  }

  lemma AnchorB(w: World, g: RatchetState, r: Reply)
    requires Anchored(w.sa, w.sb, g) && Below(w.sa.state1, w.nonce) && Modest(FaceOf(w.b), w.sb, r, w.nonce)
    requires Holds(r.stored, g)
    ensures Anchored(w.sa, r.stored, g)
  {
  }

  lemma OutstandingB(w: World, g: RatchetState, r: Reply)
    requires Always(w) && Outstanding(w, g) && Modest(FaceOf(w.b), w.sb, r, w.nonce)
    ensures Outstanding(Moved(w, false, r), g)
    ensures NoneCompletes(w.net, w.b2) ==> NoneCompletes(Moved(w, false, r).net, w.b2)
  {
    ModestBelow(FaceOf(w.b), w.sb, r, w.nonce);
    var t := Moved(w, false, r);
    forall p, q | p in t.net && q in t.b2 && Completes(p, q) ensures p in w.net && q.y < w.nonce {
      assert X2Of(q) in w.net;
    }
  }

  /** What a move of the responder's session keeps, whether or not something is late. */
  ghost predicate Guides(w: World, g: RatchetState, r: Reply) {
    && Guards(FaceOf(w.b), w.sb, w.net, w.nonce, g, w.sa.state1, r)
    && (NoLateReply(w.b, w.sb, w.net) ==> Guards(FaceOf(w.b), w.sb, w.net, w.nonce, g, Empty, r))
  }

  lemma KeptB(w: World, g: RatchetState, r: Reply)
    requires Always(w) && Secured(w, g) && Guides(w, g, r)
    ensures var t := Moved(w, false, r);
      && Always(t) && Secured(t, g)
      && (NoneCompletes(w.net, w.b2) ==> NoneCompletes(t.net, t.b2))
      && (NoLateReply(w.b, w.sb, w.net) ==> NoLateReply(t.b, t.sb, t.net))
      && (r.out.sent.Some? ==> r.out.sent.value.Sealed?)
  {
    GuardFresh(FaceOf(r.out.zeta), r.out.zeta.window, r.stored, Sent(w.net, r.out.sent), w.nonce + 1, g, w.sa.state1);
    AlwaysB(w, r);
    AnchorB(w, g, r);
    OutstandingB(w, g, r);
    GuardNoLate(r.out.zeta, r.stored, Sent(w.net, r.out.sent), w.nonce + 1, g, w.sa.state1);
    hide Guarded, Modest, Attempt, Always, Anchored, Outstanding, NoLateReply, NoneCompletes;
  }

  lemma HelloB(w: World, g: RatchetState, quiet: bool, r: Reply)
    requires Always(w) && Hello(w, g, quiet) && Guides(w, g, r)
    ensures var t := Moved(w, false, r); Always(t) && Hello(t, g, quiet)
  {
    hide Guarded, Modest, Attempt, Always, Anchored, Outstanding, NoLateReply, NoneCompletes, Secured;
    KeptB(w, g, r);
    if w.a.beta.A1? {
      AttemptIs(w, g);
      AttemptB(w, g, r);
    }
  }

  lemma AttemptIs(w: World, g: RatchetState)
    requires Attempt(w, g)
    ensures w.a.beta.A1? && w.a.beta.x1.X1? && w.a.beta.x1 in w.net && Below(w.a.rs1, w.nonce)
    ensures Nxt(w.a).recv.kid == Some(w.a.beta.x1.kid) && w.a.beta.x1.rf1 == w.a.rs1
  {
  }

  lemma CompletedB(w: World, g: RatchetState, r: Reply)
    requires Always(w) && Completed(w, g) && Guides(w, g, r)
    ensures var t := Moved(w, false, r); Always(t) && Completed(t, g)
  {
    hide Guarded, Local, Always, Anchored, Outstanding, Secured;
    KeptB(w, g, r);
  }

  lemma ModestBelow(b: Face, stored: States, r: Reply, nonce: nat)
    requires Modest(b, stored, r, nonce) && UsesBelow(b, nonce) && StatesBelow(stored, nonce)
    ensures UsesBelow(FaceOf(r.out.zeta), nonce + 1) && StatesBelow(r.stored, nonce + 1)
    ensures forall y :: HoldsFrom(r.stored, y) ==> HoldsFrom(stored, y) || y == nonce
  {
    assert Holds(r.stored, r.stored.state1) && (r.stored.state2.Some? ==> Holds(r.stored, r.stored.state2.value));
    var f := FaceOf(r.out.zeta);
    assert f.cur.send.kek.Some? ==> Uses(f, f.cur.send.kek.value.kex.y);
    assert f.nxt.send.kek.Some? ==> Uses(f, f.nxt.send.kek.value.kex.y);
  }

  lemma GuardFresh(b: Face, window: seq<nat>, stored: States, net: set<Packet>, nonce: nat, g: RatchetState,
                   s: RatchetState)
    requires Guarded(b, window, stored, net, nonce, g, s)
    ensures FreshBelow(net, nonce) && Holds(stored, g)
  {
  }

  /** The late answer arrives: the responder now holds the initiator's newest state, and nothing else. */
  lemma AnswerArrives(w: World, g: RatchetState, quiet: bool, m: Packet, r: Reply)
    requires Always(w) && Hello(w, g, quiet) && m in w.net
    requires TakesAnswer(w.b, w.sb, w.net, w.nonce, w.sa.state1, m, r)
    ensures var t := Moved(w, false, r); Always(t) && Hello(t, w.sa.state1, quiet)
  {
    var t := Moved(w, false, r);
    var s := w.sa.state1;
    assert LateReply(w.b, w.sb, w.net, m) && NoneCompletes(w.net, w.b2) && NumberedBelow(m, w.nonce);
    GuardFresh(FaceOf(t.b), t.b.window, t.sb, t.net, t.nonce, s, Empty);
    GuardNoLate(t.b, t.sb, t.net, t.nonce, s, Empty);
    GuardAny(FaceOf(t.b), t.b.window, t.sb, t.net, t.nonce, s, s);
  }

  // ---------- the initiator starts an attempt ----------

  /** The initiator's own handshake message makes nothing late. */
  lemma KeptX1(w: World, g: RatchetState, p: Packet, a: Zeta)
    requires Always(w) && Secured(w, g) && !p.Sealed? && !p.X3?
    ensures var t := w.(a := a, net := w.net + {p}, nonce := w.nonce + 1);
      && Secured(t, g) && FreshBelow(t.net, t.nonce)
      && (NoneCompletes(w.net, w.b2) ==> NoneCompletes(t.net, t.b2))
      && (NoLateReply(w.b, w.sb, w.net) ==> NoLateReply(t.b, t.sb, t.net))
  {
    hide Guarded, Anchored;
    GuardX1(FaceOf(w.b), w.b.window, w.sb, w.net, w.nonce, g, w.sa.state1, p);
  }

  lemma Started(w: World, g: RatchetState, quiet: bool, z: Zeta, env: Env, kid: Kid)
    requires Always(w) && Secured(w, g)
    requires !z.wasBob && Cur(z) == NoDuplexKey && Below(z.rs1, w.nonce)
    requires if w.sa == States(z.rs1, z.rs2) then quiet ==> !Late(w) else NoLateReply(w.b, w.sb, w.net)
    ensures
      var t := Moved(w, true, Reply(StartAttempt(z, env, w.nonce, kid), w.sa));
      Always(t) && Hello(t, g, quiet)
  {
    hide Guarded, Local, Secured, NoLateReply, NoneCompletes;
    var o := StartAttempt(z, env, w.nonce, kid);
    KeptX1(w, g, o.sent.value, o.zeta);
  }

  /** A handshake message changes nothing a responder's session depends on. */
  lemma GuardX1(b: Face, window: seq<nat>, stored: States, net: set<Packet>, nonce: nat, g: RatchetState,
                s: RatchetState, p: Packet)
    requires Guarded(b, window, stored, net, nonce, g, s) && !p.Sealed?
    ensures Guarded(b, window, stored, net + {p}, nonce + 1, g, s) && FreshBelow(net + {p}, nonce + 1)
  {
  }

  /** From an established pair of which the initiator is gone, a common state that lasts. */
  lemma EstablishedAnchor(w: World) returns (g: RatchetState)
    requires Established(w)
    ensures Secured(w, g)
  {
    var a, b := FaceOf(w.a), FaceOf(w.b);
    if Mirror(a.cur, b.cur) {
      g := NewRatchet(KexOf(a.cur));
      assert Pending(b) ==> Settled(a);
      MirrorGives(w);
    } else if Ahead(a, b) {
      g := a.rs1;
    } else {
      g := b.rs1;
    }
  }

  /** The only answer the responder would take is the one the initiator gave. */
  lemma MirrorGives(w: World)
    requires Established(w) && Mirror(FaceOf(w.a).cur, FaceOf(w.b).cur)
    ensures AnswersGive(FaceOf(w.b), w.b.window, w.net, w.sa.state1)
  {
    var a, b := FaceOf(w.a), FaceOf(w.b);
    forall m | m in w.net && IsAnswer(b, m)
      ensures NewRatchet(m.body.kex) == w.sa.state1 && Routed(b, b.nxt) && NoRekey(b, w.net)
    {
      assert BodyFact(a, m.body);
    }
  }

  lemma ConfirmingAnchor(w: World)
    requires Confirming(w)
    ensures Secured(w, w.a.rs1) && !Late(w)
  {
  }

  lemma OpenStep(w: World, env: Env, kid: Kid, quiet: bool)
    requires WorldInv(w, quiet) && (quiet ==> !Late(w))
    ensures WorldInv(Moved(w, true, Reply(Opened(w.sa, env, w.nonce, kid), w.sa)), quiet)
  {
    hide Secured, XkInv, PairInv, Attempt, Pausing, Late;
    var g: RatchetState;
    if h :| Hello(w, h, quiet) {
      g := h;
    } else if h :| Completed(w, h) {
      g := h;
    } else if Confirming(w) {
      ConfirmingAnchor(w);
      g := w.a.rs1;
    } else {
      g := EstablishedAnchor(w);
    }
    var z :=
      Zeta(false, 0, 0, true, NoDuplexKey, NoDuplexKey, w.sa.state1, w.sa.state2, Common.NEVER, Common.NEVER, Null,
           seq(WINDOW_LEN, _ => 0), {});
    assert Opened(w.sa, env, w.nonce, kid) == StartAttempt(z, env, w.nonce, kid);
    AlwaysBelow(w);
    Started(w, g, quiet, z, env, kid);
  }

  // ---------- the responder hears a Hello ----------

  function Offered(w: World, q: StateB2): World {
    w.(b2 := w.b2 + {q}, net := w.net + {X2Of(q)}, nonce := w.nonce + 1)
  }

  lemma OfferAlways(w: World, q: StateB2)
    requires Always(w) && q.y == w.nonce && q.x < w.nonce
    ensures Always(Offered(w, q))
    ensures NoneCompletes(w.net, w.b2) ==> NoneCompletes(Offered(w, q).net, Offered(w, q).b2)
  {
  }

  lemma OfferKept(w: World, g: RatchetState, q: StateB2)
    requires Always(w) && Secured(w, g) && q.y == w.nonce && q.x < w.nonce
    ensures var t := Offered(w, q);
      && Secured(t, g)
      && (NoneCompletes(w.net, w.b2) ==> NoneCompletes(t.net, t.b2))
      && (NoLateReply(w.b, w.sb, w.net) ==> NoLateReply(t.b, t.sb, t.net))
  {
    GuardX1(FaceOf(w.b), w.b.window, w.sb, w.net, w.nonce, g, w.sa.state1, X2Of(q));
    OfferAlways(w, q);
    var t := Offered(w, q);
    forall p, r | p in t.net && r in t.b2 && Completes(p, r) ensures p in w.net && r in w.b2 {
    }
  }

  /** The responder's choice from the Hello of the attempt under way. */
  lemma PickFits(w: World, g: RatchetState, quiet: bool, x1: Packet, requireRatchet: bool, kid: Kid)
    requires Hello(w, g, quiet) && x1 in w.net && x1.X1?
    ensures
      var q := ReceivedX1(w.sb, x1, requireRatchet, w.nonce, kid);
      q.Some? && w.a.beta.A1? && x1.x == w.a.beta.x1.x ==>
        x1 == w.a.beta.x1 && q.value.kidSend == w.a.beta.x1.kid && PskFits(FaceOf(w.a), w.sa, g, q.value.ratchet)
  {
    hide Guarded, Outstanding, Pausing, NoLateReply;
  }

  /** What is late leads to the state the responder lacks. */
  lemma LateLacks(w: World, g: RatchetState)
    requires Secured(w, g) && Late(w)
    ensures !Holds(w.sb, w.sa.state1) && w.sa.state1 != Empty && w.sa.state2 == Some(g) && g != w.sa.state1
  {
    if !NoneCompletes(w.net, w.b2) {
      var p, q :| p in w.net && q in w.b2 && Completes(p, q);
      assert HoldsFrom(w.sb, q.y) || !Holds(w.sb, NewRatchet(p.kex));
    } else {
      var m :| m in w.net && LateReply(w.b, w.sb, w.net, m);
      GuardAwaited(w.b, w.sb, w.net, w.nonce, g, w.sa.state1, m);
    }
  }

  /** A responder that insists on a ratchet state it recognises stays silent while something is late. */
  lemma LateSilent(w: World, g: RatchetState, quiet: bool, kid: Kid)
    requires Hello(w, g, quiet) && w.a.beta.A1? && w.sa == Memory(FaceOf(w.a)) && Late(w)
    ensures w.a.beta.x1.X1? && ReceivedX1(w.sb, w.a.beta.x1, true, w.nonce, kid) == None
  {
    hide Guarded, Outstanding, NoLateReply, NoneCompletes;
    LateLacks(w, g);
  }

  lemma HelloOffer(w: World, g: RatchetState, quiet: bool, q: StateB2)
    requires Always(w) && Hello(w, g, quiet) && q.y == w.nonce && q.x < w.nonce
    requires w.a.beta.A1? && q.x == w.a.beta.x1.x ==>
      && q.kidSend == w.a.beta.x1.kid && PskFits(FaceOf(w.a), w.sa, g, q.ratchet)
      && (w.sa == Memory(FaceOf(w.a)) ==> !Late(w))
    ensures Hello(Offered(w, q), g, quiet)
  {
    OfferKept(w, g, q);
    OfferAlways(w, q);
    NewNumber(FaceOf(w.b), w.net, w.nonce);
  }

  lemma CompletedOffer(w: World, g: RatchetState, q: StateB2)
    requires Always(w) && Completed(w, g) && q.y == w.nonce && q.x < w.nonce
    ensures Completed(Offered(w, q), g)
  {
    OfferKept(w, g, q);
    OfferAlways(w, q);
  }

  lemma X1Step(w: World, x1: Packet, requireRatchet: bool, kid: Kid, quiet: bool)
    requires WorldInv(w, quiet) && x1 in w.net && x1.X1? && Allowed(w, HearX1(x1, requireRatchet, kid), quiet)
    ensures WorldInv(Take(w, HearX1(x1, requireRatchet, kid)), quiet)
  {
    hide Secured, XkInv, PairInv, Hello, Completed, ReceivedX1, Late;
    var r := ReceivedX1(w.sb, x1, requireRatchet, w.nonce, kid);
    if r.Some? {
      var q := r.value;
      PickShape(w.sb, x1, requireRatchet, w.nonce, kid);
      OfferAlways(w, q);
      if g :| Hello(w, g, quiet) {
        PickFits(w, g, quiet, x1, requireRatchet, kid);
        if w.a.beta.A1? && x1 == w.a.beta.x1 && w.sa == Memory(FaceOf(w.a)) && Late(w) {
          LateSilent(w, g, quiet, kid);
          NotQuiet(w, g, quiet);
        }
        HelloOffer(w, g, quiet, q);
      } else if g :| Completed(w, g) {
        CompletedOffer(w, g, q);
      } else if Confirming(w) {
        XkForeign(FaceOf(w.a), FaceOf(w.b), w.net, w.nonce, X2Of(q));
        XkKept(FaceOf(w.a), FaceOf(w.a), FaceOf(w.b), w.net + {X2Of(q)}, w.nonce);
      } else {
        PairUnsealed(FaceOf(w.a), FaceOf(w.b), w.net, w.nonce, X2Of(q));
        KeepNonce(FaceOf(w.a), FaceOf(w.b), w.net + {X2Of(q)}, w.nonce);
      }
    }
  }

  lemma NotQuiet(w: World, g: RatchetState, quiet: bool)
    requires Hello(w, g, quiet) && w.a.beta.A1? && w.sa == Memory(FaceOf(w.a)) && Late(w)
    ensures !quiet && Unanswered(w.net, w.a.beta.x1.x)
  {
    hide Secured, Attempt, Late;
  }

  lemma PickShape(sb: States, x1: Packet, requireRatchet: bool, y: nat, kid: Kid)
    requires x1.X1?
    ensures
      var q := ReceivedX1(sb, x1, requireRatchet, y, kid);
      q.Some? ==> q.value.x == x1.x && q.value.y == y && q.value.kidSend == x1.kid
  {
  }

  /** A number not drawn yet is used nowhere. */
  lemma NewNumber(b: Face, net: set<Packet>, nonce: nat)
    requires UsesBelow(b, nonce) && FreshBelow(net, nonce)
    ensures Clean(nonce, b, net)
  {
  }

  // ---------- the initiator hears a response ----------

  lemma HelloStill(w: World, g: RatchetState, quiet: bool, z: Zeta, p: Option<Packet>)
    requires Always(w) && Hello(w, g, quiet) && FaceOf(z) == FaceOf(w.a)
    requires p.Some? ==> w.a.beta.A1? && p.value == w.a.beta.x1
    ensures
      var t := w.(a := z, net := Sent(w.net, p), nonce := w.nonce + 1);
      Always(t) && Hello(t, g, quiet)
  {
    hide Guarded, Local, Anchored, PskFits, FaceOf, NoLateReply, NoneCompletes;
    FaceParts(w.a);
    FaceParts(z);
    GuardNonce(FaceOf(w.b), w.b.window, w.sb, w.net, w.nonce, g, w.sa.state1);
    assert p.Some? ==> w.net + {p.value} == w.net;
  }

  /** The response was made with the state the initiator has to preserve. */
  lemma TrialPreserves(w: World, g: RatchetState, quiet: bool, x2: Packet, disallowDowngrade: bool)
    requires Hello(w, g, quiet) && w.a.beta.A1? && x2 in w.net && x2.X2? && x2.kex.x == w.a.beta.x1.x
    requires w.sa == Memory(FaceOf(w.a)) && TrialDecrypt(w.a, x2.kex.psk, disallowDowngrade).Some?
    ensures
      var t := TrialDecrypt(w.a, x2.kex.psk, disallowDowngrade).value;
      X2Request(w.a, x2.kex, t).new2 == Some(g)
  {
    hide Guarded, Local, Outstanding, Pausing, NoLateReply;
  }

  lemma HelloCompletes(w: World, g: RatchetState, quiet: bool, env: Env, x2: Packet)
    requires Always(w) && Hello(w, g, quiet) && w.a.beta.A1? && x2 in w.net && x2.X2? && x2.kex.x == w.a.beta.x1.x
    requires w.sa == Memory(FaceOf(w.a))
    ensures
      var z := Completing(w.a, env, x2.kex, x2.kid);
      var t := Moved(w, true, Reply(Outcome(z, Some(z.beta.x3), None, Done), States(NewRatchet(x2.kex), Some(g))));
      Always(t) && Completed(t, g)
  {
    hide Guarded, Local, FreshBelow, NoLateReply;
    var z := Completing(w.a, env, x2.kex, x2.kid);
    var t := Moved(w, true, Reply(Outcome(z, Some(z.beta.x3), None, Done), States(NewRatchet(x2.kex), Some(g))));
    assert !Late(w);
    GuardNoLate(w.b, w.sb, w.net, w.nonce, g, w.sa.state1);
    GuardX1(FaceOf(w.b), w.b.window, w.sb, w.net, w.nonce, g, Empty, z.beta.x3);
    GuardNoLate(t.b, t.sb, t.net, t.nonce, g, Empty);
    GuardAny(FaceOf(t.b), t.b.window, t.sb, t.net, t.nonce, g, t.sa.state1);
    assert Outstanding(t, g) by {
      forall p, q | p in t.net && q in t.b2 && Completes(p, q)
        ensures p == z.beta.x3 && x2 == X2Of(q)
      {
      }
    }
  }

  predicate Leads(r: Reply, z: Zeta, sent: Option<Packet>, stored: States) {
    r.out.zeta == z && r.out.sent == sent && r.stored == stored
  }

  /** A response is ignored, restarts the attempt, or is accepted with memory equal to storage. */
  lemma X2Cases(w: World, x2: Packet, env: Env, disallowDowngrade: bool, kid: Kid, io: bool)
    requires x2.X2? && w.a.beta.A1? && w.a.beta.x1.X1?
    ensures
      var r := DoX2(w, x2, env, disallowDowngrade, kid, io);
      var start := StartAttempt(w.a, env, w.nonce, kid);
      var done := Completing(w.a, env, x2.kex, x2.kid);
      var trial := TrialDecrypt(w.a, x2.kex.psk, disallowDowngrade);
      || Leads(r, w.a, None, w.sa)
      || Leads(r, start.zeta, start.sent, w.sa)
      || (&& x2.kex.x == w.a.beta.x1.x && w.sa == States(w.a.rs1, w.a.rs2) && trial.Some?
          && Leads(r, done, Some(done.beta.x3), X2Request(w.a, x2.kex, trial.value).ToNew()))
  {
  }

  lemma X2Step(w: World, x2: Packet, env: Env, disallowDowngrade: bool, kid: Kid, io: bool, quiet: bool)
    requires WorldInv(w, quiet) && x2 in w.net && x2.X2? && w.a.beta.A1?
    ensures WorldInv(Moved(w, true, DoX2(w, x2, env, disallowDowngrade, kid, io)), quiet)
  {
    hide Secured, XkInv, PairInv, Hello, Completed, Always, StartAttempt, Completing, FaceOf, DoX2, TrialDecrypt,
         Established, Confirming, Late, NoLateReply;
    InAttempt(w, quiet);
    var g :| Hello(w, g, quiet);
    AttemptFacts(w, g, quiet);
    X2Cases(w, x2, env, disallowDowngrade, kid, io);
    MemoryIs(w.a);
    var r := DoX2(w, x2, env, disallowDowngrade, kid, io);
    if Leads(r, w.a, None, w.sa) {
      HelloStill(w, g, quiet, w.a, None);
    } else if Leads(r, StartAttempt(w.a, env, w.nonce, kid).zeta, StartAttempt(w.a, env, w.nonce, kid).sent, w.sa) {
      Started(w, g, quiet, w.a, env, kid);
    } else {
      TrialPreserves(w, g, quiet, x2, disallowDowngrade);
      HelloCompletes(w, g, quiet, env, x2);
    }
  }

  lemma InAttempt(w: World, quiet: bool)
    requires WorldInv(w, quiet) && w.a.beta.A1?
    ensures exists g :: Hello(w, g, quiet)
  {
    hide Secured, Attempt, Pausing;
  }

  lemma AttemptFacts(w: World, g: RatchetState, quiet: bool)
    requires Always(w) && Hello(w, g, quiet)
    ensures !w.a.wasBob && Cur(w.a) == NoDuplexKey && Secured(w, g)
    ensures w.a.beta.A1? ==>
      && w.a.beta.x1.X1? && Below(w.a.rs1, w.nonce)
      && if w.sa == States(w.a.rs1, w.a.rs2) then quiet ==> !Late(w) else NoLateReply(w.b, w.sb, w.net)
  {
    hide Secured, Late, NoLateReply;
  }

  // ---------- the responder hears the third message ----------

  lemma DropKept(w: World, q: StateB2, g: RatchetState)
    requires Secured(w, g)
    ensures Secured(Dropped(w, q), g)
    ensures NoneCompletes(w.net, w.b2) ==> NoneCompletes(w.net, w.b2 - {q})
  {
    hide Guarded, Anchored, NoLateReply;
    GuardNonce(FaceOf(w.b), w.b.window, w.sb, w.net, w.nonce, g, w.sa.state1);
  }

  lemma DropPhase(w: World, q: StateB2, g: RatchetState, quiet: bool)
    requires Always(w)
    ensures Always(Dropped(w, q))
    ensures Hello(w, g, quiet) ==> Hello(Dropped(w, q), g, quiet)
    ensures Completed(w, g) ==> Completed(Dropped(w, q), g)
  {
    if Secured(w, g) { DropKept(w, q, g); }
  }

  lemma DropStep(w: World, q: StateB2, quiet: bool)
    requires WorldInv(w, quiet)
    ensures WorldInv(Dropped(w, q), quiet)
  {
    hide Guarded, XkInv, PairInv, Hello, Completed, Always;
    DropPhase(w, q, Empty, quiet);
    if g :| Hello(w, g, quiet) {
      DropPhase(w, q, g, quiet);
    } else if g :| Completed(w, g) {
      DropPhase(w, q, g, quiet);
    } else if Confirming(w) {
      XkKept(FaceOf(w.a), FaceOf(w.a), FaceOf(w.b), w.net, w.nonce);
    } else {
      KeepNonce(FaceOf(w.a), FaceOf(w.b), w.net, w.nonce);
    }
  }

  /** A rejection sealed under an exchange the session does not use. */
  lemma GuardOther(b: Face, window: seq<nat>, stored: States, net: set<Packet>, nonce: nat, g: RatchetState,
                   s: RatchetState, m: Packet)
    requires Guarded(b, window, stored, net, nonce, g, s)
    requires m.Sealed? && !Uses(b, m.key.kex.y) && m.key.kex.y < nonce && m.body.D?
    ensures Guarded(b, window, stored, net + {m}, nonce + 1, g, s)
  {
    StepsSame(b, net, m);
  }

  /** A third message completes a half-open handshake. */
  ghost predicate Completing3(w: World, g: RatchetState, x3: Packet, q: StateB2) {
    Always(w) && Secured(w, g) && x3 in w.net && q in w.b2 && Completes(x3, q)
  }

  /** At most one half-open handshake per exchange, so completing it leaves none to complete. */
  lemma LastOne(w: World, g: RatchetState, x3: Packet, q: StateB2)
    requires Completing3(w, g, x3, q)
    ensures NoneCompletes(w.net, w.b2 - {q}) && NewRatchet(q.Exchange()) == w.sa.state1
    ensures !Uses(FaceOf(w.b), q.y) && !HoldsFrom(w.sb, q.y) && q.y < w.nonce && NoLateReply(w.b, w.sb, w.net)
    ensures forall p :: p in w.net && p.X2? && p.kex.y == q.y ==> p.kex == q.Exchange()
  {
    hide Guarded, NoLateReply;
    forall p, r | p in w.net && r in w.b2 - {q} ensures !Completes(p, r) {
      assert Completes(p, r) ==> X2Of(r) == X2Of(q);
    }
  }

  function Refuses(w: World, q: StateB2): World { Dropped(w, q).(net := w.net + {Rejection(q, false).value}) }

  function Gives(w: World, q: StateB2): World { Dropped(w, q).(sb := States(NewRatchet(q.Exchange()), None)) }

  function Creates(w: World, q: StateB2, env: Env): World {
    Gives(w, q).(b := NewSession(q, env), net := w.net + {Sealed(q.kidSend, Key(q.Exchange(), Kek, true), 0, C1)})
  }

  lemma RefusesKept(w: World, g: RatchetState, x3: Packet, q: StateB2)
    requires Completing3(w, g, x3, q)
    ensures var t := Refuses(w, q); Always(t) && Secured(t, g) && !Late(t)
  {
    LastOne(w, g, x3, q);
    GuardNoLate(w.b, w.sb, w.net, w.nonce, g, w.sa.state1);
    var t := Refuses(w, q);
    GuardOther(FaceOf(w.b), w.b.window, w.sb, w.net, w.nonce, g, Empty, Rejection(q, false).value);
    GuardFresh(FaceOf(w.b), w.b.window, w.sb, t.net, t.nonce, g, Empty);
    GuardNoLate(t.b, t.sb, t.net, t.nonce, g, Empty);
    GuardAny(FaceOf(t.b), t.b.window, t.sb, t.net, t.nonce, g, t.sa.state1);
  }

  /** Storage was changed but the key id had been given away: no session, both hosts hold the new state. */
  lemma GivesKept(w: World, g: RatchetState, x3: Packet, q: StateB2)
    requires Completing3(w, g, x3, q)
    ensures var t := Gives(w, q); Always(t) && Secured(t, w.sa.state1) && !Late(t)
  {
    LastOne(w, g, x3, q);
    var t := Gives(w, q);
    assert !w.b.beta.Null? ==> w.b.rs1 != w.sa.state1;
    assert Guarded(FaceOf(t.b), t.b.window, t.sb, t.net, t.nonce, w.sa.state1, w.sa.state1);
  }

  /** The responder's new session makes storage forget the state that its old one expects there. */
  lemma OldSessionStale(w: World, g: RatchetState, x3: Packet, q: StateB2)
    requires Completing3(w, g, x3, q) && !w.b.beta.Null?
    ensures w.b.rs1 != NewRatchet(q.Exchange()) && !Holds(w.sb, NewRatchet(q.Exchange()))
  {
    LastOne(w, g, x3, q);
  }

  lemma CreatesKept(w: World, g: RatchetState, x3: Packet, q: StateB2, env: Env)
    requires Completing3(w, g, x3, q)
    ensures var t := Creates(w, q, env); Always(t) && Secured(t, w.sa.state1) && !Late(t)
  {
    LastOne(w, g, x3, q);
    GuardFresh(FaceOf(w.b), w.b.window, w.sb, w.net, w.nonce, g, w.sa.state1);
    var t := Creates(w, q, env);
    assert FreshBelow(t.net, t.nonce);
    assert Guarded(FaceOf(t.b), t.b.window, t.sb, t.net, t.nonce, w.sa.state1, w.sa.state1);
  }

  /** The third message of an attempt that the initiator has given up. */
  lemma HelloRefuses(w: World, g: RatchetState, quiet: bool, x3: Packet, q: StateB2)
    requires Completing3(w, g, x3, q) && Hello(w, g, quiet)
    ensures Hello(Refuses(w, q), g, quiet)
  {
    hide Secured, NoLateReply, NoneCompletes, PskFits, FaceOf;
    LastOne(w, g, x3, q);
    RefusesKept(w, g, x3, q);
  }

  lemma HelloGives(w: World, g: RatchetState, quiet: bool, x3: Packet, q: StateB2)
    requires Completing3(w, g, x3, q) && Hello(w, g, quiet)
    ensures Hello(Gives(w, q), w.sa.state1, quiet)
  {
    hide Secured, NoLateReply, NoneCompletes;
    LateThird(w, g, quiet, x3, q);
    LastOne(w, g, x3, q);
    GivesKept(w, g, x3, q);
  }

  lemma HelloCreates(w: World, g: RatchetState, quiet: bool, x3: Packet, q: StateB2, env: Env)
    requires Completing3(w, g, x3, q) && Hello(w, g, quiet)
    ensures Hello(Creates(w, q, env), w.sa.state1, quiet)
  {
    hide Secured, NoLateReply, NoneCompletes;
    LateThird(w, g, quiet, x3, q);
    LastOne(w, g, x3, q);
    CreatesKept(w, g, x3, q, env);
  }

  lemma LateThird(w: World, g: RatchetState, quiet: bool, x3: Packet, q: StateB2)
    requires Completing3(w, g, x3, q) && Hello(w, g, quiet)
    ensures w.a.beta.A1? && w.sa == Memory(FaceOf(w.a)) ==> Unanswered(w.net, w.a.beta.x1.x)
  {
    assert !NoneCompletes(w.net, w.b2);
  }

  /** The third message of the exchange the initiator holds. */
  lemma CompletedHears3(w: World, g: RatchetState, x3: Packet, q: StateB2, env: Env)
    requires Completing3(w, g, x3, q) && Completed(w, g)
    ensures Completed(Refuses(w, q), g)
    ensures Completed(Gives(w, q), w.sa.state1)
    ensures Confirming(Creates(w, q, env))
  {
    LastOne(w, g, x3, q);
    RefusesKept(w, g, x3, q);
    GivesKept(w, g, x3, q);
    CreatesKept(w, g, x3, q, env);
    assert q.Exchange() == KexOf(Nxt(w.a));
  }

  lemma X3Cases(w: World, x3: Packet, q: StateB2, env: Env, act: Accept, io: bool)
    requires x3.X3?
    ensures
      var t := DoX3(w, x3, q, env, act, io);
      t == Dropped(w, q) || (Completes(x3, q) && (t == Refuses(w, q) || t == Gives(w, q) || t == Creates(w, q, env)))
  {
  }

  lemma X3Step(w: World, x3: Packet, q: StateB2, env: Env, act: Accept, io: bool, quiet: bool)
    requires WorldInv(w, quiet) && x3 in w.net && x3.X3? && q in w.b2
    ensures WorldInv(DoX3(w, x3, q, env, act, io), quiet)
  {
    hide Guarded, XkInv, PairInv, Hello, Completed, Always, DoX3, Refuses, Gives, Creates, Secured;
    X3Cases(w, x3, q, env, act, io);
    if Completes(x3, q) {
      assert !NoneCompletes(w.net, w.b2);
      var g: RatchetState;
      if h :| Hello(w, h, quiet) {
        g := h;
        HelloIs(w, g, quiet);
        HelloRefuses(w, g, quiet, x3, q);
        HelloGives(w, g, quiet, x3, q);
        HelloCreates(w, g, quiet, x3, q, env);
      } else {
        g :| Completed(w, g);
        CompletedGuard(w, g);
        CompletedHears3(w, g, x3, q, env);
      }
      RefusesKept(w, g, x3, q);
      GivesKept(w, g, x3, q);
      CreatesKept(w, g, x3, q, env);
    }
    DropStep(w, q, quiet);
  }

  lemma HelloIs(w: World, g: RatchetState, quiet: bool)
    requires Hello(w, g, quiet)
    ensures Secured(w, g)
  {
  }

  // ---------- the initiator moves before it is established ----------

  /** No sealed packet opens, so nothing changes. */
  lemma HelloDeaf(w: World, g: RatchetState, quiet: bool, env: Env, m: Packet, kid: Kid, io: bool)
    requires Hello(w, g, quiet) && m.Sealed? && !w.a.beta.Null?
    ensures Leads(HostReceive(w.a, w.sa, env, m, w.nonce, kid, io), w.a, None, w.sa)
    ensures Leads(Reply(SendPayload(w.a, env), w.sa), w.a, None, w.sa)
  {
    hide Secured, Attempt, Pausing;
  }

  lemma HelloTimer(w: World, g: RatchetState, quiet: bool, env: Env, kid: Kid)
    requires Hello(w, g, quiet) && !w.a.beta.Null?
    ensures
      var o := Service(w.a, env, w.nonce, kid);
      || o == StartAttempt(w.a, env, w.nonce, kid)
      || (FaceOf(o.zeta) == FaceOf(w.a) && (o.sent.Some? ==> o.sent.value == w.a.beta.x1))
  {
    hide Secured, Attempt, Pausing;
  }

  lemma CompletedHears(w: World, g: RatchetState, env: Env, m: Packet, kid: Kid, io: bool)
    requires Completed(w, g) && m in w.net && m.Sealed? && !w.a.beta.Null?
    ensures
      var r := HostReceive(w.a, w.sa, env, m, w.nonce, kid, io);
      && r.stored == w.sa && r.out.sent == None
      && (FaceOf(r.out.zeta) == FaceOf(w.a) || FaceOf(r.out.zeta) == FaceOf(Expire(w.a)))
    ensures Leads(Reply(SendPayload(w.a, env), w.sa), w.a, None, w.sa)
  {
    hide Secured;
  }

  lemma CompletedTimer(w: World, g: RatchetState, env: Env, kid: Kid)
    requires Completed(w, g) && !w.a.beta.Null?
    ensures
      var o := Service(w.a, env, w.nonce, kid);
      || (w.a.timeoutTimer <= env.now && o == StartAttempt(w.a, env, w.nonce, kid))
      || (FaceOf(o.zeta) == FaceOf(w.a) && (o.sent.Some? ==> o.sent.value in w.net))
  {
    hide Secured;
  }

  lemma CompletedStill(w: World, g: RatchetState, z: Zeta)
    requires Always(w) && Completed(w, g)
    requires FaceOf(z) == FaceOf(w.a) || FaceOf(z) == FaceOf(Expire(w.a))
    ensures
      var t := w.(a := z, nonce := w.nonce + 1);
      Always(t) && Completed(t, g)
  {
    GuardNonce(FaceOf(w.b), w.b.window, w.sb, w.net, w.nonce, g, w.sa.state1);
  }

  // ---------- established sessions ----------

  /** Memory and storage after a transition, and the numbers of the keys it leaves. */
  predicate Tidy(o: Outcome, stored: States, nonce: nat) {
    stored == Memory(FaceOf(o.zeta)) && UsesBelow(FaceOf(o.zeta), nonce + 1)
  }

  lemma TidyC1(z: Zeta, stored: States, env: Env, m: Packet, nonce: nat, io: bool)
    requires m.Sealed? && stored == Memory(FaceOf(z)) && !z.beta.A3? && UsesBelow(FaceOf(z), nonce)
    ensures
      var answer := AnswerTo(stored, Some(C1Request(z)), io);
      var o := ReceivedC1(z, env, m.to, m.key, m.counter, answer);
      Tidy(o, Commit(stored, o.save, answer), nonce)
  {
    hide SendControl, UpdateWindow, Expire, Confirmed, FaceOf;
    MemoryIs(z);
    SameSlots(z, m.counter, C2, 0);
    var w := UpdateWindow(z, m.counter);
    if w.Some? {
      MemoryIs(w.value);
      FaceParts(w.value);
      SameSlots(w.value, 0, C2, 0);
      ConfirmedSlots(w.value, env);
      SameSlots(Confirmed(w.value, env), 0, C2, 0);
    }
  }

  lemma TidyK1(z: Zeta, stored: States, env: Env, m: Packet, nonce: nat, kid: Kid, io: bool)
    requires m.Sealed? && m.body.K1? && stored == Memory(FaceOf(z)) && UsesBelow(FaceOf(z), nonce)
    ensures
      var answer := AnswerTo(stored, Some(K1Request(z, Kex(m.body.x, nonce, z.rs1))), io);
      var o := ReceivedK1(z, env, m.to, m.key, m.counter, m.body, nonce, kid, answer);
      Tidy(o, Commit(stored, o.save, answer), nonce)
  {
    hide SendControl, UpdateWindow, Expire, Remap, Answering, FaceOf;
    MemoryIs(z);
    SameSlots(z, m.counter, C1, kid);
    var w := UpdateWindow(z, m.counter);
    if w.Some? {
      MemoryIs(w.value);
      MemoryIs(Remap(w.value, kid));
      var kex := Kex(m.body.x, nonce, z.rs1);
      var r := Remap(w.value, kid);
      SameSlots(w.value, m.counter, C1, kid);
      SameSlots(r, m.counter, C1, kid);
      AnsweringSlots(r, env, kex, m.body.kid, kid);
      SameSlots(Answering(r, env, kex, m.body.kid, kid), 0, K2(kex, kid), kid);
    }
  }

  lemma TidyK2(z: Zeta, stored: States, env: Env, m: Packet, nonce: nat, io: bool)
    requires m.Sealed? && m.body.K2? && m.body.kex.y < nonce && (z.beta.R1? ==> z.rs2.None?)
    requires stored == Memory(FaceOf(z)) && UsesBelow(FaceOf(z), nonce)
    ensures
      var answer := AnswerTo(stored, Some(K2Request(z, m.body.kex)), io);
      var o := ReceivedK2(z, env, m.to, m.key, m.counter, m.body, answer);
      Tidy(o, Commit(stored, o.save, answer), nonce)
  {
    hide SendControl, UpdateWindow, Expire, Advancing, FaceOf;
    MemoryIs(z);
    FaceParts(z);
    SameSlots(z, m.counter, C1, 0);
    var w := UpdateWindow(z, m.counter);
    if w.Some? {
      MemoryIs(w.value);
      FaceParts(w.value);
      SameSlots(w.value, 0, C1, 0);
      AdvancingSlots(w.value, env, m.body.kex, m.body.kid);
      SameSlots(Advancing(w.value, env, m.body.kex, m.body.kid), 0, C1, 0);
    }
  }

  /** A session whose memory equals storage keeps it so. */
  lemma TidyReceive(z: Zeta, stored: States, env: Env, m: Packet, nonce: nat, kid: Kid, io: bool)
    requires m.Sealed? && stored == Memory(FaceOf(z)) && !z.beta.A3? && (z.beta.R1? ==> z.rs2.None?)
    requires (m.body.K2? ==> m.body.kex.y < nonce) && UsesBelow(FaceOf(z), nonce)
    ensures
      var r := HostReceive(z, stored, env, m, nonce, kid, io);
      Tidy(r.out, r.stored, nonce)
  {
    if m.to in z.routes && m.body.C1? {
      HostC1(z, stored, env, m, nonce, kid, io);
      TidyC1(z, stored, env, m, nonce, io);
    } else if m.to in z.routes && m.body.K1? {
      HostK1(z, stored, env, m, nonce, kid, io);
      TidyK1(z, stored, env, m, nonce, kid, io);
    } else if m.to in z.routes && m.body.K2? {
      hide HostReceive, ReceivedK2, Tidy;
      HostK2(z, stored, env, m, nonce, kid, io);
      TidyK2(z, stored, env, m, nonce, io);
    }
  }

  lemma TidyTimers(z: Zeta, stored: States, env: Env, nonce: nat, kid: Kid)
    requires stored == Memory(FaceOf(z)) && !z.beta.A1? && !z.beta.A3? && UsesBelow(FaceOf(z), nonce)
    ensures Tidy(Service(z, env, nonce, kid), stored, nonce)
    ensures Tidy(SendPayload(z, env), stored, nonce)
  {
  }

  /** What an established pair says about the numbers of its ratchet states. */
  lemma PairBelow(p: Face, q: Face, net: set<Packet>, nonce: nat)
    requires PairInv(p, q, net, nonce)
    ensures FreshBelow(net, nonce) && StatesBelow(Memory(p), nonce) && StatesBelow(Memory(q), nonce)
    ensures p.rs1 != Empty && q.rs1 != Empty
  {
  }

  lemma EstablishedMove(w: World, atA: bool, r: Reply)
    requires Always(w) && Established(w) && Tidy(r.out, r.stored, w.nonce)
    requires Kept(r.out, FaceOf(Acting(w, !atA)), w.net, w.nonce)
    requires r.out.sent.Some? ==> r.out.sent.value.Sealed?
    ensures Always(Moved(w, atA, r)) && Established(Moved(w, atA, r))
  {
    hide PairInv, FreshBelow, StatesBelow;
    var t := Moved(w, atA, r);
    PairInvSymmetric(FaceOf(t.a), FaceOf(t.b), t.net, t.nonce);
    PairInvSymmetric(FaceOf(w.a), FaceOf(w.b), w.net, w.nonce);
    PairBelow(FaceOf(t.a), FaceOf(t.b), t.net, t.nonce);
    StatesOf(w.sa);
    StatesOf(t.sa);
  }

  lemma StatesOf(s: States)
    ensures forall n :: StatesBelow(s, n) ==> Below(s.state1, n)
  {
  }

  /** Only sealed packets come out of an established session. */
  lemma SealedReceive(z: Zeta, env: Env, m: Packet, nonce: nat, kid: Kid, answer: SaveResult)
    requires m.Sealed?
    ensures var o := Receive(z, env, m, nonce, kid, answer); o.sent.Some? ==> o.sent.value.Sealed?
  {
  }

  lemma SealedTimers(z: Zeta, env: Env, nonce: nat, kid: Kid)
    requires !z.beta.A1? && !z.beta.A3?
    ensures var o := Service(z, env, nonce, kid); o.sent.Some? ==> o.sent.value.Sealed?
    ensures var o := SendPayload(z, env); o.sent.Some? ==> o.sent.value.Sealed?
  {
  }

  lemma EstablishedBasics(w: World, atA: bool)
    requires Always(w) && Established(w)
    ensures
      var z := Acting(w, atA);
      && !z.beta.A1? && !z.beta.A3? && (z.beta.R1? ==> z.rs2.None?)
      && StoredAt(w, atA) == Memory(FaceOf(z))
      && PairInv(FaceOf(z), FaceOf(Acting(w, !atA)), w.net, w.nonce)
  {
    PairInvSymmetric(FaceOf(w.a), FaceOf(w.b), w.net, w.nonce);
  }

  lemma EstablishedHears(w: World, atA: bool, m: Packet, env: Env, kid: Kid, io: bool)
    requires Always(w) && Established(w) && m in w.net && m.Sealed? && kid !in KeptRoutes(Acting(w, atA))
    ensures
      var t := Moved(w, atA, HostReceive(Acting(w, atA), StoredAt(w, atA), env, m, w.nonce, kid, io));
      Always(t) && Established(t)
  {
    hide PairInv, Receive, FaceOf;
    EstablishedBasics(w, atA);
    var z, stored := Acting(w, atA), StoredAt(w, atA);
    var answer := AnswerTo(stored, Receive(z, env, m, w.nonce, kid, Saved).save, io);
    KeepReceive(z, FaceOf(Acting(w, !atA)), w.net, w.nonce, env, m, kid, answer);
    TidyReceive(z, stored, env, m, w.nonce, kid, io);
    SealedReceive(z, env, m, w.nonce, kid, answer);
    EstablishedMove(w, atA, HostReceive(z, stored, env, m, w.nonce, kid, io));
  }

  lemma EstablishedTimer(w: World, atA: bool, env: Env, kid: Kid)
    requires Always(w) && Established(w) && kid !in KeptRoutes(Acting(w, atA))
    ensures
      var t := Moved(w, atA, Reply(Service(Acting(w, atA), env, w.nonce, kid), StoredAt(w, atA)));
      Always(t) && Established(t)
  {
    hide PairInv, Service, FaceOf;
    EstablishedBasics(w, atA);
    var z, stored := Acting(w, atA), StoredAt(w, atA);
    KeepService(z, FaceOf(Acting(w, !atA)), w.net, w.nonce, env, kid);
    TidyTimers(z, stored, env, w.nonce, kid);
    SealedTimers(z, env, w.nonce, kid);
    EstablishedMove(w, atA, Reply(Service(z, env, w.nonce, kid), stored));
  }

  lemma EstablishedPayload(w: World, atA: bool, env: Env)
    requires Always(w) && Established(w)
    ensures
      var t := Moved(w, atA, Reply(SendPayload(Acting(w, atA), env), StoredAt(w, atA)));
      Always(t) && Established(t)
  {
    hide PairInv, SendPayload, FaceOf;
    EstablishedBasics(w, atA);
    var z, stored := Acting(w, atA), StoredAt(w, atA);
    KeepPayload(z, FaceOf(Acting(w, !atA)), w.net, w.nonce, env);
    TidyTimers(z, stored, env, w.nonce, 0);
    SealedTimers(z, env, w.nonce, 0);
    EstablishedMove(w, atA, Reply(SendPayload(z, env), stored));
  }

  // ---------- waiting for the confirmation ----------

  /** The responder's new session moves. */
  lemma ConfirmingB(w: World, r: Reply)
    requires Always(w) && Confirming(w) && r.stored == w.sb
    requires XkInv(FaceOf(w.a), FaceOf(r.out.zeta), Sent(w.net, r.out.sent), w.nonce + 1)
    requires Cur(r.out.zeta) == Cur(w.b) && Nxt(r.out.zeta) == Nxt(w.b) && Memory(FaceOf(r.out.zeta)) == w.sb
    requires r.out.sent.Some? ==> r.out.sent.value.Sealed?
    ensures Always(Moved(w, false, r)) && Confirming(Moved(w, false, r))
  {
    hide XkInv, FreshBelow;
    XkFresh(FaceOf(w.a), FaceOf(r.out.zeta), Sent(w.net, r.out.sent), w.nonce + 1);
  }

  lemma XkFresh(a: Face, b: Face, net: set<Packet>, nonce: nat)
    requires XkInv(a, b, net, nonce)
    ensures FreshBelow(net, nonce) && (b.beta.S1? || b.beta.Null?) && Settled(b) && !a.wasBob
    ensures (a.beta.A3? || a.beta.Null?) && a.cur == NoDuplexKey && a.rs1 == NewRatchet(KexOf(b.cur))
    ensures Below(a.rs1, nonce) && a.rs1 != Empty && IsKey(a.nxt)
    ensures forall m :: m in net && m.Sealed? ==> Some(m.key) != b.cur.recv.kek
  {
  }

  /** A session in S1 that no packet of its peer reaches keeps its slots and asks storage nothing. */
  lemma S1Moves(b: Zeta, stored: States, env: Env, m: Packet, nonce: nat, kid: Kid, io: bool)
    requires m.Sealed? && (b.beta.S1? || b.beta.Null?) && Some(m.key) != Cur(b).recv.kek
    ensures
      var r := HostReceive(b, stored, env, m, nonce, kid, io);
      && r.stored == stored && Cur(r.out.zeta) == Cur(b) && Nxt(r.out.zeta) == Nxt(b)
      && Memory(FaceOf(r.out.zeta)) == Memory(FaceOf(b)) && (r.out.sent.Some? ==> r.out.sent.value.Sealed?)
      && r.out == Receive(b, env, m, nonce, kid, Saved)
  {
    hide Receive, FaceOf;
    S1Hears(b, env, m, nonce, kid, Saved);
    FaceParts(b);
    FaceParts(HostReceive(b, stored, env, m, nonce, kid, io).out.zeta);
  }

  lemma S1Timers(b: Zeta, env: Env, nonce: nat, kid: Kid)
    requires b.beta.S1? || b.beta.Null?
    ensures
      var o := Service(b, env, nonce, kid);
      && Cur(o.zeta) == Cur(b) && Nxt(o.zeta) == Nxt(b) && Memory(FaceOf(o.zeta)) == Memory(FaceOf(b))
      && (o.sent.Some? ==> o.sent.value.Sealed?)
    ensures
      var o := SendPayload(b, env);
      && Cur(o.zeta) == Cur(b) && Nxt(o.zeta) == Nxt(b) && Memory(FaceOf(o.zeta)) == Memory(FaceOf(b))
      && (o.sent.Some? ==> o.sent.value.Sealed?)
  {
  }

  lemma ConfirmingHearsB(w: World, m: Packet, env: Env, kid: Kid, io: bool)
    requires Always(w) && Confirming(w) && m in w.net && m.Sealed?
    ensures
      var t := Moved(w, false, HostReceive(w.b, w.sb, env, m, w.nonce, kid, io));
      Always(t) && Confirming(t)
  {
    hide XkInv, Receive, HostReceive, FaceOf;
    XkFresh(FaceOf(w.a), FaceOf(w.b), w.net, w.nonce);
    FaceParts(w.b);
    S1Moves(w.b, w.sb, env, m, w.nonce, kid, io);
    XkReceiveB(FaceOf(w.a), w.b, w.net, w.nonce, env, m, kid, Saved);
    ConfirmingB(w, HostReceive(w.b, w.sb, env, m, w.nonce, kid, io));
  }

  lemma ConfirmingTimersB(w: World, env: Env, kid: Kid)
    requires Always(w) && Confirming(w)
    ensures
      var t := Moved(w, false, Reply(Service(w.b, env, w.nonce, kid), w.sb));
      Always(t) && Confirming(t)
    ensures
      var t := Moved(w, false, Reply(SendPayload(w.b, env), w.sb));
      Always(t) && Confirming(t)
  {
    hide XkInv, Service, SendPayload, FaceOf;
    XkFresh(FaceOf(w.a), FaceOf(w.b), w.net, w.nonce);
    FaceParts(w.b);
    S1Timers(w.b, env, w.nonce, kid);
    XkServiceB(FaceOf(w.a), w.b, w.net, w.nonce, env, kid);
    XkPayloadB(FaceOf(w.a), w.b, w.net, w.nonce, env);
    ConfirmingB(w, Reply(Service(w.b, env, w.nonce, kid), w.sb));
    ConfirmingB(w, Reply(SendPayload(w.b, env), w.sb));
  }

  /** What the initiator does with a sealed packet while it waits: nothing visible, stop, or, on
      the confirmation with memory equal to storage, become established. */
  predicate Waits(a: Zeta, stored: States, o: Outcome, after: States) {
    || (&& after == stored && o.sent == None && (o.zeta.beta == a.beta || o.zeta.beta.Null?)
        && o.zeta.rs1 == a.rs1 && o.zeta.rs2 == a.rs2 && Cur(o.zeta) == Cur(a) && Nxt(o.zeta) == Nxt(a))
    || (&& Cur(o.zeta) == Nxt(a) && Nxt(o.zeta) == Cur(a) && after == States(o.zeta.rs1, o.zeta.rs2)
        && o.zeta.rs1 == a.rs1 && (o.sent.Some? ==> o.sent.value.Sealed?))
  }

  lemma WaitsC1(a: Zeta, stored: States, env: Env, m: Packet, io: bool)
    requires m.Sealed? && a.beta.A3? && Cur(a) == NoDuplexKey && a.rs2.Some?
    ensures
      var answer := AnswerTo(stored, Some(C1Request(a)), io);
      var o := ReceivedC1(a, env, m.to, m.key, m.counter, answer);
      Waits(a, stored, o, Commit(stored, o.save, answer))
  {
    hide WindowAccepts;
  }

  lemma WaitsAny(a: Zeta, stored: States, env: Env, m: Packet, nonce: nat, kid: Kid, io: bool)
    requires m.Sealed? && a.beta.A3? && Cur(a) == NoDuplexKey && a.rs2.Some?
    ensures
      var r := HostReceive(a, stored, env, m, nonce, kid, io);
      Waits(a, stored, r.out, r.stored)
  {
    if m.body.C1? && m.to in a.routes {
      HostC1(a, stored, env, m, nonce, kid, io);
      WaitsC1(a, stored, env, m, io);
    } else {
    }
  }

  lemma ConfirmingHearsA(w: World, m: Packet, env: Env, kid: Kid, io: bool)
    requires Always(w) && Confirming(w) && m in w.net && m.Sealed? && w.a.beta.A3?
    ensures
      var t := Moved(w, true, HostReceive(w.a, w.sa, env, m, w.nonce, kid, io));
      Always(t) && (Confirming(t) || Established(t))
  {
    var r := HostReceive(w.a, w.sa, env, m, w.nonce, kid, io);
    var t := Moved(w, true, r);
    assert FaceInv(FaceOf(t.a), FaceOf(w.b), t.net, t.nonce) by {
      var answer := AnswerTo(w.sa, Receive(w.a, env, m, w.nonce, kid, Saved).save, io);
      XkReceiveA(w.a, FaceOf(w.b), w.net, w.nonce, env, m, kid, answer);
    }
    XkFresh(FaceOf(w.a), FaceOf(w.b), w.net, w.nonce);
    FaceParts(w.a);
    FaceParts(t.a);
    WaitsAny(w.a, w.sa, env, m, w.nonce, kid, io);
    if XkInv(FaceOf(t.a), FaceOf(w.b), t.net, t.nonce) {
      XkFresh(FaceOf(t.a), FaceOf(w.b), t.net, t.nonce);
      assert Confirming(t);
    } else {
      PairBelow(FaceOf(t.a), FaceOf(w.b), t.net, t.nonce);
      assert Established(t);
    }
  }

  lemma ConfirmingTimersA(w: World, env: Env, kid: Kid, quiet: bool)
    requires Always(w) && Confirming(w) && w.a.beta.A3?
    ensures WorldInv(Moved(w, true, Reply(Service(w.a, env, w.nonce, kid), w.sa)), quiet)
  {
    hide XkInv, PairInv, Secured, FreshBelow, Hello, Completed, NoLateReply;
    XkFresh(FaceOf(w.a), FaceOf(w.b), w.net, w.nonce);
    XkKept(FaceOf(w.a), FaceOf(w.a), FaceOf(w.b), w.net, w.nonce);
    XkFresh(FaceOf(w.a), FaceOf(w.b), w.net, w.nonce + 1);
    ConfirmingAnchor(w);
    var o := Service(w.a, env, w.nonce, kid);
    if w.a.timeoutTimer <= env.now {
      Started(w, w.a.rs1, quiet, w.a, env, kid);
      assert o == StartAttempt(w.a, env, w.nonce, kid);
    } else {
      assert FaceOf(o.zeta) == FaceOf(w.a) && Sent(w.net, o.sent) == w.net;
      assert Confirming(Moved(w, true, Reply(o, w.sa)));
    }
  }

  lemma ConfirmingPayloadA(w: World, env: Env)
    requires Always(w) && Confirming(w) && w.a.beta.A3?
    ensures var t := Moved(w, true, Reply(SendPayload(w.a, env), w.sa)); Always(t) && Confirming(t)
  {
    hide XkInv, FreshBelow;
    XkFresh(FaceOf(w.a), FaceOf(w.b), w.net, w.nonce);
    XkKept(FaceOf(w.a), FaceOf(w.a), FaceOf(w.b), w.net, w.nonce);
    XkFresh(FaceOf(w.a), FaceOf(w.b), w.net, w.nonce + 1);
  }

  // ---------- one side stops, or a stranger's packet appears ----------

  lemma HaltHello(w: World, g: RatchetState, quiet: bool, atA: bool)
    requires Hello(w, g, quiet)
    ensures Hello(Take(w, Halt(atA)), g, quiet)
  {
    hide Secured, PskFits, NoLateReply, NoneCompletes;
    HaltKept(w, g, atA);
  }

  lemma HaltCompleted(w: World, g: RatchetState, atA: bool)
    requires Completed(w, g)
    ensures Completed(Take(w, Halt(atA)), g)
  {
    hide Secured, NoLateReply;
    HaltKept(w, g, atA);
  }

  lemma HaltKept(w: World, g: RatchetState, atA: bool)
    requires Secured(w, g)
    ensures var t := Take(w, Halt(atA));
      Secured(t, g) && (NoLateReply(w.b, w.sb, w.net) ==> NoLateReply(t.b, t.sb, t.net))
  {
    hide Guarded, Anchored;
    GuardStop(FaceOf(w.b), w.b.window, w.sb, w.net, w.nonce, g, w.sa.state1, Expire(w.b).routes);
  }

  lemma HaltPair(w: World, atA: bool)
    requires Established(w)
    ensures Established(Take(w, Halt(atA)))
  {
    hide PairInv;
    var t := Take(w, Halt(atA));
    PairInvSymmetric(FaceOf(w.a), FaceOf(w.b), w.net, w.nonce);
    KeepStopped(w.a, FaceOf(w.b), w.net, w.nonce);
    KeepStopped(w.b, FaceOf(w.a), w.net, w.nonce);
    PairInvSymmetric(FaceOf(t.a), FaceOf(t.b), t.net, t.nonce);
  }

  lemma HaltStep(w: World, atA: bool, quiet: bool)
    requires WorldInv(w, quiet)
    ensures WorldInv(Take(w, Halt(atA)), quiet)
  {
    hide Guarded, Hello, Completed, XkInv, PairInv;
    if g :| Hello(w, g, quiet) {
      HaltHello(w, g, quiet, atA);
    } else if g :| Completed(w, g) {
      HaltCompleted(w, g, atA);
    } else if Confirming(w) {
      XkStopA(w.a, FaceOf(w.b), w.net, w.nonce);
      XkStopB(FaceOf(w.a), w.b, w.net, w.nonce);
    } else {
      HaltPair(w, atA);
    }
  }

  lemma GuardStranger(b: Face, window: seq<nat>, stored: States, net: set<Packet>, nonce: nat, g: RatchetState,
                      s: RatchetState, m: Packet)
    requires Guarded(b, window, stored, net, nonce, g, s) && m.Sealed? && NotOf(b, m) && NumberedBelow(m, nonce)
    ensures Guarded(b, window, stored, net + {m}, nonce, g, s)
  {
  }

  lemma OtherKept(w: World, g: RatchetState, m: Packet)
    requires Secured(w, g) && Unrelated(w, m)
    ensures var t := w.(net := w.net + {m});
      && Secured(t, g) && (NoLateReply(w.b, w.sb, w.net) ==> NoLateReply(t.b, t.sb, t.net))
      && (NoneCompletes(w.net, w.b2) ==> NoneCompletes(t.net, t.b2))
  {
    hide Guarded, Anchored;
    GuardStranger(FaceOf(w.b), w.b.window, w.sb, w.net, w.nonce, g, w.sa.state1, m);
  }

  lemma OtherHello(w: World, g: RatchetState, quiet: bool, m: Packet)
    requires Hello(w, g, quiet) && Unrelated(w, m)
    ensures Hello(w.(net := w.net + {m}), g, quiet)
  {
    hide Secured, PskFits, NoLateReply, NoneCompletes;
    OtherKept(w, g, m);
  }

  lemma OtherCompleted(w: World, g: RatchetState, m: Packet)
    requires Completed(w, g) && Unrelated(w, m)
    ensures Completed(w.(net := w.net + {m}), g)
  {
    hide Secured, NoLateReply;
    OtherKept(w, g, m);
  }

  lemma OtherStep(w: World, m: Packet, quiet: bool)
    requires WorldInv(w, quiet) && Unrelated(w, m)
    ensures WorldInv(w.(net := w.net + {m}), quiet)
  {
    hide Guarded, Hello, Completed, XkInv, PairInv;
    if g :| Hello(w, g, quiet) {
      OtherHello(w, g, quiet, m);
    } else if g :| Completed(w, g) {
      OtherCompleted(w, g, m);
    } else if Confirming(w) {
      XkForeign(FaceOf(w.a), FaceOf(w.b), w.net, w.nonce, m);
    } else {
      PairForeign(FaceOf(w.a), FaceOf(w.b), w.net, w.nonce, m);
    }
  }

  // ---------- every step ----------

  lemma HearA(w: World, m: Packet, env: Env, kid: Kid, io: bool, quiet: bool)
    requires WorldInv(w, quiet) && Possible(w, Hear(true, m, env, kid, io))
    ensures WorldInv(Take(w, Hear(true, m, env, kid, io)), quiet)
  {
    hide Guarded, Hello, Completed, XkInv, PairInv, HostReceive, Always, FaceOf;
    if g :| Hello(w, g, quiet) {
      HelloDeaf(w, g, quiet, env, m, kid, io);
      HelloStill(w, g, quiet, w.a, None);
    } else if g :| Completed(w, g) {
      CompletedHears(w, g, env, m, kid, io);
      CompletedStill(w, g, HostReceive(w.a, w.sa, env, m, w.nonce, kid, io).out.zeta);
    } else if Confirming(w) {
      XkFresh(FaceOf(w.a), FaceOf(w.b), w.net, w.nonce);
      FaceParts(w.a);
      ConfirmingHearsA(w, m, env, kid, io);
    } else {
      EstablishedHears(w, true, m, env, kid, io);
    }
  }

  /** A sealed packet at the responder: it guides the responder on, or it is the late answer. */
  lemma KeptHears(w: World, g: RatchetState, m: Packet, env: Env, kid: Kid, io: bool)
    requires Secured(w, g) && Possible(w, Hear(false, m, env, kid, io))
    ensures
      var r := HostReceive(w.b, w.sb, env, m, w.nonce, kid, io);
      || Guides(w, g, r)
      || (TakesAnswer(w.b, w.sb, w.net, w.nonce, w.sa.state1, m, r) && !NoLateReply(w.b, w.sb, w.net))
  {
    hide Guarded, Guards, HostReceive, LateReply, Anchored, Outstanding, NoneCompletes;
    GuardNoLate(w.b, w.sb, w.net, w.nonce, g, w.sa.state1);
    GuardReceive(w.b, w.sb, w.net, w.nonce, g, w.sa.state1, env, m, kid, io);
    if NoLateReply(w.b, w.sb, w.net) {
      GuardReceive(w.b, w.sb, w.net, w.nonce, g, Empty, env, m, kid, io);
    }
  }

  lemma HearB(w: World, m: Packet, env: Env, kid: Kid, io: bool, quiet: bool)
    requires WorldInv(w, quiet) && Possible(w, Hear(false, m, env, kid, io))
    ensures WorldInv(Take(w, Hear(false, m, env, kid, io)), quiet)
  {
    hide Secured, Hello, Completed, XkInv, PairInv, HostReceive, Always, FaceOf, Guides, TakesAnswer;
    var r := HostReceive(w.b, w.sb, env, m, w.nonce, kid, io);
    if g :| Hello(w, g, quiet) {
      HelloIs(w, g, quiet);
      KeptHears(w, g, m, env, kid, io);
      if Guides(w, g, r) { HelloB(w, g, quiet, r); } else { AnswerArrives(w, g, quiet, m, r); }
    } else if g :| Completed(w, g) {
      CompletedGuard(w, g);
      KeptHears(w, g, m, env, kid, io);
      CompletedB(w, g, r);
    } else if Confirming(w) {
      ConfirmingHearsB(w, m, env, kid, io);
    } else {
      EstablishedHears(w, false, m, env, kid, io);
    }
  }

  lemma CompletedGuard(w: World, g: RatchetState)
    requires Completed(w, g)
    ensures Secured(w, g) && NoLateReply(w.b, w.sb, w.net)
    ensures !w.a.wasBob && Cur(w.a) == NoDuplexKey && w.sa.state1 == w.a.rs1 && !w.a.beta.A1?
  {
  }

  lemma TimerA(w: World, env: Env, kid: Kid, quiet: bool)
    requires WorldInv(w, quiet) && Possible(w, Timer(true, env, kid)) && Allowed(w, Timer(true, env, kid), quiet)
    ensures WorldInv(Take(w, Timer(true, env, kid)), quiet)
  {
    hide Secured, Hello, Completed, XkInv, PairInv, Service, Always, FaceOf, StartAttempt, Late, NoLateReply;
    MemoryIs(w.a);
    if g :| Hello(w, g, quiet) {
      AttemptFacts(w, g, quiet);
      HelloTimer(w, g, quiet, env, kid);
      var o := Service(w.a, env, w.nonce, kid);
      NotNull(w, g, quiet);
      if o == StartAttempt(w.a, env, w.nonce, kid) {
        Started(w, g, quiet, w.a, env, kid);
      } else {
        HelloStill(w, g, quiet, o.zeta, o.sent);
      }
    } else if g :| Completed(w, g) {
      CompletedTimer(w, g, env, kid);
      CompletedGuard(w, g);
      var o := Service(w.a, env, w.nonce, kid);
      FaceParts(w.a);
      if w.a.timeoutTimer <= env.now && o == StartAttempt(w.a, env, w.nonce, kid) {
        CompletedIsA3(w, g);
        AlwaysBelow(w);
        Started(w, g, quiet, w.a, env, kid);
      } else {
        CompletedStill(w, g, o.zeta);
        assert Sent(w.net, o.sent) == w.net;
      }
    } else if Confirming(w) {
      XkFresh(FaceOf(w.a), FaceOf(w.b), w.net, w.nonce);
      FaceParts(w.a);
      ConfirmingTimersA(w, env, kid, quiet);
    } else {
      EstablishedTimer(w, true, env, kid);
    }
  }

  lemma NotNull(w: World, g: RatchetState, quiet: bool)
    requires Hello(w, g, quiet) && !w.a.beta.Null?
    ensures w.a.beta.A1?
  {
    hide Secured, Attempt, Pausing;
  }

  lemma CompletedIsA3(w: World, g: RatchetState)
    requires Completed(w, g) && !w.a.beta.Null?
    ensures w.a.beta.A3?
  {
    hide Secured;
  }

  lemma AlwaysBelow(w: World)
    requires Always(w)
    ensures Below(w.sa.state1, w.nonce)
  {
  }

  lemma KeptTimers(w: World, g: RatchetState, env: Env, kid: Kid)
    requires Secured(w, g) && !w.b.beta.Null?
    ensures kid !in KeptRoutes(w.b) ==> Guides(w, g, Reply(Service(w.b, env, w.nonce, kid), w.sb))
    ensures Guides(w, g, Reply(SendPayload(w.b, env), w.sb))
  {
    hide Guarded, Guards, Service, SendPayload, Anchored, Outstanding, NoneCompletes;
    GuardNoLate(w.b, w.sb, w.net, w.nonce, g, w.sa.state1);
    GuardPayload(w.b, w.sb, w.net, w.nonce, g, w.sa.state1, env);
    if NoLateReply(w.b, w.sb, w.net) { GuardPayload(w.b, w.sb, w.net, w.nonce, g, Empty, env); }
    if kid !in KeptRoutes(w.b) {
      GuardService(w.b, w.sb, w.net, w.nonce, g, w.sa.state1, env, kid);
      if NoLateReply(w.b, w.sb, w.net) { GuardService(w.b, w.sb, w.net, w.nonce, g, Empty, env, kid); }
    }
  }

  lemma TimerB(w: World, env: Env, kid: Kid, quiet: bool)
    requires WorldInv(w, quiet) && Possible(w, Timer(false, env, kid))
    ensures WorldInv(Take(w, Timer(false, env, kid)), quiet)
  {
    hide Secured, Hello, Completed, XkInv, PairInv, Service, Always, FaceOf, Guides;
    var r := Reply(Service(w.b, env, w.nonce, kid), w.sb);
    if g :| Hello(w, g, quiet) {
      HelloIs(w, g, quiet);
      KeptTimers(w, g, env, kid);
      HelloB(w, g, quiet, r);
    } else if g :| Completed(w, g) {
      CompletedGuard(w, g);
      KeptTimers(w, g, env, kid);
      CompletedB(w, g, r);
    } else if Confirming(w) {
      ConfirmingTimersB(w, env, kid);
    } else {
      EstablishedTimer(w, false, env, kid);
    }
  }

  lemma PayloadA(w: World, env: Env, quiet: bool)
    requires WorldInv(w, quiet) && !w.a.beta.Null?
    ensures WorldInv(Take(w, Payload(true, env)), quiet)
  {
    hide Guarded, Hello, Completed, XkInv, PairInv, SendPayload, Always, FaceOf;
    var m := Sealed(0, Key(Kex(0, 0, Empty), Kek, true), 0, Data);
    if g :| Hello(w, g, quiet) {
      HelloDeaf(w, g, quiet, env, m, 0, false);
      HelloStill(w, g, quiet, w.a, None);
    } else if g :| Completed(w, g) {
      CompletedSilent(w, g, env);
      CompletedStill(w, g, w.a);
    } else if Confirming(w) {
      XkFresh(FaceOf(w.a), FaceOf(w.b), w.net, w.nonce);
      FaceParts(w.a);
      ConfirmingPayloadA(w, env);
    } else {
      EstablishedPayload(w, true, env);
    }
  }

  lemma CompletedSilent(w: World, g: RatchetState, env: Env)
    requires Completed(w, g)
    ensures Leads(Reply(SendPayload(w.a, env), w.sa), w.a, None, w.sa)
  {
    hide Secured;
  }

  lemma PayloadB(w: World, env: Env, quiet: bool)
    requires WorldInv(w, quiet) && !w.b.beta.Null?
    ensures WorldInv(Take(w, Payload(false, env)), quiet)
  {
    hide Secured, Hello, Completed, XkInv, PairInv, SendPayload, Always, FaceOf, Guides;
    var r := Reply(SendPayload(w.b, env), w.sb);
    if g :| Hello(w, g, quiet) {
      HelloIs(w, g, quiet);
      KeptTimers(w, g, env, 0);
      HelloB(w, g, quiet, r);
    } else if g :| Completed(w, g) {
      CompletedGuard(w, g);
      KeptTimers(w, g, env, 0);
      CompletedB(w, g, r);
    } else if Confirming(w) {
      ConfirmingTimersB(w, env, 0);
    } else {
      EstablishedPayload(w, false, env);
    }
  }

  lemma WorldStep(w: World, e: Action, quiet: bool)
    requires WorldInv(w, quiet) && Possible(w, e) && Allowed(w, e, quiet)
    ensures WorldInv(Take(w, e), quiet)
  {
    hide WorldInv, Late;
    match e
    case Open(env, kid) => OpenStep(w, env, kid, quiet);
    case HearX1(x1, requireRatchet, kid) => X1Step(w, x1, requireRatchet, kid, quiet);
    case HearX2(x2, env, disallow, kid, io) => X2Step(w, x2, env, disallow, kid, io, quiet);
    case HearX3(x3, q, env, act, io) => X3Step(w, x3, q, env, act, io, quiet);
    case Hear(atA, m, env, kid, io) =>
      if atA { HearA(w, m, env, kid, io, quiet); } else { HearB(w, m, env, kid, io, quiet); }
    case Timer(atA, env, kid) =>
      if atA { TimerA(w, env, kid, quiet); } else { TimerB(w, env, kid, quiet); }
    case Payload(atA, env) =>
      if atA { PayloadA(w, env, quiet); } else { PayloadB(w, env, quiet); }
    case Halt(atA) => HaltStep(w, atA, quiet);
    case Forget(q) => DropStep(w, q, quiet);
    case Other(m) => OtherStep(w, m, quiet);
  }

  // ---------- runs ----------

  const NoSession :=
    Zeta(false, 0, 0, true, NoDuplexKey, NoDuplexKey, Empty, None, Common.NEVER, Common.NEVER, Null, [], {})

  /** Two hosts that have never met, or that share a one-time password. */
  predicate Start(w: World) {
    && w.a == NoSession && w.b == NoSession.(wasBob := true)
    && w.sa == w.sb && w.sa.state2 == None && !w.sa.state1.Derived?
    && w.b2 == {} && w.net == {}
  }

  predicate IsHistory(ws: seq<World>, es: seq<Action>) {
    && |ws| == |es| + 1 && Start(ws[0])
    && forall i :: 0 <= i < |es| ==> Possible(ws[i], es[i]) && ws[i + 1] == Take(ws[i], es[i])
  }

  ghost predicate AllAllowed(ws: seq<World>, es: seq<Action>, quiet: bool)
    requires |ws| == |es| + 1
  {
    forall i :: 0 <= i < |es| ==> Allowed(ws[i], es[i], quiet)
  }

  ghost predicate IsCareful(ws: seq<World>, es: seq<Action>)
    requires |ws| == |es| + 1
  {
    forall i :: 0 <= i < |es| ==> Careful(ws[i], es[i])
  }

  lemma StartInv(w: World, quiet: bool)
    requires Start(w)
    ensures WorldInv(w, quiet)
  {
    assert Hello(w, w.sa.state1, quiet);
  }

  lemma {:induction false} HistoryInv(ws: seq<World>, es: seq<Action>, i: nat, quiet: bool)
    requires IsHistory(ws, es) && AllAllowed(ws, es, quiet) && i < |ws|
    ensures WorldInv(ws[i], quiet)
  {
    if i == 0 {
      StartInv(ws[0], quiet);
    } else {
      HistoryInv(ws, es, i - 1, quiet);
      WorldStep(ws[i - 1], es[i - 1], quiet);
    }
  }

  /** In every state of every careful history the two hosts' stored pairs share a ratchet state. */
  lemma StoredPairsShare(ws: seq<World>, es: seq<Action>, i: nat)
    requires IsHistory(ws, es) && IsCareful(ws, es) && i < |ws|
    ensures Share(ws[i].sa, ws[i].sb)
  {
    hide Careful, Possible, Take;
    HistoryInv(ws, es, i, true);
    InvShares(ws[i], true);
  }

  /** Whatever the timing, so they do if the responder never answers heedlessly. */
  lemma HeededPairsShare(ws: seq<World>, es: seq<Action>, i: nat)
    requires IsHistory(ws, es) && i < |ws|
    requires forall j :: 0 <= j < |es| ==> !Heedless(ws[j], es[j])
    ensures Share(ws[i].sa, ws[i].sb)
  {
    hide Heedless, Possible, Take;
    HistoryInv(ws, es, i, false);
    InvShares(ws[i], false);
  }

  /** So they do, whatever the timing, if the responder answers only Hellos whose ratchet state it
      recognises, as an application can demand. */
  lemma RecognizedPairsShare(ws: seq<World>, es: seq<Action>, i: nat)
    requires IsHistory(ws, es) && i < |ws|
    requires forall e :: e in es && e.HearX1? ==> e.requireRatchet
    ensures Share(ws[i].sa, ws[i].sb)
  {
    forall j | 0 <= j < |es| ensures !Heedless(ws[j], es[j]) {
      assert es[j] in es;
    }
    HeededPairsShare(ws, es, i);
  }
}
