/** What the two sessions of a pair achieve: a rekey from start to end, and the way back to settled
    keys from every state of every run, when the network delivers. */
module Rounds {
  import opened Wrappers
  import opened Ratchet
  import opened Zeta
  import opened RekeyPair
  import opened Ladders
  import opened Verdicts

  // ---------- paths ----------

  ghost predicate Path(ss: seq<Pair>, es: seq<Event>) {
    && |ss| == |es| + 1
    && forall i :: 0 <= i < |es| ==> Enabled(ss[i], es[i]) && ss[i + 1] == Next(ss[i], es[i])
  }

  lemma PathJoin(ss: seq<Pair>, es: seq<Event>, ts: seq<Pair>, fs: seq<Event>)
    requires Path(ss, es) && Path(ts, fs) && ss[|es|] == ts[0]
    ensures Path(ss + ts[1..], es + fs) && (ss + ts[1..])[0] == ss[0] && (ss + ts[1..])[|es + fs|] == ts[|fs|]
  {
    hide Enabled, Next;
    var us, ds := ss + ts[1..], es + fs;
    forall i | 0 <= i < |ds| ensures Enabled(us[i], ds[i]) && us[i + 1] == Next(us[i], ds[i]) {
      if i >= |es| {
        assert us[i] == ts[i - |es|] && us[i + 1] == ts[i - |es| + 1];
      }
    }
  }

  // ---------- what may still be sent ----------

  /** The next `n` counters of `p` are acceptable to the window of `q`: nothing in it is ahead of them,
      and they are not too far ahead of it. */
  predicate Near(p: Zeta, q: Zeta, n: nat) {
    && |q.window| == WINDOW_LEN && p.sendCounter + n < U64_MAX
    && forall i :: 0 <= i < WINDOW_LEN ==>
         q.window[i] <= p.sendCounter && p.sendCounter + n <= q.window[i] + MAX_SKIP_AHEAD
  }

  lemma NearFresh(p: Zeta, q: Zeta, n: nat)
    requires Near(p, q, n) && n > 0
    ensures FreshCounter(q, p.sendCounter)
  {
  }

  /** One counter was spent, and the packet was taken or not. */
  lemma NearNext(p: Zeta, p': Zeta, q: Zeta, q': Zeta, n: nat)
    requires Near(p, q, n) && n > 0 && p'.sendCounter == p.sendCounter + 1
    requires q'.window == q.window || q'.window == Taken(q.window, p.sendCounter)
    ensures Near(p', q', n - 1)
  {
  }

  /** Both directions. */
  predicate Clear(p: Zeta, q: Zeta, n: nat) { Near(p, q, n) && Near(q, p, n) }

  // ---------- the phases of a rekey between `p`, which starts it, and `q` ----------

  predicate Reached(z: Zeta, k: DuplexKey) { k.recv.kid.Some? && k.recv.kid.value in z.routes }

  /** The current keys are each other's, and each side is reached under its own. */
  predicate Linked(p: Zeta, q: Zeta) {
    && IsKey(Cur(p)) && Mirror(Cur(p), Cur(q)) && Reached(p, Cur(p)) && Reached(q, Cur(q))
    && Cur(p).recv.kid != Nxt(p).recv.kid && Cur(q).recv.kid != Nxt(q).recv.kid
  }

  /** Both remember one ratchet state, that of their keys. */
  predicate SameRatchet(p: Zeta, q: Zeta)
    requires Cur(p).send.kek.Some?
  {
    p.rs1 == q.rs1 == NewRatchet(KexOf(Cur(p))) && p.rs2 == None && q.rs2 == None
  }

  /** Both are settled under mirrored keys. */
  predicate Settles(p: Zeta, q: Zeta) { p.beta.S2? && q.beta.S2? && Linked(p, q) && SameRatchet(p, q) }

  /** `p` waits for the answer to its rekey, and `q` may answer. */
  predicate Asking(p: Zeta, q: Zeta) {
    && p.beta.R1? && p.beta.k1.K1? && p.beta.k1.x == p.beta.x && p.beta.k1.psk == p.rs1
    && Nxt(p).recv.kid == Some(p.beta.k1.kid) && Reached(p, Nxt(p))
    && RekeysAsBob(q) && Linked(p, q) && SameRatchet(p, q)
  }

  /** `q` has answered and waits for the confirmation. */
  predicate Replying(p: Zeta, q: Zeta) {
    && p.beta.R1? && p.beta.k1.K1? && p.beta.k1.psk == p.rs1 && Reached(p, Nxt(p)) && p.rs2 == None
    && q.beta.R2? && Linked(p, q) && Reached(q, Nxt(q)) && IsKey(Nxt(q))
    && Nxt(q) == ResponderKey(KexOf(Nxt(q)), Nxt(q).send.kid.value, Nxt(q).recv.kid.value)
    && q.beta.k2 == K2(KexOf(Nxt(q)), Nxt(q).recv.kid.value)
    && KexOf(Nxt(q)).x == p.beta.x && KexOf(Nxt(q)).psk == p.rs1 && Nxt(q).send.kid == Nxt(p).recv.kid
    && q.rs1 == NewRatchet(KexOf(Nxt(q))) && q.rs2.Some?
  }

  /** `p` has the new keys and confirms them. */
  predicate Confirming(p: Zeta, q: Zeta) {
    && p.beta.S1? && (q.beta.R2? || q.beta.A3?) && IsKey(Cur(p)) && Mirror(Cur(p), Nxt(q))
    && Reached(p, Cur(p)) && Reached(q, Nxt(q))
    && Cur(p).recv.kid != Nxt(p).recv.kid && Cur(q).recv.kid != Nxt(q).recv.kid
    && p.rs1 == q.rs1 == NewRatchet(KexOf(Cur(p))) && p.rs2 == None
  }

  /** `p` waits for the acknowledgement, and `q` has the keys too. */
  predicate Unacked(p: Zeta, q: Zeta) {
    p.beta.S1? && CanSend(q) && Linked(p, q) && p.rs1 == NewRatchet(KexOf(Cur(p))) && p.rs2 == None
  }

  // ---------- one side at a time ----------

  /** A control packet under the current keys. */
  function Control(p: Zeta, c: nat, body: Body): Packet
    requires Cur(p).send.kek.Some? && Cur(p).send.kid.Some?
  {
    Sealed(Cur(p).send.kid.value, Cur(p).send.kek.value, c, body)
  }

  predicate Due(z: Zeta, env: Env) { z.resendTimer <= env.now < z.timeoutTimer }

  /** One counter is spent on `body`, under the keys that are then current. */
  predicate Speaks(p: Zeta, o: Outcome, body: Body) {
    && o.zeta.sendCounter == p.sendCounter + 1 && Cur(o.zeta).send.kek.Some? && Cur(o.zeta).send.kid.Some?
    && o.sent == Some(Control(o.zeta, p.sendCounter, body))
  }

  lemma Asks(p: Zeta, q: Zeta, env: Env, x: nat, kid: Kid)
    requires Settles(p, q) && p.timeoutTimer <= env.now && kid !in KeptRoutes(p) && p.sendCounter < U64_MAX
    ensures
      var o := Service(p, env, x, kid);
      && o.zeta.beta == R1(x, K1(x, p.rs1, kid)) && Asking(o.zeta, q) && Speaks(p, o, o.zeta.beta.k1)
      && o.zeta.window == p.window && Cur(o.zeta) == Cur(p)
  {
    TimedOut(p, env, x, kid);
    hide Service;
  }

  lemma AsksAgain(p: Zeta, q: Zeta, env: Env, x: nat, kid: Kid)
    requires Asking(p, q) && Due(p, env) && p.sendCounter < U64_MAX
    ensures
      var o := Service(p, env, x, kid);
      o.zeta.beta == p.beta && Asking(o.zeta, q) && Speaks(p, o, p.beta.k1) && o.zeta.window == p.window
  {
    Resent(p, env, x, kid);
    hide Service;
  }

  lemma Answers(p: Zeta, q: Zeta, c: nat, env: Env, y: nat, kid: Kid)
    requires Asking(p, q) && FreshCounter(q, c) && kid !in KeptRoutes(q) && q.sendCounter < U64_MAX
    ensures
      var o := Receive(q, env, Control(p, c, p.beta.k1), y, kid, Saved);
      && Replying(p, o.zeta) && Speaks(q, o, o.zeta.beta.k2) && o.zeta.window == Taken(q.window, c)
      && KexOf(Nxt(o.zeta)) == Kex(p.beta.x, y, p.rs1)
  {
    RekeyAnswered(q, env, Control(p, c, p.beta.k1), y, kid, Saved);
    hide Receive;
  }

  lemma RepliesAgain(p: Zeta, q: Zeta, env: Env, x: nat, kid: Kid)
    requires Replying(p, q) && Due(q, env) && q.sendCounter < U64_MAX
    ensures
      var o := Service(q, env, x, kid);
      Replying(p, o.zeta) && Speaks(q, o, q.beta.k2) && o.zeta.beta == q.beta && o.zeta.window == q.window
  {
    Resent(q, env, x, kid);
    hide Service;
  }

  lemma Advance(p: Zeta, q: Zeta, c: nat, env: Env, y: nat, kid: Kid)
    requires Replying(p, q) && FreshCounter(p, c) && p.sendCounter < U64_MAX
    ensures
      var o := Receive(p, env, Control(q, c, q.beta.k2), y, kid, Saved);
      && Confirming(o.zeta, q) && Speaks(p, o, C1) && o.zeta.window == Taken(p.window, c)
      && Cur(o.zeta).send.kek.value.kex == KexOf(Nxt(q))
  {
    AnswerTaken(p, env, Control(q, c, q.beta.k2), y, kid, Saved);
    hide Receive;
  }

  lemma ConfirmsAgain(p: Zeta, q: Zeta, env: Env, x: nat, kid: Kid)
    requires p.beta.S1? && Due(p, env) && p.sendCounter < U64_MAX
    ensures
      var o := Service(p, env, x, kid);
      && (Confirming(p, q) ==> Confirming(o.zeta, q)) && (Unacked(p, q) ==> Unacked(o.zeta, q))
      && (Cur(p).send.kek.Some? && Cur(p).send.kid.Some? ==> Speaks(p, o, C1)) && o.zeta.window == p.window
      && Cur(o.zeta) == Cur(p)
  {
    Resent(p, env, x, kid);
    hide Service;
  }

  lemma Confirms(p: Zeta, q: Zeta, c: nat, env: Env, y: nat, kid: Kid)
    requires Confirming(p, q) && FreshCounter(q, c) && q.sendCounter < U64_MAX
    ensures
      var o := Receive(q, env, Control(p, c, C1), y, kid, Saved);
      && Unacked(p, o.zeta) && o.zeta.beta.S2? && o.zeta.rs1 == q.rs1 && o.zeta.rs2 == None
      && Speaks(q, o, C2) && o.zeta.window == Taken(q.window, c)
  {
    ConfirmationTaken(q, env, Control(p, c, C1), y, kid, Saved);
    hide Receive;
  }

  lemma Repeats(p: Zeta, q: Zeta, c: nat, env: Env, y: nat, kid: Kid)
    requires Unacked(p, q) && FreshCounter(q, c) && q.sendCounter < U64_MAX
    ensures
      var o := Receive(q, env, Control(p, c, C1), y, kid, Saved);
      && Unacked(p, o.zeta) && Speaks(q, o, C2) && o.zeta.window == Taken(q.window, c)
      && o.zeta == q.(window := o.zeta.window, sendCounter := o.zeta.sendCounter)
  {
    ConfirmationRepeated(q, env, Control(p, c, C1), y, kid, Saved);
    hide Receive;
  }

  lemma Acknowledged(p: Zeta, q: Zeta, c: nat, env: Env, y: nat, kid: Kid)
    requires Unacked(p, q) && FreshCounter(p, c)
    ensures
      var o := Receive(p, env, Control(q, c, C2), y, kid, Saved);
      && o.zeta.beta.S2? && Linked(o.zeta, q) && o.zeta.rs1 == p.rs1 && o.zeta.rs2 == None
      && Cur(o.zeta) == Cur(p) && o.zeta.window == Taken(p.window, c) && o.zeta.sendCounter == p.sendCounter
      && o.sent == None && o.zeta.wasBob == p.wasBob
  {
    AcknowledgementTaken(p, env, Control(q, c, C2), y, kid, Saved);
    hide Receive;
  }

  // ---------- rounds of a pair ----------

  /** The side `atA` hears `m`, and storage agrees. */
  lemma Hears(s: Pair, atA: bool, m: Packet, env: Env) returns (e: Event, kid: Kid)
    requires m in s.net && m.Sealed?
    ensures kid !in KeptRoutes(Side(s, atA)) && e == Deliver(atA, m, env, kid, Saved) && Enabled(s, e)
    ensures
      var o := Receive(Side(s, atA), env, m, s.nonce, kid, Saved);
      var t := Next(s, e);
      Side(t, atA) == o.zeta && Side(t, !atA) == Side(s, !atA) && t.net == Sent(s.net, o.sent) && t.nonce == s.nonce + 1
  {
    kid := KidOutside(KeptRoutes(Side(s, atA)));
    hide Receive;
    e := Deliver(atA, m, env, kid, Saved);
  }

  lemma Ticks(s: Pair, atA: bool, env: Env) returns (e: Event, kid: Kid)
    ensures kid !in KeptRoutes(Side(s, atA)) && e == Tick(atA, env, kid) && Enabled(s, e)
    ensures
      var o := Service(Side(s, atA), env, s.nonce, kid);
      var t := Next(s, e);
      Side(t, atA) == o.zeta && Side(t, !atA) == Side(s, !atA) && t.net == Sent(s.net, o.sent) && t.nonce == s.nonce + 1
  {
    kid := KidOutside(KeptRoutes(Side(s, atA)));
    hide Service;
    e := Tick(atA, env, kid);
  }

  /** `p`'s next packet will be fresh to `q`. */
  predicate CanTell(p: Zeta, q: Zeta) { p.sendCounter < U64_MAX && FreshCounter(q, p.sendCounter) }

  predicate InFlight(net: set<Packet>, p: Zeta, q: Zeta, c: nat, body: Body) {
    && Cur(p).send.kek.Some? && Cur(p).send.kid.Some? && Control(p, c, body) in net && FreshCounter(q, c)
  }

  /** A confirmation under way is heard and acknowledged: both sides are settled under its keys. */
  lemma ConfirmRound(s: Pair, atA: bool, c: nat, env: Env) returns (ss: seq<Pair>, es: seq<Event>)
    requires var (p, q) := (Side(s, atA), Side(s, !atA));
      Confirming(p, q) && InFlight(s.net, p, q, c, C1) && CanTell(q, p)
    ensures Path(ss, es) && |es| == 2 && ss[0] == s && forall i :: 0 <= i < 2 ==> es[i].Deliver?
    ensures Settles(Side(ss[2], atA), Side(ss[2], !atA)) && Cur(Side(ss[2], atA)) == Cur(Side(s, atA))
  {
    hide Next, Receive, Confirming, Unacked, FreshCounter;
    var p, q := Side(s, atA), Side(s, !atA);
    var e1, kid1 := Hears(s, !atA, Control(p, c, C1), env);
    var t := Next(s, e1);
    Confirms(p, q, c, env, s.nonce, kid1);
    var e2, kid2 := Hears(t, atA, Control(Side(t, !atA), q.sendCounter, C2), env);
    Acknowledged(p, Side(t, !atA), q.sendCounter, env, t.nonce, kid2);
    SettledNow(p, q);
    ss, es := [s, t, Next(t, e2)], [e1, e2];
  }

  lemma SettledNow(p: Zeta, q: Zeta)
    requires Confirming(p, q)
    ensures p.rs1 == q.rs1 && Cur(p).send.kek.Some? && p.rs1 == NewRatchet(KexOf(Cur(p)))
  {
  }

  /** A rekey under way is answered, confirmed and acknowledged. */
  lemma AskRound(s: Pair, atA: bool, c: nat, env: Env) returns (ss: seq<Pair>, es: seq<Event>)
    requires var (p, q) := (Side(s, atA), Side(s, !atA));
      && Asking(p, q) && InFlight(s.net, p, q, c, p.beta.k1) && p.sendCounter == c + 1
      && Near(p.(sendCounter := c), q, 2) && Near(q, p, 2)
    ensures Path(ss, es) && |es| == 4 && ss[0] == s && forall i :: 0 <= i < 4 ==> es[i].Deliver?
    ensures Settles(Side(ss[4], atA), Side(ss[4], !atA))
    ensures Cur(Side(ss[4], atA)).send.kek.Some?
      && KexOf(Cur(Side(ss[4], atA))) == Kex(Side(s, atA).beta.x, s.nonce, Side(s, atA).rs1)
  {
    hide Next, Receive, Asking, Replying, Confirming, Near, FreshCounter;
    var p, q := Side(s, atA), Side(s, !atA);
    AskingBody(p, q);
    NearFresh(q, p, 2);
    NearCount(p.(sendCounter := c), q, 2);
    NearCount(q, p, 2);
    var e1, kid1 := Hears(s, !atA, Control(p, c, p.beta.k1), env);
    var t := Next(s, e1);
    var q1 := Side(t, !atA);
    Answers(p, q, c, env, s.nonce, kid1);
    NearNext(p.(sendCounter := c), p, q, q1, 2);
    ReplyBody(p, q1);
    var e2, kid2 := Hears(t, atA, Control(q1, q.sendCounter, q1.beta.k2), env);
    var u := Next(t, e2);
    Advance(p, q1, q.sendCounter, env, t.nonce, kid2);
    NearFresh(p, q1, 1);
    NearNext(q, q1, p, Side(u, atA), 2);
    NearFresh(q1, Side(u, atA), 1);
    NearCount(q1, Side(u, atA), 1);
    var ts, fs := ConfirmRound(u, atA, p.sendCounter, env);
    ss, es := [s, t] + ts, [e1, e2] + fs;
    assert Path([s, t, u], [e1, e2]);
    PathJoin([s, t, u], [e1, e2], ts, fs);
    assert [s, t, u] + ts[1..] == ss;
  }

  lemma AskingBody(p: Zeta, q: Zeta)
    requires Asking(p, q)
    ensures p.beta.R1? && p.beta.k1.K1? && p.beta.k1.psk == p.rs1 && Cur(p).send.kek.Some? && Cur(p).send.kid.Some?
  {
  }

  lemma ReplyBody(p: Zeta, q: Zeta)
    requires Replying(p, q)
    ensures q.beta.R2? && q.beta.k2.K2? && Cur(q).send.kek.Some? && Cur(q).send.kid.Some? && Nxt(q).send.kek.Some?
  {
  }

  lemma NearCount(p: Zeta, q: Zeta, n: nat)
    requires Near(p, q, n)
    ensures p.sendCounter + n < U64_MAX
  {
  }

  /** From settled keys, when the timeout of either side is due, five events lead to settled keys one
      exchange later: the rekey message, its answer, the confirmation and the acknowledgement. */
  lemma RekeyRound(s: Pair, atA: bool, env: Env) returns (ss: seq<Pair>, es: seq<Event>)
    requires var (p, q) := (Side(s, atA), Side(s, !atA)); Settles(p, q) && p.timeoutTimer <= env.now && Clear(p, q, 2)
    ensures Path(ss, es) && |es| == 5 && ss[0] == s && es[0].Tick? && es[0].atA == atA
    ensures forall i :: 1 <= i < 5 ==> es[i].Deliver?
    ensures Settles(Side(ss[5], atA), Side(ss[5], !atA))
    ensures Epoch(Side(ss[5], atA)) == Epoch(Side(s, atA)) + 1 && Epoch(Side(ss[5], !atA)) == Epoch(Side(s, !atA)) + 1
  {
    hide Next, Service, Asking, Settles, Near, FreshCounter;
    var p, q := Side(s, atA), Side(s, !atA);
    NearCount(p, q, 2);
    NearFresh(p, q, 2);
    SettlesParts(p, q);
    var e, kid := Ticks(s, atA, env);
    Asks(p, q, env, s.nonce, kid);
    var t := Next(s, e);
    var p1 := Side(t, atA);
    AskingBody(p1, q);
    NearSame(p, p1.(sendCounter := p.sendCounter), q, q, 2);
    NearSame(q, q, p, p1, 2);
    var ts, fs := AskRound(t, atA, p.sendCounter, env);
    ss, es := [s] + ts, [e] + fs;
    assert Path([s, t], [e]);
    PathJoin([s, t], [e], ts, fs);
    assert [s, t] + ts[1..] == ss;
    SettlesParts(Side(ss[5], atA), Side(ss[5], !atA));
  }

  lemma NearSame(p: Zeta, p': Zeta, q: Zeta, q': Zeta, n: nat)
    requires Near(p, q, n) && p'.sendCounter == p.sendCounter && q'.window == q.window
    ensures Near(p', q', n)
  {
  }

  lemma SettlesParts(p: Zeta, q: Zeta)
    requires Settles(p, q)
    ensures Cur(p).send.kek.Some? && Cur(q).send.kek.Some? && KexOf(Cur(q)) == KexOf(Cur(p))
    ensures p.rs1 == NewRatchet(KexOf(Cur(p)))
  {
  }
}
