/** The way back. Whatever was lost, repeated or reordered, and however storage answered so far, two
    sessions that are alive can settle under mirrored keys from every state of every run, all at one
    time, if the resend of each side that waits is due before its timeout. */
module Recovery {
  import opened Wrappers
  import opened Zeta
  import opened RekeyPair
  import opened Verdicts
  import opened Rounds
  import Nonces
  import Delivery

  // ---------- states under mirrored keys, neither side having answered a rekey ----------

  /** A side that rekeys is reached under its next key, unless it is the responder of the handshake and
      the peer rekeys too. */
  predicate RekeyParts(z: Zeta, other: Zeta) {
    z.beta.R1? ==>
      && z.beta.k1.K1? && z.beta.k1.x == z.beta.x && z.beta.k1.psk == z.rs1 && Nxt(z).recv.kid == Some(z.beta.k1.kid)
      && (Reached(z, Nxt(z)) || (z.wasBob && other.beta.R1?))
  }

  predicate Even(p: Zeta, q: Zeta) {
    && Linked(p, q) && SameRatchet(p, q) && p.wasBob != q.wasBob
    && (p.beta.S1? || p.beta.S2? || p.beta.R1?) && (q.beta.S1? || q.beta.S2? || q.beta.R1?)
    && RekeyParts(p, q) && RekeyParts(q, p)
  }

  lemma EvenSymmetric(p: Zeta, q: Zeta)
    requires Even(p, q)
    ensures Even(q, p) && Cur(p).send.kek.Some? && Cur(p).send.kid.Some?
    ensures Cur(q).send.kek.Some? && Cur(q).send.kid.Some?
  {
  }

  /** The resend of a side that waits for something is due, and its timeout is not. */
  predicate Patient(z: Zeta, env: Env) { z.beta.S2? || Due(z, env) }

  // ---------- from the invariant of a pair ----------

  lemma PairCases(s: Pair)
    requires PairInv(FaceOf(s.a), FaceOf(s.b), s.net, s.nonce) && !s.a.wasBob && Alive(s.a) && Alive(s.b)
    ensures
      || Even(s.a, s.b) || Confirming(s.a, s.b) || Confirming(s.b, s.a) || Replying(s.a, s.b) || Replying(s.b, s.a)
  {
    var a, b := FaceOf(s.a), FaceOf(s.b);
    if Ahead(a, b) {
      assert Confirming(s.a, s.b);
    } else if Ahead(b, a) {
      assert Confirming(s.b, s.a);
    } else if Pending(b) {
      assert Replying(s.a, s.b);
    } else if Pending(a) {
      assert Replying(s.b, s.a);
    } else {
      assert Even(s.a, s.b);
    }
  }

  lemma XkCase(s: Pair)
    requires XkInv(FaceOf(s.a), FaceOf(s.b), s.net, s.nonce) && s.a.beta.A3? && Alive(s.b)
    ensures Confirming(s.b, s.a)
  {
  }

  // ---------- the ways back ----------

  lemma Join(s: Pair, e: Event, ts: seq<Pair>, fs: seq<Event>) returns (ss: seq<Pair>, es: seq<Event>)
    requires Enabled(s, e) && Path(ts, fs) && ts[0] == Next(s, e)
    ensures Path(ss, es) && ss[0] == s && |es| == |fs| + 1 && ss[|es|] == ts[|fs|]
  {
    hide Next, Enabled;
    ss, es := [s] + ts, [e] + fs;
    assert Path([s, ts[0]], [e]);
    PathJoin([s, ts[0]], [e], ts, fs);
    assert [s, ts[0]] + ts[1..] == ss;
  }

  ghost predicate SettledAt(t: Pair) { Settles(t.a, t.b) }

  lemma SettlesSymmetric(p: Zeta, q: Zeta)
    ensures Settles(p, q) <==> Settles(q, p)
  {
  }

  /** The new keys wait to be confirmed. */
  lemma ConfirmBack(s: Pair, atA: bool, env: Env) returns (ss: seq<Pair>, es: seq<Event>)
    requires var (p, q) := (Side(s, atA), Side(s, !atA)); Confirming(p, q) && Due(p, env) && Clear(p, q, 2)
    ensures Path(ss, es) && ss[0] == s && |es| == 3 && SettledAt(ss[3])
  {
    hide Next, Service, Confirming, Settles, Near, FreshCounter;
    var p, q := Side(s, atA), Side(s, !atA);
    SettledNow(p, q);
    ConfirmingKeys(p, q);
    NearCount(p, q, 2);
    NearCount(q, p, 2);
    NearFresh(p, q, 2);
    NearFresh(q, p, 2);
    var e, kid := Ticks(s, atA, env);
    ConfirmsAgain(p, q, env, s.nonce, kid);
    var t := Next(s, e);
    StillFresh(p, Side(t, atA), q.sendCounter);
    var ts, fs := ConfirmRound(t, atA, p.sendCounter, env);
    SettlesSymmetric(ts[2].a, ts[2].b);
    ss, es := Join(s, e, ts, fs);
  }

  lemma ConfirmingKeys(p: Zeta, q: Zeta)
    requires Confirming(p, q)
    ensures p.beta.S1? && Cur(p).send.kek.Some? && Cur(p).send.kid.Some?
  {
  }

  lemma StillFresh(p: Zeta, p': Zeta, c: nat)
    requires p'.window == p.window && FreshCounter(p, c)
    ensures FreshCounter(p', c)
  {
  }

  /** A rekey has been answered, and the answer was lost. */
  lemma ReplyBack(s: Pair, atA: bool, env: Env) returns (ss: seq<Pair>, es: seq<Event>)
    requires var (p, q) := (Side(s, atA), Side(s, !atA)); Replying(p, q) && Due(q, env) && Clear(p, q, 2)
    ensures Path(ss, es) && ss[0] == s && |es| == 4 && SettledAt(ss[4])
  {
    hide Next, Service, Receive, Replying, Confirming, Settles, Near, FreshCounter;
    var p, q := Side(s, atA), Side(s, !atA);
    NearCount(p, q, 2);
    NearCount(q, p, 2);
    NearFresh(p, q, 2);
    NearFresh(q, p, 2);
    var e, kid := Ticks(s, !atA, env);
    RepliesAgain(p, q, env, s.nonce, kid);
    var t := Next(s, e);
    var q1 := Side(t, !atA);
    ReplyBody(p, q1);
    StillFresh(q, q1, p.sendCounter);
    var e2, kid2 := Hears(t, atA, Control(q1, q.sendCounter, q1.beta.k2), env);
    Advance(p, q1, q.sendCounter, env, t.nonce, kid2);
    var u := Next(t, e2);
    NearNext(q, q1, p, Side(u, atA), 2);
    NearFresh(q1, Side(u, atA), 1);
    NearCount(q1, Side(u, atA), 1);
    var ts, fs := ConfirmRound(u, atA, p.sendCounter, env);
    SettlesSymmetric(ts[2].a, ts[2].b);
    var us, gs := Join(t, e2, ts, fs);
    ss, es := Join(s, e, us, gs);
  }

  /** One side rekeys, and the peer may answer. */
  lemma AskBack(s: Pair, atA: bool, env: Env) returns (ss: seq<Pair>, es: seq<Event>)
    requires var (p, q) := (Side(s, atA), Side(s, !atA)); Asking(p, q) && Due(p, env) && Clear(p, q, 3)
    ensures Path(ss, es) && ss[0] == s && |es| == 5 && SettledAt(ss[5])
  {
    hide Next, Service, Asking, Settles, Near, FreshCounter;
    var p, q := Side(s, atA), Side(s, !atA);
    NearCount(p, q, 3);
    NearFresh(p, q, 3);
    AskingBody(p, q);
    var e, kid := Ticks(s, atA, env);
    AsksAgain(p, q, env, s.nonce, kid);
    var t := Next(s, e);
    var p1 := Side(t, atA);
    AskingBody(p1, q);
    NearFewer(p, q, 3);
    NearFewer(q, p, 3);
    NearSame(p, p1.(sendCounter := p.sendCounter), q, q, 2);
    NearSame(q, q, p, p1, 2);
    var ts, fs := AskRound(t, atA, p.sendCounter, env);
    SettlesSymmetric(ts[4].a, ts[4].b);
    ss, es := Join(s, e, ts, fs);
  }

  lemma NearFewer(p: Zeta, q: Zeta, n: nat)
    requires Near(p, q, n) && n > 0
    ensures Near(p, q, n - 1)
  {
  }

  /** One side still waits for its acknowledgement: it repeats its confirmation and is settled. */
  lemma AckBack(s: Pair, atA: bool, env: Env, n: nat) returns (ss: seq<Pair>, es: seq<Event>)
    requires
      var (p, q) := (Side(s, atA), Side(s, !atA));
      Even(p, q) && p.beta.S1? && Due(p, env) && Patient(q, env) && Clear(p, q, n) && n > 0
    ensures Path(ss, es) && ss[0] == s && |es| == 3
    ensures
      var (p, q) := (Side(ss[3], atA), Side(ss[3], !atA));
      Even(p, q) && p.beta.S2? && q.beta == Side(s, !atA).beta && Patient(q, env) && Clear(p, q, n - 1)
  {
    hide Next, Service, Receive, Even, Unacked, Near, FreshCounter, Linked;
    var p, q := Side(s, atA), Side(s, !atA);
    EvenSymmetric(p, q);
    EvenUnacked(p, q);
    NearCount(p, q, n);
    NearCount(q, p, n);
    NearFresh(p, q, n);
    NearFresh(q, p, n);
    var e, kid := Ticks(s, atA, env);
    ConfirmsAgain(p, q, env, s.nonce, kid);
    var t := Next(s, e);
    var p1 := Side(t, atA);
    var e2, kid2 := Hears(t, !atA, Control(p1, p.sendCounter, C1), env);
    Repeats(p1, q, p.sendCounter, env, t.nonce, kid2);
    var u := Next(t, e2);
    var q1 := Side(u, !atA);
    StillFresh(p, p1, q.sendCounter);
    var e3, kid3 := Hears(u, atA, Control(q1, q.sendCounter, C2), env);
    Acknowledged(p1, q1, q.sendCounter, env, u.nonce, kid3);
    var v := Next(u, e3);
    NearNext(p, p1, q, q1, n);
    NearNext(q, q1, p, Side(v, atA), n);
    NearSame(p1, Side(v, atA), q1, q1, n - 1);
    Resent(p, env, s.nonce, kid);
    StillEven(p, q, Side(v, atA), q1);
    ss, es := [s, t, u, v], [e, e2, e3];
  }

  lemma EvenUnacked(p: Zeta, q: Zeta)
    requires Even(p, q) && p.beta.S1?
    ensures Unacked(p, q)
  {
  }

  lemma StillEven(p: Zeta, q: Zeta, p': Zeta, q': Zeta)
    requires Even(p, q) && p.beta.S1? && p'.beta.S2? && Linked(p', q') && Cur(p') == Cur(p)
    requires p'.rs1 == p.rs1 && p'.rs2 == None && p'.wasBob == p.wasBob
    requires q' == q.(window := q'.window, sendCounter := q'.sendCounter)
    ensures Even(p', q')
  {
  }

  lemma EvenAsking(p: Zeta, q: Zeta)
    requires Even(p, q) && p.beta.R1? && (q.beta.S2? || (q.beta.R1? && !p.wasBob))
    ensures Asking(p, q)
  {
  }

  lemma EvenSettled(p: Zeta, q: Zeta)
    requires Even(p, q) && p.beta.S2? && q.beta.S2?
    ensures Settles(p, q)
  {
  }

  lemma EvenStates(p: Zeta, q: Zeta)
    requires Even(p, q)
    ensures (p.beta.S1? || p.beta.S2? || p.beta.R1?) && (q.beta.S1? || q.beta.S2? || q.beta.R1?) && p.wasBob != q.wasBob
  {
  }

  lemma PatientDue(z: Zeta, env: Env)
    requires Patient(z, env) && !z.beta.S2?
    ensures Due(z, env)
  {
  }

  /** Neither side waits for an acknowledgement. */
  lemma EvenAsks(s: Pair, atA: bool, env: Env) returns (ss: seq<Pair>, es: seq<Event>)
    requires var (p, q) := (Side(s, atA), Side(s, !atA));
      Even(p, q) && !p.beta.S1? && !q.beta.S1? && Patient(p, env) && Patient(q, env) && Clear(p, q, 3)
    ensures Path(ss, es) && ss[0] == s && |es| <= 5 && SettledAt(ss[|es|])
  {
    hide Next, Enabled, Even, Asking, Near, Settles, Linked, Patient, Due;
    var p, q := Side(s, atA), Side(s, !atA);
    EvenStates(p, q);
    EvenSymmetric(p, q);
    if p.beta.R1? && (q.beta.S2? || !p.wasBob) {
      EvenAsking(p, q);
      PatientDue(p, env);
      ss, es := AskBack(s, atA, env);
    } else if q.beta.R1? {
      EvenAsking(q, p);
      PatientDue(q, env);
      ss, es := AskBack(s, !atA, env);
    } else {
      EvenSettled(p, q);
      SettlesSymmetric(p, q);
      ss, es := [s], [];
    }
  }

  lemma EvenBack(s: Pair, atA: bool, env: Env) returns (ss: seq<Pair>, es: seq<Event>)
    requires var (p, q) := (Side(s, atA), Side(s, !atA));
      Even(p, q) && !q.beta.S1? && Patient(p, env) && Patient(q, env) && Clear(p, q, 4)
    ensures Path(ss, es) && ss[0] == s && |es| <= 8 && SettledAt(ss[|es|])
  {
    hide Next, Enabled, Even, Near, Settles, Linked;
    var p, q := Side(s, atA), Side(s, !atA);
    EvenStates(p, q);
    if p.beta.S1? {
      var us, ds := AckBack(s, atA, env, 4);
      var vs, fs := EvenAsks(us[3], atA, env);
      PathJoin(us, ds, vs, fs);
      ss, es := us + vs[1..], ds + fs;
    } else {
      NearFewer(p, q, 4);
      NearFewer(q, p, 4);
      ss, es := EvenAsks(s, atA, env);
    }
  }

  lemma BothWait(s: Pair, env: Env) returns (ss: seq<Pair>, es: seq<Event>)
    requires Even(s.a, s.b) && Patient(s.a, env) && Patient(s.b, env) && Clear(s.a, s.b, 5)
    ensures Path(ss, es) && ss[0] == s && |es| <= 11 && SettledAt(ss[|es|])
  {
    hide Next, Enabled, Even, Near, Settles, Linked, Due;
    EvenSymmetric(s.a, s.b);
    if s.b.beta.S1? {
      var us, ds := AckBack2(s, env);
      var vs, fs := EvenBack(us[3], true, env);
      PathJoin(us, ds, vs, fs);
      ss, es := us + vs[1..], ds + fs;
    } else {
      NearFewer(s.a, s.b, 5);
      NearFewer(s.b, s.a, 5);
      ss, es := EvenBack(s, true, env);
    }
  }

  lemma AckBack2(s: Pair, env: Env) returns (ss: seq<Pair>, es: seq<Event>)
    requires Even(s.b, s.a) && s.b.beta.S1? && Patient(s.b, env) && Patient(s.a, env) && Clear(s.a, s.b, 5)
    ensures Path(ss, es) && ss[0] == s && |es| == 3
    ensures Even(ss[3].a, ss[3].b) && ss[3].b.beta.S2? && Patient(ss[3].a, env) && Clear(ss[3].a, ss[3].b, 4)
  {
    hide Next, Enabled, Even, Near, Linked;
    ss, es := AckBack(s, false, env, 5);
    EvenSymmetric(ss[3].b, ss[3].a);
  }

  /** Both sides are alive, or the initiator waits for the first confirmation. */
  predicate Living(s: Pair) { (Alive(s.a) || s.a.beta.A3?) && Alive(s.b) }

  /** From every state that the invariant of a pair allows. */
  lemma Settling(s: Pair, env: Env) returns (ss: seq<Pair>, es: seq<Event>)
    requires Inv(s) && Living(s) && Patient(s.a, env) && Patient(s.b, env) && Clear(s.a, s.b, 5)
    ensures Path(ss, es) && ss[0] == s && |es| <= 11 && SettledAt(ss[|es|])
  {
    Cases(s);
    hide Inv, Even, Confirming, Replying, Near, Settles, FaceOf;
    NearLess(s.a, s.b);
    NearLess(s.b, s.a);
    if Even(s.a, s.b) {
      ss, es := BothWait(s, env);
    } else if Confirming(s.a, s.b) {
      ConfirmingKeys(s.a, s.b);
      ss, es := ConfirmBack(s, true, env);
    } else if Confirming(s.b, s.a) {
      ConfirmingKeys(s.b, s.a);
      ss, es := ConfirmBack(s, false, env);
    } else if Replying(s.a, s.b) {
      ReplyBody(s.a, s.b);
      ss, es := ReplyBack(s, true, env);
    } else {
      ReplyBody(s.b, s.a);
      ss, es := ReplyBack(s, false, env);
    }
  }

  lemma NearLess(p: Zeta, q: Zeta)
    requires Near(p, q, 5)
    ensures Near(p, q, 2)
  {
  }

  lemma Cases(s: Pair)
    requires Inv(s) && Living(s)
    ensures
      || Even(s.a, s.b) || Confirming(s.a, s.b) || Confirming(s.b, s.a) || Replying(s.a, s.b) || Replying(s.b, s.a)
  {
    if XkInv(FaceOf(s.a), FaceOf(s.b), s.net, s.nonce) {
      XkCase(s);
    } else {
      PairCases(s);
    }
  }

  // ---------- in a run ----------

  /** No counter has been seen yet. */
  predicate FreshWindows(s: Pair) { s.a.window == s.b.window == seq(WINDOW_LEN, _ => 0) }

  /** Nothing that `q` has taken note of is ahead of the counters of `p`. */
  predicate NotAhead(p: Zeta, q: Zeta) {
    |q.window| == WINDOW_LEN && forall k :: 0 <= k < WINDOW_LEN ==> q.window[k] <= p.sendCounter
  }

  lemma NotAheadStill(p: Zeta, q: Zeta, p': Zeta, q': Zeta)
    requires NotAhead(p, q) && p.sendCounter <= p'.sendCounter && q'.window == q.window
    ensures NotAhead(p', q')
  {
  }

  lemma NotAheadNoted(p: Zeta, q: Zeta, m: Packet, o: Outcome)
    requires NotAhead(p, q) && m.Sealed? && Delivery.Notes(q, m, o)
    requires Nonces.ReceivesWith(FaceOf(q), m.key) ==> m.counter < p.sendCounter
    ensures NotAhead(p, o.zeta)
  {
    hide WindowAccepts;
  }

  lemma {:induction false} NeverAhead(run: seq<Pair>, events: seq<Event>, i: nat, atA: bool)
    requires IsRun(run, events) && i < |run| && FreshWindows(run[0])
    ensures NotAhead(Side(run[i], atA), Side(run[i], !atA))
  {
    hide Receive, Service, SendPayload, Expire, Init, NotAhead, FaceOf, Nonces.SealInv, Nonces.SealedBefore,
      Nonces.PlainAttempt, Nonces.SealedBy;
    if i == 0 {
      FreshNotAhead(Side(run[0], atA), Side(run[0], !atA));
    } else {
      var s, e := run[i - 1], events[i - 1];
      var p, q := Side(s, atA), Side(s, !atA);
      NeverAhead(run, events, i - 1, atA);
      Nonces.RunSeals(run, events, i - 1);
      var sa, sb := Nonces.SealedBefore(run, events, i - 1, true), Nonces.SealedBefore(run, events, i - 1, false);
      Nonces.SealPlain(s, sa, sb);
      SealPlainA(s, sa, sb);
      Nonces.CountersSpent(s, e, atA);
      match e
      case Deliver(side, m, env, kid, answer) =>
        if side != atA {
          Delivery.ReceiveNotes(q, env, m, s.nonce, kid, answer);
          if Nonces.ReceivesWith(FaceOf(q), m.key) {
            Nonces.OpensMeansSealed(run, events, i - 1, !atA, m);
            SealedBelow(s, sa, sb, atA, m);
          }
          NotAheadNoted(p, q, m, Receive(q, env, m, s.nonce, kid, answer));
        }
        NotAheadStill(p, Side(run[i], !atA), Side(run[i], atA), Side(run[i], !atA));
      case Tick(side, env, kid) =>
        Delivery.OwnNotes(q, env, s.nonce, kid);
        NotAheadStill(p, q, Side(run[i], atA), Side(run[i], !atA));
      case Transmit(side, env) =>
        Delivery.OwnNotes(q, env, 0, 0);
        NotAheadStill(p, q, Side(run[i], atA), Side(run[i], !atA));
      case Stop(side) =>
        ExpiredWindow(q);
        NotAheadStill(p, q, Side(run[i], atA), Side(run[i], !atA));
      case Foreign(m) =>
    }
  }

  lemma FreshNotAhead(p: Zeta, q: Zeta)
    requires q.window == seq(WINDOW_LEN, _ => 0)
    ensures NotAhead(p, q)
  {
  }

  lemma ExpiredWindow(q: Zeta)
    ensures Expire(q).window == q.window
  {
  }

  lemma SealPlainA(s: Pair, sa: set<Packet>, sb: set<Packet>)
    requires Nonces.SealInv(s, sa, sb)
    ensures Nonces.PlainAttempt(s.a)
  {
  }

  lemma SealedBelow(s: Pair, sa: set<Packet>, sb: set<Packet>, atA: bool, m: Packet)
    requires Nonces.SealInv(s, sa, sb) && m in (if atA then sa else sb)
    ensures m.Sealed? && m.counter < Side(s, atA).sendCounter
  {
  }

  /** `p` has counters left, and is not too far ahead of what `q` has taken note of. */
  predicate Audible(p: Zeta, q: Zeta) {
    && p.sendCounter + 5 < U64_MAX
    && forall k :: 0 <= k < |q.window| ==> p.sendCounter + 5 <= q.window[k] + MAX_SKIP_AHEAD
  }

  lemma AudibleNear(p: Zeta, q: Zeta)
    requires NotAhead(p, q) && Audible(p, q)
    ensures Near(p, q, 5)
  {
  }

  /** In every state of every run: if both sides are alive, those that wait for something may resend now
      and can still be heard, then at most eleven events at this one time settle both sides under
      mirrored keys and one ratchet state. */
  lemma Recovers(run: seq<Pair>, events: seq<Event>, i: nat, env: Env) returns (ss: seq<Pair>, es: seq<Event>)
    requires IsRun(run, events) && i < |run| && FreshWindows(run[0])
    requires Living(run[i]) && Patient(run[i].a, env) && Patient(run[i].b, env)
    requires Audible(run[i].a, run[i].b) && Audible(run[i].b, run[i].a)
    ensures Path(ss, es) && ss[0] == run[i] && |es| <= 11 && SettledAt(ss[|es|])
  {
    hide Next, Enabled, Inv, Audible, NotAhead, Near, Settles;
    RunInv(run, events, i);
    NeverAhead(run, events, i, true);
    NeverAhead(run, events, i, false);
    AudibleNear(run[i].a, run[i].b);
    AudibleNear(run[i].b, run[i].a);
    ss, es := Settling(run[i], env);
  }

  /** In every state of every run in which both sides are settled they are so under mirrored keys and one
      ratchet state, and when a timeout is due a rekey can complete. */
  lemma Rekeys(run: seq<Pair>, events: seq<Event>, i: nat, atA: bool, env: Env)
    returns (ss: seq<Pair>, es: seq<Event>)
    requires IsRun(run, events) && i < |run| && FreshWindows(run[0]) && run[i].a.beta.S2? && run[i].b.beta.S2?
    requires Side(run[i], atA).timeoutTimer <= env.now
    requires Audible(run[i].a, run[i].b) && Audible(run[i].b, run[i].a)
    ensures Settles(run[i].a, run[i].b) && Path(ss, es) && ss[0] == run[i] && |es| == 5
    ensures SettledAt(ss[5]) && Epoch(ss[5].a) == Epoch(run[i].a) + 1 && Epoch(ss[5].b) == Epoch(run[i].b) + 1
  {
    RunInv(run, events, i);
    Cases(run[i]);
    hide Next, Enabled, Inv, Audible, NotAhead, Near;
    NeverAhead(run, events, i, true);
    NeverAhead(run, events, i, false);
    AudibleNear(run[i].a, run[i].b);
    AudibleNear(run[i].b, run[i].a);
    NearLess(run[i].a, run[i].b);
    NearLess(run[i].b, run[i].a);
    ss, es := RekeyRound(run[i], atA, env);
  }
}
