/** What each call does to a session, said of the session's own fields: when it is taken and with
    which error it is refused, what it leaves behind, what it sends and where it sets the timers. */
module Verdicts {
  import Common
  import opened Wrappers
  import opened Ratchet
  import opened Zeta
  import opened RekeyPair
  import opened Ladders
  import opened Handshake

  // ---------- the parts of a call ----------

  /** The packet `sent` is sealed under the sending keys `k` with the counter `c`, if there are keys
      and counters left. */
  predicate SentUnder(sent: Option<Packet>, k: Keys, c: nat, body: Body) {
    sent == if c < U64_MAX && k.kek.Some? && k.kid.Some?
            then Some(Sealed(k.kid.value, k.kek.value, c, body)) else None
  }

  /** One more counter is spent, unless none is left. */
  predicate SpentOne(z: Zeta, t: Zeta) {
    t.sendCounter == if z.sendCounter < U64_MAX then z.sendCounter + 1 else z.sendCounter
  }

  predicate SameKeys(z: Zeta, t: Zeta) { Cur(t) == Cur(z) && Nxt(t) == Nxt(z) && t.routes == z.routes }

  predicate SameRatchets(z: Zeta, t: Zeta) { t.rs1 == z.rs1 && t.rs2 == z.rs2 }

  predicate Timers(t: Zeta, resend: int, timeout: int) { t.resendTimer == resend && t.timeoutTimer == timeout }

  /** The window has taken note of the packet's counter and of nothing else. */
  predicate Noted(z: Zeta, t: Zeta, m: Packet)
    requires m.Sealed?
  {
    |z.window| == WINDOW_LEN && t.window == Taken(z.window, m.counter) && t.wasBob == z.wasBob
  }

  /** The counter is new to its slot and at most 2^24 ahead of it. */
  predicate FreshCounter(z: Zeta, c: nat) {
    && |z.window| == 128
    && var succ := if c < U64_MAX then c + 1 else U64_MAX;
       z.window[c % 128] < succ <= z.window[c % 128] + 0x100_0000
  }

  lemma FreshIs(z: Zeta, c: nat)
    ensures FreshCounter(z, c) <==> UpdateWindow(z, c).Some?
    ensures FreshCounter(z, c) ==> UpdateWindow(z, c) == Some(z.(window := Taken(z.window, c)))
  {
  }

  /** A session that has stopped: no timer runs and it is reached by none of its key ids. */
  predicate Stopped(z: Zeta, t: Zeta) {
    && t.beta.Null? && Timers(t, Common.NEVER, Common.NEVER) && SameRatchets(z, t)
    && Cur(t) == Cur(z) && Nxt(t) == Nxt(z) && t.sendCounter == z.sendCounter
    && (Cur(z).recv.kid.Some? ==> Cur(z).recv.kid.value !in t.routes)
    && (Nxt(z).recv.kid.Some? ==> Nxt(z).recv.kid.value !in t.routes)
    && forall kid :: kid in z.routes && Some(kid) != Cur(z).recv.kid && Some(kid) != Nxt(z).recv.kid ==> kid in t.routes
  }

  /** When a settled session is to rekey. */
  function RekeyTime(env: Env): int {
    env.now + if env.jitter < env.settings.rekeyAfterTime then env.settings.rekeyAfterTime - env.jitter else 0
  }

  // ---------- which packets are taken ----------

  /** The slot that a packet names: the next one first. */
  function Named(z: Zeta, to: Kid): Option<DuplexKey> {
    if Nxt(z).recv.kid == Some(to) then Some(Nxt(z)) else if Cur(z).recv.kid == Some(to) then Some(Cur(z)) else None
  }

  /** A payload is handed to the application if and only if it opens under the transport key of the slot
      it names and its counter is fresh; it changes nothing but the window. */
  lemma PayloadVerdict(z: Zeta, env: Env, m: Packet, y: nat, kid: Kid, answer: SaveResult)
    requires m.Sealed? && m.body.Data? && m.to in z.routes
    ensures
      var o := Receive(z, env, m, y, kid, answer);
      && (o.status == Done <==>
            Named(z, m.to).Some? && Named(z, m.to).value.recv.nk == Some(m.key) && FreshCounter(z, m.counter))
      && (o.status == OutOfSequence <==> Named(z, m.to).None? || Named(z, m.to).value.recv.nk.None?)
      && (o.status == FailedAuth <==>
            Named(z, m.to).Some? && Named(z, m.to).value.recv.nk.Some? && Named(z, m.to).value.recv.nk != Some(m.key))
      && o.status in {Done, OutOfSequence, FailedAuth, ExpiredCounter} && o.sent == None && o.save == None
      && o.zeta == (if o.status == Done then z.(window := Taken(z.window, m.counter)) else z)
  {
    FreshIs(z, m.counter);
  }

  /** The key ids of the session once its next slot has the key id `kid`. */
  function Rerouted(z: Zeta, kid: Kid): set<Kid> { (set k | k in z.routes && Some(k) != Nxt(z).recv.kid) + {kid} }

  // ---------- the steps of a rekey ----------

  /** A packet under the key-exchange key of the current slot, with a fresh counter. */
  predicate OpensCur(z: Zeta, m: Packet) {
    && m.Sealed? && m.to in z.routes && Cur(z).recv.kid == Some(m.to) && Cur(z).recv.kek == Some(m.key)
    && Nxt(z).recv.kid != Some(m.to) && FreshCounter(z, m.counter)
  }

  predicate OpensNxt(z: Zeta, m: Packet) {
    && m.Sealed? && m.to in z.routes && Nxt(z).recv.kid == Some(m.to) && Nxt(z).recv.kek == Some(m.key)
    && FreshCounter(z, m.counter)
  }

  /** The next slot's keys are confirmed: they become the current ones. */
  predicate TakesOver(z: Zeta, t: Zeta, m: Packet, env: Env)
    requires m.Sealed?
  {
    && t.beta.S2? && Cur(t) == Nxt(z) && Nxt(t) == Cur(z) && t.routes == z.routes && t.rs1 == z.rs1 && t.rs2 == None
    && Timers(t, Common.NEVER, RekeyTime(env)) && Noted(z, t, m) && SpentOne(z, t)
    && t.keyCreationCounter == z.keyCreationCounter
  }

  /** A confirmation under the next slot's key completes a handshake or a rekey, if storage agrees. */
  lemma ConfirmationTaken(z: Zeta, env: Env, m: Packet, y: nat, kid: Kid, answer: SaveResult)
    requires OpensNxt(z, m) && m.body.C1? && (z.beta.A3? || z.beta.R2?) && (z.rs2.Some? ==> answer == Saved)
    ensures
      var o := Receive(z, env, m, y, kid, answer);
      && TakesOver(z, o.zeta, m, env) && SentUnder(o.sent, Nxt(z).send, z.sendCounter, C2)
      && o.save == (if z.rs2.Some? then Some(CompareAndSwap(z.rs1, None, false, z.rs1, z.rs2, false, true)) else None)
      && o.status == (if o.sent.Some? then Done else OutOfSequence)
  {
    FreshIs(z, m.counter);
  }

  /** So on a host: with a second ratchet state it completes if and only if what is stored is what the
      session remembers and storage does not fail; then the second state is dropped from both. A
      failure leaves the session as it was, and a refusal stops it. */
  lemma ConfirmationCompletes(z: Zeta, stored: States, env: Env, m: Packet, y: nat, kid: Kid, io: bool)
    requires OpensNxt(z, m) && m.body.C1? && (z.beta.A3? || z.beta.R2?) && z.rs2.Some?
    ensures
      var r := HostReceive(z, stored, env, m, y, kid, io);
      && (TakesOver(z, r.out.zeta, m, env) <==> !io && stored == States(z.rs1, z.rs2))
      && (TakesOver(z, r.out.zeta, m, env) ==>
            r.stored == States(z.rs1, None) && SentUnder(r.out.sent, Nxt(z).send, z.sendCounter, C2))
      && (!TakesOver(z, r.out.zeta, m, env) ==> r.stored == stored && r.out.sent == None)
      && (io ==> r.out.status == StorageError && r.out.zeta == z.(window := Taken(z.window, m.counter)))
      && (!io && stored != States(z.rs1, z.rs2) ==> r.out.status == OutOfSequence && Stopped(z, r.out.zeta))
  {
    hide SendControl, Confirmed, WindowAccepts;
    if !io && stored == States(z.rs1, z.rs2) {
      ConfirmationTaken(z, env, m, y, kid, Saved);
    } else {
      ConfirmationRefused(z, env, m, y, kid, if io then Failed else Refused);
    }
  }

  lemma ConfirmationRefused(z: Zeta, env: Env, m: Packet, y: nat, kid: Kid, answer: SaveResult)
    requires OpensNxt(z, m) && m.body.C1? && (z.beta.A3? || z.beta.R2?) && z.rs2.Some? && answer != Saved
    ensures
      var o := Receive(z, env, m, y, kid, answer);
      && o.save == Receive(z, env, m, y, kid, Saved).save && o.sent == None && !o.zeta.beta.S2?
      && (answer == Failed ==> o.status == StorageError && o.zeta == z.(window := Taken(z.window, m.counter)))
      && (answer == Refused ==> o.status == OutOfSequence && Stopped(z, o.zeta))
  {
    FreshIs(z, m.counter);
  }

  /** Any other confirmation that opens is only acknowledged, under the current slot's key. */
  lemma ConfirmationRepeated(z: Zeta, env: Env, m: Packet, y: nat, kid: Kid, answer: SaveResult)
    requires OpensCur(z, m) || (OpensNxt(z, m) && !z.beta.A3? && !z.beta.R2?)
    requires m.body.C1?
    ensures
      var o := Receive(z, env, m, y, kid, answer);
      && o.zeta == z.(window := Taken(z.window, m.counter), sendCounter := o.zeta.sendCounter)
      && SpentOne(z, o.zeta) && SentUnder(o.sent, Cur(z).send, z.sendCounter, C2) && o.save == None
  {
    FreshIs(z, m.counter);
  }

  /** A confirmation that does not open under the slot it names, or is not fresh, changes nothing. */
  lemma ConfirmationIgnored(z: Zeta, env: Env, m: Packet, y: nat, kid: Kid, answer: SaveResult)
    requires m.Sealed? && m.to in z.routes && m.body.C1?
    ensures
      var o := Receive(z, env, m, y, kid, answer);
      var slot := Named(z, m.to);
      && (slot.None? || slot.value.recv.kek != Some(m.key) || !FreshCounter(z, m.counter) ==>
            o.zeta == z && o.sent == None && o.save == None)
      && (slot.None? || slot.value.recv.kek.None? ==> o.status == OutOfSequence)
      && (slot.Some? && slot.value.recv.kek.Some? && slot.value.recv.kek != Some(m.key) ==> o.status == FailedAuth)
      && (slot.Some? && slot.value.recv.kek == Some(m.key) && !FreshCounter(z, m.counter) ==>
            o.status == ExpiredCounter)
  {
    FreshIs(z, m.counter);
  }

  /** An acknowledgement is taken if and only if it answers the confirmation that is being sent. */
  lemma AcknowledgementTaken(z: Zeta, env: Env, m: Packet, y: nat, kid: Kid, answer: SaveResult)
    requires m.Sealed? && m.to in z.routes && m.body.C2?
    ensures
      var o := Receive(z, env, m, y, kid, answer);
      && o.sent == None && o.save == None
      && (o.status == Done <==>
            Cur(z).recv.kid == Some(m.to) && z.beta.S1? && Cur(z).recv.kek == Some(m.key) && FreshCounter(z, m.counter))
      && (o.status != Done ==> o.zeta == z)
      && (o.status == Done ==>
            && o.zeta.beta.S2? && SameKeys(z, o.zeta) && SameRatchets(z, o.zeta) && Noted(z, o.zeta, m)
            && Timers(o.zeta, Common.NEVER, RekeyTime(env)) && o.zeta.sendCounter == z.sendCounter
            && o.zeta.keyCreationCounter == z.keyCreationCounter)
  {
    FreshIs(z, m.counter);
  }

  /** A rejection stops a session if and only if that waits for its confirmation. */
  lemma RejectionTaken(z: Zeta, env: Env, m: Packet, y: nat, kid: Kid, answer: SaveResult)
    requires m.Sealed? && m.to in z.routes && m.body.D?
    ensures
      var o := Receive(z, env, m, y, kid, answer);
      && o.sent == None && o.save == None
      && (o.status == Done <==>
            Nxt(z).recv.kid == Some(m.to) && z.beta.A3? && Nxt(z).recv.kek == Some(m.key) && FreshCounter(z, m.counter))
      && (if o.status == Done then Stopped(z, o.zeta) else o.zeta == z)
  {
    FreshIs(z, m.counter);
  }

  /** A packet under the key-exchange key of the current slot, whatever the next slot's key id is. */
  predicate Matches(z: Zeta, m: Packet)
    requires m.Sealed?
  {
    Cur(z).recv.kid == Some(m.to) && Cur(z).recv.kek == Some(m.key) && FreshCounter(z, m.counter)
  }

  /** What answering a rekey leaves: the new keys wait in the next slot, both ratchet states are
      remembered and the session's counters go on. */
  predicate AnswersRekey(z: Zeta, t: Zeta, m: Packet, env: Env, y: nat, kid: Kid)
    requires m.Sealed? && m.body.K1?
  {
    var kex := Kex(m.body.x, y, z.rs1);
    && t.beta == R2(K2(kex, kid)) && Cur(t) == Cur(z)
    && Nxt(t).send == Keys(Some(Key(kex, Kek, true)), Some(Key(kex, Nk, true)), Some(m.body.kid))
    && Nxt(t).recv == Keys(Some(Key(kex, Kek, false)), Some(Key(kex, Nk, false)), Some(kid))
    && t.rs1 == Derived(kex, ChainLen(z.rs1) + 1) && t.rs2 == Some(z.rs1)
    && t.routes == Rerouted(z, kid)
    && Timers(t, env.now + env.settings.resendTime, env.now + env.settings.rekeyTimeout)
    && Noted(z, t, m) && SpentOne(z, t) && t.keyCreationCounter == z.sendCounter
  }

  predicate MayAnswer(z: Zeta, m: Packet)
    requires m.Sealed? && m.body.K1?
  {
    Matches(z, m) && (z.beta.S2? || (z.beta.R1? && z.wasBob)) && m.body.psk == z.rs1
  }

  /** A rekey is answered if and only if the session is settled, or rekeys itself as the responder of
      its handshake, with the peer's ratchet state, and storage makes the swap. One with another
      ratchet state, or that storage refuses, stops the session. */
  lemma RekeyAnswered(z: Zeta, env: Env, m: Packet, y: nat, kid: Kid, answer: SaveResult)
    requires m.Sealed? && m.to in z.routes && m.body.K1?
    ensures
      var o := Receive(z, env, m, y, kid, answer);
      var kex := Kex(m.body.x, y, z.rs1);
      && (o.status == Done <==> MayAnswer(z, m) && answer == Saved)
      && (o.status == Done ==>
            AnswersRekey(z, o.zeta, m, env, y, kid) && SentUnder(o.sent, Cur(z).send, z.sendCounter, K2(kex, kid)))
      && (o.save ==
            if MayAnswer(z, m)
            then Some(CompareAndSwap(Derived(kex, ChainLen(z.rs1) + 1), Some(z.rs1), true, z.rs1, z.rs2, false, true))
            else None)
      && (o.status != Done ==>
            o.sent == None && Cur(o.zeta) == Cur(z) && Nxt(o.zeta) == Nxt(z) && SameRatchets(z, o.zeta))
      && (!z.beta.Null? ==>
            (o.zeta.beta.Null? <==>
               Matches(z, m) && (z.beta.S2? || (z.beta.R1? && z.wasBob)) && (m.body.psk != z.rs1 || answer == Refused)))
  {
    FreshIs(z, m.counter);
  }

  /** What taking the answer to a rekey leaves: the new keys are the current ones, the old ones still
      receive, and the old ratchet state is gone. */
  predicate Advances(z: Zeta, t: Zeta, m: Packet, env: Env)
    requires m.Sealed? && m.body.K2?
  {
    var kex := m.body.kex;
    && t.beta.S1? && Nxt(t) == Cur(z)
    && Cur(t).send == Keys(Some(Key(kex, Kek, false)), Some(Key(kex, Nk, false)), Some(m.body.kid))
    && Cur(t).recv == Keys(Some(Key(kex, Kek, true)), Some(Key(kex, Nk, true)), Nxt(z).recv.kid)
    && t.rs1 == Derived(kex, ChainLen(kex.psk) + 1) && t.rs2 == z.rs2 && t.routes == z.routes
    && Timers(t, env.now + env.settings.resendTime, env.now + env.settings.rekeyTimeout)
    && Noted(z, t, m) && SpentOne(z, t) && t.keyCreationCounter == z.sendCounter
  }

  predicate MayAdvance(z: Zeta, m: Packet)
    requires m.Sealed? && m.body.K2?
  {
    && Matches(z, m) && z.beta.R1? && z.beta.k1.K1?
    && m.body.kex.x == z.beta.x && m.body.kex.psk == z.beta.k1.psk
  }

  /** The answer to a rekey is taken if and only if it continues the session's own rekey and storage
      makes the swap; the confirmation then goes out under the new key. Another answer, or one that
      storage refuses, stops the session. */
  lemma AnswerTaken(z: Zeta, env: Env, m: Packet, y: nat, kid: Kid, answer: SaveResult)
    requires m.Sealed? && m.to in z.routes && m.body.K2?
    ensures
      var o := Receive(z, env, m, y, kid, answer);
      && (o.status == Done <==> MayAdvance(z, m) && answer == Saved)
      && (o.status == Done ==>
            Advances(z, o.zeta, m, env) && SentUnder(o.sent, Cur(o.zeta).send, z.sendCounter, C1))
      && (o.save ==
            if MayAdvance(z, m) then Some(
              CompareAndSwap(Derived(m.body.kex, ChainLen(m.body.kex.psk) + 1), None, true, z.rs1, z.rs2, true, true))
            else None)
      && (o.status != Done ==>
            o.sent == None && Cur(o.zeta) == Cur(z) && Nxt(o.zeta) == Nxt(z) && SameRatchets(z, o.zeta))
      && (!z.beta.Null? ==>
            (o.zeta.beta.Null? <==> Matches(z, m) && z.beta.R1? && (!MayAdvance(z, m) || answer == Refused)))
  {
    FreshIs(z, m.counter);
  }

  // ---------- timers ----------

  /** A handshake starts over, under a new key id and with the states it remembers. */
  predicate StartsOver(z: Zeta, o: Outcome, env: Env, x: nat, kid: Kid) {
    var t := o.zeta;
    && t.beta == A1(X1(x, kid, z.rs1, if z.rs2.Some? then z.rs2.value else Empty)) && o.sent == Some(t.beta.x1)
    && Cur(t) == Cur(z) && Nxt(t) == DuplexKey(Keys(None, None, None), Keys(None, None, Some(kid)))
    && Timers(t, env.now + env.settings.resendTime, env.now + env.settings.initialOfferTimeout)
    && t.sendCounter == z.sendCounter && SameRatchets(z, t) && t.routes == Rerouted(z, kid)
  }

  /** A settled session starts a rekey, under its current keys and with its ratchet state. */
  predicate StartsRekey(z: Zeta, o: Outcome, env: Env, x: nat, kid: Kid) {
    var t := o.zeta;
    && t.beta == R1(x, K1(x, z.rs1, kid)) && SentUnder(o.sent, Cur(z).send, z.sendCounter, K1(x, z.rs1, kid))
    && Cur(t) == Cur(z) && Nxt(t) == Nxt(z).(recv := Nxt(z).recv.(kid := Some(kid)))
    && Timers(t, env.now + env.settings.resendTime, env.now + env.settings.rekeyTimeout)
    && SpentOne(z, t) && SameRatchets(z, t) && t.routes == Rerouted(z, kid)
  }

  lemma TimedOutAttempt(z: Zeta, env: Env, x: nat, kid: Kid)
    requires z.beta.A1? || z.beta.A3?
    ensures StartsOver(z, Timeout(z, env, x, kid), env, x, kid)
  {
  }

  lemma TimedOutSettled(z: Zeta, env: Env, x: nat, kid: Kid)
    requires z.beta.S2?
    ensures StartsRekey(z, Timeout(z, env, x, kid), env, x, kid)
  {
  }

  /** A timeout, by state: a handshake starts over, a settled session starts a rekey, and every other
      session stops. */
  lemma TimedOut(z: Zeta, env: Env, x: nat, kid: Kid)
    requires z.timeoutTimer <= env.now
    ensures
      var o := Service(z, env, x, kid);
      && (z.beta.Null? ==> o.zeta == z && o.sent == None)
      && (z.beta.A1? || z.beta.A3? ==> StartsOver(z, o, env, x, kid))
      && (z.beta.S2? ==> StartsRekey(z, o, env, x, kid))
      && (z.beta.S1? || z.beta.R1? || z.beta.R2? ==> Stopped(z, o.zeta) && o.sent == None)
      && o.save == None && o.zeta.window == z.window && o.zeta.wasBob == z.wasBob
  {
    if z.beta.A1? || z.beta.A3? {
      TimedOutAttempt(z, env, x, kid);
    } else if z.beta.S2? {
      TimedOutSettled(z, env, x, kid);
    }
    hide StartsOver, StartsRekey;
  }

  /** What a session repeats while it waits; a settled or stopped one repeats nothing. */
  function Repeated(z: Zeta): Option<Body> {
    match z.beta
    case S1 => Some(C1)
    case R1(_, k1) => Some(k1)
    case R2(k2) => Some(k2)
    case _ => None
  }

  /** A resend repeats what the session waits to have answered, a sealed one under a new counter, and
      changes only that counter and the resend timer. */
  lemma Resent(z: Zeta, env: Env, x: nat, kid: Kid)
    requires env.now < z.timeoutTimer
    ensures
      var o := Service(z, env, x, kid);
      && (env.now < z.resendTimer ==> o.zeta == z && o.sent == None)
      && (z.resendTimer <= env.now ==>
            && o.zeta == z.(resendTimer := env.now + env.settings.resendTime, sendCounter := o.zeta.sendCounter)
            && (z.beta.A1? ==> o.sent == Some(z.beta.x1)) && (z.beta.A3? ==> o.sent == Some(z.beta.x3))
            && (Repeated(z).Some? ==>
                  SentUnder(o.sent, Cur(z).send, z.sendCounter, Repeated(z).value) && SpentOne(z, o.zeta))
            && (Repeated(z).None? ==> o.zeta.sendCounter == z.sendCounter)
            && (z.beta.Null? || z.beta.S2? ==> o.sent == None))
      && o.save == None
  {
  }

  // ---------- payloads ----------

  /** A payload goes out if and only if the session is established and has counters and keys left. It
      spends one counter; in S1 it may also force the timeout. Without counters the session stops. */
  lemma PayloadSent(z: Zeta, env: Env)
    ensures
      var o := SendPayload(z, env);
      var ready := z.beta.S1? || z.beta.S2? || z.beta.R1? || z.beta.R2?;
      && (o.status == Done <==> ready && z.sendCounter < U64_MAX)
      && (o.status == Done ==>
            && o.sent == (if Cur(z).send.nk.Some? && Cur(z).send.kid.Some?
                          then Some(Sealed(Cur(z).send.kid.value, Cur(z).send.nk.value, z.sendCounter, Data)) else None)
            && o.zeta == z.(sendCounter := z.sendCounter + 1, timeoutTimer := o.zeta.timeoutTimer)
            && var limit := Common.Min(z.keyCreationCounter + env.settings.rekeyAfterKeyUses, U64_MAX);
               o.zeta.timeoutTimer == if z.beta.S1? && z.sendCounter >= limit then Common.LONG_AGO else z.timeoutTimer)
      && (ready && z.sendCounter >= U64_MAX ==> Stopped(z, o.zeta) && o.status == SessionExpired)
      && (!ready ==> o.zeta == z && o.status == (if z.beta.Null? then SessionExpired else SessionNotEstablished))
      && (o.status != Done ==> o.sent == None) && o.save == None
  {
  }

  // ---------- the handshake ----------

  /** A session is opened with the stored ratchet states, a fresh window and no keys, and its Hello
      offers those states. */
  lemma Opens(stored: States, env: Env, x: nat, kid: Kid)
    ensures
      var o := Opened(stored, env, x, kid);
      var t := o.zeta;
      && t.beta == A1(X1(x, kid, stored.state1, if stored.state2.Some? then stored.state2.value else Empty))
      && o.sent == Some(t.beta.x1) && o.save == None
      && Cur(t) == DuplexKey(Keys(None, None, None), Keys(None, None, None))
      && Nxt(t) == DuplexKey(Keys(None, None, None), Keys(None, None, Some(kid))) && t.routes == {kid}
      && t.rs1 == stored.state1 && t.rs2 == stored.state2 && !t.wasBob && t.sendCounter == 0
      && t.window == seq(128, _ => 0)
      && Timers(t, env.now + env.settings.resendTime, env.now + env.settings.initialOfferTimeout)
  {
  }

  /** A Hello is answered unless its first ratchet state is unknown and a known one is required; the
      half-open handshake mixes that state, or none. */
  lemma HelloAnswered(stored: States, x1: Packet, requireRatchet: bool, y: nat, kid: Kid)
    requires x1.X1?
    ensures
      var known := x1.rf1 != Empty && (stored.state1 == x1.rf1 || stored.state2 == Some(x1.rf1));
      ReceivedX1(stored, x1, requireRatchet, y, kid) ==
      if known then Some(StateB2(x1.rf1, x1.x, y, x1.kid, kid))
      else if requireRatchet then None
      else Some(StateB2(Empty, x1.x, y, x1.kid, kid))
  {
  }

  /** What taking a response leaves: the new keys wait in the next slot, the new ratchet state comes
      first and the old first one second. */
  predicate CompletesAttempt(z: Zeta, t: Zeta, x2: Packet, env: Env)
    requires x2.X2?
  {
    && t.beta == A3(X3(x2.kid, x2.kex)) && Cur(t) == Cur(z) && t.routes == z.routes && t.wasBob == z.wasBob
    && Nxt(t).send == Keys(Some(Key(x2.kex, Kek, false)), Some(Key(x2.kex, Nk, false)), Some(x2.kid))
    && Nxt(t).recv == Keys(Some(Key(x2.kex, Kek, true)), Some(Key(x2.kex, Nk, true)), Nxt(z).recv.kid)
    && t.rs1 == Derived(x2.kex, ChainLen(x2.kex.psk) + 1) && t.rs2 == Some(z.rs1)
    && Timers(t, env.now + env.settings.resendTime, env.now + env.settings.initialOfferTimeout)
    && t.sendCounter == z.sendCounter && t.keyCreationCounter == z.sendCounter && t.window == z.window
  }

  /** The response was made for the attempt under way with a ratchet state that is still known, or with
      none where that is allowed. */
  predicate Selects(z: Zeta, x2: Packet, disallowDowngrade: bool)
    requires x2.X2? && z.beta.A1? && z.beta.x1.X1?
  {
    && x2.kex.x == z.beta.x1.x
    && (x2.kex.psk == z.rs1 || z.rs2 == Some(x2.kex.psk) || (x2.kex.psk == Empty && !disallowDowngrade))
  }

  /** A response is taken if and only if it is for this attempt, its ratchet state is known or allowed
      to be none, and storage makes the swap. Otherwise an attempt that it was meant for starts over,
      unless storage failed. */
  lemma ResponseTaken(z: Zeta, env: Env, x2: Packet, disallowDowngrade: bool, x: nat, kid: Kid, answer: SaveResult)
    requires x2.X2? && z.beta.A1? && z.beta.x1.X1? && Nxt(z).recv.kid == Some(x2.to)
    ensures
      var o := ReceivedX2(z, env, x2, disallowDowngrade, x, kid, answer);
      && (o.status == Done <==> Selects(z, x2, disallowDowngrade) && answer == Saved)
      && (o.status == Done ==> CompletesAttempt(z, o.zeta, x2, env) && o.sent == Some(X3(x2.kid, x2.kex)))
      && (o.save.Some? <==> Selects(z, x2, disallowDowngrade))
      && (o.save.Some? ==>
            && o.save.value.ToCur() == States(z.rs1, z.rs2)
            && o.save.value.ToNew() ==
               States(Derived(x2.kex, ChainLen(x2.kex.psk) + 1), if x2.kex.psk == z.rs1 then Some(z.rs1) else z.rs2))
      && (o.status == StorageError <==> Selects(z, x2, disallowDowngrade) && answer == Failed)
      && (o.status == StorageError ==> o.zeta == z && o.sent == None)
      && (o.status != Done && o.status != StorageError ==>
            o.zeta.beta == A1(X1(x, kid, z.rs1, if z.rs2.Some? then z.rs2.value else Empty))
            && o.sent == Some(o.zeta.beta.x1) && SameRatchets(z, o.zeta))
  {
  }

  /** A new session of the responder, under the keys of the exchange and with its counters begun. */
  predicate Begins(t: Zeta, q: StateB2, env: Env) {
    var kex := Kex(q.x, q.y, q.ratchet);
    && t.beta.S1? && t.wasBob && t.routes == {q.kidRecv} && t.window == seq(128, _ => 0) && t.sendCounter == 1
    && Cur(t).send == Keys(Some(Key(kex, Kek, true)), Some(Key(kex, Nk, true)), Some(q.kidSend))
    && Cur(t).recv == Keys(Some(Key(kex, Kek, false)), Some(Key(kex, Nk, false)), Some(q.kidRecv))
    && Nxt(t) == DuplexKey(Keys(None, None, None), Keys(None, None, None))
    && t.rs1 == Derived(kex, ChainLen(q.ratchet) + 1) && t.rs2 == None
    && Timers(t, env.now + env.settings.resendTime, env.now + env.settings.rekeyTimeout)
  }

  /** A handshake completes if and only if the message is for it, the application accepts the peer,
      storage still holds the ratchet state it was made with, or none was and that is allowed, the swap
      is made and the key id is still free. */
  lemma CompletionVerdict(stored: States, q: StateB2, env: Env, x3: Packet, act: Accept, answer: SaveResult)
    requires x3.X3?
    ensures
      var c := ReceivedX3(stored, q, env, x3, act, answer);
      var meant := x3.to == q.kidRecv && x3.kex == Kex(q.x, q.y, q.ratchet);
      var welcome := act.accepted
        && (stored.state1 == q.ratchet || stored.state2 == Some(q.ratchet)
            || (q.ratchet == Empty && !act.disallowDowngrade));
      && (c.session.Some? <==> meant && welcome && answer == Saved && !act.kidTaken)
      && (c.session.Some? ==>
            Begins(c.session.value, q, env)
            && c.sent == Some(Sealed(q.kidSend, Key(Kex(q.x, q.y, q.ratchet), Kek, true), 0, C1)))
      && (c.save.Some? <==> meant && welcome)
      && (c.save.Some? ==>
            c.save.value.ToCur() == stored && c.save.value.ToNew() ==
            States(Derived(Kex(q.x, q.y, q.ratchet), ChainLen(q.ratchet) + 1), None))
      && (c.session.None? ==>
            c.sent == if meant && !welcome && !act.silent
                      then Some(Sealed(q.kidSend, Key(Kex(q.x, q.y, q.ratchet), Kek, true), 0, D)) else None)
  {
  }
}
