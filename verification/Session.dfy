/** The session object: the transition algorithms as they update it in place. Every method is
    proved to do what the transition function of the same name says. */
module Session {
  import Common
  import opened Wrappers
  import opened Ratchet
  import opened Zeta
  import opened Handshake

  /** The application's storage for one peer. */
  class RatchetStore {
    var stored: States

    constructor (initial: States)
      ensures stored == initial
    {
      stored := initial;
    }

    /** `save_ratchet_state`: one atomic compare-and-swap, which may also fail outright. */
    method Save(cas: CompareAndSwap, ioError: bool) returns (answer: SaveResult)
      modifies this
      ensures answer == Respond(old(stored), cas, ioError)
      ensures stored == Stored(old(stored), cas, answer)
    {
      if ioError {
        return Failed;
      }
      if stored.state1 == cas.cur1 && stored.state2 == cas.cur2 {
        stored := States(cas.new1, cas.new2);
        return Saved;
      }
      return Refused;
    }
  }

  class Session {
    const wasBob: bool
    var sendCounter: nat
    var keyCreationCounter: nat
    var keyIndex: bool
    const keys: array<DuplexKey>
    var rs1: RatchetState
    var rs2: Option<RatchetState>
    var resendTimer: int
    var timeoutTimer: int
    var beta: Automata
    const window: array<nat>
    var routes: set<Kid>

    ghost predicate Valid()
      reads this
    {
      keys.Length == 2 && window.Length == WINDOW_LEN
    }

    /** The value this object stands for. */
    ghost function View(): Zeta
      requires Valid()
      reads this, keys, window
    {
      Zeta(wasBob, sendCounter, keyCreationCounter, keyIndex, keys[0], keys[1], rs1, rs2,
           resendTimer, timeoutTimer, beta, window[..], routes)
    }

    /** A new responder session, as the third handshake message creates it. */
    constructor Accept(q: StateB2, env: Env)
      ensures Valid() && fresh(keys) && fresh(window)
      ensures View() == NewSession(q, env)
    {
      wasBob, sendCounter, keyCreationCounter, keyIndex := true, 1, 1, false;
      var ks := new DuplexKey[2](_ => NoDuplexKey);
      ks[0] := ResponderKey(q.Exchange(), q.kidSend, q.kidRecv);
      keys := ks;
      rs1, rs2 := NewRatchet(q.Exchange()), None;
      resendTimer := env.now + env.settings.resendTime;
      timeoutTimer := env.now + env.settings.rekeyTimeout;
      beta := S1;
      window := new nat[WINDOW_LEN](_ => 0);
      routes := {q.kidRecv};
      new;
      assert window[..] == seq(WINDOW_LEN, _ => 0);
    }

    function KeyAt(isNext: bool): (i: nat)
      reads this
      ensures i < 2
    {
      if keyIndex != isNext then 1 else 0
    }

    method UpdateCounterWindow(c: nat) returns (ok: bool)
      requires Valid()
      modifies window
      ensures
        var w := UpdateWindow(old(View()), c);
        ok == w.Some? && View() == if ok then w.value else old(View())
    {
      var slot := window[c % WINDOW_LEN];
      var adj := if c < U64_MAX then c + 1 else U64_MAX;
      if slot < adj && adj <= slot + MAX_SKIP_AHEAD {
        window[c % WINDOW_LEN] := adj;
        return true;
      }
      return false;
    }

    method Stop()
      requires Valid()
      modifies this
      ensures View() == Expire(old(View()))
    {
      resendTimer, timeoutTimer, beta := Common.NEVER, Common.NEVER, Null;
      var i := 0;
      while i < 2
        invariant 0 <= i <= 2
        invariant routes == old(routes)
          - (if i > 0 && keys[0].recv.kid.Some? then {keys[0].recv.kid.value} else {})
          - (if i > 1 && keys[1].recv.kid.Some? then {keys[1].recv.kid.value} else {})
        invariant View() ==
          old(View()).(resendTimer := Common.NEVER, timeoutTimer := Common.NEVER, beta := Null, routes := routes)
      {
        if keys[i].recv.kid.Some? {
          routes := routes - {keys[i].recv.kid.value};
        }
        i := i + 1;
      }
    }

    method NextCounter(s: Settings) returns (r: Counter)
      requires Valid()
      modifies this`sendCounter
      ensures r == GetCounter(old(View()), s) && View() == Counted(old(View()))
    {
      var c := sendCounter;
      if c >= U64_MAX {
        return Exhausted;
      }
      sendCounter := sendCounter + 1;
      var limit := keyCreationCounter + s.rekeyAfterKeyUses;
      return Count(c, c >= (if limit <= U64_MAX then limit else U64_MAX));
    }

    method Control(body: Body, s: Settings) returns (sent: Option<Packet>)
      requires Valid()
      modifies this`sendCounter
      ensures View() == SendControl(old(View()), body).0 && sent == SendControl(old(View()), body).1
    {
      var counter := NextCounter(s);
      var k := keys[KeyAt(false)].send;
      if counter.Count? && k.kek.Some? && k.kid.Some? {
        return Some(Sealed(k.kid.value, k.kek.value, counter.c, body));
      }
      return None;
    }

    /** `remap`: the next slot's key id leaves the session map and `kid` enters it. */
    method MapTo(kid: Kid)
      requires Valid()
      modifies this`routes
      ensures View() == Remap(old(View()), kid)
    {
      var k := keys[KeyAt(true)].recv.kid;
      if k.Some? {
        routes := routes - {k.value};
      }
      routes := routes + {kid};
    }

    method Begin(env: Env, x: nat, kid: Kid) returns (sent: Option<Packet>)
      requires Valid()
      modifies this, keys
      ensures View() == StartAttempt(old(View()), env, x, kid).zeta
        && sent == StartAttempt(old(View()), env, x, kid).sent
    {
      MapTo(kid);
      var x1 := X1(x, kid, rs1, if rs2.Some? then rs2.value else Empty);
      keys[KeyAt(true)] := NoDuplexKey.(recv := NoKeys.(kid := Some(kid)));
      resendTimer := env.now + env.settings.resendTime;
      timeoutTimer := env.now + env.settings.initialOfferTimeout;
      beta := A1(x1);
      return Some(x1);
    }

    /** The S2 branch of `timeout_trans`. */
    method StartRekey(env: Env, x: nat, kid: Kid) returns (sent: Option<Packet>)
      requires Valid()
      modifies this, keys
      ensures (View(), sent) == SendControl(Rekeying(old(View()), env, x, kid), K1(x, old(View()).rs1, kid))
    {
      MapTo(kid);
      var i := KeyAt(true);
      keys[i] := keys[i].(recv := keys[i].recv.(kid := Some(kid)));
      timeoutTimer := env.now + env.settings.rekeyTimeout;
      resendTimer := env.now + env.settings.resendTime;
      beta := R1(x, K1(x, rs1, kid));
      sent := Control(K1(x, rs1, kid), env.settings);
    }

    method TimeoutTrans(env: Env, x: nat, kid: Kid) returns (sent: Option<Packet>)
      requires Valid()
      modifies this, keys
      ensures View() == Timeout(old(View()), env, x, kid).zeta && sent == Timeout(old(View()), env, x, kid).sent
    {
      sent := None;
      match beta {
        case Null =>
        case A1(_) => sent := Begin(env, x, kid);
        case A3(_) => sent := Begin(env, x, kid);
        case S2 => sent := StartRekey(env, x, kid);
        case S1 => Stop();
        case R1(_, _) => Stop();
        case R2(_) => Stop();
      }
    }

    method Serve(env: Env, x: nat, kid: Kid) returns (sent: Option<Packet>)
      requires Valid()
      modifies this, keys
      ensures View() == Service(old(View()), env, x, kid).zeta && sent == Service(old(View()), env, x, kid).sent
    {
      if timeoutTimer <= env.now {
        sent := TimeoutTrans(env, x, kid);
        return;
      }
      if resendTimer > env.now {
        return None;
      }
      resendTimer := env.now + env.settings.resendTime;
      match beta {
        case Null => sent := None;
        case A1(x1) => sent := Some(x1);
        case A3(x3) => sent := Some(x3);
        case S1 => sent := Control(C1, env.settings);
        case S2 => sent := None;
        case R1(_, k1) => sent := Control(k1, env.settings);
        case R2(k2) => sent := Control(k2, env.settings);
      }
    }

    // The state changes that a successful key exchange step makes.

    method Confirm(env: Env)
      requires Valid()
      modifies this
      ensures View() == Confirmed(old(View()), env)
    {
      rs2 := None;
      keyIndex := !keyIndex;
      timeoutTimer := env.RekeyAt();
      resendTimer := Common.NEVER;
      beta := S2;
    }

    method Answer(env: Env, kex: Kex, send: Kid, recv: Kid)
      requires Valid()
      modifies this, keys
      ensures View() == Answering(old(View()), env, kex, send, recv)
    {
      keys[KeyAt(true)] := ResponderKey(kex, send, recv);
      rs2 := Some(rs1);
      rs1 := NewRatchet(kex);
      keyCreationCounter := sendCounter;
      timeoutTimer := env.now + env.settings.rekeyTimeout;
      resendTimer := env.now + env.settings.resendTime;
      beta := R2(K2(kex, recv));
    }

    method Advance(env: Env, kex: Kex, send: Kid)
      requires Valid()
      modifies this, keys
      ensures View() == Advancing(old(View()), env, kex, send)
    {
      var i := KeyAt(true);
      keys[i] := InitiatorKey(kex, send, keys[i].recv.kid);
      rs1 := NewRatchet(kex);
      keyIndex := !keyIndex;
      keyCreationCounter := sendCounter;
      timeoutTimer := env.now + env.settings.rekeyTimeout;
      resendTimer := env.now + env.settings.resendTime;
      beta := S1;
    }

    method Complete(env: Env, kex: Kex, send: Kid)
      requires Valid()
      modifies this, keys
      ensures View() == Completing(old(View()), env, kex, send) && beta == A3(X3(send, kex))
    {
      var i := KeyAt(true);
      keys[i] := InitiatorKey(kex, send, keys[i].recv.kid);
      rs2 := Some(rs1);
      rs1 := NewRatchet(kex);
      keyCreationCounter := sendCounter;
      resendTimer := env.now + env.settings.resendTime;
      timeoutTimer := env.now + env.settings.initialOfferTimeout;
      beta := A3(X3(send, kex));
    }

    method HandleC1(store: RatchetStore, env: Env, to: Kid, key: Key, c: nat, ioError: bool)
      returns (sent: Option<Packet>, status: Status)
      requires Valid()
      modifies this, window, store
      ensures
        var answer := AnswerTo(old(store.stored), Some(C1Request(old(View()))), ioError);
        var o := ReceivedC1(old(View()), env, to, key, c, answer);
        && View() == o.zeta && sent == o.sent && status == o.status
        && store.stored == Commit(old(store.stored), o.save, answer)
    {
      hide WindowAccepts, Expire, Confirmed, SendControl;
      sent := None;
      var isOther: bool;
      if keys[KeyAt(true)].recv.kid == Some(to) {
        isOther := true;
      } else if keys[KeyAt(false)].recv.kid == Some(to) {
        isOther := false;
      } else {
        return None, OutOfSequence;
      }
      var kek := keys[KeyAt(isOther)].recv.kek;
      if kek.None? { return None, OutOfSequence; }
      if kek != Some(key) { return None, FailedAuth; }
      var ok := UpdateCounterWindow(c);
      if !ok { return None, ExpiredCounter; }
      if isOther && (beta.A3? || beta.R2?) {
        if rs2.Some? {
          var answer := store.Save(CompareAndSwap(rs1, None, false, rs1, rs2, false, true), ioError);
          if answer == Failed { return None, StorageError; }
          if answer == Refused {
            Stop();
            return None, OutOfSequence;
          }
        }
        Confirm(env);
      }
      sent := Control(C2, env.settings);
      status := if sent.Some? then Done else OutOfSequence;
    }

    method HandleC2(env: Env, to: Kid, key: Key, c: nat) returns (status: Status)
      requires Valid()
      modifies this, window
      ensures
        var o := ReceivedC2(old(View()), env, to, key, c);
        View() == o.zeta && o.sent == None && status == o.status
    {
      if keys[KeyAt(false)].recv.kid != Some(to) { return UnknownLocalKeyId; }
      if !beta.S1? { return OutOfSequence; }
      if keys[KeyAt(false)].recv.kek != Some(key) { return FailedAuth; }
      var ok := UpdateCounterWindow(c);
      if !ok { return ExpiredCounter; }
      timeoutTimer := env.RekeyAt();
      resendTimer := Common.NEVER;
      beta := S2;
      return Done;
    }

    method HandleD(to: Kid, key: Key, c: nat) returns (status: Status)
      requires Valid()
      modifies this, window
      ensures var o := ReceivedD(old(View()), to, key, c); View() == o.zeta && o.sent == None && status == o.status
    {
      if keys[KeyAt(true)].recv.kid != Some(to) || !beta.A3? { return OutOfSequence; }
      if keys[KeyAt(true)].recv.kek != Some(key) { return FailedAuth; }
      var ok := UpdateCounterWindow(c);
      if !ok { return ExpiredCounter; }
      Stop();
      return Done;
    }

    method HandleK1(store: RatchetStore, env: Env, to: Kid, key: Key, c: nat, k1: Body, y: nat, kid: Kid, ioError: bool)
      returns (sent: Option<Packet>, status: Status)
      requires Valid() && k1.K1?
      modifies this, window, keys, store
      ensures
        var z := old(View());
        var answer := AnswerTo(old(store.stored), Some(K1Request(z, Kex(k1.x, y, z.rs1))), ioError);
        var o := ReceivedK1(z, env, to, key, c, k1, y, kid, answer);
        && View() == o.zeta && sent == o.sent && status == o.status
        && store.stored == Commit(old(store.stored), o.save, answer)
    {
      hide WindowAccepts, Expire, Answering, SendControl, Remap;
      sent := None;
      if keys[KeyAt(false)].recv.kid != Some(to) { return None, UnknownLocalKeyId; }
      if !(beta.S2? || (beta.R1? && wasBob)) { return None, OutOfSequence; }
      if keys[KeyAt(false)].recv.kek != Some(key) { return None, FailedAuth; }
      var ok := UpdateCounterWindow(c);
      if !ok { return None, ExpiredCounter; }
      if k1.psk != rs1 {
        Stop();
        return None, FailedAuth;
      }
      var kex := Kex(k1.x, y, rs1);
      MapTo(kid);
      var answer := store.Save(CompareAndSwap(NewRatchet(kex), Some(rs1), true, rs1, rs2, false, true), ioError);
      if answer == Failed { return None, StorageError; }
      if answer == Refused {
        Stop();
        return None, OutOfSequence;
      }
      Answer(env, kex, k1.kid, kid);
      sent := Control(K2(kex, kid), env.settings);
      status := Done;
    }

    method HandleK2(store: RatchetStore, env: Env, to: Kid, key: Key, c: nat, k2: Body, ioError: bool)
      returns (sent: Option<Packet>, status: Status)
      requires Valid() && k2.K2?
      modifies this, window, keys, store
      ensures
        var answer := AnswerTo(old(store.stored), Some(K2Request(old(View()), k2.kex)), ioError);
        var o := ReceivedK2(old(View()), env, to, key, c, k2, answer);
        && View() == o.zeta && sent == o.sent && status == o.status
        && store.stored == Commit(old(store.stored), o.save, answer)
    {
      hide WindowAccepts, Expire, Advancing, SendControl;
      sent := None;
      if keys[KeyAt(false)].recv.kid != Some(to) { return None, UnknownLocalKeyId; }
      if !beta.R1? { return None, OutOfSequence; }
      if keys[KeyAt(false)].recv.kek != Some(key) { return None, FailedAuth; }
      var ok := UpdateCounterWindow(c);
      if !ok { return None, ExpiredCounter; }
      if !(beta.k1.K1? && k2.kex.x == beta.x && k2.kex.psk == beta.k1.psk) {
        Stop();
        return None, FailedAuth;
      }
      var answer := store.Save(CompareAndSwap(NewRatchet(k2.kex), None, true, rs1, rs2, true, true), ioError);
      if answer == Failed { return None, StorageError; }
      if answer == Refused {
        Stop();
        return None, OutOfSequence;
      }
      Advance(env, k2.kex, k2.kid);
      sent := Control(C1, env.settings);
      status := Done;
    }

    method HandleX2(store: RatchetStore, env: Env, x2: Packet, disallowDowngrade: bool, x: nat, kid: Kid, ioError: bool)
      returns (sent: Option<Packet>, status: Status)
      requires Valid() && x2.X2?
      modifies this, keys, store
      ensures
        var z := old(View());
        var save := ReceivedX2(z, env, x2, disallowDowngrade, x, kid, Saved).save;
        var answer := AnswerTo(old(store.stored), save, ioError);
        var o := ReceivedX2(z, env, x2, disallowDowngrade, x, kid, answer);
        && View() == o.zeta && sent == o.sent && status == o.status
        && store.stored == Commit(old(store.stored), save, answer)
    {
      hide Timeout, Completing;
      sent := None;
      if keys[KeyAt(true)].recv.kid != Some(x2.to) { return None, UnknownLocalKeyId; }
      if !(beta.A1? && beta.x1.X1?) { return None, OutOfSequence; }
      var ratchetI := 0;
      if x2.kex.x == beta.x1.x {
        if x2.kex.psk == rs1 {
          ratchetI := 1;
        } else if rs2 == Some(x2.kex.psk) || (x2.kex.psk == Empty && !disallowDowngrade) {
          ratchetI := 2;
        }
      }
      if ratchetI == 0 {
        sent := TimeoutTrans(env, x, kid);
        return sent, FailedAuth;
      }
      var preserve := if ratchetI == 1 then Some(rs1) else rs2;
      var answer := store.Save(
        CompareAndSwap(NewRatchet(x2.kex), preserve, true, rs1, rs2, ratchetI == 2, ratchetI == 1), ioError);
      if answer == Failed { return None, StorageError; }
      if answer == Refused {
        sent := TimeoutTrans(env, x, kid);
        return sent, OutOfSequence;
      }
      Complete(env, x2.kex, x2.kid);
      return Some(X3(x2.kid, x2.kex)), Done;
    }

    method Transmit(env: Env) returns (sent: Option<Packet>, status: Status)
      requires Valid()
      modifies this
      ensures var o := SendPayload(old(View()), env); View() == o.zeta && sent == o.sent && status == o.status
    {
      if beta.Null? { return None, SessionExpired; }
      if !(beta.S1? || beta.S2? || beta.R1? || beta.R2?) { return None, SessionNotEstablished; }
      var counter := NextCounter(env.settings);
      if counter.Exhausted? {
        Stop();
        return None, SessionExpired;
      }
      if counter.shouldRekey && beta.S1? {
        timeoutTimer := Common.LONG_AGO;
      }
      var k := keys[KeyAt(false)].send;
      if k.nk.Some? && k.kid.Some? {
        sent := Some(Sealed(k.kid.value, k.nk.value, counter.c, Data));
      } else {
        sent := None;
      }
      status := Done;
    }

    method HandlePayload(to: Kid, key: Key, c: nat) returns (status: Status)
      requires Valid()
      modifies window
      ensures var o := ReceivedPayload(old(View()), to, key, c); View() == o.zeta && status == o.status
    {
      var isOther: bool;
      if keys[KeyAt(true)].recv.kid == Some(to) {
        isOther := true;
      } else if keys[KeyAt(false)].recv.kid == Some(to) {
        isOther := false;
      } else {
        return OutOfSequence;
      }
      var nk := keys[KeyAt(isOther)].recv.nk;
      if nk.None? { return OutOfSequence; }
      if nk != Some(key) { return FailedAuth; }
      var ok := UpdateCounterWindow(c);
      return if ok then Done else ExpiredCounter;
    }
  }
}
