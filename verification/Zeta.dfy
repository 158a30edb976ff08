/** One side of the Zeta state machine as a function of its state: every transition algorithm
    of a session, over ideal Noise and AEAD. A key is named by the exchange and the output it
    is; a packet opens under a key exactly when it was sealed under that key. */
module Zeta {
  import Common
  import opened Wrappers
  import opened Ratchet

  const WINDOW_LEN: nat := 128
  const MAX_SKIP_AHEAD: nat := 0x100_0000
  const U64_MAX: nat := 0xFFFF_FFFF_FFFF_FFFF

  type Kid = nat

  /** The two key-exchange keys and the two transport keys of an exchange. `first` tells which of
      the two outputs of the derivation this is. */
  datatype Label = Kek | Nk
  datatype Key = Key(kex: Kex, lbl: Label, first: bool)

  datatype Keys = Keys(kek: Option<Key>, nk: Option<Key>, kid: Option<Kid>)
  datatype DuplexKey = DuplexKey(send: Keys, recv: Keys)

  const NoKeys := Keys(None, None, None)
  const NoDuplexKey := DuplexKey(NoKeys, NoKeys)

  datatype Body =
    | C1
    | C2
    | K1(x: nat, psk: RatchetState, kid: Kid)
    | K2(kex: Kex, kid: Kid)
    | D
    | Data

  datatype Packet =
    | X1(x: nat, kid: Kid, rf1: RatchetState, rf2: RatchetState)
    | X2(to: Kid, kex: Kex, kid: Kid)
    | X3(to: Kid, kex: Kex)
    | Sealed(to: Kid, key: Key, counter: nat, body: Body)

  datatype Automata =
    | Null
    | A1(x1: Packet)
    | A3(x3: Packet)
    | S1
    | S2
    | R1(x: nat, k1: Body)
    | R2(k2: Body)

  datatype Settings = Settings(
    resendTime: nat, initialOfferTimeout: nat, rekeyTimeout: nat, rekeyAfterTime: nat,
    rekeyAfterKeyUses: nat)

  /** What a transition reads from outside: configuration, clock and the jitter it draws. */
  datatype Env = Env(settings: Settings, now: int, jitter: nat)
  {
    function RekeyAt(): int {
      now + if jitter <= settings.rekeyAfterTime then settings.rekeyAfterTime - jitter else 0
    }
  }

  /** A session. `routes` are the key ids under which the session map reaches it. */
  datatype Zeta = Zeta(
    wasBob: bool, sendCounter: nat, keyCreationCounter: nat, keyIndex: bool, key0: DuplexKey, key1: DuplexKey,
    rs1: RatchetState, rs2: Option<RatchetState>, resendTimer: int, timeoutTimer: int, beta: Automata,
    window: seq<nat>, routes: set<Kid>)

  datatype Status =
    | Done | InvalidPacket | UnknownLocalKeyId | FailedAuth | ExpiredCounter | OutOfSequence | StorageError
    | SessionExpired | SessionNotEstablished

  /** The result of a transition: the new state, the packet sent, the storage request made. */
  datatype Outcome = Outcome(zeta: Zeta, sent: Option<Packet>, save: Option<CompareAndSwap>, status: Status)

  function Reject(z: Zeta, status: Status): Outcome { Outcome(z, None, None, status) }

  // ---------- key slots ----------

  function KeyRef(z: Zeta, isNext: bool): DuplexKey {
    if z.keyIndex != isNext then z.key1 else z.key0
  }

  function Cur(z: Zeta): DuplexKey { KeyRef(z, false) }

  function Nxt(z: Zeta): DuplexKey { KeyRef(z, true) }

  function WithNxt(z: Zeta, k: DuplexKey): (r: Zeta)
    ensures Nxt(r) == k && Cur(r) == Cur(z)
  {
    if z.keyIndex then z.(key0 := k) else z.(key1 := k)
  }

  function Flip(z: Zeta): (r: Zeta)
    ensures Cur(r) == Nxt(z) && Nxt(r) == Cur(z)
  {
    z.(keyIndex := !z.keyIndex)
  }

  function InitiatorKey(kex: Kex, send: Kid, recv: Option<Kid>): DuplexKey {
    DuplexKey(
      Keys(Some(Key(kex, Kek, false)), Some(Key(kex, Nk, false)), Some(send)),
      Keys(Some(Key(kex, Kek, true)), Some(Key(kex, Nk, true)), recv))
  }

  function ResponderKey(kex: Kex, send: Kid, recv: Kid): DuplexKey {
    DuplexKey(
      Keys(Some(Key(kex, Kek, true)), Some(Key(kex, Nk, true)), Some(send)),
      Keys(Some(Key(kex, Kek, false)), Some(Key(kex, Nk, false)), Some(recv)))
  }

  function RecvKids(z: Zeta): set<Kid> {
    (if z.key0.recv.kid.Some? then {z.key0.recv.kid.value} else {}) +
    (if z.key1.recv.kid.Some? then {z.key1.recv.kid.value} else {})
  }

  function Expire(z: Zeta): Zeta {
    z.(resendTimer := Common.NEVER, timeoutTimer := Common.NEVER, beta := Null, routes := z.routes - RecvKids(z))
  }

  /** The routes `remap` keeps; the new key id is drawn outside them. */
  function KeptRoutes(z: Zeta): set<Kid> {
    if Nxt(z).recv.kid.Some? then z.routes - {Nxt(z).recv.kid.value} else z.routes
  }

  function Remap(z: Zeta, kid: Kid): Zeta { z.(routes := KeptRoutes(z) + {kid}) }

  // ---------- counters ----------

  function SaturatingSucc(c: nat): nat { if c < U64_MAX then c + 1 else U64_MAX }

  predicate WindowAccepts(window: seq<nat>, c: nat)
    requires |window| == WINDOW_LEN
  {
    var slot := window[c % WINDOW_LEN];
    slot < SaturatingSucc(c) <= slot + MAX_SKIP_AHEAD
  }

  /** `update_counter_window`; a session whose window array has the wrong length accepts nothing. */
  function UpdateWindow(z: Zeta, c: nat): Option<Zeta> {
    if |z.window| == WINDOW_LEN && WindowAccepts(z.window, c)
    then Some(z.(window := z.window[c % WINDOW_LEN := SaturatingSucc(c)])) else None
  }

  datatype Counter = Exhausted | Count(c: nat, shouldRekey: bool)

  function GetCounter(z: Zeta, s: Settings): Counter {
    if z.sendCounter >= U64_MAX then Exhausted
    else
      var limit := z.keyCreationCounter + s.rekeyAfterKeyUses;
      Count(z.sendCounter, z.sendCounter >= if limit <= U64_MAX then limit else U64_MAX)
  }

  function Counted(z: Zeta): Zeta {
    if z.sendCounter >= U64_MAX then z else z.(sendCounter := z.sendCounter + 1)
  }

  /** `send_control`: spends a counter, then seals under the current sending key if there is one. */
  function SendControl(z: Zeta, body: Body): (Zeta, Option<Packet>) {
    var s := Cur(z).send;
    (Counted(z),
     if z.sendCounter < U64_MAX && s.kek.Some? && s.kid.Some?
     then Some(Sealed(s.kid.value, s.kek.value, z.sendCounter, body)) else None)
  }

  // ---------- timers ----------

  /** `create_a1_state` and the state change around it. */
  function StartAttempt(z: Zeta, env: Env, x: nat, kid: Kid): Outcome {
    var x1 := X1(x, kid, z.rs1, if z.rs2.Some? then z.rs2.value else Empty);
    var nxt := NoDuplexKey.(recv := NoKeys.(kid := Some(kid)));
    Outcome(
      WithNxt(Remap(z, kid), nxt).(
        resendTimer := env.now + env.settings.resendTime,
        timeoutTimer := env.now + env.settings.initialOfferTimeout,
        beta := A1(x1)),
      Some(x1), None, Done)
  }

  /** The state that starts a rekey: the next slot gets its receiving key id and keeps the rest. */
  function Rekeying(z: Zeta, env: Env, x: nat, kid: Kid): Zeta {
    WithNxt(Remap(z, kid), Nxt(z).(recv := Nxt(z).recv.(kid := Some(kid)))).(
      timeoutTimer := env.now + env.settings.rekeyTimeout,
      resendTimer := env.now + env.settings.resendTime,
      beta := R1(x, K1(x, z.rs1, kid)))
  }

  /** `timeout_trans`: `x` and `kid` are the ephemeral key and key id it draws. */
  function Timeout(z: Zeta, env: Env, x: nat, kid: Kid): Outcome {
    match z.beta
    case Null => Outcome(z, None, None, Done)
    case A1(_) => StartAttempt(z, env, x, kid)
    case A3(_) => StartAttempt(z, env, x, kid)
    case S2 =>
      var (z1, p) := SendControl(Rekeying(z, env, x, kid), K1(x, z.rs1, kid));
      Outcome(z1, p, None, Done)
    case S1 => Outcome(Expire(z), None, None, Done)
    case R1(_, _) => Outcome(Expire(z), None, None, Done)
    case R2(_) => Outcome(Expire(z), None, None, Done)
  }

  function Resend(z0: Zeta, env: Env): Outcome {
    var z := z0.(resendTimer := env.now + env.settings.resendTime);
    match z.beta
    case Null => Outcome(z, None, None, Done)
    case A1(x1) => Outcome(z, Some(x1), None, Done)
    case A3(x3) => Outcome(z, Some(x3), None, Done)
    case S1 => var (z1, p) := SendControl(z, C1); Outcome(z1, p, None, Done)
    case S2 => Outcome(z, None, None, Done)
    case R1(_, k1) => var (z1, p) := SendControl(z, k1); Outcome(z1, p, None, Done)
    case R2(k2) => var (z1, p) := SendControl(z, k2); Outcome(z1, p, None, Done)
  }

  /** `service`: the timer rules. */
  function Service(z: Zeta, env: Env, x: nat, kid: Kid): Outcome {
    if z.timeoutTimer <= env.now then Timeout(z, env, x, kid)
    else if z.resendTimer <= env.now then Resend(z, env)
    else Outcome(z, None, None, Done)
  }

  // ---------- key confirmation, acknowledgement, rejection ----------

  /** Which slot a received key id names; the next slot is looked at first. */
  function SlotOf(z: Zeta, kid: Kid): Option<bool> {
    if Nxt(z).recv.kid == Some(kid) then Some(true)
    else if Cur(z).recv.kid == Some(kid) then Some(false)
    else None
  }

  function C1Request(z: Zeta): CompareAndSwap {
    CompareAndSwap(z.rs1, None, false, z.rs1, z.rs2, false, true)
  }

  function Confirmed(z: Zeta, env: Env): Zeta {
    Flip(z).(rs2 := None, timeoutTimer := env.RekeyAt(), resendTimer := Common.NEVER, beta := S2)
  }

  function Acknowledge(z: Zeta, save: Option<CompareAndSwap>): Outcome {
    var (z1, p) := SendControl(z, C2);
    Outcome(z1, p, save, if p.Some? then Done else OutOfSequence)
  }

  /** `received_c1_trans`. */
  function ReceivedC1(z: Zeta, env: Env, to: Kid, key: Key, c: nat, answer: SaveResult): Outcome {
    var slot := SlotOf(z, to);
    if slot.None? then Reject(z, OutOfSequence)
    else if KeyRef(z, slot.value).recv.kek.None? then Reject(z, OutOfSequence)
    else if KeyRef(z, slot.value).recv.kek != Some(key) then Reject(z, FailedAuth)
    else
      var w := UpdateWindow(z, c);
      if w.None? then Reject(z, ExpiredCounter)
      else if slot.value && (z.beta.A3? || z.beta.R2?) then
        var save := if z.rs2.Some? then Some(C1Request(z)) else None;
        if save.Some? && answer == Failed then Outcome(w.value, None, save, StorageError)
        else if save.Some? && answer == Refused then Outcome(Expire(w.value), None, save, OutOfSequence)
        else
          Acknowledge(Confirmed(w.value, env), save)
      else Acknowledge(w.value, None)
  }

  /** `received_c2_trans`. */
  function ReceivedC2(z: Zeta, env: Env, to: Kid, key: Key, c: nat): Outcome {
    if Cur(z).recv.kid != Some(to) then Reject(z, UnknownLocalKeyId)
    else if !z.beta.S1? then Reject(z, OutOfSequence)
    else if Cur(z).recv.kek != Some(key) then Reject(z, FailedAuth)
    else
      var w := UpdateWindow(z, c);
      if w.None? then Reject(z, ExpiredCounter)
      else Outcome(w.value.(timeoutTimer := env.RekeyAt(), resendTimer := Common.NEVER, beta := S2), None, None, Done)
  }

  /** `received_d_trans`. */
  function ReceivedD(z: Zeta, to: Kid, key: Key, c: nat): Outcome {
    if Nxt(z).recv.kid != Some(to) || !z.beta.A3? then Reject(z, OutOfSequence)
    else if Nxt(z).recv.kek != Some(key) then Reject(z, FailedAuth)
    else
      var w := UpdateWindow(z, c);
      if w.None? then Reject(z, ExpiredCounter)
      else Outcome(Expire(w.value), None, None, Done)
  }

  // ---------- rekeying ----------

  predicate RekeysAsBob(z: Zeta) { z.beta.S2? || (z.beta.R1? && z.wasBob) }

  function K1Request(z: Zeta, kex: Kex): CompareAndSwap {
    CompareAndSwap(NewRatchet(kex), Some(z.rs1), true, z.rs1, z.rs2, false, true)
  }

  function Answering(z: Zeta, env: Env, kex: Kex, send: Kid, recv: Kid): Zeta {
    WithNxt(z, ResponderKey(kex, send, recv)).(
      rs2 := Some(z.rs1), rs1 := NewRatchet(kex), keyCreationCounter := z.sendCounter,
      timeoutTimer := env.now + env.settings.rekeyTimeout,
      resendTimer := env.now + env.settings.resendTime,
      beta := R2(K2(kex, recv)))
  }

  /** `received_k1_trans`: `y` and `kid` are the ephemeral key and key id it draws. The inner
      Noise payload opens exactly when both sides mixed the same ratchet key. */
  function ReceivedK1(z: Zeta, env: Env, to: Kid, key: Key, c: nat, k1: Body, y: nat, kid: Kid,
                      answer: SaveResult): Outcome
    requires k1.K1?
  {
    if Cur(z).recv.kid != Some(to) then Reject(z, UnknownLocalKeyId)
    else if !RekeysAsBob(z) then Reject(z, OutOfSequence)
    else if Cur(z).recv.kek != Some(key) then Reject(z, FailedAuth)
    else
      var w := UpdateWindow(z, c);
      if w.None? then Reject(z, ExpiredCounter)
      else if k1.psk != z.rs1 then Outcome(Expire(w.value), None, None, FailedAuth)
      else
        var kex := Kex(k1.x, y, z.rs1);
        var z1 := Remap(w.value, kid);
        var save := Some(K1Request(z, kex));
        if answer == Failed then Outcome(z1, None, save, StorageError)
        else if answer == Refused then Outcome(Expire(z1), None, save, OutOfSequence)
        else
          var (z2, p) := SendControl(Answering(z1, env, kex, k1.kid, kid), K2(kex, kid));
          Outcome(z2, p, save, Done)
  }

  function K2Request(z: Zeta, kex: Kex): CompareAndSwap {
    CompareAndSwap(NewRatchet(kex), None, true, z.rs1, z.rs2, true, true)
  }

  function Advancing(z: Zeta, env: Env, kex: Kex, send: Kid): Zeta {
    Flip(WithNxt(z, InitiatorKey(kex, send, Nxt(z).recv.kid))).(
      rs1 := NewRatchet(kex), keyCreationCounter := z.sendCounter,
      timeoutTimer := env.now + env.settings.rekeyTimeout,
      resendTimer := env.now + env.settings.resendTime,
      beta := S1)
  }

  /** `received_k2_trans`: the payload opens exactly when the response continues this side's own K1. */
  function ReceivedK2(z: Zeta, env: Env, to: Kid, key: Key, c: nat, k2: Body, answer: SaveResult): Outcome
    requires k2.K2?
  {
    if Cur(z).recv.kid != Some(to) then Reject(z, UnknownLocalKeyId)
    else if !z.beta.R1? then Reject(z, OutOfSequence)
    else if Cur(z).recv.kek != Some(key) then Reject(z, FailedAuth)
    else
      var w := UpdateWindow(z, c);
      if w.None? then Reject(z, ExpiredCounter)
      else if !(z.beta.k1.K1? && k2.kex.x == z.beta.x && k2.kex.psk == z.beta.k1.psk) then
        Outcome(Expire(w.value), None, None, FailedAuth)
      else
        var kex := k2.kex;
        var save := Some(K2Request(z, kex));
        if answer == Failed then Outcome(w.value, None, save, StorageError)
        else if answer == Refused then Outcome(Expire(w.value), None, save, OutOfSequence)
        else
          var (z1, p) := SendControl(Advancing(w.value, env, kex, k2.kid), C1);
          Outcome(z1, p, save, Done)
  }

  // ---------- transport ----------

  predicate CanSend(z: Zeta) { z.beta.S1? || z.beta.S2? || z.beta.R1? || z.beta.R2? }

  /** `send_payload`. */
  function SendPayload(z: Zeta, env: Env): Outcome {
    if z.beta.Null? then Reject(z, SessionExpired)
    else if !CanSend(z) then Reject(z, SessionNotEstablished)
    else if z.sendCounter >= U64_MAX then Outcome(Expire(z), None, None, SessionExpired)
    else
      var z1 :=
        if GetCounter(z, env.settings).shouldRekey && z.beta.S1? then z.(timeoutTimer := Common.LONG_AGO) else z;
      var s := Cur(z).send;
      Outcome(
        Counted(z1),
        if s.nk.Some? && s.kid.Some? then Some(Sealed(s.kid.value, s.nk.value, z.sendCounter, Data)) else None,
        None, Done)
  }

  /** Once a session has used its keys often enough, sending in S1 makes the session expire at the
      next service, and sending in S2 brings no rekey forward. */
  lemma OftenUsed(z: Zeta, env: Env, later: Env, x: nat, kid: Kid)
    requires z.sendCounter < U64_MAX && GetCounter(z, env.settings).shouldRekey && later.now >= Common.LONG_AGO
    ensures z.beta.S1? ==> Service(SendPayload(z, env).zeta, later, x, kid).zeta.beta.Null?
    ensures z.beta.S2? ==> SendPayload(z, env).zeta == z.(sendCounter := z.sendCounter + 1)
  {
  }

  /** `received_payload_in_place`. */
  function ReceivedPayload(z: Zeta, to: Kid, key: Key, c: nat): Outcome {
    var slot := SlotOf(z, to);
    if slot.None? then Reject(z, OutOfSequence)
    else if KeyRef(z, slot.value).recv.nk.None? then Reject(z, OutOfSequence)
    else if KeyRef(z, slot.value).recv.nk != Some(key) then Reject(z, FailedAuth)
    else
      var w := UpdateWindow(z, c);
      if w.None? then Reject(z, ExpiredCounter) else Outcome(w.value, None, None, Done)
  }

  /** Dispatch of a sealed packet that the session map routes to this session. */
  function Receive(z: Zeta, env: Env, p: Packet, y: nat, kid: Kid, answer: SaveResult): Outcome
    requires p.Sealed?
  {
    if p.to !in z.routes then Reject(z, UnknownLocalKeyId)
    else
      match p.body
      case C1 => ReceivedC1(z, env, p.to, p.key, p.counter, answer)
      case C2 => ReceivedC2(z, env, p.to, p.key, p.counter)
      case K1(_, _, _) => ReceivedK1(z, env, p.to, p.key, p.counter, p.body, y, kid, answer)
      case K2(_, _) => ReceivedK2(z, env, p.to, p.key, p.counter, p.body, answer)
      case D => ReceivedD(z, p.to, p.key, p.counter)
      case Data => ReceivedPayload(z, p.to, p.key, p.counter)
  }

  // ---------- opening a session ----------

  /** `trans_to_a1`: the session as it is created from the restored ratchet states. */
  function Opened(stored: States, env: Env, x: nat, kid: Kid): Outcome {
    StartAttempt(
      Zeta(false, 0, 0, true, NoDuplexKey, NoDuplexKey, stored.state1, stored.state2, Common.NEVER, Common.NEVER, Null,
           seq(WINDOW_LEN, _ => 0), {}),
      env, x, kid)
  }

  /** A responder's half-open handshake. */
  datatype StateB2 = StateB2(ratchet: RatchetState, x: nat, y: nat, kidSend: Kid, kidRecv: Kid)
  {
    function Exchange(): Kex { Kex(x, y, ratchet) }
  }

  /** `restore_by_fingerprint`: storage indexes the non-empty fingerprints it holds. */
  function Lookup(stored: States, rf: RatchetState): Option<RatchetState> {
    if rf != Empty && Holds(stored, rf) then Some(rf) else None
  }

  /** The ratchet state the responder picks from a Hello. The second look-up passes the first
      fingerprint again, as the code does. */
  function PickRatchet(stored: States, x1: Packet): Option<RatchetState>
    requires x1.X1?
  {
    var first := if x1.rf1 != Empty then Lookup(stored, x1.rf1) else None;
    if first.Some? then first
    else if x1.rf2 != Empty then Lookup(stored, x1.rf1)
    else None
  }

  /** So a ratchet state is found exactly when the responder holds the first one offered. */
  lemma PickExactly(stored: States, x1: Packet)
    requires x1.X1?
    ensures PickRatchet(stored, x1) == if x1.rf1 != Empty && Holds(stored, x1.rf1) then Some(x1.rf1) else None
  {
  }

  /** The second one offered is held, yet none is found. */
  lemma PickMissesSecond() returns (stored: States, x1: Packet)
    ensures x1.X1? && x1.rf2 != Empty && Lookup(stored, x1.rf2) == Some(x1.rf2)
    ensures PickRatchet(stored, x1) == None
  {
    stored := States(Otp(1), None);
    x1 := X1(0, 10, Derived(Kex(2, 3, Otp(1)), 2), Otp(1));
  }

  /** `received_x1_trans` once the Hello has been opened: the half-open state, or none when an
      unrecognised ratchet is not allowed. `y` and `kid` are what it draws. */
  function ReceivedX1(stored: States, x1: Packet, requireRatchet: bool, y: nat, kid: Kid): Option<StateB2>
    requires x1.X1?
  {
    var picked := PickRatchet(stored, x1);
    if picked.None? && requireRatchet then None
    else Some(StateB2(if picked.Some? then picked.value else Empty, x1.x, y, x1.kid, kid))
  }

  function X2Of(q: StateB2): Packet { X2(q.kidSend, q.Exchange(), q.kidRecv) }

  /** Which remembered ratchet state the response was made with: the trial decryptions in order.
      The third trial, with the zero key, counts as the second state. */
  function TrialDecrypt(z: Zeta, psk: RatchetState, disallowDowngrade: bool): Option<nat> {
    if psk == z.rs1 then Some(1)
    else if z.rs2 == Some(psk) then Some(2)
    else if psk == Empty && !disallowDowngrade then Some(2)
    else None
  }

  function X2Request(z: Zeta, kex: Kex, ratchetI: nat): CompareAndSwap {
    CompareAndSwap(NewRatchet(kex), if ratchetI == 1 then Some(z.rs1) else z.rs2, true,
                   z.rs1, z.rs2, ratchetI == 2, ratchetI == 1)
  }

  function Completing(z: Zeta, env: Env, kex: Kex, send: Kid): Zeta {
    WithNxt(z, InitiatorKey(kex, send, Nxt(z).recv.kid)).(
      rs2 := Some(z.rs1), rs1 := NewRatchet(kex), keyCreationCounter := z.sendCounter,
      resendTimer := env.now + env.settings.resendTime,
      timeoutTimer := env.now + env.settings.initialOfferTimeout,
      beta := A3(X3(send, kex)))
  }

  /** A failed handshake step times the attempt out; the storage request already made stands. */
  function Abandon(z: Zeta, env: Env, x: nat, kid: Kid, save: Option<CompareAndSwap>, status: Status): Outcome {
    Timeout(z, env, x, kid).(save := save, status := status)
  }

  /** `received_x2_trans`, for a session the receive path lets it reach (state A1). `x` and `kid`
      are drawn only when the attempt is abandoned. */
  function ReceivedX2(z: Zeta, env: Env, x2: Packet, disallowDowngrade: bool, x: nat, kid: Kid,
                      answer: SaveResult): Outcome
    requires x2.X2?
  {
    if Nxt(z).recv.kid != Some(x2.to) then Reject(z, UnknownLocalKeyId)
    else if !(z.beta.A1? && z.beta.x1.X1?) then Reject(z, OutOfSequence)
    else if x2.kex.x != z.beta.x1.x then Abandon(z, env, x, kid, None, FailedAuth)
    else
      var trial := TrialDecrypt(z, x2.kex.psk, disallowDowngrade);
      if trial.None? then Abandon(z, env, x, kid, None, FailedAuth)
      else
        var save := Some(X2Request(z, x2.kex, trial.value));
        if answer == Failed then Outcome(z, None, save, StorageError)
        else if answer == Refused then Abandon(z, env, x, kid, save, OutOfSequence)
        else
          var z1 := Completing(z, env, x2.kex, x2.kid);
          Outcome(z1, Some(z1.beta.x3), save, Done)
  }

  /** What the application decides when a handshake completes at the responder. */
  datatype Accept = Accept(accepted: bool, disallowDowngrade: bool, silent: bool, kidTaken: bool)

  function Rejection(q: StateB2, silent: bool): Option<Packet> {
    if silent then None else Some(Sealed(q.kidSend, Key(q.Exchange(), Kek, true), 0, D))
  }

  function X3Request(stored: States, kex: Kex): CompareAndSwap {
    CompareAndSwap(NewRatchet(kex), None, true, stored.state1, stored.state2, true, true)
  }

  function NewSession(q: StateB2, env: Env): Zeta {
    Zeta(true, 1, 1, false, ResponderKey(q.Exchange(), q.kidSend, q.kidRecv), NoDuplexKey,
         NewRatchet(q.Exchange()), None,
         env.now + env.settings.resendTime, env.now + env.settings.rekeyTimeout, S1,
         seq(WINDOW_LEN, _ => 0), {q.kidRecv})
  }

  /** What `received_x3_trans` produces: perhaps a session, a packet and a storage request. */
  datatype Completion = Completion(
    session: Option<Zeta>, sent: Option<Packet>, save: Option<CompareAndSwap>, status: Status)

  predicate RatchetAccepted(stored: States, q: StateB2, disallowDowngrade: bool) {
    Holds(stored, q.ratchet) || (!disallowDowngrade && q.ratchet == Empty)
  }

  /** `received_x3_trans`. The key id may have been given away meanwhile; that is noticed only
      after storage was changed. */
  function ReceivedX3(stored: States, q: StateB2, env: Env, x3: Packet, act: Accept, answer: SaveResult): Completion
    requires x3.X3?
  {
    if x3.to != q.kidRecv then Completion(None, None, None, UnknownLocalKeyId)
    else if x3.kex != q.Exchange() then Completion(None, None, None, FailedAuth)
    else if !act.accepted then Completion(None, Rejection(q, act.silent), None, FailedAuth)
    else if !RatchetAccepted(stored, q, act.disallowDowngrade) then
      Completion(None, Rejection(q, act.silent), None, FailedAuth)
    else
      var save := Some(X3Request(stored, q.Exchange()));
      if answer == Failed then Completion(None, None, save, StorageError)
      else if answer == Refused || act.kidTaken then Completion(None, None, save, OutOfSequence)
      else
        Completion(Some(NewSession(q, env)), Some(Sealed(q.kidSend, Key(q.Exchange(), Kek, true), 0, C1)), save, Done)
  }
}
