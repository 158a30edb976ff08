/** How often a session of the optimised implementation uses its sending keys. Threads take counters
    with an atomic fetch-and-add under the read lock of the session's state, and the transitions
    change that state under its write lock, so a run is a sequence of the steps below. */
module KeyUse {
  import opened Wrappers
  import opened Common

  const HARD_EXPIRE: nat := WORD - 1 - 0x1_0000
  const EXPIRE_AFTER_USES: nat := 0xFFFF_FFFF
  const MAX_THREADS: nat := 0x1_0000

  /** The most uses of one counter range: 2^32. */
  const LIMIT: nat := EXPIRE_AFTER_USES + 1

  /** A packet sealed under the sending keys of an epoch. */
  datatype Use = Use(epoch: nat, c: nat)

  /** `cur` and `nxt` name the sending keys in the two slots, `unborn` the next key to be derived.
      `answered` are the epochs in which this side answered a rekey; `failing` are the threads
      whose request for a counter was refused and that have yet to expire the session. */
  datatype State = State(
    wasBob: bool, counter: nat, created: nat, phase: Phase, cur: Option<nat>, nxt: Option<nat>, unborn: nat,
    uses: seq<Use>, answered: set<nat>, failing: set<nat>)

  /** `get_counter`: whether the counter it takes may be used. */
  predicate Usable(s: State) {
    s.counter <= HARD_EXPIRE && s.counter <= (s.created + EXPIRE_AFTER_USES) % WORD
  }

  /** `send_payload` and `send_control` by one thread. */
  function Send(s: State, thread: nat): State {
    var taken := s.(counter := (s.counter + 1) % WORD);
    if !Usable(s) then taken.(failing := s.failing + {thread})
    else if s.cur.Some? then taken.(uses := s.uses + [Use(s.cur.value, s.counter)])
    else taken
  }

  function Expire(s: State): State { s.(phase := Null, cur := None, nxt := None) }

  /** A handshake attempt is given up and started anew. */
  function Offer(s: State): State { s.(phase := A1, nxt := None) }

  /** The response to a handshake is accepted. */
  function Respond(s: State): State {
    s.(phase := A3, nxt := Some(s.unborn), unborn := s.unborn + 1, created := s.counter)
  }

  /** The peer confirms the next key. */
  function Confirm(s: State): State { s.(phase := S2, cur := s.nxt, nxt := s.cur) }

  function Acknowledge(s: State): State { s.(phase := S2) }

  function Rekey(s: State): State { s.(phase := R1) }

  /** A rekey is answered: the count starts again although the confirmed key stays in use. */
  function Answer(s: State): State {
    s.(phase := R2, nxt := Some(s.unborn), unborn := s.unborn + 1, created := s.counter,
       answered := if s.cur.Some? then s.answered + {s.cur.value} else s.answered)
  }

  /** A rekey's response is accepted: the new key is in use at once. */
  function Advance(s: State): State {
    s.(phase := S1, cur := Some(s.unborn), nxt := s.cur, unborn := s.unborn + 1, created := s.counter)
  }

  /** With each new key the count starts again: the counter after `n` further ones may be used if and only
      if `n` is within the limit and the counters are not near their end, where the limit wraps around. */
  lemma NewCount(s: State, t: State, n: nat)
    requires t == Respond(s) || t == Answer(s) || t == Advance(s)
    requires s.counter + n < WORD
    ensures
      Usable(t.(counter := s.counter + n)) <==>
        n <= EXPIRE_AFTER_USES && s.counter + n <= HARD_EXPIRE && s.counter + EXPIRE_AFTER_USES < WORD
  {
  }

  datatype Action = DoSend(thread: nat) | DoExpire | DoOffer | DoRespond | DoConfirm | DoAcknowledge | DoRekey
    | DoAnswer | DoAdvance

  /** A thread that was refused a counter expires the session before it does anything else. */
  predicate Enabled(s: State, a: Action, threads: set<nat>) {
    match a
    case DoSend(t) => t in threads && t !in s.failing
    case DoExpire => true
    case DoOffer => s.phase.A1? || s.phase.A3?
    case DoRespond => s.phase.A1?
    case DoConfirm => s.phase.A3? || s.phase.R2?
    case DoAcknowledge => s.phase.S1?
    case DoRekey => s.phase.S2?
    case DoAnswer => s.phase.S2? || (s.phase.R1? && s.wasBob)
    case DoAdvance => s.phase.R1?
  }

  function Next(s: State, a: Action): State {
    match a
    case DoSend(t) => Send(s, t)
    case DoExpire => Expire(s)
    case DoOffer => Offer(s)
    case DoRespond => Respond(s)
    case DoConfirm => Confirm(s)
    case DoAcknowledge => Acknowledge(s)
    case DoRekey => Rekey(s)
    case DoAnswer => Answer(s)
    case DoAdvance => Advance(s)
  }

  /** The session of an initiator, and that of a responder, whose first counter is one. */
  predicate Initial(s: State) {
    || s == State(false, 0, 0, A1, None, None, 0, [], {}, {})
    || s == State(true, 1, 1, S1, Some(0), None, 1, [], {}, {})
  }

  function Count(uses: seq<Use>, epoch: nat): nat {
    if uses == [] then 0 else Count(uses[..|uses| - 1], epoch) + if uses[|uses| - 1].epoch == epoch then 1 else 0
  }

  lemma CountMore(uses: seq<Use>, u: Use, epoch: nat)
    ensures Count(uses + [u], epoch) == Count(uses, epoch) + if u.epoch == epoch then 1 else 0
  {
    assert (uses + [u])[..|uses|] == uses;
  }

  lemma {:induction false} CountUnseen(uses: seq<Use>, epoch: nat)
    requires forall i :: 0 <= i < |uses| ==> uses[i].epoch < epoch
    ensures Count(uses, epoch) == 0
  {
    if uses != [] {
      CountUnseen(uses[..|uses| - 1], epoch);
    }
  }

  function Allowance(s: State, epoch: nat): nat { if epoch in s.answered then 2 * LIMIT else LIMIT }

  predicate Rising(uses: seq<Use>) { forall i, j :: 0 <= i < j < |uses| ==> uses[i].c < uses[j].c }

  ghost predicate Bounded(s: State) { forall e: nat :: Count(s.uses, e) <= Allowance(s, e) }

  /** A key that has not been used yet. */
  predicate Unused(s: State, k: Option<nat>) {
    k.Some? && k.value < s.unborn && k.value !in s.answered && Count(s.uses, k.value) == 0 && k != s.cur
  }

  predicate InUse(s: State) {
    && s.counter <= HARD_EXPIRE + 1 + |s.failing| && s.created <= s.counter
    && (forall i :: 0 <= i < |s.uses| ==> s.uses[i].c < s.counter)
    && match s.phase
       case Null => true
       case A1 => s.cur.None?
       case A3 => s.cur.None? && Unused(s, s.nxt)
       case R2 => s.cur.Some? && s.cur.value in s.answered
         && Count(s.uses, s.cur.value) <= LIMIT + (s.counter - s.created)
                  && Unused(s, s.nxt)
       case _ => s.cur.Some? && s.cur.value !in s.answered && Count(s.uses, s.cur.value) <= s.counter - s.created
  }

  ghost predicate Inv(s: State, threads: set<nat>) {
    && s.failing <= threads && |threads| < MAX_THREADS
    && Rising(s.uses) && Bounded(s)
    && (forall i :: 0 <= i < |s.uses| ==> s.uses[i].epoch < s.unborn)
    && (forall e :: e in s.answered ==> e < s.unborn)
    && (s.cur.Some? ==> s.cur.value < s.unborn)
    && if s.phase.Null? then s.cur.None? else InUse(s)
  }

  lemma SubsetSize(a: set<nat>, b: set<nat>)
    requires a <= b
    ensures |a| <= |b|
  {
    assert b == a + (b - a);
  }

  lemma KeepSend(s: State, thread: nat, threads: set<nat>)
    requires Inv(s, threads) && thread in threads && thread !in s.failing
    ensures Inv(Send(s, thread), threads)
  {
    hide Count;
    var t := Send(s, thread);
    SubsetSize(s.failing + {thread}, threads);
    if Usable(s) && s.cur.Some? {
      forall e: nat ensures Count(t.uses, e) == Count(s.uses, e) + if s.cur.value == e then 1 else 0 {
        CountMore(s.uses, Use(s.cur.value, s.counter), e);
      }
    }
  }

  lemma KeepInstall(s: State, threads: set<nat>)
    requires Inv(s, threads) && !s.phase.Null?
    ensures s.phase.A1? ==> Inv(Respond(s), threads)
    ensures s.phase.S2? || s.phase.R1? ==> Inv(Answer(s), threads)
    ensures s.phase.R1? ==> Inv(Advance(s), threads)
  {
    CountUnseen(s.uses, s.unborn);
    hide Count;
  }

  lemma KeepOther(s: State, a: Action, threads: set<nat>)
    requires Inv(s, threads) && Enabled(s, a, threads)
    requires a.DoExpire? || a.DoOffer? || a.DoConfirm? || a.DoAcknowledge? || a.DoRekey?
    ensures Inv(Next(s, a), threads)
  {
    hide Count;
  }

  lemma KeepInv(s: State, a: Action, threads: set<nat>)
    requires Inv(s, threads) && Enabled(s, a, threads)
    ensures Inv(Next(s, a), threads)
  {
    hide Inv;
    match a
    case DoSend(t) => KeepSend(s, t, threads);
    case DoRespond => KeepInstall(s, threads);
    case DoAnswer => KeepInstall(s, threads);
    case DoAdvance => KeepInstall(s, threads);
    case _ => KeepOther(s, a, threads);
  }

  predicate IsRun(run: seq<State>, actions: seq<Action>, threads: set<nat>) {
    && |run| == |actions| + 1 && Initial(run[0]) && |threads| < MAX_THREADS
    && forall i :: 0 <= i < |actions| ==> Enabled(run[i], actions[i], threads) && run[i + 1] == Next(run[i], actions[i])
  }

  lemma {:induction false} RunInv(run: seq<State>, actions: seq<Action>, threads: set<nat>, i: nat)
    requires IsRun(run, actions, threads) && i < |run|
    ensures Inv(run[i], threads)
  {
    if i > 0 {
      RunInv(run, actions, threads, i - 1);
      KeepInv(run[i - 1], actions[i - 1], threads);
    }
  }

  /** In every run no key sees a nonce twice, and no key is used more than 2^32 times, or 2^33 times
      if its epoch ends by answering a rekey. */
  lemma KeysAreSpared(run: seq<State>, actions: seq<Action>, threads: set<nat>, i: nat, epoch: nat)
    requires IsRun(run, actions, threads) && i < |run|
    ensures forall j, k :: 0 <= j < |run[i].uses| && 0 <= k < |run[i].uses| && j != k ==>
      run[i].uses[j].c != run[i].uses[k].c
    ensures Count(run[i].uses, epoch) <= if epoch in run[i].answered then 0x2_0000_0000 else 0x1_0000_0000
  {
    RunInv(run, actions, threads, i);
  }
}
