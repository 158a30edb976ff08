/** What a session hands to the application over its life. Control packets and payloads of any kind
    share one window, in any order with timeouts, sends and storage answers. */
module Delivery {
  import opened Common
  import opened Wrappers
  import opened Ratchet
  import opened Zeta
  import opened RekeyPair
  import opened Ladders
  import opened Verdicts
  import A = Antireplay

  datatype Call =
    | Hear(m: Packet, env: Env, y: nat, kid: Kid, answer: SaveResult)
    | Tick(env: Env, x: nat, kid: Kid)
    | Send(env: Env)
    | Halt

  predicate Callable(c: Call) { c.Hear? ==> c.m.Sealed? }

  function Called(z: Zeta, c: Call): Outcome
    requires Callable(c)
  {
    match c
    case Hear(m, env, y, kid, answer) => Receive(z, env, m, y, kid, answer)
    case Tick(env, x, kid) => Service(z, env, x, kid)
    case Send(env) => SendPayload(z, env)
    case Halt => Outcome(Expire(z), None, None, Done)
  }

  /** A session's life, from a fresh window. */
  predicate Life(zs: seq<Zeta>, cs: seq<Call>) {
    && |zs| == |cs| + 1 && zs[0].window == seq(WINDOW_LEN, _ => 0)
    && forall i :: 0 <= i < |cs| ==> Callable(cs[i]) && zs[i + 1] == Called(zs[i], cs[i]).zeta
  }

  /** A packet with the counter `n` was let through: the window took note of it. */
  predicate Passed(z: Zeta, c: Call, n: nat)
    requires Callable(c)
  {
    c.Hear? && c.m.counter == n && Called(z, c).zeta.window != z.window
  }

  ghost predicate PassedBefore(zs: seq<Zeta>, cs: seq<Call>, i: nat, n: nat)
    requires Life(zs, cs) && i <= |cs|
  {
    exists j :: 0 <= j < i && Passed(zs[j], cs[j], n)
  }

  // ---------- one call ----------

  /** A call leaves the window alone or takes note of an acceptable counter, of a packet that opens. */
  predicate Notes(z: Zeta, m: Packet, o: Outcome)
    requires m.Sealed?
  {
    || o.zeta.window == z.window
    || (&& |z.window| == WINDOW_LEN && WindowAccepts(z.window, m.counter) && o.zeta.window == Taken(z.window, m.counter)
        && (|| Cur(z).recv.kek == Some(m.key) || Cur(z).recv.nk == Some(m.key)
            || Nxt(z).recv.kek == Some(m.key) || Nxt(z).recv.nk == Some(m.key)))
  }

  lemma ControlWindow(z: Zeta, body: Body)
    ensures SendControl(z, body).0.window == z.window
  {
  }

  lemma C1Notes(z: Zeta, env: Env, m: Packet, answer: SaveResult)
    requires m.Sealed?
    ensures Notes(z, m, ReceivedC1(z, env, m.to, m.key, m.counter, answer))
  {
    hide WindowAccepts, SendControl;
    var w := UpdateWindow(z, m.counter);
    if w.Some? {
      ControlWindow(w.value, C2);
      ControlWindow(Confirmed(w.value, env), C2);
    }
  }

  lemma RekeyNotes(z: Zeta, env: Env, m: Packet, y: nat, kid: Kid, answer: SaveResult)
    requires m.Sealed?
    ensures m.body.K1? ==> Notes(z, m, ReceivedK1(z, env, m.to, m.key, m.counter, m.body, y, kid, answer))
    ensures m.body.K2? ==> Notes(z, m, ReceivedK2(z, env, m.to, m.key, m.counter, m.body, answer))
  {
    hide WindowAccepts, SendControl;
    var w := UpdateWindow(z, m.counter);
    if w.Some? && m.body.K1? {
      var kex := Kex(m.body.x, y, z.rs1);
      ControlWindow(Answering(Remap(w.value, kid), env, kex, m.body.kid, kid), K2(kex, kid));
    }
    if w.Some? && m.body.K2? {
      ControlWindow(Advancing(w.value, env, m.body.kex, m.body.kid), C1);
    }
  }

  lemma ReceiveNotes(z: Zeta, env: Env, m: Packet, y: nat, kid: Kid, answer: SaveResult)
    requires m.Sealed?
    ensures Notes(z, m, Receive(z, env, m, y, kid, answer))
  {
    hide ReceivedC1, ReceivedK1, ReceivedK2, WindowAccepts;
    C1Notes(z, env, m, answer);
    RekeyNotes(z, env, m, y, kid, answer);
  }

  lemma OwnNotes(z: Zeta, env: Env, x: nat, kid: Kid)
    ensures Service(z, env, x, kid).zeta.window == z.window && SendPayload(z, env).zeta.window == z.window
  {
  }

  lemma CallNotes(z: Zeta, c: Call)
    requires Callable(c)
    ensures
      var w := Called(z, c).zeta.window;
      || (w == z.window && forall n :: !Passed(z, c, n))
      || (&& c.Hear? && |z.window| == WINDOW_LEN && WindowAccepts(z.window, c.m.counter)
          && w == Taken(z.window, c.m.counter) && Passed(z, c, c.m.counter))
  {
    hide Receive, Service, SendPayload, WindowAccepts;
    match c
    case Hear(m, env, y, kid, answer) => ReceiveNotes(z, env, m, y, kid, answer);
    case Tick(env, x, kid) => OwnNotes(z, env, x, kid);
    case Send(env) => OwnNotes(z, env, 0, 0);
    case Halt =>
  }

  // ---------- the window over a life ----------

  /** The slot of `n` is above `n` once `n` has been let through, and is then one above some such
      counter. */
  ghost predicate SlotHolds(w: seq<nat>, passed: iset<nat>, slot: nat)
    requires slot < WINDOW_LEN
  {
    && |w| == WINDOW_LEN
    && (w[slot] == 0 || exists n :: n in passed && n % WINDOW_LEN == slot && w[slot] == SaturatingSucc(n))
    && forall n :: n in passed && n % WINDOW_LEN == slot ==> SaturatingSucc(n) <= w[slot]
  }

  ghost function PassedSet(zs: seq<Zeta>, cs: seq<Call>, i: nat): iset<nat>
    requires Life(zs, cs) && i <= |cs|
  {
    iset n | PassedBefore(zs, cs, i, n)
  }

  lemma SlotAfter(w: seq<nat>, passed: iset<nat>, slot: nat, n: nat)
    requires slot < WINDOW_LEN && SlotHolds(w, passed, slot) && WindowAccepts(w, n)
    ensures SlotHolds(Taken(w, n), passed + iset{n}, slot)
  {
    var v := Taken(w, n);
    if n % WINDOW_LEN == slot {
      assert n in passed + iset{n} && v[slot] == SaturatingSucc(n);
    } else if w[slot] != 0 {
      var k :| k in passed && k % WINDOW_LEN == slot && w[slot] == SaturatingSucc(k);
      assert k in passed + iset{n};
    }
  }

  lemma PassedNext(zs: seq<Zeta>, cs: seq<Call>, i: nat)
    requires Life(zs, cs) && i < |cs|
    ensures PassedSet(zs, cs, i + 1) == PassedSet(zs, cs, i) + (iset n | Passed(zs[i], cs[i], n))
  {
    hide Passed, Called;
    forall n | n in PassedSet(zs, cs, i + 1) ensures PassedBefore(zs, cs, i, n) || Passed(zs[i], cs[i], n) {
    }
    forall n | Passed(zs[i], cs[i], n) ensures n in PassedSet(zs, cs, i + 1) {
    }
    forall n | n in PassedSet(zs, cs, i) ensures PassedBefore(zs, cs, i + 1, n) {
    }
  }

  lemma {:induction false} WindowHolds(zs: seq<Zeta>, cs: seq<Call>, i: nat, slot: nat)
    requires Life(zs, cs) && i <= |cs| && slot < WINDOW_LEN
    ensures SlotHolds(zs[i].window, PassedSet(zs, cs, i), slot)
  {
    hide Called, Passed, WindowAccepts;
    if i > 0 {
      WindowHolds(zs, cs, i - 1, slot);
      PassedNext(zs, cs, i - 1);
      CallNotes(zs[i - 1], cs[i - 1]);
      if zs[i].window == zs[i - 1].window {
        NoneOrOne(zs[i - 1], cs[i - 1]);
        assert PassedSet(zs, cs, i) == PassedSet(zs, cs, i - 1);
      } else {
        var n := cs[i - 1].m.counter;
        SlotAfter(zs[i - 1].window, PassedSet(zs, cs, i - 1), slot, n);
        NoneOrOne(zs[i - 1], cs[i - 1]);
        assert PassedSet(zs, cs, i) == PassedSet(zs, cs, i - 1) + iset{n};
      }
    }
  }

  lemma NoneOrOne(z: Zeta, c: Call)
    requires Callable(c)
    ensures Called(z, c).zeta.window == z.window ==> (iset n | Passed(z, c, n)) == iset{}
    ensures c.Hear? && Passed(z, c, c.m.counter) ==> (iset n | Passed(z, c, n)) == iset{c.m.counter}
  {
    hide Called;
  }

  // ---------- what the application is handed ----------

  /** No counter is let through twice, whatever the two packets are and whatever happens in between. */
  lemma PassedOnce(zs: seq<Zeta>, cs: seq<Call>, i: nat, j: nat, n: nat)
    requires Life(zs, cs) && i < j < |cs| && Passed(zs[i], cs[i], n)
    ensures !Passed(zs[j], cs[j], n)
  {
    hide Called, Passed, SlotHolds;
    assert PassedBefore(zs, cs, j, n);
    WindowHolds(zs, cs, j, n % WINDOW_LEN);
    CallNotes(zs[j], cs[j]);
    NotAgain(zs[j].window, PassedSet(zs, cs, j), n);
    SameCounter(zs[j], cs[j], n);
  }

  lemma SameCounter(z: Zeta, c: Call, n: nat)
    requires Callable(c)
    ensures Passed(z, c, n) ==> c.Hear? && c.m.counter == n && Called(z, c).zeta.window != z.window
  {
  }

  lemma NotAgain(w: seq<nat>, passed: iset<nat>, n: nat)
    requires SlotHolds(w, passed, n % WINDOW_LEN) && n in passed
    ensures !WindowAccepts(w, n)
  {
  }

  /** A payload is delivered: it is handed to the application. */
  predicate Delivered(z: Zeta, c: Call)
    requires Callable(c)
  {
    c.Hear? && c.m.body.Data? && Called(z, c).status == Done
  }

  lemma DeliveredPasses(z: Zeta, c: Call)
    requires Callable(c) && Delivered(z, c)
    ensures Passed(z, c, c.m.counter)
  {
    PayloadVerdict(z, c.env, c.m, c.y, c.kid, c.answer);
  }

  /** So a payload is handed to the application at most once in the life of a session, and never after
      another packet with its counter. */
  lemma DeliveredOnce(zs: seq<Zeta>, cs: seq<Call>, i: nat, j: nat)
    requires Life(zs, cs) && i < j < |cs| && cs[i].Hear? && cs[j].Hear? && cs[i].m.counter == cs[j].m.counter
    requires Passed(zs[i], cs[i], cs[i].m.counter) || Delivered(zs[i], cs[i])
    ensures !Delivered(zs[j], cs[j])
  {
    hide Called, Passed, Delivered;
    if Delivered(zs[i], cs[i]) { DeliveredPasses(zs[i], cs[i]); }
    PassedOnce(zs, cs, i, j, cs[i].m.counter);
    if Delivered(zs[j], cs[j]) { DeliveredPasses(zs[j], cs[j]); }
  }

  /** The payload opens under the slot it names. */
  predicate OpensPayload(z: Zeta, m: Packet)
    requires m.Sealed?
  {
    m.to in z.routes && m.body.Data? && Named(z, m.to).Some? && Named(z, m.to).value.recv.nk == Some(m.key)
  }

  /** A payload that opens, with a counter not let through yet and less than 128 behind every one that
      was, is handed to the application if and only if it is not too far ahead: its counter is below
      2^24, or one that fell into its slot is at most 2^24 behind it. */
  lemma FreshIsDelivered(zs: seq<Zeta>, cs: seq<Call>, i: nat)
    requires Life(zs, cs) && i < |cs| && cs[i].Hear? && OpensPayload(zs[i], cs[i].m) && cs[i].m.counter < U64_MAX
    requires forall n: nat :: PassedBefore(zs, cs, i, n) ==> n != cs[i].m.counter && n < cs[i].m.counter + WINDOW_LEN
    ensures
      var c := cs[i].m.counter;
      Delivered(zs[i], cs[i]) <==>
        (c < MAX_SKIP_AHEAD
         || exists n: nat :: PassedBefore(zs, cs, i, n) && n % WINDOW_LEN == c % WINDOW_LEN && c <= n + MAX_SKIP_AHEAD)
  {
    var c := cs[i].m.counter;
    WindowHolds(zs, cs, i, c % WINDOW_LEN);
    PayloadVerdict(zs[i], cs[i].env, cs[i].m, cs[i].y, cs[i].kid, cs[i].answer);
    hide Life, PassedBefore;
    FreshIs(zs[i], c);
    FreshAccepted(zs[i].window, PassedSet(zs, cs, i), c);
  }

  lemma FreshAccepted(w: seq<nat>, passed: iset<nat>, c: nat)
    requires SlotHolds(w, passed, c % WINDOW_LEN) && c < U64_MAX
    requires forall n :: n in passed ==> n != c && n < c + WINDOW_LEN
    ensures
      WindowAccepts(w, c) <==>
        (c < MAX_SKIP_AHEAD || exists n :: n in passed && n % WINDOW_LEN == c % WINDOW_LEN && c <= n + MAX_SKIP_AHEAD)
  {
    var slot := c % WINDOW_LEN;
    forall n | n in passed && n % WINDOW_LEN == slot ensures n < c {
      Behind(n, c);
    }
    if w[slot] != 0 {
      var k :| k in passed && k % WINDOW_LEN == slot && w[slot] == SaturatingSucc(k);
      assert k < c && w[slot] == k + 1;
    }
  }

  lemma Behind(n: nat, c: nat)
    requires n % WINDOW_LEN == c % WINDOW_LEN && n != c && n < c + WINDOW_LEN
    ensures n < c
  {
  }

  // ---------- the optimised implementation's window ----------

  /** Counters are 64-bit words, and not the greatest. */
  predicate Words(cs: seq<Call>) {
    forall i :: 0 <= i < |cs| && cs[i].Hear? ==> cs[i].m.Sealed? && cs[i].m.counter < WORD - 1
  }

  /** The counters let through, in order. */
  function Noted(zs: seq<Zeta>, cs: seq<Call>, i: nat): seq<A.Counter>
    requires Life(zs, cs) && Words(cs) && i <= |cs|
  {
    if i == 0 then []
    else Noted(zs, cs, i - 1)
         + if cs[i - 1].Hear? && zs[i].window != zs[i - 1].window then [cs[i - 1].m.counter] else []
  }

  /** The atomic window of the optimised implementation, given what the session lets through, is the
      session's window. */
  lemma {:induction false} SameAsAtomic(zs: seq<Zeta>, cs: seq<Call>, i: nat)
    requires Life(zs, cs) && Words(cs) && i <= |cs|
    ensures A.After(A.Empty(WINDOW_LEN), Noted(zs, cs, i)) == zs[i].window
  {
    hide Called, Passed, A.Accepts, A.Updated, WindowAccepts;
    if i > 0 {
      SameAsAtomic(zs, cs, i - 1);
      CallNotes(zs[i - 1], cs[i - 1]);
      if zs[i].window != zs[i - 1].window {
        var w: seq<A.Counter> := A.After(A.Empty(WINDOW_LEN), Noted(zs, cs, i - 1));
        A.SameTest(w, cs[i - 1].m.counter);
        OneMore(A.Empty(WINDOW_LEN), Noted(zs, cs, i - 1), cs[i - 1].m.counter);
      } else {
        assert Noted(zs, cs, i) == Noted(zs, cs, i - 1);
      }
    }
  }

  /** So it would let the same counters through next. */
  lemma AtomicAgrees(zs: seq<Zeta>, cs: seq<Call>, i: nat, c: A.Counter)
    requires Life(zs, cs) && Words(cs) && i <= |cs| && c < WORD - 1
    ensures |zs[i].window| == WINDOW_LEN
    ensures
      A.Accepts(A.After(A.Empty(WINDOW_LEN), Noted(zs, cs, i)), c, MAX_SKIP_AHEAD) <==> WindowAccepts(zs[i].window, c)
  {
    hide Called, Passed, A.Accepts, A.Updated, WindowAccepts;
    SameAsAtomic(zs, cs, i);
    A.SameTest(A.After(A.Empty(WINDOW_LEN), Noted(zs, cs, i)), c);
  }

  lemma OneMore(w: seq<A.Counter>, cs: seq<A.Counter>, c: A.Counter)
    requires |w| > 0
    ensures A.After(w, cs + [c]) == A.Updated(A.After(w, cs), c)
  {
    assert (cs + [c])[..|cs + [c]| - 1] == cs;
  }
}
