/** The atomic anti-replay window. `update` is one atomic fetch-max and `check` one atomic load, so
    an interleaving of threads is a sequence of them. Words are 64 bits wide. */
module Antireplay {
  import opened Common
  import Z = Zeta

  type Counter = c: nat | c < WORD

  function WrappingSucc(c: Counter): (a: Counter)
    ensures c < WORD - 1 ==> a == c + 1
  {
    (c + 1) % WORD
  }

  function SlotOf(c: nat, length: nat): (s: nat)
    requires length > 0
    ensures s < length
  {
    c % length
  }

  /** The test both operations make on the slot they find; the difference cannot wrap there. */
  predicate Passes(prev: Counter, adj: Counter, max: nat) { prev < adj <= prev + max }

  predicate Accepts(w: seq<Counter>, c: Counter, max: nat)
    requires |w| > 0
  {
    Passes(w[SlotOf(c, |w|)], WrappingSucc(c), max)
  }

  /** The window after an update, accepted or not. */
  function Updated(w: seq<Counter>, c: Counter): (r: seq<Counter>)
    requires |w| > 0
    ensures |r| == |w|
  {
    var adj := WrappingSucc(c);
    if w[SlotOf(c, |w|)] < adj then w[SlotOf(c, |w|) := adj] else w
  }

  class Window {
    const slots: array<Counter>
    const max: nat

    constructor (length: nat, max: nat)
      requires length > 0
      ensures slots.Length == length && this.max == max && fresh(slots)
      ensures slots[..] == seq(length, _ => 0)
    {
      slots := new Counter[length](_ => 0);
      this.max := max;
    }

    method Check(c: Counter) returns (ok: bool)
      requires slots.Length > 0
      ensures ok == Accepts(slots[..], c, max)
    {
      var adj := WrappingSucc(c);
      var prev := slots[SlotOf(c, slots.Length)];
      ok := prev < adj && (adj - prev) % WORD <= max;
    }

    method Update(c: Counter) returns (ok: bool)
      requires slots.Length > 0
      modifies slots
      ensures ok == Accepts(old(slots[..]), c, max)
      ensures slots[..] == Updated(old(slots[..]), c)
    {
      var i := SlotOf(c, slots.Length);
      var adj := WrappingSucc(c);
      var prev := slots[i];
      slots[i] := if prev < adj then adj else prev;
      ok := prev < adj && (adj - prev) % WORD <= max;
    }
  }

  // ---------- runs ----------

  function Empty(length: nat): seq<Counter> { seq(length, _ => 0) }

  /** The window after the updates with these counters. */
  function After(w: seq<Counter>, cs: seq<Counter>): (r: seq<Counter>)
    requires |w| > 0
    ensures |r| == |w|
  {
    if cs == [] then w else Updated(After(w, cs[..|cs| - 1]), cs[|cs| - 1])
  }

  /** A counter in the run fell into a slot. */
  predicate Fell(cs: seq<Counter>, length: nat, slot: nat, c: Counter)
    requires length > 0
  {
    c in cs && SlotOf(c, length) == slot
  }

  /** A slot holds the greatest counter that ever fell into it, plus one. */
  lemma {:induction false} SlotIsGreatest(length: nat, cs: seq<Counter>, slot: nat)
    requires slot < length
    ensures var v := After(Empty(length), cs)[slot];
      && (forall c :: Fell(cs, length, slot, c) ==> WrappingSucc(c) <= v)
      && (v > 0 ==> Fell(cs, length, slot, v - 1))
  {
    if cs != [] {
      var before, c := cs[..|cs| - 1], cs[|cs| - 1];
      SlotIsGreatest(length, before, slot);
      assert cs == before + [c];
      assert c in cs;
    }
  }

  /** Exactly which counters a run leaves acceptable: those above every counter that fell into the
      same slot, and within the skip bound of it. */
  lemma AcceptsExactly(length: nat, max: nat, cs: seq<Counter>, c: Counter)
    requires length > 0 && c < WORD - 1
    ensures Accepts(After(Empty(length), cs), c, max) <==>
      && (forall d: Counter :: Fell(cs, length, SlotOf(c, length), d) && d < WORD - 1 ==> d < c)
      && c + 1 <= After(Empty(length), cs)[SlotOf(c, length)] + max
  {
    hide SlotOf;
    SlotIsGreatest(length, cs, SlotOf(c, length));
    var v := After(Empty(length), cs)[SlotOf(c, length)];
    if v > c {
      assert Fell(cs, length, SlotOf(c, length), v - 1);
    }
  }

  /** The greatest word is never accepted: its successor wraps to zero. */
  lemma CeilingRejected(w: seq<Counter>, max: nat)
    requires |w| > 0
    ensures !Accepts(w, WORD - 1, max)
  {
  }

  /** A counter is accepted at most once, however updates interleave: once it was presented, it is
      rejected ever after. */
  lemma AcceptedOnce(length: nat, max: nat, cs: seq<Counter>, i: nat, j: nat)
    requires length > 0 && i < j < |cs| && cs[i] == cs[j]
    ensures !Accepts(After(Empty(length), cs[..j]), cs[j], max)
  {
    hide SlotOf;
    if cs[j] == WORD - 1 {
      CeilingRejected(After(Empty(length), cs[..j]), max);
    } else {
      assert cs[..j][i] == cs[j];
      assert Fell(cs[..j], length, SlotOf(cs[j], length), cs[j]);
      AcceptsExactly(length, max, cs[..j], cs[j]);
    }
  }

  lemma SameSlotApart(length: nat, c: nat, d: nat)
    requires length > 0 && c < d && SlotOf(c, length) == SlotOf(d, length)
    ensures d >= c + length
  {
    var q, r := c / length, d / length;
    assert c == q * length + c % length && d == r * length + d % length;
    var k := r - q;
    assert k * length == r * length - q * length;
    if k <= 0 {
      NonPositive(k, length);
    } else {
      AtLeastOne(k, length);
    }
  }

  lemma NonPositive(k: int, n: nat)
    requires k <= 0
    ensures k * n <= 0
  {
  }

  lemma AtLeastOne(k: int, n: nat)
    requires k >= 1
    ensures k * n >= n
  {
  }

  /** A counter not seen before that is less than the window's length behind the highest one
      presented is accepted exactly when it is within the skip bound of its slot. */
  lemma FreshInWindow(length: nat, max: nat, cs: seq<Counter>, c: Counter)
    requires length > 0 && c < WORD - 1 && c !in cs
    requires forall d :: d in cs ==> d < WORD - 1 && d < c + length
    ensures Accepts(After(Empty(length), cs), c, max) <==> c + 1 <= After(Empty(length), cs)[SlotOf(c, length)] + max
  {
    hide SlotOf;
    forall d: Counter | Fell(cs, length, SlotOf(c, length), d) ensures d < c {
      if d > c {
        SameSlotApart(length, c, d);
      }
    }
    AcceptsExactly(length, max, cs, c);
  }

  /** The bound is on the highest counter presented, not on the highest one accepted: a counter
      rejected for skipping too far still raises its slot, and a fresh counter far below it is then
      rejected although it follows the only accepted one. */
  lemma RejectedRaises()
    ensures var w := After(Empty(Z.WINDOW_LEN), [0]);
      var far: Counter := 0x200_0000 + 1;
      && Accepts(Empty(Z.WINDOW_LEN), 0, Z.MAX_SKIP_AHEAD)
      && !Accepts(w, far, Z.MAX_SKIP_AHEAD)
      && Accepts(w, 1, Z.MAX_SKIP_AHEAD)
      && !Accepts(Updated(w, far), 1, Z.MAX_SKIP_AHEAD)
  {
    var first: seq<Counter> := [0];
    assert first[..0] == [];
    assert After(Empty(Z.WINDOW_LEN), first) == Empty(Z.WINDOW_LEN)[0 := 1];
  }

  // ---------- check before update ----------

  predicate Below(w: seq<Counter>, v: seq<Counter>) {
    |w| == |v| && forall i :: 0 <= i < |w| ==> w[i] <= v[i]
  }

  lemma {:induction false} Rises(w: seq<Counter>, cs: seq<Counter>, i: nat)
    requires |w| > 0 && i <= |cs|
    ensures Below(After(w, cs[..i]), After(w, cs))
    decreases |cs|
  {
    if i < |cs| {
      var before := cs[..|cs| - 1];
      assert before[..i] == cs[..i];
      Rises(w, before, i);
    } else {
      assert cs[..i] == cs;
    }
  }

  /** A counter that passed a check is later either accepted or rejected without a trace. */
  lemma CheckedUpdate(w: seq<Counter>, v: seq<Counter>, c: Counter, max: nat)
    requires |w| > 0 && Below(w, v) && Accepts(w, c, max)
    ensures Accepts(v, c, max) || Updated(v, c) == v
    ensures Accepts(v, c, max) <==> v[SlotOf(c, |v|)] < WrappingSucc(c)
  {
  }

  /** Both windows pass the same counters, away from the greatest word. */
  lemma SameTest(w: seq<Counter>, c: Counter)
    requires |w| == Z.WINDOW_LEN && c < WORD - 1
    ensures Accepts(w, c, Z.MAX_SKIP_AHEAD) <==> Z.WindowAccepts(w, c)
    ensures Accepts(w, c, Z.MAX_SKIP_AHEAD) ==> Updated(w, c) == w[SlotOf(c, |w|) := Z.SaturatingSucc(c)]
  {
  }

  /** The reference window's verdicts and states over the same updates. */
  function RefAfter(w: seq<nat>, cs: seq<Counter>): (r: seq<nat>)
    requires |w| == Z.WINDOW_LEN
    ensures |r| == |w|
  {
    if cs == [] then w else
      var v, c := RefAfter(w, cs[..|cs| - 1]), cs[|cs| - 1];
      if Z.WindowAccepts(v, c) then v[SlotOf(c, |v|) := Z.SaturatingSucc(c)] else v
  }

  /** Every update was preceded by a check that it passed; other threads may have updated since. */
  predicate Checked(w: seq<Counter>, cs: seq<Counter>, checkedAt: seq<nat>)
    requires |w| > 0
  {
    |checkedAt| == |cs| && forall i :: 0 <= i < |cs| ==>
      checkedAt[i] <= i && Accepts(After(w, cs[..checkedAt[i]]), cs[i], Z.MAX_SKIP_AHEAD)
  }

  lemma {:induction false} SameWindow(w: seq<Counter>, cs: seq<Counter>, checkedAt: seq<nat>, n: nat)
    requires |w| == Z.WINDOW_LEN && Checked(w, cs, checkedAt) && n <= |cs|
    requires forall c :: c in cs ==> c < WORD - 1
    ensures After(w, cs[..n]) == RefAfter(w, cs[..n])
  {
    hide SlotOf, Accepts, Updated, Z.WindowAccepts;
    if n > 0 {
      assert cs[n - 1] in cs;
      SameWindow(w, cs, checkedAt, n - 1);
      SameTest(After(w, cs[..n - 1]), cs[n - 1]);
      SameVerdict(w, cs, checkedAt, n - 1);
      assert cs[..n][..n - 1] == cs[..n - 1] && cs[..n][n - 1] == cs[n - 1];
    }
  }

  lemma SameVerdict(w: seq<Counter>, cs: seq<Counter>, checkedAt: seq<nat>, n: nat)
    requires |w| == Z.WINDOW_LEN && Checked(w, cs, checkedAt) && n < |cs|
    requires cs[n] < WORD - 1 && After(w, cs[..n]) == RefAfter(w, cs[..n])
    ensures Accepts(After(w, cs[..n]), cs[n], Z.MAX_SKIP_AHEAD) <==> Z.WindowAccepts(RefAfter(w, cs[..n]), cs[n])
    ensures Accepts(After(w, cs[..n]), cs[n], Z.MAX_SKIP_AHEAD)
      || Updated(After(w, cs[..n]), cs[n]) == After(w, cs[..n])
  {
    hide SlotOf, Accepts, Below, Updated, After, RefAfter, Z.WindowAccepts;
    var k := checkedAt[n];
    assert cs[..n][..k] == cs[..k];
    Rises(w, cs[..n], k);
    SameTest(After(w, cs[..n]), cs[n]);
    CheckedUpdate(After(w, cs[..k]), After(w, cs[..n]), cs[n], Z.MAX_SKIP_AHEAD);
  }

  /** With every update checked before, in any interleaving, the atomic window gives the verdicts
      of the sequential one, away from the greatest word. */
  lemma AtomicRefinesSequential(cs: seq<Counter>, checkedAt: seq<nat>, n: nat)
    requires Checked(Empty(Z.WINDOW_LEN), cs, checkedAt) && n < |cs|
    requires forall c :: c in cs ==> c < WORD - 1
    ensures Accepts(After(Empty(Z.WINDOW_LEN), cs[..n]), cs[n], Z.MAX_SKIP_AHEAD) <==>
            Z.WindowAccepts(RefAfter(Empty(Z.WINDOW_LEN), cs[..n]), cs[n])
  {
    hide SlotOf;
    SameWindow(Empty(Z.WINDOW_LEN), cs, checkedAt, n);
    SameVerdict(Empty(Z.WINDOW_LEN), cs, checkedAt, n);
  }

  ghost predicate AcceptedIn(w: seq<Counter>, cs: seq<Counter>, n: nat, d: Counter)
    requires |w| > 0 && n <= |cs|
  {
    exists i :: 0 <= i < n && cs[i] == d && Accepts(After(w, cs[..i]), d, Z.MAX_SKIP_AHEAD)
  }

  /** With every update checked first, a slot holds a counter that was accepted. */
  lemma {:induction false} SlotIsAccepted(cs: seq<Counter>, checkedAt: seq<nat>, n: nat, slot: nat)
    requires Checked(Empty(Z.WINDOW_LEN), cs, checkedAt) && n <= |cs| && slot < Z.WINDOW_LEN
    requires forall c :: c in cs ==> c < WORD - 1
    ensures var v := After(Empty(Z.WINDOW_LEN), cs[..n])[slot];
      v > 0 ==> SlotOf(v - 1, Z.WINDOW_LEN) == slot && AcceptedIn(Empty(Z.WINDOW_LEN), cs, n, v - 1)
  {
    hide SlotOf, Accepts, Z.WindowAccepts, After, Updated, Checked, AcceptedIn;
    var w := Empty(Z.WINDOW_LEN);
    if n > 0 {
      var c, before := cs[n - 1], After(w, cs[..n - 1]);
      assert c in cs;
      SlotIsAccepted(cs, checkedAt, n - 1, slot);
      SameWindow(w, cs, checkedAt, n - 1);
      SameVerdict(w, cs, checkedAt, n - 1);
      LastUpdate(w, cs, n);
      AcceptedGrows(w, cs, n);
      OneSlot(before, c, slot);
    } else {
      NoUpdate(w, cs);
    }
  }

  lemma NoUpdate(w: seq<Counter>, cs: seq<Counter>)
    requires |w| > 0
    ensures After(w, cs[..0]) == w
  {
  }

  lemma LastUpdate(w: seq<Counter>, cs: seq<Counter>, n: nat)
    requires |w| > 0 && 0 < n <= |cs|
    ensures After(w, cs[..n]) == Updated(After(w, cs[..n - 1]), cs[n - 1])
  {
    assert cs[..n][..n - 1] == cs[..n - 1];
  }

  lemma OneSlot(w: seq<Counter>, c: Counter, slot: nat)
    requires slot < |w| && c < WORD - 1
    ensures Updated(w, c)[slot] == w[slot] || (SlotOf(c, |w|) == slot && Updated(w, c)[slot] == c + 1)
  {
  }

  lemma AcceptedGrows(w: seq<Counter>, cs: seq<Counter>, n: nat)
    requires |w| > 0 && 0 < n <= |cs|
    ensures forall d: Counter :: AcceptedIn(w, cs, n - 1, d) ==> AcceptedIn(w, cs, n, d)
    ensures Accepts(After(w, cs[..n - 1]), cs[n - 1], Z.MAX_SKIP_AHEAD) ==> AcceptedIn(w, cs, n, cs[n - 1])
  {
    hide Accepts, After;
  }

  /** Then the window keeps its promise: a counter that was not accepted yet and is less than the
      window's length behind the highest one accepted is accepted exactly when it is within the skip
      bound of its slot. */
  lemma FreshAfterChecks(cs: seq<Counter>, checkedAt: seq<nat>, c: Counter)
    requires Checked(Empty(Z.WINDOW_LEN), cs, checkedAt) && c < WORD - 1
    requires forall d :: d in cs ==> d < WORD - 1
    requires forall d: Counter :: AcceptedIn(Empty(Z.WINDOW_LEN), cs, |cs|, d) ==> d != c && d < c + Z.WINDOW_LEN
    ensures var w := After(Empty(Z.WINDOW_LEN), cs);
      Accepts(w, c, Z.MAX_SKIP_AHEAD) <==> c + 1 <= w[SlotOf(c, Z.WINDOW_LEN)] + Z.MAX_SKIP_AHEAD
  {
    hide SlotOf, AcceptedIn, Checked;
    var slot := SlotOf(c, Z.WINDOW_LEN);
    SlotIsAccepted(cs, checkedAt, |cs|, slot);
    assert cs[..|cs|] == cs;
    var v := After(Empty(Z.WINDOW_LEN), cs)[slot];
    if v > 0 && v - 1 > c {
      SameSlotApart(Z.WINDOW_LEN, c, v - 1);
    }
  }
}
