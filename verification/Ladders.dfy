/** What a session that waits for an answer to its own rekey can still take. A counter too far ahead
    of the window becomes acceptable when packets in between are taken first, so whether an answer
    can be taken depends on everything else the network holds for the session. */
module Ladders {
  import opened Wrappers
  import opened Zeta
  import opened RekeyPair

  /** The window after it has accepted a counter. */
  function Taken(window: seq<nat>, c: nat): seq<nat>
    requires |window| == WINDOW_LEN
  {
    window[c % WINDOW_LEN := SaturatingSucc(c)]
  }

  /** The window accepts the counters `cs` one after the other, and then `c`. */
  predicate Ladder(window: seq<nat>, cs: seq<nat>, c: nat)
    decreases cs
  {
    && |window| == WINDOW_LEN
    && if cs == [] then WindowAccepts(window, c)
       else WindowAccepts(window, cs[0]) && Ladder(Taken(window, cs[0]), cs[1..], c)
  }

  predicate Within(cs: seq<nat>, steps: set<nat>) { forall i :: 0 <= i < |cs| ==> cs[i] in steps }

  /** With these counters at hand the window can be brought to accept `c`. */
  ghost predicate Reach(window: seq<nat>, steps: set<nat>, c: nat) {
    exists cs :: Within(cs, steps) && Ladder(window, cs, c)
  }

  lemma ReachNow(window: seq<nat>, steps: set<nat>, c: nat)
    requires |window| == WINDOW_LEN && WindowAccepts(window, c)
    ensures Reach(window, steps, c)
  {
    assert Within([], steps) && Ladder(window, [], c);
  }

  /** What can be reached after a step could be reached before. */
  lemma ReachBefore(window: seq<nat>, steps: set<nat>, k: nat, c: nat)
    requires |window| == WINDOW_LEN && WindowAccepts(window, k) && k in steps && Reach(Taken(window, k), steps, c)
    ensures Reach(window, steps, c)
  {
    var cs :| Within(cs, steps) && Ladder(Taken(window, k), cs, c);
    assert ([k] + cs)[1..] == cs;
    assert Within([k] + cs, steps) && Ladder(window, [k] + cs, c);
  }

  /** An answer to this side's own K1. */
  predicate IsAnswer(b: Face, m: Packet) {
    && m.Sealed? && m.body.K2? && Some(m.key) == b.cur.recv.kek && Some(m.to) == b.cur.recv.kid
    && b.beta.R1? && m.body.kex.x == b.beta.x && m.body.kex.psk == b.rs1
  }

  /** The slot a packet is addressed to. */
  function Slot(b: Face, to: Kid): DuplexKey {
    if b.nxt.recv.kid == Some(to) then b.nxt else if b.cur.recv.kid == Some(to) then b.cur else NoDuplexKey
  }

  /** A packet that moves the window of a waiting session without ending the wait, or that may end it. */
  predicate Climbs(b: Face, m: Packet) {
    && m.Sealed?
    && (|| IsAnswer(b, m)
        || (m.body.C1? && Slot(b, m.to).recv.kek == Some(m.key))
        || (m.body.Data? && Slot(b, m.to).recv.nk == Some(m.key)))
  }

  function Steps(b: Face, net: set<Packet>): set<nat> { set m | m in net && Climbs(b, m) :: m.counter }

  lemma StepsSame(b: Face, net: set<Packet>, m: Packet)
    requires !Climbs(b, m)
    ensures Steps(b, net + {m}) == Steps(b, net)
  {
    hide Climbs;
  }

  lemma StepsIn(b: Face, net: set<Packet>, m: Packet)
    requires m in net && Climbs(b, m)
    ensures m.counter in Steps(b, net)
  {
    hide Climbs;
  }
}
