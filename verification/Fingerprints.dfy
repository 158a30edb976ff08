/** Storage that keeps every peer's ratchet states and an index of the fingerprints in it, updated
    from compare-and-swap requests alone. Fingerprints are ideal, so the index holds the states. */
module Fingerprints {
  import opened Wrappers
  import opened Ratchet
  import Z = Zeta

  type Peers = map<nat, States>

  /** A peer that is not in storage has the initial states. */
  function At(peers: Peers, id: nat): States { if id in peers then peers[id] else InitialStates }

  function Only(o: Option<RatchetState>): set<RatchetState> { if o.Some? then {o.value} else {} }

  function Reindexed(index: set<RatchetState>, cas: CompareAndSwap): set<RatchetState> {
    index + Only(cas.AddedFingerprint()) - Only(cas.DeletedFingerprint1()) - Only(cas.DeletedFingerprint2())
  }

  datatype Store = Store(peers: Peers, index: set<RatchetState>)

  /** What a request leaves in storage: it is granted exactly when the pair it expects is there. */
  function Granted(s: Store, id: nat, cas: CompareAndSwap): Store {
    if At(s.peers, id) == cas.ToCur() then Store(s.peers[id := cas.ToNew()], Reindexed(s.index, cas)) else s
  }

  class Storage {
    var peers: Peers
    var index: set<RatchetState>

    constructor ()
      ensures peers == map[] && index == {}
    {
      peers, index := map[], {};
    }

    /** `save_ratchet_state`. */
    method Save(id: nat, cas: CompareAndSwap) returns (swapped: bool)
      modifies this
      ensures swapped == (At(old(peers), id) == cas.ToCur())
      ensures Store(peers, index) == Granted(old(Store(peers, index)), id, cas)
    {
      if id in peers {
        if peers[id] != cas.ToCur() {
          return false;
        }
      } else if !(cas.cur1 == Empty && cas.cur2.None?) {
        return false;
      }
      peers := peers[id := cas.ToNew()];
      if cas.AddedFingerprint().Some? {
        index := index + {cas.AddedFingerprint().value};
      }
      if cas.DeletedFingerprint1().Some? {
        index := index - {cas.DeletedFingerprint1().value};
      }
      if cas.DeletedFingerprint2().Some? {
        index := index - {cas.DeletedFingerprint2().value};
      }
      return true;
    }
  }

  // ---------- the requests ----------

  /** What the three flags of a request are documented to mean. */
  predicate FlagsTrue(cas: CompareAndSwap) {
    && (cas.new1Added <==> cas.new1 != cas.cur1 && Some(cas.new1) != cas.cur2)
    && (cas.cur1Deleted <==> cas.cur1 != cas.new1 && Some(cas.cur1) != cas.new2)
    && (cas.cur2Deleted <==> cas.cur2 != Some(cas.new1) && cas.cur2 != cas.new2)
  }

  /** The transitions that make a request, with the session or the stored pair they start from. */
  datatype Issue =
    | ByC1(z: Z.Zeta)
    | ByK1(z: Z.Zeta, kex: Kex)
    | ByK2(z: Z.Zeta, kex: Kex)
    | ByX2(z: Z.Zeta, kex: Kex, second: bool)
    | ByX3(s: States, kex: Kex)
  {
    function Request(): CompareAndSwap {
      match this
      case ByC1(z) => Z.C1Request(z)
      case ByK1(z, kex) => Z.K1Request(z, kex)
      case ByK2(z, kex) => Z.K2Request(z, kex)
      case ByX2(z, kex, second) => Z.X2Request(z, kex, if second then 2 else 1)
      case ByX3(s, kex) => Z.X3Request(s, kex)
    }
  }

  /** The second state of a pair is none or differs from the first. */
  predicate Apart(s: States) { s.state2 != Some(s.state1) }

  /** For a pair of two different states and a new derived state, the flags that the transitions set
      are what they are documented to be, except that a second K-message and a completed handshake
      announce the deletion of a second state even when there is none. */
  lemma FlagsAreTrue(i: Issue)
    requires Apart(i.Request().ToCur()) && (!i.ByC1? ==> !Holds(i.Request().ToCur(), NewRatchet(i.kex)))
    requires i.ByC1? ==> i.z.rs2.Some?
    ensures FlagsTrue(i.Request()) <==> !((i.ByK2? || i.ByX3?) && i.Request().cur2.None?)
  {
    match i
    case ByC1(z) =>
    case ByK1(z, kex) => assert i.Request().cur2 != i.Request().new2;
    case ByK2(z, kex) =>
    case ByX2(z, kex, second) =>
    case ByX3(s, kex) =>
  }

  // ---------- runs ----------

  function NonEmpty(s: States): set<RatchetState> { {s.state1} + Only(s.state2) - {Empty} }

  /** All non-empty states in storage. */
  function Everywhere(peers: Peers): set<RatchetState> { set id, r | id in peers && r in NonEmpty(peers[id]) :: r }

  /** The index is exact, no two peers share a fingerprint and no pair repeats one. */
  predicate Exact(s: Store) {
    && s.index == Everywhere(s.peers)
    && (forall id :: id in s.peers ==> Apart(s.peers[id]))
    && (forall i, j :: i in s.peers && j in s.peers && i != j ==> NonEmpty(s.peers[i]) !! NonEmpty(s.peers[j]))
  }

  /** A request made for a peer. */
  datatype Made = Made(id: nat, issue: Issue)

  /** A newly derived state is in no storage yet. */
  predicate NewIn(s: Store, i: Issue) { !i.ByC1? ==> NewRatchet(i.kex) !in Everywhere(s.peers) }

  function After(s: Store, run: seq<Made>): Store {
    if run == [] then s else
      var m := run[|run| - 1];
      Granted(After(s, run[..|run| - 1]), m.id, m.issue.Request())
  }

  lemma EverywhereUpdate(peers: Peers, id: nat, v: States)
    requires forall j :: j in peers && j != id ==> NonEmpty(peers[j]) !! NonEmpty(At(peers, id))
    ensures Everywhere(peers[id := v]) == Everywhere(peers) - NonEmpty(At(peers, id)) + NonEmpty(v)
  {
    hide NonEmpty;
    NothingInitial();
    var p := peers[id := v];
    forall r ensures r in Everywhere(p) <==> r in Everywhere(peers) - NonEmpty(At(peers, id)) + NonEmpty(v) {
      if r in NonEmpty(v) {
        assert id in p && p[id] == v;
      } else if r in Everywhere(peers) - NonEmpty(At(peers, id)) {
        var j :| j in peers && r in NonEmpty(peers[j]);
        assert j in p && p[j] == peers[j];
      }
    }
  }

  lemma NothingInitial()
    ensures NonEmpty(InitialStates) == {}
  {
  }

  /** The difference a request describes is the difference it makes. */
  lemma RequestDifference(i: Issue, index: set<RatchetState>)
    requires var cas := i.Request();
      && Apart(cas.ToCur()) && NonEmpty(cas.ToCur()) <= index && (!i.ByC1? ==> NewRatchet(i.kex) !in index)
    ensures Reindexed(index, i.Request()) == index - NonEmpty(i.Request().ToCur()) + NonEmpty(i.Request().ToNew())
    ensures Apart(i.Request().ToNew())
    ensures NonEmpty(i.Request().ToNew()) <=
      NonEmpty(i.Request().ToCur()) + if i.ByC1? then {} else {NewRatchet(i.kex)}
  {
  }

  lemma KeepExact(s: Store, m: Made)
    requires Exact(s) && NewIn(s, m.issue)
    ensures Exact(Granted(s, m.id, m.issue.Request()))
  {
    hide NonEmpty, Reindexed, Apart;
    var cas := m.issue.Request();
    var cur := At(s.peers, m.id);
    if cur == cas.ToCur() {
      NothingInitial();
      assert Apart(cur) by { InitialApart(); }
      assert NonEmpty(cur) <= s.index;
      RequestDifference(m.issue, s.index);
      EverywhereUpdate(s.peers, m.id, cas.ToNew());
      forall j | j in s.peers && j != m.id ensures NonEmpty(s.peers[j]) !! NonEmpty(cas.ToNew()) {
        assert NonEmpty(s.peers[j]) <= Everywhere(s.peers);
      }
    }
  }

  lemma InitialApart()
    ensures Apart(InitialStates)
  {
  }

  /** Whatever requests the transitions make, granted or refused, the index that is kept from them
      equals the set of non-empty fingerprints in storage. */
  lemma {:induction false} IndexIsExact(s: Store, run: seq<Made>)
    requires Exact(s)
    requires forall k :: 0 <= k < |run| ==> NewIn(After(s, run[..k]), run[k].issue)
    ensures Exact(After(s, run))
  {
    if run != [] {
      var before := run[..|run| - 1];
      forall k | 0 <= k < |before| ensures NewIn(After(s, before[..k]), before[k].issue) {
        assert before[..k] == run[..k];
      }
      IndexIsExact(s, before);
      KeepExact(After(s, before), run[|run| - 1]);
    }
  }
}
