/** Ratchet states, the stored pair of a peer and the compare-and-swap record that changes it.
    Hashes are ideal: a derived ratchet state is named by the key exchange it comes from, so two
    states have equal fingerprints exactly when they are the same state. */
module Ratchet {
  import opened Wrappers

  /** One completed Noise key exchange: the initiator's and the responder's ephemeral keys and
      the ratchet state mixed in as the pre-shared key. */
  datatype Kex = Kex(x: nat, y: nat, psk: RatchetState)

  datatype RatchetState =
    | Empty
    | Otp(password: nat)
    | Derived(kex: Kex, len: nat)

  function ChainLen(r: RatchetState): nat {
    match r
    case Empty => 0
    case Otp(_) => 1
    case Derived(_, len) => len
  }

  /** The ratchet state both sides read out of a finished key exchange. */
  function NewRatchet(kex: Kex): RatchetState {
    Derived(kex, ChainLen(kex.psk) + 1)
  }

  datatype States = States(state1: RatchetState, state2: Option<RatchetState>)

  const InitialStates := States(Empty, None)

  predicate Holds(s: States, r: RatchetState) {
    s.state1 == r || s.state2 == Some(r)
  }

  /** An update request, with the three flags exactly as the transition functions set them. */
  datatype CompareAndSwap = CompareAndSwap(
    new1: RatchetState, new2: Option<RatchetState>, new1Added: bool,
    cur1: RatchetState, cur2: Option<RatchetState>, cur1Deleted: bool, cur2Deleted: bool)
  {
    function ToNew(): States { States(new1, new2) }

    function ToCur(): States { States(cur1, cur2) }

    function AddedFingerprint(): Option<RatchetState> {
      if new1Added then Some(new1) else None
    }

    function DeletedFingerprint1(): Option<RatchetState> {
      if cur1Deleted && cur1 != Empty then Some(cur1) else None
    }

    function DeletedFingerprint2(): Option<RatchetState> {
      if cur2Deleted && cur2.Some? && cur2.value != Empty then cur2 else None
    }
  }

  /** What `save_ratchet_state` answers: swapped, refused because storage differs, or an I/O error. */
  datatype SaveResult = Saved | Refused | Failed

  /** Storage's answer to a request, and what storage then holds. */
  function Respond(s: States, cas: CompareAndSwap, ioError: bool): SaveResult {
    if ioError then Failed else if s == cas.ToCur() then Saved else Refused
  }

  function Stored(s: States, cas: CompareAndSwap, answer: SaveResult): States {
    if answer == Saved then cas.ToNew() else s
  }
}
