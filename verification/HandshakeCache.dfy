/** The bounded cache of half-open handshakes: three parallel arrays that are searched linearly. */
module HandshakeCache {
  import opened Wrappers
  import opened Common

  const HANDSHAKES: nat := 32

  datatype Cell<S> = Cell(id: Option<nat>, expiry: int, state: Option<S>)

  function NoCell<S>(): Cell<S> { Cell(None, 0, None) }

  /** The first cell of a handshake. */
  function Find<S>(cells: seq<Cell<S>>, id: nat): (i: nat)
    ensures i <= |cells|
    ensures i < |cells| ==> cells[i].id == Some(id)
    ensures forall j :: 0 <= j < i ==> cells[j].id != Some(id)
    decreases |cells|
  {
    if cells == [] || cells[0].id == Some(id) then 0 else
      var k := Find(cells[1..], id);
      assert forall j :: 1 <= j < 1 + k ==> cells[j] == cells[1..][j - 1];
      1 + k
  }

  function Lookup<S>(cells: seq<Cell<S>>, id: nat): Option<S> {
    var i := Find(cells, id);
    if i < |cells| then cells[i].state else None
  }

  predicate Vacant<S>(c: Cell<S>, now: int) { c.id.None? || c.expiry <= now }

  /** The first vacant cell. */
  function Room<S>(cells: seq<Cell<S>>, now: int): (i: nat)
    ensures i <= |cells|
    ensures i < |cells| ==> Vacant(cells[i], now)
    ensures forall j :: 0 <= j < i ==> !Vacant(cells[j], now)
    decreases |cells|
  {
    if cells == [] || Vacant(cells[0], now) then 0 else
      var k := Room(cells[1..], now);
      assert forall j :: 1 <= j < 1 + k ==> cells[j] == cells[1..][j - 1];
      1 + k
  }

  lemma FindIs<S>(cells: seq<Cell<S>>, id: nat, i: nat)
    requires i < |cells| && cells[i].id == Some(id) && forall j :: 0 <= j < i ==> cells[j].id != Some(id)
    ensures Find(cells, id) == i
  {
  }

  /** What an insertion displaces: nothing, an entry whose time has run out, or, when every cell has an
      unexpired entry, the first one. It is refused exactly when an entry with the id comes before any
      that is free or has run out. */
  lemma Displaces<S>(cells: seq<Cell<S>>, id: nat, now: int)
    requires |cells| > 0
    ensures
      var at := if Room(cells, now) < |cells| then Room(cells, now) else 0;
      || cells[at].id.None? || cells[at].expiry <= now
      || (at == 0 && forall i :: 0 <= i < |cells| ==> cells[i].id.Some? && cells[i].expiry > now)
    ensures
      Find(cells, id) < Room(cells, now) <==>
        exists i :: 0 <= i < |cells| && cells[i].id == Some(id)
          && forall j :: 0 <= j <= i ==> cells[j].id.Some? && cells[j].expiry > now
  {
  }

  predicate Pending<S>(cells: seq<Cell<S>>) { exists i :: 0 <= i < |cells| && cells[i].id.Some? }

  class UnassociatedHandshakeCache<S> {
    var hasPending: bool
    const localIds: array<Option<nat>>
    const expiries: array<int>
    const handshakes: array<Option<S>>

    ghost predicate Shape() {
      localIds.Length == expiries.Length == handshakes.Length == HANDSHAKES
        && localIds as object != handshakes as object
    }

    ghost predicate Valid()
      reads this, localIds, expiries, handshakes
    {
      && Shape()
      && (Pending(View()) ==> hasPending)
      && forall i :: 0 <= i < HANDSHAKES ==>
           if localIds[i].None? then expiries[i] == 0 && handshakes[i].None? else expiries[i] < NEVER
    }

    ghost function View(): (cells: seq<Cell<S>>)
      requires Shape()
      reads localIds, expiries, handshakes
      ensures |cells| == HANDSHAKES
      ensures forall i :: 0 <= i < HANDSHAKES ==> cells[i] == Cell(localIds[i], expiries[i], handshakes[i])
    {
      seq(HANDSHAKES, i requires 0 <= i < HANDSHAKES reads localIds, expiries, handshakes =>
        Cell(localIds[i], expiries[i], handshakes[i]))
    }

    constructor ()
      ensures Valid() && fresh(localIds) && fresh(expiries) && fresh(handshakes)
      ensures View() == seq(HANDSHAKES, _ => NoCell())
    {
      hasPending := false;
      localIds := new Option<nat>[HANDSHAKES](_ => None);
      expiries := new int[HANDSHAKES](_ => 0);
      handshakes := new Option<S>[HANDSHAKES](_ => None);
    }

    method Get(id: nat) returns (r: Option<S>)
      requires Valid()
      ensures r == Lookup(View(), id)
    {
      for i := 0 to localIds.Length
        invariant forall j :: 0 <= j < i ==> View()[j].id != Some(id)
      {
        if localIds[i] == Some(id) {
          return handshakes[i];
        }
      }
      return None;
    }

    method Put(i: nat, c: Cell<S>)
      requires Shape() && i < HANDSHAKES
      modifies localIds, expiries, handshakes
      ensures View() == old(View())[i := c]
    {
      localIds[i], expiries[i], handshakes[i] := c.id, c.expiry, c.state;
    }

    /** Adds a handshake and returns its deadline, unless an unexpired entry with its id comes before
        any vacant one. The entry that makes room is vacant if any is, and otherwise the first. */
    method Insert(id: nat, state: S, now: int, timeout: nat) returns (r: Option<int>)
      requires Valid() && now + timeout < NEVER
      modifies this, localIds, expiries, handshakes
      ensures Valid()
      ensures r == if Find(old(View()), id) < Room(old(View()), now) then None else Some(now + timeout)
      ensures View() == if r.None? then old(View()) else
        old(View())[(if Room(old(View()), now) < HANDSHAKES then Room(old(View()), now) else 0) :=
          Cell(Some(id), r.value, Some(state))]
      ensures r.Some? ==> Lookup(View(), id) == Some(state)
    {
      ghost var cells := View();
      var idx, i := 0, 0;
      while i < localIds.Length
        invariant 0 <= i <= HANDSHAKES && idx == 0
        invariant View() == cells && Valid()
        invariant forall j :: 0 <= j < i ==> !Vacant(cells[j], now) && cells[j].id != Some(id)
      {
        if localIds[i].None? || expiries[i] <= now {
          idx := i;
          break;
        } else if localIds[i] == Some(id) {
          FindIs(cells, id, i);
          return None;
        }
        i := i + 1;
      }
      Put(idx, Cell(Some(id), now + timeout, Some(state)));
      hasPending := true;
      r := Some(now + timeout);
      assert View() == cells[idx := Cell(Some(id), now + timeout, Some(state))];
      FindIs(View(), id, idx);
    }

    /** Removes the first entry of a handshake. */
    method Remove(id: nat) returns (found: bool)
      requires Valid()
      modifies localIds, expiries, handshakes
      ensures Valid()
      ensures found == (Find(old(View()), id) < HANDSHAKES)
      ensures View() == if found then old(View())[Find(old(View()), id) := NoCell()] else old(View())
    {
      ghost var cells := View();
      for i := 0 to localIds.Length
        invariant View() == cells && Valid()
        invariant forall j :: 0 <= j < i ==> View()[j].id != Some(id)
      {
        if localIds[i] == Some(id) {
          Put(i, NoCell());
          FindIs(cells, id, i);
          return true;
        }
      }
      return false;
    }

    /** Removes exactly the expired handshakes and returns the earliest deadline of the others. */
    method Service(now: int) returns (next: int)
      requires Valid()
      modifies this, localIds, expiries, handshakes
      ensures Valid() && Pending(View()) == hasPending
      ensures forall i :: 0 <= i < HANDSHAKES && old(View())[i].id.Some? ==>
        View()[i] == if old(View())[i].expiry <= now then NoCell() else old(View())[i]
      ensures forall i :: 0 <= i < HANDSHAKES && old(View())[i].id.None? ==> View()[i] == old(View())[i]
      ensures forall i :: 0 <= i < HANDSHAKES && View()[i].id.Some? ==>
        now < View()[i].expiry && next <= View()[i].expiry
      ensures next == NEVER || exists i :: 0 <= i < HANDSHAKES && View()[i].id.Some? && View()[i].expiry == next
    {
      ghost var cells := View();
      next := NEVER;
      if !hasPending {
        return;
      }
      hasPending := false;
      for i := 0 to localIds.Length
        invariant !hasPending && forall j :: 0 <= j < HANDSHAKES ==>
          if localIds[j].None? then expiries[j] == 0 && handshakes[j].None? else expiries[j] < NEVER
        invariant forall j :: i <= j < HANDSHAKES ==> View()[j] == cells[j]
        invariant forall j :: 0 <= j < i ==> View()[j] == if Vacant(cells[j], now) then NoCell() else cells[j]
        invariant forall j :: 0 <= j < i && View()[j].id.Some? ==> next <= View()[j].expiry
        invariant next == NEVER || exists j :: 0 <= j < i && View()[j].id.Some? && View()[j].expiry == next
      {
        ghost var before := View();
        if localIds[i].Some? {
          var expiry := expiries[i];
          if expiry <= now {
            Put(i, NoCell());
          } else {
            next := Min(next, expiry);
          }
        }
        assert forall j :: 0 <= j < i ==> View()[j] == before[j];
      }
      if next < NEVER {
        hasPending := true;
      }
    }
  }
}
