/** When the context must be serviced again: the session queue, the fragment ring and the handshake
    cache each hold deadlines, `next_service_time` is never later than any of them, and a service
    comes to an end with none of them due. Outside S2 a session's deadline is that of its resend, so
    its timeout may be seen late, by up to the resend time. */
module Scheduler {
  import opened Wrappers
  import opened Common
  import opened IndexedHeap
  import FragCache
  import HandshakeCache

  datatype Settings = Settings(
    resendTime: nat, initialOfferTimeout: nat, rekeyTimeout: nat, fragmentTimeout: nat, rekeyAfterKeyUses: nat)

  /** The timers of a session, and whether it has run out of counters. */
  datatype Session = Session(phase: Phase, resend: int, timeout: int, exhausted: bool, queueIdx: Handle)

  /** `process_timers` and `timeout_trans`: the session afterwards and when to look at it again, or
      none if it must expire. */
  function ProcessTimers(s: Session, settings: Settings, now: int): (Session, Option<int>) {
    var again := now + settings.resendTime;
    if s.timeout <= now then
      match s.phase
      case Null => (s, None)
      case A1 => (s.(phase := A1, resend := again, timeout := now + settings.initialOfferTimeout), Some(again))
      case A3 => (s.(phase := A1, resend := again, timeout := now + settings.initialOfferTimeout), Some(again))
      case S2 =>
        (s.(phase := R1, resend := again, timeout := now + settings.rekeyTimeout),
         if s.exhausted then None else Some(again))
      case _ => (s, None)
    else if s.resend <= now then
      var r := s.(resend := again);
      match s.phase
      case Null => (r, None)
      case A1 => (r, Some(again))
      case A3 => (r, Some(again))
      case S2 => (r, Some(s.timeout))
      case _ => (r, if s.exhausted then None else Some(again))
    else
      (s, Some(s.resend))
  }

  /** When a session is to be looked at next: in S2, where nothing is resent, at its timeout, and
      otherwise at its resend. */
  function Alarm(s: Session): int { if s.phase.S2? then s.timeout else s.resend }

  /** A session that is alive is looked at no later than its alarm, which outside S2 is at most the
      resend time after its timeout; or its timeout was forced, and it is looked at right away. */
  predicate Timed(s: Session, deadline: int, resendTime: nat) {
    && !s.phase.Null?
    && if s.phase.S2? then s.resend == NEVER && deadline == s.timeout
       else deadline == s.timeout == LONG_AGO || deadline <= s.resend <= s.timeout + resendTime
  }

  /** A session that stays is looked at again in the future, at its alarm. This comes after its timeout
      if and only if the session is outside S2 and its timeout is before its resend, and never by more
      than the resend time. */
  lemma LaterOn(s: Session, settings: Settings, now: int, deadline: int)
    requires settings.resendTime > 0 && LONG_AGO <= now < NEVER
    requires Timed(s, deadline, settings.resendTime) && deadline <= now
    ensures ProcessTimers(s, settings, now).0.queueIdx == s.queueIdx
    ensures ProcessTimers(s, settings, now).1.Some? ==>
      var (t, next) := ProcessTimers(s, settings, now);
      && now < next.value == Alarm(t) && Timed(t, next.value, settings.resendTime)
      && (t.timeout < next.value <==> !t.phase.S2? && t.timeout < t.resend)
      && next.value <= t.timeout + settings.resendTime
  {
  }

  /** What a service leaves behind: no timeout in S2 and no resend elsewhere is due, and a timeout
      outside S2 has been due for less than the resend time. */
  predicate NotDue(s: Session, settings: Settings, now: int) {
    if s.phase.S2? then now < s.timeout else now < s.resend && now < s.timeout + settings.resendTime
  }

  /** A timeout that is seen late: after a resend at 100 the session is next looked at 200, and its
      timeout at 150 is not noticed in between. */
  lemma LateTimeout(h: Handle)
    ensures
      var settings := Settings(100, 1000, 1000, 1000, 1000);
      var (t, next) := ProcessTimers(Session(S1, 100, 150, false, h), settings, 100);
      && Timed(Session(S1, 100, 150, false, h), 100, 100) && next == Some(200) && Timed(t, 200, 100)
      && t.timeout <= 160 < next.value && ProcessTimers(t, settings, 160).1.None?
  {
  }

  /** The test that `send_payload` ends with: a counter `c` was taken, counted since `created`. */
  predicate ShouldRekey(s: Session, settings: Settings, c: nat, created: nat) {
    c > (created + settings.rekeyAfterKeyUses) % WORD && s.phase.S2?
  }

  /** What a forced timeout does at the next service: it starts a rekey if and only if the session is
      in S2 and has counters left; a handshake starts over, and every other session expires. */
  lemma ForcedTimeout(s: Session, settings: Settings, now: int)
    requires LONG_AGO <= now
    ensures var (t, next) := ProcessTimers(s.(timeout := LONG_AGO), settings, now);
      && (next.Some? && t.phase.R1? <==> s.phase.S2? && !s.exhausted)
      && (next.Some? && t.phase.A1? <==> s.phase.A1? || s.phase.A3?)
      && (next.None? <==> s.phase in {Null, S1, R1, R2} || (s.phase.S2? && s.exhausted))
  {
  }

  /** The test is not repeated when the timeout is set: a session that starts its rekey in between
      expires at the next service, while without the forced timeout it would go on. */
  lemma ForcedTooLate(s: Session, settings: Settings, now: int, later: int)
    requires s.phase.S2? && s.timeout <= now && !s.exhausted
    requires LONG_AGO <= now <= later < now + settings.rekeyTimeout
    ensures var t := ProcessTimers(s, settings, now).0;
      && t.phase.R1? && ProcessTimers(t, settings, later).1.Some?
      && ProcessTimers(t.(timeout := LONG_AGO), settings, later).1.None?
  {
  }

  type Items = map<Handle, (nat, int)>

  /** The priority is the deadline reversed. */
  function Deadline(items: Items, h: Handle): int
    requires h in items
  {
    -items[h].1
  }

  function Due(items: Items, now: int): set<Handle> { set h | h in items && Deadline(items, h) <= now }

  /** Each session that is alive has one entry and knows it, and the entry's deadline is not too late
      for the session's next timer. */
  ghost predicate Queued(items: Items, sessions: map<nat, Session>, resendTime: nat) {
    && (forall h :: h in items && items[h].0 in sessions ==>
          sessions[items[h].0].queueIdx == h && Timed(sessions[items[h].0], Deadline(items, h), resendTime))
    && (forall id :: id in sessions && !sessions[id].phase.Null? ==>
          sessions[id].queueIdx in items && items[sessions[id].queueIdx].0 == id)
  }

  lemma QueuedIs(items: Items, sessions: map<nat, Session>, resendTime: nat, h: Handle)
    requires Queued(items, sessions, resendTime) && h in items && items[h].0 in sessions
    ensures sessions[items[h].0].queueIdx == h && Timed(sessions[items[h].0], Deadline(items, h), resendTime)
  {
  }

  lemma QueuedHas(items: Items, sessions: map<nat, Session>, resendTime: nat, id: nat)
    requires Queued(items, sessions, resendTime) && id in sessions && !sessions[id].phase.Null?
    ensures sessions[id].queueIdx in items && items[sessions[id].queueIdx].0 == id
  {
  }

  lemma QueuedLess(items: Items, sessions: map<nat, Session>, resendTime: nat, h: Handle)
    requires Queued(items, sessions, resendTime) && h in items && items[h].0 !in sessions
    ensures Queued(items - {h}, sessions, resendTime)
  {
  }

  lemma QueuedStopped(items: Items, sessions: map<nat, Session>, resendTime: nat, id: nat, s: Session)
    requires Queued(items, sessions, resendTime) && id in sessions && !sessions[id].phase.Null? && s.phase.Null?
    ensures Queued(items - {sessions[id].queueIdx}, sessions[id := s], resendTime)
  {
  }

  lemma QueuedServed(items: Items, sessions: map<nat, Session>, resendTime: nat, id: nat, s: Session, d: int)
    requires Queued(items, sessions, resendTime) && id in sessions && !sessions[id].phase.Null?
    requires s.queueIdx == sessions[id].queueIdx && Timed(s, d, resendTime)
    ensures Queued(items[s.queueIdx := (id, -d)], sessions[id := s], resendTime)
  {
  }

  lemma QueuedForced(items: Items, sessions: map<nat, Session>, resendTime: nat, id: nat)
    requires Queued(items, sessions, resendTime) && id in sessions && !sessions[id].phase.Null?
    ensures
      var s := sessions[id].(timeout := LONG_AGO);
      Queued(items[s.queueIdx := (id, -LONG_AGO)], sessions[id := s], resendTime)
  {
  }

  lemma QueuedStill(items: Items, sessions: map<nat, Session>, resendTime: nat, id: nat, s: Session)
    requires Queued(items, sessions, resendTime) && id in sessions && sessions[id].phase.Null? && s.phase.Null?
    ensures Queued(items, sessions[id := s], resendTime)
  {
  }

  lemma QueuedMore(items: Items, sessions: map<nat, Session>, resendTime: nat, h: Handle, id: nat, s: Session, d: int)
    requires Queued(items, sessions, resendTime) && h !in items && s.queueIdx == h && Timed(s, d, resendTime)
    requires id !in sessions && forall k :: k in items ==> items[k].0 != id
    ensures Queued(items[h := (id, -d)], sessions[id := s], resendTime)
  {
  }

  /** Each entry was there before, and its deadline is the same or was due and no longer is. */
  predicate Postponed(was: Items, items: Items, now: int) {
    forall h :: h in items ==>
      h in was && (Deadline(items, h) == Deadline(was, h) || Deadline(was, h) <= now < Deadline(items, h))
  }

  lemma PostponedNone(items: Items, now: int)
    ensures Postponed(items, items, now)
  {
  }

  lemma PostponedTwice(was: Items, mid: Items, items: Items, now: int)
    requires Postponed(was, mid, now) && Postponed(mid, items, now)
    ensures Postponed(was, items, now)
  {
  }

  lemma DueRemoved(items: Items, h: Handle, now: int)
    requires h in items && Deadline(items, h) <= now
    ensures |Due(items - {h}, now)| < |Due(items, now)| && Postponed(items, items - {h}, now)
  {
    assert Due(items, now) == Due(items - {h}, now) + {h};
  }

  lemma DueLater(items: Items, h: Handle, item: nat, t: int, now: int)
    requires h in items && Deadline(items, h) <= now < t
    ensures var later := items[h := (item, -t)];
      |Due(later, now)| < |Due(items, now)| && Postponed(items, later, now) && Deadline(later, h) == t
  {
    assert Due(items, now) == Due(items[h := (item, -t)], now) + {h};
  }

  class Context<F, S> {
    const settings: Settings
    const queue: IndexedBinaryHeap<nat>
    const defrag: FragCache.UnassociatedFragCache<F>
    const handshakes: HandshakeCache.UnassociatedHandshakeCache<S>
    /** The sessions that are still referenced. */
    var sessions: map<nat, Session>
    var nextServiceTime: int

    /** The queue's order is intact, its entries are the sessions', and a session that has stopped has
        left it for good. */
    ghost predicate QueueOk()
      reads this`sessions, queue
    {
      && queue.Valid() && Ordered(queue.data) && Queued(queue.items, sessions, settings.resendTime)
      && forall id :: id in sessions && sessions[id].phase.Null? ==> queue.Dead(sessions[id].queueIdx)
    }

    ghost predicate CachesOk()
      reads defrag, defrag.metas, defrag.frags, defrag.owner,
        handshakes, handshakes.localIds, handshakes.expiries, handshakes.handshakes
    {
      && defrag.Valid() && handshakes.Valid()
      && {defrag.metas as object, defrag.frags, defrag.owner} !!
         {handshakes.localIds as object, handshakes.expiries, handshakes.handshakes}
    }

    ghost predicate Valid()
      reads this`sessions, queue, defrag, defrag.metas, defrag.frags, defrag.owner,
        handshakes, handshakes.localIds, handshakes.expiries, handshakes.handshakes
    {
      QueueOk() && CachesOk()
    }

    ghost predicate QueueInTime(t: int)
      reads this`sessions, queue
    {
      forall h :: h in queue.items ==> t <= Deadline(queue.items, h)
    }

    ghost predicate CachesInTime(t: int)
      reads defrag, defrag.metas, defrag.frags, defrag.owner,
        handshakes, handshakes.localIds, handshakes.expiries, handshakes.handshakes
      requires CachesOk()
    {
      && (forall e :: 0 <= e < FragCache.PACKETS && FragCache.Live(defrag.metas[e]) ==>
            t <= defrag.metas[e].created + settings.fragmentTimeout)
      && (forall i :: 0 <= i < HandshakeCache.HANDSHAKES && handshakes.View()[i].id.Some? ==>
            t <= handshakes.View()[i].expiry)
    }

    /** `next_service_time` is not later than any pending deadline. */
    ghost predicate InTime()
      reads this, queue, defrag, defrag.metas, defrag.frags, defrag.owner,
        handshakes, handshakes.localIds, handshakes.expiries, handshakes.handshakes
      requires Valid()
    {
      QueueInTime(nextServiceTime) && CachesInTime(nextServiceTime)
    }

    /** No packet is from the future, and older packets come first. */
    ghost predicate Aged(now: int)
      reads defrag, defrag.metas, defrag.frags, defrag.owner,
        handshakes, handshakes.localIds, handshakes.expiries, handshakes.handshakes
      requires CachesOk()
    {
      FragCache.Aged(defrag.View(), now)
    }

    constructor (settings: Settings)
      ensures Valid() && InTime() && queue.items == map[] && sessions == map[] && nextServiceTime == NEVER
      ensures this.settings == settings && forall t: int :: Aged(t)
      ensures fresh(queue) && fresh(defrag) && fresh(defrag.metas) && fresh(defrag.frags) && fresh(defrag.owner)
      ensures fresh(handshakes) && fresh(handshakes.localIds) && fresh(handshakes.expiries)
        && fresh(handshakes.handshakes)
    {
      hide FragCache.Inv, Linked, Shows, FreeList, Numbered, Ordered, AllIssued, HandshakeCache.Pending;
      this.settings := settings;
      queue := new IndexedBinaryHeap<nat>();
      defrag := new FragCache.UnassociatedFragCache<F>();
      handshakes := new HandshakeCache.UnassociatedHandshakeCache<S>();
      sessions, nextServiceTime := map[], NEVER;
      new;
      assert forall e :: 0 <= e < FragCache.PACKETS ==> defrag.View().metas[e] == FragCache.NoMeta;
    }

    lemma CachesEarlier(t: int, u: int)
      requires CachesOk() && CachesInTime(t) && u <= t
      ensures CachesInTime(u)
    {
    }

    /** `reduce_next_service_time`. */
    method Reduce(t: int) returns (r: Option<int>)
      modifies this`nextServiceTime
      ensures nextServiceTime == Min(old(nextServiceTime), t)
      ensures r == if old(nextServiceTime) > t then Some(t) else None
    {
      r := if nextServiceTime > t then Some(t) else None;
      nextServiceTime := Min(nextServiceTime, t);
    }

    /** A due session's timers are processed: it is looked at again later, or it expires. */
    method Serve(id: nat, h: Handle, now: int) returns (next: Option<int>)
      requires QueueOk() && settings.resendTime > 0 && LONG_AGO <= now < NEVER && id in sessions
      requires h in queue.items && queue.items[h].0 == id && Deadline(queue.items, h) <= now
      requires queue.Deref(h) == Some(0) && RemovalFits(queue.data, 0)
      modifies this`sessions, queue
      ensures QueueOk()
      ensures next.Some? ==> next.value > now && queue.items == old(queue.items)[h := (id, -next.value)]
      ensures next.None? ==> queue.items == old(queue.items) - {h}
    {
      hide Linked, Shows, FreeList, Numbered, AllIssued, Ordered, RemovalFits, Queued;
      QueuedIs(queue.items, sessions, settings.resendTime, h);
      ghost var was := sessions;
      var (s, result) := ProcessTimers(sessions[id], settings, now);
      LaterOn(sessions[id], settings, now, Deadline(queue.items, h));
      sessions := sessions[id := s];
      if result.None? {
        if !s.phase.Null? {
          sessions := sessions[id := s.(phase := Null, resend := NEVER, timeout := NEVER)];
          QueuedStopped(queue.items, was, settings.resendTime, id, sessions[id]);
          assert sessions == was[id := sessions[id]];
          queue.Given(s.queueIdx);
          var _ := queue.Remove(s.queueIdx);
        }
        return None;
      }
      QueuedServed(queue.items, was, settings.resendTime, id, s, result.value);
      var _ := queue.ChangePriority(h, -result.value);
      return result;
    }

    /** One pass of the loop over the due sessions: it serves the first entry, if it is due, and takes
        it out of the due ones for good, also when the session expires. */
    method ServiceFirst(now: int) returns (done: bool, expired: bool, time: int)
      requires QueueOk() && settings.resendTime > 0 && LONG_AGO <= now < NEVER
      modifies this`sessions, queue
      ensures QueueOk() && Postponed(old(queue.items), queue.items, now)
      ensures done && !expired ==> queue.items == old(queue.items)
      ensures done && !expired ==>
        forall h :: h in queue.items ==> now < Deadline(queue.items, h) && time <= Deadline(queue.items, h)
      ensures !done || expired ==> |Due(queue.items, now)| < |Due(old(queue.items), now)|
      ensures !expired ==> time == NEVER || exists h :: h in queue.items && Deadline(queue.items, h) == time > now
      ensures !expired ==> forall h :: h in old(queue.items) && Deadline(old(queue.items), h) > now ==>
        h in queue.items && Deadline(queue.items, h) == Deadline(old(queue.items), h)
    {
      hide Linked, Shows, FreeList, Numbered, AllIssued, Ordered, Queued, Due, RemovalFits;
      var peeked := queue.Peek();
      if peeked.None? {
        return true, false, NEVER;
      }
      var (id, prio, h) := peeked.value;
      if -prio > now {
        return true, false, -prio;
      }
      DueRemoved(queue.items, h, now);
      if id !in sessions {
        QueuedLess(queue.items, sessions, settings.resendTime, h);
        var _ := queue.Remove(h);
        return false, false, NEVER;
      }
      ghost var was := queue.items;
      var result := Serve(id, h, now);
      if result.None? {
        return true, true, NEVER;
      }
      DueLater(was, h, id, result.value, now);
      return false, false, result.value;
    }

    /** The loop over the due sessions. It returns none when a session expires, which ends the
        service early, with fewer sessions due. */
    method ServiceSessions(now: int) returns (next: Option<int>)
      requires QueueOk() && settings.resendTime > 0 && LONG_AGO <= now < NEVER
      modifies this`sessions, queue
      ensures QueueOk() && Postponed(old(queue.items), queue.items, now)
      ensures next.Some? ==>
        && (forall h :: h in queue.items ==> now < Deadline(queue.items, h) && next.value <= Deadline(queue.items, h))
        && (next.value == NEVER || exists h :: h in queue.items && Deadline(queue.items, h) == next.value)
      ensures next.None? ==> |Due(queue.items, now)| < |Due(old(queue.items), now)|
    {
      hide Linked, Shows, FreeList, Numbered, AllIssued, Ordered, Due, Queued, Postponed;
      var time := NEVER;
      PostponedNone(queue.items, now);
      while true
        invariant QueueOk() && Postponed(old(queue.items), queue.items, now)
        invariant |Due(queue.items, now)| <= |Due(old(queue.items), now)|
        invariant time == NEVER || exists h :: h in queue.items && Deadline(queue.items, h) == time > now
        decreases |Due(queue.items, now)|
      {
        ghost var mid := queue.items;
        var done, expired, t := ServiceFirst(now);
        PostponedTwice(old(queue.items), mid, queue.items, now);
        if expired {
          return None;
        }
        time := Min(time, t);
        if done {
          return Some(time);
        }
      }
    }

    /** What is in order by age stays so as time passes. */
    lemma AgedOn(now: int, later: int)
      requires CachesOk() && Aged(now) && now <= later
      ensures Aged(later)
    {
      hide FragCache.Inv;
    }

    /** The second half of `service_inner`: drops what expired in both caches. */
    method ServiceCaches(now: int) returns (next: int)
      requires CachesOk() && Aged(now)
      modifies defrag`unused, defrag`dropped, defrag.metas, defrag.frags, defrag.owner,
        handshakes, handshakes.localIds, handshakes.expiries, handshakes.handshakes
      ensures CachesOk() && Aged(now) && CachesInTime(next)
    {
      hide FragCache.Inv, FragCache.Expired, FragCache.Aged, HandshakeCache.Pending;
      var fragments := defrag.CheckForExpiry(settings.fragmentTimeout, now);
      assert defrag.Valid();
      ghost var c := defrag.View();
      var halfOpen := handshakes.Service(now);
      assert defrag.View() == c;
      next := Min(fragments, halfOpen);
    }

    /** `service_inner`: serves the due sessions, drops what expired in both caches and computes the
        next service time, the only place where it may grow. If a session expires it returns early,
        with everything still in time and fewer sessions due. */
    method Service(now: int) returns (r: Option<int>)
      requires Valid() && settings.resendTime > 0 && LONG_AGO <= now < NEVER && Aged(now)
      modifies this`sessions, this`nextServiceTime, queue, defrag`unused, defrag`dropped, defrag.metas, defrag.frags,
        defrag.owner, handshakes, handshakes.localIds, handshakes.expiries, handshakes.handshakes
      ensures Valid() && Aged(now)
      ensures r.Some? ==> r.value == nextServiceTime && InTime()
      ensures r.Some? ==> forall h :: h in queue.items ==> now < Deadline(queue.items, h)
      ensures r.None? ==> nextServiceTime == old(nextServiceTime) && (old(InTime()) ==> InTime())
      ensures r.None? ==> |Due(queue.items, now)| < |Due(old(queue.items), now)|
    {
      hide FragCache.Inv, FragCache.Aged, Linked, Shows, FreeList, Numbered, AllIssued, Ordered, Queued,
           HandshakeCache.Pending, Due;
      var t := ServiceSessions(now);
      if t.None? {
        return None;
      }
      nextServiceTime := t.value;
      var t2 := ServiceCaches(now);
      nextServiceTime := Min(nextServiceTime, t2);
      r := Some(nextServiceTime);
    }

    /** `service`: starts over as long as sessions expire, and says how long the caller may wait. */
    method ServiceAll(now: int) returns (wait: int)
      requires Valid() && settings.resendTime > 0 && LONG_AGO <= now < NEVER && Aged(now)
      modifies this`sessions, this`nextServiceTime, queue, defrag`unused, defrag`dropped, defrag.metas, defrag.frags,
        defrag.owner, handshakes, handshakes.localIds, handshakes.expiries, handshakes.handshakes
      ensures Valid() && Aged(now) && InTime()
      ensures forall id :: id in sessions && !sessions[id].phase.Null? ==> NotDue(sessions[id], settings, now)
      ensures forall h :: h in queue.items ==> now + wait <= Deadline(queue.items, h)
      ensures wait <= settings.fragmentTimeout && wait <= settings.rekeyTimeout && wait <= settings.initialOfferTimeout
    {
      hide FragCache.Inv, FragCache.Aged, Linked, Shows, FreeList, Numbered, AllIssued, Ordered, Queued,
           HandshakeCache.Pending, Due, CachesInTime;
      var r := Service(now);
      while r.None?
        invariant Valid() && Aged(now)
        invariant r.Some? ==> r.value == nextServiceTime && InTime()
        invariant r.Some? ==> forall h :: h in queue.items ==> now < Deadline(queue.items, h)
        decreases r.None?, |Due(queue.items, now)|
      {
        r := Service(now);
      }
      forall id | id in sessions && !sessions[id].phase.Null? ensures NotDue(sessions[id], settings, now) {
        QueuedHas(queue.items, sessions, settings.resendTime, id);
        QueuedIs(queue.items, sessions, settings.resendTime, sessions[id].queueIdx);
      }
      var longest := Min(Min(settings.fragmentTimeout, settings.rekeyTimeout), settings.initialOfferTimeout);
      wait := Min(r.value - now, longest);
    }

    /** A session enters the queue with its first resend, as an initiator or as a responder. */
    method Open(id: nat, s: Session) returns (h: Handle, reduced: Option<int>)
      requires Valid() && InTime() && |queue.table| < NIL && (s.phase.A1? || s.phase.S1?)
      requires Timed(s, s.resend, settings.resendTime)
      requires id !in sessions && forall k :: k in queue.items ==> queue.items[k].0 != id
      modifies this`sessions, this`nextServiceTime, queue
      ensures Valid() && InTime()
      ensures h !in old(queue.items) && queue.items == old(queue.items)[h := (id, -s.resend)]
      ensures sessions == old(sessions)[id := s.(queueIdx := h)]
      ensures nextServiceTime == Min(old(nextServiceTime), s.resend)
    {
      hide FragCache.Inv, Linked, Shows, FreeList, Numbered, AllIssued, Ordered, Queued, HandshakeCache.Pending,
           CachesInTime;
      CachesEarlier(nextServiceTime, Min(nextServiceTime, s.resend));
      ghost var was := queue.items;
      h := queue.Push(id, -s.resend);
      QueuedMore(was, sessions, settings.resendTime, h, id, s.(queueIdx := h), s.resend);
      sessions := sessions[id := s.(queueIdx := h)];
      reduced := Reduce(s.resend);
    }

    /** A transition gives a session another state and other timers. */
    method Reschedule(id: nat, s: Session) returns (reduced: Option<int>)
      requires Valid() && InTime() && id in sessions && !sessions[id].phase.Null?
      requires Timed(s, Alarm(s), settings.resendTime) && s.queueIdx == sessions[id].queueIdx
      modifies this`sessions, this`nextServiceTime, queue
      ensures Valid() && InTime() && sessions == old(sessions)[id := s]
      ensures queue.items == old(queue.items)[s.queueIdx := (id, -Alarm(s))]
      ensures nextServiceTime == Min(old(nextServiceTime), Alarm(s))
    {
      hide FragCache.Inv, Linked, Shows, FreeList, Numbered, AllIssued, Ordered, Queued, HandshakeCache.Pending,
           CachesInTime;
      CachesEarlier(nextServiceTime, Min(nextServiceTime, Alarm(s)));
      QueuedHas(queue.items, sessions, settings.resendTime, id);
      QueuedServed(queue.items, sessions, settings.resendTime, id, s, Alarm(s));
      sessions := sessions[id := s];
      var _ := queue.ChangePriority(s.queueIdx, -Alarm(s));
      reduced := Reduce(Alarm(s));
    }

    /** The second half of the end of `send_payload`: the session is to be looked at right away. By now
        it may have left S2, or have stopped, when the queue does not know it any more. */
    method ForceTimeout(id: nat)
      requires Valid() && InTime() && id in sessions
      modifies this`sessions, this`nextServiceTime, queue
      ensures Valid() && InTime() && nextServiceTime == Min(old(nextServiceTime), LONG_AGO)
      ensures sessions == old(sessions)[id := old(sessions[id]).(timeout := LONG_AGO)]
      ensures queue.items ==
        if old(sessions[id]).phase.Null? then old(queue.items)
        else old(queue.items)[old(sessions[id]).queueIdx := (id, -LONG_AGO)]
    {
      hide Linked, Shows, FreeList, Numbered, AllIssued, Ordered, Queued, CachesOk, CachesInTime;
      CachesEarlier(nextServiceTime, Min(nextServiceTime, LONG_AGO));
      var s := sessions[id].(timeout := LONG_AGO);
      if s.phase.Null? {
        QueuedStill(queue.items, sessions, settings.resendTime, id, s);
      } else {
        QueuedHas(queue.items, sessions, settings.resendTime, id);
        QueuedForced(queue.items, sessions, settings.resendTime, id);
      }
      sessions := sessions[id := s];
      var _ := queue.ChangePriority(s.queueIdx, -LONG_AGO);
      var _ := Reduce(LONG_AGO);
    }

    /** The end of `send_payload` when nothing happens between its two halves: in S2 the session is to
        rekey at once when its keys have been used often enough. */
    method SentPayload(id: nat, c: nat, created: nat) returns (serviceNow: bool)
      requires Valid() && InTime() && id in sessions && !sessions[id].phase.Null?
      modifies this`sessions, this`nextServiceTime, queue
      ensures Valid() && InTime()
      ensures serviceNow <==>
        old(sessions[id]).phase.S2? && c > (created + settings.rekeyAfterKeyUses) % WORD
      ensures serviceNow ==>
        nextServiceTime <= LONG_AGO && sessions == old(sessions)[id := old(sessions[id]).(timeout := LONG_AGO)]
      ensures !serviceNow ==> sessions == old(sessions) && nextServiceTime == old(nextServiceTime)
    {
      hide QueueOk, CachesOk, QueueInTime, CachesInTime;
      serviceNow := ShouldRekey(sessions[id], settings, c, created);
      if serviceNow {
        ForceTimeout(id);
      }
    }

    /** `expire_inner`: a session stops and leaves the queue. Its removal keeps the queue's order exactly
        when the entry that takes its place fits there. */
    method Close(id: nat)
      requires Valid() && InTime() && id in sessions && !sessions[id].phase.Null?
      modifies this`sessions, queue
      ensures queue.items == old(queue.items) - {old(sessions[id].queueIdx)}
      ensures sessions == old(sessions)[id := old(sessions[id]).(phase := Null, resend := NEVER, timeout := NEVER)]
      ensures Valid() <==> old(RemovalFits(queue.data, queue.table[sessions[id].queueIdx.slot].idx))
      ensures Valid() ==> InTime()
    {
      hide FragCache.Inv, FreeList, Numbered, AllIssued, Ordered, Queued, RemovalFits, HandshakeCache.Pending,
        CachesInTime;
      var s := sessions[id];
      QueuedHas(queue.items, sessions, settings.resendTime, id);
      queue.Given(sessions[id].queueIdx);
      var stopped := s.(phase := Null, resend := NEVER, timeout := NEVER);
      QueuedStopped(queue.items, sessions, settings.resendTime, id, stopped);
      sessions := sessions[id := stopped];
      var _ := queue.Remove(s.queueIdx);
    }

    /** A fragment that belongs to no session comes in. */
    method ReceiveFragment(hash: nat, size: nat, fragment: F, no: nat, count: nat, now: int)
      returns (reduced: Option<int>, packet: seq<F>)
      requires Valid() && InTime()
      modifies this`nextServiceTime, defrag, defrag.metas, defrag.frags, defrag.owner
      ensures Valid() && InTime()
      ensures
        var c, key := old(defrag.View()), FragCache.KeyOf(hash);
        defrag.View() == FragCache.Assembled(c, key, no, count, size, fragment, settings.resendTime, now)
      ensures old(Aged(now)) ==> Aged(now)
    {
      hide FragCache.Inv, FragCache.Aged, FragCache.Opens, FragCache.Accepts, FragCache.Completes, FragCache.Assembled,
        Linked, Shows, FreeList, Numbered, AllIssued, Ordered, HandshakeCache.Pending;
      ghost var c := defrag.View();
      var deadline;
      deadline, packet :=
        defrag.Assemble(hash, size, fragment, no, count, settings.resendTime, settings.fragmentTimeout, now);
      FragCache.AssembledKeeps(c, FragCache.KeyOf(hash), no, count, size, fragment, settings.resendTime, now);
      FragCache.AssembledSince(c, FragCache.KeyOf(hash), no, count, size, fragment, settings.resendTime, now);
      reduced := None;
      if deadline.Some? {
        reduced := Reduce(deadline.value);
      }
    }

    /** A half-open handshake is remembered. */
    method RememberHandshake(id: nat, state: S, now: int) returns (reduced: Option<int>)
      requires Valid() && InTime() && now + settings.fragmentTimeout < NEVER
      modifies this`nextServiceTime, handshakes, handshakes.localIds, handshakes.expiries, handshakes.handshakes
      ensures Valid() && InTime()
    {
      hide FragCache.Inv, Linked, Shows, FreeList, Numbered, AllIssued, Ordered, HandshakeCache.Pending,
        HandshakeCache.Find, HandshakeCache.Room;
      ghost var c := defrag.View();
      var deadline := handshakes.Insert(id, state, now, settings.fragmentTimeout);
      assert defrag.View() == c;
      reduced := None;
      if deadline.Some? {
        reduced := Reduce(deadline.value);
      }
    }
  }
}
