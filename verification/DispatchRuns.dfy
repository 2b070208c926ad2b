/** What the outgoing queue promises over whole runs: every token gets exactly one
    fate, items of a class leave in order, and neither class starves the other. */
module DispatchRuns {
  import opened DispatchQueue

  datatype Fate = Replaced | Delivered | TimedOut | Discarded

  /** How an accepted item left the queue, with the place it held in its line. */
  datatype End = End(item: Item, order: nat, fate: Fate)

  datatype Call =
    | Submits(r: Request)
    | Expires
    | Claims
    | Finishes(slot: nat, token: nat, result: Result, retryAfter: nat)

  datatype Event = Event(elapsed: nat, call: Call)

  /** `overtaken` counts the critical claims in a row during each of which a
      noncritical item could have gone instead. */
  datatype History = History(q: Queue, now: nat, log: seq<End>, overtaken: nat)

  const START: History := History(INITIAL, 0, [], 0)

  function EndOf(s: Slot, fate: Fate): End
    requires s.Held?
  {
    End(s.item, s.order, fate)
  }

  function DueEnds(s: seq<Slot>, now: nat, n: nat): (ends: seq<End>)
    requires n <= |s|
    ensures forall e :: e in ends ==>
      e.fate == TimedOut && exists i :: 0 <= i < n && s[i].Due(now) && e == EndOf(s[i], TimedOut)
  {
    if n == 0 then []
    else DueEnds(s, now, n - 1) + if s[n - 1].Due(now) then [EndOf(s[n - 1], TimedOut)] else []
  }

  function SubmitEnds(q: Queue, r: Request): seq<End>
    requires Sized(q)
  {
    var older := LastSuperseded(q.slots, r, CAPACITY);
    if BadRequest(q, r) || Oversize(r) || older == CAPACITY then [] else [EndOf(q.slots[older], Replaced)]
  }

  function FateOf(result: Result): Fate {
    match result case Sent => Delivered case Retry => TimedOut case Drop => Discarded
  }

  function FinishEnds(q: Queue, slot: nat, result: Result, now: nat): seq<End>
    requires Sized(q) && slot < CAPACITY && q.slots[slot].Held?
  {
    if result.Retry? && !q.slots[slot].item.request.Expired(now) then []
    else [EndOf(q.slots[slot], FateOf(result))]
  }

  function Overtaken(q: Queue, now: nat, overtaken: nat): nat
    requires Sized(q)
  {
    if AfterClaim(q, now).slot == CAPACITY then overtaken
    else if CriticalFirst(q, now) && Eligible(q.slots, false, now) != CAPACITY then overtaken + 1
    else 0
  }

  function Submitted(h: History, now: nat, r: Request): (h': History)
    requires Sized(h.q)
    ensures Sized(h'.q)
  {
    h.(now := now, q := AfterSubmit(h.q, r).q, log := h.log + SubmitEnds(h.q, r))
  }

  function Expired(h: History, now: nat): (h': History)
    requires Sized(h.q)
    ensures Sized(h'.q)
  {
    h.(now := now, q := AfterExpire(h.q, now), log := h.log + DueEnds(h.q.slots, now, CAPACITY))
  }

  function Claimed(h: History, now: nat): (h': History)
    requires Sized(h.q)
    ensures Sized(h'.q)
  {
    h.(now := now, q := AfterClaim(h.q, now).q, overtaken := Overtaken(h.q, now, h.overtaken))
  }

  function Finished(h: History, now: nat, slot: nat, token: nat, result: Result, retryAfter: nat): (h': History)
    requires Sized(h.q)
    ensures Sized(h'.q)
  {
    if !Concludes(h.q, slot, token) then h.(now := now)
    else h.(now := now, q := AfterFinish(h.q, slot, token, result, now, retryAfter),
            log := h.log + FinishEnds(h.q, slot, result, now))
  }

  function Step(h: History, e: Event): (h': History)
    requires Sized(h.q)
    ensures Sized(h'.q)
  {
    match e.call
    case Submits(r) => Submitted(h, h.now + e.elapsed, r)
    case Expires => Expired(h, h.now + e.elapsed)
    case Claims => Claimed(h, h.now + e.elapsed)
    case Finishes(slot, token, result, retryAfter) =>
      Finished(h, h.now + e.elapsed, slot, token, result, retryAfter)
  }

  function Execute(run: seq<Event>): (h: History)
    ensures Sized(h.q)
  {
    if run == [] then START else Step(Execute(run[..|run| - 1]), run[|run| - 1])
  }

  // How often a token is held by the slots, and how often it has ended.

  function HeldTimes(s: seq<Slot>, t: nat, n: nat): nat
    requires n <= |s|
  {
    if n == 0 then 0 else HeldTimes(s, t, n - 1) + if s[n - 1].Held? && s[n - 1].item.token == t then 1 else 0
  }

  function EndedTimes(log: seq<End>, t: nat): nat {
    if log == [] then 0
    else EndedTimes(log[..|log| - 1], t) + if log[|log| - 1].item.token == t then 1 else 0
  }

  function CountHeld(s: seq<Slot>, n: nat): nat
    requires n <= |s|
  {
    if n == 0 then 0 else CountHeld(s, n - 1) + if s[n - 1].Held? then 1 else 0
  }

  function CountFate(log: seq<End>, fate: Fate): nat {
    if log == [] then 0
    else CountFate(log[..|log| - 1], fate) + if log[|log| - 1].fate == fate then 1 else 0
  }

  lemma {:induction false} CountsAgree(s: seq<Slot>, u: seq<Slot>, t: nat, n: nat)
    requires n <= |s| && n <= |u| && forall i :: 0 <= i < n ==> s[i] == u[i]
    ensures HeldTimes(s, t, n) == HeldTimes(u, t, n)
    ensures CountHeld(s, n) == CountHeld(u, n)
    ensures CountNoncritical(s, n) == CountNoncritical(u, n)
  {
    if n > 0 { CountsAgree(s, u, t, n - 1); }
  }

  lemma {:induction false} CountsUpdate(s: seq<Slot>, at: nat, x: Slot, t: nat, n: nat)
    requires at < n <= |s|
    ensures HeldTimes(s[at := x], t, n) + (if s[at].Held? && s[at].item.token == t then 1 else 0)
         == HeldTimes(s, t, n) + if x.Held? && x.item.token == t then 1 else 0
    ensures CountHeld(s[at := x], n) + (if s[at].Held? then 1 else 0) == CountHeld(s, n) + if x.Held? then 1 else 0
    ensures CountNoncritical(s[at := x], n) + (if s[at].Noncritical() then 1 else 0)
         == CountNoncritical(s, n) + if x.Noncritical() then 1 else 0
  {
    if at == n - 1 { CountsAgree(s, s[at := x], t, n - 1); } else { CountsUpdate(s, at, x, t, n - 1); }
  }

  lemma {:induction false} CountsSwept(s: seq<Slot>, now: nat, n: nat)
    requires n <= |s|
    ensures CountHeld(Swept(s, now, n), n) + |DueTokens(s, now, n)| == CountHeld(s, n)
    ensures CountNoncritical(Swept(s, now, n), n) <= CountNoncritical(s, n)
    ensures |DueEnds(s, now, n)| == |DueTokens(s, now, n)|
  {
    if n > 0 {
      CountsSwept(s, now, n - 1);
      CountsAgree(Swept(s, now, n), Swept(s, now, n - 1), 0, n - 1);
    }
  }

  lemma DueEndsOne(s: seq<Slot>, now: nat, t: nat, n: nat)
    requires 0 < n <= |s|
    ensures EndedTimes(DueEnds(s, now, n), t)
         == EndedTimes(DueEnds(s, now, n - 1), t) + if s[n - 1].Due(now) && s[n - 1].item.token == t then 1 else 0
  {
    if s[n - 1].Due(now) {
      EndedAppend(DueEnds(s, now, n - 1), EndOf(s[n - 1], TimedOut), t);
    } else {
      assert DueEnds(s, now, n) == DueEnds(s, now, n - 1);
    }
  }

  lemma {:induction false} TimesSwept(s: seq<Slot>, now: nat, t: nat, n: nat)
    requires n <= |s|
    ensures HeldTimes(Swept(s, now, n), t, n) + EndedTimes(DueEnds(s, now, n), t) == HeldTimes(s, t, n)
  {
    if n > 0 {
      TimesSwept(s, now, t, n - 1);
      CountsAgree(Swept(s, now, n), Swept(s, now, n - 1), t, n - 1);
      DueEndsOne(s, now, t, n);
    }
  }

  lemma EndedAppend(log: seq<End>, e: End, t: nat)
    ensures EndedTimes(log + [e], t) == EndedTimes(log, t) + if e.item.token == t then 1 else 0
    ensures forall f :: CountFate(log + [e], f) == CountFate(log, f) + if e.fate == f then 1 else 0
  {
    assert (log + [e])[..|log|] == log;
  }

  lemma {:induction false} EndedConcat(log: seq<End>, ends: seq<End>, t: nat, fate: Fate)
    ensures EndedTimes(log + ends, t) == EndedTimes(log, t) + EndedTimes(ends, t)
    ensures CountFate(log + ends, fate) == CountFate(log, fate) + CountFate(ends, fate)
  {
    if ends == [] {
      assert log + ends == log;
    } else {
      var k := |ends| - 1;
      EndedConcat(log, ends[..k], t, fate);
      assert log + ends == (log + ends[..k]) + [ends[k]] && ends == ends[..k] + [ends[k]];
      EndedAppend(log + ends[..k], ends[k], t);
      EndedAppend(ends[..k], ends[k], t);
    }
  }

  lemma {:induction false} FateUniform(ends: seq<End>, fate: Fate, other: Fate)
    requires forall e :: e in ends ==> e.fate == fate
    ensures CountFate(ends, other) == if other == fate then |ends| else 0
  {
    if ends != [] { FateUniform(ends[..|ends| - 1], fate, other); }
  }

  lemma {:induction false} EveryFateCounted(log: seq<End>)
    ensures |log| == CountFate(log, Replaced) + CountFate(log, Delivered)
                     + CountFate(log, TimedOut) + CountFate(log, Discarded)
  {
    if log != [] { EveryFateCounted(log[..|log| - 1]); }
  }

  // The invariant, one side at a time.

  ghost predicate Accounted(q: Queue, log: seq<End>)
    requires Sized(q)
  {
    forall t: nat :: HeldTimes(q.slots, t, CAPACITY) + EndedTimes(log, t) == if 1 <= t <= q.lastToken then 1 else 0
  }

  predicate Counted(q: Queue, log: seq<End>)
    requires Sized(q)
  {
    && q.counters.accepted == q.lastToken
    && q.counters.coalesced == CountFate(log, Replaced)
    && q.counters.expired == CountFate(log, TimedOut)
    && q.counters.dropped == CountFate(log, Discarded)
    && q.counters.depth == CountHeld(q.slots, CAPACITY)
    && |log| + CountHeld(q.slots, CAPACITY) == q.lastToken
  }

  /** An opaque item holds the place of its own submission; a snapshot may hold an older one. */
  predicate Seated(item: Item, order: nat, last: nat) {
    && 1 <= order <= item.token <= last
    && (item.request.Opaque() ==> order == item.token)
  }

  predicate Placed(q: Queue, log: seq<End>) {
    && (forall i :: 0 <= i < |q.slots| && q.slots[i].Held? ==> Seated(q.slots[i].item, q.slots[i].order, q.lastToken))
    && (forall i, j :: 0 <= i < j < |q.slots| && q.slots[i].Held? && q.slots[j].Held? ==>
          q.slots[i].order != q.slots[j].order)
    && (forall k :: 0 <= k < |log| ==> Seated(log[k].item, log[k].order, q.lastToken))
  }

  predicate OneInflight(s: seq<Slot>) {
    forall i, j :: 0 <= i < |s| && 0 <= j < |s| && s[i].Held? && s[j].Held? && s[i].inflight && s[j].inflight ==> i == j
  }

  predicate Mates(a: Slot, b: Slot) { a.Held? && b.Held? && a.item.request.SameGroup(b.item.request) }

  /** No snapshot group holds three slots. */
  predicate Paired(s: seq<Slot>) {
    forall i, j, k :: 0 <= i < j < k < |s| && Mates(s[i], s[j]) ==> !Mates(s[j], s[k])
  }

  predicate Reserved(q: Queue)
    requires Sized(q)
  {
    CountNoncritical(q.slots, CAPACITY) <= CAPACITY - CRITICAL_RESERVE
  }

  /** The second item, if opaque and of the same class, stands behind the first. */
  predicate Behind(first: Item, place: nat, second: Item, place': nat) {
    first.request.critical == second.request.critical && second.request.Opaque() ==> place < place'
  }

  predicate Alive(s: Slot, now: nat) { s.Held? && (s.inflight || !s.item.request.Expired(now)) }

  predicate SentInOrder(log: seq<End>) {
    forall i, j :: 0 <= i < j < |log| && log[i].fate == Delivered && log[j].fate == Delivered ==>
      Behind(log[i].item, log[i].order, log[j].item, log[j].order)
  }

  predicate SentFirst(log: seq<End>, s: seq<Slot>, now: nat) {
    forall i, k :: 0 <= i < |log| && 0 <= k < |s| && log[i].fate == Delivered && Alive(s[k], now) ==>
      Behind(log[i].item, log[i].order, s[k].item, s[k].order)
  }

  predicate FlyingFirst(s: seq<Slot>, now: nat) {
    forall f, k :: 0 <= f < |s| && 0 <= k < |s| && f != k && s[f].Held? && s[f].inflight && Alive(s[k], now) ==>
      Behind(s[f].item, s[f].order, s[k].item, s[k].order)
  }

  predicate InOrder(h: History) {
    SentInOrder(h.log) && SentFirst(h.log, h.q.slots, h.now) && FlyingFirst(h.q.slots, h.now)
  }

  predicate Fair(h: History) { h.overtaken <= h.q.streak <= CRITICAL_BURST }

  predicate Grouped(q: Queue)
    requires Sized(q)
  {
    OneInflight(q.slots) && Paired(q.slots) && Reserved(q)
  }

  ghost predicate Ledger(h: History)
    requires Sized(h.q)
  {
    Accounted(h.q, h.log) && Counted(h.q, h.log)
  }

  ghost predicate Invariant(h: History) {
    && Sized(h.q)
    && Ledger(h)
    && Places(h)
    && Grouped(h.q)
    && InOrder(h)
    && Fair(h)
  }

  // Tokens and counters.

  /** Replacing one slot and ending what it held, or not, keeps every token accounted for. */
  lemma LedgerUpdate(q: Queue, q': Queue, log: seq<End>, ends: seq<End>, at: nat, x: Slot)
    requires Sized(q) && at < CAPACITY && q'.slots == q.slots[at := x]
    requires Accounted(q, log) && Counted(q, log)
    requires forall t: nat ::
      (if x.Held? && x.item.token == t then 1 else 0) + EndedTimes(ends, t)
        == (if q.slots[at].Held? && q.slots[at].item.token == t then 1 else 0)
         + if q.lastToken < t <= q'.lastToken then 1 else 0
    requires q.lastToken <= q'.lastToken == q'.counters.accepted
    requires |ends| + (if x.Held? then 1 else 0)
          == (if q.slots[at].Held? then 1 else 0) + q'.lastToken - q.lastToken
    requires q'.counters.coalesced == q.counters.coalesced + CountFate(ends, Replaced)
    requires q'.counters.expired == q.counters.expired + CountFate(ends, TimedOut)
    requires q'.counters.dropped == q.counters.dropped + CountFate(ends, Discarded)
    requires q'.counters.depth == q.counters.depth + (if x.Held? then 1 else 0) - if q.slots[at].Held? then 1 else 0
    ensures Accounted(q', log + ends) && Counted(q', log + ends)
  {
    forall t: nat
      ensures HeldTimes(q'.slots, t, CAPACITY) + EndedTimes(log + ends, t) == if 1 <= t <= q'.lastToken then 1 else 0
    {
      CountsUpdate(q.slots, at, x, t, CAPACITY);
      EndedConcat(log, ends, t, Replaced);
    }
    CountsUpdate(q.slots, at, x, 0, CAPACITY);
    EndedConcat(log, ends, 0, Replaced);
    EndedConcat(log, ends, 0, TimedOut);
    EndedConcat(log, ends, 0, Discarded);
  }

  lemma SubmitLedger(h: History, now: nat, r: Request)
    requires Sized(h.q) && Ledger(h)
    ensures Ledger(Submitted(h, now, r))
  {
    var q, log := h.q, h.log;
    var q' := AfterSubmit(q, r).q;
    var ends := SubmitEnds(q, r);
    assert log + [] == log;
    if !BadRequest(q, r) && !Oversize(r) {
      var older := LastSuperseded(q.slots, r, CAPACITY);
      if older != CAPACITY {
        assert ends[..0] == [];
        LedgerUpdate(q, q', log, ends, older, q'.slots[older]);
      } else if !NoRoom(q, r) {
        var at := FirstFree(q.slots, CAPACITY);
        LedgerUpdate(q, q', log, ends, at, q'.slots[at]);
      }
    }
  }

  lemma ExpireLedger(h: History, now: nat)
    requires Sized(h.q) && Ledger(h)
    ensures Ledger(Expired(h, now))
  {
    var q, log := h.q, h.log;
    var ends := DueEnds(q.slots, now, CAPACITY);
    forall t: nat
      ensures HeldTimes(Swept(q.slots, now, CAPACITY), t, CAPACITY) + EndedTimes(log + ends, t)
           == if 1 <= t <= q.lastToken then 1 else 0
    {
      TimesSwept(q.slots, now, t, CAPACITY);
      EndedConcat(log, ends, t, Replaced);
    }
    CountsSwept(q.slots, now, CAPACITY);
    forall f ensures CountFate(log + ends, f) == CountFate(log, f) + if f == TimedOut then |ends| else 0 {
      EndedConcat(log, ends, 0, f);
      FateUniform(ends, TimedOut, f);
    }
  }

  lemma ClaimLedger(h: History, now: nat)
    requires Sized(h.q) && Ledger(h)
    ensures Ledger(Claimed(h, now))
  {
    var q, log := h.q, h.log;
    var o := AfterClaim(q, now);
    if o.slot != CAPACITY {
      assert log + [] == log;
      LedgerUpdate(q, o.q, log, [], o.slot, o.q.slots[o.slot]);
    }
  }

  lemma FinishLedger(h: History, now: nat, slot: nat, token: nat, result: Result, retryAfter: nat)
    requires Sized(h.q) && Ledger(h)
    ensures Ledger(Finished(h, now, slot, token, result, retryAfter))
  {
    if !Concludes(h.q, slot, token) { return; }
    var q, log := h.q, h.log;
    var q' := AfterFinish(q, slot, token, result, now, retryAfter);
    var ends := FinishEnds(q, slot, result, now);
    if ends != [] { assert ends[..0] == []; }
    LedgerUpdate(q, q', log, ends, slot, q'.slots[slot]);
  }

  // Places in line.

  ghost predicate Places(h: History) { Placed(h.q, h.log) }

  lemma {:induction false} SubmitPlaces(h: History, now: nat, r: Request, h': History)
    requires Sized(h.q) && Places(h)
    requires h' == Submitted(h, now, r)
    ensures Places(h')
  {
    if !BadRequest(h.q, r) && !Oversize(r) {
      var older := LastSuperseded(h.q.slots, r, CAPACITY);
      if older != CAPACITY { assert !r.Opaque(); }
    }
  }

  /** A fresh slot joins a group only when none of that group waits, so at most one mate is in flight. */
  lemma {:induction false} PlaceGroups(q: Queue, r: Request)
    requires Sized(q) && Grouped(q) && LastSuperseded(q.slots, r, CAPACITY) == CAPACITY && !NoRoom(q, r)
    ensures Grouped(Place(q, r, FirstFree(q.slots, CAPACITY)))
  {
    var at := FirstFree(q.slots, CAPACITY);
    var s' := q.slots[at := Held(Item(r, q.lastToken + 1), q.lastToken + 1, 0, false)];
    CountsUpdate(q.slots, at, s'[at], 0, CAPACITY);
    forall i | 0 <= i < CAPACITY && i != at && (Mates(s'[i], s'[at]) || Mates(s'[at], s'[i])) ensures s'[i].inflight {
      assert !q.slots[i].Superseded(r);
    }
  }

  lemma {:induction false} SubmitGroups(q: Queue, r: Request, q': Queue)
    requires Sized(q) && Grouped(q)
    requires q' == AfterSubmit(q, r).q
    ensures Grouped(q')
  {
    if !BadRequest(q, r) && !Oversize(r) {
      var older := LastSuperseded(q.slots, r, CAPACITY);
      if older != CAPACITY {
        CountsUpdate(q.slots, older, q.slots[older].(item := Item(r, q.lastToken + 1)), 0, CAPACITY);
      } else if !NoRoom(q, r) {
        PlaceGroups(q, r);
      }
    }
  }

  lemma {:induction false} SubmitOrder(h: History, now: nat, r: Request, h': History)
    requires Sized(h.q) && Places(h) && InOrder(h) && h.now <= now
    requires h' == Submitted(h, now, r)
    ensures InOrder(h')
  {
  }

  lemma {:induction false} ExpirePlaces(h: History, now: nat, h': History)
    requires Sized(h.q) && Places(h)
    requires h' == Expired(h, now)
    ensures Places(h')
  {
  }

  lemma {:induction false} ExpireGroups(q: Queue, now: nat, q': Queue)
    requires Sized(q) && Grouped(q)
    requires q' == AfterExpire(q, now)
    ensures Grouped(q')
  {
    CountsSwept(q.slots, now, CAPACITY);
  }

  lemma {:induction false} ExpireOrder(h: History, now: nat, h': History)
    requires Sized(h.q) && InOrder(h) && h.now <= now
    requires h' == Expired(h, now)
    ensures InOrder(h')
  {
    var ends := DueEnds(h.q.slots, now, CAPACITY);
    assert forall i :: 0 <= i < |ends| ==> ends[i] in ends;
  }

  lemma {:induction false} ClaimPlaces(h: History, now: nat, h': History)
    requires Sized(h.q) && Places(h)
    requires h' == Claimed(h, now)
    ensures Places(h')
  {
  }

  lemma {:induction false} ClaimGroups(q: Queue, now: nat, q': Queue)
    requires Sized(q) && Grouped(q)
    requires q' == AfterClaim(q, now).q
    ensures Grouped(q')
  {
    var o := AfterClaim(q, now);
    if o.slot != CAPACITY {
      CountsUpdate(q.slots, o.slot, o.q.slots[o.slot], 0, CAPACITY);
      assert forall i :: 0 <= i < CAPACITY && q.slots[i].Held? ==> !q.slots[i].inflight;
    }
  }

  /** What is claimed is the oldest of its class still alive. */
  lemma ClaimedIsOldest(q: Queue, log: seq<End>, now: nat)
    requires Sized(q) && Placed(q, log)
    ensures var at := AfterClaim(q, now).slot;
            at != CAPACITY ==>
              && q.slots[at].Waiting() && !q.slots[at].item.request.Expired(now)
              && forall k :: 0 <= k < CAPACITY && k != at && Alive(q.slots[k], now)
                     && q.slots[k].item.request.critical == q.slots[at].item.request.critical
                   ==> q.slots[at].order < q.slots[k].order
    ensures AfterClaim(q, now).slot != CAPACITY ==> forall k :: 0 <= k < CAPACITY && q.slots[k].Held? ==> !q.slots[k].inflight
  {
    var at := AfterClaim(q, now).slot;
    if at != CAPACITY {
      forall k | 0 <= k < CAPACITY && k != at && Alive(q.slots[k], now)
        && q.slots[k].item.request.critical == q.slots[at].item.request.critical
        ensures q.slots[at].order < q.slots[k].order
      {
        assert q.slots[k].Ready(q.slots[at].item.request.critical, now);
        assert q.slots[at].order != q.slots[k].order;
      }
    }
  }

  lemma {:induction false} ClaimOrder(h: History, now: nat, h': History)
    requires Sized(h.q) && Places(h) && InOrder(h) && h.now <= now
    requires h' == Claimed(h, now)
    ensures InOrder(h')
  {
    ClaimedIsOldest(h.q, h.log, now);
    var o := AfterClaim(h.q, now);
    if o.slot != CAPACITY {
      var x := h.q.slots[o.slot].(inflight := true);
      assert o.q.slots == h.q.slots[o.slot := x];
      LaunchOrder(h, now, o.slot, x);
    }
  }

  lemma LaunchOrder(h: History, now: nat, at: nat, x: Slot)
    requires Sized(h.q) && InOrder(h) && h.now <= now && at < CAPACITY && Alive(h.q.slots[at], now)
    requires h.q.slots[at].Held? && x == h.q.slots[at].(inflight := true)
    requires forall k :: 0 <= k < CAPACITY && h.q.slots[k].Held? ==> !h.q.slots[k].inflight
    requires forall k :: 0 <= k < CAPACITY && k != at && Alive(h.q.slots[k], now) ==>
      h.q.slots[k].item.request.critical == x.item.request.critical ==> x.order < h.q.slots[k].order
    ensures SentFirst(h.log, h.q.slots[at := x], now) && FlyingFirst(h.q.slots[at := x], now)
  {
  }

  lemma {:induction false} FinishPlaces(h: History, now: nat, slot: nat, token: nat, result: Result, retryAfter: nat, h': History)
    requires Sized(h.q) && Places(h)
    requires h' == Finished(h, now, slot, token, result, retryAfter)
    ensures Places(h')
  {
  }

  lemma {:induction false} FinishGroups(q: Queue, slot: nat, token: nat, result: Result, now: nat, retryAfter: nat, q': Queue)
    requires Sized(q) && Grouped(q) && Concludes(q, slot, token)
    requires q' == AfterFinish(q, slot, token, result, now, retryAfter)
    ensures Grouped(q')
  {
    CountsUpdate(q.slots, slot, q'.slots[slot], 0, CAPACITY);
  }

  lemma {:induction false} FinishOrder(h: History, now: nat, slot: nat, token: nat, result: Result, retryAfter: nat, h': History)
    requires Sized(h.q) && OneInflight(h.q.slots) && InOrder(h) && h.now <= now
    requires h' == Finished(h, now, slot, token, result, retryAfter)
    ensures InOrder(h')
  {
  }

  // Fairness.

  lemma ClaimFair(h: History, now: nat)
    requires Sized(h.q) && Fair(h)
    ensures Fair(Claimed(h, now))
  {
  }

  // The run theorems.

  lemma {:induction false} StepLedger(h: History, e: Event, h': History)
    requires Sized(h.q) && Ledger(h) && h' == Step(h, e)
    ensures Ledger(h')
  {
    var now := h.now + e.elapsed;
    if e.call.Submits? { SubmitLedger(h, now, e.call.r); }
    else if e.call.Expires? { ExpireLedger(h, now); }
    else if e.call.Claims? { ClaimLedger(h, now); }
    else { FinishLedger(h, now, e.call.slot, e.call.token, e.call.result, e.call.retryAfter); }
  }

  lemma {:induction false} StepPlaces(h: History, e: Event, h': History)
    requires Sized(h.q) && Places(h) && h' == Step(h, e)
    ensures Places(h')
  {
    var now := h.now + e.elapsed;
    if e.call.Submits? { SubmitPlaces(h, now, e.call.r, h'); }
    else if e.call.Expires? { ExpirePlaces(h, now, h'); }
    else if e.call.Claims? { ClaimPlaces(h, now, h'); }
    else { FinishPlaces(h, now, e.call.slot, e.call.token, e.call.result, e.call.retryAfter, h'); }
  }

  lemma {:induction false} StepGroups(h: History, e: Event, h': History)
    requires Sized(h.q) && Grouped(h.q) && h' == Step(h, e)
    ensures Grouped(h'.q)
  {
    var now := h.now + e.elapsed;
    if e.call.Submits? { SubmitGroups(h.q, e.call.r, h'.q); }
    else if e.call.Expires? { ExpireGroups(h.q, now, h'.q); }
    else if e.call.Claims? { ClaimGroups(h.q, now, h'.q); }
    else if Concludes(h.q, e.call.slot, e.call.token) {
      FinishGroups(h.q, e.call.slot, e.call.token, e.call.result, now, e.call.retryAfter, h'.q);
    }
  }

  lemma {:induction false} StepOrder(h: History, e: Event, h': History)
    requires Sized(h.q) && Places(h) && OneInflight(h.q.slots) && InOrder(h) && h' == Step(h, e)
    ensures InOrder(h')
  {
    var now := h.now + e.elapsed;
    if e.call.Submits? { SubmitOrder(h, now, e.call.r, h'); }
    else if e.call.Expires? { ExpireOrder(h, now, h'); }
    else if e.call.Claims? { ClaimOrder(h, now, h'); }
    else { FinishOrder(h, now, e.call.slot, e.call.token, e.call.result, e.call.retryAfter, h'); }
  }

  lemma StepFair(h: History, e: Event)
    requires Sized(h.q) && Fair(h)
    ensures Fair(Step(h, e))
  {
    if e.call.Claims? { ClaimFair(h, h.now + e.elapsed); }
  }

  lemma {:induction false} EmptyCounts(s: seq<Slot>, t: nat, n: nat)
    requires n <= |s| && forall i :: 0 <= i < n ==> s[i].Free?
    ensures HeldTimes(s, t, n) == 0 && CountHeld(s, n) == 0 && CountNoncritical(s, n) == 0
  {
    if n > 0 { EmptyCounts(s, t, n - 1); }
  }

  lemma FreshInvariant(h: History, s: seq<Slot>)
    requires h == History(Queue(s, Counters(0, 0, 0, 0, 0, 0, 0), 0, 0), 0, [], 0)
    requires |s| == CAPACITY && forall i :: 0 <= i < CAPACITY ==> s[i].Free?
    ensures Invariant(h)
  {
    forall t: nat ensures HeldTimes(s, t, CAPACITY) == 0 { EmptyCounts(s, t, CAPACITY); }
    EmptyCounts(s, 0, CAPACITY);
  }

  lemma AllFree()
    ensures |EMPTY_SLOTS| == CAPACITY && forall i :: 0 <= i < CAPACITY ==> EMPTY_SLOTS[i].Free?
  {
  }

  lemma StartInvariant()
    ensures Invariant(START)
  {
    AllFree();
    var s := EMPTY_SLOTS;
    FreshInvariant(START, s);
  }

  lemma StepKeeps(h: History, e: Event)
    requires Invariant(h)
    ensures Invariant(Step(h, e))
  {
    var h' := Step(h, e);
    assert Ledger(h') by { StepLedger(h, e, h'); }
    assert Places(h') by { StepPlaces(h, e, h'); }
    assert Grouped(h'.q) by { StepGroups(h, e, h'); }
    assert InOrder(h') by { StepOrder(h, e, h'); }
    assert Fair(h') by { StepFair(h, e); }
  }

  lemma {:induction false} ReachedInvariant(run: seq<Event>)
    ensures Invariant(Execute(run))
  {
    if run == [] {
      StartInvariant();
    } else {
      ReachedInvariant(run[..|run| - 1]);
      StepKeeps(Execute(run[..|run| - 1]), run[|run| - 1]);
    }
  }

  /** Every accepted item is in a slot or has left in exactly one of the four ways. */
  lemma Conservation(run: seq<Event>)
    ensures var h := Execute(run);
            && h.q.counters.accepted == h.q.counters.coalesced + CountFate(h.log, Delivered)
                 + h.q.counters.expired + h.q.counters.dropped + h.q.counters.depth
            && h.q.counters.depth == CountHeld(h.q.slots, CAPACITY)
            && forall t: nat :: HeldTimes(h.q.slots, t, CAPACITY) + EndedTimes(h.log, t)
                 == if 1 <= t <= h.q.counters.accepted then 1 else 0
  {
    ReachedInvariant(run);
    EveryFateCounted(Execute(run).log);
  }

  /** Opaque items of one class are handed to the SDK in the order they were submitted,
      whatever was retried, expired or coalesced in between. */
  lemma SentInSubmissionOrder(run: seq<Event>, i: nat, j: nat)
    requires var log := Execute(run).log;
             && i < j < |log| && log[i].fate == Delivered && log[j].fate == Delivered
             && log[i].item.request.critical == log[j].item.request.critical
             && log[i].item.request.Opaque() && log[j].item.request.Opaque()
    ensures Execute(run).log[i].item.token < Execute(run).log[j].item.token
  {
    ReachedInvariant(run);
    var h := Execute(run);
    assert Behind(h.log[i].item, h.log[i].order, h.log[j].item, h.log[j].order);
  }

  /** A snapshot group never holds three slots. */
  lemma GroupsHoldTwo(run: seq<Event>, r: Request, i: nat, j: nat, k: nat)
    requires i < j < k < CAPACITY
    requires var s := Execute(run).q.slots; s[i].Held? && s[j].Held? && s[k].Held?
    ensures var s := Execute(run).q.slots;
            !(r.SameGroup(s[i].item.request) && r.SameGroup(s[j].item.request) && r.SameGroup(s[k].item.request))
  {
    ReachedInvariant(run);
    var s := Execute(run).q.slots;
    assert Mates(s[i], s[j]) ==> !Mates(s[j], s[k]);
  }

  function CountCritical(s: seq<Slot>, n: nat): nat
    requires n <= |s|
  {
    if n == 0 then 0
    else CountCritical(s, n - 1) + if s[n - 1].Held? && s[n - 1].item.request.critical then 1 else 0
  }

  lemma {:induction false} ClassesAddUp(s: seq<Slot>, n: nat)
    requires n <= |s| && forall i :: 0 <= i < n ==> s[i].Held?
    ensures CountCritical(s, n) + CountNoncritical(s, n) == n
  {
    if n > 0 { ClassesAddUp(s, n - 1); }
  }

  lemma FullOfCritical(q: Queue, r: Request)
    requires Sized(q) && Reserved(q) && r.critical && AfterSubmit(q, r).verdict.Full?
    ensures CRITICAL_RESERVE <= CountCritical(q.slots, CAPACITY)
  {
    ClassesAddUp(q.slots, CAPACITY);
  }

  /** Noncritical items never fill the reserve, so a critical item is turned away only
      when at least eight critical items are already there. */
  lemma ReserveHolds(run: seq<Event>, r: Request)
    ensures CountNoncritical(Execute(run).q.slots, CAPACITY) <= CAPACITY - CRITICAL_RESERVE
    ensures r.critical && AfterSubmit(Execute(run).q, r).verdict.Full? ==>
      CRITICAL_RESERVE <= CountCritical(Execute(run).q.slots, CAPACITY)
  {
    ReachedInvariant(run);
    if r.critical && AfterSubmit(Execute(run).q, r).verdict.Full? { FullOfCritical(Execute(run).q, r); }
  }

  /** While a noncritical head could go, at most eight claims in a row are critical; once
      eight were, the next claim that succeeds while it could go takes it. */
  lemma BoundedOvertaking(run: seq<Event>, now: nat)
    ensures Execute(run).overtaken <= CRITICAL_BURST
    ensures var h := Execute(run);
            h.overtaken == CRITICAL_BURST && !AnyInflight(h.q.slots, CAPACITY) && Eligible(h.q.slots, false, now) != CAPACITY ==>
              AfterClaim(h.q, now).slot == Eligible(h.q.slots, false, now)
  {
    ReachedInvariant(run);
  }
}
