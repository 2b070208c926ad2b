/** The outgoing MQTT queue: 32 unordered slots that must behave as two FIFO
    lines, with coalescing, delayed retry, expiry and a reserve for critical items.

    Tokens and deadlines are 64-bit in the firmware. Tokens are modelled with
    their limit; a deadline of zero means no expiry. */
module DispatchQueue {

  const CAPACITY: nat := 32
  const CRITICAL_RESERVE: nat := 8
  const TOPIC_CAPACITY: nat := 64
  const PAYLOAD_CAPACITY: nat := 256
  const CRITICAL_BURST: nat := 8
  const UINT64_MAX: nat := 0xFFFF_FFFF_FFFF_FFFF

  datatype Request = Request(topic: string, payload: seq<bv8>, qos: int, retain: bool, critical: bool,
                             key: nat, deadline: nat)
  {
    predicate Expired(now: nat) { deadline != 0 && deadline <= now }

    /** Items that never take over another item's place: critical ones and opaque ones. */
    predicate Opaque() { critical || key == 0 }

    /** The same snapshot stream: a newer item of the group supersedes a waiting one. */
    predicate SameGroup(r: Request) {
      !critical && !r.critical && key != 0 && r.key == key && r.qos == qos && r.retain == retain && r.topic == topic
    }
  }

  datatype Item = Item(request: Request, token: nat)

  datatype Slot = Free | Held(item: Item, order: nat, retryAfter: nat, inflight: bool)
  {
    predicate Waiting() { Held? && !inflight }

    /** A claim may consider this slot for the given class. */
    predicate Ready(critical: bool, now: nat) {
      Waiting() && item.request.critical == critical && !item.request.Expired(now)
    }

    predicate Due(now: nat) { Waiting() && item.request.Expired(now) }

    predicate Superseded(r: Request) { Waiting() && r.SameGroup(item.request) }

    predicate Noncritical() { Held? && !item.request.critical }
  }

  datatype Counters = Counters(accepted: nat, coalesced: nat, full: nat, expired: nat, dropped: nat,
                               depth: int, highwater: int)

  datatype Queue = Queue(slots: seq<Slot>, counters: Counters, lastToken: nat, streak: nat)

  datatype Verdict = Accepted(token: nat, replaced: nat) | Full | TooLarge | Invalid

  datatype Result = Sent | Retry | Drop

  datatype Submission = Submission(q: Queue, verdict: Verdict)
  datatype Claiming = Claiming(q: Queue, slot: nat)   // `CAPACITY` when nothing was claimed

  predicate Sized(q: Queue) { |q.slots| == CAPACITY }

  const EMPTY_SLOTS: seq<Slot> :=
    [Free, Free, Free, Free, Free, Free, Free, Free, Free, Free, Free, Free, Free, Free, Free, Free,
     Free, Free, Free, Free, Free, Free, Free, Free, Free, Free, Free, Free, Free, Free, Free, Free]

  const INITIAL: Queue := Queue(EMPTY_SLOTS, Counters(0, 0, 0, 0, 0, 0, 0), 0, 0)

  // The scans over the first `n` slots.

  function FirstFree(s: seq<Slot>, n: nat): (f: nat)
    requires n <= |s| == CAPACITY
    ensures f == CAPACITY ==> forall i :: 0 <= i < n ==> s[i].Held?
    ensures f != CAPACITY ==> f < n && s[f].Free? && forall i :: 0 <= i < f ==> s[i].Held?
  {
    if n == 0 then CAPACITY
    else
      var f := FirstFree(s, n - 1);
      if f == CAPACITY && s[n - 1].Free? then n - 1 else f
  }

  function LastSuperseded(s: seq<Slot>, r: Request, n: nat): (f: nat)
    requires n <= |s| == CAPACITY
    ensures f == CAPACITY ==> forall i :: 0 <= i < n ==> !s[i].Superseded(r)
    ensures f != CAPACITY ==> f < n && s[f].Superseded(r) && forall i :: f < i < n ==> !s[i].Superseded(r)
  {
    if n == 0 then CAPACITY
    else if s[n - 1].Superseded(r) then n - 1
    else LastSuperseded(s, r, n - 1)
  }

  function CountNoncritical(s: seq<Slot>, n: nat): (c: nat)
    requires n <= |s|
    ensures c <= n
  {
    if n == 0 then 0 else CountNoncritical(s, n - 1) + if s[n - 1].Noncritical() then 1 else 0
  }

  function AnyInflight(s: seq<Slot>, n: nat): (b: bool)
    requires n <= |s|
    ensures b <==> exists i :: 0 <= i < n && s[i].Held? && s[i].inflight
  {
    n != 0 && (AnyInflight(s, n - 1) || (s[n - 1].Held? && s[n - 1].inflight))
  }

  /** The oldest slot of a class that is waiting and has not expired. */
  function Head(s: seq<Slot>, critical: bool, now: nat, n: nat): (h: nat)
    requires n <= |s| == CAPACITY
    ensures h == CAPACITY ==> forall i :: 0 <= i < n ==> !s[i].Ready(critical, now)
    ensures h != CAPACITY ==> h < n && s[h].Ready(critical, now)
    ensures h != CAPACITY ==> forall i :: 0 <= i < n && s[i].Ready(critical, now) ==> s[h].order <= s[i].order
  {
    if n == 0 then CAPACITY
    else
      var h := Head(s, critical, now, n - 1);
      if s[n - 1].Ready(critical, now) && (h == CAPACITY || s[n - 1].order < s[h].order) then n - 1 else h
  }

  /** The slots once the first `n` have been swept for expiry. */
  function Swept(s: seq<Slot>, now: nat, n: nat): (t: seq<Slot>)
    requires n <= |s|
    ensures |t| == |s|
    ensures forall i :: 0 <= i < |s| ==> t[i] == if i < n && s[i].Due(now) then Free else s[i]
  {
    if n == 0 then s
    else if s[n - 1].Due(now) then Swept(s, now, n - 1)[n - 1 := Free]
    else Swept(s, now, n - 1)
  }

  function DueTokens(s: seq<Slot>, now: nat, n: nat): (ts: seq<nat>)
    requires n <= |s|
    ensures |ts| <= n
    ensures forall t :: t in ts <==> exists i :: 0 <= i < n && s[i].Due(now) && s[i].item.token == t
  {
    if n == 0 then []
    else DueTokens(s, now, n - 1) + if s[n - 1].Due(now) then [s[n - 1].item.token] else []
  }

  // The operations.

  function Max(a: int, b: int): int { if a < b then b else a }

  function Supersede(q: Queue, r: Request, at: nat): Queue
    requires Sized(q) && at < CAPACITY && q.slots[at].Held?
  {
    q.(slots := q.slots[at := q.slots[at].(item := Item(r, q.lastToken + 1))],
       lastToken := q.lastToken + 1,
       counters := q.counters.(coalesced := q.counters.coalesced + 1, accepted := q.counters.accepted + 1))
  }

  function Place(q: Queue, r: Request, at: nat): Queue
    requires Sized(q) && at < CAPACITY
  {
    q.(slots := q.slots[at := Held(Item(r, q.lastToken + 1), q.lastToken + 1, 0, false)],
       lastToken := q.lastToken + 1,
       counters := q.counters.(depth := q.counters.depth + 1,
                               highwater := Max(q.counters.highwater, q.counters.depth + 1),
                               accepted := q.counters.accepted + 1))
  }

  predicate BadRequest(q: Queue, r: Request) {
    |r.topic| == 0 || r.qos < 0 || 2 < r.qos || q.lastToken == UINT64_MAX
  }

  predicate Oversize(r: Request) { TOPIC_CAPACITY <= |r.topic| || PAYLOAD_CAPACITY < |r.payload| }

  /** No slot at all, or none outside the part reserved for critical items. */
  predicate NoRoom(q: Queue, r: Request)
    requires Sized(q)
  {
    || FirstFree(q.slots, CAPACITY) == CAPACITY
    || (!r.critical && CAPACITY - CRITICAL_RESERVE <= CountNoncritical(q.slots, CAPACITY))
  }

  function AfterSubmit(q: Queue, r: Request): (o: Submission)
    requires Sized(q)
    ensures Sized(o.q)
  {
    if BadRequest(q, r) then Submission(q, Invalid)
    else if Oversize(r) then Submission(q, TooLarge)
    else
      var older := LastSuperseded(q.slots, r, CAPACITY);
      if older != CAPACITY then
        Submission(Supersede(q, r, older), Accepted(q.lastToken + 1, q.slots[older].item.token))
      else if NoRoom(q, r) then
        Submission(q.(counters := q.counters.(full := q.counters.full + 1)), Full)
      else
        Submission(Place(q, r, FirstFree(q.slots, CAPACITY)), Accepted(q.lastToken + 1, 0))
  }

  function AfterExpire(q: Queue, now: nat): (q': Queue)
    requires Sized(q)
    ensures Sized(q')
  {
    var n := |DueTokens(q.slots, now, CAPACITY)|;
    q.(slots := Swept(q.slots, now, CAPACITY),
       counters := q.counters.(expired := q.counters.expired + n, depth := q.counters.depth - n))
  }

  /** A head still waiting for its retry time blocks its class. */
  function Eligible(s: seq<Slot>, critical: bool, now: nat): (h: nat)
    requires |s| == CAPACITY
    ensures h == CAPACITY || (h == Head(s, critical, now, CAPACITY) && h < CAPACITY && s[h].retryAfter <= now)
  {
    var h := Head(s, critical, now, CAPACITY);
    if h != CAPACITY && s[h].retryAfter <= now then h else CAPACITY
  }

  function Launch(q: Queue, at: nat, streak: nat): Queue
    requires Sized(q) && at < CAPACITY && q.slots[at].Held?
  {
    q.(slots := q.slots[at := q.slots[at].(inflight := true)], streak := streak)
  }

  /** The critical head goes first, unless the other head is eligible too and the burst is used up. */
  predicate CriticalFirst(q: Queue, now: nat)
    requires Sized(q)
  {
    && Eligible(q.slots, true, now) != CAPACITY
    && (Eligible(q.slots, false, now) == CAPACITY || q.streak < CRITICAL_BURST)
  }

  function AfterClaim(q: Queue, now: nat): (o: Claiming)
    requires Sized(q)
    ensures Sized(o.q) && o.slot <= CAPACITY
  {
    var critical := Eligible(q.slots, true, now);
    var other := Eligible(q.slots, false, now);
    if AnyInflight(q.slots, CAPACITY) then Claiming(q, CAPACITY)
    else if CriticalFirst(q, now) then
      Claiming(Launch(q, critical, if q.streak < CRITICAL_BURST then q.streak + 1 else q.streak), critical)
    else if other == CAPACITY then Claiming(q, CAPACITY)
    else Claiming(Launch(q, other, 0), other)
  }

  /** A completion must name the slot in flight and the token that went into it. */
  predicate Concludes(q: Queue, slot: nat, token: nat)
    requires Sized(q)
  {
    slot < CAPACITY && q.slots[slot].Held? && q.slots[slot].inflight && q.slots[slot].item.token == token
  }

  function AfterFinish(q: Queue, slot: nat, token: nat, result: Result, now: nat, retryAfter: nat): (q': Queue)
    requires Sized(q) && Concludes(q, slot, token)
    ensures Sized(q')
  {
    var expired := q.slots[slot].item.request.Expired(now);
    if result.Retry? && !expired then
      q.(slots := q.slots[slot := q.slots[slot].(inflight := false, retryAfter := retryAfter)])
    else
      var c := q.counters.(depth := q.counters.depth - 1);
      q.(slots := q.slots[slot := Free],
         counters := match result
                     case Retry => c.(expired := c.expired + 1)
                     case Drop => c.(dropped := c.dropped + 1)
                     case Sent => c)
  }

  /** The queue as the firmware keeps it: one array scanned and updated in place. */
  class DispatchArray {
    const slots: array<Slot>
    var counters: Counters
    var lastToken: nat
    var streak: nat

    ghost predicate Valid() reads this { slots.Length == CAPACITY }

    ghost function Contents(): (q: Queue)
      requires Valid()
      reads this, slots
      ensures Sized(q)
    {
      Queue(slots[..], counters, lastToken, streak)
    }

    constructor ()
      ensures Valid() && fresh(slots) && Contents() == INITIAL
    {
      slots := new Slot[CAPACITY](_ => Free);
      counters, lastToken, streak := Counters(0, 0, 0, 0, 0, 0, 0), 0, 0;
      new;
      assert slots[..] == EMPTY_SLOTS;
    }

    method Submit(r: Request) returns (verdict: Verdict)
      requires Valid()
      modifies this, slots
      ensures Valid()
      ensures var o := AfterSubmit(old(Contents()), r); Contents() == o.q && verdict == o.verdict
    {
      if |r.topic| == 0 || r.qos < 0 || r.qos > 2 || lastToken == UINT64_MAX { return Invalid; }
      if |r.topic| >= TOPIC_CAPACITY || |r.payload| > PAYLOAD_CAPACITY { return TooLarge; }
      ghost var s := slots[..];
      var free, replacement, noncritical := CAPACITY, CAPACITY, 0;
      for i := 0 to CAPACITY
        invariant free == FirstFree(s, i)
        invariant replacement == LastSuperseded(s, r, i)
        invariant noncritical == CountNoncritical(s, i)
      {
        var slot := slots[i];
        assert slot == s[i];
        if slot.Free? {
          if free == CAPACITY { free := i; }
        } else {
          if !slot.item.request.critical { noncritical := noncritical + 1; }
          if !slot.inflight && !r.critical && !slot.item.request.critical && r.key != 0
             && slot.item.request.key == r.key && slot.item.request.qos == r.qos
             && slot.item.request.retain == r.retain && slot.item.request.topic == r.topic {
            replacement := i;
          }
        }
      }
      var index := if replacement == CAPACITY then free else replacement;
      if index == CAPACITY
         || (replacement == CAPACITY && !r.critical && noncritical >= CAPACITY - CRITICAL_RESERVE) {
        counters := counters.(full := counters.full + 1);
        return Full;
      }
      var replaced := 0;
      lastToken := lastToken + 1;
      if replacement != CAPACITY {
        replaced := slots[index].item.token;
        counters := counters.(coalesced := counters.coalesced + 1);
        slots[index] := slots[index].(item := Item(r, lastToken));
      } else {
        counters := counters.(depth := counters.depth + 1);
        if counters.depth > counters.highwater { counters := counters.(highwater := counters.depth); }
        slots[index] := Held(Item(r, lastToken), lastToken, 0, false);
      }
      counters := counters.(accepted := counters.accepted + 1);
      return Accepted(lastToken, replaced);
    }

    method Expire(now: nat) returns (tokens: seq<nat>)
      requires Valid()
      modifies this, slots
      ensures Valid() && Contents() == AfterExpire(old(Contents()), now)
      ensures tokens == DueTokens(old(slots[..]), now, CAPACITY)
    {
      ghost var q := Contents();
      tokens := [];
      for i := 0 to CAPACITY
        invariant slots[..] == Swept(q.slots, now, i) && tokens == DueTokens(q.slots, now, i)
        invariant lastToken == q.lastToken && streak == q.streak
        invariant counters == q.counters.(expired := q.counters.expired + |tokens|,
                                          depth := q.counters.depth - |tokens|)
      {
        assert slots[..][i] == q.slots[i];
        if slots[i].Held? && !slots[i].inflight && slots[i].item.request.Expired(now) {
          tokens := tokens + [slots[i].item.token];
          counters := counters.(expired := counters.expired + 1, depth := counters.depth - 1);
          slots[i] := Free;
        }
      }
    }

    method Claim(now: nat) returns (slot: nat)
      requires Valid()
      modifies this, slots
      ensures Valid()
      ensures var o := AfterClaim(old(Contents()), now); Contents() == o.q && slot == o.slot
    {
      ghost var s := slots[..];
      var critical, other := CAPACITY, CAPACITY;
      for i := 0 to CAPACITY
        invariant !AnyInflight(s, i)
        invariant critical == Head(s, true, now, i)
        invariant other == Head(s, false, now, i)
      {
        var at := slots[i];
        assert at == s[i];
        if at.Held? && at.inflight { assert AnyInflight(s, CAPACITY); return CAPACITY; }
        if at.Held? && !at.item.request.Expired(now) {
          if at.item.request.critical {
            if critical == CAPACITY || at.order < slots[critical].order { critical := i; }
          } else {
            if other == CAPACITY || at.order < slots[other].order { other := i; }
          }
        }
      }
      if critical != CAPACITY && slots[critical].retryAfter > now { critical := CAPACITY; }
      if other != CAPACITY && slots[other].retryAfter > now { other := CAPACITY; }
      if critical != CAPACITY && (other == CAPACITY || streak < CRITICAL_BURST) {
        slot := critical;
        if streak < CRITICAL_BURST { streak := streak + 1; }
      } else {
        slot := other;
        if slot == CAPACITY { return; }
        streak := 0;
      }
      slots[slot] := slots[slot].(inflight := true);
    }

    method Finish(slot: nat, token: nat, result: Result, now: nat, retryAfter: nat) returns (ok: bool)
      requires Valid()
      modifies this, slots
      ensures Valid() && ok == Concludes(old(Contents()), slot, token)
      ensures Contents() == if ok then AfterFinish(old(Contents()), slot, token, result, now, retryAfter)
                            else old(Contents())
    {
      if slot >= CAPACITY { return false; }
      var at := slots[slot];
      if !(at.Held? && at.inflight) || at.item.token != token { return false; }
      if result.Retry? && !at.item.request.Expired(now) {
        slots[slot] := at.(inflight := false, retryAfter := retryAfter);
        return true;
      }
      if result.Retry? { counters := counters.(expired := counters.expired + 1); }
      else if result.Drop? { counters := counters.(dropped := counters.dropped + 1); }
      counters := counters.(depth := counters.depth - 1);
      slots[slot] := Free;
      return true;
    }
  }
}
