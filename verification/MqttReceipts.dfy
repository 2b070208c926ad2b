/** Receipts for tracked publications: what the eight entries say about a token is
    what the queue did with it, over every run of the sections that share the lock. */
module MqttReceipts {
  import opened DispatchQueue
  import opened DispatchRuns

  const RECEIPTS: nat := 8
  const ITEM_TTL_MS: nat := 3600000
  const SNAPSHOT_TTL_MS: nat := 120000
  const RETRY_MS: nat := 1000

  datatype Status = Unknown | Pending | SdkAccepted | Failed

  /** Token zero marks a free entry. */
  datatype Receipt = Receipt(token: nat, status: Status)

  type Book = b: seq<Receipt> | |b| == RECEIPTS witness NO_RECEIPTS

  const NO_RECEIPT := Receipt(0, Unknown)
  const NO_RECEIPTS: seq<Receipt> :=
    [NO_RECEIPT, NO_RECEIPT, NO_RECEIPT, NO_RECEIPT, NO_RECEIPT, NO_RECEIPT, NO_RECEIPT, NO_RECEIPT]

  datatype Desk = Desk(q: Queue, book: Book)

  datatype Answer = Answer(desk: Desk, code: int, receipt: nat)

  /** The arguments of one publication, with the deadline its kind gives it. */
  datatype Publication = Publication(topic: string, payload: seq<bv8>, qos: int, retain: int, critical: bool,
                                     key: nat, tracked: bool)
  {
    function RequestAt(now: nat): Request {
      Request(topic, payload, qos, retain == 1, critical, key, now + if key != 0 then SNAPSHOT_TTL_MS else ITEM_TTL_MS)
    }
  }

  function FirstFreeEntry(b: Book, n: nat): (f: nat)
    requires n <= RECEIPTS
    ensures f == RECEIPTS ==> forall i :: 0 <= i < n ==> b[i].token != 0
    ensures f != RECEIPTS ==> f < n && b[f].token == 0
  {
    if n == 0 then RECEIPTS
    else
      var f := FirstFreeEntry(b, n - 1);
      if f == RECEIPTS && b[n - 1].token == 0 then n - 1 else f
  }

  /** The first `n` entries for `token` set to `status`. */
  function Marked(b: Book, token: nat, status: Status, n: nat): (b': Book)
    requires n <= RECEIPTS
    ensures forall i :: 0 <= i < RECEIPTS ==>
      b'[i] == if i < n && b[i].token == token then Receipt(token, status) else b[i]
  {
    if n == 0 then b
    else if b[n - 1].token == token then Marked(b, token, status, n - 1)[n - 1 := Receipt(token, status)]
    else Marked(b, token, status, n - 1)
  }

  function AllMarked(b: Book, tokens: seq<nat>, status: Status): (b': Book)
    ensures forall i :: 0 <= i < RECEIPTS ==>
      b'[i] == if b[i].token in tokens then Receipt(b[i].token, status) else b[i]
  {
    if tokens == [] then b
    else Marked(AllMarked(b, tokens[..|tokens| - 1], status), tokens[|tokens| - 1], status, RECEIPTS)
  }

  // The sections under the lock.

  function Submitting(d: Desk, open: bool, p: Publication, now: nat): Answer
    requires Sized(d.q)
  {
    var slot := FirstFreeEntry(d.book, RECEIPTS);
    if !open || p.retain < 0 || 1 < p.retain then Answer(d, -1, 0)
    else if p.tracked && slot == RECEIPTS then Answer(d, -2, 0)
    else
      var o := AfterSubmit(d.q, p.RequestAt(now));
      match o.verdict
      case Full => Answer(d.(q := o.q), -2, 0)
      case TooLarge => Answer(d.(q := o.q), -3, 0)
      case Invalid => Answer(d.(q := o.q), -1, 0)
      case Accepted(token, replaced) =>
        var book := if replaced != 0 then Marked(d.book, replaced, Failed, RECEIPTS) else d.book;
        if p.tracked then Answer(Desk(o.q, book[slot := Receipt(token, Pending)]), 0, token)
        else Answer(Desk(o.q, book), 0, 0)
  }

  function Expiring(d: Desk, now: nat): Desk
    requires Sized(d.q)
  {
    Desk(AfterExpire(d.q, now), AllMarked(d.book, DueTokens(d.q.slots, now, CAPACITY), Failed))
  }

  /** The owner comes back from the SDK with `rc` for the item it had claimed. */
  function Concluding(d: Desk, slot: nat, item: Item, rc: int, now: nat): Desk
    requires Sized(d.q)
  {
    var q := if Concludes(d.q, slot, item.token) then
               AfterFinish(d.q, slot, item.token, if rc >= 0 then Sent else Retry, now, now + RETRY_MS)
             else d.q;
    Desk(q, if rc >= 0 then Marked(d.book, item.token, SdkAccepted, RECEIPTS)
            else if item.request.Expired(now) then Marked(d.book, item.token, Failed, RECEIPTS)
            else d.book)
  }

  function FindEntry(b: Book, token: nat, n: nat): (f: nat)
    requires n <= RECEIPTS
    ensures f <= n
    ensures f < n ==> b[f].token == token
    ensures forall i :: 0 <= i < f ==> b[i].token != token
  {
    if n == 0 then 0
    else
      var f := FindEntry(b, token, n - 1);
      if f < n - 1 then f else if b[n - 1].token == token then n - 1 else n
  }

  function Taking(b: Book, token: nat): (Book, Status) {
    var at := FindEntry(b, token, RECEIPTS);
    if token == 0 || at == RECEIPTS then (b, Unknown)
    else if b[at].status == Pending then (b, Pending)
    else (b[at := b[at].(token := 0)], b[at].status)
  }

  /** The first `n` entries for `token` freed. */
  function Forgotten(b: Book, token: nat, n: nat): (b': Book)
    requires n <= RECEIPTS
    ensures forall i :: 0 <= i < RECEIPTS ==> b'[i] == if i < n && b[i].token == token then b[i].(token := 0) else b[i]
  {
    if n == 0 then b
    else if b[n - 1].token == token then Forgotten(b, token, n - 1)[n - 1 := b[n - 1].(token := 0)]
    else Forgotten(b, token, n - 1)
  }

  /** The queue and the receipts as the firmware keeps them. */
  class Outgoing {
    const queue: DispatchArray
    const receipts: array<Receipt>

    ghost predicate Valid()
      reads this, queue
    {
      queue.Valid() && receipts.Length == RECEIPTS
    }

    ghost function State(): Desk
      requires Valid()
      reads this, queue, queue.slots, receipts
    {
      Desk(queue.Contents(), receipts[..])
    }

    constructor ()
      ensures Valid() && State() == Desk(INITIAL, NO_RECEIPTS)
      ensures fresh(queue) && fresh(queue.slots) && fresh(receipts)
    {
      queue := new DispatchArray();
      receipts := new Receipt[RECEIPTS](_ => NO_RECEIPT);
      new;
      assert receipts[..] == NO_RECEIPTS;
    }

    method Mark(token: nat, status: Status)
      requires Valid()
      modifies receipts
      ensures Valid() && receipts[..] == Marked(old(receipts[..]), token, status, RECEIPTS)
    {
      ghost var b: Book := receipts[..];
      for i := 0 to RECEIPTS
        invariant receipts[..] == Marked(b, token, status, i)
      {
        assert receipts[..][i] == b[i];
        if receipts[i].token == token { receipts[i] := Receipt(token, status); }
      }
    }

    method Submit(open: bool, p: Publication, now: nat) returns (code: int, receipt: nat)
      requires Valid()
      modifies queue, queue.slots, receipts
      ensures Valid()
      ensures Answer(State(), code, receipt) == Submitting(old(State()), open, p, now)
    {
      if !open || p.retain < 0 || p.retain > 1 { return -1, 0; }
      var slot := RECEIPTS;
      if p.tracked {
        slot := FreeEntry();
        if slot == RECEIPTS { return -2, 0; }
      }
      var verdict := queue.Submit(p.RequestAt(now));
      match verdict
      case Full => return -2, 0;
      case TooLarge => return -3, 0;
      case Invalid => return -1, 0;
      case Accepted(token, replaced) =>
        if replaced != 0 { Mark(replaced, Failed); }
        if !p.tracked { return 0, 0; }
        receipts[slot] := Receipt(token, Pending);
        return 0, token;
    }

    method FreeEntry() returns (slot: nat)
      requires Valid()
      ensures slot == FirstFreeEntry(receipts[..], RECEIPTS)
    {
      ghost var b: Book := receipts[..];
      slot := RECEIPTS;
      for i := 0 to RECEIPTS
        invariant slot == RECEIPTS && FirstFreeEntry(b, i) == RECEIPTS
      {
        if receipts[i].token == 0 {
          FirstFreeFound(b, i, RECEIPTS);
          return i;
        }
      }
    }

    method Expire(now: nat)
      requires Valid()
      modifies queue, queue.slots, receipts
      ensures Valid() && State() == Expiring(old(State()), now)
    {
      ghost var b: Book := receipts[..];
      var expired := queue.Expire(now);
      for i := 0 to |expired|
        invariant Valid() && receipts[..] == AllMarked(b, expired[..i], Failed)
        invariant queue.Contents() == AfterExpire(old(queue.Contents()), now)
      {
        assert expired[..i + 1][..i] == expired[..i];
        Mark(expired[i], Failed);
      }
      assert expired[..|expired|] == expired;
    }

    method Conclude(slot: nat, item: Item, rc: int, now: nat)
      requires Valid()
      modifies queue, queue.slots, receipts
      ensures Valid() && State() == Concluding(old(State()), slot, item, rc, now)
    {
      var _ := queue.Finish(slot, item.token, if rc >= 0 then Sent else Retry, now, now + RETRY_MS);
      if rc >= 0 {
        Mark(item.token, SdkAccepted);
      } else if item.request.deadline != 0 && now >= item.request.deadline {
        Mark(item.token, Failed);
      }
    }

    method Take(token: nat) returns (status: Status)
      requires Valid()
      modifies receipts
      ensures Valid() && (receipts[..], status) == Taking(old(receipts[..]), token)
    {
      ghost var b: Book := receipts[..];
      status := Unknown;
      if token == 0 { return; }
      for i := 0 to RECEIPTS
        invariant receipts[..] == b && FindEntry(b, token, i) == i && status == Unknown
      {
        if receipts[i].token == token {
          FindFound(b, token, i, RECEIPTS);
          status := receipts[i].status;
          if status != Pending { receipts[i] := receipts[i].(token := 0); }
          return;
        }
      }
    }

    method Forget(token: nat)
      requires Valid()
      modifies receipts
      ensures Valid() && receipts[..] == Forgotten(old(receipts[..]), token, RECEIPTS)
    {
      ghost var b: Book := receipts[..];
      for i := 0 to RECEIPTS
        invariant receipts[..] == Forgotten(b, token, i)
      {
        assert receipts[..][i] == b[i];
        if receipts[i].token == token { receipts[i] := receipts[i].(token := 0); }
      }
    }
  }

  lemma {:induction false} FirstFreeFound(b: Book, at: nat, n: nat)
    requires at < n <= RECEIPTS && b[at].token == 0 && FirstFreeEntry(b, at) == RECEIPTS
    ensures FirstFreeEntry(b, n) == at
  {
    if at < n - 1 { FirstFreeFound(b, at, n - 1); }
  }

  lemma {:induction false} FindFound(b: Book, token: nat, at: nat, n: nat)
    requires at < n <= RECEIPTS && b[at].token == token && FindEntry(b, token, at) == at
    ensures FindEntry(b, token, n) == at
  {
    if at < n - 1 { FindFound(b, token, at, n - 1); }
  }

  // Whole runs of the sections, with the owner's claim kept between two of them.

  datatype Holding = Idle | Holding(slot: nat, item: Item)

  datatype World = World(h: History, book: Book, claim: Holding)

  datatype Section =
    | Publishes(open: bool, p: Publication)
    | Sweeps
    | ClaimsNext
    | ConcludesWith(rc: int)
    | Takes(token: nat)
    | Forgets(token: nat)

  datatype Moment = Moment(elapsed: nat, section: Section)

  const OUTSET: World := World(START, NO_RECEIPTS, Idle)

  /** A completion that names no slot: the queue is left alone. */
  const NO_CALL: Call := Finishes(CAPACITY, 0, Sent, 0)

  /** What a section asks of the queue. The owner works on one claim at a time. */
  function CallOf(w: World, section: Section, now: nat): Call {
    match section
    case Publishes(open, p) =>
      if !open || p.retain < 0 || 1 < p.retain || (p.tracked && FirstFreeEntry(w.book, RECEIPTS) == RECEIPTS) then NO_CALL
      else Submits(p.RequestAt(now))
    case Sweeps => Expires
    case ClaimsNext => if w.claim.Idle? then Claims else NO_CALL
    case ConcludesWith(rc) =>
      if w.claim.Idle? then NO_CALL
      else Finishes(w.claim.slot, w.claim.item.token, if rc >= 0 then Sent else Retry, now + RETRY_MS)
    case Takes(_) => NO_CALL
    case Forgets(_) => NO_CALL
  }

  function BookAfter(w: World, section: Section, now: nat): Book
    requires Sized(w.h.q)
  {
    var d := Desk(w.h.q, w.book);
    match section
    case Publishes(open, p) => Submitting(d, open, p, now).desk.book
    case Sweeps => Expiring(d, now).book
    case ClaimsNext => w.book
    case ConcludesWith(rc) =>
      if w.claim.Idle? then w.book else Concluding(d, w.claim.slot, w.claim.item, rc, now).book
    case Takes(token) => Taking(w.book, token).0
    case Forgets(token) => Forgotten(w.book, token, RECEIPTS)
  }

  function ClaimAfter(w: World, section: Section, now: nat): Holding
    requires Sized(w.h.q)
  {
    if section.ConcludesWith? then Idle
    else if section.ClaimsNext? && w.claim.Idle? then
      var at := AfterClaim(w.h.q, now).slot;
      if at == CAPACITY then Idle else Holding(at, AfterClaim(w.h.q, now).q.slots[at].item)
    else w.claim
  }

  function CallAt(w: World, m: Moment): Event { Event(m.elapsed, CallOf(w, m.section, w.h.now + m.elapsed)) }

  function Advance(w: World, m: Moment): (w': World)
    requires Sized(w.h.q)
    ensures Sized(w'.h.q)
  {
    var now := w.h.now + m.elapsed;
    World(Step(w.h, CallAt(w, m)), BookAfter(w, m.section, now),
          ClaimAfter(w, m.section, now))
  }

  function Run(run: seq<Moment>): (w: World)
    ensures Sized(w.h.q)
  {
    if run == [] then OUTSET else Advance(Run(run[..|run| - 1]), run[|run| - 1])
  }

  /** A step of the run leaves the queue exactly as the section of the firmware does. */
  lemma SectionsMoveTheQueue(w: World, m: Moment)
    requires Sized(w.h.q)
    ensures var now, d := w.h.now + m.elapsed, Desk(w.h.q, w.book);
            var q' := Advance(w, m).h.q;
            match m.section
            case Publishes(open, p) => q' == Submitting(d, open, p, now).desk.q
            case Sweeps => q' == Expiring(d, now).q
            case ClaimsNext => q' == if w.claim.Idle? then AfterClaim(d.q, now).q else d.q
            case ConcludesWith(rc) =>
              q' == if w.claim.Idle? then d.q else Concluding(d, w.claim.slot, w.claim.item, rc, now).q
            case Takes(_) => q' == d.q
            case Forgets(_) => q' == d.q
  {
  }

  // The fate of one token.

  datatype Ending = Open | Ended(fate: Fate)

  function EndingOf(log: seq<End>, token: nat): (e: Ending)
    ensures e.Open? <==> EndedTimes(log, token) == 0
  {
    if log == [] then Open
    else if log[|log| - 1].item.token == token then Ended(log[|log| - 1].fate)
    else EndingOf(log[..|log| - 1], token)
  }

  lemma {:induction false} EndingAppend(log: seq<End>, ends: seq<End>, token: nat)
    ensures EndingOf(log + ends, token)
         == if EndingOf(ends, token).Open? then EndingOf(log, token) else EndingOf(ends, token)
  {
    if ends == [] {
      assert log + ends == log;
    } else {
      EndingAppend(log, ends[..|ends| - 1], token);
      assert (log + ends)[..|log + ends| - 1] == log + ends[..|ends| - 1];
    }
  }

  lemma EndingOne(log: seq<End>, e: End, token: nat)
    ensures EndingOf(log + [e], token) == if e.item.token == token then Ended(e.fate) else EndingOf(log, token)
  {
    assert (log + [e])[..|log|] == log;
  }

  /** The tokens are those of the endings, all by expiry. */
  predicate Tell(ends: seq<End>, tokens: seq<nat>, token: nat) {
    EndingOf(ends, token) == if token in tokens then Ended(TimedOut) else Open
  }

  lemma TellOneMore(ends: seq<End>, tokens: seq<nat>, ends': seq<End>, tokens': seq<nat>, e: End, token: nat)
    requires Tell(ends, tokens, token) && e.fate == TimedOut && ends' == ends + [e] && tokens' == tokens + [e.item.token]
    ensures Tell(ends', tokens', token)
  {
    EndingOne(ends, e, token);
  }

  /** One slot of a sweep adds its ending to both lists, or nothing to either. */
  lemma DueTells(s: seq<Slot>, now: nat, token: nat, n: nat)
    requires 0 < n <= |s| && Tell(DueEnds(s, now, n - 1), DueTokens(s, now, n - 1), token)
    ensures Tell(DueEnds(s, now, n), DueTokens(s, now, n), token)
  {
    var (ends, tokens) := (DueEnds(s, now, n - 1), DueTokens(s, now, n - 1));
    if s[n - 1].Due(now) {
      TellOneMore(ends, tokens, DueEnds(s, now, n), DueTokens(s, now, n), EndOf(s[n - 1], TimedOut), token);
    } else {
      assert ends + [] == ends && tokens + [] == tokens;
    }
  }

  lemma {:induction false} EndingDue(s: seq<Slot>, now: nat, token: nat, n: nat)
    requires n <= |s|
    ensures Tell(DueEnds(s, now, n), DueTokens(s, now, n), token)
  {
    if n > 0 {
      EndingDue(s, now, token, n - 1);
      DueTells(s, now, token, n);
    }
  }

  function StatusOf(e: Ending): Status {
    match e case Open => Pending case Ended(fate) => if fate == Delivered then SdkAccepted else Failed
  }

  // The invariant.

  ghost predicate Truthful(b: Book, log: seq<End>, last: nat) {
    forall i :: 0 <= i < RECEIPTS && b[i].token != 0 ==>
      b[i].token <= last && b[i].status == StatusOf(EndingOf(log, b[i].token))
  }

  predicate Distinct(b: Book) {
    forall i, j :: 0 <= i < j < RECEIPTS && b[i].token != 0 ==> b[i].token != b[j].token
  }

  /** What the owner holds is what is in flight. */
  predicate InHand(w: World)
    requires Sized(w.h.q)
  {
    w.claim.Holding? ==>
      Concludes(w.h.q, w.claim.slot, w.claim.item.token) && w.h.q.slots[w.claim.slot].item == w.claim.item
  }

  ghost predicate Faithful(w: World) {
    Truthful(w.book, w.h.log, w.h.q.lastToken) && Distinct(w.book)
  }

  /** One ending, and the receipts for its token set to what it means. */
  lemma MarkedTruth(b: Book, log: seq<End>, last: nat, e: End, last': nat)
    requires Truthful(b, log, last) && Distinct(b) && last <= last'
    ensures Truthful(Marked(b, e.item.token, StatusOf(Ended(e.fate)), RECEIPTS), log + [e], last')
    ensures Distinct(Marked(b, e.item.token, StatusOf(Ended(e.fate)), RECEIPTS))
  {
    forall t: nat
      ensures EndingOf(log + [e], t) == if e.item.token == t then Ended(e.fate) else EndingOf(log, t)
    {
      EndingOne(log, e, t);
    }
  }

  lemma NewEntryTruth(b: Book, log: seq<End>, last: nat, slot: nat)
    requires Truthful(b, log, last) && Distinct(b)
    requires slot < RECEIPTS && b[slot].token == 0 && EndedTimes(log, last + 1) == 0
    ensures Truthful(b[slot := Receipt(last + 1, Pending)], log, last + 1)
    ensures Distinct(b[slot := Receipt(last + 1, Pending)])
  {
  }

  lemma {:induction false} PublishBook(q: Queue, log: seq<End>, b: Book, open: bool, p: Publication, now: nat)
    requires Sized(q) && Accounted(q, log) && Placed(q, log) && Truthful(b, log, q.lastToken) && Distinct(b)
    requires open && 0 <= p.retain <= 1 && (p.tracked ==> FirstFreeEntry(b, RECEIPTS) != RECEIPTS)
    ensures var r := p.RequestAt(now);
            var b' := Submitting(Desk(q, b), open, p, now).desk.book;
            Truthful(b', log + SubmitEnds(q, r), AfterSubmit(q, r).q.lastToken) && Distinct(b')
  {
    var r := p.RequestAt(now);
    var slot := FirstFreeEntry(b, RECEIPTS);
    assert log + [] == log;
    match AfterSubmit(q, r).verdict
    case Accepted(token, replaced) =>
      NewTokenUnseen(q, log);
      if replaced != 0 {
        ReplacedBook(q, log, b, LastSuperseded(q.slots, r, CAPACITY), p.tracked, slot);
      } else if p.tracked {
        NewEntryTruth(b, log, q.lastToken, slot);
      }
    case _ =>
  }

  lemma NewTokenUnseen(q: Queue, log: seq<End>)
    requires Sized(q) && Accounted(q, log)
    ensures HeldTimes(q.slots, q.lastToken + 1, CAPACITY) == 0 && EndedTimes(log, q.lastToken + 1) == 0
  {
    assert HeldTimes(q.slots, q.lastToken + 1, CAPACITY) + EndedTimes(log, q.lastToken + 1) == 0;
  }

  lemma ReplacedBook(q: Queue, log: seq<End>, b: Book, older: nat, tracked: bool, slot: nat)
    requires Sized(q) && Placed(q, log) && Truthful(b, log, q.lastToken) && Distinct(b)
    requires older < CAPACITY && q.slots[older].Held? && EndedTimes(log, q.lastToken + 1) == 0
    requires tracked ==> slot < RECEIPTS && b[slot].token == 0
    ensures var e := EndOf(q.slots[older], Replaced);
            var marked := Marked(b, e.item.token, Failed, RECEIPTS);
            var b' := if tracked then marked[slot := Receipt(q.lastToken + 1, Pending)] else marked;
            Truthful(b', log + [e], q.lastToken + 1) && Distinct(b')
  {
    var e := EndOf(q.slots[older], Replaced);
    MarkedTruth(b, log, q.lastToken, e, q.lastToken + 1);
    MarkedTruth(b, log, q.lastToken, e, q.lastToken);
    EndedAppend(log, e, q.lastToken + 1);
    if tracked { NewEntryTruth(Marked(b, e.item.token, Failed, RECEIPTS), log + [e], q.lastToken, slot); }
  }

  lemma SweepBook(q: Queue, log: seq<End>, b: Book, now: nat)
    requires Sized(q) && Truthful(b, log, q.lastToken) && Distinct(b)
    ensures var b' := Expiring(Desk(q, b), now).book;
            Truthful(b', log + DueEnds(q.slots, now, CAPACITY), q.lastToken) && Distinct(b')
  {
    var ends := DueEnds(q.slots, now, CAPACITY);
    forall i | 0 <= i < RECEIPTS
      ensures EndingOf(log + ends, b[i].token)
           == if b[i].token in DueTokens(q.slots, now, CAPACITY) then Ended(TimedOut) else EndingOf(log, b[i].token)
    {
      EndingAppend(log, ends, b[i].token);
      EndingDue(q.slots, now, b[i].token, CAPACITY);
    }
  }

  lemma ConcludeBook(q: Queue, log: seq<End>, b: Book, slot: nat, rc: int, now: nat)
    requires Sized(q) && Truthful(b, log, q.lastToken) && Distinct(b)
    requires slot < CAPACITY && q.slots[slot].Held? && q.slots[slot].inflight
    ensures var b' := Concluding(Desk(q, b), slot, q.slots[slot].item, rc, now).book;
            var log' := log + FinishEnds(q, slot, if rc >= 0 then Sent else Retry, now);
            Truthful(b', log', q.lastToken) && Distinct(b')
  {
    assert log + [] == log;
    if rc >= 0 || q.slots[slot].item.request.Expired(now) {
      MarkedTruth(b, log, q.lastToken, EndOf(q.slots[slot], if rc >= 0 then Delivered else TimedOut), q.lastToken);
    }
  }

  lemma TakeBook(b: Book, log: seq<End>, last: nat, token: nat)
    requires Truthful(b, log, last) && Distinct(b)
    ensures Truthful(Taking(b, token).0, log, last) && Distinct(Taking(b, token).0)
    ensures Truthful(Forgotten(b, token, RECEIPTS), log, last) && Distinct(Forgotten(b, token, RECEIPTS))
  {
  }

  lemma PublishFaithful(w: World, m: Moment)
    requires Sized(w.h.q) && Accounted(w.h.q, w.h.log) && Placed(w.h.q, w.h.log) && Faithful(w) && m.section.Publishes?
    ensures Faithful(Advance(w, m))
  {
    var now := w.h.now + m.elapsed;
    if CallOf(w, m.section, now) != NO_CALL {
      PublishedTo(w, Advance(w, m), m.section.open, m.section.p, now);
    }
  }

  lemma PublishedTo(w: World, w': World, open: bool, p: Publication, now: nat)
    requires Sized(w.h.q) && Accounted(w.h.q, w.h.log) && Placed(w.h.q, w.h.log) && Faithful(w)
    requires open && 0 <= p.retain <= 1 && (p.tracked ==> FirstFreeEntry(w.book, RECEIPTS) != RECEIPTS)
    requires w'.book == Submitting(Desk(w.h.q, w.book), open, p, now).desk.book
    requires w'.h.log == w.h.log + SubmitEnds(w.h.q, p.RequestAt(now))
    requires w'.h.q.lastToken == AfterSubmit(w.h.q, p.RequestAt(now)).q.lastToken
    ensures Faithful(w')
  {
    PublishBook(w.h.q, w.h.log, w.book, open, p, now);
  }

  lemma SweepFaithful(w: World, m: Moment)
    requires Sized(w.h.q) && Faithful(w) && m.section.Sweeps?
    ensures Faithful(Advance(w, m))
  {
    SweptTo(w, Advance(w, m), w.h.now + m.elapsed);
  }

  lemma SweptTo(w: World, w': World, now: nat)
    requires Sized(w.h.q) && Faithful(w)
    requires w'.book == Expiring(Desk(w.h.q, w.book), now).book
    requires w'.h.log == w.h.log + DueEnds(w.h.q.slots, now, CAPACITY) && w'.h.q.lastToken == w.h.q.lastToken
    ensures Faithful(w')
  {
    SweepBook(w.h.q, w.h.log, w.book, now);
  }

  lemma ConcludeFaithful(w: World, m: Moment)
    requires Sized(w.h.q) && InHand(w) && Faithful(w) && m.section.ConcludesWith?
    ensures Faithful(Advance(w, m))
  {
    if w.claim.Holding? { ConcludedTo(w, Advance(w, m), w.claim.slot, m.section.rc, w.h.now + m.elapsed); }
  }

  lemma ConcludedTo(w: World, w': World, slot: nat, rc: int, now: nat)
    requires Sized(w.h.q) && Faithful(w) && slot < CAPACITY && w.h.q.slots[slot].Held? && w.h.q.slots[slot].inflight
    requires w'.book == Concluding(Desk(w.h.q, w.book), slot, w.h.q.slots[slot].item, rc, now).book
    requires w'.h.log == w.h.log + FinishEnds(w.h.q, slot, if rc >= 0 then Sent else Retry, now)
    requires w'.h.q.lastToken == w.h.q.lastToken
    ensures Faithful(w')
  {
    ConcludeBook(w.h.q, w.h.log, w.book, slot, rc, now);
  }

  lemma ReaderFaithful(w: World, m: Moment)
    requires Sized(w.h.q) && Faithful(w) && (m.section.Takes? || m.section.Forgets? || m.section.ClaimsNext?)
    ensures Faithful(Advance(w, m))
  {
    if m.section.Takes? { TakeBook(w.book, w.h.log, w.h.q.lastToken, m.section.token); }
    if m.section.Forgets? { TakeBook(w.book, w.h.log, w.h.q.lastToken, m.section.token); }
  }

  lemma SubmitSparesInflight(q: Queue, r: Request, at: nat)
    requires Sized(q) && at < CAPACITY && q.slots[at].Held? && q.slots[at].inflight
    ensures AfterSubmit(q, r).q.slots[at] == q.slots[at]
  {
  }

  /** The slot in flight is touched only by its own completion. */
  lemma HandKept(w: World, m: Moment)
    requires Sized(w.h.q) && InHand(w)
    ensures InHand(Advance(w, m))
  {
    var w' := Advance(w, m);
    if w.claim.Holding? && !m.section.ConcludesWith? {
      if m.section.Publishes? {
        SubmitSparesInflight(w.h.q, m.section.p.RequestAt(w.h.now + m.elapsed), w.claim.slot);
      }
      assert w'.h.q.slots[w.claim.slot] == w.h.q.slots[w.claim.slot];
    }
  }

  /** The queue calls a run of sections makes. */
  function CallsOf(run: seq<Moment>): seq<Event> {
    if run == [] then []
    else
      var w, m := Run(run[..|run| - 1]), run[|run| - 1];
      CallsOf(run[..|run| - 1]) + [CallAt(w, m)]
  }

  lemma OneMoreCall(calls: seq<Event>, e: Event)
    ensures Execute(calls + [e]) == Step(Execute(calls), e)
  {
    assert (calls + [e])[..|calls + [e]| - 1] == calls;
  }

  lemma {:induction false} SectionsAreCalls(run: seq<Moment>)
    ensures Run(run).h == Execute(CallsOf(run))
  {
    if run != [] {
      var earlier := run[..|run| - 1];
      var w, m := Run(earlier), run[|run| - 1];
      SectionsAreCalls(earlier);
      OneMoreCall(CallsOf(earlier), CallAt(w, m));
      var h, e := w.h, CallAt(w, m);
      assert Advance(w, m).h == Step(h, e);
    }
  }

  lemma {:induction false} RunInHand(run: seq<Moment>)
    ensures InHand(Run(run))
  {
    if run != [] {
      RunInHand(run[..|run| - 1]);
      HandKept(Run(run[..|run| - 1]), run[|run| - 1]);
    }
  }

  lemma Ledgered(run: seq<Moment>)
    ensures var h := Run(run).h; Accounted(h.q, h.log) && Placed(h.q, h.log)
  {
    SectionsAreCalls(run);
    ReachedInvariant(CallsOf(run));
  }

  lemma {:induction false} RunFaithful(run: seq<Moment>)
    ensures Faithful(Run(run))
  {
    if run != [] {
      var w, m := Run(run[..|run| - 1]), run[|run| - 1];
      RunFaithful(run[..|run| - 1]);
      RunInHand(run[..|run| - 1]);
      if m.section.Publishes? { Ledgered(run[..|run| - 1]); PublishFaithful(w, m); }
      else if m.section.Sweeps? { SweepFaithful(w, m); }
      else if m.section.ConcludesWith? { ConcludeFaithful(w, m); }
      else { ReaderFaithful(w, m); }
    }
  }

  /** A receipt is pending exactly while its token is queued or in flight; otherwise it
      tells which way the token went. No token has two receipts. */
  lemma ReceiptsMirrorTheQueue(run: seq<Moment>, i: nat)
    requires i < RECEIPTS && Run(run).book[i].token != 0
    ensures var w := Run(run);
            var r := w.book[i];
            && (r.status == Pending <==> HeldTimes(w.h.q.slots, r.token, CAPACITY) == 1)
            && (r.status == SdkAccepted <==> EndingOf(w.h.log, r.token) == Ended(Delivered))
            && (r.status == Failed <==> EndedTimes(w.h.log, r.token) == 1 && EndingOf(w.h.log, r.token) != Ended(Delivered))
            && forall j :: 0 <= j < RECEIPTS && j != i ==> w.book[j].token != r.token
  {
    Ledgered(run);
    RunFaithful(run);
    var w := Run(run);
    var t := w.book[i].token;
    assert HeldTimes(w.h.q.slots, t, CAPACITY) + EndedTimes(w.h.log, t) == 1;
  }
}
