/** Device and server joined by a lossy channel: commands run at most once.

    One POST is one step. Its request or its answer may be lost, the answer may
    be too large or fail authentication, and a 2xx may come from something that is
    not the server at all, in which case the device forgets acknowledgements that
    nobody received. Neither side restarts, and the clock does not run backwards. */
module HttpDelivery {
  import opened HttpDevice
  import opened HttpServer

  datatype Policy = Policy(limit: int, maxAge: nat)

  /** `bodies[n - 1]` is what command number n was enqueued with; `ackCleared`
      lists the ids the server cleared because they were acknowledged. */
  datatype Sys = Sys(server: ServerState, device: DeviceState, now: nat,
                     bodies: seq<Body>, ackCleared: seq<Id>)

  datatype Fate =
    | Lost                  // the server processes nothing, the device sees no 2xx
    | Unanswered            // the server processes the request, the device sees no 2xx
    | Answered              // both sides see everything
    | Garbled(total: nat)   // the server processes, the device gets an unauthentic 2xx
    | Forged(total: nat)    // an unauthentic 2xx that never reached the server

  datatype Event = Wait(ms: nat) | Enqueue(body: Body, bytes: nat) | Post(fate: Fate)

  const INITIAL_SYS: Sys := Sys(ServerState([], 1), INITIAL, 0, [], [])

  function AckedIds(cs: seq<Command>, acked: seq<Id>): seq<Id> {
    if cs == [] then []
    else
      AckedIds(cs[..|cs| - 1], acked) + (if NotAcked(cs[|cs| - 1], acked) then [] else [cs[|cs| - 1].id])
  }

  /** do_POST: acknowledgements and refusals first, then whatever is still queued. */
  function Serve(policy: Policy, s: Sys): Sys {
    var told := AcksApplied(s.server, s.device.pending, s.device.rejected);
    s.(server := Taken(told, policy.limit, DEVICE_RESPONSE_MAX_BYTES, s.now, policy.maxAge).0,
       ackCleared := s.ackCleared + AckedIds(s.server.commands, s.device.pending))
  }

  /** The commands the server hands out in that POST; all but the byte count of
      the answer is in them. */
  function Answer(policy: Policy, s: Sys): seq<Command> {
    var told := AcksApplied(s.server, s.device.pending, s.device.rejected);
    var kept := Unexpired(told.commands, s.now, policy.maxAge);
    kept[..HandedOut(kept, policy.limit, DEVICE_RESPONSE_MAX_BYTES)]
  }

  function Step(policy: Policy, s: Sys, e: Event): Sys
    requires Bounded(s.device)
  {
    match e
    case Wait(ms) => s.(now := s.now + ms)
    case Enqueue(body, bytes) =>
      // ids of 48 characters would need a 46-digit number
      if ACK_ID_MAX <= |IdOf(s.server.nextId)| then s
      else s.(server := Enqueued(s.server, body, bytes, s.now), bodies := s.bodies + [body])
    case Post(Lost) => s.(device := AfterPost(s.device, Failed))
    case Post(Unanswered) => Serve(policy, s).(device := AfterPost(s.device, Failed))
    case Post(Answered) =>
      var answer := Answer(policy, s);
      Serve(policy, s).(device := AfterPost(s.device, Success(Size(answer), true, Wires(answer))))
    case Post(Garbled(total)) =>
      Serve(policy, s).(device := AfterPost(s.device, Success(total, false, [])))
    case Post(Forged(total)) => s.(device := AfterPost(s.device, Success(total, false, [])))
  }

  // ---- Invariant --------------------------------------------------------------

  function NumberOf(id: Id): int { if |id| < 2 then 0 else Value(id[2..]) }

  lemma NumberOfId(n: nat)
    ensures NumberOf(IdOf(n)) == n
  {
    DecimalValue(n);
    PadValue(Decimal(n));
    assert IdOf(n)[2..] == Pad(Decimal(n));
  }

  /** The queue holds commands as they were enqueued, in order of number and age. */
  ghost predicate Queue(cs: seq<Command>, bodies: seq<Body>, now: nat) {
    && (forall c <- cs :: 1 <= c.number <= |bodies| && c.id == IdOf(c.number)
                          && |c.id| < ACK_ID_MAX && c.body == bodies[c.number - 1] && c.queuedAt <= now)
    && (forall i, j :: 0 <= i < j < |cs| ==> cs[i].number < cs[j].number && cs[i].queuedAt <= cs[j].queuedAt)
  }

  /** Dispatched ids are ids of encodable commands, in ascending number. */
  ghost predicate Log(xs: seq<Id>, bodies: seq<Body>) {
    && (forall x <- xs :: 1 <= NumberOf(x) <= |bodies| && x == IdOf(NumberOf(x))
                          && bodies[NumberOf(x) - 1] == Encodable)
    && (forall p, q :: 0 <= p < q < |xs| ==> NumberOf(xs[p]) < NumberOf(xs[q]))
  }

  ghost predicate Queued(cs: seq<Command>, id: Id) {
    exists c <- cs :: c.id == id
  }

  /** Nothing encodable is queued below what was dispatched, unless it ran itself. */
  ghost predicate NoGap(cs: seq<Command>, xs: seq<Id>) {
    forall c <- cs, x <- xs :: c.body == Encodable && c.number < NumberOf(x) ==> c.id in xs
  }

  /** Dispatched commands still queued are among the first eight, and whatever ran
      after one of them is still queued as well. */
  ghost predicate Clustered(cs: seq<Command>, xs: seq<Id>) {
    && (forall j :: 0 <= j < |cs| && cs[j].id in xs ==> j < CMDS_PER_RESP_MAX)
    && (forall p, q :: 0 <= p < q < |xs| && Queued(cs, xs[p]) ==> Queued(cs, xs[q]))
  }

  /** Only dispatched ids are acknowledged, and never a later one without an
      earlier one that is still queued. */
  ghost predicate Owed(cs: seq<Command>, xs: seq<Id>, pending: seq<Id>) {
    && (forall a <- pending :: a in xs)
    && (forall p, q :: 0 <= p < q < |xs| && xs[q] in pending && Queued(cs, xs[p]) ==> xs[p] in pending)
  }

  ghost predicate Refused(rejected: seq<Reject>, bodies: seq<Body>) {
    forall r <- rejected :: r.reason != BadId
                            && exists n :: 1 <= n <= |bodies| && r.id == IdOf(n) && bodies[n - 1] != Encodable
  }

  /** Each of the latest sixteen of `xs` stands in the slot its place gives it. */
  ghost predicate Latest(ring: seq<Id>, xs: seq<Id>)
    requires |ring| == EXEC_RING_MAX
  {
    forall i :: 0 <= i < |xs| < i + EXEC_RING_MAX + 1 ==> ring[i % EXEC_RING_MAX] == xs[i]
  }

  /** The ring holds the latest sixteen dispatched ids. */
  ghost predicate Ring(d: DeviceState) {
    && Bounded(d)
    && d.execIdx == |d.dispatched| % EXEC_RING_MAX
    && Latest(d.ring, d.dispatched)
    && (forall id <- d.ring :: id == "" || id in d.dispatched)
  }

  ghost predicate Invariant(s: Sys) {
    && s.server.nextId == |s.bodies| + 1
    && Queue(s.server.commands, s.bodies, s.now)
    && Log(s.device.dispatched, s.bodies)
    && NoGap(s.server.commands, s.device.dispatched)
    && Clustered(s.server.commands, s.device.dispatched)
    && Owed(s.server.commands, s.device.dispatched, s.device.pending)
    && Refused(s.device.rejected, s.bodies)
    && Ring(s.device)
    && s.device.evicted == []
    && (forall id <- s.ackCleared :: id in s.device.dispatched)
  }

  // ---- Thinning the queue -----------------------------------------------------

  lemma {:induction false} FilterMember<T>(keep: T -> bool, s: seq<T>, x: T)
    ensures x in Filter(keep, s) <==> x in s && keep(x)
  {
    if s != [] {
      FilterMember(keep, s[..|s| - 1], x);
      assert s == s[..|s| - 1] + [s[|s| - 1]];
    }
  }

  predicate Same(c: Command, c': Command) { c.(sent := 0) == c'.(sent := 0) }

  /** Command `c` stands in `cs`, at place `j` or later. */
  ghost predicate StandsFrom(cs: seq<Command>, j: nat, c: Command) {
    exists i :: j <= i < |cs| && Same(cs[i], c)
  }

  /** `cs'` is left of `cs` when some commands go: order stays, places only shrink. */
  ghost predicate Thinned(cs: seq<Command>, cs': seq<Command>) {
    && (forall j :: 0 <= j < |cs'| ==> StandsFrom(cs, j, cs'[j]))
    && (forall i, j :: 0 <= i < j < |cs'| ==> cs'[i].number < cs'[j].number && cs'[i].queuedAt <= cs'[j].queuedAt)
  }

  ghost predicate Ordered(cs: seq<Command>) {
    forall i, j :: 0 <= i < j < |cs| ==> cs[i].number < cs[j].number && cs[i].queuedAt <= cs[j].queuedAt
  }

  lemma {:induction false} FilterThins(keep: Command -> bool, cs: seq<Command>)
    requires Ordered(cs)
    ensures Thinned(cs, Filter(keep, cs))
    ensures |Filter(keep, cs)| <= |cs|
  {
    if cs != [] {
      var (front, last) := (cs[..|cs| - 1], cs[|cs| - 1]);
      FilterThins(keep, front);
      var (f, f') := (Filter(keep, front), Filter(keep, cs));
      forall j | 0 <= j < |f'| ensures StandsFrom(cs, j, f'[j]) {
        assert j < |f| ==> StandsFrom(front, j, f[j]);
        if j < |f| {
          var i :| j <= i < |front| && Same(front[i], f[j]);
          assert Same(cs[i], f'[j]);
        } else {
          assert Same(cs[|cs| - 1], f'[j]);
        }
      }
      forall i, j | 0 <= i < j < |f'| ensures f'[i].number < f'[j].number && f'[i].queuedAt <= f'[j].queuedAt {
        assert StandsFrom(front, i, f[i]);
        var k :| i <= k < |front| && Same(front[k], f[i]);
      }
    }
  }

  lemma ThinnedTransitive(a: seq<Command>, b: seq<Command>, c: seq<Command>)
    requires Thinned(a, b) && Thinned(b, c)
    ensures Thinned(a, c)
  {
    forall j | 0 <= j < |c| ensures StandsFrom(a, j, c[j]) {
      assert StandsFrom(b, j, c[j]);
      var k :| j <= k < |b| && Same(b[k], c[j]);
      assert StandsFrom(a, k, b[k]);
      var i :| k <= i < |a| && Same(a[i], b[k]);
      assert Same(a[i], c[j]);
    }
  }

  lemma {:induction false} RejectionThins(cs: seq<Command>, rejected: seq<Reject>)
    requires Ordered(cs)
    ensures Thinned(cs, WithoutRejected(cs, rejected)) && Ordered(WithoutRejected(cs, rejected))
    ensures forall c <- cs :: (forall r <- rejected :: !Names(r, c)) ==> c in WithoutRejected(cs, rejected)
  {
    if rejected == [] {
      forall j | 0 <= j < |cs| ensures StandsFrom(cs, j, cs[j]) { assert Same(cs[j], cs[j]); }
    } else {
      var r := rejected[|rejected| - 1];
      var before := WithoutRejected(cs, rejected[..|rejected| - 1]);
      var keep := (c: Command) => !Names(r, c);
      RejectionThins(cs, rejected[..|rejected| - 1]);
      FilterThins(keep, before);
      ThinnedTransitive(cs, before, Filter(keep, before));
      forall c <- cs | forall r <- rejected :: !Names(r, c) ensures c in WithoutRejected(cs, rejected) {
        FilterMember(keep, before, c);
      }
    }
  }

  lemma StampThins(cs: seq<Command>, k: nat)
    requires Ordered(cs) && k <= |cs|
    ensures Thinned(cs, Stamped(cs, k))
    ensures forall c <- cs :: Queued(Stamped(cs, k), c.id)
    ensures Wires(cs[..k]) == Wires(Stamped(cs, k)[..k])
  {
    var cs' := Stamped(cs, k);
    forall j | 0 <= j < |cs'| ensures StandsFrom(cs, j, cs'[j]) { assert Same(cs[j], cs'[j]); }
    forall c <- cs ensures Queued(cs', c.id) {
      var j :| 0 <= j < |cs| && cs[j] == c;
      assert cs'[j] in cs' && cs'[j].id == c.id;
    }
  }

  /** The queue once acknowledged, refused and expired commands are gone. */
  function Remaining(policy: Policy, s: Sys): seq<Command> {
    Unexpired(WithoutRejected(Cleared(s.server.commands, s.device.pending), s.device.rejected),
              s.now, policy.maxAge)
  }

  lemma RemainingThins(policy: Policy, s: Sys)
    requires Ordered(s.server.commands)
    ensures Thinned(s.server.commands, Remaining(policy, s)) && Ordered(Remaining(policy, s))
  {
    var cs := s.server.commands;
    var cleared := Cleared(cs, s.device.pending);
    var told := WithoutRejected(cleared, s.device.rejected);
    FilterThins((c: Command) => NotAcked(c, s.device.pending), cs);
    RejectionThins(cleared, s.device.rejected);
    FilterThins((c: Command) => Young(c, s.now, policy.maxAge), told);
    ThinnedTransitive(cs, cleared, told);
    ThinnedTransitive(cs, told, Remaining(policy, s));
  }

  lemma RemainingKeeps(policy: Policy, s: Sys, c: Command)
    requires Ordered(s.server.commands) && c in s.server.commands && !Removed(policy, s, c)
    ensures c in Remaining(policy, s)
  {
    var cleared := Cleared(s.server.commands, s.device.pending);
    FilterMember((c: Command) => NotAcked(c, s.device.pending), s.server.commands, c);
    FilterThins((c: Command) => NotAcked(c, s.device.pending), s.server.commands);
    RejectionThins(cleared, s.device.rejected);
    FilterMember((c: Command) => Young(c, s.now, policy.maxAge), WithoutRejected(cleared, s.device.rejected), c);
  }

  /** What one request leaves of the queue, and which commands survive it. */
  lemma ServeThins(policy: Policy, s: Sys)
    requires Ordered(s.server.commands)
    ensures Thinned(s.server.commands, Serve(policy, s).server.commands)
    ensures forall c <- s.server.commands | !Removed(policy, s, c) :: Queued(Serve(policy, s).server.commands, c.id)
    ensures |Answer(policy, s)| <= |Serve(policy, s).server.commands|
    ensures Wires(Answer(policy, s)) == Wires(Serve(policy, s).server.commands[..|Answer(policy, s)|])
  {
    var kept := Remaining(policy, s);
    var k := HandedOut(kept, policy.limit, DEVICE_RESPONSE_MAX_BYTES);
    assert Serve(policy, s).server.commands == Stamped(kept, k) && Answer(policy, s) == kept[..k];
    RemainingThins(policy, s);
    StampThins(kept, k);
    ThinnedTransitive(s.server.commands, kept, Stamped(kept, k));
    forall c <- s.server.commands | !Removed(policy, s, c) ensures Queued(Stamped(kept, k), c.id) {
      RemainingKeeps(policy, s, c);
    }
  }

  /** The reasons for which a request removes command `c`. */
  predicate Removed(policy: Policy, s: Sys, c: Command) {
    || c.id in s.device.pending
    || (exists r <- s.device.rejected :: Names(r, c))
    || !Young(c, s.now, policy.maxAge)
  }

  // ---- The server's half of a POST ---------------------------------------------

  /** The queue side of the invariant, for a queue, a log and the acks owed. */
  ghost predicate QueueSide(cs: seq<Command>, xs: seq<Id>, pending: seq<Id>, bodies: seq<Body>, now: nat) {
    && Queue(cs, bodies, now)
    && NoGap(cs, xs)
    && Clustered(cs, xs)
    && Owed(cs, xs, pending)
  }

  lemma QueuedBefore(cs: seq<Command>, cs': seq<Command>, id: Id)
    requires Thinned(cs, cs') && Queued(cs', id)
    ensures Queued(cs, id)
  {
    var c :| c in cs' && c.id == id;
    var j :| 0 <= j < |cs'| && cs'[j] == c;
    assert StandsFrom(cs, j, cs'[j]);
    var i :| j <= i < |cs| && Same(cs[i], cs'[j]);
    assert cs[i] in cs;
  }

  /** What removes a dispatched command removes every earlier one: a later one is
      never acknowledged without it, and is never older. */
  lemma RemovedTogether(policy: Policy, s: Sys, p: nat, q: nat, b: Command, c: Command)
    requires Invariant(s) && p < q < |s.device.dispatched|
    requires b in s.server.commands && b.id == s.device.dispatched[p]
    requires c in s.server.commands && c.id == s.device.dispatched[q] && Removed(policy, s, c)
    ensures b.id in s.device.pending || !Young(b, s.now, policy.maxAge)
  {
    RefusedNotDispatched(s, c);
    NumberOfId(b.number);
    NumberOfId(c.number);
    assert NumberOf(s.device.dispatched[p]) < NumberOf(s.device.dispatched[q]);
    assert b.queuedAt <= c.queuedAt;
    assert Queued(s.server.commands, s.device.dispatched[p]);
  }

  /** If a dispatched command stays, so does every later one. */
  lemma RemovalIsDownward(policy: Policy, s: Sys, p: nat, q: nat)
    requires Invariant(s) && p < q < |s.device.dispatched|
    requires Queued(s.server.commands, s.device.dispatched[p])
    requires Queued(Serve(policy, s).server.commands, s.device.dispatched[p])
    ensures Queued(Serve(policy, s).server.commands, s.device.dispatched[q])
  {
    var (cs, xs) := (s.server.commands, s.device.dispatched);
    ServeThins(policy, s);
    assert Queued(cs, xs[q]);
    var b :| b in cs && b.id == xs[p];
    var c :| c in cs && c.id == xs[q];
    if Removed(policy, s, c) {
      RemovedTogether(policy, s, p, q, b, c);
      RemovedIsGone(policy, s, b);
    }
  }

  lemma RefusedNotDispatched(s: Sys, c: Command)
    requires Invariant(s) && c in s.server.commands && c.id in s.device.dispatched
    ensures forall r <- s.device.rejected :: !Names(r, c)
  {
    forall r <- s.device.rejected ensures !Names(r, c) {
      var n :| 1 <= n <= |s.bodies| && r.id == IdOf(n) && s.bodies[n - 1] != Encodable;
      NumberOfId(n);
      assert s.bodies[NumberOf(c.id) - 1] == Encodable;
    }
  }

  lemma {:induction false} RejectionOnlyRemoves(cs: seq<Command>, rejected: seq<Reject>, c: Command)
    requires c in WithoutRejected(cs, rejected)
    ensures c in cs
  {
    if rejected != [] {
      var r := rejected[|rejected| - 1];
      FilterMember((c: Command) => !Names(r, c), WithoutRejected(cs, rejected[..|rejected| - 1]), c);
      RejectionOnlyRemoves(cs, rejected[..|rejected| - 1], c);
    }
  }

  lemma RemainingOnly(policy: Policy, s: Sys, c: Command)
    requires c in Remaining(policy, s)
    ensures c in s.server.commands && NotAcked(c, s.device.pending) && Young(c, s.now, policy.maxAge)
  {
    var cleared := Cleared(s.server.commands, s.device.pending);
    FilterMember((c: Command) => Young(c, s.now, policy.maxAge), WithoutRejected(cleared, s.device.rejected), c);
    RejectionOnlyRemoves(cleared, s.device.rejected, c);
    FilterMember((c: Command) => NotAcked(c, s.device.pending), s.server.commands, c);
  }

  /** Commands with one id in an ordered queue are one command. */
  lemma SameIdSameCommand(s: Sys, b: Command, c: Command)
    requires Queue(s.server.commands, s.bodies, s.now)
    requires b in s.server.commands && c in s.server.commands && b.id == c.id
    ensures b == c
  {
    NumberOfId(b.number);
    NumberOfId(c.number);
  }

  lemma RemovedIsGone(policy: Policy, s: Sys, c: Command)
    requires Invariant(s) && c in s.server.commands
    requires c.id in s.device.pending || !Young(c, s.now, policy.maxAge)
    ensures !Queued(Serve(policy, s).server.commands, c.id)
  {
    var kept := Remaining(policy, s);
    var k := HandedOut(kept, policy.limit, DEVICE_RESPONSE_MAX_BYTES);
    var cs' := Serve(policy, s).server.commands;
    assert cs' == Stamped(kept, k);
    if Queued(cs', c.id) {
      var j :| 0 <= j < |cs'| && cs'[j].id == c.id;
      RemainingOnly(policy, s, kept[j]);
      SameIdSameCommand(s, kept[j], c);
      assert false;
    }
  }

  /** Serving a request keeps the queue side of the invariant. */
  lemma ServeKeeps(policy: Policy, s: Sys)
    requires Invariant(s)
    ensures QueueSide(Serve(policy, s).server.commands, s.device.dispatched, s.device.pending, s.bodies, s.now)
  {
    var (cs, xs) := (s.server.commands, s.device.dispatched);
    var cs' := Serve(policy, s).server.commands;
    ServeThins(policy, s);
    forall p, q | 0 <= p < q < |xs| && Queued(cs', xs[p]) ensures Queued(cs', xs[q]) {
      RemovalIsDownward(policy, s, p, q);
    }
    ThinnedQueue(cs, cs', xs, s.bodies, s.now);
    ThinnedClustered(cs, cs', xs);
    ThinnedOwed(cs, cs', xs, s.device.pending);
  }

  lemma ThinnedQueue(cs: seq<Command>, cs': seq<Command>, xs: seq<Id>, bodies: seq<Body>, now: nat)
    requires Thinned(cs, cs') && Queue(cs, bodies, now) && NoGap(cs, xs)
    ensures Queue(cs', bodies, now) && NoGap(cs', xs)
  {
    forall c | c in cs' ensures exists b :: b in cs && Same(b, c) {
      var j :| 0 <= j < |cs'| && cs'[j] == c;
      assert StandsFrom(cs, j, cs'[j]);
      var i :| j <= i < |cs| && Same(cs[i], cs'[j]);
      assert cs[i] in cs;
    }
  }

  lemma ThinnedClustered(cs: seq<Command>, cs': seq<Command>, xs: seq<Id>)
    requires Thinned(cs, cs') && Clustered(cs, xs)
    requires forall p, q :: 0 <= p < q < |xs| && Queued(cs', xs[p]) ==> Queued(cs', xs[q])
    ensures Clustered(cs', xs)
  {
    forall j | 0 <= j < |cs'| && cs'[j].id in xs ensures j < CMDS_PER_RESP_MAX {
      assert StandsFrom(cs, j, cs'[j]);
      var i :| j <= i < |cs| && Same(cs[i], cs'[j]);
    }
  }

  lemma ThinnedOwed(cs: seq<Command>, cs': seq<Command>, xs: seq<Id>, pending: seq<Id>)
    requires Thinned(cs, cs') && Owed(cs, xs, pending)
    ensures Owed(cs', xs, pending)
  {
    forall id | Queued(cs', id) ensures Queued(cs, id) { QueuedBefore(cs, cs', id); }
  }

  lemma {:induction false} ClearedWereAcked(cs: seq<Command>, acked: seq<Id>)
    ensures forall id <- AckedIds(cs, acked) :: id in acked
  {
    if cs != [] { ClearedWereAcked(cs[..|cs| - 1], acked); }
  }

  // ---- The device's half of a POST ---------------------------------------------

  lemma OrderAgrees(cs: seq<Command>, bodies: seq<Body>, now: nat, i: nat, j: nat)
    requires Queue(cs, bodies, now) && i < |cs| && j < |cs|
    requires NumberOf(cs[i].id) < NumberOf(cs[j].id)
    ensures i < j
  {
    NumberOfId(cs[i].number);
    NumberOfId(cs[j].number);
  }

  /** A chain of elements each found to the right of the one before climbs. */
  lemma {:induction false} PlacesClimb(cs: seq<Command>, xs: seq<Id>, p: nat, q: nat)
    requires p <= q < |xs|
    requires forall r :: p <= r <= q ==> Queued(cs, xs[r])
    requires forall i, j, r :: p < r <= q && 0 <= i < |cs| && 0 <= j < |cs| && cs[i].id == xs[r - 1] && cs[j].id == xs[r] ==> i < j
    ensures exists j :: q - p <= j < |cs| && cs[j].id == xs[q]
    decreases q
  {
    assert Queued(cs, xs[q]);
    var c :| c in cs && c.id == xs[q];
    var j :| 0 <= j < |cs| && cs[j] == c;
    if p < q {
      PlacesClimb(cs, xs, p, q - 1);
      var i :| q - 1 - p <= i < |cs| && cs[i].id == xs[q - 1];
    }
  }

  /** Whatever ran after a dispatched command that is still queued is queued behind it. */
  lemma StillQueuedIsLate(cs: seq<Command>, xs: seq<Id>, bodies: seq<Body>, now: nat, p: nat)
    requires Queue(cs, bodies, now) && Log(xs, bodies) && Clustered(cs, xs)
    requires p < |xs| && Queued(cs, xs[p])
    ensures |xs| <= p + CMDS_PER_RESP_MAX
  {
    var last := |xs| - 1;
    forall i, j, r | p < r <= last && 0 <= i < |cs| && 0 <= j < |cs| && cs[i].id == xs[r - 1] && cs[j].id == xs[r]
      ensures i < j
    {
      assert NumberOf(xs[r - 1]) < NumberOf(xs[r]);
      OrderAgrees(cs, bodies, now, i, j);
    }
    PlacesClimb(cs, xs, p, last);
    var j :| last - p <= j < |cs| && cs[j].id == xs[last];
  }

  /** A dispatched command that is still queued is among the latest eight to run,
      so the ring of sixteen still remembers it. */
  lemma RingCovers(cs: seq<Command>, d: DeviceState, bodies: seq<Body>, now: nat, p: nat)
    requires Queue(cs, bodies, now) && Log(d.dispatched, bodies) && Clustered(cs, d.dispatched) && Ring(d)
    requires p < |d.dispatched| && Queued(cs, d.dispatched[p])
    ensures |d.dispatched| <= p + CMDS_PER_RESP_MAX
    ensures ExecSeen(d.ring, d.dispatched[p])
  {
    StillQueuedIsLate(cs, d.dispatched, bodies, now, p);
    assert d.ring[p % EXEC_RING_MAX] == d.dispatched[p];
    assert d.dispatched[p] in d.dispatched;
  }

  ghost predicate AmongFirst(cs: seq<Command>, k: nat, id: Id)
    requires k <= |cs|
  {
    exists j :: 0 <= j < k && cs[j].id == id
  }

  /** The device after the first `k` commands of an answer, begun in state `d0`. */
  ghost predicate Handling(cs: seq<Command>, bodies: seq<Body>, d0: DeviceState, d: DeviceState, k: nat)
    requires k <= |cs|
  {
    && Ring(d) && Log(d.dispatched, bodies) && Refused(d.rejected, bodies)
    && Progress(cs, d0, d, k)
  }

  /** Everything new was among those commands, everything that could run did, and
      what ran is acknowledged in the room there is. */
  ghost predicate Progress(cs: seq<Command>, d0: DeviceState, d: DeviceState, k: nat)
    requires k <= |cs|
  {
    var xs := d.dispatched;
    && d.evicted == []
    && d0.dispatched <= xs
    && (forall i :: |d0.dispatched| <= i < |xs| ==> AmongFirst(cs, k, xs[i]))
    && (forall j :: 0 <= j < k && cs[j].body == Encodable ==> cs[j].id in xs)
    && (forall j :: 0 <= j < k && cs[j].id in xs ==> cs[j].id in d.pending)
    && (forall a <- d.pending :: a in xs && AmongFirst(cs, k, a))
    && |d.pending| <= k
  }

  /** The system before the device handles an answer. */
  ghost predicate Before(cs: seq<Command>, bodies: seq<Body>, now: nat, d0: DeviceState) {
    && Queue(cs, bodies, now) && NoGap(cs, d0.dispatched) && Clustered(cs, d0.dispatched)
    && Log(d0.dispatched, bodies) && Ring(d0)
  }

  /** What was dispatched since is one of the commands of the answer handled so far. */
  lemma NewPlace(cs: seq<Command>, bodies: seq<Body>, now: nat, d0: DeviceState, d: DeviceState, k: nat, q: nat) returns (j: nat)
    requires Before(cs, bodies, now, d0) && k <= |cs| && Handling(cs, bodies, d0, d, k)
    requires |d0.dispatched| <= q < |d.dispatched|
    ensures j < k && cs[j].id == d.dispatched[q] && NumberOf(d.dispatched[q]) == cs[j].number
  {
    assert AmongFirst(cs, k, d.dispatched[q]);
    j :| 0 <= j < k && cs[j].id == d.dispatched[q];
    NumberOfId(cs[j].number);
  }

  /** Once a command of the answer was dispatched, all that ran lies below the next one. */
  lemma RanBelow(cs: seq<Command>, bodies: seq<Body>, now: nat, d0: DeviceState, d: DeviceState, k: nat, p: nat)
    requires Before(cs, bodies, now, d0) && k < |cs| && Handling(cs, bodies, d0, d, k)
    requires |d0.dispatched| < |d.dispatched| && p < |d.dispatched|
    ensures NumberOf(d.dispatched[p]) < NumberOf(cs[k].id)
  {
    var last := |d.dispatched| - 1;
    var j := NewPlace(cs, bodies, now, d0, d, k, last);
    LowerPlace(cs, bodies, now, j, k);
    NumberOfId(cs[k].number);
    assert p < last ==> NumberOf(d.dispatched[p]) < NumberOf(d.dispatched[last]);
  }

  /** The next command in the answer either is in the ring or never ran. */
  lemma SeenIffDispatched(cs: seq<Command>, bodies: seq<Body>, now: nat, d0: DeviceState, d: DeviceState, k: nat)
    requires Before(cs, bodies, now, d0) && k < |cs| && Handling(cs, bodies, d0, d, k)
    ensures cs[k].id in d.dispatched <==> ExecSeen(d.ring, cs[k].id)
  {
    var xs := d.dispatched;
    if cs[k].id in xs {
      var p :| 0 <= p < |xs| && xs[p] == cs[k].id;
      if |d0.dispatched| < |xs| { RanBelow(cs, bodies, now, d0, d, k, p); }
      assert xs == d0.dispatched;
      assert cs[k] in cs;
      RingCovers(cs, d, bodies, now, p);
    }
  }

  /** A command that never ran and can run carries a higher number than all that did. */
  lemma FreshIsHighest(cs: seq<Command>, bodies: seq<Body>, now: nat, d0: DeviceState, d: DeviceState, k: nat, i: nat)
    requires Before(cs, bodies, now, d0) && k < |cs| && Handling(cs, bodies, d0, d, k)
    requires cs[k].body == Encodable && cs[k].id !in d.dispatched && i < |d.dispatched|
    ensures NumberOf(d.dispatched[i]) < cs[k].number
  {
    var xs := d.dispatched;
    NumberOfId(cs[k].number);
    if i < |d0.dispatched| {
      assert xs[i] == d0.dispatched[i];
      assert xs[i] in d0.dispatched && cs[k] in cs;
    } else {
      var j := NewPlace(cs, bodies, now, d0, d, k, i);
      LowerPlace(cs, bodies, now, j, k);
    }
  }

  lemma LowerPlace(cs: seq<Command>, bodies: seq<Body>, now: nat, j: nat, k: nat)
    requires Queue(cs, bodies, now) && j < k < |cs|
    ensures NumberOf(cs[j].id) == cs[j].number < cs[k].number
  {
    NumberOfId(cs[j].number);
  }

  lemma LogAppend(xs: seq<Id>, bodies: seq<Body>, c: Command)
    requires Log(xs, bodies) && c.id == IdOf(c.number) && 1 <= c.number <= |bodies|
    requires bodies[c.number - 1] == Encodable
    requires forall i :: 0 <= i < |xs| ==> NumberOf(xs[i]) < c.number
    ensures Log(xs + [c.id], bodies)
  {
    NumberOfId(c.number);
  }

  lemma RingAppend(d: DeviceState, id: Id)
    requires Ring(d)
    ensures Ring(ExecAdd(d, id))
  {
    SlotsAppend(d.ring, d.dispatched, id);
    RingMembers(d.ring, d.dispatched, d.execIdx, id);
  }

  lemma SlotsAppend(ring: seq<Id>, xs: seq<Id>, id: Id)
    requires |ring| == EXEC_RING_MAX && Latest(ring, xs)
    ensures Latest(ring[|xs| % EXEC_RING_MAX := id], xs + [id])
    ensures (|xs| % EXEC_RING_MAX + 1) % EXEC_RING_MAX == |xs + [id]| % EXEC_RING_MAX
  {
    var ring' := ring[|xs| % EXEC_RING_MAX := id];
    forall i | 0 <= i < |xs + [id]| < i + EXEC_RING_MAX + 1 ensures ring'[i % EXEC_RING_MAX] == (xs + [id])[i] {
      if i < |xs| { OtherSlot(i, |xs|); }
    }
  }

  lemma RingMembers(ring: seq<Id>, xs: seq<Id>, at: nat, id: Id)
    requires at < |ring| && forall x <- ring :: x == "" || x in xs
    ensures forall x <- ring[at := id] :: x == "" || x in xs + [id]
  {
    forall x <- ring[at := id] ensures x == "" || x in xs + [id] {
      var i :| 0 <= i < |ring| && ring[at := id][i] == x;
      assert i != at ==> ring[i] in ring;
    }
  }

  lemma OtherSlot(i: nat, n: nat)
    requires i < n < i + EXEC_RING_MAX
    ensures i % EXEC_RING_MAX != n % EXEC_RING_MAX
  {
  }

  lemma RefusedAdd(rejected: seq<Reject>, bodies: seq<Body>, n: nat, reason: Reason)
    requires Refused(rejected, bodies) && reason != BadId
    requires 1 <= n <= |bodies| && bodies[n - 1] != Encodable && |IdOf(n)| < ACK_ID_MAX
    ensures Refused(RejAdd(rejected, IdOf(n), reason), bodies)
  {
    RejAddMembers(rejected, IdOf(n), reason);
    forall r <- RejAdd(rejected, IdOf(n), reason)
      ensures r.reason != BadId && exists m :: 1 <= m <= |bodies| && r.id == IdOf(m) && bodies[m - 1] != Encodable
    {
      if r == Reject(IdOf(n), reason) { assert r.id == IdOf(n); }
    }
  }

  lemma RejAddMembers(rejected: seq<Reject>, id: Id, reason: Reason)
    requires |id| < ACK_ID_MAX
    ensures forall r <- RejAdd(rejected, id, reason) :: r in rejected || r == Reject(id, reason)
  {
  }

  /** One command runs: it is logged, remembered and acknowledged. */
  lemma RunKeeps(cs: seq<Command>, bodies: seq<Body>, now: nat, d0: DeviceState, d: DeviceState, k: nat)
    requires Before(cs, bodies, now, d0) && k < |cs| && k < CMDS_PER_RESP_MAX && Handling(cs, bodies, d0, d, k)
    requires cs[k].body == Encodable && cs[k].id !in d.dispatched
    ensures Handling(cs, bodies, d0, AckAdd(ExecAdd(d, cs[k].id), cs[k].id), k + 1)
  {
    var c := cs[k];
    RingAppend(d, c.id);
    forall i | 0 <= i < |d.dispatched| ensures NumberOf(d.dispatched[i]) < c.number {
      FreshIsHighest(cs, bodies, now, d0, d, k, i);
    }
    LogAppend(d.dispatched, bodies, c);
    ProgressKeeps(cs, d0, d, k);
  }

  lemma ProgressKeeps(cs: seq<Command>, d0: DeviceState, d: DeviceState, k: nat)
    requires k < |cs| && k < CMDS_PER_RESP_MAX && Bounded(d) && Progress(cs, d0, d, k)
    requires cs[k].id !in d.dispatched
    ensures Progress(cs, d0, AckAdd(ExecAdd(d, cs[k].id), cs[k].id), k + 1)
  {
    var d' := AckAdd(ExecAdd(d, cs[k].id), cs[k].id);
    assert d'.dispatched == d.dispatched + [cs[k].id] && d'.pending == d.pending + [cs[k].id];
    AmongMore(cs, k, d.dispatched, d.pending);
  }

  lemma AmongMore(cs: seq<Command>, k: nat, xs: seq<Id>, pending: seq<Id>)
    requires k < |cs|
    ensures forall id: Id :: AmongFirst(cs, k, id) ==> AmongFirst(cs, k + 1, id)
    ensures AmongFirst(cs, k + 1, cs[k].id)
  {
    forall id: Id | AmongFirst(cs, k, id) ensures AmongFirst(cs, k + 1, id) {
      var j :| 0 <= j < k && cs[j].id == id;
    }
  }

  /** A command that already ran is acknowledged again, and nothing else. */
  lemma AckAgainKeeps(cs: seq<Command>, bodies: seq<Body>, d0: DeviceState, d: DeviceState, k: nat)
    requires k < |cs| && k < CMDS_PER_RESP_MAX && Handling(cs, bodies, d0, d, k)
    requires cs[k].id in d.dispatched
    ensures Handling(cs, bodies, d0, AckAdd(d, cs[k].id), k + 1)
  {
    AmongMore(cs, k, d.dispatched, d.pending);
  }

  lemma RefuseKeeps(cs: seq<Command>, bodies: seq<Body>, d0: DeviceState, d: DeviceState, k: nat, reason: Reason)
    requires k < |cs| && Handling(cs, bodies, d0, d, k) && reason != BadId
    requires cs[k].id !in d.dispatched && cs[k].body != Encodable && |cs[k].id| < ACK_ID_MAX
    requires 1 <= cs[k].number <= |bodies| && cs[k].id == IdOf(cs[k].number) && cs[k].body == bodies[cs[k].number - 1]
    ensures Handling(cs, bodies, d0, d.(rejected := RejAdd(d.rejected, cs[k].id, reason)), k + 1)
  {
    AmongMore(cs, k, d.dispatched, d.pending);
    RefusedAdd(d.rejected, bodies, cs[k].number, reason);
  }

  lemma HandleOneKeeps(cs: seq<Command>, bodies: seq<Body>, now: nat, d0: DeviceState, d: DeviceState, k: nat)
    requires Before(cs, bodies, now, d0) && k < |cs| && k < CMDS_PER_RESP_MAX && Handling(cs, bodies, d0, d, k)
    ensures Handling(cs, bodies, d0, HandleOne(d, Wired(cs[k])), k + 1)
  {
    SeenIffDispatched(cs, bodies, now, d0, d, k);
    var c := cs[k];
    assert c in cs;
    if c.id in d.dispatched { AckAgainKeeps(cs, bodies, d0, d, k); }
    else if c.body == Encodable { RunKeeps(cs, bodies, now, d0, d, k); }
    else { RefuseKeeps(cs, bodies, d0, d, k, if c.body == Unknown then UnsupportedCmd else BadArgs); }
  }

  lemma HandleAllLast(d0: DeviceState, cs: seq<Command>, k: nat)
    requires Bounded(d0) && 0 < k <= |cs|
    ensures HandleAll(d0, Wires(cs[..k])) == HandleOne(HandleAll(d0, Wires(cs[..k - 1])), Wired(cs[k - 1]))
  {
    var ws := Wires(cs[..k]);
    assert ws[..|ws| - 1] == Wires(cs[..k - 1]);
  }

  lemma {:induction false} HandleAllKeeps(cs: seq<Command>, bodies: seq<Body>, now: nat, d0: DeviceState, d: DeviceState, k: nat)
    requires Before(cs, bodies, now, d0) && k <= |cs| && k <= CMDS_PER_RESP_MAX
    requires d0.pending == [] && d0.rejected == [] && d0.evicted == []
    requires d == HandleAll(d0, Wires(cs[..k]))
    ensures Handling(cs, bodies, d0, d, k)
    decreases k
  {
    if k > 0 {
      var before := HandleAll(d0, Wires(cs[..k - 1]));
      HandleAllKeeps(cs, bodies, now, d0, before, k - 1);
      HandleAllLast(d0, cs, k);
      HandleOneKeeps(cs, bodies, now, d0, before, k - 1);
    }
  }

  // ---- Every step keeps the invariant ------------------------------------------

  /** Below what was dispatched since, everything that can run ran. */
  lemma RanSince(cs: seq<Command>, bodies: seq<Body>, now: nat, d0: DeviceState, d: DeviceState, k: nat, l: nat, i: nat)
    requires Before(cs, bodies, now, d0) && k <= |cs| && Handling(cs, bodies, d0, d, k)
    requires l < |cs| && cs[l].body == Encodable && |d0.dispatched| <= i < |d.dispatched|
    requires cs[l].number < NumberOf(d.dispatched[i])
    ensures cs[l].id in d.dispatched
  {
    var j := NewPlace(cs, bodies, now, d0, d, k, i);
    assert cs[l].number < cs[j].number;
    assert l < j;
  }

  /** And so it did below what was dispatched before. */
  lemma RanEarlier(cs: seq<Command>, before: seq<Id>, xs: seq<Id>, l: nat, i: nat)
    requires NoGap(cs, before) && before <= xs && l < |cs| && cs[l].body == Encodable && i < |before|
    requires cs[l].number < NumberOf(xs[i])
    ensures cs[l].id in xs
  {
    assert cs[l] in cs && before[i] in before && before[i] == xs[i];
    assert cs[l].id in before;
  }

  lemma HandledNoGap(cs: seq<Command>, bodies: seq<Body>, now: nat, d0: DeviceState, d: DeviceState, k: nat)
    requires Before(cs, bodies, now, d0) && k <= |cs| && Handling(cs, bodies, d0, d, k)
    ensures NoGap(cs, d.dispatched)
  {
    var xs := d.dispatched;
    forall c <- cs, x <- xs | c.body == Encodable && c.number < NumberOf(x) ensures c.id in xs {
      var l :| 0 <= l < |cs| && cs[l] == c;
      var i :| 0 <= i < |xs| && xs[i] == x;
      if i < |d0.dispatched| { RanEarlier(cs, d0.dispatched, xs, l, i); }
      else { RanSince(cs, bodies, now, d0, d, k, l, i); }
    }
  }

  /** What the device dispatched while handling an answer was queued, and early. */
  lemma HandledClustered(cs: seq<Command>, bodies: seq<Body>, now: nat, d0: DeviceState, d: DeviceState, k: nat)
    requires Before(cs, bodies, now, d0) && k <= |cs| && k <= CMDS_PER_RESP_MAX && Handling(cs, bodies, d0, d, k)
    ensures Clustered(cs, d.dispatched)
  {
    var xs := d.dispatched;
    forall j | 0 <= j < |cs| && cs[j].id in xs ensures j < CMDS_PER_RESP_MAX {
      if cs[j].id !in d0.dispatched {
        var i :| 0 <= i < |xs| && xs[i] == cs[j].id;
        var l := NewPlace(cs, bodies, now, d0, d, k, i);
        NumberOfId(cs[j].number);
      }
    }
    forall p, q | 0 <= p < q < |xs| && Queued(cs, xs[p]) ensures Queued(cs, xs[q]) {
      if q < |d0.dispatched| {
        assert xs[p] == d0.dispatched[p] && xs[q] == d0.dispatched[q];
      } else {
        var j := NewPlace(cs, bodies, now, d0, d, k, q);
        assert cs[j] in cs;
      }
    }
  }

  lemma HandledOwed(cs: seq<Command>, bodies: seq<Body>, now: nat, d0: DeviceState, d: DeviceState, k: nat)
    requires Before(cs, bodies, now, d0) && k <= |cs| && Handling(cs, bodies, d0, d, k)
    ensures Owed(cs, d.dispatched, d.pending)
  {
    var xs := d.dispatched;
    forall p, q | 0 <= p < q < |xs| && xs[q] in d.pending && Queued(cs, xs[p]) ensures xs[p] in d.pending {
      var j :| 0 <= j < k && cs[j].id == xs[q];
      var c :| c in cs && c.id == xs[p];
      var l :| 0 <= l < |cs| && cs[l] == c;
      assert NumberOf(xs[p]) < NumberOf(xs[q]);
      OrderAgrees(cs, bodies, now, l, j);
    }
  }

  /** The device once it has dropped what a 2xx covers. */
  function Told(d: DeviceState): DeviceState {
    d.(pending := DropFront(d.pending, |d.pending|), rejected := DropFront(d.rejected, |d.rejected|),
       respDropped := false)
  }

  lemma ServedInvariant(policy: Policy, s: Sys)
    requires Invariant(s)
    ensures Invariant(Serve(policy, s))
  {
    ServeKeeps(policy, s);
    ClearedWereAcked(s.server.commands, s.device.pending);
  }

  lemma ToldInvariant(s: Sys, dropped: bool)
    requires Invariant(s)
    ensures Invariant(s.(device := Told(s.device).(respDropped := dropped)))
  {
  }

  lemma AnsweredInvariant(policy: Policy, s: Sys)
    requires Invariant(s)
    ensures Invariant(Step(policy, s, Post(Answered)))
  {
    var served := Serve(policy, s);
    var cs := served.server.commands;
    var answer := Answer(policy, s);
    var d0 := Told(s.device);
    ServedInvariant(policy, s);
    ServeThins(policy, s);
    if RESP_MAX - 1 < Size(answer) {
      ToldInvariant(served, true);
    } else {
      var k := if |answer| <= CMDS_PER_RESP_MAX then |answer| else CMDS_PER_RESP_MAX;
      assert AtMost(Wires(answer), CMDS_PER_RESP_MAX) == Wires(cs[..k]);
      var d := HandleAll(d0, Wires(cs[..k]));
      HandleAllKeeps(cs, s.bodies, s.now, d0, d, k);
      HandledNoGap(cs, s.bodies, s.now, d0, d, k);
      HandledClustered(cs, s.bodies, s.now, d0, d, k);
      HandledOwed(cs, s.bodies, s.now, d0, d, k);
      assert Step(policy, s, Post(Answered)) == served.(device := d);
    }
  }

  /** A new command carries a number that nothing dispatched has reached. */
  lemma NewIsFresh(cs: seq<Command>, xs: seq<Id>, bodies: seq<Body>, c: Command)
    requires Log(xs, bodies) && c.id == IdOf(c.number) && c.number == |bodies| + 1
    ensures c.id !in xs
    ensures forall id: Id :: Queued(cs + [c], id) && id in xs ==> Queued(cs, id)
    ensures forall id: Id :: Queued(cs, id) ==> Queued(cs + [c], id)
  {
    NumberOfId(c.number);
    forall id: Id | Queued(cs + [c], id) && id in xs ensures Queued(cs, id) {
      var b :| b in cs + [c] && b.id == id;
      assert b in cs;
    }
    forall id: Id | Queued(cs, id) ensures Queued(cs + [c], id) {
      var b :| b in cs && b.id == id;
      assert b in cs + [c];
    }
  }

  lemma EnqueueKeepsQueue(cs: seq<Command>, bodies: seq<Body>, now: nat, c: Command, body: Body)
    requires Queue(cs, bodies, now) && c.number == |bodies| + 1 && c.id == IdOf(c.number)
    requires |c.id| < ACK_ID_MAX && c.queuedAt == now && c.body == body
    ensures Queue(cs + [c], bodies + [body], now)
  {
  }

  lemma EnqueueKeepsLog(cs: seq<Command>, xs: seq<Id>, rejected: seq<Reject>, bodies: seq<Body>, c: Command, body: Body)
    requires Log(xs, bodies) && NoGap(cs, xs) && Refused(rejected, bodies)
    requires c.number == |bodies| + 1 && c.id == IdOf(c.number)
    ensures Log(xs, bodies + [body]) && NoGap(cs + [c], xs) && Refused(rejected, bodies + [body])
  {
    forall r <- rejected
      ensures exists n :: 1 <= n <= |bodies + [body]| && r.id == IdOf(n) && (bodies + [body])[n - 1] != Encodable
    {
      var n :| 1 <= n <= |bodies| && r.id == IdOf(n) && bodies[n - 1] != Encodable;
      assert (bodies + [body])[n - 1] == bodies[n - 1];
    }
  }

  lemma EnqueueKeepsOrder(cs: seq<Command>, xs: seq<Id>, pending: seq<Id>, bodies: seq<Body>, c: Command)
    requires Log(xs, bodies) && Clustered(cs, xs) && Owed(cs, xs, pending)
    requires c.number == |bodies| + 1 && c.id == IdOf(c.number)
    ensures Clustered(cs + [c], xs) && Owed(cs + [c], xs, pending)
  {
    NewIsFresh(cs, xs, bodies, c);
  }

  lemma EnqueueInvariant(policy: Policy, s: Sys, body: Body, bytes: nat)
    requires Invariant(s)
    ensures Invariant(Step(policy, s, Enqueue(body, bytes)))
  {
    var cs := s.server.commands;
    var n := s.server.nextId;
    if |IdOf(n)| < ACK_ID_MAX {
      var c := Command(n, IdOf(n), body, s.now, 0, bytes);
      EnqueueKeepsQueue(cs, s.bodies, s.now, c, body);
      EnqueueKeepsLog(cs, s.device.dispatched, s.device.rejected, s.bodies, c, body);
      EnqueueKeepsOrder(cs, s.device.dispatched, s.device.pending, s.bodies, c);
    }
  }

  lemma StepInvariant(policy: Policy, s: Sys, e: Event)
    requires Invariant(s)
    ensures Invariant(Step(policy, s, e))
  {
    match e
    case Wait(_) =>
    case Enqueue(body, bytes) => EnqueueInvariant(policy, s, body, bytes);
    case Post(Lost) =>
    case Post(Unanswered) => ServedInvariant(policy, s);
    case Post(Answered) => AnsweredInvariant(policy, s);
    case Post(Garbled(total)) =>
      ServedInvariant(policy, s);
      ToldInvariant(Serve(policy, s), RESP_MAX - 1 < total);
    case Post(Forged(total)) => ToldInvariant(s, RESP_MAX - 1 < total);
  }

  // ---- Theorems over every run -------------------------------------------------

  /** `Step` is total: the device's arrays have the sizes they were declared with. */
  function Next(policy: Policy, s: Sys, e: Event): Sys {
    if Bounded(s.device) then Step(policy, s, e) else s
  }

  function Execute(policy: Policy, run: seq<Event>): Sys {
    if run == [] then INITIAL_SYS
    else Next(policy, Execute(policy, run[..|run| - 1]), run[|run| - 1])
  }

  lemma {:induction false} ReachedInvariant(policy: Policy, run: seq<Event>)
    ensures Invariant(Execute(policy, run))
  {
    if run != [] {
      ReachedInvariant(policy, run[..|run| - 1]);
      StepInvariant(policy, Execute(policy, run[..|run| - 1]), run[|run| - 1]);
    }
  }

  /** Whatever the channel loses, repeats its answer to or forges: no command id is
      dispatched twice, an id is cleared as acknowledged only if it was dispatched,
      and no acknowledgement is ever pushed out of the device's list. */
  lemma AtMostOnce(policy: Policy, run: seq<Event>)
    ensures var s := Execute(policy, run);
            && (forall i, j :: 0 <= i < j < |s.device.dispatched| ==> s.device.dispatched[i] != s.device.dispatched[j])
            && (forall id <- s.ackCleared :: id in s.device.dispatched)
            && s.device.evicted == []
  {
    ReachedInvariant(policy, run);
    var xs := Execute(policy, run).device.dispatched;
    forall i, j | 0 <= i < j < |xs| ensures xs[i] != xs[j] {
      assert NumberOf(xs[i]) < NumberOf(xs[j]);
    }
  }

  /** A dispatched command that the server still queues is among the latest eight
      the device ran, and the ring of sixteen recognises it. */
  lemma RingRemembers(policy: Policy, run: seq<Event>, c: Command)
    requires c in Execute(policy, run).server.commands && c.id in Execute(policy, run).device.dispatched
    ensures var d := Execute(policy, run).device;
            && ExecSeen(d.ring, c.id)
            && c.id in d.dispatched[if |d.dispatched| < CMDS_PER_RESP_MAX then 0 else |d.dispatched| - CMDS_PER_RESP_MAX..]
  {
    ReachedInvariant(policy, run);
    var s := Execute(policy, run);
    var xs := s.device.dispatched;
    var p :| 0 <= p < |xs| && xs[p] == c.id;
    RingCovers(s.server.commands, s.device, s.bodies, s.now, p);
    var from := if |xs| < CMDS_PER_RESP_MAX then 0 else |xs| - CMDS_PER_RESP_MAX;
    assert xs[from..][p - from] == c.id;
  }

  /** With a positive limit the server never sends what the device must drop. */
  lemma AnswerFits(policy: Policy, s: Sys)
    requires policy.limit > 0
    ensures Size(Answer(policy, s)) <= RESP_MAX - 1
  {
  }
}
