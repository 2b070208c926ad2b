/** The MQTT packet identity guard: which PUBACK proves which publication.

    `GuardState` is the record the C code updates in place; the functions on it
    specify one call each, and the class `PacketGuard` carries them out field by
    field. The first half of the file is that specification, the second the
    identity theorem: whatever packet ids are reported and whatever callbacks
    arrive, the ids accepted between two identity resets are pairwise distinct. */
module MqttPacketGuard {

  const BUDGET: nat := 60000
  const EARLY_ACKS: nat := 8
  const UINT16_MAX: nat := 65535
  const UINT64_MAX: nat := 0xFFFF_FFFF_FFFF_FFFF

  datatype ProbeState = Idle | Arming | Pending | Acked | Retired | Failed | Expired

  datatype EarlyAck = EarlyAck(packetId: int, receivedMs: nat)

  /** Packet id bookkeeping: the attempts of the current identity epoch, the
      serial of the latest SDK operation and the id it reported. */
  datatype Ids = Ids(attempts: nat, sinceId: nat, serial: nat, completedSerial: nat,
                     completedId: int, lastId: int, haveLast: bool)

  datatype Probe = Probe(state: ProbeState, token: nat, generation: nat, serial: nat,
                         startedMs: nat, timeoutMs: nat, packetId: int)
  {
    predicate Active() { state == Arming || state == Pending }

    /** The probe window is half open: its last millisecond is too late. */
    predicate Within(nowMs: nat) {
      startedMs <= nowMs && nowMs - startedMs < timeoutMs
    }
  }

  datatype Proof = Proof(atMs: nat, generation: nat, valid: bool)

  datatype GuardState = GuardState(
    generation: nat,
    connected: bool,
    pending: bool,
    unsafe: bool,
    resetArmed: bool,
    boundarySeen: bool,
    ids: Ids,
    probe: Probe,
    early: seq<EarlyAck>,
    proof: Proof)
  {
    /** The probe leaves the race in state `to`, with its evidence and proof. */
    function Leave(to: ProbeState): GuardState {
      this.(probe := probe.(state := to), early := [], proof := proof.(valid := false))
    }
  }

  /** What one call leaves behind and what it tells its caller. */
  datatype Outcome = Outcome(g: GuardState, ok: bool)

  const FRESH_IDS: Ids := Ids(0, 0, 0, 0, -1, 0, false)
  const NO_PROBE: Probe := Probe(Idle, 0, 0, 0, 0, 0, 0)
  const INITIAL: GuardState :=
    GuardState(0, false, false, false, false, false, FRESH_IDS, NO_PROBE, [], Proof(0, 0, false))

  function Retire(g: GuardState): GuardState {
    g.Leave(Retired)
  }

  function MarkUnsafe(g: GuardState): Outcome {
    Outcome(g.(unsafe := true).Leave(Failed), false)
  }

  function AcceptAck(g: GuardState, receivedMs: nat): Outcome {
    if !g.probe.Within(receivedMs) then
      Outcome(g.(probe := g.probe.(state := Expired), proof := g.proof.(valid := false)), false)
    else
      Outcome(g.(probe := g.probe.(state := Acked), early := [],
                 proof := Proof(receivedMs, g.generation, true)), true)
  }

  function PacketBegin(g: GuardState): Outcome {
    if g.pending || g.ids.serial == UINT64_MAX then MarkUnsafe(g)
    else if g.unsafe || g.resetArmed || BUDGET <= g.ids.attempts then Outcome(g, false)
    else Outcome(g.(ids := g.ids.(attempts := g.ids.attempts + 1, sinceId := g.ids.sinceId + 1,
                                  serial := g.ids.serial + 1),
                    pending := true), true)
  }

  /** Steps from id a to id b on the circle 1..65535 (zero is never an id). */
  function Distance(a: int, b: int): int {
    if a <= b then b - a else UINT16_MAX - a + b
  }

  /** The id cannot have come from an incremental SDK within the attempts made. */
  predicate Ambiguous(ids: Ids, packetId: int) {
    ids.haveLast && (Distance(ids.lastId, packetId) == 0
                     || ids.sinceId < Distance(ids.lastId, packetId))
  }

  function PacketResult(g: GuardState, packetId: int): Outcome {
    if !g.pending then MarkUnsafe(g)
    else
      var done := g.(pending := false, ids := g.ids.(completedSerial := g.ids.serial,
                                                     completedId := packetId));
      if g.unsafe then Outcome(done, false)
      else if packetId < 0 then Outcome(done, true)
      else if packetId == 0 || UINT16_MAX < packetId then MarkUnsafe(done)
      else if Ambiguous(g.ids, packetId) then MarkUnsafe(done)
      else Outcome(done.(ids := done.ids.(lastId := packetId, haveLast := true, sinceId := 0)), true)
  }

  function ArmReset(g: GuardState, outboxEmpty: bool): Outcome {
    if !outboxEmpty || g.pending then Outcome(g, false)
    else
      Outcome(Retire(if g.resetArmed then g
                     else g.(resetArmed := true, boundarySeen := !g.connected)), true)
  }

  function OnDisconnected(g: GuardState): GuardState {
    Retire(g.(connected := false, boundarySeen := g.boundarySeen || g.resetArmed))
  }

  /** A connection renews the packet identities only across an armed boundary. */
  predicate Renews(g: GuardState) {
    !g.connected && g.generation != UINT64_MAX && g.resetArmed && g.boundarySeen && !g.pending
  }

  function OnConnected(g: GuardState): GuardState {
    if g.connected || g.generation == UINT64_MAX then MarkUnsafe(g).g
    else
      var up := Retire(g.(connected := true, generation := g.generation + 1));
      if Renews(g) then
        up.(ids := up.ids.(attempts := 0, sinceId := 0, haveLast := false, completedId := -1),
            unsafe := false, resetArmed := false, boundarySeen := false)
      else up
  }

  function ProbeBegin(g: GuardState, token: nat, startedMs: nat, timeoutMs: nat): Outcome {
    if !g.connected || !g.pending || g.unsafe || g.resetArmed || g.probe.Active()
       || token == 0 || token == g.probe.token || timeoutMs == 0 then Outcome(g, false)
    else
      Outcome(g.(probe := Probe(Arming, token, g.generation, g.ids.serial, startedMs, timeoutMs, 0),
                 early := []), true)
  }

  /** Position of the first buffered acknowledgement of `packetId`, or the length. */
  function FirstEarly(early: seq<EarlyAck>, packetId: int): (i: nat)
    ensures i <= |early|
    ensures i < |early| ==> early[i].packetId == packetId
    ensures forall k :: 0 <= k < i ==> early[k].packetId != packetId
  {
    if early == [] || early[0].packetId == packetId then 0
    else 1 + FirstEarly(early[1..], packetId)
  }

  /** The reported operation is not the one this probe was armed for. */
  predicate Mismatched(g: GuardState, packetId: int) {
    g.unsafe || !g.connected || g.probe.generation != g.generation || g.pending
    || g.ids.completedSerial != g.probe.serial || g.ids.completedId != packetId
    || packetId <= 0 || UINT16_MAX < packetId
  }

  function ProbeResult(g: GuardState, token: nat, packetId: int, nowMs: nat): Outcome {
    if g.probe.state != Arming || token != g.probe.token then Outcome(g, false)
    else if Mismatched(g, packetId) then Outcome(g.Leave(Failed), false)
    else if !g.probe.Within(nowMs) then Outcome(g.Leave(Expired), false)
    else
      var waiting := g.(probe := g.probe.(packetId := packetId, state := Pending));
      var i := FirstEarly(g.early, packetId);
      if i < |g.early| then AcceptAck(waiting, g.early[i].receivedMs)
      else Outcome(waiting.(early := []), false)
  }

  function ProbeExpire(g: GuardState, nowMs: nat): GuardState {
    if g.probe.Active() && g.probe.startedMs <= nowMs && !g.probe.Within(nowMs) then g.Leave(Expired)
    else g
  }

  /** An acknowledgement that has nothing to say about the probe in progress. */
  predicate Irrelevant(g: GuardState, generation: nat, packetId: int) {
    !g.connected || g.unsafe || !g.probe.Active() || generation != g.generation
    || generation != g.probe.generation || packetId <= 0 || UINT16_MAX < packetId
  }

  function OnPuback(g: GuardState, generation: nat, packetId: int, receivedMs: nat): Outcome {
    if Irrelevant(g, generation, packetId) || receivedMs < g.probe.startedMs then Outcome(g, false)
    else if !g.probe.Within(receivedMs) then Outcome(ProbeExpire(g, receivedMs), false)
    else if g.probe.state == Pending then
      if packetId != g.probe.packetId then Outcome(g, false) else AcceptAck(g, receivedMs)
    else if FirstEarly(g.early, packetId) < |g.early| then Outcome(g, false)
    else if |g.early| == EARLY_ACKS then Outcome(g.Leave(Failed), false)
    else Outcome(g.(early := g.early + [EarlyAck(packetId, receivedMs)]), false)
  }

  /** The guard as the firmware keeps it: fields updated in place, the eight
      buffered early acknowledgements in a fixed array, every call made under
      the caller's lock. */
  class PacketGuard {
    var generation: nat
    var connected: bool
    var pending: bool
    var unsafe: bool
    var resetArmed: bool
    var boundarySeen: bool
    var ids: Ids
    var probe: Probe
    var proof: Proof
    var earlyCount: nat
    const earlyAcks: array<EarlyAck>

    ghost predicate Valid()
      reads this
    {
      earlyAcks.Length == EARLY_ACKS && earlyCount <= EARLY_ACKS
    }

    ghost function State(): GuardState
      requires Valid()
      reads this, earlyAcks
    {
      GuardState(generation, connected, pending, unsafe, resetArmed, boundarySeen,
                 ids, probe, earlyAcks[..earlyCount], proof)
    }

    constructor ()
      ensures Valid() && State() == INITIAL && fresh(earlyAcks)
    {
      earlyAcks := new EarlyAck[EARLY_ACKS](_ => EarlyAck(0, 0));
      generation, connected, pending, unsafe := 0, false, false, false;
      resetArmed, boundarySeen := false, false;
      ids, probe, proof, earlyCount := FRESH_IDS, NO_PROBE, Proof(0, 0, false), 0;
    }

    method LeaveProbe(to: ProbeState)
      requires Valid()
      modifies this
      ensures Valid() && State() == old(State()).Leave(to)
    {
      probe := probe.(state := to);
      earlyCount := 0;
      proof := proof.(valid := false);
    }

    method Accept(receivedMs: nat) returns (ok: bool)
      requires Valid()
      modifies this
      ensures Valid() && Outcome(State(), ok) == AcceptAck(old(State()), receivedMs)
    {
      if !probe.Within(receivedMs) {
        probe := probe.(state := Expired);
        proof := proof.(valid := false);
        return false;
      }
      probe := probe.(state := Acked);
      earlyCount := 0;
      proof := Proof(receivedMs, generation, true);
      return true;
    }

    method Begin() returns (ok: bool)
      requires Valid()
      modifies this
      ensures Valid() && Outcome(State(), ok) == PacketBegin(old(State()))
    {
      if pending || ids.serial == UINT64_MAX {
        unsafe := true;
        LeaveProbe(Failed);
        return false;
      }
      if unsafe || resetArmed || ids.attempts >= BUDGET { return false; }
      ids := ids.(attempts := ids.attempts + 1, sinceId := ids.sinceId + 1, serial := ids.serial + 1);
      pending := true;
      return true;
    }

    method Result(packetId: int) returns (ok: bool)
      requires Valid()
      modifies this
      ensures Valid() && Outcome(State(), ok) == PacketResult(old(State()), packetId)
    {
      if !pending {
        unsafe := true;
        LeaveProbe(Failed);
        return false;
      }
      pending := false;
      ids := ids.(completedSerial := ids.serial, completedId := packetId);
      if unsafe { return false; }
      if packetId < 0 { return true; }
      var ambiguous := packetId == 0 || packetId > UINT16_MAX;
      if !ambiguous && ids.haveLast {
        var distance := if packetId >= ids.lastId then packetId - ids.lastId
                        else UINT16_MAX - ids.lastId + packetId;
        ambiguous := distance == 0 || distance > ids.sinceId;
      }
      if ambiguous {
        unsafe := true;
        LeaveProbe(Failed);
        return false;
      }
      ids := ids.(lastId := packetId, haveLast := true, sinceId := 0);
      return true;
    }

    method Arm(outboxEmpty: bool) returns (ok: bool)
      requires Valid()
      modifies this
      ensures Valid() && Outcome(State(), ok) == ArmReset(old(State()), outboxEmpty)
    {
      if !outboxEmpty || pending { return false; }
      if !resetArmed { resetArmed, boundarySeen := true, !connected; }
      LeaveProbe(Retired);
      return true;
    }

    method Disconnected()
      requires Valid()
      modifies this
      ensures Valid() && State() == OnDisconnected(old(State()))
    {
      connected := false;
      if resetArmed { boundarySeen := true; }
      LeaveProbe(Retired);
    }

    method Connected()
      requires Valid()
      modifies this
      ensures Valid() && State() == OnConnected(old(State()))
    {
      if connected || generation == UINT64_MAX {
        unsafe := true;
        LeaveProbe(Failed);
        return;
      }
      connected, generation := true, generation + 1;
      LeaveProbe(Retired);
      if resetArmed && boundarySeen && !pending {
        ids := ids.(attempts := 0, sinceId := 0, haveLast := false, completedId := -1);
        unsafe, resetArmed, boundarySeen := false, false, false;
      }
    }

    method BeginProbe(token: nat, startedMs: nat, timeoutMs: nat) returns (ok: bool)
      requires Valid()
      modifies this
      ensures Valid() && Outcome(State(), ok) == ProbeBegin(old(State()), token, startedMs, timeoutMs)
    {
      if !connected || !pending || unsafe || resetArmed || probe.Active()
         || token == 0 || token == probe.token || timeoutMs == 0 { return false; }
      probe := Probe(Arming, token, generation, ids.serial, startedMs, timeoutMs, 0);
      earlyCount := 0;
      return true;
    }

    method FindEarly(packetId: int) returns (i: nat)
      requires Valid()
      ensures i == FirstEarly(earlyAcks[..earlyCount], packetId)
    {
      i := 0;
      while i < earlyCount && earlyAcks[i].packetId != packetId
        invariant i <= earlyCount
        invariant FirstEarly(earlyAcks[..earlyCount], packetId)
               == i + FirstEarly(earlyAcks[i..earlyCount], packetId)
      {
        assert earlyAcks[i..earlyCount][1..] == earlyAcks[i + 1..earlyCount];
        i := i + 1;
      }
    }

    method ResultOfProbe(token: nat, packetId: int, nowMs: nat) returns (ok: bool)
      requires Valid()
      modifies this
      ensures Valid() && Outcome(State(), ok) == ProbeResult(old(State()), token, packetId, nowMs)
    {
      if probe.state != Arming || token != probe.token { return false; }
      if unsafe || !connected || probe.generation != generation || pending
         || ids.completedSerial != probe.serial || ids.completedId != packetId
         || packetId <= 0 || packetId > UINT16_MAX {
        LeaveProbe(Failed);
        return false;
      }
      if !probe.Within(nowMs) {
        LeaveProbe(Expired);
        return false;
      }
      probe := probe.(packetId := packetId, state := Pending);
      var i := FindEarly(packetId);
      if i < earlyCount {
        ok := Accept(earlyAcks[i].receivedMs);
      } else {
        earlyCount := 0;
        ok := false;
      }
    }

    method Expire(nowMs: nat)
      requires Valid()
      modifies this
      ensures Valid() && State() == ProbeExpire(old(State()), nowMs)
    {
      if probe.Active() && nowMs >= probe.startedMs && !probe.Within(nowMs) { LeaveProbe(Expired); }
    }

    method Puback(ackGeneration: nat, packetId: int, receivedMs: nat) returns (ok: bool)
      requires Valid()
      modifies this, earlyAcks
      ensures Valid()
      ensures Outcome(State(), ok) == OnPuback(old(State()), ackGeneration, packetId, receivedMs)
    {
      if !connected || unsafe || !probe.Active() || ackGeneration != generation
         || ackGeneration != probe.generation || packetId <= 0 || packetId > UINT16_MAX { return false; }
      if receivedMs < probe.startedMs { return false; }
      if !probe.Within(receivedMs) {
        Expire(receivedMs);
        return false;
      }
      if probe.state == Pending {
        if packetId != probe.packetId { return false; }
        ok := Accept(receivedMs);
        return;
      }
      var i := FindEarly(packetId);
      if i < earlyCount { return false; }
      if earlyCount == EARLY_ACKS {
        LeaveProbe(Failed);
        return false;
      }
      earlyAcks[earlyCount] := EarlyAck(packetId, receivedMs);
      earlyCount := earlyCount + 1;
      assert earlyAcks[..earlyCount] == old(earlyAcks[..earlyCount]) + [EarlyAck(packetId, receivedMs)];
      return false;
    }
  }

  // ---- Epoch identity: no assumption on the SDK, the broker or the callers ----

  datatype Call =
    | CallBegin
    | CallResult(packetId: int)
    | CallArm(outboxEmpty: bool)
    | CallDisconnected
    | CallConnected
    | CallProbeBegin(token: nat, startedMs: nat, timeoutMs: nat)
    | CallProbeResult(token: nat, packetId: int, nowMs: nat)
    | CallPuback(generation: nat, packetId: int, receivedMs: nat)
    | CallProbeExpire(nowMs: nat)
    | CallProbeRetire

  function Apply(g: GuardState, c: Call): Outcome {
    match c
    case CallBegin => PacketBegin(g)
    case CallResult(id) => PacketResult(g, id)
    case CallArm(empty) => ArmReset(g, empty)
    case CallDisconnected => Outcome(OnDisconnected(g), true)
    case CallConnected => Outcome(OnConnected(g), true)
    case CallProbeBegin(t, s, d) => ProbeBegin(g, t, s, d)
    case CallProbeResult(t, id, n) => ProbeResult(g, t, id, n)
    case CallPuback(gen, id, r) => OnPuback(g, gen, id, r)
    case CallProbeExpire(n) => Outcome(ProbeExpire(g, n), true)
    case CallProbeRetire => Outcome(Retire(g), true)
  }

  /** A guard with the history of ids it accepted since the last identity reset. */
  datatype Epoch = Epoch(g: GuardState, accepted: seq<int>)

  function Observe(e: Epoch, c: Call): Epoch {
    var after := Apply(e.g, c);
    Epoch(after.g,
          if c.CallConnected? && Renews(e.g) then []
          else if c.CallResult? && after.ok && 0 <= c.packetId then e.accepted + [c.packetId]
          else e.accepted)
  }

  function Execute(calls: seq<Call>): Epoch {
    if calls == [] then Epoch(INITIAL, [])
    else Observe(Execute(calls[..|calls| - 1]), calls[|calls| - 1])
  }

  /** How far the accepted ids have travelled around the circle. */
  function Travel(ids: seq<int>): int {
    if |ids| <= 1 then 0
    else Travel(ids[..|ids| - 1]) + Distance(ids[|ids| - 2], ids[|ids| - 1])
  }

  /** Ids on the circle, each at least one step on from the one before. */
  predicate OnCircle(ids: seq<int>) {
    ids == [] ||
      (&& OnCircle(ids[..|ids| - 1])
       && 1 <= ids[|ids| - 1] <= UINT16_MAX
       && (|ids| > 1 ==> 1 <= Distance(ids[|ids| - 2], ids[|ids| - 1])))
  }

  lemma {:induction false} OnCirclePrefix(ids: seq<int>, k: nat)
    requires OnCircle(ids) && k <= |ids|
    ensures OnCircle(ids[..k])
  {
    if k == |ids| {
      assert ids[..k] == ids;
    } else {
      OnCirclePrefix(ids[..|ids| - 1], k);
      assert ids[..|ids| - 1][..k] == ids[..k];
    }
  }

  ghost predicate PairwiseDistinct(ids: seq<int>) {
    forall i, j :: 0 <= i < j < |ids| ==> ids[i] != ids[j]
  }

  ghost predicate EpochInvariant(e: Epoch) {
    && e.g.ids.attempts <= BUDGET
    && OnCircle(e.accepted)
    && (e.g.ids.haveLast <==> e.accepted != [])
    && (e.g.ids.haveLast ==> e.g.ids.lastId == e.accepted[|e.accepted| - 1])
    && Travel(e.accepted) + e.g.ids.sinceId <= e.g.ids.attempts
    && (e.g.resetArmed ==> !e.g.pending)
  }

  lemma OneMoreId(ids: seq<int>, id: int)
    requires OnCircle(ids) && 1 <= id <= UINT16_MAX && (ids != [] ==> 1 <= Distance(ids[|ids| - 1], id))
    ensures OnCircle(ids + [id])
    ensures Travel(ids + [id]) == if ids == [] then 0 else Travel(ids) + Distance(ids[|ids| - 1], id)
  {
    assert (ids + [id])[..|ids|] == ids;
  }

  /** What a result that is not a fresh id leaves as it was. */
  lemma ResultWithoutId(g: GuardState, packetId: int)
    requires g.resetArmed ==> !g.pending
    ensures var o := PacketResult(g, packetId);
            && o.g.ids.attempts == g.ids.attempts && (o.g.resetArmed ==> !o.g.pending)
            && (!(o.ok && 0 <= packetId) ==>
                  o.g.ids.haveLast == g.ids.haveLast && o.g.ids.lastId == g.ids.lastId && o.g.ids.sinceId == g.ids.sinceId)
  {
  }

  lemma FreshId(g: GuardState, packetId: int)
    requires PacketResult(g, packetId).ok && 0 <= packetId
    requires g.ids.haveLast ==> 1 <= g.ids.lastId <= UINT16_MAX
    ensures var ids := PacketResult(g, packetId).g.ids;
            && 1 <= packetId <= UINT16_MAX && ids.haveLast && ids.lastId == packetId && ids.sinceId == 0
            && (g.ids.haveLast ==> 1 <= Distance(g.ids.lastId, packetId) <= g.ids.sinceId)
  {
  }

  lemma ResultKeepsInvariant(e: Epoch, packetId: int)
    requires EpochInvariant(e)
    ensures EpochInvariant(Observe(e, CallResult(packetId)))
  {
    var o, e' := PacketResult(e.g, packetId), Observe(e, CallResult(packetId));
    ResultWithoutId(e.g, packetId);
    if o.ok && 0 <= packetId {
      FreshId(e.g, packetId);
      OneMoreId(e.accepted, packetId);
    } else {
      KeptByFacts(e, e');
    }
  }

  lemma ConnectedKeepsInvariant(e: Epoch)
    requires EpochInvariant(e)
    ensures EpochInvariant(Observe(e, CallConnected))
  {
  }

  predicate LeavesIds(c: Call) { !c.CallResult? && !c.CallConnected? }

  lemma ProbeCalls(g: GuardState, c: Call)
    requires c.CallProbeBegin? || c.CallProbeResult? || c.CallPuback? || c.CallProbeExpire? || c.CallProbeRetire?
    ensures var g' := Apply(g, c).g; g'.ids == g.ids && g'.pending == g.pending && g'.resetArmed == g.resetArmed
  {
  }

  /** Every other call leaves the last id alone and counts no attempt without a distance. */
  lemma OtherCalls(g: GuardState, c: Call)
    requires LeavesIds(c) && g.ids.attempts <= BUDGET && (g.resetArmed ==> !g.pending)
    ensures var g' := Apply(g, c).g;
            && g'.ids.attempts <= BUDGET && (g'.resetArmed ==> !g'.pending)
            && g'.ids.haveLast == g.ids.haveLast && g'.ids.lastId == g.ids.lastId
            && g'.ids.sinceId - g.ids.sinceId <= g'.ids.attempts - g.ids.attempts
  {
    if !c.CallBegin? && !c.CallArm? && !c.CallDisconnected? { ProbeCalls(g, c); }
  }

  lemma ObserveKeepsInvariant(e: Epoch, c: Call)
    requires EpochInvariant(e)
    ensures EpochInvariant(Observe(e, c))
  {
    if c.CallResult? {
      ResultKeepsInvariant(e, c.packetId);
    } else if c.CallConnected? {
      ConnectedKeepsInvariant(e);
    } else {
      OtherCalls(e.g, c);
      KeptByFacts(e, Observe(e, c));
    }
  }

  lemma KeptByFacts(e: Epoch, e': Epoch)
    requires EpochInvariant(e) && e'.accepted == e.accepted
    requires e'.g.ids.attempts <= BUDGET && (e'.g.resetArmed ==> !e'.g.pending)
    requires e'.g.ids.haveLast == e.g.ids.haveLast && e'.g.ids.lastId == e.g.ids.lastId
    requires e'.g.ids.sinceId - e.g.ids.sinceId <= e'.g.ids.attempts - e.g.ids.attempts
    ensures EpochInvariant(e')
  {
  }

  lemma {:induction false} ReachedInvariant(calls: seq<Call>)
    ensures EpochInvariant(Execute(calls))
  {
    if calls != [] {
      ReachedInvariant(calls[..|calls| - 1]);
      ObserveKeepsInvariant(Execute(calls[..|calls| - 1]), calls[|calls| - 1]);
    }
  }

  lemma {:induction false} TravelLocates(ids: seq<int>)
    requires OnCircle(ids) && ids != []
    ensures 0 <= Travel(ids)
    ensures (ids[|ids| - 1] - 1) % UINT16_MAX == (ids[0] - 1 + Travel(ids)) % UINT16_MAX
  {
    if |ids| > 1 {
      var front := ids[..|ids| - 1];
      TravelLocates(front);
      var a, b := front[|front| - 1], ids[|ids| - 1];
      assert b - 1 == a - 1 + Distance(a, b) || b - 1 == a - 1 + Distance(a, b) - UINT16_MAX;
      assert (b - 1) % UINT16_MAX == (a - 1 + Distance(a, b)) % UINT16_MAX;
      assert (a - 1 + Distance(a, b)) % UINT16_MAX == (ids[0] - 1 + Travel(front) + Distance(a, b)) % UINT16_MAX;
    }
  }

  lemma {:induction false} TravelGrows(ids: seq<int>, k: nat)
    requires OnCircle(ids) && k < |ids|
    ensures Travel(ids[..k + 1]) <= Travel(ids) - (|ids| - 1 - k)
    decreases |ids|
  {
    if k + 1 == |ids| {
      assert ids[..k + 1] == ids;
    } else {
      var front := ids[..|ids| - 1];
      TravelGrows(front, k);
      assert front[..k + 1] == ids[..k + 1];
    }
  }

  lemma {:induction false} DistinctAt(ids: seq<int>, i: nat, j: nat)
    requires OnCircle(ids) && i < j < |ids| && Travel(ids) < UINT16_MAX
    ensures ids[i] != ids[j]
  {
    var p, q := ids[..i + 1], ids[..j + 1];
    OnCirclePrefix(ids, i + 1);
    OnCirclePrefix(ids, j + 1);
    TravelLocates(p);
    TravelLocates(q);
    TravelGrows(q, i);
    TravelGrows(ids, j);
    assert q[..i + 1] == p;
    SameResidue(ids[0] - 1, Travel(p), Travel(q));
  }

  lemma ShortTravelIsDistinct(ids: seq<int>)
    requires OnCircle(ids) && Travel(ids) < UINT16_MAX
    ensures PairwiseDistinct(ids)
  {
    forall i, j | 0 <= i < j < |ids| ensures ids[i] != ids[j] { DistinctAt(ids, i, j); }
  }

  lemma SameResidue(base: int, x: int, y: int)
    requires 0 <= x < y < x + UINT16_MAX
    ensures (base + x) % UINT16_MAX != (base + y) % UINT16_MAX
  {
  }

  /** Between two identity resets the guard never accepts one packet id twice,
      whatever ids are reported, and an armed reset never overlaps an operation. */
  lemma EpochIdentity(calls: seq<Call>)
    ensures PairwiseDistinct(Execute(calls).accepted)
    ensures Execute(calls).g.resetArmed ==> !Execute(calls).g.pending
    ensures Execute(calls).g.ids.attempts <= BUDGET
  {
    ReachedInvariant(calls);
    ShortTravelIsDistinct(Execute(calls).accepted);
  }
}
