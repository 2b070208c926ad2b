/** The MQTT owner: packet guard, health clock, SDK and broker in one system.

    Every critical section of mqtt.c is one atomic step, and so is every action
    of the environment: the SDK takes packet ids one after another around
    1..65535 and keeps an outbox, the broker acknowledges only ids that are in
    that outbox, connections come and go. The theorems hold after every sequence
    of steps: an accepted proof is an acknowledgement of the probe's own
    publication, and fresh proof is recent. */
module MqttProof {
  import G = MqttPacketGuard
  import H = MqttHealth

  const DELIVERY_TIMEOUT_MS: nat := 300000
  const CONFIG: H.Config := H.Config(DELIVERY_TIMEOUT_MS, DELIVERY_TIMEOUT_MS, 30000)

  /** The SDK's id source and outbox. Ids taken since the last identity renewal
      are numbered from one; the outbox maps the number of a retained message to
      the serial of the operation that published it. */
  datatype Sdk = Sdk(base: int, taken: nat, outbox: map<nat, nat>)

  /** The n-th packet id after `base` on the circle 1..65535. */
  function IdAt(base: int, n: nat): (id: int)
    ensures 1 <= id <= G.UINT16_MAX
  {
    (base - 1 + n) % G.UINT16_MAX + 1
  }

  /** Where the owner task stands in its current SDK operation. */
  datatype Owner =
    | Free
    | Reserved
    | Calling(probing: bool, number: nat)  // number zero: no id taken yet
    | Returned(rc: int)

  /** One PUBACK at callback receipt, and the publication the broker confirmed. */
  datatype Receipt = Receipt(number: nat, serial: nat, atMs: nat, generation: nat)

  /** What the guard accepted as proof of probe `token`. */
  datatype Accepted = Accepted(token: nat, probeSerial: nat, probeGeneration: nat,
                               startedMs: nat, begunMs: nat, receipt: Receipt)

  /** History the firmware does not keep, written down to state the theorems. */
  datatype Ledger = Ledger(begunMs: nat, number: nat, lastNumber: nat, misconnected: bool,
                           buffered: seq<Receipt>, accepted: seq<Accepted>, current: nat)

  datatype Sys = Sys(nowMs: H.Time, guard: G.GuardState, health: H.HealthState, token: H.Token,
                     sdk: Sdk, owner: Owner, ledger: Ledger)

  datatype Event =
    | Tick(ms: nat)
    | Reserve
    | CallPlain
    | ArmProbe(startedMs: nat)
    | TakeId(kept: bool)
    | Return(ok: bool)
    | FinishProbe
    | Puback(number: nat, kept: bool)
    | Forget(number: nat)
    | Connected
    | Disconnected
    | Monitor
    | OtaChanged(active: bool)
    | ArmReset
    | Stopped
    | WorkBegin
    | WorkEnd

  function Init(base: int): Sys {
    Sys(0, G.INITIAL, H.Init(CONFIG, 0), H.Token(0, 0), Sdk(base, 0, map[]), Free,
        Ledger(0, 0, 0, false, [], [], 0))
  }

  predicate Enabled(s: Sys, e: Event) {
    match e
    case Tick(ms) => s.nowMs + ms <= H.UINT64_MAX
    case Reserve => s.owner.Free?
    case CallPlain => s.owner.Reserved?
    case ArmProbe(_) => s.owner.Reserved?
    case TakeId(_) => s.owner.Calling? && s.owner.number == 0
    case Return(ok) => s.owner.Calling? && (ok ==> s.owner.number != 0)
    case FinishProbe => s.owner.Returned?
    case Puback(number, _) => number in s.sdk.outbox
    case Forget(number) => number in s.sdk.outbox
    case ArmReset => s.owner.Free? && s.sdk.outbox == map[]
    case Stopped => s.owner.Free?
    case _ => true
  }

  /** Buffered receipts follow the guard's buffer of early acknowledgements. */
  function Follow(before: G.GuardState, after: G.GuardState, log: seq<Receipt>, r: Receipt): seq<Receipt> {
    if after.early == [] then []
    else if |after.early| == |before.early| + 1 then log + [r]
    else log
  }

  function ReserveStep(s: Sys): Sys {
    var begun := G.PacketBegin(s.guard);
    s.(guard := begun.g, owner := if begun.ok then Reserved else Free,
       ledger := s.ledger.(misconnected := s.ledger.misconnected || s.guard.ids.serial == G.UINT64_MAX,
                           buffered := if begun.g.early == [] then [] else s.ledger.buffered))
  }

  function ArmStep(s: Sys, startedMs: nat): Sys {
    var begun := H.BeginProbe(s.health, s.nowMs);
    var token := if begun.ok then begun.h.probe.token else s.token;
    var armed := if begun.ok then G.ProbeBegin(s.guard, token.sequence, startedMs, DELIVERY_TIMEOUT_MS)
                 else G.Outcome(s.guard, false);
    if armed.ok then
      s.(guard := armed.g, health := begun.h, token := token, owner := Calling(true, 0),
         ledger := s.ledger.(begunMs := s.nowMs, buffered := []))
    else
      var undone := G.PacketResult(armed.g, -1).g;
      s.(guard := undone, health := H.ProbeFailed(begun.h, token, s.nowMs).h, token := token, owner := Free)
  }

  function TakeStep(s: Sys, kept: bool): Sys
    requires s.owner.Calling?
  {
    var n := s.sdk.taken + 1;
    s.(sdk := s.sdk.(taken := n,
                     outbox := if kept then s.sdk.outbox[n := s.guard.ids.serial] else s.sdk.outbox),
       owner := s.owner.(number := n))
  }

  function ReturnStep(s: Sys, ok: bool): Sys
    requires s.owner.Calling?
  {
    var rc := if ok then IdAt(s.sdk.base, s.owner.number) else -1;
    var done := G.PacketResult(s.guard, rc);
    s.(guard := done.g,
       health := if done.ok then s.health else H.OnEventLoss(s.health, s.nowMs),
       owner := if s.owner.probing then Returned(rc) else Free,
       ledger := s.ledger.(number := if s.owner.probing then s.owner.number else s.ledger.number,
                           lastNumber := if done.ok && ok then s.owner.number else s.ledger.lastNumber,
                           buffered := if done.g.early == [] then [] else s.ledger.buffered))
  }

  /** The guard accepted `r`; the health clock is told under the same lock. */
  function AcceptStep(s: Sys, guard: G.GuardState, health: H.HealthState, r: Receipt): Sys {
    var acked := H.ProbeAck(health, s.token, s.nowMs);
    var p := s.guard.probe;
    s.(guard := guard, health := acked.h,
       ledger := s.ledger.(buffered := [],
                           accepted := s.ledger.accepted
                             + [Accepted(p.token, p.serial, p.generation, p.startedMs, s.ledger.begunMs, r)],
                           current := if acked.ok then |s.ledger.accepted| else s.ledger.current))
  }

  /** The end of sdk_enqueue, once the guard has been told the result. */
  function ConcludeStep(s: Sys, done: G.Outcome): Sys
    requires s.owner.Returned?
  {
    var rc := s.owner.rc;
    var admitted := if 0 <= rc then H.ProbeAdmitted(s.health, s.token, s.nowMs).h else s.health;
    var i := G.FirstEarly(s.guard.early, rc);
    var next := s.(owner := Free);
    if done.ok && i < |s.ledger.buffered| then AcceptStep(next, done.g, admitted, s.ledger.buffered[i])
    else
      next.(guard := done.g,
            health := if rc < 0 || done.g.probe.state == G.Failed
                      then H.ProbeFailed(admitted, s.token, s.nowMs).h else admitted,
            ledger := s.ledger.(buffered := if done.g.early == [] then [] else s.ledger.buffered))
  }

  function FinishStep(s: Sys): Sys
    requires s.owner.Returned?
  {
    ConcludeStep(s, G.ProbeResult(s.guard, s.token.sequence, s.owner.rc, s.nowMs))
  }

  function ReceiptOf(s: Sys, number: nat): Receipt
    requires number in s.sdk.outbox
  {
    Receipt(number, s.sdk.outbox[number], s.nowMs, s.guard.generation)
  }

  /** The event handler, once the guard has `heard` the acknowledgement. */
  function HearStep(s: Sys, number: nat, kept: bool, heard: G.Outcome): Sys
    requires number in s.sdk.outbox
  {
    var next := s.(sdk := if kept then s.sdk else s.sdk.(outbox := s.sdk.outbox - {number}));
    if heard.ok then AcceptStep(next, heard.g, s.health, ReceiptOf(s, number))
    else
      next.(guard := heard.g,
            health := if heard.g.probe.state == G.Failed
                      then H.ProbeFailed(s.health, s.token, s.nowMs).h else s.health,
            ledger := s.ledger.(buffered := Follow(s.guard, heard.g, s.ledger.buffered, ReceiptOf(s, number))))
  }

  function PubackStep(s: Sys, number: nat, kept: bool): Sys
    requires number in s.sdk.outbox
  {
    HearStep(s, number, kept, G.OnPuback(s.guard, s.guard.generation, IdAt(s.sdk.base, number), s.nowMs))
  }

  /** Renewed identities number the ids afresh from wherever the SDK stands. */
  function ConnectedStep(s: Sys): Sys {
    var guard := G.OnConnected(s.guard);
    var up := H.OnConnected(s.health, s.nowMs);
    var renewed := G.Renews(s.guard);
    s.(guard := guard,
       health := if guard.unsafe then H.OnEventLoss(up, s.nowMs) else up,
       sdk := if renewed then s.sdk.(base := IdAt(s.sdk.base, s.sdk.taken), taken := 0) else s.sdk,
       ledger := s.ledger.(buffered := [],
                           misconnected := !renewed && (s.ledger.misconnected || s.guard.connected
                                                        || s.guard.generation == G.UINT64_MAX)))
  }

  function StoppedStep(s: Sys): Sys {
    s.(guard := G.ArmReset(G.OnDisconnected(s.guard), true).g,
       health := H.OnDisconnected(s.health, s.nowMs),
       sdk := s.sdk.(outbox := map[]),
       ledger := s.ledger.(buffered := []))
  }

  function Step(s: Sys, e: Event): Sys
    requires Enabled(s, e)
  {
    match e
    case Tick(ms) => s.(nowMs := s.nowMs + ms)
    case Reserve => ReserveStep(s)
    case CallPlain => s.(owner := Calling(false, 0))
    case ArmProbe(startedMs) => ArmStep(s, startedMs)
    case TakeId(kept) => TakeStep(s, kept)
    case Return(ok) => ReturnStep(s, ok)
    case FinishProbe => FinishStep(s)
    case Puback(number, kept) => PubackStep(s, number, kept)
    case Forget(number) => s.(sdk := s.sdk.(outbox := s.sdk.outbox - {number}))
    case Connected => ConnectedStep(s)
    case Disconnected =>
      s.(guard := G.OnDisconnected(s.guard), health := H.OnDisconnected(s.health, s.nowMs),
         ledger := s.ledger.(buffered := []))
    case Monitor =>
      var guard := G.ProbeExpire(s.guard, s.nowMs);
      s.(guard := guard, health := H.Advance(s.health, s.nowMs),
         ledger := s.ledger.(buffered := if guard.early == [] then [] else s.ledger.buffered))
    case OtaChanged(active) =>
      s.(guard := G.Retire(s.guard), health := H.SetOtaActive(s.health, s.nowMs, active),
         ledger := s.ledger.(buffered := []))
    case ArmReset =>
      s.(guard := G.ArmReset(s.guard, true).g, health := H.OnEventLoss(s.health, s.nowMs),
         ledger := s.ledger.(buffered := []))
    case Stopped => StoppedStep(s)
    case WorkBegin => s.(health := H.WorkerBegin(s.health, s.nowMs))
    case WorkEnd => s.(health := H.WorkerEnd(s.health, s.nowMs))
  }

  // ---- The critical sections themselves --------------------------------------

  /** The health clock after the guard `heard` an acknowledgement. */
  function Told(h: H.HealthState, token: H.Token, heard: G.Outcome, nowMs: H.Time): H.HealthState {
    if heard.ok then H.ProbeAck(h, token, nowMs).h
    else if heard.g.probe.state == G.Failed then H.ProbeFailed(h, token, nowMs).h
    else h
  }

  /** The health clock after the guard was told the result of the probe's operation. */
  function ToldResult(h: H.HealthState, token: H.Token, rc: int, done: G.Outcome, nowMs: H.Time): H.HealthState {
    var admitted := if 0 <= rc then H.ProbeAdmitted(h, token, nowMs).h else h;
    if done.ok then H.ProbeAck(admitted, token, nowMs).h
    else if rc < 0 || done.g.probe.state == G.Failed then H.ProbeFailed(admitted, token, nowMs).h
    else admitted
  }

  /** The application state of mqtt.c that its short lock protects. Every method is
      one section under that lock. */
  class Application {
    const guard: G.PacketGuard
    const health: H.Health
    var probeToken: H.Token

    ghost predicate Valid()
      reads this, guard
    {
      guard.Valid()
    }

    constructor (now: H.Time)
      ensures Valid() && fresh(guard) && fresh(guard.earlyAcks) && fresh(health)
      ensures guard.State() == G.INITIAL && health.State() == H.Init(CONFIG, now)
      ensures probeToken == H.Token(0, 0)
    {
      guard := new G.PacketGuard();
      health := new H.Health(CONFIG, now);
      probeToken := H.Token(0, 0);
    }

    method EventConnected(now: H.Time)
      requires Valid()
      modifies guard, health
      ensures Valid() && guard.State() == G.OnConnected(old(guard.State()))
      ensures var up := H.OnConnected(old(health.State()), now);
              health.State() == if guard.unsafe then H.OnEventLoss(up, now) else up
    {
      guard.Connected();
      health.Connected(now);
      if guard.unsafe { health.LoseEvents(now); }
    }

    method EventDisconnected(now: H.Time)
      requires Valid()
      modifies guard, health
      ensures Valid() && guard.State() == G.OnDisconnected(old(guard.State()))
      ensures health.State() == H.OnDisconnected(old(health.State()), now)
    {
      guard.Disconnected();
      health.Disconnected(now);
    }

    method EventPublished(packetId: int, now: H.Time)
      requires Valid()
      modifies guard, guard.earlyAcks, health
      ensures Valid()
      ensures var heard := G.OnPuback(old(guard.State()), old(guard.generation), packetId, now);
              && guard.State() == heard.g
              && health.State() == Told(old(health.State()), probeToken, heard, now)
    {
      var proved := guard.Puback(guard.generation, packetId, now);
      if proved {
        var _ := health.Ack(probeToken, now);
      } else if guard.probe.state == G.Failed {
        var _ := health.FailProbe(probeToken, now);
      }
    }

    method CompletePacket(rc: int, now: H.Time)
      requires Valid()
      modifies guard, health
      ensures Valid()
      ensures var done := G.PacketResult(old(guard.State()), rc);
              && guard.State() == done.g
              && health.State() == if done.ok then old(health.State()) else H.OnEventLoss(old(health.State()), now)
    {
      var ok := guard.Result(rc);
      if !ok { health.LoseEvents(now); }
    }

    method Arm(startedMs: nat, now: H.Time) returns (armed: bool)
      requires Valid()
      modifies this, guard, health
      ensures Valid()
      ensures var begun := H.BeginProbe(old(health.State()), now);
              var token := if begun.ok then begun.h.probe.token else old(probeToken);
              var probe := if begun.ok
                           then G.ProbeBegin(old(guard.State()), token.sequence, startedMs, DELIVERY_TIMEOUT_MS)
                           else G.Outcome(old(guard.State()), false);
              && armed == probe.ok && probeToken == token
              && guard.State() == (if armed then probe.g else G.PacketResult(probe.g, -1).g)
              && health.State() == (if armed then begun.h else H.ProbeFailed(begun.h, token, now).h)
    {
      var begun, token := health.Begin(now);
      armed := false;
      if begun {
        probeToken := token;
        armed := guard.BeginProbe(probeToken.sequence, startedMs, DELIVERY_TIMEOUT_MS);
      }
      if !armed {
        var _ := health.FailProbe(probeToken, now);
        var _ := guard.Result(-1);
      }
    }

    method ConcludeProbe(rc: int, now: H.Time)
      requires Valid()
      modifies guard, health
      ensures Valid()
      ensures var done := G.ProbeResult(old(guard.State()), probeToken.sequence, rc, now);
              && guard.State() == done.g
              && health.State() == ToldResult(old(health.State()), probeToken, rc, done, now)
    {
      if rc >= 0 {
        var _ := health.Admitted(probeToken, now);
      }
      var proved := guard.ResultOfProbe(probeToken.sequence, rc, now);
      if proved {
        var _ := health.Ack(probeToken, now);
      } else if rc < 0 || guard.probe.state == G.Failed {
        var _ := health.FailProbe(probeToken, now);
      }
    }

    method SdkStopped(now: H.Time)
      requires Valid()
      modifies guard, health
      ensures Valid() && guard.State() == G.ArmReset(G.OnDisconnected(old(guard.State())), true).g
      ensures health.State() == H.OnDisconnected(old(health.State()), now)
    {
      guard.Disconnected();
      health.Disconnected(now);
      var _ := guard.Arm(true);
    }
  }

  /** The steps that hear of an acknowledgement or conclude a probe make exactly the changes of
      their sections. */
  lemma StepsAreSections(s: Sys, number: nat, kept: bool)
    requires Invariant(s)
    ensures s.owner.Returned? ==>
              var done := G.ProbeResult(s.guard, s.token.sequence, s.owner.rc, s.nowMs);
              && FinishStep(s).guard == done.g
              && FinishStep(s).health == ToldResult(s.health, s.token, s.owner.rc, done, s.nowMs)
    ensures number in s.sdk.outbox ==>
              var heard := G.OnPuback(s.guard, s.guard.generation, IdAt(s.sdk.base, number), s.nowMs);
              && PubackStep(s, number, kept).guard == heard.g
              && PubackStep(s, number, kept).health == Told(s.health, s.token, heard, s.nowMs)
  {
    if s.owner.Returned? {
      EarlyWithin(s);
      ResultEffect(s.guard, s.token.sequence, s.owner.rc, s.nowMs);
    }
  }

  /** So do the steps that arm a probe, return from the SDK, or follow the connection. */
  lemma LinkStepsAreSections(s: Sys, startedMs: nat, ok: bool)
    ensures var begun := H.BeginProbe(s.health, s.nowMs);
            var token := if begun.ok then begun.h.probe.token else s.token;
            var probe := if begun.ok then G.ProbeBegin(s.guard, token.sequence, startedMs, DELIVERY_TIMEOUT_MS)
                         else G.Outcome(s.guard, false);
            var s' := ArmStep(s, startedMs);
            && s'.token == token && s'.guard == (if probe.ok then probe.g else G.PacketResult(probe.g, -1).g)
            && s'.health == (if probe.ok then begun.h else H.ProbeFailed(begun.h, token, s.nowMs).h)
    ensures s.owner.Calling? ==>
              var done := G.PacketResult(s.guard, if ok then IdAt(s.sdk.base, s.owner.number) else -1);
              && ReturnStep(s, ok).guard == done.g
              && ReturnStep(s, ok).health == if done.ok then s.health else H.OnEventLoss(s.health, s.nowMs)
    ensures var up := H.OnConnected(s.health, s.nowMs);
            && ConnectedStep(s).guard == G.OnConnected(s.guard)
            && ConnectedStep(s).health == if ConnectedStep(s).guard.unsafe then H.OnEventLoss(up, s.nowMs) else up
    ensures StoppedStep(s).guard == G.ArmReset(G.OnDisconnected(s.guard), true).g
    ensures StoppedStep(s).health == H.OnDisconnected(s.health, s.nowMs)
  {
  }

  // ---- Invariants -----------------------------------------------------------

  /** The operation in progress reserved an id that it has not taken yet. */
  function Owed(o: Owner): nat {
    if o.Reserved? || (o.Calling? && o.number == 0) then 1 else 0
  }

  /** Ids are numbered within the guard's budget, so numbers and ids agree. */
  ghost predicate IdentityInvariant(s: Sys) {
    && 1 <= s.sdk.base <= G.UINT16_MAX
    && (forall n :: n in s.sdk.outbox ==> 1 <= n <= s.sdk.taken)
    && s.sdk.taken + Owed(s.owner) <= s.guard.ids.attempts <= G.BUDGET
    && (s.guard.pending <==> s.owner.Reserved? || s.owner.Calling?)
    && (s.guard.resetArmed ==> s.owner.Free? && s.sdk.outbox == map[])
    && (s.owner.Calling? && s.owner.number != 0 ==> s.owner.number == s.sdk.taken)
  }

  /** The guard's last accepted id is one the SDK took, and no more attempts than
      counted separate it from the latest; the guard distrusts ids only after a
      connection reported twice (or counters that ran out). */
  ghost predicate TrustInvariant(s: Sys) {
    && (s.guard.ids.haveLast ==>
          && 1 <= s.ledger.lastNumber <= s.sdk.taken
          && s.guard.ids.lastId == IdAt(s.sdk.base, s.ledger.lastNumber)
          && s.sdk.taken - s.ledger.lastNumber + Owed(s.owner) <= s.guard.ids.sinceId
          && (s.owner.Calling? && s.owner.number != 0 ==> s.ledger.lastNumber < s.owner.number))
    && (s.guard.unsafe <==> s.ledger.misconnected)
  }

  /** Message number `n`, where still held, is the publication of operation `serial`. */
  ghost predicate Publishes(s: Sys, n: nat, serial: nat) {
    n in s.sdk.outbox ==> s.sdk.outbox[n] == serial
  }

  ghost predicate ProbeInvariant(s: Sys) {
    var p := s.guard.probe;
    && (s.owner.Calling? && s.owner.number != 0 ==> Publishes(s, s.owner.number, s.guard.ids.serial))
    && (s.owner.Returned? ==>
          && s.ledger.number <= s.sdk.taken
          && Publishes(s, s.ledger.number, s.guard.ids.serial)
          && (0 <= s.owner.rc ==> 1 <= s.ledger.number && s.owner.rc == IdAt(s.sdk.base, s.ledger.number)))
    && (p.state == G.Arming ==>
          && ((s.owner.Calling? && s.owner.probing) || s.owner.Returned?)
          && p.serial == s.guard.ids.serial
          && p.token == s.token.sequence)
    && (p.state == G.Pending ==>
          && !(s.owner.Calling? && s.owner.probing) && !s.owner.Returned?
          && 1 <= s.ledger.number <= s.sdk.taken
          && p.packetId == IdAt(s.sdk.base, s.ledger.number)
          && Publishes(s, s.ledger.number, p.serial))
    && (p.Active() ==> p.generation == s.guard.generation && s.guard.connected && !s.guard.resetArmed
                       && s.ledger.begunMs <= s.nowMs)
  }

  /** The number of the id that the armed probe's operation took, zero if none yet. */
  function ProbeNumber(s: Sys): nat {
    if s.owner.Calling? then s.owner.number else s.ledger.number
  }

  /** Early acknowledgement `a` of probe `p` is receipt `r`. */
  ghost predicate Buffers(a: G.EarlyAck, r: Receipt, base: int, p: G.Probe, begunMs: nat) {
    && 1 <= r.number
    && a == G.EarlyAck(IdAt(base, r.number), r.atMs)
    && r.generation == p.generation
    && begunMs <= r.atMs
    && p.Within(r.atMs)
  }

  ghost predicate BufferInvariant(s: Sys) {
    && |s.guard.early| == |s.ledger.buffered|
    && (s.guard.early != [] ==> s.guard.probe.state == G.Arming)
    && (forall i :: 0 <= i < |s.guard.early| ==>
          Buffers(s.guard.early[i], s.ledger.buffered[i], s.sdk.base, s.guard.probe, s.ledger.begunMs))
    && (forall r <- s.ledger.buffered ::
          && r.number <= s.sdk.taken && r.atMs <= s.nowMs
          && (r.number == ProbeNumber(s) ==> r.serial == s.guard.probe.serial))
  }

  /** The claim of the soundness theorem about one accepted proof. */
  predicate Sound(a: Accepted) {
    && a.receipt.serial == a.probeSerial
    && a.receipt.generation == a.probeGeneration
    && a.startedMs <= a.receipt.atMs < a.startedMs + DELIVERY_TIMEOUT_MS
    && a.begunMs <= a.receipt.atMs
  }

  ghost predicate LedgerInvariant(s: Sys) {
    && (forall a <- s.ledger.accepted :: Sound(a) && a.receipt.atMs <= s.nowMs)
    && (forall i, j :: 0 <= i < j < |s.ledger.accepted| ==> s.ledger.accepted[i].token < s.ledger.accepted[j].token)
    && (forall a <- s.ledger.accepted :: a.token <= s.guard.probe.token)
    && (s.guard.probe.Active() ==> forall a <- s.ledger.accepted :: a.token < s.guard.probe.token)
    && s.guard.probe.token <= s.health.sequence
    && s.guard.probe.timeoutMs <= DELIVERY_TIMEOUT_MS
  }

  ghost predicate HealthInvariant(s: Sys) {
    && s.health.config == CONFIG
    && H.WindowInvariant(s.health)
    && s.health.nowMs <= s.nowMs
    && s.token.sequence <= s.health.sequence
    && (s.health.probe.active ==>
          && s.health.probe.token == s.token
          && s.guard.probe.token == s.token.sequence
          && s.health.window.dueMs <= s.ledger.begunMs)
  }

  /** Valid proof in the health clock is a proof the guard accepted. */
  ghost predicate FreshInvariant(s: Sys) {
    s.health.proof.valid ==>
      && s.ledger.current < |s.ledger.accepted|
      && var a := s.ledger.accepted[s.ledger.current];
         && s.health.Running()
         && s.guard.connected
         && a.receipt.generation == s.guard.generation
         && a.receipt.atMs <= s.health.proof.lastAckMs
         && s.health.window.deadlineMs <= a.receipt.atMs + CONFIG.intervalMs + CONFIG.deadlineMs
  }

  /** The packet identity half of the invariant, and the health half. */
  ghost predicate GuardSide(s: Sys) {
    IdentityInvariant(s) && TrustInvariant(s) && ProbeInvariant(s) && BufferInvariant(s)
  }

  ghost predicate HealthSide(s: Sys) {
    LedgerInvariant(s) && HealthInvariant(s) && FreshInvariant(s)
  }

  ghost predicate Invariant(s: Sys) {
    GuardSide(s) && HealthSide(s)
  }

  /** Within the budget no two numbers share a packet id. */
  lemma IdsAgree(base: int, m: nat, n: nat)
    requires 1 <= base <= G.UINT16_MAX && m <= G.BUDGET && n <= G.BUDGET
    ensures IdAt(base, m) == IdAt(base, n) ==> m == n
  {
    if m < n { G.SameResidue(base - 1, m, n); }
    if n < m { G.SameResidue(base - 1, n, m); }
  }

  lemma DistanceCounts(base: int, m: nat, n: nat)
    requires 1 <= base <= G.UINT16_MAX && m < n <= G.BUDGET
    ensures G.Distance(IdAt(base, m), IdAt(base, n)) == n - m
  {
  }

  // ---- Health steps ----------------------------------------------------------

  /** Calls that neither begin a probe nor accept proof can only take away. */
  ghost predicate Quiet(h: H.HealthState, h': H.HealthState, nowMs: nat) {
    && h'.config == h.config
    && h'.sequence == h.sequence
    && H.WindowInvariant(h')
    && h'.nowMs <= nowMs
    && (h'.probe.active ==> h.probe.active && h'.probe.token == h.probe.token && h'.window == h.window)
    && (h'.proof.valid ==> h.proof == h'.proof && h'.window == h.window && (h.Running() ==> h'.Running()))
  }

  lemma QuietResult(h: H.HealthState, token: H.Token, nowMs: H.Time)
    requires H.WindowInvariant(h) && h.nowMs <= nowMs
    ensures Quiet(h, h, nowMs)
    ensures Quiet(h, H.ProbeAdmitted(h, token, nowMs).h, nowMs)
    ensures Quiet(h, H.ProbeFailed(h, token, nowMs).h, nowMs)
  {
  }

  lemma QuietLoss(h: H.HealthState, nowMs: H.Time)
    requires H.WindowInvariant(h) && h.nowMs <= nowMs
    ensures Quiet(h, H.Advance(h, nowMs), nowMs)
    ensures Quiet(h, H.OnEventLoss(h, nowMs), nowMs)
  {
  }

  lemma QuietLink(h: H.HealthState, nowMs: H.Time, active: bool)
    requires H.WindowInvariant(h) && h.nowMs <= nowMs
    ensures Quiet(h, H.OnConnected(h, nowMs), nowMs)
    ensures Quiet(h, H.OnDisconnected(h, nowMs), nowMs)
    ensures Quiet(h, H.SetOtaActive(h, nowMs, active), nowMs)
  {
  }

  lemma QuietWork(h: H.HealthState, nowMs: H.Time)
    requires H.WindowInvariant(h) && h.nowMs <= nowMs
    ensures Quiet(h, H.WorkerBegin(h, nowMs), nowMs)
    ensures Quiet(h, H.WorkerEnd(h, nowMs), nowMs)
  {
  }

  /** An accepted acknowledgement was of the pending probe, in time, and the next
      window starts one interval after the old one. */
  lemma AckEffect(h: H.HealthState, token: H.Token, nowMs: H.Time)
    requires H.WindowInvariant(h) && h.nowMs <= nowMs
    ensures var acked := H.ProbeAck(h, token, nowMs);
            if acked.ok then
              && h.Matches(token) && h.probe.admitted
              && acked.h.config == h.config && acked.h.sequence == h.sequence
              && H.WindowInvariant(acked.h) && acked.h.Running() && acked.h.nowMs == nowMs
              && !acked.h.probe.active && acked.h.proof == H.Proof(true, nowMs)
              && acked.h.window.deadlineMs <= h.window.dueMs + h.config.intervalMs + h.config.deadlineMs
            else Quiet(h, acked.h, nowMs)
  {
  }

  lemma BeginEffect(h: H.HealthState, nowMs: H.Time)
    requires H.WindowInvariant(h) && h.nowMs <= nowMs
    ensures var begun := H.BeginProbe(h, nowMs);
            if begun.ok then
              && begun.h.config == h.config && begun.h.sequence == h.sequence + 1
              && H.WindowInvariant(begun.h) && begun.h.nowMs == nowMs
              && begun.h.probe == H.Pending(true, false, H.Token(h.generation, h.sequence + 1))
              && begun.h.window.dueMs <= nowMs
              && (begun.h.proof.valid ==> h.proof == begun.h.proof && begun.h.window == h.window
                                          && (h.Running() ==> begun.h.Running()))
              && !H.ProbeFailed(begun.h, begun.h.probe.token, nowMs).h.probe.active
            else Quiet(h, begun.h, nowMs)
  {
  }

  /** A step that leaves probes and proofs alone keeps the health side. */
  lemma QuietKeeps(s: Sys, s': Sys)
    requires HealthSide(s) && Quiet(s.health, s'.health, s'.nowMs)
    requires s.nowMs <= s'.nowMs && s'.token == s.token
    requires s'.ledger.accepted == s.ledger.accepted && s'.ledger.current == s.ledger.current
    requires s'.ledger.begunMs == s.ledger.begunMs
    requires s'.guard.probe.token == s.guard.probe.token
    requires s'.guard.probe.timeoutMs == s.guard.probe.timeoutMs
    requires s'.guard.probe.Active() ==> s.guard.probe.Active()
    requires s'.health.proof.valid ==>
               s'.guard.connected == s.guard.connected && s'.guard.generation == s.guard.generation
    ensures HealthSide(s')
  {
  }

  // ---- Steps keep the invariant ----------------------------------------------

  lemma ReserveKeeps(s: Sys)
    requires Invariant(s) && s.owner.Free?
    ensures Invariant(ReserveStep(s))
  {
    QuietKeeps(s, ReserveStep(s));
  }

  lemma TakeKeeps(s: Sys, kept: bool)
    requires Invariant(s) && s.owner.Calling? && s.owner.number == 0
    ensures Invariant(TakeStep(s, kept))
  {
    QuietKeeps(s, TakeStep(s, kept));
  }

  lemma ReturnKeepsGuard(s: Sys, ok: bool)
    requires GuardSide(s) && Enabled(s, Return(ok))
    ensures GuardSide(ReturnStep(s, ok))
  {
    if ok && s.guard.ids.haveLast { DistanceCounts(s.sdk.base, s.ledger.lastNumber, s.owner.number); }
  }

  lemma ReturnKeeps(s: Sys, ok: bool)
    requires Invariant(s) && Enabled(s, Return(ok))
    ensures Invariant(ReturnStep(s, ok))
  {
    ReturnKeepsGuard(s, ok);
    QuietResult(s.health, s.token, s.nowMs);
    QuietLoss(s.health, s.nowMs);
    QuietKeeps(s, ReturnStep(s, ok));
  }

  lemma ArmedKeeps(s: Sys, startedMs: nat)
    requires Invariant(s) && s.owner.Reserved?
    requires var begun := H.BeginProbe(s.health, s.nowMs);
             begun.ok && G.ProbeBegin(s.guard, begun.h.probe.token.sequence, startedMs, DELIVERY_TIMEOUT_MS).ok
    ensures Invariant(ArmStep(s, startedMs))
  {
    BeginEffect(s.health, s.nowMs);
  }

  lemma ArmKeeps(s: Sys, startedMs: nat)
    requires Invariant(s) && s.owner.Reserved?
    ensures Invariant(ArmStep(s, startedMs))
  {
    var begun := H.BeginProbe(s.health, s.nowMs);
    if begun.ok && G.ProbeBegin(s.guard, begun.h.probe.token.sequence, startedMs, DELIVERY_TIMEOUT_MS).ok {
      ArmedKeeps(s, startedMs);
    } else {
      BeginEffect(s.health, s.nowMs);
      QuietResult(begun.h, if begun.ok then begun.h.probe.token else s.token, s.nowMs);
    }
  }

  /** The guard accepts `packetId` as proof at `atMs`. */
  predicate Proves(g: G.GuardState, packetId: int, atMs: nat, g': G.GuardState) {
    g' == g.(probe := g.probe.(state := G.Acked, packetId := packetId), early := [],
             proof := G.Proof(atMs, g.generation, true))
  }

  predicate Leaves(g: G.GuardState, g': G.GuardState) {
    g' == g.Leave(G.Expired) || g' == g.Leave(G.Failed)
  }

  /** What the guard may do with an acknowledgement. */
  predicate Heard(g: G.GuardState, packetId: int, nowMs: nat, heard: G.Outcome) {
    if heard.ok then
      && g.probe.state == G.Pending && packetId == g.probe.packetId && g.probe.Within(nowMs)
      && Proves(g, packetId, nowMs, heard.g)
    else
      || heard.g == g || Leaves(g, heard.g)
      || (g.probe.state == G.Arming && g.probe.Within(nowMs)
          && heard.g == g.(early := g.early + [G.EarlyAck(packetId, nowMs)]))
  }

  lemma HeardEffect(g: G.GuardState, packetId: int, nowMs: nat)
    requires 1 <= packetId <= G.UINT16_MAX
    ensures Heard(g, packetId, nowMs, G.OnPuback(g, g.generation, packetId, nowMs))
  {
  }

  /** What the guard may do with the result of the armed probe's operation. */
  predicate Concluded(g: G.GuardState, token: nat, rc: int, done: G.Outcome) {
    var i := G.FirstEarly(g.early, rc);
    if done.ok then
      && g.probe.state == G.Arming && 0 < rc && i < |g.early|
      && Proves(g, rc, g.early[i].receivedMs, done.g)
    else
      || (done.g == g && (g.probe.state != G.Arming || token != g.probe.token))
      || Leaves(g, done.g)
      || (0 < rc && g.probe.state == G.Arming
          && done.g == g.(probe := g.probe.(state := G.Pending, packetId := rc), early := []))
  }

  lemma ResultEffect(g: G.GuardState, token: nat, rc: int, nowMs: nat)
    requires forall a <- g.early :: g.probe.Within(a.receivedMs)
    ensures Concluded(g, token, rc, G.ProbeResult(g, token, rc, nowMs))
  {
  }

  /** An accepted receipt that is sound for the active probe keeps the invariant. */
  lemma AcceptKeeps(s: Sys, guard: G.GuardState, health: H.HealthState, r: Receipt)
    requires Invariant(s) && s.guard.probe.Active()
    requires Quiet(s.health, health, s.nowMs)
    requires guard == s.guard.(probe := guard.probe, early := [], proof := guard.proof)
    requires guard.probe == s.guard.probe.(state := G.Acked, packetId := guard.probe.packetId)
    requires r.serial == s.guard.probe.serial && r.generation == s.guard.generation
    requires s.guard.probe.Within(r.atMs) && s.ledger.begunMs <= r.atMs <= s.nowMs
    ensures var s' := AcceptStep(s, guard, health, r);
            HealthSide(s')
  {
    AckEffect(health, s.token, s.nowMs);
  }

  /** The guard side only: probes may leave the race, ids and counters stay. */
  lemma LeaveKeeps(s: Sys, s': Sys, to: G.ProbeState)
    requires GuardSide(s) && (to == G.Expired || to == G.Failed || to == G.Retired)
    requires s'.guard == s.guard.Leave(to) && s'.ledger == s.ledger.(buffered := [])
    requires s'.sdk.base == s.sdk.base && s'.sdk.taken == s.sdk.taken
    requires forall n <- s'.sdk.outbox :: n in s.sdk.outbox && s'.sdk.outbox[n] == s.sdk.outbox[n]
    requires s'.owner == s.owner || (s.owner.Returned? && s'.owner.Free?)
    requires s'.token == s.token && s'.nowMs == s.nowMs
    ensures GuardSide(s')
  {
  }

  lemma HearQuiet(s: Sys, number: nat, kept: bool, heard: G.Outcome)
    requires Invariant(s) && number in s.sdk.outbox
    requires Heard(s.guard, IdAt(s.sdk.base, number), s.nowMs, heard) && !heard.ok
    ensures HealthSide(HearStep(s, number, kept, heard))
  {
    QuietResult(s.health, s.token, s.nowMs);
    QuietKeeps(s, HearStep(s, number, kept, heard));
  }

  lemma HearBuffers(s: Sys, number: nat, kept: bool, heard: G.Outcome)
    requires GuardSide(s) && number in s.sdk.outbox && s.guard.probe.state == G.Arming
    requires s.guard.probe.Within(s.nowMs) && !heard.ok
    requires heard.g == s.guard.(early := s.guard.early + [G.EarlyAck(IdAt(s.sdk.base, number), s.nowMs)])
    ensures GuardSide(HearStep(s, number, kept, heard))
  {
    var s' := HearStep(s, number, kept, heard);
    assert s'.ledger.buffered == s.ledger.buffered + [ReceiptOf(s, number)];
  }

  lemma HearProves(s: Sys, number: nat, kept: bool, heard: G.Outcome)
    requires Invariant(s) && number in s.sdk.outbox
    requires Heard(s.guard, IdAt(s.sdk.base, number), s.nowMs, heard) && heard.ok
    ensures Invariant(HearStep(s, number, kept, heard))
  {
    IdsAgree(s.sdk.base, number, s.ledger.number);
    QuietResult(s.health, s.token, s.nowMs);
    AcceptKeeps(s.(sdk := if kept then s.sdk else s.sdk.(outbox := s.sdk.outbox - {number})), heard.g, s.health,
                ReceiptOf(s, number));
  }

  lemma HearIgnores(s: Sys, number: nat, kept: bool, heard: G.Outcome)
    requires GuardSide(s) && number in s.sdk.outbox
    requires !heard.ok && (heard.g == s.guard || Leaves(s.guard, heard.g))
    ensures GuardSide(HearStep(s, number, kept, heard))
  {
    if Leaves(s.guard, heard.g) { LeaveKeeps(s, HearStep(s, number, kept, heard), heard.g.probe.state); }
  }

  lemma PubackKeeps(s: Sys, number: nat, kept: bool)
    requires Invariant(s) && number in s.sdk.outbox
    ensures Invariant(PubackStep(s, number, kept))
  {
    var id := IdAt(s.sdk.base, number);
    var heard := G.OnPuback(s.guard, s.guard.generation, id, s.nowMs);
    HeardEffect(s.guard, id, s.nowMs);
    HearKeeps(s, number, kept, heard);
  }

  lemma HearKeeps(s: Sys, number: nat, kept: bool, heard: G.Outcome)
    requires Invariant(s) && number in s.sdk.outbox
    requires Heard(s.guard, IdAt(s.sdk.base, number), s.nowMs, heard)
    ensures Invariant(HearStep(s, number, kept, heard))
  {
    if heard.ok {
      HearProves(s, number, kept, heard);
    } else {
      HearQuiet(s, number, kept, heard);
      if heard.g == s.guard || Leaves(s.guard, heard.g) { HearIgnores(s, number, kept, heard); }
      else { HearBuffers(s, number, kept, heard); }
    }
  }

  lemma ConcludeProves(s: Sys, done: G.Outcome)
    requires Invariant(s) && s.owner.Returned?
    requires Concluded(s.guard, s.token.sequence, s.owner.rc, done) && done.ok
    ensures Invariant(ConcludeStep(s, done))
  {
    var rc := s.owner.rc;
    var i := G.FirstEarly(s.guard.early, rc);
    var r := s.ledger.buffered[i];
    assert r in s.ledger.buffered;
    assert Buffers(s.guard.early[i], r, s.sdk.base, s.guard.probe, s.ledger.begunMs);
    QuietResult(s.health, s.token, s.nowMs);
    IdsAgree(s.sdk.base, r.number, s.ledger.number);
    AcceptKeeps(s, done.g, H.ProbeAdmitted(s.health, s.token, s.nowMs).h, r);
  }

  lemma ConcludeTells(s: Sys, done: G.Outcome)
    requires H.WindowInvariant(s.health) && s.health.nowMs <= s.nowMs && s.owner.Returned? && !done.ok
    ensures Quiet(s.health, ConcludeStep(s, done).health, s.nowMs)
  {
    var admitted := if 0 <= s.owner.rc then H.ProbeAdmitted(s.health, s.token, s.nowMs).h else s.health;
    QuietResult(s.health, s.token, s.nowMs);
    QuietResult(admitted, s.token, s.nowMs);
  }

  lemma ConcludeQuiet(s: Sys, done: G.Outcome)
    requires HealthSide(s) && s.owner.Returned?
    requires Concluded(s.guard, s.token.sequence, s.owner.rc, done) && !done.ok
    ensures HealthSide(ConcludeStep(s, done))
  {
    ConcludeTells(s, done);
    QuietKeeps(s, ConcludeStep(s, done));
  }

  lemma ConcludeWaits(s: Sys, done: G.Outcome)
    requires GuardSide(s) && s.owner.Returned?
    requires Concluded(s.guard, s.token.sequence, s.owner.rc, done) && !done.ok
    ensures GuardSide(ConcludeStep(s, done))
  {
    if Leaves(s.guard, done.g) { LeaveKeeps(s, ConcludeStep(s, done), done.g.probe.state); }
  }

  lemma EarlyWithin(s: Sys)
    requires BufferInvariant(s)
    ensures forall a <- s.guard.early :: s.guard.probe.Within(a.receivedMs)
  {
    forall a <- s.guard.early ensures s.guard.probe.Within(a.receivedMs) {
      var i :| 0 <= i < |s.guard.early| && s.guard.early[i] == a;
    }
  }

  lemma FinishKeeps(s: Sys)
    requires Invariant(s) && s.owner.Returned?
    ensures Invariant(FinishStep(s))
  {
    var done := G.ProbeResult(s.guard, s.token.sequence, s.owner.rc, s.nowMs);
    EarlyWithin(s);
    ResultEffect(s.guard, s.token.sequence, s.owner.rc, s.nowMs);
    if done.ok { ConcludeProves(s, done); } else {
      ConcludeQuiet(s, done);
      ConcludeWaits(s, done);
    }
  }

  lemma ConnectedKeepsGuard(s: Sys)
    requires GuardSide(s)
    ensures GuardSide(ConnectedStep(s))
  {
  }

  lemma ConnectedKeeps(s: Sys)
    requires Invariant(s)
    ensures Invariant(ConnectedStep(s))
  {
    ConnectedKeepsGuard(s);
    QuietLink(s.health, s.nowMs, false);
    QuietLoss(H.OnConnected(s.health, s.nowMs), s.nowMs);
    QuietKeeps(s, ConnectedStep(s));
  }

  lemma StoppedKeeps(s: Sys)
    requires Invariant(s) && s.owner.Free?
    ensures Invariant(StoppedStep(s))
  {
    QuietLink(s.health, s.nowMs, false);
    QuietKeeps(s, StoppedStep(s));
  }

  lemma MonitorKeeps(s: Sys)
    requires Invariant(s)
    ensures Invariant(Step(s, Monitor))
  {
    var s' := Step(s, Monitor);
    QuietLoss(s.health, s.nowMs);
    QuietKeeps(s, s');
    if s'.guard != s.guard { LeaveKeeps(s, s', G.Expired); }
  }

  lemma OtaKeeps(s: Sys, active: bool)
    requires Invariant(s)
    ensures Invariant(Step(s, OtaChanged(active)))
  {
    var s' := Step(s, OtaChanged(active));
    QuietLink(s.health, s.nowMs, active);
    QuietKeeps(s, s');
    LeaveKeeps(s, s', G.Retired);
  }

  lemma DisconnectedKeeps(s: Sys)
    requires Invariant(s)
    ensures Invariant(Step(s, Disconnected))
  {
    QuietLink(s.health, s.nowMs, false);
    QuietKeeps(s, Step(s, Disconnected));
  }

  lemma ArmResetKeeps(s: Sys)
    requires Invariant(s) && Enabled(s, ArmReset)
    ensures Invariant(Step(s, ArmReset))
  {
    QuietLoss(s.health, s.nowMs);
    QuietKeeps(s, Step(s, ArmReset));
  }

  lemma SmallStepKeepsGuard(s: Sys, e: Event)
    requires GuardSide(s) && Enabled(s, e)
    requires e.Tick? || e.CallPlain? || e.Forget? || e.WorkBegin? || e.WorkEnd?
    ensures GuardSide(Step(s, e))
  {
  }

  lemma SmallStepKeeps(s: Sys, e: Event)
    requires Invariant(s) && Enabled(s, e)
    requires e.Tick? || e.CallPlain? || e.Forget? || e.WorkBegin? || e.WorkEnd?
    ensures Invariant(Step(s, e))
  {
    SmallStepKeepsGuard(s, e);
    QuietWork(s.health, s.nowMs);
    QuietKeeps(s, Step(s, e));
  }

  lemma StepKeeps(s: Sys, e: Event)
    requires Invariant(s) && Enabled(s, e)
    ensures Invariant(Step(s, e))
  {
    match e
    case Reserve => ReserveKeeps(s);
    case ArmProbe(startedMs) => ArmKeeps(s, startedMs);
    case TakeId(kept) => TakeKeeps(s, kept);
    case Return(ok) => ReturnKeeps(s, ok);
    case FinishProbe => FinishKeeps(s);
    case Puback(number, kept) => PubackKeeps(s, number, kept);
    case Connected => ConnectedKeeps(s);
    case Disconnected => DisconnectedKeeps(s);
    case Monitor => MonitorKeeps(s);
    case OtaChanged(active) => OtaKeeps(s, active);
    case ArmReset => ArmResetKeeps(s);
    case Stopped => StoppedKeeps(s);
    case _ => SmallStepKeeps(s, e);
  }

  // ---- Theorems over every run -----------------------------------------------

  /** A run of events; one that is not enabled where it stands changes nothing. */
  ghost function Execute(base: int, run: seq<Event>): Sys {
    if run == [] then Init(base)
    else
      var before := Execute(base, run[..|run| - 1]);
      if Enabled(before, run[|run| - 1]) then Step(before, run[|run| - 1]) else before
  }

  lemma {:induction false} ReachedInvariant(base: int, run: seq<Event>)
    requires 1 <= base <= G.UINT16_MAX
    ensures Invariant(Execute(base, run))
  {
    if run != [] {
      var before := Execute(base, run[..|run| - 1]);
      ReachedInvariant(base, run[..|run| - 1]);
      if Enabled(before, run[|run| - 1]) { StepKeeps(before, run[|run| - 1]); }
    }
  }

  /** Whenever the guard accepted a proof, the broker had acknowledged the very
      publication that the probe made, on the connection the probe was begun on
      and inside the probe window; no token is proved twice. */
  lemma ProofSoundness(base: int, run: seq<Event>)
    requires 1 <= base <= G.UINT16_MAX
    ensures var accepted := Execute(base, run).ledger.accepted;
            && (forall a <- accepted :: Sound(a))
            && (forall i, j :: 0 <= i < j < |accepted| ==> accepted[i].token != accepted[j].token)
  {
    ReachedInvariant(base, run);
  }

  /** With an incremental SDK the guard distrusts its ids exactly when a
      connection was reported twice, or a 64-bit counter ran out, since identities
      were last renewed: it never raises a false alarm about an id. */
  lemma NoFalseAlarm(base: int, run: seq<Event>)
    requires 1 <= base <= G.UINT16_MAX
    ensures Execute(base, run).guard.unsafe <==> Execute(base, run).ledger.misconnected
  {
    ReachedInvariant(base, run);
  }

  /** End to end: if the health clock reports fresh proof now, the broker confirmed
      a probe's own publication on the present connection, less than one interval
      plus one deadline ago. */
  lemma FreshMeansConfirmed(base: int, run: seq<Event>)
    requires 1 <= base <= G.UINT16_MAX
    ensures var s := Execute(base, run);
            H.View(H.Advance(s.health, s.nowMs)).proofFresh ==>
              exists a <- s.ledger.accepted ::
                && Sound(a)
                && s.guard.connected && a.receipt.generation == s.guard.generation
                && s.nowMs < a.receipt.atMs + CONFIG.intervalMs + CONFIG.deadlineMs
  {
    ReachedInvariant(base, run);
    var s := Execute(base, run);
    QuietLoss(s.health, s.nowMs);
    if H.View(H.Advance(s.health, s.nowMs)).proofFresh {
      assert s.ledger.accepted[s.ledger.current] in s.ledger.accepted;
    }
  }
}
