/** The watchdog's teardown: one commit nested through the update claim, the MQTT health
    clock and the PPP lifecycle, each lock taken inside the one before. */
module Teardown {
  import U = UpdateClaims
  import H = MqttHealth
  import opened PppEvents
  import opened Wrappers

  datatype Backend = Mqtt | Http | Arkiv

  /** What MQTT keeps under its lock, besides the health clock. */
  datatype Client = Client(ready: bool, refused: bool, otaActive: bool, health: H.HealthState)

  datatype World = World(flags: U.Flags, client: Client, ppp: Ppp, backend: Backend)

  /** What the supervisor saw when it decided. */
  datatype Expected = Expected(backend: Backend, generation: nat, lastAckMs: H.Time, attempt: nat, sequence: nat)

  /** The health record after the poll that the commit makes. */
  function Polled(c: Client, now: H.Time): Client {
    if c.ready then c.(health := H.Advance(c.health, now)) else c
  }

  /** Whether MQTT agrees, on its state after the poll. */
  predicate MqttAgrees(c: Client, x: Expected) {
    var live := c.ready;
    && !c.otaActive && !c.refused
    && !(live && c.health.otaActive) && !(live && c.health.connected) && !(live && c.health.ProofFresh())
    && !(live && H.View(c.health).workerStalled)
    && (if live then c.health.generation else 0) == x.generation
    && (if live then c.health.proof.lastAckMs else 0) == x.lastAckMs
  }

  predicate Asks(w: World, x: Expected) { U.Claimable(w.flags) && w.backend == x.backend }

  predicate Succeeds(w: World, x: Expected, now: H.Time) {
    && Asks(w, x)
    && (x.backend.Mqtt? ==> MqttAgrees(Polled(w.client, now), x))
    && Committable(w.ppp, x.attempt, x.sequence)
  }

  function TryTeardown(w: World, x: Expected, now: H.Time): World {
    var polled := if Asks(w, x) && x.backend.Mqtt? then w.(client := Polled(w.client, now)) else w;
    if Succeeds(w, x, now) then
      polled.(flags := U.RecoveryTried(w.flags, true), ppp := CommitStop(w.ppp, x.attempt, x.sequence))
    else polled
  }

  /** The three guards as the firmware keeps them. */
  class Watchdog {
    const arbiter: U.Arbiter
    const health: H.Health
    const ppp: Lifecycle
    var ready: bool
    var refused: bool
    var otaActive: bool
    var backend: Backend

    ghost function State(): World
      reads this, arbiter, health, ppp
    {
      World(arbiter.State(), Client(ready, refused, otaActive, health.State()), ppp.State(), backend)
    }

    constructor (arbiter: U.Arbiter, health: H.Health, ppp: Lifecycle, backend: Backend)
      ensures this.arbiter == arbiter && this.health == health && this.ppp == ppp
      ensures !ready && !refused && !otaActive && this.backend == backend
    {
      this.arbiter, this.health, this.ppp := arbiter, health, ppp;
      ready, refused, otaActive, this.backend := false, false, false, backend;
    }

    method CommitMqtt(x: Expected, now: H.Time) returns (ok: bool)
      modifies health, ppp
      ensures State() == old(State()).(client := Polled(old(State()).client, now), ppp := ppp.State())
      ensures ok == (MqttAgrees(Polled(old(State()).client, now), x) && Committable(old(State()).ppp, x.attempt, x.sequence))
      ensures ppp.State() == if ok then CommitStop(old(State()).ppp, x.attempt, x.sequence) else old(State()).ppp
    {
      var connected, ota, proven, stalled, generation, lastAck := false, false, false, false, 0, 0;
      if ready {
        var current := health.Poll(now);
        connected, ota, proven, stalled := current.connected, current.otaActive, current.proofFresh, current.workerStalled;
        generation, lastAck := current.generation, current.lastAckMs;
      }
      ok := !otaActive && !refused && !ota && !connected && !proven && !stalled
            && generation == x.generation && lastAck == x.lastAckMs;
      if ok { ok := ppp.Commit(x.attempt, x.sequence); }
    }

    method CommitBackend(x: Expected, now: H.Time) returns (ok: bool)
      modifies health, ppp
      ensures var w := old(State());
              && ok == (w.backend == x.backend && (x.backend.Mqtt? ==> MqttAgrees(Polled(w.client, now), x))
                        && Committable(w.ppp, x.attempt, x.sequence))
              && State() == w.(client := if w.backend == x.backend && x.backend.Mqtt? then Polled(w.client, now) else w.client,
                               ppp := if ok then CommitStop(w.ppp, x.attempt, x.sequence) else w.ppp)
    {
      if backend != x.backend { return false; }
      if x.backend == Mqtt {
        ok := CommitMqtt(x, now);
      } else {
        ok := ppp.Commit(x.attempt, x.sequence);
      }
    }

    method Try(x: Expected, now: H.Time) returns (ok: bool)
      modifies arbiter, health, ppp
      ensures ok == Succeeds(old(State()), x, now) && State() == TryTeardown(old(State()), x, now)
    {
      if arbiter.inProgress || arbiter.validationBusy || arbiter.recoveryBusy { return false; }
      ok := CommitBackend(x, now);
      var tried := arbiter.TryRecovery(ok);
    }
  }

  // Runs of everything that takes one of the locks.

  datatype Event =
    | UpdateClaim(now: H.Time)
    | UpdateRelease(now: H.Time)
    | ConfirmEnter(automatic: bool, late: bool, proven: bool)
    | ConfirmLeave(ok: bool)
    | RollbackEnter(late: bool)
    | RollbackLeave
    | RecoveryFinish
    | MqttCall(call: H.Call)
    | ClientSet(ready: bool, refused: bool)
    | BackendSet(backend: Backend)
    | PppCall(op: Op)
    | Teardowns(x: Expected, now: H.Time)

  /** The claim tells MQTT, inside its own section. */
  function Told(c: Client, now: H.Time, active: bool): Client {
    c.(otaActive := active, health := if c.ready then H.SetOtaActive(c.health, now, active) else c.health)
  }

  function Step(w: World, e: Event): World {
    match e
    case UpdateClaim(now) =>
      if U.Claimable(w.flags) then w.(flags := U.Claimed(w.flags), client := Told(w.client, now, true)) else w
    case UpdateRelease(now) => w.(flags := U.Released(w.flags), client := Told(w.client, now, false))
    case ConfirmEnter(automatic, late, proven) => w.(flags := U.ConfirmEntered(w.flags, automatic, late, proven))
    case ConfirmLeave(ok) => w.(flags := U.ConfirmLeft(w.flags, ok))
    case RollbackEnter(late) => w.(flags := U.RollbackEntered(w.flags, late))
    case RollbackLeave => w.(flags := U.RollbackLeft(w.flags))
    case RecoveryFinish => w.(flags := w.flags.(recoveryBusy := false))
    case MqttCall(call) => w.(client := w.client.(health := H.Apply(w.client.health, call).h))
    case ClientSet(ready, refused) => w.(client := w.client.(ready := ready, refused := refused))
    case BackendSet(backend) => w.(backend := backend)
    case PppCall(op) => w.(ppp := Apply(w.ppp, op))
    case Teardowns(x, now) => TryTeardown(w, x, now)
  }

  function Run(w: World, run: seq<Event>): World {
    if run == [] then w else Step(Run(w, run[..|run| - 1]), run[|run| - 1])
  }

  /** The lifecycle call that an event makes, the commit of a successful teardown included. */
  function OpOf(w: World, e: Event): Option<Op> {
    match e
    case PppCall(op) => Some(op)
    case Teardowns(x, now) => if Succeeds(w, x, now) then Some(Commits(x.attempt, x.sequence)) else None
    case _ => None
  }

  /** The lifecycle calls of a run. */
  function OpsOf(w: World, run: seq<Event>): seq<Op> {
    if run == [] then []
    else
      var ops := OpsOf(w, run[..|run| - 1]);
      match OpOf(Run(w, run[..|run| - 1]), run[|run| - 1])
      case Some(op) => ops + [op]
      case None => ops
  }

  lemma OneMoreOp(p: Ppp, ops: seq<Op>, op: Op)
    ensures Play(p, ops + [op]) == Apply(Play(p, ops), op)
  {
    assert (ops + [op])[..|ops|] == ops;
  }

  lemma StepPpp(w: World, e: Event)
    ensures Step(w, e).ppp == match OpOf(w, e) case Some(op) => Apply(w.ppp, op) case None => w.ppp
  {
  }

  lemma {:induction false} PppFollowsOps(w: World, run: seq<Event>)
    ensures Run(w, run).ppp == Play(w.ppp, OpsOf(w, run))
  {
    if run != [] {
      var earlier, e := run[..|run| - 1], run[|run| - 1];
      PppFollowsOps(w, earlier);
      StepPpp(Run(w, earlier), e);
      match OpOf(Run(w, earlier), e)
      case Some(op) => OneMoreOp(w.ppp, OpsOf(w, earlier), op);
      case None =>
    }
  }

  /** What the supervisor goes by, read one after the other: the PPP state, the backend, and
      the MQTT record if the backend is still MQTT by then. */
  function Seen(first: World, second: World, third: World): Expected {
    var asked := third.backend.Mqtt? && third.client.ready;
    Expected(second.backend, if asked then third.client.health.generation else 0,
             if asked then third.client.health.proof.lastAckMs else 0,
             first.ppp.attempt, first.ppp.sequence)
  }

  /** The reads at the start of a run, behind its part `a`, and behind `b`. */
  function SeenAlong(w: World, a: seq<Event>, b: seq<Event>): Expected {
    Seen(w, Run(w, a), Run(w, a + b))
  }

  /** A successful teardown in MQTT mode is one instant at which no update is under way, MQTT
      is disconnected with generation and last answer as they were read, and the PPP session
      is up and untouched since it was read, whatever went on between the reads and after. */
  lemma TeardownIsLinearized(w: World, a: seq<Event>, b: seq<Event>, c: seq<Event>, now: H.Time)
    requires Run(w, a).backend.Mqtt? && w.ppp.sequence < WRAP && Moves(w.ppp, OpsOf(w, a + b + c)) < WRAP
    requires Succeeds(Run(w, a + b + c), SeenAlong(w, a, b), now)
    ensures var v, x := Run(w, a + b + c), SeenAlong(w, a, b);
            && !v.flags.inProgress && !v.flags.validationBusy && !v.flags.recoveryBusy
            && !v.client.otaActive && !(v.client.ready && v.client.health.connected)
            && (v.client.ready ==> v.client.health.generation == x.generation
                                   && v.client.health.proof.lastAckMs == x.lastAckMs)
            && v.ppp == w.ppp && v.ppp.phase.Up? && Moves(w.ppp, OpsOf(w, a + b + c)) == 0
    ensures var v' := TryTeardown(Run(w, a + b + c), SeenAlong(w, a, b), now);
            v'.flags.recoveryBusy && !v'.flags.inProgress && v'.ppp.phase.Stopping?
  {
    PppFollowsOps(w, a + b + c);
    SameSequenceSameState(w.ppp, OpsOf(w, a + b + c));
    Instant(Run(w, a + b + c), SeenAlong(w, a, b), now);
  }

  /** A teardown succeeds on a PPP session that changed since it was read. */
  ghost predicate Strays(w: World, a: seq<Event>, b: seq<Event>, c: seq<Event>, now: H.Time) {
    && Run(w, a).backend.Mqtt? && w.ppp.sequence < WRAP
    && Succeeds(Run(w, a + b + c), SeenAlong(w, a, b), now) && Run(w, a + b + c).ppp != w.ppp
  }

  function Calls(ops: seq<Op>): seq<Event> {
    if ops == [] then [] else Calls(ops[..|ops| - 1]) + [PppCall(ops[|ops| - 1])]
  }

  lemma {:induction false} OneMoreCall(w: World, run: seq<Event>, op: Op)
    ensures Run(w, run + [PppCall(op)]) == Run(w, run).(ppp := Apply(Run(w, run).ppp, op))
    ensures OpsOf(w, run + [PppCall(op)]) == OpsOf(w, run) + [op]
  {
    assert (run + [PppCall(op)])[..|run|] == run;
  }

  lemma {:induction false} CallsPlay(w: World, ops: seq<Op>)
    ensures Run(w, Calls(ops)) == w.(ppp := Play(w.ppp, ops))
    ensures OpsOf(w, Calls(ops)) == ops
  {
    if ops != [] {
      var earlier, op := ops[..|ops| - 1], ops[|ops| - 1];
      var run := Calls(earlier);
      CallsPlay(w, earlier);
      OneMoreCall(w, run, op);
      assert Calls(ops) == run + [PppCall(op)];
      assert Run(w, run + [PppCall(op)]) == w.(ppp := Apply(Play(w.ppp, earlier), op));
      assert OpsOf(w, run + [PppCall(op)]) == earlier + [op] == ops;
    }
  }

  /** With nothing else going on, 2^32 changes of the link lead a teardown astray. */
  lemma FullTurnStrays(w: World, ops: seq<Op>)
    requires w.backend.Mqtt? && U.Claimable(w.flags) && !w.client.ready && !w.client.refused && !w.client.otaActive
    requires w.ppp.sequence < WRAP && Committable(Play(w.ppp, ops), w.ppp.attempt, w.ppp.sequence)
    requires Play(w.ppp, ops) != w.ppp
    ensures Strays(w, [], [], Calls(ops), 0) && OpsOf(w, [] + [] + Calls(ops)) == ops
  {
    CallsPlay(w, ops);
    var none: seq<Event> := [];
    assert none + none == none && none + none + Calls(ops) == Calls(ops);
  }

  lemma {:induction false} IdleWorld(n: nat)
    requires n == WRAP
    ensures exists w, a, b, c, now :: Strays(w, a, b, c, now) && Moves(w.ppp, OpsOf(w, a + b + c)) <= n
  {
    var flags := U.Flags(false, false, false, false, true, false);
    var w := World(flags, Client(false, false, false, H.Init(H.Config(1, 1, 1), 0)), AT_BOOT.(phase := Up), Mqtt);
    FullTurnConfuses(w.ppp, n, Play(w.ppp, Relinked(n)));
    FullTurnStrays(w, Relinked(n));
    assert Strays(w, [], [], Calls(Relinked(n)), 0);
  }

  /** Teardowns are safe while so few changes lie between read and commit, exactly. */
  lemma {:induction false} StraysExactlyAfterFullTurn(most: nat)
    ensures (exists w, a, b, c, now :: Strays(w, a, b, c, now) && Moves(w.ppp, OpsOf(w, a + b + c)) <= most) <==> WRAP <= most
  {
    if most < WRAP {
      forall w, a, b, c, now | Strays(w, a, b, c, now) ensures most < Moves(w.ppp, OpsOf(w, a + b + c)) {
        if Moves(w.ppp, OpsOf(w, a + b + c)) <= most { TeardownIsLinearized(w, a, b, c, now); }
      }
    } else {
      var n := WRAP;
      IdleWorld(n);
      var w, a, b, c, now :| Strays(w, a, b, c, now) && Moves(w.ppp, OpsOf(w, a + b + c)) <= n;
      assert Moves(w.ppp, OpsOf(w, a + b + c)) <= most;
    }
  }

  /** What a success says of the state it was granted on. */
  lemma Instant(v: World, x: Expected, now: H.Time)
    requires Succeeds(v, x, now) && x.backend.Mqtt?
    ensures !v.flags.inProgress && !v.flags.validationBusy && !v.flags.recoveryBusy && v.ppp.phase.Up?
    ensures v.ppp.attempt == x.attempt && v.ppp.sequence == x.sequence
    ensures !v.client.otaActive && !(v.client.ready && v.client.health.connected)
    ensures v.client.ready ==> v.client.health.generation == x.generation && v.client.health.proof.lastAckMs == x.lastAckMs
    ensures var v' := TryTeardown(v, x, now); v'.flags.recoveryBusy && !v'.flags.inProgress && v'.ppp.phase.Stopping?
  {
  }

  predicate NoFinish(run: seq<Event>) { forall i :: 0 <= i < |run| ==> !run[i].RecoveryFinish? }

  /** While the recovery lasts, no update claim, and no second teardown, succeeds. */
  lemma {:induction false} RecoveryExcludes(w: World, run: seq<Event>)
    requires w.flags.recoveryBusy && !w.flags.inProgress && NoFinish(run)
    ensures Run(w, run).flags.recoveryBusy && !Run(w, run).flags.inProgress
    ensures forall x, t :: !Succeeds(Run(w, run), x, t)
  {
    if run != [] {
      assert NoFinish(run[..|run| - 1]);
      RecoveryExcludes(w, run[..|run| - 1]);
      assert !run[|run| - 1].RecoveryFinish?;
    }
  }

  predicate NoDialIn(run: seq<Event>) { forall i :: 0 <= i < |run| ==> run[i] != PppCall(Dials) }

  lemma {:induction false} NoDialOps(w: World, run: seq<Event>)
    requires NoDialIn(run)
    ensures NoDial(OpsOf(w, run))
  {
    if run != [] {
      assert NoDialIn(run[..|run| - 1]);
      NoDialOps(w, run[..|run| - 1]);
      assert run[|run| - 1] != PppCall(Dials);
    }
  }

  /** An address that arrives after the commit does not bring the session back. */
  lemma LateAddressIgnored(w: World, x: Expected, now: H.Time, after: seq<Event>)
    requires Succeeds(w, x, now) && NoDialIn(after)
    ensures var v := Run(TryTeardown(w, x, now), after); !v.ppp.phase.Up? && CurrentGeneration(v.ppp) == 0
  {
    var v := TryTeardown(w, x, now);
    NoDialOps(v, after);
    PppFollowsOps(v, after);
    StoppedStaysDown(v.ppp, OpsOf(v, after));
  }
}
