/** The MQTT publication health clock: when a probe is due, when it is too late,
    and for how long one acknowledged probe counts as fresh proof.

    Times are 64-bit milliseconds; `AddSaturated` is the only addition the
    schedule uses. A stale time is clamped to the latest one observed. */
module MqttHealth {

  const UINT64_MAX: nat := 0xFFFF_FFFF_FFFF_FFFF

  type Time = t: nat | t <= UINT64_MAX

  datatype Token = Token(generation: nat, sequence: nat)

  datatype Failure = NoFailure | AdmissionTimeout | AckTimeout | ProbeFailure | EventLoss

  datatype Config = Config(intervalMs: Time, deadlineMs: Time, stallMs: Time)
  {
    /** The configurations that initialisation accepts. */
    predicate Accepted() { 0 < deadlineMs && 0 < stallMs && deadlineMs <= intervalMs }
  }

  datatype Window = Window(dueMs: Time, deadlineMs: Time)
  datatype Pending = Pending(active: bool, admitted: bool, token: Token)
  datatype Proof = Proof(valid: bool, lastAckMs: Time)
  datatype Worker = Worker(busy: bool, checkpointMs: Time)

  datatype HealthState = HealthState(
    config: Config,
    nowMs: Time,
    generation: nat,
    sequence: nat,
    connected: bool,
    otaActive: bool,
    window: Window,
    probe: Pending,
    proof: Proof,
    failure: Failure,
    worker: Worker)
  {
    predicate Running() { connected && !otaActive }

    predicate Matches(token: Token) { Running() && probe.active && token == probe.token }

    predicate ProofFresh() { Running() && proof.valid }
  }

  datatype Snapshot = Snapshot(connected: bool, otaActive: bool, probeDue: bool, probe: Pending,
                               proofFresh: bool, workerStalled: bool, failure: Failure,
                               generation: nat, window: Window, lastAckMs: Time)

  /** What one call leaves behind and what it tells its caller. */
  datatype Outcome = Outcome(h: HealthState, ok: bool)

  const NO_PROBE: Pending := Pending(false, false, Token(0, 0))

  function Max(a: Time, b: Time): Time { if a < b then b else a }

  function AddSaturated(a: Time, b: Time): Time {
    if UINT64_MAX - a < b then UINT64_MAX else a + b
  }

  function Init(config: Config, now: Time): HealthState {
    HealthState(config, now, 0, 0, false, false, Window(0, 0), NO_PROBE, Proof(false, 0),
                NoFailure, Worker(false, 0))
  }

  function ObserveTime(h: HealthState, now: Time): HealthState {
    h.(nowMs := Max(h.nowMs, now))
  }

  function WindowAt(h: HealthState, due: Time): Window {
    Window(due, AddSaturated(due, h.config.deadlineMs))
  }

  /** The window after this one: never earlier than one interval on, nor than now. */
  function NextWindow(h: HealthState): Window {
    WindowAt(h, Max(AddSaturated(h.window.dueMs, h.config.intervalMs), h.nowMs))
  }

  function FailWindow(h: HealthState, reason: Failure): HealthState {
    h.(proof := h.proof.(valid := false), failure := reason, probe := NO_PROBE, window := NextWindow(h))
  }

  function Advance(h: HealthState, now: Time): HealthState {
    var h := ObserveTime(h, now);
    if h.Running() && h.window.deadlineMs <= h.nowMs then
      FailWindow(h, if h.probe.admitted then AckTimeout else AdmissionTimeout)
    else h
  }

  function OnConnected(h: HealthState, now: Time): HealthState {
    var h := ObserveTime(h, now);
    h.(generation := if h.generation == UINT64_MAX then h.generation else h.generation + 1,
       connected := true, proof := h.proof.(valid := false), failure := NoFailure,
       probe := NO_PROBE, window := WindowAt(h, h.nowMs))
  }

  function OnDisconnected(h: HealthState, now: Time): HealthState {
    ObserveTime(h, now).(connected := false, proof := h.proof.(valid := false), failure := NoFailure,
                         probe := NO_PROBE, window := Window(0, 0))
  }

  function View(h: HealthState): Snapshot {
    Snapshot(h.connected, h.otaActive,
             h.Running() && !h.probe.active && h.window.dueMs <= h.nowMs < h.window.deadlineMs,
             h.probe, h.ProofFresh(),
             h.worker.busy && h.config.stallMs <= h.nowMs - h.worker.checkpointMs,
             h.failure, h.generation, h.window, h.proof.lastAckMs)
  }

  function BeginProbe(h: HealthState, now: Time): Outcome {
    var h := Advance(h, now);
    if !h.Running() || h.probe.active || h.nowMs < h.window.dueMs || h.window.deadlineMs <= h.nowMs
       || h.sequence == UINT64_MAX then Outcome(h, false)
    else Outcome(h.(sequence := h.sequence + 1,
                    probe := Pending(true, false, Token(h.generation, h.sequence + 1))), true)
  }

  function ProbeAdmitted(h: HealthState, token: Token, now: Time): Outcome {
    var h := Advance(h, now);
    if !h.Matches(token) || h.probe.admitted then Outcome(h, false)
    else Outcome(h.(probe := h.probe.(admitted := true)), true)
  }

  function ProbeAck(h: HealthState, token: Token, now: Time): Outcome {
    var h := Advance(h, now);
    if !h.Matches(token) || !h.probe.admitted then Outcome(h, false)
    else Outcome(h.(proof := Proof(true, h.nowMs), failure := NoFailure, probe := NO_PROBE,
                    window := NextWindow(h)), true)
  }

  function ProbeFailed(h: HealthState, token: Token, now: Time): Outcome {
    var h := Advance(h, now);
    if !h.Matches(token) then Outcome(h, false) else Outcome(FailWindow(h, ProbeFailure), true)
  }

  function OnEventLoss(h: HealthState, now: Time): HealthState {
    var h := ObserveTime(h, now);
    if h.Running() then FailWindow(h, EventLoss)
    else h.(proof := h.proof.(valid := false), probe := NO_PROBE)
  }

  function SetOtaActive(h: HealthState, now: Time, active: bool): HealthState {
    var h := ObserveTime(h, now);
    if h.otaActive == active then h
    else h.(otaActive := active, proof := h.proof.(valid := false), failure := NoFailure,
            probe := NO_PROBE,
            window := if h.connected && !active then WindowAt(h, h.nowMs) else h.window)
  }

  function WorkerBegin(h: HealthState, now: Time): HealthState {
    var h := ObserveTime(h, now);
    if h.worker.busy then h else h.(worker := Worker(true, h.nowMs))
  }

  function WorkerCheckpoint(h: HealthState, now: Time): HealthState {
    var h := ObserveTime(h, now);
    if h.worker.busy then h.(worker := Worker(true, h.nowMs)) else h
  }

  function WorkerEnd(h: HealthState, now: Time): HealthState {
    var h := ObserveTime(h, now);
    h.(worker := Worker(false, h.nowMs))
  }

  /** The health record as the firmware keeps it, updated in place. */
  class Health {
    const config: Config
    var nowMs: Time
    var generation: nat
    var sequence: nat
    var connected: bool
    var otaActive: bool
    var window: Window
    var probe: Pending
    var proof: Proof
    var failure: Failure
    var worker: Worker

    ghost function State(): HealthState
      reads this
    {
      HealthState(config, nowMs, generation, sequence, connected, otaActive, window, probe, proof,
                  failure, worker)
    }

    constructor (config: Config, now: Time)
      ensures State() == Init(config, now)
    {
      this.config, nowMs, generation, sequence := config, now, 0, 0;
      connected, otaActive, window, probe := false, false, Window(0, 0), NO_PROBE;
      proof, failure, worker := Proof(false, 0), NoFailure, Worker(false, 0);
    }

    method Observe(now: Time)
      modifies this`nowMs
      ensures State() == ObserveTime(old(State()), now)
    {
      if now > nowMs { nowMs := now; }
    }

    method Schedule(due: Time)
      modifies this`window
      ensures window == WindowAt(State(), due)
    {
      window := Window(due, AddSaturated(due, config.deadlineMs));
    }

    method ScheduleNext()
      modifies this`window
      ensures State() == old(State()).(window := NextWindow(old(State())))
    {
      var due := AddSaturated(window.dueMs, config.intervalMs);
      Schedule(if due < nowMs then nowMs else due);
    }

    method Fail(reason: Failure)
      modifies this
      ensures State() == FailWindow(old(State()), reason)
    {
      proof := proof.(valid := false);
      failure, probe := reason, NO_PROBE;
      ScheduleNext();
    }

    method Step(now: Time)
      modifies this
      ensures State() == Advance(old(State()), now)
    {
      Observe(now);
      if connected && !otaActive && nowMs >= window.deadlineMs {
        Fail(if probe.admitted then AckTimeout else AdmissionTimeout);
      }
    }

    method Connected(now: Time)
      modifies this
      ensures State() == OnConnected(old(State()), now)
    {
      Observe(now);
      if generation != UINT64_MAX { generation := generation + 1; }
      connected, failure, probe := true, NoFailure, NO_PROBE;
      proof := proof.(valid := false);
      Schedule(nowMs);
    }

    method Disconnected(now: Time)
      modifies this
      ensures State() == OnDisconnected(old(State()), now)
    {
      Observe(now);
      connected, failure, probe, window := false, NoFailure, NO_PROBE, Window(0, 0);
      proof := proof.(valid := false);
    }

    method Poll(now: Time) returns (s: Snapshot)
      modifies this
      ensures State() == Advance(old(State()), now) && s == View(State())
    {
      Step(now);
      s := Snapshot(connected, otaActive,
                    connected && !otaActive && !probe.active && nowMs >= window.dueMs
                    && nowMs < window.deadlineMs,
                    probe, connected && !otaActive && proof.valid,
                    worker.busy && nowMs - worker.checkpointMs >= config.stallMs,
                    failure, generation, window, proof.lastAckMs);
    }

    method Begin(now: Time) returns (ok: bool, token: Token)
      modifies this
      ensures Outcome(State(), ok) == BeginProbe(old(State()), now)
      ensures ok ==> token == probe.token
    {
      Step(now);
      token := NO_PROBE.token;
      if !connected || otaActive || probe.active || nowMs < window.dueMs
         || nowMs >= window.deadlineMs || sequence == UINT64_MAX { return false, token; }
      sequence := sequence + 1;
      probe := Pending(true, false, Token(generation, sequence));
      return true, probe.token;
    }

    method Admitted(token: Token, now: Time) returns (ok: bool)
      modifies this
      ensures Outcome(State(), ok) == ProbeAdmitted(old(State()), token, now)
    {
      Step(now);
      if !(connected && !otaActive && probe.active && token == probe.token) || probe.admitted { return false; }
      probe := probe.(admitted := true);
      return true;
    }

    method Ack(token: Token, now: Time) returns (ok: bool)
      modifies this
      ensures Outcome(State(), ok) == ProbeAck(old(State()), token, now)
    {
      Step(now);
      if !(connected && !otaActive && probe.active && token == probe.token) || !probe.admitted { return false; }
      proof, failure, probe := Proof(true, nowMs), NoFailure, NO_PROBE;
      ScheduleNext();
      return true;
    }

    method FailProbe(token: Token, now: Time) returns (ok: bool)
      modifies this
      ensures Outcome(State(), ok) == ProbeFailed(old(State()), token, now)
    {
      Step(now);
      if !(connected && !otaActive && probe.active && token == probe.token) { return false; }
      Fail(ProbeFailure);
      return true;
    }

    method LoseEvents(now: Time)
      modifies this
      ensures State() == OnEventLoss(old(State()), now)
    {
      Observe(now);
      proof := proof.(valid := false);
      probe := NO_PROBE;
      if connected && !otaActive {
        failure := EventLoss;
        ScheduleNext();
      }
    }

    method SetOta(now: Time, active: bool)
      modifies this
      ensures State() == SetOtaActive(old(State()), now, active)
    {
      Observe(now);
      if otaActive == active { return; }
      otaActive, failure, probe := active, NoFailure, NO_PROBE;
      proof := proof.(valid := false);
      if connected && !active { Schedule(nowMs); }
    }

    method BeginWork(now: Time)
      modifies this
      ensures State() == WorkerBegin(old(State()), now)
    {
      Observe(now);
      if !worker.busy { worker := Worker(true, nowMs); }
    }

    method Checkpoint(now: Time)
      modifies this
      ensures State() == WorkerCheckpoint(old(State()), now)
    {
      Observe(now);
      if worker.busy { worker := Worker(true, nowMs); }
    }

    method EndWork(now: Time)
      modifies this
      ensures State() == WorkerEnd(old(State()), now)
    {
      Observe(now);
      worker := Worker(false, nowMs);
    }
  }

  // ---- Probe timing, over every sequence of calls with any clock readings ----

  datatype Call =
    | Connect(now: Time)
    | Disconnect(now: Time)
    | Poll(now: Time)
    | Begin(now: Time)
    | Admit(token: Token, now: Time)
    | Ack(token: Token, now: Time)
    | Fail(token: Token, now: Time)
    | Lose(now: Time)
    | Ota(now: Time, active: bool)
    | Work(now: Time)
    | Progress(now: Time)
    | Rest(now: Time)

  function Apply(h: HealthState, c: Call): Outcome {
    match c
    case Connect(now) => Outcome(OnConnected(h, now), true)
    case Disconnect(now) => Outcome(OnDisconnected(h, now), true)
    case Poll(now) => Outcome(Advance(h, now), true)
    case Begin(now) => BeginProbe(h, now)
    case Admit(token, now) => ProbeAdmitted(h, token, now)
    case Ack(token, now) => ProbeAck(h, token, now)
    case Fail(token, now) => ProbeFailed(h, token, now)
    case Lose(now) => Outcome(OnEventLoss(h, now), true)
    case Ota(now, active) => Outcome(SetOtaActive(h, now, active), true)
    case Work(now) => Outcome(WorkerBegin(h, now), true)
    case Progress(now) => Outcome(WorkerCheckpoint(h, now), true)
    case Rest(now) => Outcome(WorkerEnd(h, now), true)
  }

  /** A health state with the probes of its session: when each was due and begun,
      and when an admitted one was last acknowledged since proof was invalidated. */
  datatype History = History(h: HealthState, dues: seq<Time>, begins: seq<Time>, acked: bool, ackMs: Time)

  predicate EndsSession(h: HealthState, c: Call) {
    c.Connect? || c.Disconnect? || (c.Ota? && c.active != h.otaActive)
  }

  function Observe(y: History, c: Call): History {
    var after := Apply(y.h, c);
    if EndsSession(y.h, c) then History(after.h, [], [], false, 0)
    else if c.Begin? && after.ok then
      History(after.h, y.dues + [after.h.window.dueMs], y.begins + [after.h.nowMs], y.acked, y.ackMs)
    else if c.Ack? && after.ok then History(after.h, y.dues, y.begins, true, after.h.nowMs)
    else if c.Lose? then History(after.h, y.dues, y.begins, false, 0)
    else History(after.h, y.dues, y.begins, y.acked, y.ackMs)
  }

  function Execute(config: Config, start: Time, calls: seq<Call>): History {
    if calls == [] then History(Init(config, start), [], [], false, 0)
    else Observe(Execute(config, start, calls[..|calls| - 1]), calls[|calls| - 1])
  }

  ghost predicate WindowInvariant(h: HealthState) {
    && h.config.Accepted()
    && (h.connected ==> h.window == WindowAt(h, h.window.dueMs))
    && (h.probe.active ==> h.Running() && h.window.dueMs <= h.nowMs)
  }

  /** Valid proof rests on an acknowledgement, and the window in force since it
      was accepted ends within one interval and one deadline of it. */
  ghost predicate ProofInvariant(y: History) {
    y.h.proof.valid ==>
      && y.h.Running() && y.acked && y.ackMs == y.h.proof.lastAckMs <= y.h.nowMs
      && y.h.window.deadlineMs <= y.h.proof.lastAckMs + y.h.config.intervalMs + y.h.config.deadlineMs
  }

  /** Each probe of the session began inside its own window, and windows are at
      least one interval apart. */
  ghost predicate Paced(config: Config, dues: seq<Time>, begins: seq<Time>) {
    && |begins| == |dues|
    && (forall i :: 0 <= i < |dues| ==> dues[i] <= begins[i] < dues[i] + config.deadlineMs)
    && (forall i :: 0 <= i < |dues| - 1 ==> dues[i] + config.intervalMs <= dues[i + 1])
  }

  /** The window in force belongs to the latest probe or is a full interval later. */
  ghost predicate SpacedFrom(h: HealthState, lastDue: Time) {
    || (h.probe.active && h.window.dueMs == lastDue)
    || AddSaturated(lastDue, h.config.intervalMs) <= h.window.dueMs
  }

  ghost predicate TimingInvariant(y: History) {
    && WindowInvariant(y.h)
    && ProofInvariant(y)
    && Paced(y.h.config, y.dues, y.begins)
    && (y.dues != [] ==> y.h.Running() && SpacedFrom(y.h, y.dues[|y.dues| - 1]))
  }

  lemma ConfigKept(h: HealthState, c: Call)
    ensures Apply(h, c).h.config == h.config
  {
  }

  lemma WindowKept(h: HealthState, c: Call)
    requires WindowInvariant(h)
    ensures WindowInvariant(Apply(h, c).h)
  {
  }

  lemma AckGivesProof(y: History, token: Token, now: Time)
    requires WindowInvariant(y.h) && ProofInvariant(y)
    ensures ProofInvariant(Observe(y, Ack(token, now)))
  {
  }

  lemma ProofKept(y: History, c: Call)
    requires WindowInvariant(y.h) && ProofInvariant(y)
    ensures ProofInvariant(Observe(y, c))
  {
    match c
    case Connect(_) =>
    case Disconnect(_) =>
    case Poll(_) =>
    case Begin(_) =>
    case Admit(_, _) =>
    case Ack(token, now) => AckGivesProof(y, token, now);
    case Fail(_, _) =>
    case Lose(_) =>
    case Ota(_, _) =>
    case Work(_) =>
    case Progress(_) =>
    case Rest(_) =>
  }

  lemma AdvanceSpaced(h: HealthState, now: Time, lastDue: Time)
    requires WindowInvariant(h) && h.Running() && SpacedFrom(h, lastDue)
    ensures Advance(h, now).Running() && SpacedFrom(Advance(h, now), lastDue)
    ensures Advance(h, now).config == h.config && WindowInvariant(Advance(h, now))
  {
  }

  lemma NextSpaced(h: HealthState, lastDue: Time)
    requires WindowInvariant(h) && h.Running() && SpacedFrom(h, lastDue)
    ensures AddSaturated(lastDue, h.config.intervalMs) <= NextWindow(h).dueMs
  {
  }

  /** A probe begins only in a window that has moved. */
  lemma BeginSpaced(h: HealthState, now: Time, lastDue: Time)
    requires WindowInvariant(h) && h.Running() && SpacedFrom(h, lastDue)
    ensures var after := BeginProbe(h, now);
            && after.h.Running()
            && (if after.ok then lastDue + h.config.intervalMs <= after.h.window.dueMs else SpacedFrom(after.h, lastDue))
  {
    AdvanceSpaced(h, now, lastDue);
  }

  /** A call that does not end the session leaves the window alone or moves it a
      full interval on, and only then or at the start can a probe begin. */
  lemma SpacingKept(h: HealthState, c: Call, lastDue: Time)
    requires WindowInvariant(h) && h.Running() && SpacedFrom(h, lastDue) && !EndsSession(h, c)
    ensures var after := Apply(h, c);
            && after.h.Running()
            && (if c.Begin? && after.ok then lastDue + h.config.intervalMs <= after.h.window.dueMs
                else SpacedFrom(after.h, lastDue))
  {
    AdvanceSpaced(h, c.now, lastDue);
    NextSpaced(Advance(h, c.now), lastDue);
    NextSpaced(ObserveTime(h, c.now), lastDue);
    if c.Begin? { BeginSpaced(h, c.now, lastDue); }
  }

  lemma BegunInWindow(h: HealthState, now: Time)
    requires WindowInvariant(h)
    ensures var after := BeginProbe(h, now);
            after.ok ==> && after.h.Running() && after.h.probe.active
                         && after.h.window.dueMs <= after.h.nowMs < after.h.window.dueMs + h.config.deadlineMs
  {
  }

  lemma PacedAppend(config: Config, dues: seq<Time>, begins: seq<Time>, due: Time, begin: Time)
    requires Paced(config, dues, begins)
    requires due <= begin < due + config.deadlineMs
    requires dues != [] ==> dues[|dues| - 1] + config.intervalMs <= due
    ensures Paced(config, dues + [due], begins + [begin])
  {
  }

  lemma ObserveKeepsInvariant(y: History, c: Call)
    requires TimingInvariant(y)
    ensures TimingInvariant(Observe(y, c))
  {
    ConfigKept(y.h, c);
    WindowKept(y.h, c);
    ProofKept(y, c);
    if !EndsSession(y.h, c) {
      var after := Apply(y.h, c);
      if y.dues != [] { SpacingKept(y.h, c, y.dues[|y.dues| - 1]); }
      if c.Begin? && after.ok {
        BegunInWindow(y.h, c.now);
        PacedAppend(y.h.config, y.dues, y.begins, after.h.window.dueMs, after.h.nowMs);
      }
    }
  }

  lemma {:induction false} ReachedInvariant(config: Config, start: Time, calls: seq<Call>)
    requires config.Accepted()
    ensures TimingInvariant(Execute(config, start, calls))
    ensures Execute(config, start, calls).h.config == config
  {
    if calls != [] {
      var before := Execute(config, start, calls[..|calls| - 1]);
      ReachedInvariant(config, start, calls[..|calls| - 1]);
      ObserveKeepsInvariant(before, calls[|calls| - 1]);
      ConfigKept(before.h, calls[|calls| - 1]);
    }
  }

  lemma FreshIsBounded(y: History, t: Time)
    requires TimingInvariant(y)
    ensures var s := View(Advance(y.h, t));
            s.proofFresh ==> && y.acked && y.ackMs == s.lastAckMs
                             && t < s.lastAckMs + y.h.config.intervalMs + y.h.config.deadlineMs
  {
  }

  /** Proof reported fresh at `t` is younger than one interval plus one deadline,
      and rests on an acknowledgement accepted since the last connection,
      disconnection, change of OTA state or loss of events. */
  lemma FreshProofIsRecent(config: Config, start: Time, calls: seq<Call>, t: Time)
    requires config.Accepted()
    ensures var y := Execute(config, start, calls);
            var s := View(Advance(y.h, t));
            s.proofFresh ==> && y.acked && y.ackMs == s.lastAckMs
                             && t < s.lastAckMs + config.intervalMs + config.deadlineMs
  {
    ReachedInvariant(config, start, calls);
    FreshIsBounded(Execute(config, start, calls), t);
  }

  lemma {:induction false} DuesSpread(config: Config, dues: seq<Time>, i: nat, j: nat)
    requires i <= j < |dues|
    requires forall k :: 0 <= k < |dues| - 1 ==> dues[k] + config.intervalMs <= dues[k + 1]
    ensures dues[i] + (j - i) * config.intervalMs <= dues[j]
    decreases j
  {
    if i < j {
      DuesSpread(config, dues, i, j - 1);
      assert dues[j - 1] + config.intervalMs <= dues[j - 1 + 1];
      assert (j - i) * config.intervalMs == (j - 1 - i) * config.intervalMs + config.intervalMs;
    }
  }

  /** Delayed monitoring causes no burst: any n probes of one uninterrupted session
      take longer than n - 1 intervals less one deadline. */
  lemma NoProbeBurst(config: Config, start: Time, calls: seq<Call>, i: nat, j: nat)
    requires config.Accepted()
    requires i <= j < |Execute(config, start, calls).begins|
    ensures var begins := Execute(config, start, calls).begins;
            begins[i] + (j - i) * config.intervalMs < begins[j] + config.deadlineMs
  {
    ReachedInvariant(config, start, calls);
    DuesSpread(config, Execute(config, start, calls).dues, i, j);
  }
}
