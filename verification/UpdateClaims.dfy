/** The firmware update claim: downloads, relays, local transfers, confirmation of the
    running image, rollback and modem recovery, each a task of its own, arbitrated by a
    few flags under one lock. Every critical section is one step. */
module UpdateClaims {

  type Bytes = seq<bv8>

  /** The digest of a byte string. */
  type Hash = Bytes -> Bytes

  datatype Flags = Flags(inProgress: bool, validationBusy: bool, recoveryBusy: bool,
                         pendingVerify: bool, markedValid: bool, mqttTold: bool)

  datatype Entry = Denied | Already | Entered

  // The critical sections.

  predicate Claimable(f: Flags) { !f.inProgress && !f.validationBusy && !f.recoveryBusy }

  function Claimed(f: Flags): Flags {
    if Claimable(f) then f.(inProgress := true, mqttTold := true) else f
  }

  function Released(f: Flags): Flags { f.(inProgress := false, mqttTold := false) }

  /** `commit` is the answer of the nested teardown commit, asked only when no claim stands. */
  function RecoveryTried(f: Flags, commit: bool): Flags {
    if Claimable(f) && commit then f.(recoveryBusy := true) else f
  }

  /** `late`: the verify window has passed. `proven`: publication proof is fresh, or the
      backend has none. Both matter to the automatic reason only. */
  function ConfirmEntry(f: Flags, automatic: bool, late: bool, proven: bool): Entry {
    if f.validationBusy then Denied
    else if !f.pendingVerify then Already
    else if f.markedValid || f.inProgress || (automatic && late) then Denied
    else if automatic && !proven then Denied
    else Entered
  }

  function ConfirmEntered(f: Flags, automatic: bool, late: bool, proven: bool): Flags {
    if ConfirmEntry(f, automatic, late, proven).Entered? then f.(validationBusy := true) else f
  }

  function ConfirmLeft(f: Flags, ok: bool): Flags {
    if ok then f.(markedValid := true, pendingVerify := false, validationBusy := false)
    else f.(validationBusy := false)
  }

  predicate RollbackDue(f: Flags, late: bool) {
    f.pendingVerify && !f.markedValid && !f.validationBusy && !f.inProgress && late
  }

  function RollbackEntered(f: Flags, late: bool): Flags {
    if RollbackDue(f, late) then f.(validationBusy := true) else f
  }

  /** Only reached when the reboot into the other slot failed. */
  function RollbackLeft(f: Flags): Flags { f.(markedValid := true, validationBusy := false) }

  /** The flags as the firmware keeps them. */
  class Arbiter {
    var inProgress: bool
    var validationBusy: bool
    var recoveryBusy: bool
    var pendingVerify: bool
    var markedValid: bool
    var mqttTold: bool

    ghost function State(): Flags
      reads this
    {
      Flags(inProgress, validationBusy, recoveryBusy, pendingVerify, markedValid, mqttTold)
    }

    constructor (pending: bool)
      ensures State() == Flags(false, false, false, pending, false, false)
    {
      inProgress, validationBusy, recoveryBusy, markedValid, mqttTold := false, false, false, false, false;
      pendingVerify := pending;
    }

    method Claim() returns (ok: bool)
      modifies this
      ensures ok == Claimable(old(State())) && State() == Claimed(old(State()))
    {
      ok := false;
      if !inProgress && !validationBusy && !recoveryBusy {
        inProgress := true;
        mqttTold := true;
        ok := true;
      }
    }

    method Release()
      modifies this
      ensures State() == Released(old(State()))
    {
      inProgress := false;
      mqttTold := false;
    }

    method TryRecovery(commit: bool) returns (ok: bool)
      modifies this
      ensures ok == (Claimable(old(State())) && commit) && State() == RecoveryTried(old(State()), commit)
    {
      ok := !inProgress && !validationBusy && !recoveryBusy && commit;
      if ok { recoveryBusy := true; }
    }

    method FinishRecovery()
      modifies this
      ensures State() == old(State()).(recoveryBusy := false)
    {
      recoveryBusy := false;
    }

    method EnterConfirm(automatic: bool, late: bool, proven: bool) returns (entry: Entry)
      modifies this
      ensures entry == ConfirmEntry(old(State()), automatic, late, proven)
      ensures State() == ConfirmEntered(old(State()), automatic, late, proven)
    {
      if validationBusy { return Denied; }
      if !pendingVerify { return Already; }
      if markedValid || inProgress || (automatic && late) { return Denied; }
      if automatic && !proven { return Denied; }
      validationBusy := true;
      return Entered;
    }

    method LeaveConfirm(ok: bool)
      modifies this
      ensures State() == ConfirmLeft(old(State()), ok)
    {
      if ok {
        markedValid := true;
        pendingVerify := false;
      }
      validationBusy := false;
    }

    method EnterRollback(late: bool) returns (go: bool)
      modifies this
      ensures go == RollbackDue(old(State()), late) && State() == RollbackEntered(old(State()), late)
    {
      if !pendingVerify || markedValid || validationBusy || inProgress || !late { return false; }
      validationBusy := true;
      return true;
    }

    method LeaveRollback()
      modifies this
      ensures State() == RollbackLeft(old(State()))
    {
      markedValid := true;
      validationBusy := false;
    }
  }

  // Requester, task and receiver, step by step.

  datatype Target = Esp32 | Rp2040

  datatype Command = Command(target: Target, sha: Bytes, len: nat)

  /** The caller of an update request. The digest is staged before the claim. */
  datatype Requester = Idle | Wanting(cmd: Command) | Confirming(cmd: Command) | Staged(cmd: Command)

  /** The download or relay task of an accepted request. */
  datatype Task = NoTask | Relaying | Writing(cmd: Command) | Verified(cmd: Command) | Finished(cmd: Command)

  /** The receiver of a local transfer. */
  datatype Receiver =
    | Closed
    | Begun(cmd: Command)
    | Asking(cmd: Command)
    | Allowed(cmd: Command)
    | Open(cmd: Command)
    | Sealed(cmd: Command)
    | Checked(cmd: Command)
    | Done(cmd: Command)
  {
    predicate Owns() { Open? || Sealed? || Checked? || Done? }
  }

  /** `slot` is the passive slot, `found` what it held at boot. `switched` is the command
      whose image the boot slot was set to, if any. */
  datatype Flash = Flash(slot: Bytes, found: Bytes, stagedSha: Bytes, stagedLen: nat, switched: set<Command>,
                         unsafeWrites: nat)

  datatype System = System(f: Flags, req: Requester, task: Task, recv: Receiver, marking: bool, rolling: bool,
                           rollbackFailed: bool, flash: Flash)

  datatype Event =
    | Request(cmd: Command, fits: bool) | RequestEnter | RequestLeave(ok: bool) | RequestClaim(created: bool)
    | TaskWrite(slot: Bytes) | TaskVerify | TaskFinish(ok: bool) | TaskEnd
    | Begin(cmd: Command) | BeginEnter(fits: bool) | BeginLeave(ok: bool) | BeginClaim(started: bool)
    | ReceiverWrite(slot: Bytes) | ReceiverAbort | ReceiverSeal(ok: bool) | ReceiverVerify | ReceiverSwitch(ok: bool)
    | AutoEnter(late: bool, proven: bool) | AutoLeave(ok: bool)
    | RollbackEnter(late: bool) | RollbackFail
    | RecoveryTry(commit: bool) | RecoveryFinish

  function Boot(pending: bool, slot: Bytes): System {
    System(Flags(false, false, false, pending, false, false), Idle, NoTask, Closed, false, false, false,
           Flash(slot, slot, [], 0, {}, 0))
  }

  predicate Matches(hash: Hash, slot: Bytes, sha: Bytes, len: nat) { len <= |slot| && hash(slot[..len]) == sha }

  /** A write counts as unsafe unless it happens under the claim with the running image confirmed. */
  function Written(s: System, slot: Bytes): Flash {
    s.flash.(slot := slot,
             unsafeWrites := s.flash.unsafeWrites + if s.f.inProgress && !s.f.pendingVerify then 0 else 1)
  }

  function RequestStep(s: System, e: Event): System {
    match e
    case Request(cmd, fits) =>
      if !s.req.Idle? || s.f.inProgress then s
      else s.(req := if !fits then Idle else if cmd.target.Esp32? then Wanting(cmd) else Staged(cmd),
              flash := s.flash.(stagedSha := cmd.sha))
    case RequestEnter =>
      if !s.req.Wanting? then s
      else
        var entry := ConfirmEntry(s.f, false, false, true);
        s.(f := ConfirmEntered(s.f, false, false, true),
           req := match entry case Denied => Idle case Already => Staged(s.req.cmd) case Entered => Confirming(s.req.cmd))
    case RequestLeave(ok) =>
      if !s.req.Confirming? then s
      else s.(f := ConfirmLeft(s.f, ok), req := if ok then Staged(s.req.cmd) else Idle)
    case RequestClaim(created) =>
      if !s.req.Staged? then s
      else
        var t := s.(req := Idle, flash := s.flash.(stagedLen := s.req.cmd.len));
        if !Claimable(s.f) then t
        else if !created then t.(f := Released(Claimed(s.f)))
        else t.(f := Claimed(s.f), task := if s.req.cmd.target.Esp32? then Writing(s.req.cmd) else Relaying)
    case _ => s
  }

  function TaskStep(hash: Hash, s: System, e: Event): System {
    match e
    case TaskWrite(slot) => if s.task.Writing? then s.(flash := Written(s, slot)) else s
    case TaskVerify =>
      if !s.task.Writing? then s
      else if Matches(hash, s.flash.slot, s.flash.stagedSha, s.flash.stagedLen) then s.(task := Verified(s.task.cmd))
      else s.(task := NoTask, f := Released(s.f))
    case TaskFinish(ok) =>
      if !s.task.Verified? then s
      else if ok then
        s.(task := Finished(s.task.cmd), flash := s.flash.(switched := s.flash.switched + {s.task.cmd}))
      else s.(task := NoTask, f := Released(s.f))
    case TaskEnd => if s.task.NoTask? || s.task.Finished? then s else s.(task := NoTask, f := Released(s.f))
    case _ => s
  }

  function ReceiverStep(hash: Hash, s: System, e: Event): System {
    match e
    case Begin(cmd) =>
      if !cmd.target.Esp32? then s
      else if s.recv.Open? then s.(f := Released(s.f), recv := Begun(cmd))
      else if s.recv.Closed? then s.(recv := Begun(cmd))
      else s
    case BeginEnter(fits) =>
      if !s.recv.Begun? then s
      else if s.f.inProgress || !fits then s.(recv := Closed)
      else
        var entry := ConfirmEntry(s.f, false, false, true);
        s.(f := ConfirmEntered(s.f, false, false, true),
           recv := match entry case Denied => Closed case Already => Allowed(s.recv.cmd) case Entered => Asking(s.recv.cmd))
    case BeginLeave(ok) =>
      if !s.recv.Asking? then s
      else s.(f := ConfirmLeft(s.f, ok), recv := if ok then Allowed(s.recv.cmd) else Closed)
    case BeginClaim(started) =>
      if !s.recv.Allowed? then s
      else if !Claimable(s.f) then s.(recv := Closed)
      else if !started then s.(f := Released(Claimed(s.f)), recv := Closed)
      else s.(f := Claimed(s.f), recv := Open(s.recv.cmd))
    case ReceiverWrite(slot) => if s.recv.Open? then s.(flash := Written(s, slot)) else s
    case ReceiverAbort => if s.recv.Open? then s.(f := Released(s.f), recv := Closed) else s
    case ReceiverSeal(ok) =>
      if !s.recv.Open? then s
      else if ok then s.(recv := Sealed(s.recv.cmd)) else s.(f := Released(s.f), recv := Closed)
    case ReceiverVerify =>
      if !s.recv.Sealed? then s
      else if Matches(hash, s.flash.slot, s.recv.cmd.sha, s.recv.cmd.len) then s.(recv := Checked(s.recv.cmd))
      else s.(f := Released(s.f), recv := Closed)
    case ReceiverSwitch(ok) =>
      if !s.recv.Checked? then s
      else if ok then
        s.(recv := Done(s.recv.cmd), flash := s.flash.(switched := s.flash.switched + {s.recv.cmd}))
      else s.(f := Released(s.f), recv := Closed)
    case _ => s
  }

  function ValidationStep(s: System, e: Event): System {
    match e
    case AutoEnter(late, proven) =>
      if s.marking then s
      else s.(f := ConfirmEntered(s.f, true, late, proven), marking := ConfirmEntry(s.f, true, late, proven).Entered?)
    case AutoLeave(ok) => if s.marking then s.(f := ConfirmLeft(s.f, ok), marking := false) else s
    case RollbackEnter(late) =>
      if s.rolling then s else s.(f := RollbackEntered(s.f, late), rolling := RollbackDue(s.f, late))
    case RollbackFail =>
      if s.rolling then s.(f := RollbackLeft(s.f), rolling := false, rollbackFailed := true) else s
    case RecoveryTry(commit) => s.(f := RecoveryTried(s.f, commit))
    case RecoveryFinish => s.(f := s.f.(recoveryBusy := false))
    case _ => s
  }

  function Step(hash: Hash, s: System, e: Event): System {
    if e.Request? || e.RequestEnter? || e.RequestLeave? || e.RequestClaim? then RequestStep(s, e)
    else if e.TaskWrite? || e.TaskVerify? || e.TaskFinish? || e.TaskEnd? then TaskStep(hash, s, e)
    else if e.AutoEnter? || e.AutoLeave? || e.RollbackEnter? || e.RollbackFail? || e.RecoveryTry? || e.RecoveryFinish? then
      ValidationStep(s, e)
    else ReceiverStep(hash, s, e)
  }

  function Run(hash: Hash, s: System, run: seq<Event>): System {
    if run == [] then s else Step(hash, Run(hash, s, run[..|run| - 1]), run[|run| - 1])
  }

  // The invariant.

  /** The claim stands exactly while one owner holds it. */
  predicate Owned(s: System) {
    && (s.f.inProgress <==> !s.task.NoTask? || s.recv.Owns())
    && !(!s.task.NoTask? && s.recv.Owns())
    && s.f.mqttTold == s.f.inProgress
  }

  function One(b: bool): nat { if b then 1 else 0 }

  /** The validation claim stands exactly while one confirmation or rollback holds it. */
  predicate Validated(s: System) {
    One(s.req.Confirming?) + One(s.recv.Asking?) + One(s.marking) + One(s.rolling) == One(s.f.validationBusy)
  }

  predicate Excluded(s: System) { s.f.inProgress ==> !s.f.validationBusy && !s.f.recoveryBusy }

  /** Whoever may write has a confirmed running image; whoever rolls back does not. */
  predicate Guarded(s: System) {
    && (s.req.Staged? && s.req.cmd.target.Esp32? ==> !s.f.pendingVerify)
    && (s.req.Wanting? || s.req.Confirming? ==> s.req.cmd.target.Esp32?)
    && (!s.task.NoTask? && !s.task.Relaying? ==> !s.f.pendingVerify)
    && (s.recv.Allowed? || s.recv.Owns() ==> !s.f.pendingVerify)
    && (s.rolling || s.rollbackFailed ==> s.f.pendingVerify)
    && (s.rollbackFailed ==> s.f.markedValid)
    && (s.req.Confirming? || s.recv.Asking? || s.marking || s.rolling ==> s.f.pendingVerify && !s.f.markedValid)
    && (s.f.pendingVerify ==> s.flash.slot == s.flash.found)
    && s.flash.unsafeWrites == 0
  }

  /** The staged digest is the running task's own. */
  predicate StagedFor(s: System) {
    && (!s.task.NoTask? ==> s.req.Idle?)
    && (!s.req.Idle? ==> s.flash.stagedSha == s.req.cmd.sha)
    && (!s.task.NoTask? && !s.task.Relaying? ==>
          s.flash.stagedSha == s.task.cmd.sha && s.flash.stagedLen == s.task.cmd.len)
  }

  /** Once the boot slot is switched, its image is the commanded one and nobody may write again. */
  predicate Sound(hash: Hash, s: System) {
    && (s.task.Verified? || s.task.Finished? ==> Matches(hash, s.flash.slot, s.task.cmd.sha, s.task.cmd.len))
    && (s.recv.Checked? || s.recv.Done? ==> Matches(hash, s.flash.slot, s.recv.cmd.sha, s.recv.cmd.len))
    && s.flash.switched == (if s.task.Finished? then {s.task.cmd} else {}) + if s.recv.Done? then {s.recv.cmd} else {}
  }

  predicate Invariant(hash: Hash, s: System) {
    Owned(s) && Validated(s) && Excluded(s) && Guarded(s) && StagedFor(s) && Sound(hash, s)
  }

  lemma RequestClaims(hash: Hash, s: System, e: Event)
    requires Owned(s) && Validated(s) && Excluded(s)
    ensures Owned(RequestStep(s, e)) && Validated(RequestStep(s, e)) && Excluded(RequestStep(s, e))
  {
  }

  lemma RequestGuards(hash: Hash, s: System, e: Event)
    requires Invariant(hash, s)
    ensures Guarded(RequestStep(s, e))
  {
  }

  lemma RequestSounds(hash: Hash, s: System, e: Event)
    requires Invariant(hash, s)
    ensures StagedFor(RequestStep(s, e)) && Sound(hash, RequestStep(s, e))
  {
  }

  lemma RequestKeeps(hash: Hash, s: System, e: Event)
    requires Invariant(hash, s)
    ensures Invariant(hash, RequestStep(s, e))
  {
    RequestClaims(hash, s, e);
    RequestGuards(hash, s, e);
    RequestSounds(hash, s, e);
  }

  lemma TaskClaims(hash: Hash, s: System, e: Event)
    requires Owned(s) && Validated(s) && Excluded(s)
    ensures Owned(TaskStep(hash, s, e)) && Validated(TaskStep(hash, s, e)) && Excluded(TaskStep(hash, s, e))
  {
  }

  lemma TaskGuards(hash: Hash, s: System, e: Event)
    requires Invariant(hash, s)
    ensures Guarded(TaskStep(hash, s, e))
  {
  }

  lemma TaskSounds(hash: Hash, s: System, e: Event)
    requires Invariant(hash, s)
    ensures StagedFor(TaskStep(hash, s, e)) && Sound(hash, TaskStep(hash, s, e))
  {
  }

  lemma TaskKeeps(hash: Hash, s: System, e: Event)
    requires Invariant(hash, s)
    ensures Invariant(hash, TaskStep(hash, s, e))
  {
    TaskClaims(hash, s, e);
    TaskGuards(hash, s, e);
    TaskSounds(hash, s, e);
  }

  lemma ReceiverClaims(hash: Hash, s: System, e: Event)
    requires Owned(s) && Validated(s) && Excluded(s)
    ensures Owned(ReceiverStep(hash, s, e)) && Validated(ReceiverStep(hash, s, e)) && Excluded(ReceiverStep(hash, s, e))
  {
  }

  lemma ReceiverGuards(hash: Hash, s: System, e: Event)
    requires Invariant(hash, s)
    ensures Guarded(ReceiverStep(hash, s, e))
  {
  }

  lemma ReceiverSounds(hash: Hash, s: System, e: Event)
    requires Invariant(hash, s)
    ensures StagedFor(ReceiverStep(hash, s, e)) && Sound(hash, ReceiverStep(hash, s, e))
  {
  }

  lemma ReceiverKeeps(hash: Hash, s: System, e: Event)
    requires Invariant(hash, s)
    ensures Invariant(hash, ReceiverStep(hash, s, e))
  {
    ReceiverClaims(hash, s, e);
    ReceiverGuards(hash, s, e);
    ReceiverSounds(hash, s, e);
  }

  lemma ValidationClaims(hash: Hash, s: System, e: Event)
    requires Owned(s) && Validated(s) && Excluded(s)
    ensures Owned(ValidationStep(s, e)) && Validated(ValidationStep(s, e)) && Excluded(ValidationStep(s, e))
  {
  }

  lemma ValidationGuards(hash: Hash, s: System, e: Event)
    requires Invariant(hash, s)
    ensures Guarded(ValidationStep(s, e))
  {
  }

  lemma ValidationSounds(hash: Hash, s: System, e: Event)
    requires Invariant(hash, s)
    ensures StagedFor(ValidationStep(s, e)) && Sound(hash, ValidationStep(s, e))
  {
  }

  lemma ValidationKeeps(hash: Hash, s: System, e: Event)
    requires Invariant(hash, s)
    ensures Invariant(hash, ValidationStep(s, e))
  {
    ValidationClaims(hash, s, e);
    ValidationGuards(hash, s, e);
    ValidationSounds(hash, s, e);
  }

  lemma {:induction false} RunInvariant(hash: Hash, pending: bool, found: Bytes, run: seq<Event>)
    ensures Invariant(hash, Run(hash, Boot(pending, found), run))
  {
    if run != [] {
      var s, e := Run(hash, Boot(pending, found), run[..|run| - 1]), run[|run| - 1];
      RunInvariant(hash, pending, found, run[..|run| - 1]);
      RequestKeeps(hash, s, e);
      TaskKeeps(hash, s, e);
      ReceiverKeeps(hash, s, e);
      ValidationKeeps(hash, s, e);
    }
  }

  // The theorems.

  /** In every interleaving the update claim excludes validation and modem recovery, has one
      owner, and MQTT was told of it. */
  lemma Exclusion(hash: Hash, pending: bool, found: Bytes, run: seq<Event>)
    ensures var s := Run(hash, Boot(pending, found), run);
            && (s.f.inProgress ==> !s.f.validationBusy && !s.f.recoveryBusy)
            && (s.f.inProgress <==> !s.task.NoTask? || s.recv.Owns())
            && !(!s.task.NoTask? && s.recv.Owns())
            && s.f.mqttTold == s.f.inProgress
  {
    RunInvariant(hash, pending, found, run);
  }

  /** The passive slot is written only under the claim with the running image confirmed, and
      while a rollback is under way it still holds what it held at boot. */
  lemma BrickGuard(hash: Hash, pending: bool, found: Bytes, run: seq<Event>)
    ensures var s := Run(hash, Boot(pending, found), run);
            && s.flash.unsafeWrites == 0
            && (s.rolling ==> s.flash.slot == found && !s.f.inProgress)
            && (s.flash.slot != found ==> !s.f.pendingVerify && !s.rolling)
  {
    RunInvariant(hash, pending, found, run);
    FoundStays(hash, Boot(pending, found), run);
  }

  lemma StepKeepsFound(hash: Hash, s: System, e: Event)
    ensures Step(hash, s, e).flash.found == s.flash.found
    ensures s.rollbackFailed ==> Step(hash, s, e).rollbackFailed
  {
  }

  lemma {:induction false} FoundStays(hash: Hash, s: System, run: seq<Event>)
    ensures Run(hash, s, run).flash.found == s.flash.found
  {
    if run != [] {
      FoundStays(hash, s, run[..|run| - 1]);
      StepKeepsFound(hash, Run(hash, s, run[..|run| - 1]), run[|run| - 1]);
    }
  }

  lemma {:induction false} FailedStays(hash: Hash, s: System, run: seq<Event>, rest: seq<Event>)
    requires Run(hash, s, run).rollbackFailed
    ensures Run(hash, s, run + rest).rollbackFailed
  {
    if rest == [] {
      assert run + rest == run;
    } else {
      var earlier := rest[..|rest| - 1];
      FailedStays(hash, s, run, earlier);
      assert (run + rest)[..|run + rest| - 1] == run + earlier;
      StepKeepsFound(hash, Run(hash, s, run + earlier), rest[|rest| - 1]);
    }
  }

  /** The boot slot is only ever switched to bytes with the digest that was commanded, for
      one command, and those bytes are still there. */
  lemma SwitchesToCommandedImage(hash: Hash, pending: bool, found: Bytes, run: seq<Event>)
    ensures var s := Run(hash, Boot(pending, found), run);
            && |s.flash.switched| <= 1
            && forall cmd :: cmd in s.flash.switched ==> Matches(hash, s.flash.slot, cmd.sha, cmd.len)
  {
    RunInvariant(hash, pending, found, run);
  }

  /** Once a rollback could not reboot, and for whatever follows until the device restarts, the
      image stays unconfirmed, the passive slot as found and the boot slot unswitched. */
  lemma FailedRollbackFreezes(hash: Hash, pending: bool, found: Bytes, run: seq<Event>, rest: seq<Event>)
    requires Run(hash, Boot(pending, found), run).rollbackFailed
    ensures var s := Run(hash, Boot(pending, found), run + rest);
            s.rollbackFailed && s.flash.slot == found && s.f.pendingVerify && s.flash.switched == {}
  {
    FailedStays(hash, Boot(pending, found), run, rest);
    RunInvariant(hash, pending, found, run + rest);
    FoundStays(hash, Boot(pending, found), run + rest);
    Frozen(hash, Run(hash, Boot(pending, found), run + rest));
  }

  lemma Frozen(hash: Hash, s: System)
    requires Invariant(hash, s) && s.rollbackFailed
    ensures s.flash.slot == s.flash.found && s.f.pendingVerify && s.flash.switched == {}
  {
  }
}
