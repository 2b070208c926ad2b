/** The replay baseline of inbound Arkiv commands: owner, key epoch and counter in RAM,
    beside the one stored record they are reloaded from. */
module ArkivBaseline {
  import opened Wrappers

  type Key = nat

  datatype Commit = Committed | LostOld | LostNew   // LostNew: reported failed, yet stored

  /** A command as the device sees it: who wrote the entity, and whose signature it bears. */
  datatype Cmd = Cmd(wellFormed: bool, writer: Key, epoch: nat, counter: nat, block: nat, signer: Option<Key>)

  /** One binding. `reign` tells bindings of the same owner apart, for the proofs. */
  datatype Binding = Binding(owner: Option<Key>, claimed: bool, epoch: nat, lastCtr: nat, block: nat, reign: nat)

  datatype Device = Device(ram: Binding, stored: Binding)

  const UNCLAIMED: Binding := Binding(None, false, 0, 0, 0, 0)

  predicate Accepts(b: Binding, c: Cmd) {
    && b.claimed && b.owner.Some? && c.wellFormed
    && c.writer == b.owner.value && c.epoch == b.epoch && b.lastCtr < c.counter && b.block <= c.block
    && c.signer == b.owner
  }

  function Advanced(b: Binding, c: Cmd): Binding { b.(lastCtr := c.counter, block := c.block) }

  function Stored(old': Binding, new': Binding, k: Commit): Binding { if k.LostOld? then old' else new' }

  /** Acceptance moves the counter in RAM whether or not it could be stored. */
  function Check(d: Device, c: Cmd, k: Commit): Device {
    if !Accepts(d.ram, c) then d
    else Device(Advanced(d.ram, c), Stored(d.stored, d.stored.(lastCtr := c.counter, block := c.block), k))
  }

  /** A new owner starts a counter of its own; RAM follows only a reported success. */
  function Bind(d: Device, owner: Key, epoch: nat, valid: bool, k: Commit, reign: nat): Device {
    if !valid then d
    else
      var stored := Stored(d.stored, Binding(Some(owner), true, epoch, 0, d.stored.block, reign), k);
      Device(if k.Committed? then Binding(Some(owner), true, epoch, 0, d.ram.block, reign) else d.ram, stored)
  }

  function SetEpoch(d: Device, epoch: nat, k: Commit): Device {
    if epoch <= d.ram.epoch then d
    else Device(if k.Committed? then d.ram.(epoch := epoch) else d.ram, Stored(d.stored, d.stored.(epoch := epoch), k))
  }

  /** Clearing forgets the binding in RAM even when the store could not be written. */
  function Clear(d: Device, storeOpen: bool, k: Commit, reign: nat): Device {
    if !storeOpen then d
    else Device(UNCLAIMED.(reign := reign), Stored(d.stored, UNCLAIMED.(reign := reign), k))
  }

  /** Which stored fields the boot can read; each is read on its own. */
  datatype Reads = Reads(owner: bool, epoch: bool, counter: bool, block: bool, claim: bool)

  /** What is not read counts as absent, zero or unclaimed. */
  function Loaded(b: Binding, r: Reads): Binding {
    Binding(if r.owner then b.owner else None, r.claim && b.claimed, if r.epoch then b.epoch else 0,
            if r.counter then b.lastCtr else 0, if r.block then b.block else 0, b.reign)
  }

  function Reboot(d: Device, r: Reads): Device { d.(ram := Loaded(d.stored, r)) }

  /** The baseline as the firmware keeps it. */
  class Baseline {
    var ram: Binding
    var stored: Binding

    ghost function State(): Device reads this { Device(ram, stored) }

    constructor ()
      ensures State() == Device(UNCLAIMED, UNCLAIMED)
    {
      ram, stored := UNCLAIMED, UNCLAIMED;
    }

    method Init(r: Reads)
      modifies this`ram
      ensures State() == Reboot(old(State()), r)
    {
      var owner, epoch, lastCtr, block, claimed := None, 0, 0, 0, false;
      if r.owner { owner := stored.owner; }
      if r.epoch { epoch := stored.epoch; }
      if r.counter { lastCtr := stored.lastCtr; }
      if r.block { block := stored.block; }
      if r.claim { claimed := stored.claimed; }
      ram := Binding(owner, claimed, epoch, lastCtr, block, stored.reign);
    }

    method PersistProgress(ctr: nat, block: nat, k: Commit) returns (ok: bool)
      modifies this`stored
      ensures ok == k.Committed?
      ensures stored == Stored(old(stored), old(stored).(lastCtr := ctr, block := block), k)
    {
      if k != LostOld { stored := stored.(lastCtr := ctr, block := block); }
      ok := k == Committed;
    }

    method CheckCommand(c: Cmd, k: Commit) returns (accepted: bool)
      modifies this
      ensures accepted == Accepts(old(ram), c) && State() == Check(old(State()), c, k)
    {
      if !ram.claimed || ram.owner.None? { return false; }
      if !c.wellFormed { return false; }
      if c.writer != ram.owner.value { return false; }
      if c.epoch != ram.epoch { return false; }
      if c.counter <= ram.lastCtr { return false; }
      if c.block < ram.block { return false; }
      if c.signer != ram.owner { return false; }
      ram := ram.(lastCtr := c.counter);
      if c.block > ram.block { ram := ram.(block := c.block); }
      var _ := PersistProgress(ram.lastCtr, ram.block, k);
      return true;
    }

    method BindOwner(owner: Key, epoch: nat, valid: bool, k: Commit, reign: nat) returns (ok: bool)
      modifies this
      ensures ok == (valid && k.Committed?) && State() == Bind(old(State()), owner, epoch, valid, k, reign)
    {
      if !valid { return false; }
      if k != LostOld { stored := Binding(Some(owner), true, epoch, 0, stored.block, reign); }
      if k != Committed { return false; }
      ram := Binding(Some(owner), true, epoch, 0, ram.block, reign);
      return true;
    }

    method RatchetEpoch(epoch: nat, k: Commit) returns (ok: bool)
      modifies this
      ensures ok == (old(ram).epoch < epoch && k.Committed?) && State() == SetEpoch(old(State()), epoch, k)
    {
      if epoch <= ram.epoch { return false; }
      if k != LostOld { stored := stored.(epoch := epoch); }
      if k != Committed { return false; }
      ram := ram.(epoch := epoch);
      return true;
    }

    method ClearBinding(storeOpen: bool, k: Commit, reign: nat)
      modifies this
      ensures State() == Clear(old(State()), storeOpen, k, reign)
    {
      if !storeOpen { return; }
      if k != LostOld { stored := UNCLAIMED.(reign := reign); }
      ram := UNCLAIMED.(reign := reign);
    }
  }

  // Runs.

  datatype Event =
    | Checks(c: Cmd, k: Commit)
    | Binds(owner: Key, epoch: nat, valid: bool, k: Commit)
    | SetsEpoch(epoch: nat, k: Commit)
    | Clears(storeOpen: bool, k: Commit)
    | Reboots(r: Reads)

  /** A command accepted, and the binding it was accepted under. */
  datatype Seen = Seen(reign: nat, c: Cmd)

  /** What was accepted, and how many bindings there have been. */
  datatype History = History(d: Device, accepted: seq<Seen>, reigns: nat)

  const START: History := History(Device(UNCLAIMED, UNCLAIMED), [], 0)

  function Step(h: History, e: Event): History {
    match e
    case Checks(c, k) =>
      h.(d := Check(h.d, c, k),
         accepted := if Accepts(h.d.ram, c) then h.accepted + [Seen(h.d.ram.reign, c)] else h.accepted)
    case Binds(owner, epoch, valid, k) =>
      h.(d := Bind(h.d, owner, epoch, valid, k, h.reigns + 1), reigns := h.reigns + 1)
    case SetsEpoch(epoch, k) => h.(d := SetEpoch(h.d, epoch, k))
    case Clears(storeOpen, k) => h.(d := Clear(h.d, storeOpen, k, h.reigns + 1), reigns := h.reigns + 1)
    case Reboots(r) => h.(d := Reboot(h.d, r))
  }

  function Continue(h: History, run: seq<Event>): (h': History)
    ensures h.accepted <= h'.accepted
  {
    if run == [] then h else Step(Continue(h, run[..|run| - 1]), run[|run| - 1])
  }

  function Execute(run: seq<Event>): History { Continue(START, run) }

  /** The event neither loses progress nor fails to read the counter. */
  predicate Keeps(e: Event) { (e.Checks? ==> !e.k.LostOld?) && (e.Reboots? ==> e.r.counter) }

  predicate Kept(run: seq<Event>) { forall i :: 0 <= i < |run| ==> Keeps(run[i]) }

  predicate Bounded(accepted: seq<Seen>, b: Binding) {
    forall i :: 0 <= i < |accepted| && accepted[i].reign == b.reign ==> accepted[i].c.counter <= b.lastCtr
  }

  predicate Untouched(accepted: seq<Seen>, reign: nat) {
    forall i :: 0 <= i < |accepted| ==> accepted[i].reign != reign
  }

  predicate Climbing(accepted: seq<Seen>) {
    forall i, j :: 0 <= i < j < |accepted| && accepted[i].reign == accepted[j].reign ==>
      accepted[i].c.counter < accepted[j].c.counter
  }

  /** A binding that can accept a command. */
  predicate Live(b: Binding) { b.claimed && b.owner.Some? }

  /** A live binding is not behind what was accepted under it. */
  predicate Ahead(accepted: seq<Seen>, b: Binding) { Live(b) ==> Bounded(accepted, b) }

  /** RAM and store are both ahead of what was accepted. */
  predicate Covered(h: History) { Ahead(h.accepted, h.d.ram) && Ahead(h.accepted, h.d.stored) }

  /** Bindings are numbered as they come, and one in the store only was never used. */
  predicate Numbered(h: History) {
    && h.d.ram.reign <= h.reigns && h.d.stored.reign <= h.reigns
    && (forall i :: 0 <= i < |h.accepted| ==> h.accepted[i].reign <= h.reigns)
    && (Live(h.d.ram) && h.d.stored.reign != h.d.ram.reign ==> Untouched(h.accepted, h.d.stored.reign))
  }

  // Whatever is lost, bindings stay numbered.

  lemma StepNumbered(h: History, e: Event)
    requires Numbered(h)
    ensures Numbered(Step(h, e))
  {
  }

  lemma {:induction false} ContinueNumbered(h: History, run: seq<Event>)
    requires Numbered(h)
    ensures Numbered(Continue(h, run))
  {
    if run != [] {
      ContinueNumbered(h, run[..|run| - 1]);
      StepNumbered(Continue(h, run[..|run| - 1]), run[|run| - 1]);
    }
  }

  // While nothing is lost, a covered device stays covered and counters climb.

  lemma CheckKeeps(h: History, c: Cmd, k: Commit)
    requires Numbered(h) && Covered(h) && Climbing(h.accepted) && !k.LostOld?
    ensures Covered(Step(h, Checks(c, k))) && Climbing(Step(h, Checks(c, k)).accepted)
  {
  }

  lemma BindKeeps(h: History, e: Event)
    requires Numbered(h) && Covered(h) && (e.Binds? || e.Clears? || e.SetsEpoch?)
    ensures Covered(Step(h, e)) && Step(h, e).accepted == h.accepted
  {
  }

  lemma RebootKeeps(h: History, r: Reads)
    requires Covered(h) && r.counter
    ensures Covered(Step(h, Reboots(r)))
  {
  }

  lemma StepKeeps(h: History, e: Event)
    requires Numbered(h) && Covered(h) && Climbing(h.accepted) && Keeps(e)
    ensures Covered(Step(h, e)) && Climbing(Step(h, e).accepted)
  {
    match e
    case Checks(c, k) => CheckKeeps(h, c, k);
    case Reboots(r) => RebootKeeps(h, r);
    case _ => BindKeeps(h, e);
  }

  lemma {:induction false} ContinueCovered(h: History, rest: seq<Event>)
    requires Numbered(h) && Covered(h) && Climbing(h.accepted) && Kept(rest)
    ensures Covered(Continue(h, rest)) && Climbing(Continue(h, rest).accepted)
  {
    if rest != [] {
      var earlier, e := rest[..|rest| - 1], rest[|rest| - 1];
      assert Kept(earlier);
      ContinueCovered(h, earlier);
      ContinueNumbered(h, earlier);
      assert Keeps(e);
      StepKeeps(Continue(h, earlier), e);
    }
  }

  /** Under one binding accepted counters only climb, across reboots and commits of bindings
      that fail either way, as long as no accepted progress was lost or left unread. */
  lemma NoReplay(run: seq<Event>)
    requires Kept(run)
    ensures Climbing(Execute(run).accepted)
  {
    ContinueCovered(START, run);
  }

  // A device that is not covered accepts a counter that does not climb.

  /** The command under which the binding `b` accepts `counter`. */
  function Again(b: Binding, counter: nat): Cmd
    requires Live(b)
  {
    Cmd(true, b.owner.value, b.epoch, counter, b.block, b.owner)
  }

  const ALL_READ: Reads := Reads(true, true, true, true, true)

  lemma ContinueOne(h: History, e: Event)
    ensures Continue(h, [e]) == Step(h, e)
  {
    assert [e][..0] == [];
  }

  lemma ContinueTwo(h: History, e: Event, f: Event)
    ensures Continue(h, [e, f]) == Step(Step(h, e), f)
  {
    assert [e, f][..1] == [e];
    ContinueOne(h, e);
  }

  /** A live binding in RAM that is behind accepts a counter again. */
  lemma BehindAccepts(h: History) returns (e: Event)
    requires !Ahead(h.accepted, h.d.ram)
    ensures Keeps(e) && !Climbing(Step(h, e).accepted)
  {
    var i :| 0 <= i < |h.accepted| && h.accepted[i].reign == h.d.ram.reign && h.d.ram.lastCtr < h.accepted[i].c.counter;
    e := Checks(Again(h.d.ram, h.accepted[i].c.counter), Committed);
    var after := Step(h, e).accepted;
    assert after[i] == h.accepted[i] && after[|h.accepted|].c.counter == h.accepted[i].c.counter;
  }

  lemma UncoveredFalls(h: History) returns (rest: seq<Event>)
    requires !Covered(h)
    ensures Kept(rest) && !Climbing(Continue(h, rest).accepted)
  {
    if !Ahead(h.accepted, h.d.ram) {
      var e := BehindAccepts(h);
      ContinueOne(h, e);
      rest := [e];
    } else {
      var e := BehindAccepts(Step(h, Reboots(ALL_READ)));
      ContinueTwo(h, Reboots(ALL_READ), e);
      rest := [Reboots(ALL_READ), e];
    }
  }

  /** After any run in which counters only climbed, losses and unread counters included: they only
      climb from there on, unless more is lost, exactly when RAM and store are both
      ahead of what was accepted under their bindings. */
  lemma SafeExactlyWhenCovered(run: seq<Event>)
    requires Climbing(Execute(run).accepted)
    ensures (forall rest :: Kept(rest) ==> Climbing(Continue(Execute(run), rest).accepted)) <==> Covered(Execute(run))
  {
    ContinueNumbered(START, run);
    if Covered(Execute(run)) {
      forall rest | Kept(rest) ensures Climbing(Continue(Execute(run), rest).accepted) {
        ContinueCovered(Execute(run), rest);
      }
    } else {
      var rest := UncoveredFalls(Execute(run));
    }
  }

  // Which loss leaves a device uncovered.

  lemma LossUncovers(h: History, c: Cmd)
    requires Numbered(h) && Covered(h) && Accepts(h.d.ram, c)
    ensures Covered(Step(h, Checks(c, LostOld))) <==>
              !(Live(h.d.stored) && h.d.stored.reign == h.d.ram.reign && h.d.stored.lastCtr < c.counter)
  {
    var after := Step(h, Checks(c, LostOld)).accepted;
    assert after[|h.accepted|] == Seen(h.d.ram.reign, c);
  }

  /** Accepted counters only climb from here on. */
  ghost predicate Safe(h: History) { forall rest :: Kept(rest) ==> Climbing(Continue(h, rest).accepted) }

  lemma ExecuteOneMore(run: seq<Event>, e: Event)
    ensures Execute(run + [e]) == Step(Execute(run), e)
  {
    assert (run + [e])[..|run|] == run;
  }

  /** On a covered device an accepted command lets a later counter fall exactly when its
      progress was lost and the store still holds the same binding with a lower counter. */
  lemma FallsExactlyWhenLost(run: seq<Event>, c: Cmd, k: Commit)
    requires Climbing(Execute(run).accepted) && Covered(Execute(run)) && Accepts(Execute(run).d.ram, c)
    ensures var d := Execute(run).d;
            !Safe(Execute(run + [Checks(c, k)])) <==>
              k.LostOld? && Live(d.stored) && d.stored.reign == d.ram.reign && d.stored.lastCtr < c.counter
  {
    var h := Execute(run);
    ContinueNumbered(START, run);
    ExecuteOneMore(run, Checks(c, k));
    CheckClimbs(h, c, k);
    if k.LostOld? { LossUncovers(h, c); } else { CheckKeeps(h, c, k); }
    SafeExactlyWhenCovered(run + [Checks(c, k)]);
  }

  lemma CheckClimbs(h: History, c: Cmd, k: Commit)
    requires Covered(h) && Climbing(h.accepted)
    ensures Climbing(Step(h, Checks(c, k)).accepted)
  {
  }

  lemma RebootUncovers(h: History, r: Reads)
    requires Covered(h)
    ensures Covered(Step(h, Reboots(r))) <==>
              r.counter || !Live(Loaded(h.d.stored, r)) || Bounded(h.accepted, Loaded(h.d.stored, r))
  {
  }

  lemma UnreadBounds(h: History, r: Reads)
    requires !r.counter
    ensures Bounded(h.accepted, Loaded(h.d.stored, r)) <==>
              forall i :: 0 <= i < |h.accepted| && h.accepted[i].reign == h.d.stored.reign ==> h.accepted[i].c.counter == 0
  {
  }

  /** A boot lets a later counter fall exactly when it reads owner and claim but not the counter,
      and the stored binding has accepted a command. */
  lemma FallsExactlyWhenUnread(run: seq<Event>, r: Reads)
    requires Climbing(Execute(run).accepted) && Covered(Execute(run))
    ensures var h := Execute(run);
            !Safe(Execute(run + [Reboots(r)])) <==>
              !r.counter && r.owner && r.claim && Live(h.d.stored) && !Untouched(h.accepted, h.d.stored.reign)
  {
    var h := Execute(run);
    AcceptedPositive(START, run);
    ExecuteOneMore(run, Reboots(r));
    RebootUncovers(h, r);
    if !r.counter { UnreadBounds(h, r); }
    SafeExactlyWhenCovered(run + [Reboots(r)]);
  }

  /** An accepted counter lies above the one before, so it is never zero. */
  lemma {:induction false} AcceptedPositive(h: History, run: seq<Event>)
    requires forall i :: 0 <= i < |h.accepted| ==> 0 < h.accepted[i].c.counter
    ensures forall i :: 0 <= i < |Continue(h, run).accepted| ==> 0 < Continue(h, run).accepted[i].c.counter
  {
    if run != [] { AcceptedPositive(h, run[..|run| - 1]); }
  }

  // Which accepted commands can themselves be accepted again.

  /** Nothing fails: every commit goes through and every field is read. */
  predicate Faultless(e: Event) {
    match e
    case Checks(_, k) => k.Committed?
    case Binds(_, _, _, k) => k.Committed?
    case SetsEpoch(_, k) => k.Committed?
    case Clears(_, k) => k.Committed?
    case Reboots(r) => r == ALL_READ
  }

  predicate Clean(rest: seq<Event>) { forall i :: 0 <= i < |rest| ==> Faultless(rest[i]) }

  /** The binding is live, the one the command was accepted under, and behind it. */
  predicate Fits(b: Binding, s: Seen) {
    Live(b) && b.reign == s.reign && b.lastCtr < s.c.counter && b.block <= s.c.block
  }

  /** RAM fits the command, or the store does, and the epoch is not past it: the device
      compares a new epoch with RAM alone, so a low one in RAM lowers the stored one too. */
  predicate Open(d: Device, s: Seen) {
    || (Fits(d.ram, s) && d.ram.epoch <= s.c.epoch)
    || (Fits(d.stored, s) && (d.stored.epoch <= s.c.epoch || d.ram.epoch < s.c.epoch))
  }

  /** Its owner is the one who signed what was accepted under it. */
  predicate OwnedBy(accepted: seq<Seen>, b: Binding) {
    forall s :: s in accepted && s.reign == b.reign && b.owner.Some? ==> b.owner == Some(s.c.writer)
  }

  /** RAM and store agree on the owner of one binding, and the store is never behind in epoch. */
  predicate Alike(d: Device) {
    d.ram.reign == d.stored.reign ==>
      d.ram.epoch <= d.stored.epoch && (d.ram.owner.Some? && d.stored.owner.Some? ==> d.ram.owner == d.stored.owner)
  }

  predicate Authentic(accepted: seq<Seen>) {
    forall s :: s in accepted ==> s.c.wellFormed && s.c.signer == Some(s.c.writer)
  }

  predicate Matched(h: History) {
    Numbered(h) && Alike(h.d) && Authentic(h.accepted) && OwnedBy(h.accepted, h.d.ram) && OwnedBy(h.accepted, h.d.stored)
  }

  lemma StepOwned(h: History, e: Event)
    requires Matched(h)
    ensures var h' := Step(h, e); Alike(h'.d) && OwnedBy(h'.accepted, h'.d.ram) && OwnedBy(h'.accepted, h'.d.stored)
  {
    assert forall s :: s in h.accepted ==> s.reign <= h.reigns by {
      forall s | s in h.accepted ensures s.reign <= h.reigns {
        var i :| 0 <= i < |h.accepted| && h.accepted[i] == s;
      }
    }
  }

  lemma StepMatched(h: History, e: Event)
    requires Matched(h)
    ensures Matched(Step(h, e))
  {
    StepNumbered(h, e);
    StepOwned(h, e);
  }

  lemma {:induction false} ContinueMatched(h: History, run: seq<Event>)
    requires Matched(h)
    ensures Matched(Continue(h, run))
  {
    if run != [] {
      ContinueMatched(h, run[..|run| - 1]);
      StepMatched(Continue(h, run[..|run| - 1]), run[|run| - 1]);
    }
  }

  lemma {:induction false} ContinueFirst(h: History, e: Event, rest: seq<Event>)
    ensures Continue(h, [e] + rest) == Continue(Step(h, e), rest)
  {
    if rest == [] {
      assert [e] + rest == [e];
      ContinueOne(h, e);
    } else {
      ContinueFirst(h, e, rest[..|rest| - 1]);
      assert ([e] + rest)[..|rest|] == [e] + rest[..|rest| - 1];
    }
  }

  /** What fits RAM is accepted again, behind a new epoch if it needs one. */
  lemma RamAccepts(h: History, s: Seen) returns (rest: seq<Event>)
    requires Matched(h) && s in h.accepted && Fits(h.d.ram, s) && h.d.ram.epoch <= s.c.epoch
    ensures Clean(rest) && Continue(h, rest).accepted == h.accepted + [s]
  {
    if h.d.ram.epoch < s.c.epoch {
      rest := [SetsEpoch(s.c.epoch, Committed), Checks(s.c, Committed)];
      ContinueTwo(h, rest[0], rest[1]);
    } else {
      rest := [Checks(s.c, Committed)];
      ContinueOne(h, rest[0]);
    }
  }

  /** One step that changes no log, and then what is accepted from there. */
  lemma StepAccepts(h: History, e: Event, s: Seen) returns (rest: seq<Event>)
    requires Matched(h) && Faultless(e) && Step(h, e).accepted == h.accepted && s in h.accepted
    requires Fits(Step(h, e).d.ram, s) && Step(h, e).d.ram.epoch <= s.c.epoch
    ensures Clean(rest) && Continue(h, rest).accepted == h.accepted + [s]
  {
    StepMatched(h, e);
    var later := RamAccepts(Step(h, e), s);
    ContinueFirst(h, e, later);
    rest := [e] + later;
  }

  lemma OpenAccepts(h: History, s: Seen) returns (rest: seq<Event>)
    requires Matched(h) && s in h.accepted && Open(h.d, s)
    ensures Clean(rest) && Continue(h, rest).accepted == h.accepted + [s]
  {
    if Fits(h.d.ram, s) && h.d.ram.epoch <= s.c.epoch {
      rest := RamAccepts(h, s);
    } else if h.d.stored.epoch <= s.c.epoch {
      rest := StepAccepts(h, Reboots(ALL_READ), s);
    } else {
      var e := SetsEpoch(s.c.epoch, Committed);
      StepMatched(h, e);
      var later := StepAccepts(Step(h, e), Reboots(ALL_READ), s);
      ContinueFirst(h, e, later);
      rest := [e] + later;
    }
  }

  /** A command that is not open is neither accepted nor opened by a step in which nothing fails. */
  lemma StepStaysClosed(h: History, e: Event, s: Seen)
    requires Matched(h) && s in h.accepted && !Open(h.d, s) && Faultless(e)
    ensures !Open(Step(h, e).d, s)
    ensures e.Checks? && Accepts(h.d.ram, e.c) ==> Seen(h.d.ram.reign, e.c) != s
  {
    var i :| 0 <= i < |h.accepted| && h.accepted[i] == s;
  }

  /** Some command accepted before is accepted once more in `rest`. */
  predicate AcceptsAgain(h: History, rest: seq<Event>, s: Seen) {
    s in Continue(h, rest).accepted[|h.accepted|..]
  }

  lemma {:induction false} ClosedStays(h: History, rest: seq<Event>, s: Seen)
    requires Matched(h) && s in h.accepted && !Open(h.d, s) && Clean(rest)
    ensures !Open(Continue(h, rest).d, s) && !AcceptsAgain(h, rest, s)
  {
    if rest != [] {
      var earlier, e := rest[..|rest| - 1], rest[|rest| - 1];
      assert Clean(earlier);
      ClosedStays(h, earlier, s);
      ContinueMatched(h, earlier);
      var before := Continue(h, earlier);
      assert Faultless(e);
      StepStaysClosed(before, e, s);
      var added := before.accepted[|h.accepted|..];
      assert Step(before, e).accepted[|h.accepted|..]
          == if e.Checks? && Accepts(before.d.ram, e.c) then added + [Seen(before.d.ram.reign, e.c)] else added;
    }
  }

  /** After any run, whatever was lost or left unread in it: an accepted command can be accepted
      again, with nothing more going wrong, exactly when it is open. */
  lemma AcceptedAgainExactlyWhenOpen(run: seq<Event>, s: Seen)
    requires s in Execute(run).accepted
    ensures (exists rest :: Clean(rest) && AcceptsAgain(Execute(run), rest, s)) <==> Open(Execute(run).d, s)
  {
    var h := Execute(run);
    ContinueMatched(START, run);
    if Open(h.d, s) {
      var rest := OpenAccepts(h, s);
      assert AcceptsAgain(h, rest, s);
    } else {
      forall rest | Clean(rest) ensures !AcceptsAgain(h, rest, s) { ClosedStays(h, rest, s); }
    }
  }

  /** Some accepted command can be accepted again with nothing more going wrong. */
  ghost predicate Recallable(h: History) {
    exists rest, s :: Clean(rest) && s in h.accepted && AcceptsAgain(h, rest, s)
  }

  predicate SomeOpen(h: History) { exists s :: s in h.accepted && Open(h.d, s) }

  lemma RecallableWhenOpen(run: seq<Event>)
    ensures Recallable(Execute(run)) <==> SomeOpen(Execute(run))
  {
    var h := Execute(run);
    forall s | s in h.accepted
      ensures (exists rest :: Clean(rest) && AcceptsAgain(h, rest, s)) <==> Open(h.d, s)
    {
      AcceptedAgainExactlyWhenOpen(run, s);
    }
  }

  lemma CheckOpens(h: History, c: Cmd, k: Commit, s: Seen)
    requires Matched(h) && Accepts(h.d.ram, c) && (s in h.accepted ==> !Open(h.d, s))
    requires s in h.accepted || s == Seen(h.d.ram.reign, c)
    ensures Open(Check(h.d, c, k), s) <==>
              && k.LostOld? && s == Seen(h.d.ram.reign, c)
              && Fits(h.d.stored, s) && h.d.stored.epoch == c.epoch
  {
    if s in h.accepted {
      var i :| 0 <= i < |h.accepted| && h.accepted[i] == s;
    }
  }

  /** Accepting a command opens a replay, of that very command, exactly when its progress was lost
      and the store still holds the same live binding at the same epoch and behind it. */
  lemma ReplayExactlyWhenLost(run: seq<Event>, c: Cmd, k: Commit)
    requires !Recallable(Execute(run)) && Accepts(Execute(run).d.ram, c)
    ensures var d := Execute(run).d;
            Recallable(Execute(run + [Checks(c, k)])) <==>
              k.LostOld? && Fits(d.stored, Seen(d.ram.reign, c)) && d.stored.epoch == c.epoch
  {
    var h := Execute(run);
    var after := Execute(run + [Checks(c, k)]);
    ContinueMatched(START, run);
    ExecuteOneMore(run, Checks(c, k));
    RecallableWhenOpen(run);
    RecallableWhenOpen(run + [Checks(c, k)]);
    var s := Seen(h.d.ram.reign, c);
    assert after.accepted == h.accepted + [s];
    forall t | t in after.accepted
      ensures Open(after.d, t) <==> k.LostOld? && t == s && Fits(h.d.stored, s) && h.d.stored.epoch == c.epoch
    {
      assert t in h.accepted || t == s;
      CheckOpens(h, c, k, t);
    }
    assert s in after.accepted;
  }

  /** A boot that reads `r` of the stored binding leaves the command open: it takes the fields it
      cannot read for zero, and an epoch taken for zero can be set anew. */
  predicate Reopened(b: Binding, r: Reads, s: Seen) {
    && Live(b) && b.reign == s.reign
    && (b.lastCtr < s.c.counter || !r.counter) && (b.block <= s.c.block || !r.block) && (b.epoch <= s.c.epoch || !r.epoch)
    && ((r.owner && r.claim) || (b.lastCtr < s.c.counter && b.block <= s.c.block && 0 < s.c.epoch))
  }

  lemma BootOpens(h: History, r: Reads, s: Seen)
    requires !Open(h.d, s) && 0 < s.c.counter
    ensures Open(Reboot(h.d, r), s) <==> Reopened(h.d.stored, r, s)
  {
  }

  /** A boot opens a replay exactly when it takes for zero just the fields that kept some accepted
      command from fitting the stored binding. */
  lemma ReplayExactlyWhenUnread(run: seq<Event>, r: Reads)
    requires !Recallable(Execute(run))
    ensures var h := Execute(run);
            Recallable(Execute(run + [Reboots(r)])) <==> exists s :: s in h.accepted && Reopened(h.d.stored, r, s)
  {
    var h := Execute(run);
    AcceptedPositive(START, run);
    ExecuteOneMore(run, Reboots(r));
    RecallableWhenOpen(run);
    RecallableWhenOpen(run + [Reboots(r)]);
    forall s | s in h.accepted ensures Open(Reboot(h.d, r), s) <==> Reopened(h.d.stored, r, s) {
      var i :| 0 <= i < |h.accepted| && h.accepted[i] == s;
      BootOpens(h, r, s);
    }
  }

  /** A counter left unread brings nothing back that was accepted under an older epoch, as long as
      the epoch itself is read. */
  lemma OlderEpochStaysOut(run: seq<Event>, r: Reads)
    requires !Recallable(Execute(run)) && r.epoch
    requires var h := Execute(run);
             forall s :: s in h.accepted && s.reign == h.d.stored.reign ==> s.c.epoch < h.d.stored.epoch
    ensures !Recallable(Execute(run + [Reboots(r)]))
  {
    ReplayExactlyWhenUnread(run, r);
  }

  // Two runs that replay.

  /** An owner is bound, then `c` is checked, the device reboots, and `c` is checked again. */
  function Twice(c: Cmd, k: Commit, r: Reads): seq<Event> {
    [Binds(c.writer, 0, true, Committed), Checks(c, k), Reboots(r), Checks(c, Committed)]
  }

  lemma TwiceRuns(c: Cmd, k: Commit, r: Reads)
    ensures Execute(Twice(c, k, r))
         == Step(Step(Step(Step(START, Binds(c.writer, 0, true, Committed)), Checks(c, k)), Reboots(r)), Checks(c, Committed))
  {
    var run := Twice(c, k, r);
    assert run[..3] + [run[3]] == run && run[..2] + [run[2]] == run[..3];
    assert run[..1] + [run[1]] == run[..2] && run[..0] + [run[0]] == run[..1];
    forall n | 0 <= n < 4 ensures Execute(run[..n] + [run[n]]) == Step(Execute(run[..n]), run[n]) {
      ExecuteOneMore(run[..n], run[n]);
    }
    assert Execute(run[..0]) == START;
  }

  /** A commit that failed, or a boot that could not read the counter, and the same command
      is accepted twice. */
  lemma LostOrUnreadReplays()
    ensures var c := Cmd(true, 1, 0, 1, 0, Some(1));
            && Execute(Twice(c, LostOld, ALL_READ)).accepted == [Seen(1, c), Seen(1, c)]
            && Execute(Twice(c, Committed, ALL_READ.(counter := false))).accepted == [Seen(1, c), Seen(1, c)]
            && Execute(Twice(c, Committed, ALL_READ)).accepted == [Seen(1, c)]
  {
    var c := Cmd(true, 1, 0, 1, 0, Some(1));
    TwiceRuns(c, LostOld, ALL_READ);
    TwiceRuns(c, Committed, ALL_READ.(counter := false));
    TwiceRuns(c, Committed, ALL_READ);
  }
}
