/** The PPP lifecycle under its event lock: which observations count, which interface is
    current, and when a teardown has committed. Counters are 32-bit. */
module PppEvents {

  const WRAP: nat := 0x1_0000_0000

  datatype Phase = Preparing | Starting | Up | Down | Stopping

  datatype Observation = NoObservation | GotIp | LostIp | ErrorSeen

  datatype Ppp = Ppp(phase: Phase, observation: Observation, error: int, attempt: nat, sequence: nat,
                     generation: nat, hadIp: bool)

  const AT_BOOT: Ppp := Ppp(Stopping, NoObservation, 0, 0, 0, 0, false)

  function Next32(n: nat): nat { (n + 1) % WRAP }

  /** Zero means no current interface, so the counter skips it. */
  function NextGeneration(g: nat): (g': nat)
    ensures g' != 0
  {
    if Next32(g) == 0 then 1 else Next32(g)
  }

  function CurrentGeneration(p: Ppp): nat { if p.phase.Up? then p.generation else 0 }

  function BeginAttempt(p: Ppp): Ppp {
    p.(attempt := Next32(p.attempt), sequence := Next32(p.sequence), phase := Preparing,
       observation := NoObservation, error := 0, hadIp := false)
  }

  function StartDial(p: Ppp): Ppp {
    p.(phase := Starting, observation := NoObservation, error := 0, hadIp := false, sequence := Next32(p.sequence))
  }

  function BeginStop(p: Ppp): Ppp { p.(phase := Stopping, sequence := Next32(p.sequence)) }

  function TakeLoss(p: Ppp): Ppp { if p.phase.Down? then BeginStop(p) else p }

  predicate Listening(p: Ppp) { !p.phase.Stopping? && !p.phase.Preparing? }

  /** A loss before the first address of an attempt says nothing about that attempt. */
  function Observe(p: Ppp, seen: Observation, error: int): Ppp {
    var q := p.(sequence := Next32(p.sequence));
    if !Listening(p) then q
    else if seen.GotIp? then
      q.(observation := seen, error := error, phase := Up, hadIp := true,
         generation := if p.phase.Up? then p.generation else NextGeneration(p.generation))
    else if seen.ErrorSeen? || p.hadIp then q.(observation := seen, error := error, phase := Down)
    else q.(observation := seen, error := error)
  }

  /** One pass of the wait for a link. */
  function WaitPass(p: Ppp, timedOut: bool): Ppp {
    if p.phase.Down? || (timedOut && !p.phase.Up?) then BeginStop(p) else p
  }

  /** The teardown commits only on the very state the supervisor decided on. */
  predicate Committable(p: Ppp, attempt: nat, sequence: nat) {
    p.phase.Up? && p.attempt == attempt && p.sequence == sequence
  }

  function CommitStop(p: Ppp, attempt: nat, sequence: nat): Ppp {
    if Committable(p, attempt, sequence) then BeginStop(p) else p
  }

  /** The lifecycle as the firmware keeps it. */
  class Lifecycle {
    var phase: Phase
    var observation: Observation
    var error: int
    var attempt: nat
    var sequence: nat
    var generation: nat
    var hadIp: bool

    ghost function State(): Ppp
      reads this
    {
      Ppp(phase, observation, error, attempt, sequence, generation, hadIp)
    }

    constructor ()
      ensures State() == AT_BOOT
    {
      phase, observation, error, hadIp := Stopping, NoObservation, 0, false;
      attempt, sequence, generation := 0, 0, 0;
    }

    method Prepare()
      modifies this
      ensures State() == BeginAttempt(old(State()))
    {
      attempt := Next32(attempt);
      sequence := Next32(sequence);
      phase, observation, error, hadIp := Preparing, NoObservation, 0, false;
    }

    method Dial()
      modifies this
      ensures State() == StartDial(old(State()))
    {
      phase, observation, error, hadIp := Starting, NoObservation, 0, false;
      sequence := Next32(sequence);
    }

    method Stop()
      modifies this
      ensures State() == BeginStop(old(State()))
    {
      phase := Stopping;
      sequence := Next32(sequence);
    }

    method TakeLossOnce() returns (lost: bool)
      modifies this
      ensures lost == old(State()).phase.Down? && State() == TakeLoss(old(State()))
    {
      lost := phase == Down;
      if lost { Stop(); }
    }

    method See(seen: Observation, code: int) returns (accepted: bool)
      modifies this
      ensures accepted == Listening(old(State())) && State() == Observe(old(State()), seen, code)
    {
      var before := phase;
      accepted := before != Stopping && before != Preparing;
      sequence := Next32(sequence);
      if accepted {
        observation, error := seen, code;
        if seen == GotIp {
          if before != Up {
            generation := Next32(generation);
            if generation == 0 { generation := Next32(generation); }
          }
          phase, hadIp := Up, true;
        } else if seen == ErrorSeen || hadIp {
          phase := Down;
        }
      }
    }

    method WaitOnce(timedOut: bool) returns (was: Phase)
      modifies this
      ensures was == old(State()).phase && State() == WaitPass(old(State()), timedOut)
    {
      was := phase;
      if was == Down || (timedOut && was != Up) { Stop(); }
    }

    method Commit(a: nat, s: nat) returns (current: bool)
      modifies this
      ensures current == Committable(old(State()), a, s) && State() == CommitStop(old(State()), a, s)
    {
      current := phase == Up && attempt == a && sequence == s;
      if current { Stop(); }
    }
  }

  // Any run of lifecycle calls.

  datatype Op =
    | Prepares | Dials | Stops | TakesLoss | Sees(seen: Observation, error: int) | Waits(timedOut: bool)
    | Commits(attempt: nat, sequence: nat)

  function Apply(p: Ppp, op: Op): Ppp {
    match op
    case Prepares => BeginAttempt(p)
    case Dials => StartDial(p)
    case Stops => BeginStop(p)
    case TakesLoss => TakeLoss(p)
    case Sees(seen, error) => Observe(p, seen, error)
    case Waits(timedOut) => WaitPass(p, timedOut)
    case Commits(a, s) => CommitStop(p, a, s)
  }

  function Play(p: Ppp, ops: seq<Op>): Ppp {
    if ops == [] then p else Apply(Play(p, ops[..|ops| - 1]), ops[|ops| - 1])
  }

  /** How many of the calls changed anything: each of those moved the sequence by one. */
  function Moves(p: Ppp, ops: seq<Op>): nat {
    if ops == [] then 0
    else
      var before := Play(p, ops[..|ops| - 1]);
      Moves(p, ops[..|ops| - 1]) + if Apply(before, ops[|ops| - 1]) == before then 0 else 1
  }

  lemma ApplyMoves(p: Ppp, op: Op)
    requires p.sequence < WRAP
    ensures Apply(p, op) == p || Apply(p, op).sequence == Next32(p.sequence)
    ensures Apply(p, op).sequence < WRAP
  {
  }

  lemma OneMore(a: nat, m: nat)
    ensures Next32((a + m) % WRAP) == (a + (m + 1)) % WRAP
  {
  }

  lemma NoFullTurn(a: nat, m: nat)
    requires a < WRAP && m < WRAP && (a + m) % WRAP == a
    ensures m == 0
  {
  }

  lemma {:induction false} SequenceCountsMoves(p: Ppp, ops: seq<Op>)
    requires p.sequence < WRAP
    ensures Play(p, ops).sequence == (p.sequence + Moves(p, ops)) % WRAP
    ensures Moves(p, ops) == 0 ==> Play(p, ops) == p
  {
    if ops != [] {
      var earlier := ops[..|ops| - 1];
      SequenceCountsMoves(p, earlier);
      ApplyMoves(Play(p, earlier), ops[|ops| - 1]);
      OneMore(p.sequence, Moves(p, earlier));
    }
  }

  /** What the count of changes says of the state, once it is known. */
  predicate Counted(p: Ppp, q: Ppp, m: nat) {
    q.sequence == (p.sequence + m) % WRAP && (m == 0 ==> q == p)
  }

  lemma PlayCounted(p: Ppp, ops: seq<Op>, q: Ppp, m: nat)
    requires p.sequence < WRAP && q == Play(p, ops) && m == Moves(p, ops)
    ensures Counted(p, q, m)
  {
    SequenceCountsMoves(p, ops);
  }

  lemma SameAgain(p: Ppp, q: Ppp, m: nat)
    requires p.sequence < WRAP && m < WRAP && q.sequence == p.sequence && Counted(p, q, m)
    ensures m == 0 && q == p
  {
    NoFullTurn(p.sequence, m);
  }

  /** Fewer than 2^32 changes later, the same sequence number means the same state. */
  lemma SameSequenceSameState(p: Ppp, ops: seq<Op>)
    requires p.sequence < WRAP && Moves(p, ops) < WRAP && Play(p, ops).sequence == p.sequence
    ensures Moves(p, ops) == 0 && Play(p, ops) == p
  {
    PlayCounted(p, ops, Play(p, ops), Moves(p, ops));
    SameAgain(p, Play(p, ops), Moves(p, ops));
  }

  /** A loss, and then address after address. */
  function Relinked(n: nat): (ops: seq<Op>)
    ensures |ops| == n
  {
    if n == 0 then [] else Relinked(n - 1) + [Sees(if n == 1 then ErrorSeen else GotIp, 0)]
  }

  lemma {:induction false} RelinkedMoves(p: Ppp, n: nat)
    requires p.phase.Up? && p.sequence < WRAP && 0 < n
    ensures var q := Play(p, Relinked(n));
            && q.phase == (if n == 1 then Down else Up) && q.attempt == p.attempt
            && q.generation == if n == 1 then p.generation else NextGeneration(p.generation)
    ensures Moves(p, Relinked(n)) == n
  {
    var earlier := Relinked(n - 1);
    assert Relinked(n)[..n - 1] == earlier;
    SequenceCountsMoves(p, earlier);
    if n > 1 { RelinkedMoves(p, n - 1); }
    ApplyMoves(Play(p, earlier), Relinked(n)[n - 1]);
  }

  lemma FullTurn(a: nat, m: nat)
    requires a < WRAP && m == WRAP
    ensures (a + m) % WRAP == a
  {
  }

  lemma OtherGeneration(g: nat)
    requires g < WRAP
    ensures NextGeneration(g) != g
  {
  }

  /** After 2^32 changes the teardown commits on a session that is not the one observed. */
  lemma {:induction false} FullTurnConfuses(p: Ppp, n: nat, q: Ppp)
    requires p.phase.Up? && p.sequence < WRAP && p.generation < WRAP && n == WRAP && q == Play(p, Relinked(n))
    ensures Moves(p, Relinked(n)) == WRAP && Committable(q, p.attempt, p.sequence) && q.generation != p.generation
  {
    RelinkedMoves(p, n);
    PlayCounted(p, Relinked(n), q, n);
    FullTurn(p.sequence, n);
    OtherGeneration(p.generation);
  }

  /** The sequence number is as it was, and the state is not. */
  predicate Confused(p: Ppp, ops: seq<Op>) {
    p.sequence < WRAP && Play(p, ops).sequence == p.sequence && Play(p, ops) != p
  }

  /** The number tells states apart over so many changes: fewer than 2^32, exactly. */
  lemma {:induction false} TellsApartExactly(most: nat)
    ensures (forall p, ops :: Moves(p, ops) <= most ==> !Confused(p, ops)) <==> most < WRAP
  {
    if most < WRAP {
      forall p, ops | Moves(p, ops) <= most ensures !Confused(p, ops) {
        if Confused(p, ops) { SameSequenceSameState(p, ops); }
      }
    } else {
      var p, n := AT_BOOT.(phase := Up), WRAP;
      FullTurnConfuses(p, n, Play(p, Relinked(n)));
      assert Confused(p, Relinked(n));
    }
  }

  predicate NoDial(ops: seq<Op>) { forall i :: 0 <= i < |ops| ==> !ops[i].Dials? }

  /** Once stopping, no observation brings the interface back before the next dial. */
  lemma {:induction false} StoppedStaysDown(p: Ppp, ops: seq<Op>)
    requires p.phase.Stopping? && NoDial(ops)
    ensures !Listening(Play(p, ops)) && CurrentGeneration(Play(p, ops)) == 0
  {
    if ops != [] {
      assert NoDial(ops[..|ops| - 1]);
      StoppedStaysDown(p, ops[..|ops| - 1]);
      assert !ops[|ops| - 1].Dials?;
    }
  }
}
