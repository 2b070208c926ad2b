/** The outgoing Arkiv sequence number: a counter in RAM behind a durable reservation.
    Non-volatile storage is one value; a failed commit may leave the old or the new one. */
module ArkivSequence {

  const RESERVE_WINDOW: nat := 1024
  const SEQ_MAX_48: nat := 0xFFFF_FFFF_FFFF
  const LIMIT: nat := SEQ_MAX_48 - RESERVE_WINDOW

  datatype Commit = Committed | LostOld | LostNew   // LostNew: reported failed, yet stored

  /** What survives a reboot is `stored` only; zero when nothing was ever stored. */
  datatype SeqState = SeqState(next: nat, reserved: nat, stored: nat)

  datatype Issue = Issue(s: SeqState, value: nat)   // zero: unavailable

  function Boot(stored: nat, readable: bool): SeqState {
    var persisted := if readable then stored else 0;
    SeqState(persisted + 1, persisted + 1, stored)
  }

  function Stored(old': nat, new': nat, c: Commit): nat { if c.LostOld? then old' else new' }

  function NextSeq(s: SeqState, c: Commit): Issue {
    if LIMIT <= s.next then Issue(s, 0)
    else if s.next < s.reserved then Issue(s.(next := s.next + 1), s.next)
    else
      var high := s.next + RESERVE_WINDOW;
      if !c.Committed? then Issue(s.(stored := Stored(s.stored, high, c)), 0)
      else Issue(SeqState(s.next + 1, high, high), s.next)
  }

  /** The counter as the firmware keeps it, beside the flash it reserves in. */
  class Counter {
    var next: nat
    var reserved: nat
    var stored: nat

    ghost function State(): SeqState reads this { SeqState(next, reserved, stored) }

    /** A device on which nothing was ever stored. */
    constructor ()
      ensures State() == Boot(0, true)
    {
      next, reserved, stored := 1, 1, 0;
    }

    method Recover(readable: bool)
      modifies this
      ensures State() == Boot(old(stored), readable)
    {
      var persisted := if readable then stored else 0;
      next := persisted + 1;
      reserved := next;
    }

    method Persist(value: nat, c: Commit) returns (ok: bool)
      modifies this`stored
      ensures ok == c.Committed? && stored == Stored(old(stored), value, c)
    {
      if c != LostOld { stored := value; }
      ok := c == Committed;
    }

    method Next(c: Commit) returns (value: nat)
      modifies this
      ensures Issue(State(), value) == NextSeq(old(State()), c)
    {
      if next >= SEQ_MAX_48 - RESERVE_WINDOW { return 0; }
      if next >= reserved {
        var high := next + RESERVE_WINDOW;
        var ok := Persist(high, c);
        if !ok { return 0; }
        reserved := high;
      }
      value := next;
      next := next + 1;
    }
  }

  datatype Event = Call(c: Commit) | Reboot(readable: bool)

  datatype History = History(s: SeqState, issued: seq<nat>)

  function Step(h: History, e: Event): History {
    match e
    case Reboot(readable) => h.(s := Boot(h.s.stored, readable))
    case Call(c) =>
      var i := NextSeq(h.s, c);
      History(i.s, if i.value == 0 then h.issued else h.issued + [i.value])
  }

  function Continue(h: History, run: seq<Event>): History {
    if run == [] then h else Step(Continue(h, run[..|run| - 1]), run[|run| - 1])
  }

  const FIRST_BOOT: History := History(Boot(0, true), [])

  function Execute(run: seq<Event>): History { Continue(FIRST_BOOT, run) }

  predicate Increasing(s: seq<nat>) { forall i, j :: 0 <= i < j < |s| ==> s[i] < s[j] }

  predicate Readable(run: seq<Event>) { forall i :: 0 <= i < |run| ==> run[i] != Reboot(false) }

  /** What holds whatever fails. */
  predicate InOrder(h: History) {
    && 1 <= h.s.next <= h.s.reserved <= h.s.stored + 1
    && forall i :: 0 <= i < |h.issued| ==> 1 <= h.issued[i] < LIMIT
  }

  /** The counter is ahead of everything issued; the store, by its order, then is too. */
  predicate Ahead(h: History) { forall i :: 0 <= i < |h.issued| ==> h.issued[i] < h.s.next }

  lemma {:induction false} ContinueInOrder(h: History, run: seq<Event>)
    requires InOrder(h)
    ensures InOrder(Continue(h, run))
  {
    if run != [] { ContinueInOrder(h, run[..|run| - 1]); }
  }

  lemma StepAhead(h: History, e: Event)
    requires InOrder(h) && Ahead(h) && Increasing(h.issued) && e != Reboot(false)
    ensures Ahead(Step(h, e)) && Increasing(Step(h, e).issued)
  {
  }

  lemma {:induction false} ContinueAhead(h: History, run: seq<Event>)
    requires InOrder(h) && Ahead(h) && Increasing(h.issued) && Readable(run)
    ensures Ahead(Continue(h, run)) && Increasing(Continue(h, run).issued)
  {
    if run != [] {
      var earlier := run[..|run| - 1];
      assert Readable(earlier);
      ContinueInOrder(h, earlier);
      ContinueAhead(h, earlier);
      StepAhead(Continue(h, earlier), run[|run| - 1]);
    }
  }

  /** Over any run of calls, commits that fail either way and reboots that read what is
      stored, the numbers issued increase and keep below the nonce limit. */
  lemma NumbersNeverRepeat(run: seq<Event>)
    requires Readable(run)
    ensures Increasing(Execute(run).issued)
    ensures forall i :: 0 <= i < |Execute(run).issued| ==> 1 <= Execute(run).issued[i] < LIMIT
  {
    ContinueInOrder(FIRST_BOOT, run);
    ContinueAhead(FIRST_BOOT, run);
  }

  // A counter that is behind issues a number again.

  function Calls(n: nat): (run: seq<Event>)
    ensures |run| == n && Readable(run)
  {
    if n == 0 then [] else Calls(n - 1) + [Call(Committed)]
  }

  lemma CallIssues(h: History)
    requires InOrder(h) && h.s.next < LIMIT
    ensures var h' := Step(h, Call(Committed)); h'.s.next == h.s.next + 1 && h'.issued == h.issued + [h.s.next]
  {
  }

  lemma ContinueOneMore(h: History, run: seq<Event>, e: Event)
    ensures Continue(h, run + [e]) == Step(Continue(h, run), e)
  {
    assert (run + [e])[..|run|] == run;
  }

  /** So many calls issue the next so many numbers. */
  lemma {:induction false} CallsCountUp(h: History, n: nat)
    requires InOrder(h) && h.s.next + n <= LIMIT
    ensures var h' := Continue(h, Calls(n));
            && h'.s.next == h.s.next + n && h.issued <= h'.issued && |h'.issued| == |h.issued| + n
            && (n > 0 ==> h'.issued[|h'.issued| - 1] == h.s.next + n - 1)
  {
    if n > 0 {
      CallsCountUp(h, n - 1);
      ContinueInOrder(h, Calls(n - 1));
      ContinueOneMore(h, Calls(n - 1), Call(Committed));
      CallIssues(Continue(h, Calls(n - 1)));
    }
  }

  /** A counter at or below a number issued comes to it again. */
  lemma IssuedAgain(h: History, i: nat)
    requires InOrder(h) && i < |h.issued| && h.s.next <= h.issued[i]
    ensures !Increasing(Continue(h, Calls(h.issued[i] + 1 - h.s.next)).issued)
  {
    var n := h.issued[i] + 1 - h.s.next;
    CallsCountUp(h, n);
    var after := Continue(h, Calls(n)).issued;
    assert after[i] == h.issued[i] == after[|after| - 1];
  }

  lemma {:induction false} ContinueTwice(h: History, a: seq<Event>, b: seq<Event>)
    ensures Continue(h, a + b) == Continue(Continue(h, a), b)
  {
    if b == [] {
      assert a + b == a;
    } else {
      assert (a + b)[..|a + b| - 1] == a + b[..|b| - 1];
      ContinueTwice(h, a, b[..|b| - 1]);
    }
  }

  lemma BehindRepeats(h: History) returns (rest: seq<Event>)
    requires InOrder(h) && !Ahead(h)
    ensures Readable(rest) && !Increasing(Continue(h, rest).issued)
  {
    var i :| 0 <= i < |h.issued| && h.s.next <= h.issued[i];
    IssuedAgain(h, i);
    rest := Calls(h.issued[i] + 1 - h.s.next);
  }

  /** No number is issued twice from here on, as long as every reboot can read the store. */
  ghost predicate Safe(h: History) { forall rest :: Readable(rest) ==> Increasing(Continue(h, rest).issued) }

  /** After any run that has repeated nothing yet, reboots that could not read the store
      included: nothing is ever repeated from there on exactly when the counter is ahead of
      everything issued. */
  lemma SafeExactlyWhenAhead(run: seq<Event>)
    requires Increasing(Execute(run).issued)
    ensures Safe(Execute(run)) <==> Ahead(Execute(run))
  {
    ContinueInOrder(FIRST_BOOT, run);
    if Ahead(Execute(run)) {
      forall rest | Readable(rest) ensures Increasing(Continue(Execute(run), rest).issued) {
        ContinueAhead(Execute(run), rest);
      }
    } else {
      var rest := BehindRepeats(Execute(run));
    }
  }

  // A reboot whose read fails starts again from one.

  /** Recovery takes a failed read for an empty store. That is safe exactly when nothing was
      issued before it: otherwise some continuation repeats a number. */
  lemma UnreadableSafeExactlyWhenUnused(run: seq<Event>)
    requires Increasing(Execute(run).issued)
    ensures Safe(Execute(run + [Reboot(false)])) <==> Execute(run).issued == []
  {
    ContinueInOrder(FIRST_BOOT, run);
    ContinueOneMore(FIRST_BOOT, run, Reboot(false));
    var h := Execute(run + [Reboot(false)]);
    if Execute(run).issued != [] { assert h.s.next <= h.issued[0]; }
    SafeExactlyWhenAhead(run + [Reboot(false)]);
  }

  /** After such a reboot so many calls as the first number ever issued repeat it. */
  lemma RepeatAfterUnreadable(run: seq<Event>)
    requires Execute(run).issued != []
    ensures !Increasing(Execute(run + [Reboot(false)] + Calls(Execute(run).issued[0])).issued)
  {
    ContinueInOrder(FIRST_BOOT, run);
    ContinueOneMore(FIRST_BOOT, run, Reboot(false));
    ContinueTwice(FIRST_BOOT, run + [Reboot(false)], Calls(Execute(run).issued[0]));
    ContinueInOrder(FIRST_BOOT, run + [Reboot(false)]);
    IssuedAgain(Execute(run + [Reboot(false)]), 0);
  }

  /** One number, a reboot that cannot read the store, and the same number again. */
  lemma FirstNumberTwice()
    ensures Execute([Call(Committed), Reboot(false), Call(Committed)]).issued == [1, 1]
  {
    ContinueOneMore(FIRST_BOOT, [], Call(Committed));
    ContinueOneMore(FIRST_BOOT, [Call(Committed)], Reboot(false));
    ContinueOneMore(FIRST_BOOT, [Call(Committed), Reboot(false)], Call(Committed));
    assert [] + [Call(Committed)] == [Call(Committed)];
    assert [Call(Committed)] + [Reboot(false)] == [Call(Committed), Reboot(false)];
    assert [Call(Committed), Reboot(false)] + [Call(Committed)] == [Call(Committed), Reboot(false), Call(Committed)];
  }
}
