/** The reference server's command queue: number, hand out, expire and clear. */
module HttpServer {
  import opened HttpDevice

  const DEVICE_ID_MAX_CHARS: nat := 47
  const DEVICE_RESPONSE_MAX_BYTES: nat := 2047

  /** A queued command; `bytes` is the length of its JSON object on the wire. */
  datatype Command = Command(number: nat, id: Id, body: Body, queuedAt: nat, sent: nat, bytes: nat)

  function Wired(c: Command): Wire { Wire(c.id, c.body) }

  function Wires(cs: seq<Command>): seq<Wire> { seq(|cs|, i requires 0 <= i < |cs| => Wired(cs[i])) }

  // ---- Command ids -----------------------------------------------------------

  function Digit(d: nat): char
    requires d < 10
  {
    "0123456789"[d]
  }

  function Decimal(n: nat): (s: string)
    ensures s != ""
  {
    if n < 10 then [Digit(n)] else Decimal(n / 10) + [Digit(n % 10)]
  }

  function Pad(s: string): string
    decreases 4 - |s|
  {
    if |s| < 4 then Pad("0" + s) else s
  }

  /** "c-" and the number in decimal, at least four digits. */
  function IdOf(n: nat): Id { "c-" + Pad(Decimal(n)) }

  function DigitValue(c: char): int { c as int - '0' as int }

  function Value(s: string): int {
    if s == "" then 0 else 10 * Value(s[..|s| - 1]) + DigitValue(s[|s| - 1])
  }

  lemma {:induction false} DecimalValue(n: nat)
    ensures Value(Decimal(n)) == n
  {
    if n >= 10 {
      DecimalValue(n / 10);
      assert Decimal(n)[..|Decimal(n)| - 1] == Decimal(n / 10);
    }
  }

  lemma {:induction false} LeadingZero(s: string)
    ensures Value("0" + s) == Value(s)
  {
    if s != "" {
      LeadingZero(s[..|s| - 1]);
      assert ("0" + s)[..|s|] == "0" + s[..|s| - 1];
    } else {
      assert "0" + s == "0" && "0"[..0] == "";
    }
  }

  lemma {:induction false} PadValue(s: string)
    ensures Value(Pad(s)) == Value(s)
    decreases 4 - |s|
  {
    if |s| < 4 {
      PadValue("0" + s);
      LeadingZero(s);
    }
  }

  /** Different numbers give different ids. */
  lemma IdOfInjective(m: nat, n: nat)
    ensures IdOf(m) == IdOf(n) ==> m == n
  {
    DecimalValue(m);
    DecimalValue(n);
    PadValue(Decimal(m));
    PadValue(Decimal(n));
    assert IdOf(m)[2..] == Pad(Decimal(m)) && IdOf(n)[2..] == Pad(Decimal(n));
  }

  // ---- What the queue operations compute --------------------------------------

  datatype ServerState = ServerState(commands: seq<Command>, nextId: nat)

  function Filter<T>(keep: T -> bool, s: seq<T>): seq<T> {
    if s == [] then []
    else
      var front := Filter(keep, s[..|s| - 1]);
      if keep(s[|s| - 1]) then front + [s[|s| - 1]] else front
  }

  function Enqueued(s: ServerState, body: Body, bytes: nat, now: nat): ServerState {
    ServerState(s.commands + [Command(s.nextId, IdOf(s.nextId), body, now, 0, bytes)], s.nextId + 1)
  }

  predicate NotAcked(c: Command, acked: seq<Id>) { c.id !in acked }

  /** The refusal `r` names command `c`: exactly, or by the 47-character cut of an
      over-long id. */
  predicate Names(r: Reject, c: Command) {
    c.id == r.id || (r.reason == BadId && |r.id| == DEVICE_ID_MAX_CHARS && r.id <= c.id)
  }

  function WithoutRejected(cs: seq<Command>, rejected: seq<Reject>): seq<Command> {
    if rejected == [] then cs
    else
      var r := rejected[|rejected| - 1];
      Filter((c: Command) => !Names(r, c), WithoutRejected(cs, rejected[..|rejected| - 1]))
  }

  function Cleared(cs: seq<Command>, acked: seq<Id>): seq<Command> {
    Filter((c: Command) => NotAcked(c, acked), cs)
  }

  function AcksApplied(s: ServerState, acked: seq<Id>, rejected: seq<Reject>): ServerState {
    s.(commands := WithoutRejected(Cleared(s.commands, acked), rejected))
  }

  /** Python subtracts two clock readings; an age can be negative. */
  predicate Young(c: Command, now: nat, maxAge: nat) { maxAge == 0 || now - c.queuedAt <= maxAge }

  function Unexpired(cs: seq<Command>, now: nat, maxAge: nat): seq<Command> {
    Filter((c: Command) => Young(c, now, maxAge), cs)
  }

  /** Bytes of {"commands": [...]} around these commands. */
  function Size(cs: seq<Command>): nat {
    if cs == [] then 16
    else Size(cs[..|cs| - 1]) + cs[|cs| - 1].bytes + (if |cs| > 1 then 2 else 0)
  }

  /** How many of the first `n` commands fit, giving up from the end. */
  function Fitting(cs: seq<Command>, n: nat, maxBytes: nat): (k: nat)
    requires n <= |cs|
    ensures k <= n
    ensures k == 0 || Size(cs[..k]) <= maxBytes
    ensures forall j :: k < j <= n ==> maxBytes < Size(cs[..j])
  {
    if n == 0 || Size(cs[..n]) <= maxBytes then n else Fitting(cs, n - 1, maxBytes)
  }

  function HandedOut(cs: seq<Command>, limit: int, maxBytes: nat): (k: nat)
    ensures k <= |cs|
  {
    if limit <= 0 then |cs| else Fitting(cs, if limit < |cs| then limit else |cs|, maxBytes)
  }

  function Stamped(cs: seq<Command>, k: nat): seq<Command>
    requires k <= |cs|
  {
    seq(|cs|, i requires 0 <= i < |cs| => if i < k then cs[i].(sent := cs[i].sent + 1) else cs[i])
  }

  /** The queue after handing out, and what was handed out. */
  function Taken(s: ServerState, limit: int, maxBytes: nat, now: nat, maxAge: nat): (ServerState, seq<Wire>) {
    var kept := Unexpired(s.commands, now, maxAge);
    var k := HandedOut(kept, limit, maxBytes);
    (s.(commands := Stamped(kept, k)), Wires(kept[..k]))
  }

  // ---- The server's state object ----------------------------------------------

  class State {
    var commands: seq<Command>
    var nextId: nat
    const maxAge: nat

    ghost function Abstract(): ServerState
      reads this
    {
      ServerState(commands, nextId)
    }

    constructor (maxAge: nat)
      ensures Abstract() == ServerState([], 1) && this.maxAge == maxAge
    {
      commands, nextId, this.maxAge := [], 1, maxAge;
    }

    method Enqueue(body: Body, bytes: nat, now: nat) returns (id: Id)
      modifies this
      ensures Abstract() == Enqueued(old(Abstract()), body, bytes, now)
      ensures id == IdOf(old(nextId))
    {
      id := IdOf(nextId);
      commands := commands + [Command(nextId, id, body, now, 0, bytes)];
      nextId := nextId + 1;
    }

    method ApplyAcks(acked: seq<Id>, rejected: seq<Reject>) returns (cleared: int)
      modifies this`commands
      ensures Abstract() == AcksApplied(old(Abstract()), acked, rejected)
      ensures cleared == |old(commands)| - |Cleared(old(commands), acked)|
    {
      var before := |commands|;
      commands := Keep((c: Command) => NotAcked(c, acked), commands);
      cleared := before - |commands|;
      ghost var remaining := commands;
      for i := 0 to |rejected|
        invariant commands == WithoutRejected(remaining, rejected[..i])
      {
        var r := rejected[i];
        assert rejected[..i + 1][..i] == rejected[..i];
        commands := Keep((c: Command) => !Names(r, c), commands);
      }
      assert rejected[..|rejected|] == rejected;
    }

    static method Keep(keep: Command -> bool, cs: seq<Command>) returns (kept: seq<Command>)
      ensures kept == Filter(keep, cs)
    {
      kept := [];
      for i := 0 to |cs|
        invariant kept == Filter(keep, cs[..i])
      {
        assert cs[..i + 1][..i] == cs[..i];
        if keep(cs[i]) { kept := kept + [cs[i]]; }
      }
      assert cs[..|cs|] == cs;
    }

    method TakePending(limit: int, maxBytes: nat, now: nat) returns (wires: seq<Wire>)
      modifies this`commands
      ensures (Abstract(), wires) == Taken(old(Abstract()), limit, maxBytes, now, maxAge)
    {
      if maxAge > 0 {
        commands := Keep((c: Command) => Young(c, now, maxAge), commands);
      } else {
        AllYoung(commands, now);
      }
      ghost var kept := commands;
      var k: nat := if limit <= 0 || |commands| <= limit then |commands| else limit;
      if limit > 0 {
        while k > 0 && Size(commands[..k]) > maxBytes
          invariant k <= |commands|
          invariant Fitting(commands, if limit < |commands| then limit else |commands|, maxBytes)
                 == Fitting(commands, k, maxBytes)
        {
          k := k - 1;
        }
      }
      wires := Wires(commands[..k]);
      commands := Stamped(commands, k);
    }

    lemma {:induction false} AllYoung(cs: seq<Command>, now: nat)
      ensures Unexpired(cs, now, 0) == cs
      decreases |cs|
    {
      if cs != [] { AllYoung(cs[..|cs| - 1], now); }
    }
  }
}
