/** The stop-and-wait firmware transfer: the relay's sender, the receiver's session and
    the link between them, which keeps order but may lose or delay any frame.

    Every request attempt has a number; the wire carries it modulo 256. */
module FwTransfer {

  type Bytes = seq<bv8>

  const XFER_CHUNK: nat := 236
  const ATTEMPTS: nat := 2

  // The receiver.

  datatype Result = Ok | BadReq | Busy | SeqMismatch | FlashErr | VerifyFail | LinkTimeout

  /** An open session: the announced length and what was staged so far. The transfer it
      belongs to is recorded for the proofs. */
  datatype Session = Closed | Open(transfer: nat, len: nat, data: Bytes)

  datatype Handled = Handled(session: Session, result: Result, commit: bool)

  /** `refusal` is what the claim, the slot check or the flash driver answers. */
  function OnBegin(s: Session, transfer: nat, len: nat, refusal: Result): Handled {
    if refusal != Ok then Handled(Closed, refusal, false) else Handled(Open(transfer, len, []), Ok, false)
  }

  function OnData(s: Session, offset: nat, chunk: Bytes, flashOk: bool): Handled {
    if s.Closed? then Handled(s, BadReq, false)
    else if offset != |s.data| then Handled(Closed, SeqMismatch, false)
    else if s.len < offset + |chunk| then Handled(Closed, BadReq, false)
    else if chunk == [] then Handled(s, Ok, false)
    else if !flashOk then Handled(Closed, FlashErr, false)
    else Handled(s.(data := s.data + chunk), Ok, false)
  }

  /** `verdict` is what sealing, the read-back digest and the boot switch answer. */
  function OnEnd(s: Session, commit: bool, verdict: Result): Handled {
    if s.Closed? then Handled(s, BadReq, false)
    else if !commit then Handled(Closed, Ok, false)
    else if |s.data| != s.len then Handled(Closed, BadReq, false)
    else if verdict != Ok then Handled(Closed, verdict, false)
    else Handled(Closed, Ok, true)
  }

  /** The receiver as the firmware keeps it; `staged` is the slot written so far. */
  class Receiver {
    var open: bool
    var imageLen: nat
    var received: nat
    var staged: Bytes
    ghost var transfer: nat

    ghost predicate Valid() reads this { open ==> received == |staged| }

    ghost function State(): Session
      requires Valid()
      reads this
    {
      if open then Open(transfer, imageLen, staged) else Closed
    }

    constructor ()
      ensures Valid() && State() == Closed
    {
      open, imageLen, received, staged, transfer := false, 0, 0, [], 0;
    }

    method Abort()
      requires Valid()
      modifies this`open
      ensures Valid() && State() == Closed
    {
      open := false;
    }

    method Begin(len: nat, refusal: Result, ghost t: nat) returns (result: Result)
      requires Valid()
      modifies this
      ensures Valid()
      ensures Handled(State(), result, false) == OnBegin(old(State()), t, len, refusal)
    {
      if open { Abort(); }
      if refusal != Ok { return refusal; }
      open, imageLen, received, staged := true, len, 0, [];
      transfer := t;
      return Ok;
    }

    method Data(offset: nat, chunk: Bytes, flashOk: bool) returns (result: Result)
      requires Valid()
      modifies this
      ensures Valid()
      ensures Handled(State(), result, false) == OnData(old(State()), offset, chunk, flashOk)
    {
      if !open { return BadReq; }
      if offset != received {
        Abort();
        return SeqMismatch;
      }
      if offset + |chunk| > imageLen {
        Abort();
        return BadReq;
      }
      if |chunk| > 0 {
        if !flashOk {
          Abort();
          return FlashErr;
        }
        staged := staged + chunk;
        received := received + |chunk|;
      }
      return Ok;
    }

    method End(commit: bool, verdict: Result) returns (result: Result, reboot: bool)
      requires Valid()
      modifies this
      ensures Valid() && staged == old(staged)
      ensures Handled(State(), result, reboot) == OnEnd(old(State()), commit, verdict)
    {
      if !open { return BadReq, false; }
      if !commit {
        Abort();
        return Ok, false;
      }
      if received != imageLen {
        Abort();
        return BadReq, false;
      }
      open := false;
      return verdict, verdict == Ok;
    }
  }

  // The sender's correlation of answers.

  datatype Op = BeginOp | DataOp | EndOp

  datatype Wait = Wait(seq8: nat, armed: bool, op: Op, respSeq: nat)

  function Armed(w: Wait, op: Op): Wait {
    var next := (w.seq8 + 1) % 256;
    Wait(next, true, op, next)
  }

  predicate Answers(w: Wait, op: Op, seq8: nat) { w.armed && op == w.op && seq8 == w.respSeq }

  class Correlator {
    var seq8: nat
    var armed: bool
    var op: Op
    var respSeq: nat
    var result: Result
    var signalled: bool

    ghost function State(): Wait reads this { Wait(seq8, armed, op, respSeq) }

    constructor ()
      ensures State() == Wait(0, false, BeginOp, 0) && !signalled
    {
      seq8, armed, op, respSeq, result, signalled := 0, false, BeginOp, 0, LinkTimeout, false;
    }

    /** The part of one attempt before the frame goes out. */
    method Arm(o: Op)
      modifies this
      ensures State() == Armed(old(State()), o) && !signalled && result == LinkTimeout
    {
      seq8 := (seq8 + 1) % 256;
      signalled := false;
      op := o;
      respSeq := seq8;
      result := LinkTimeout;
      armed := true;
    }

    method OnResp(o: Op, s: nat, r: Result)
      modifies this
      ensures if Answers(old(State()), o, s) then State() == old(State()).(armed := false) && signalled && result == r
              else State() == old(State()) && signalled == old(signalled) && result == old(result)
    {
      if !armed || o != op || s != respSeq { return; }
      result := r;
      armed := false;
      signalled := true;
    }
  }
}
