/** The device side of the HTTP control backend: acknowledgements owed to the
    server, the ring of executed command ids, and the refusals to report. */
module HttpDevice {

  const RESP_MAX: nat := 2048
  const ACK_ID_MAX: nat := 48
  const ACK_PENDING_MAX: nat := 8
  const CMDS_PER_RESP_MAX: nat := ACK_PENDING_MAX
  const EXEC_RING_MAX: nat := 16
  const REJ_MAX: nat := 4

  type Id = string

  /** What the "cmd" and "args" of a wire command amount to on the device. */
  datatype Body = NoName | Unknown | Unencodable | Encodable

  /** A command as it arrives; a missing or non-string id reads as empty. */
  datatype Wire = Wire(id: Id, body: Body)

  datatype Reason = BadId | BadArgs | UnsupportedCmd

  datatype Reject = Reject(id: Id, reason: Reason)

  /** `dispatched` and `evicted` record what left the device as a frame and which
      acknowledgements were pushed out of a full list; the firmware keeps neither. */
  datatype DeviceState = DeviceState(
    pending: seq<Id>,
    ring: seq<Id>,
    execIdx: nat,
    rejected: seq<Reject>,
    respDropped: bool,
    dispatched: seq<Id>,
    evicted: seq<Id>)

  const EMPTY_RING: seq<Id> := ["", "", "", "", "", "", "", "", "", "", "", "", "", "", "", ""]
  const INITIAL: DeviceState := DeviceState([], EMPTY_RING, 0, [], false, [], [])

  predicate ExecSeen(ring: seq<Id>, id: Id) {
    id != "" && id in ring
  }

  function AckAdd(d: DeviceState, id: Id): DeviceState {
    if id in d.pending then d
    else if |d.pending| < ACK_PENDING_MAX then d.(pending := d.pending + [id])
    else d.(pending := d.pending[1..] + [id], evicted := d.evicted + [d.pending[0]])
  }

  function ExecAdd(d: DeviceState, id: Id): DeviceState
    requires d.execIdx < |d.ring|
  {
    d.(ring := d.ring[d.execIdx := id], execIdx := (d.execIdx + 1) % EXEC_RING_MAX,
       dispatched := d.dispatched + [id])
  }

  function Cut(id: Id): Id {
    if |id| < ACK_ID_MAX then id else id[..ACK_ID_MAX - 1]
  }

  /** Position of the refusal recorded for `id`, or the length. */
  function FindReject(rejected: seq<Reject>, id: Id): (i: nat)
    ensures i <= |rejected|
    ensures i < |rejected| ==> rejected[i].id == id
    ensures forall k :: 0 <= k < i ==> rejected[k].id != id
  {
    if rejected == [] || rejected[0].id == id then 0 else 1 + FindReject(rejected[1..], id)
  }

  function RejAdd(rejected: seq<Reject>, id: Id, reason: Reason): (r: seq<Reject>)
    ensures |rejected| <= REJ_MAX ==> |r| <= REJ_MAX
  {
    var i := FindReject(rejected, Cut(id));
    if i < |rejected| then rejected[i := Reject(Cut(id), reason)]
    else (if |rejected| < REJ_MAX then rejected else rejected[1..]) + [Reject(Cut(id), reason)]
  }

  function DropFront<T>(s: seq<T>, n: nat): seq<T> {
    if n < |s| then s[n..] else []
  }

  /** One command of an authenticated response. */
  function HandleOne(d: DeviceState, w: Wire): (d': DeviceState)
    requires d.execIdx < |d.ring|
    ensures Bounded(d) ==> Bounded(d')
  {
    if w.id == "" || ACK_ID_MAX <= |w.id| then d.(rejected := RejAdd(d.rejected, w.id, BadId))
    else if ExecSeen(d.ring, w.id) then AckAdd(d, w.id)
    else
      match w.body
      case NoName => d.(rejected := RejAdd(d.rejected, w.id, BadArgs))
      case Unknown => d.(rejected := RejAdd(d.rejected, w.id, UnsupportedCmd))
      case Unencodable => d.(rejected := RejAdd(d.rejected, w.id, BadArgs))
      case Encodable => AckAdd(ExecAdd(d, w.id), w.id)
  }

  predicate Bounded(d: DeviceState) {
    && |d.pending| <= ACK_PENDING_MAX
    && |d.ring| == EXEC_RING_MAX && d.execIdx < EXEC_RING_MAX
    && |d.rejected| <= REJ_MAX
  }

  /** The commands of a response in turn. */
  function HandleAll(d: DeviceState, cmds: seq<Wire>): (d': DeviceState)
    requires Bounded(d)
    ensures Bounded(d')
  {
    if cmds == [] then d else HandleOne(HandleAll(d, cmds[..|cmds| - 1]), cmds[|cmds| - 1])
  }

  /** What came back for one POST, as far as the device can tell. */
  datatype Reply =
    | Failed                                              // no 2xx
    | Success(total: nat, authentic: bool, cmds: seq<Wire>)  // 2xx with `total` body bytes

  function AtMost<T>(s: seq<T>, n: nat): seq<T> {
    if |s| <= n then s else s[..n]
  }

  /** One POST cycle, from the snapshot of what its body carries to the response. */
  function AfterPost(d: DeviceState, reply: Reply): (d': DeviceState)
    requires Bounded(d)
    ensures Bounded(d')
  {
    match reply
    case Failed => d
    case Success(total, authentic, cmds) =>
      var told := d.(pending := DropFront(d.pending, |d.pending|),
                     rejected := DropFront(d.rejected, |d.rejected|), respDropped := false);
      if RESP_MAX - 1 < total then told.(respDropped := true)
      else if !authentic then told
      else HandleAll(told, AtMost(cmds, CMDS_PER_RESP_MAX))
  }

  /** The bookkeeping as the firmware keeps it: fixed arrays shifted in place. */
  class Device {
    const pending: array<Id>
    var pendingN: nat
    const executed: array<Id>
    var execIdx: nat
    const rejected: array<Reject>
    var rejectedN: nat
    var respDropped: bool
    ghost var dispatched: seq<Id>
    ghost var evicted: seq<Id>

    ghost predicate Valid()
      reads this
    {
      && pending.Length == ACK_PENDING_MAX && pendingN <= ACK_PENDING_MAX
      && executed.Length == EXEC_RING_MAX && execIdx < EXEC_RING_MAX
      && rejected.Length == REJ_MAX && rejectedN <= REJ_MAX
      && pending != executed
    }

    ghost function State(): DeviceState
      requires Valid()
      reads this, pending, executed, rejected
    {
      DeviceState(pending[..pendingN], executed[..], execIdx, rejected[..rejectedN], respDropped,
                  dispatched, evicted)
    }

    constructor ()
      ensures Valid() && State() == INITIAL
      ensures fresh(pending) && fresh(executed) && fresh(rejected)
    {
      pending := new Id[ACK_PENDING_MAX](_ => "");
      executed := new Id[EXEC_RING_MAX](_ => "");
      rejected := new Reject[REJ_MAX](_ => Reject("", BadId));
      pendingN, execIdx, rejectedN, respDropped, dispatched, evicted := 0, 0, 0, false, [], [];
      new;
      assert executed[..] == EMPTY_RING;
    }

    method Seen(id: Id) returns (seen: bool)
      requires Valid()
      ensures seen == ExecSeen(executed[..], id)
    {
      for i := 0 to EXEC_RING_MAX
        invariant forall k :: 0 <= k < i ==> executed[k] == "" || executed[k] != id
      {
        if executed[i] != "" && executed[i] == id {
          assert executed[..][i] == id;
          return true;
        }
      }
      return false;
    }

    method AddExecuted(id: Id)
      requires Valid()
      modifies this`execIdx, this`dispatched, executed
      ensures Valid() && State() == ExecAdd(old(State()), id)
    {
      executed[execIdx] := id;
      execIdx := (execIdx + 1) % EXEC_RING_MAX;
      dispatched := dispatched + [id];
    }

    method AddAck(id: Id)
      requires Valid()
      modifies this`pendingN, this`evicted, pending
      ensures Valid() && State() == AckAdd(old(State()), id)
    {
      for i := 0 to pendingN
        invariant forall k :: 0 <= k < i ==> pending[k] != id
      {
        if pending[i] == id {
          assert pending[..pendingN][i] == id;
          return;
        }
      }
      assert id !in pending[..pendingN];
      if pendingN >= ACK_PENDING_MAX {
        evicted := evicted + [pending[0]];
        forall i | 0 <= i < ACK_PENDING_MAX - 1 { pending[i] := pending[i + 1]; }
        pendingN := pendingN - 1;
      }
      pending[pendingN] := id;
      pendingN := pendingN + 1;
    }

    method DropAcks(n: nat)
      requires Valid()
      modifies this`pendingN, pending
      ensures Valid() && State() == old(State()).(pending := DropFront(old(State()).pending, n))
    {
      var m := if n > pendingN then pendingN else n;
      forall i | 0 <= i < pendingN - m { pending[i] := pending[m + i]; }
      pendingN := pendingN - m;
    }

    method FindRejected(tid: Id) returns (i: nat)
      requires Valid()
      ensures i == FindReject(rejected[..rejectedN], tid)
    {
      i := 0;
      while i < rejectedN && rejected[i].id != tid
        invariant i <= rejectedN
        invariant FindReject(rejected[..rejectedN], tid) == i + FindReject(rejected[i..rejectedN], tid)
      {
        assert rejected[i..rejectedN][1..] == rejected[i + 1..rejectedN];
        i := i + 1;
      }
    }

    /** Shift the refusals down by one when full, then put the newest last. */
    method PushReject(x: Reject)
      requires Valid()
      modifies this`rejectedN, rejected
      ensures Valid()
      ensures State() == old(State()).(rejected :=
                (if |old(State()).rejected| < REJ_MAX then old(State()).rejected else old(State()).rejected[1..]) + [x])
    {
      if rejectedN >= REJ_MAX {
        forall i | 0 <= i < REJ_MAX - 1 { rejected[i] := rejected[i + 1]; }
        rejectedN := rejectedN - 1;
      }
      rejected[rejectedN] := x;
      rejectedN := rejectedN + 1;
    }

    method AddReject(id: Id, reason: Reason)
      requires Valid()
      modifies this`rejectedN, rejected
      ensures Valid() && State() == old(State()).(rejected := RejAdd(old(State()).rejected, id, reason))
    {
      var tid := if |id| < ACK_ID_MAX then id else id[..ACK_ID_MAX - 1];
      var i := FindRejected(tid);
      if i < rejectedN {
        rejected[i] := Reject(tid, reason);
      } else {
        PushReject(Reject(tid, reason));
      }
    }

    method DropRejects(n: nat)
      requires Valid()
      modifies this`rejectedN, rejected
      ensures Valid() && State() == old(State()).(rejected := DropFront(old(State()).rejected, n))
    {
      var m := if n > rejectedN then rejectedN else n;
      forall i | 0 <= i < rejectedN - m { rejected[i] := rejected[m + i]; }
      rejectedN := rejectedN - m;
    }

    method Apply(w: Wire)
      requires Valid()
      modifies this, pending, executed, rejected
      ensures Valid() && State() == HandleOne(old(State()), w)
    {
      if |w.id| == 0 || |w.id| >= ACK_ID_MAX {
        AddReject(w.id, BadId);
        return;
      }
      var seen := Seen(w.id);
      if seen {
        AddAck(w.id);
        return;
      }
      if w.body.NoName? {
        AddReject(w.id, BadArgs);
        return;
      }
      if w.body.Unknown? {
        AddReject(w.id, UnsupportedCmd);
        return;
      }
      if w.body.Encodable? {
        AddExecuted(w.id);
        AddAck(w.id);
      } else {
        AddReject(w.id, BadArgs);
      }
    }

    method HandleResponse(cmds: seq<Wire>)
      requires Valid()
      modifies this, pending, executed, rejected
      ensures Valid() && State() == HandleAll(old(State()), AtMost(cmds, CMDS_PER_RESP_MAX))
    {
      ghost var start := State();
      var idx := 0;
      while idx < |cmds| && idx < CMDS_PER_RESP_MAX
        invariant idx <= |cmds| && idx <= CMDS_PER_RESP_MAX
        invariant Valid() && State() == HandleAll(start, cmds[..idx])
      {
        assert cmds[..idx + 1][..idx] == cmds[..idx];
        Apply(cmds[idx]);
        idx := idx + 1;
      }
      assert cmds[..idx] == AtMost(cmds, CMDS_PER_RESP_MAX);
    }

    /** The part of post_once after the exchange; the counts are those of the
        snapshot taken when the body was built. */
    method FinishPost(acksInBody: nat, rejInBody: nat, droppedInBody: bool, reply: Reply)
      requires Valid()
      requires acksInBody == pendingN && rejInBody == rejectedN && droppedInBody == respDropped
      modifies this, pending, executed, rejected
      ensures Valid() && State() == AfterPost(old(State()), reply)
    {
      if reply.Failed? { return; }
      DropAcks(acksInBody);
      DropRejects(rejInBody);
      if droppedInBody { respDropped := false; }
      if reply.total > RESP_MAX - 1 {
        respDropped := true;
      } else if reply.authentic {
        HandleResponse(reply.cmds);
      }
    }
  }
}
