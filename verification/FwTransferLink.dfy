/** Transfers over the link, one after another: what the receiver stages is the sender's
    stream, and an answer is never taken for one to a later request. */
module FwTransferLink {
  import opened FwTransfer

  datatype Body = BeginBody(len: nat) | DataBody(offset: nat, chunk: Bytes) | EndBody(commit: bool)
  {
    function Op(): Op { match this case BeginBody(_) => BeginOp case DataBody(_, _) => DataOp case EndBody(_) => EndOp }
  }

  /** A request on the wire: attempt `n` overall, sent as `n % 256`. */
  datatype Req = Req(n: nat, transfer: nat, body: Body)
  datatype Resp = Resp(n: nat, op: Op, result: Result)

  datatype Phase = Resting | Beginning | Ready | Sending | Ending | Aborting
  {
    predicate Waits() { Beginning? || Sending? || Ending? || Aborting? }
  }

  /** The relay task: bytes acknowledged, the chunk under way, and which of the two
      attempts of the current request is out. */
  datatype Sender = Sender(phase: Phase, sent: nat, chunk: nat, attempt: nat, wait: Wait)

  datatype Link = Link(toRecv: seq<Req>, toSend: seq<Resp>)

  datatype Commit = Commit(n: nat, transfer: nat, data: Bytes)

  /** Bookkeeping for the proofs: attempts made, the attempt last answered, transfers begun
      since then and the attempts made before the first of them, transfers the relay saw
      complete, and whether a wrong answer was taken. */
  datatype Count = Count(n: nat, answered: nat, barren: nat, mark: nat, completed: set<nat>, misled: bool)

  datatype World = World(sender: Sender, link: Link, session: Session, commits: seq<Commit>,
                         streams: seq<Bytes>, count: Count)

  datatype Event =
    | Start(stream: Bytes)
    | SendData(chunk: nat)
    | SendEnd
    | GiveUp
    | Timeout
    | DeliverReq(refusal: Result, flashOk: bool)
    | DeliverResp
    | LoseReq(at: nat)
    | LoseResp(at: nat)
    | IdleAbort

  const INITIAL: World :=
    World(Sender(Resting, 0, 0, 0, Wait(0, false, BeginOp, 0)), Link([], []), Closed, [], [[]],
          Count(0, 0, 0, 0, {}, false))

  /** The stream of the current transfer; transfer zero is before the first. */
  function Current(w: World): nat
    requires w.streams != []
  {
    |w.streams| - 1
  }

  function Stream(w: World): Bytes
    requires w.streams != []
  {
    w.streams[|w.streams| - 1]
  }

  predicate Shaped(w: World) {
    && w.streams != []
    && w.sender.sent + w.sender.chunk <= |Stream(w)|
  }

  function BodyOf(w: World): Body
    requires Shaped(w)
  {
    var s := w.sender;
    match s.phase
    case Sending => DataBody(s.sent, Stream(w)[s.sent..s.sent + s.chunk])
    case Ending => EndBody(true)
    case Aborting => EndBody(false)
    case _ => BeginBody(|Stream(w)|)
  }

  /** One attempt of the request of the sender's phase. */
  function Transmit(w: World, attempt: nat): World
    requires Shaped(w)
  {
    var body := BodyOf(w);
    var n := w.count.n + 1;
    w.(sender := w.sender.(attempt := attempt, wait := Armed(w.sender.wait, body.Op())),
       link := w.link.(toRecv := w.link.toRecv + [Req(n, Current(w), body)]),
       count := w.count.(n := n))
  }

  /** The relay goes on with the result of its request. */
  function Conclude(w: World, result: Result): World
    requires Shaped(w)
  {
    var s := w.sender;
    match s.phase
    case Beginning => w.(sender := s.(phase := if result == Ok then Ready else Resting))
    case Sending =>
      if result == Ok then w.(sender := s.(phase := Ready, sent := s.sent + s.chunk, chunk := 0))
      else Transmit(w.(sender := s.(phase := Aborting)), 1)
    case Ending =>
      w.(sender := s.(phase := Resting),
         count := if result == Ok then w.count.(completed := w.count.completed + {Current(w)}) else w.count)
    case Aborting => w.(sender := s.(phase := Resting))
    case _ => w
  }

  function Handle(w: World, refusal: Result, flashOk: bool): Handled
    requires w.link.toRecv != []
  {
    var r := w.link.toRecv[0];
    match r.body
    case BeginBody(len) => OnBegin(w.session, r.transfer, len, refusal)
    case DataBody(offset, chunk) => OnData(w.session, offset, chunk, flashOk)
    case EndBody(commit) => OnEnd(w.session, commit, refusal)
  }

  function RequestHandled(w: World, refusal: Result, flashOk: bool): World
    requires w.link.toRecv != []
  {
    var r := w.link.toRecv[0];
    var o := Handle(w, refusal, flashOk);
    w.(session := o.session,
       link := Link(w.link.toRecv[1..], w.link.toSend + [Resp(r.n, r.body.Op(), o.result)]),
       commits := if o.commit && w.session.Open? then w.commits + [Commit(r.n, w.session.transfer, w.session.data)]
                  else w.commits)
  }

  function AnswerTaken(w: World): World
    requires Shaped(w) && w.link.toSend != []
  {
    var r := w.link.toSend[0];
    var w' := w.(link := w.link.(toSend := w.link.toSend[1..]));
    if !w.sender.phase.Waits() || !Answers(w.sender.wait, r.op, r.n % 256) then w'
    else
      Conclude(w'.(sender := w.sender.(wait := w.sender.wait.(armed := false)),
                   count := w.count.(answered := r.n, barren := 0, misled := w.count.misled || r.n != w.count.n)),
               r.result)
  }

  function Without<T>(s: seq<T>, at: nat): (r: seq<T>)
    ensures |r| == (if at < |s| then |s| - 1 else |s|) && forall i :: 0 <= i < |r| ==> r[i] == s[if at < |s| && at <= i then i + 1 else i]
  {
    if at < |s| then s[..at] + s[at + 1..] else s
  }

  /** A new transfer, before its first attempt. */
  function Started(w: World, stream: Bytes): World {
    w.(streams := w.streams + [stream], sender := w.sender.(phase := Beginning, sent := 0, chunk := 0),
       count := w.count.(barren := w.count.barren + 1, mark := if w.count.barren == 0 then w.count.n else w.count.mark))
  }

  function Step(w: World, e: Event): (w': World)
    requires Shaped(w)
    ensures Shaped(w')
  {
    var s := w.sender;
    match e
    case Start(stream) =>
      if !s.phase.Resting? then w else Transmit(Started(w, stream), 1)
    case SendData(chunk) =>
      if !s.phase.Ready? || chunk == 0 || XFER_CHUNK < chunk || |Stream(w)| < s.sent + chunk then w
      else Transmit(w.(sender := s.(phase := Sending, chunk := chunk)), 1)
    case SendEnd =>
      if !s.phase.Ready? || s.sent != |Stream(w)| then w else Transmit(w.(sender := s.(phase := Ending)), 1)
    case GiveUp => if !s.phase.Ready? then w else Transmit(w.(sender := s.(phase := Aborting)), 1)
    case Timeout =>
      if !s.phase.Waits() then w
      else if s.attempt < ATTEMPTS then Transmit(w, s.attempt + 1)
      else Conclude(w.(sender := s.(wait := s.wait.(armed := false))), LinkTimeout)
    case DeliverReq(refusal, flashOk) => if w.link.toRecv == [] then w else RequestHandled(w, refusal, flashOk)
    case DeliverResp => if w.link.toSend == [] then w else AnswerTaken(w)
    case LoseReq(at) => w.(link := w.link.(toRecv := Without(w.link.toRecv, at)))
    case LoseResp(at) => w.(link := w.link.(toSend := Without(w.link.toSend, at)))
    case IdleAbort => w.(session := Closed)
  }

  // What is in flight.

  /** Everything in flight was sent after the attempt last answered, in order. */
  predicate InFlight(l: Link, c: Count) {
    && (forall i :: 0 <= i < |l.toRecv| ==> c.answered < l.toRecv[i].n <= c.n)
    && (forall i :: 0 <= i < |l.toSend| ==> c.answered < l.toSend[i].n <= c.n)
    && (forall i, j :: 0 <= i < j < |l.toRecv| ==> l.toRecv[i].n < l.toRecv[j].n)
    && (forall i, j :: 0 <= i < j < |l.toSend| ==> l.toSend[i].n < l.toSend[j].n)
    && (forall i, j :: 0 <= i < |l.toSend| && 0 <= j < |l.toRecv| ==> l.toSend[i].n < l.toRecv[j].n)
    && c.answered <= c.n
  }

  predicate IsPrefixOf(data: Bytes, stream: Bytes) { |data| <= |stream| && data == stream[..|data|] }

  predicate SessionOk(s: Session, streams: seq<Bytes>) {
    s.Open? ==> s.transfer < |streams| && s.len == |streams[s.transfer]| && IsPrefixOf(s.data, streams[s.transfer])
  }

  predicate Genuine(r: Req, streams: seq<Bytes>) {
    && r.transfer < |streams|
    && match r.body
       case BeginBody(len) => len == |streams[r.transfer]|
       case DataBody(offset, chunk) =>
         chunk != [] && offset + |chunk| <= |streams[r.transfer]| && chunk == streams[r.transfer][offset..offset + |chunk|]
       case EndBody(_) => true
  }

  /** A request that stages or commits. */
  predicate Stages(b: Body) { b.DataBody? || b == EndBody(true) }

  /** Requests carry their transfer's own bytes, and none that stages waits behind a BEGIN
      or meets the session of another transfer. */
  predicate FramesOk(l: Link, s: Session, streams: seq<Bytes>) {
    && (forall i :: 0 <= i < |l.toRecv| ==> Genuine(l.toRecv[i], streams))
    && (forall i, j :: 0 <= i < j < |l.toRecv| && l.toRecv[i].body.BeginBody? ==> !Stages(l.toRecv[j].body))
    && (forall i :: 0 <= i < |l.toRecv| && Stages(l.toRecv[i].body) && s.Open? ==> s.transfer == l.toRecv[i].transfer)
  }

  predicate CommitsOk(commits: seq<Commit>, streams: seq<Bytes>) {
    forall i :: 0 <= i < |commits| ==> commits[i].transfer < |streams| && commits[i].data == streams[commits[i].transfer]
  }

  predicate HasCommit(commits: seq<Commit>, t: nat) { exists i :: 0 <= i < |commits| && commits[i].transfer == t }

  predicate Holds(s: Session, t: nat, least: nat, most: nat) {
    s.Open? ==> s.transfer == t && (|s.data| == least || |s.data| == most)
  }

  /** What the session may hold, and what may still be under way, in each phase. */
  predicate PhaseOk(w: World)
    requires Shaped(w)
  {
    var s, t, reqs := w.sender, Current(w), w.link.toRecv;
    match s.phase
    case Ready => Holds(w.session, t, s.sent, s.sent) && reqs == [] && s.chunk == 0
    case Sending =>
      && s.chunk > 0 && Holds(w.session, t, s.sent, s.sent + s.chunk)
      && forall i :: 0 <= i < |reqs| ==> reqs[i].transfer == t && reqs[i].body == BodyOf(w)
    case Aborting =>
      && Holds(w.session, t, s.sent, s.sent + s.chunk)
      && forall i :: 0 <= i < |reqs| ==>
           reqs[i].transfer == t
           && (reqs[i].body == EndBody(false) || reqs[i].body == DataBody(s.sent, Stream(w)[s.sent..s.sent + s.chunk]))
    case Ending =>
      && s.sent == |Stream(w)| && s.chunk == 0 && Holds(w.session, t, s.sent, s.sent)
      && forall i :: 0 <= i < |reqs| ==> reqs[i].transfer == t && reqs[i].body == BodyOf(w)
    case Beginning => s.sent == 0 && s.chunk == 0
    case Resting => true
  }

  predicate Base(w: World) {
    && Shaped(w) && !w.count.misled && InFlight(w.link, w.count) && w.sender.wait.seq8 == w.count.n % 256
    && SessionOk(w.session, w.streams) && FramesOk(w.link, w.session, w.streams)
    && CommitsOk(w.commits, w.streams) && (forall t :: t in w.count.completed ==> HasCommit(w.commits, t))
    && PhaseOk(w)
  }

  /** What a good answer to the current attempt stands for. */
  predicate AnswerMeans(w: World)
    requires Shaped(w)
  {
    var s, t := w.sender, Current(w);
    match s.phase
    case Beginning => Holds(w.session, t, 0, 0)
    case Sending => Holds(w.session, t, s.sent + s.chunk, s.sent + s.chunk)
    case Ending => HasCommit(w.commits, t)
    case _ => true
  }

  predicate Awaiting(w: World)
    requires Shaped(w)
  {
    w.sender.phase.Waits() ==>
      && w.sender.wait.armed && w.sender.wait.respSeq == w.count.n % 256 && w.sender.wait.op == BodyOf(w).Op()
      && 1 <= w.sender.attempt <= ATTEMPTS
      && (forall i :: 0 <= i < |w.link.toRecv| && w.link.toRecv[i].n == w.count.n ==>
            w.link.toRecv[i].transfer == Current(w) && w.link.toRecv[i].body == BodyOf(w))
      && (forall i :: 0 <= i < |w.link.toSend| && w.link.toSend[i].n == w.count.n && w.link.toSend[i].result == Ok ==>
            AnswerMeans(w))
  }

  predicate Invariant(w: World) {
    Base(w) && Awaiting(w) && (w.sender.phase.Ready? ==> w.link.toSend == [] && w.count.answered == w.count.n)
  }

  lemma TransmitFlight(w: World, attempt: nat)
    requires Base(w)
    ensures InFlight(Transmit(w, attempt).link, Transmit(w, attempt).count)
  {
  }

  lemma TransmitFrames(w: World, attempt: nat)
    requires Base(w) && w.sender.phase.Waits()
    ensures FramesOk(Transmit(w, attempt).link, w.session, w.streams)
  {
    var reqs := w.link.toRecv;
    if w.sender.phase.Sending? || w.sender.phase.Ending? {
      assert forall i :: 0 <= i < |reqs| ==> !reqs[i].body.BeginBody?;
    }
  }

  lemma TransmitPhase(w: World, attempt: nat)
    requires Base(w) && w.sender.phase.Waits() && 1 <= attempt <= ATTEMPTS
    ensures PhaseOk(Transmit(w, attempt))
  {
  }

  lemma TransmitAwaits(w: World, attempt: nat)
    requires Base(w) && w.sender.phase.Waits() && 1 <= attempt <= ATTEMPTS
    ensures Awaiting(Transmit(w, attempt))
  {
  }

  lemma TransmitKeeps(w: World, attempt: nat, w': World)
    requires Base(w) && w.sender.phase.Waits() && 1 <= attempt <= ATTEMPTS
    requires w' == Transmit(w, attempt)
    ensures Invariant(w')
  {
    assert InFlight(w'.link, w'.count) by { TransmitFlight(w, attempt); }
    assert FramesOk(w'.link, w'.session, w'.streams) by { TransmitFrames(w, attempt); }
    assert PhaseOk(w') by { TransmitPhase(w, attempt); }
    assert Awaiting(w') by { TransmitAwaits(w, attempt); }
  }

  lemma NewStreamBase(w: World, stream: Bytes)
    requires Base(w)
    ensures Base(Started(w, stream))
  {
  }

  lemma StartKeeps(w: World, stream: Bytes)
    requires Invariant(w)
    ensures Invariant(Step(w, Start(stream)))
  {
    if w.sender.phase.Resting? {
      NewStreamBase(w, stream);
      TransmitKeeps(Started(w, stream), 1, Step(w, Start(stream)));
    }
  }

  lemma SendKeeps(w: World, e: Event)
    requires Invariant(w) && (e.SendData? || e.SendEnd? || e.GiveUp?)
    ensures Invariant(Step(w, e))
  {
    var w' := Step(w, e);
    if w.sender.phase.Ready? {
      if e.SendEnd? && w.sender.sent == |Stream(w)| {
        TransmitKeeps(w.(sender := w.sender.(phase := Ending)), 1, w');
      } else if e.GiveUp? {
        TransmitKeeps(w.(sender := w.sender.(phase := Aborting)), 1, w');
      } else if e.SendData? && 0 < e.chunk <= XFER_CHUNK && w.sender.sent + e.chunk <= |Stream(w)| {
        TransmitKeeps(w.(sender := w.sender.(phase := Sending, chunk := e.chunk)), 1, w');
      }
    }
  }

  lemma StaysBase(w: World, phase: Phase)
    requires Base(w) && w.sender.phase.Sending? && phase.Aborting?
    ensures Base(w.(sender := w.sender.(wait := w.sender.wait.(armed := false), phase := phase)))
  {
  }

  lemma RestsKeeps(w: World)
    requires Invariant(w)
    ensures Invariant(w.(sender := w.sender.(wait := w.sender.wait.(armed := false), phase := Resting)))
  {
  }

  lemma RetryTransmits(w: World)
    requires Shaped(w) && w.sender.phase.Waits() && w.sender.attempt < ATTEMPTS
    ensures Step(w, Timeout) == Transmit(w, w.sender.attempt + 1)
  {
  }

  lemma DataTimeoutKeeps(w: World)
    requires Invariant(w) && w.sender.phase.Sending? && w.sender.attempt == ATTEMPTS
    ensures Invariant(Step(w, Timeout))
  {
    StaysBase(w, Aborting);
    TransmitKeeps(w.(sender := w.sender.(wait := w.sender.wait.(armed := false), phase := Aborting)), 1, Step(w, Timeout));
  }

  lemma LastTimeoutKeeps(w: World)
    requires Invariant(w) && w.sender.phase.Waits() && !w.sender.phase.Sending? && w.sender.attempt == ATTEMPTS
    ensures Invariant(Step(w, Timeout))
  {
    RestsKeeps(w);
  }

  lemma TimeoutKeeps(w: World)
    requires Invariant(w)
    ensures Invariant(Step(w, Timeout))
  {
    if !w.sender.phase.Waits() {
      assert Step(w, Timeout) == w;
    } else if w.sender.attempt < ATTEMPTS {
      RetryTransmits(w);
      TransmitKeeps(w, w.sender.attempt + 1, Step(w, Timeout));
    } else if w.sender.phase.Sending? {
      DataTimeoutKeeps(w);
    } else {
      LastTimeoutKeeps(w);
    }
  }

  lemma LossReqFlight(l: Link, c: Count, at: nat)
    requires InFlight(l, c)
    ensures InFlight(l.(toRecv := Without(l.toRecv, at)), c)
  {
  }

  lemma LossRespFlight(l: Link, c: Count, at: nat)
    requires InFlight(l, c)
    ensures InFlight(l.(toSend := Without(l.toSend, at)), c)
  {
  }

  lemma LossFrames(l: Link, s: Session, streams: seq<Bytes>, at: nat)
    requires FramesOk(l, s, streams)
    ensures FramesOk(l.(toRecv := Without(l.toRecv, at)), s, streams)
  {
  }

  lemma LossReqPhase(w: World, at: nat)
    requires Shaped(w) && PhaseOk(w) && Awaiting(w)
    ensures var w' := w.(link := w.link.(toRecv := Without(w.link.toRecv, at))); PhaseOk(w') && Awaiting(w')
  {
  }

  lemma LossRespPhase(w: World, at: nat)
    requires Shaped(w) && PhaseOk(w) && Awaiting(w)
    ensures var w' := w.(link := w.link.(toSend := Without(w.link.toSend, at))); PhaseOk(w') && Awaiting(w')
  {
  }

  lemma ReqLost(w: World, at: nat, w': World)
    requires Invariant(w) && w' == w.(link := w.link.(toRecv := Without(w.link.toRecv, at)))
    ensures Invariant(w')
  {
    assert InFlight(w'.link, w'.count) by { LossReqFlight(w.link, w.count, at); }
    assert FramesOk(w'.link, w'.session, w'.streams) by { LossFrames(w.link, w.session, w.streams, at); }
    assert PhaseOk(w') && Awaiting(w') by { LossReqPhase(w, at); }
  }

  lemma RespLost(w: World, at: nat, w': World)
    requires Invariant(w) && w' == w.(link := w.link.(toSend := Without(w.link.toSend, at)))
    ensures Invariant(w')
  {
    assert InFlight(w'.link, w'.count) by { LossRespFlight(w.link, w.count, at); }
    assert PhaseOk(w') && Awaiting(w') by { LossRespPhase(w, at); }
  }

  lemma IdleAbortKeeps(w: World)
    requires Invariant(w)
    ensures Invariant(Step(w, IdleAbort))
  {
  }

  // One request handled.

  lemma HandledFlight(w: World, refusal: Result, flashOk: bool)
    requires Base(w) && w.link.toRecv != []
    ensures InFlight(RequestHandled(w, refusal, flashOk).link, w.count)
  {
  }

  lemma ChunkExtends(data: Bytes, chunk: Bytes, stream: Bytes)
    requires IsPrefixOf(data, stream) && |data| + |chunk| <= |stream|
    requires chunk == stream[|data|..|data| + |chunk|]
    ensures IsPrefixOf(data + chunk, stream)
  {
  }

  lemma HandledSession(w: World, refusal: Result, flashOk: bool)
    requires Base(w) && w.link.toRecv != []
    ensures SessionOk(RequestHandled(w, refusal, flashOk).session, w.streams)
    ensures CommitsOk(RequestHandled(w, refusal, flashOk).commits, w.streams)
  {
    var r := w.link.toRecv[0];
    assert Genuine(r, w.streams);
    if r.body.DataBody? && w.session.Open? && r.body.offset == |w.session.data| {
      ChunkExtends(w.session.data, r.body.chunk, w.streams[r.transfer]);
    }
  }

  lemma HandledFrames(w: World, refusal: Result, flashOk: bool)
    requires Base(w) && w.link.toRecv != []
    ensures var w' := RequestHandled(w, refusal, flashOk); FramesOk(w'.link, w'.session, w'.streams)
  {
    var r, rest := w.link.toRecv[0], w.link.toRecv[1..];
    assert forall i :: 0 <= i < |rest| ==> rest[i] == w.link.toRecv[i + 1];
  }

  /** Handling a request changes the session as the phase allows. */
  lemma HandledHolds(w: World, refusal: Result, flashOk: bool)
    requires Base(w) && w.link.toRecv != []
    ensures var s, t, after := w.sender, Current(w), Handle(w, refusal, flashOk).session;
            match s.phase
            case Sending => Holds(after, t, s.sent, s.sent + s.chunk)
            case Aborting => Holds(after, t, s.sent, s.sent + s.chunk)
            case Ending => Holds(after, t, s.sent, s.sent)
            case _ => true
  {
    var r := w.link.toRecv[0];
    if w.sender.phase.Sending? || w.sender.phase.Aborting? || w.sender.phase.Ending? {
      assert r.transfer == Current(w);
    }
  }

  lemma HandledPhase(w: World, refusal: Result, flashOk: bool)
    requires Base(w) && w.link.toRecv != []
    ensures PhaseOk(RequestHandled(w, refusal, flashOk))
  {
    HandledHolds(w, refusal, flashOk);
    RestPhase(w, RequestHandled(w, refusal, flashOk));
  }

  lemma RestPhase(w: World, w': World)
    requires Shaped(w) && Shaped(w') && PhaseOk(w) && w.link.toRecv != []
    requires w'.sender == w.sender && w'.streams == w.streams && w'.link.toRecv == w.link.toRecv[1..]
    requires var s, t := w.sender, Current(w);
             match s.phase
             case Sending => Holds(w'.session, t, s.sent, s.sent + s.chunk)
             case Aborting => Holds(w'.session, t, s.sent, s.sent + s.chunk)
             case Ending => Holds(w'.session, t, s.sent, s.sent)
             case _ => true
    ensures PhaseOk(w')
  {
    assert forall i :: 0 <= i < |w'.link.toRecv| ==> w'.link.toRecv[i] == w.link.toRecv[i + 1];
  }

  lemma HandledCompleted(w: World, refusal: Result, flashOk: bool)
    requires Base(w) && w.link.toRecv != []
    ensures forall t :: t in w.count.completed ==> HasCommit(RequestHandled(w, refusal, flashOk).commits, t)
  {
    var commits := RequestHandled(w, refusal, flashOk).commits;
    assert forall i :: 0 <= i < |w.commits| ==> commits[i] == w.commits[i];
  }

  lemma HandledAwaiting(w: World, refusal: Result, flashOk: bool)
    requires Invariant(w) && w.link.toRecv != []
    ensures Awaiting(RequestHandled(w, refusal, flashOk))
  {
    var w' := RequestHandled(w, refusal, flashOk);
    var r, rest := w.link.toRecv[0], w.link.toRecv[1..];
    assert forall i :: 0 <= i < |rest| ==> rest[i] == w.link.toRecv[i + 1];
    if w.sender.phase.Waits() {
      if r.n == w.count.n {
        if Handle(w, refusal, flashOk).result == Ok { HandledMeans(w, refusal, flashOk); }
      } else {
        assert forall i :: 0 <= i < |w.link.toSend| ==> w.link.toSend[i].n < r.n;
      }
    }
  }

  /** A good answer to the current attempt means what it says. */
  lemma HandledMeans(w: World, refusal: Result, flashOk: bool)
    requires Base(w) && Awaiting(w) && w.sender.phase.Waits()
    requires w.link.toRecv != [] && w.link.toRecv[0].n == w.count.n && Handle(w, refusal, flashOk).result == Ok
    ensures AnswerMeans(RequestHandled(w, refusal, flashOk))
  {
    var w' := RequestHandled(w, refusal, flashOk);
    if w.sender.phase.Ending? { assert w'.commits[|w'.commits| - 1].transfer == Current(w); }
  }

  lemma DeliverReqKeeps(w: World, refusal: Result, flashOk: bool)
    requires Invariant(w)
    ensures Invariant(Step(w, DeliverReq(refusal, flashOk)))
  {
    if w.link.toRecv != [] {
      var w' := RequestHandled(w, refusal, flashOk);
      assert Base(w') by {
        HandledFlight(w, refusal, flashOk);
        HandledSession(w, refusal, flashOk);
        HandledFrames(w, refusal, flashOk);
        HandledPhase(w, refusal, flashOk);
        HandledCompleted(w, refusal, flashOk);
      }
      assert Awaiting(w') by { HandledAwaiting(w, refusal, flashOk); }
    }
  }

  // One answer taken.

  /** No answer of the kind awaited is 256 attempts old: its 8-bit number can mean only the
      current one. */
  predicate Prompt(w: World) {
    w.sender.phase.Waits() ==>
      forall i :: 0 <= i < |w.link.toSend| && w.link.toSend[i].op == w.sender.wait.op ==> w.count.n - w.link.toSend[i].n < 256
  }

  lemma AnswerIsCurrent(w: World)
    requires Base(w) && Awaiting(w) && Prompt(w) && w.link.toSend != [] && w.sender.phase.Waits()
    requires Answers(w.sender.wait, w.link.toSend[0].op, w.link.toSend[0].n % 256)
    ensures w.link.toSend[0].n == w.count.n && w.link.toRecv == [] && w.link.toSend[1..] == []
  {
    var r := w.link.toSend[0];
    SameResidue(r.n, w.count.n);
    if w.link.toRecv != [] || |w.link.toSend| > 1 { FollowedIsOlder(w.link, w.count); }
  }

  lemma FollowedIsOlder(l: Link, c: Count)
    requires InFlight(l, c) && l.toSend != [] && (l.toRecv != [] || |l.toSend| > 1)
    ensures l.toSend[0].n < c.n
  {
    if l.toRecv != [] {
      assert l.toSend[0].n < l.toRecv[0].n;
    } else {
      assert l.toSend[0].n < l.toSend[1].n;
    }
  }

  lemma SameResidue(a: nat, b: nat)
    requires a <= b < a + 256 && a % 256 == b % 256
    ensures a == b
  {
  }

  lemma ConcludeKeeps(w: World, result: Result)
    requires Base(w) && w.sender.phase.Waits() && w.link == Link([], []) && w.count.answered == w.count.n
    requires result == Ok ==> AnswerMeans(w)
    ensures Invariant(Conclude(w, result))
  {
    if w.sender.phase.Sending? && result != Ok {
      TransmitKeeps(w.(sender := w.sender.(phase := Aborting)), 1, Conclude(w, result));
    }
  }

  lemma DeliverRespKeeps(w: World)
    requires Invariant(w) && Prompt(w)
    ensures Invariant(Step(w, DeliverResp))
  {
    if w.link.toSend != [] {
      var r := w.link.toSend[0];
      if w.sender.phase.Waits() && Answers(w.sender.wait, r.op, r.n % 256) {
        AnswerIsCurrent(w);
        var w' := w.(link := Link([], []), sender := w.sender.(wait := w.sender.wait.(armed := false)),
                     count := w.count.(answered := r.n, barren := 0));
        ConcludeKeeps(w', r.result);
        assert Step(w, DeliverResp) == Conclude(w', r.result);
      } else {
        PassedOver(w, Step(w, DeliverResp));
      }
    }
  }

  lemma PassedOver(w: World, w': World)
    requires Invariant(w) && w.link.toSend != [] && w' == w.(link := w.link.(toSend := w.link.toSend[1..]))
    ensures Invariant(w')
  {
    assert w.link.toSend[1..] == Without(w.link.toSend, 0);
    RespLost(w, 0, w');
  }

  // Runs.

  function Run(run: seq<Event>): (w: World)
    ensures Shaped(w)
  {
    if run == [] then INITIAL else Step(Run(run[..|run| - 1]), run[|run| - 1])
  }

  const MAX_BARREN: nat := 128

  /** Begin frames under way belong to the transfers since the last answer. */
  predicate Recent(l: Link, c: Count) {
    && (forall i :: 0 <= i < |l.toRecv| && l.toRecv[i].body.BeginBody? ==> 0 < c.barren && c.mark < l.toRecv[i].n)
    && (forall i :: 0 <= i < |l.toSend| && l.toSend[i].op == BeginOp ==> 0 < c.barren && c.mark < l.toSend[i].n)
  }

  /** How many attempts can be unanswered: two for each transfer begun since the last answer,
      or at most four of the transfer that had it. */
  predicate Bounded(w: World) {
    var behind, since := w.count.n - w.count.answered, w.count.n - w.count.mark;
    && (w.sender.phase.Waits() ==> w.sender.attempt <= ATTEMPTS)
    && match w.sender.phase
       case Resting => w.count.barren > 0 ==> since <= 2 * w.count.barren
       case Beginning => w.count.barren > 0 && since <= 2 * (w.count.barren - 1) + w.sender.attempt
       case Ready => w.count.barren == 0 && behind == 0
       case Sending => w.count.barren == 0 && behind <= w.sender.attempt
       case Ending => w.count.barren == 0 && behind <= w.sender.attempt
       case Aborting => w.count.barren == 0 && behind <= 2 + w.sender.attempt
  }

  lemma BoundedIsPrompt(w: World)
    requires Invariant(w) && Bounded(w) && Recent(w.link, w.count) && w.count.barren <= MAX_BARREN
    ensures Prompt(w)
  {
  }

  lemma StepBounded(w: World, e: Event)
    requires Invariant(w) && Bounded(w) && Prompt(w)
    ensures Bounded(Step(w, e))
  {
    if e.DeliverResp? && w.link.toSend != [] {
      var r := w.link.toSend[0];
      if w.sender.phase.Waits() && Answers(w.sender.wait, r.op, r.n % 256) { AnswerIsCurrent(w); }
    }
  }

  lemma LossRecent(l: Link, c: Count, at: nat)
    requires Recent(l, c)
    ensures Recent(l.(toRecv := Without(l.toRecv, at)), c) && Recent(l.(toSend := Without(l.toSend, at)), c)
  {
  }

  lemma TransmitRecent(w: World, attempt: nat)
    requires Shaped(w) && Recent(w.link, w.count) && (w.sender.phase.Beginning? ==> w.count.barren > 0 && w.count.mark <= w.count.n)
    requires w.sender.phase.Waits()
    ensures Recent(Transmit(w, attempt).link, Transmit(w, attempt).count)
  {
  }

  lemma HandledRecent(w: World, refusal: Result, flashOk: bool)
    requires Recent(w.link, w.count) && w.link.toRecv != []
    ensures Recent(RequestHandled(w, refusal, flashOk).link, w.count)
  {
    var rest := w.link.toRecv[1..];
    assert forall i :: 0 <= i < |rest| ==> rest[i] == w.link.toRecv[i + 1];
  }

  lemma TakenRecent(w: World)
    requires Invariant(w) && Prompt(w) && Recent(w.link, w.count) && w.link.toSend != []
    ensures Recent(AnswerTaken(w).link, AnswerTaken(w).count)
  {
    var r := w.link.toSend[0];
    if w.sender.phase.Waits() && Answers(w.sender.wait, r.op, r.n % 256) {
      AnswerIsCurrent(w);
      if w.link.toRecv != [] || |w.link.toSend| > 1 { FollowedIsOlder(w.link, w.count); }
    } else {
      assert w.link.toSend[1..] == Without(w.link.toSend, 0);
      LossRecent(w.link, w.count, 0);
    }
  }

  /** The first transfer of a silence finds no begin frame under way. */
  lemma StartRecent(w: World, stream: Bytes)
    requires Invariant(w) && Bounded(w) && Recent(w.link, w.count) && w.sender.phase.Resting? && w.count.mark <= w.count.n
    ensures Recent(Step(w, Start(stream)).link, Step(w, Start(stream)).count)
  {
    TransmitRecent(Started(w, stream), 1);
  }

  lemma TimeoutRecent(w: World)
    requires Invariant(w) && Bounded(w) && Recent(w.link, w.count) && w.count.mark <= w.count.n
    ensures Recent(Step(w, Timeout).link, Step(w, Timeout).count)
  {
    if w.sender.phase.Waits() && w.sender.attempt < ATTEMPTS {
      TransmitRecent(w, w.sender.attempt + 1);
    } else if w.sender.phase.Sending? {
      TransmitRecent(w.(sender := w.sender.(wait := w.sender.wait.(armed := false), phase := Aborting)), 1);
    }
  }

  lemma SendRecent(w: World, e: Event)
    requires Shaped(w) && Recent(w.link, w.count) && w.count.mark <= w.count.n && (e.SendData? || e.SendEnd? || e.GiveUp?)
    ensures Recent(Step(w, e).link, Step(w, e).count)
  {
    match e
    case SendData(chunk) =>
      if w.sender.phase.Ready? && w.sender.sent + chunk <= |Stream(w)| {
        TransmitRecent(w.(sender := w.sender.(phase := Sending, chunk := chunk)), 1);
      }
    case SendEnd => if w.sender.phase.Ready? { TransmitRecent(w.(sender := w.sender.(phase := Ending)), 1); }
    case GiveUp => if w.sender.phase.Ready? { TransmitRecent(w.(sender := w.sender.(phase := Aborting)), 1); }
  }

  /** The mark never passes the attempts made. */
  lemma StepMark(w: World, e: Event)
    requires Shaped(w) && w.count.mark <= w.count.n
    ensures Step(w, e).count.mark <= Step(w, e).count.n
  {
  }

  lemma StepRecent(w: World, e: Event)
    requires Invariant(w) && Bounded(w) && Prompt(w) && Recent(w.link, w.count) && w.count.mark <= w.count.n
    ensures Recent(Step(w, e).link, Step(w, e).count)
  {
    match e
    case Start(stream) => if w.sender.phase.Resting? { StartRecent(w, stream); }
    case SendData(_) => SendRecent(w, e);
    case SendEnd => SendRecent(w, e);
    case GiveUp => SendRecent(w, e);
    case Timeout => TimeoutRecent(w);
    case DeliverReq(refusal, flashOk) => if w.link.toRecv != [] { HandledRecent(w, refusal, flashOk); }
    case DeliverResp => if w.link.toSend != [] { TakenRecent(w); }
    case LoseReq(at) => LossRecent(w.link, w.count, at);
    case LoseResp(at) => LossRecent(w.link, w.count, at);
    case IdleAbort =>
  }

  /** At no time have more than `most` transfers in a row been begun without one answer. */
  predicate HeardWithin(run: seq<Event>, most: nat) { forall k :: 0 <= k <= |run| ==> Run(run[..k]).count.barren <= most }

  predicate Heard(run: seq<Event>) { HeardWithin(run, MAX_BARREN) }

  lemma StepKeeps(w: World, e: Event)
    requires Invariant(w) && Prompt(w)
    ensures Invariant(Step(w, e))
  {
    match e
    case Start(stream) => StartKeeps(w, stream);
    case SendData(_) => SendKeeps(w, e);
    case SendEnd => SendKeeps(w, e);
    case GiveUp => SendKeeps(w, e);
    case Timeout => TimeoutKeeps(w);
    case DeliverReq(refusal, flashOk) => DeliverReqKeeps(w, refusal, flashOk);
    case DeliverResp => DeliverRespKeeps(w);
    case LoseReq(at) => ReqLost(w, at, Step(w, e));
    case LoseResp(at) => RespLost(w, at, Step(w, e));
    case IdleAbort => IdleAbortKeeps(w);
  }

  lemma {:induction false} RunInvariant(run: seq<Event>)
    requires Heard(run)
    ensures Invariant(Run(run)) && Bounded(Run(run)) && Recent(Run(run).link, Run(run).count)
    ensures Run(run).count.mark <= Run(run).count.n
  {
    if run != [] {
      var earlier := run[..|run| - 1];
      assert forall k :: 0 <= k <= |earlier| ==> earlier[..k] == run[..k];
      RunInvariant(earlier);
      assert earlier == run[..|earlier|];
      BoundedIsPrompt(Run(earlier));
      StepBounded(Run(earlier), run[|run| - 1]);
      StepRecent(Run(earlier), run[|run| - 1]);
      StepMark(Run(earlier), run[|run| - 1]);
      StepKeeps(Run(earlier), run[|run| - 1]);
    }
  }

  /** No answer is ever taken for one to another attempt. */
  lemma AnswersMatch(run: seq<Event>)
    requires Heard(run)
    ensures !Run(run).count.misled
  {
    RunInvariant(run);
  }

  /** Whatever was committed is the whole stream of its transfer, and a transfer the relay
      saw complete was committed. */
  lemma CommitsAreStreams(run: seq<Event>)
    requires Heard(run)
    ensures var w := Run(run);
            && (forall i :: 0 <= i < |w.commits| ==>
                  w.commits[i].transfer < |w.streams| && w.commits[i].data == w.streams[w.commits[i].transfer])
            && forall t :: t in w.count.completed ==> HasCommit(w.commits, t)
  {
    RunInvariant(run);
  }

  /** An open session holds a prefix of its own stream; while the relay streams, it is the
      current one, at what was acknowledged or one chunk further. */
  predicate Lockstep(w: World)
    requires Shaped(w)
  {
    && SessionOk(w.session, w.streams)
    && (w.sender.phase.Ready? ==> w.link == Link([], []))
    && (w.sender.phase.Ready? ==> Holds(w.session, Current(w), w.sender.sent, w.sender.sent))
    && (w.sender.phase.Sending? ==> Holds(w.session, Current(w), w.sender.sent, w.sender.sent + w.sender.chunk))
    && (w.sender.phase.Ending? ==> Holds(w.session, Current(w), |Stream(w)|, |Stream(w)|))
  }

  /** Receiver and relay keep in step. */
  lemma SessionInLockstep(run: seq<Event>)
    requires Heard(run)
    ensures Lockstep(Run(run))
  {
    RunInvariant(run);
  }

  // Without any answer for long enough the 8-bit number does repeat.

  /** One answer to the very first attempt is still under way; nothing else is. */
  predicate Stale(w: World, n: nat) {
    && w.sender.phase.Resting? && w.link == Link([], [Resp(1, BeginOp, Ok)])
    && w.count.n == n && w.sender.wait.seq8 == n % 256 && !w.count.misled && 2 * w.count.barren == n
  }

  /** One BEGIN, attempt `n` of all, is all that is under way besides the old answer. */
  predicate Waiting(w: World, n: nat, attempt: nat) {
    && Shaped(w) && w.sender.phase.Beginning? && w.sender.attempt == attempt && w.count.n == n
    && w.sender.wait.seq8 == n % 256 && !w.count.misled && 2 * w.count.barren == n + 2 - attempt
    && |w.link.toRecv| == 1 && w.link.toSend == [Resp(1, BeginOp, Ok)]
  }

  lemma StaleStarts(w: World, n: nat)
    requires Shaped(w) && Stale(w, n)
    ensures Waiting(Step(w, Start([0])), n + 1, 1)
  {
    NextNumber(n);
    assert Step(w, Start([0])) == Transmit(Started(w, [0]), 1);
    assert |Transmit(Started(w, [0]), 1).link.toRecv| == 1;
  }

  lemma NextNumber(n: nat)
    ensures (n % 256 + 1) % 256 == (n + 1) % 256
  {
  }

  lemma StaleRetries(w: World, n: nat)
    requires Waiting(w, n, 1)
    ensures Waiting(Step(Step(w, LoseReq(0)), Timeout), n + 1, 2)
  {
    NextNumber(n);
    assert Step(w, LoseReq(0)).link.toRecv == [];
  }

  lemma StaleRests(w: World, n: nat)
    requires Waiting(w, n, 2)
    ensures Stale(Step(Step(w, LoseReq(0)), Timeout), n)
  {
    assert Step(w, LoseReq(0)).link.toRecv == [];
  }

  lemma BarrenRoundStale(w: World, n: nat)
    requires Shaped(w) && Stale(w, n)
    ensures Stale(Step(Step(Step(Step(Step(w, Start([0])), LoseReq(0)), Timeout), LoseReq(0)), Timeout), n + 2)
  {
    var w1 := Step(w, Start([0]));
    StaleStarts(w, n);
    StaleRetries(w1, n + 1);
    StaleRests(Step(Step(w1, LoseReq(0)), Timeout), n + 2);
  }

  /** The very first BEGIN has been handled and its answer is on the way. */
  lemma FirstHandled(w: World)
    requires w == Step(Step(INITIAL, Start([0])), DeliverReq(Ok, true))
    ensures Shaped(w) && w.sender.phase.Beginning? && w.sender.attempt == 1 && w.link == Link([], [Resp(1, BeginOp, Ok)])
    ensures w.count.n == 1 && w.sender.wait.seq8 == 1 && !w.count.misled && w.count.barren == 1
  {
    var w1 := Step(INITIAL, Start([0]));
    assert w1.link == Link([Req(1, 1, BeginBody(1))], []);
  }

  lemma FirstRoundStale()
    ensures Stale(Step(Step(Step(Step(Step(INITIAL, Start([0])), DeliverReq(Ok, true)), Timeout), LoseReq(0)), Timeout), 2)
  {
    var w := Step(Step(INITIAL, Start([0])), DeliverReq(Ok, true));
    FirstHandled(w);
    assert Waiting(Step(w, Timeout), 2, 2);
    StaleRests(Step(w, Timeout), 2);
  }

  lemma StepBarren(w: World, e: Event)
    requires Shaped(w)
    ensures Step(w, e).count.barren <= w.count.barren + if e.Start? then 1 else 0
  {
  }

  lemma Extended(run: seq<Event>, e: Event, most: nat) returns (run': seq<Event>)
    requires HeardWithin(run, most) && Run(run).count.barren + (if e.Start? then 1 else 0) <= most
    ensures Run(run') == Step(Run(run), e) && HeardWithin(run', most)
  {
    run' := run + [e];
    assert run'[..|run|] == run;
    StepBarren(Run(run), e);
    forall k | 0 <= k <= |run'| ensures Run(run'[..k]).count.barren <= most {
      if k <= |run| { assert run'[..k] == run[..k]; } else { assert run'[..k] == run'; }
    }
  }

  /** A start and four events that start nothing. */
  lemma FiveMore(run: seq<Event>, a: Event, b: Event, c: Event, d: Event, e: Event, most: nat) returns (run': seq<Event>)
    requires HeardWithin(run, most) && Run(run).count.barren + 1 <= most
    requires !b.Start? && !c.Start? && !d.Start? && !e.Start?
    ensures Run(run') == Step(Step(Step(Step(Step(Run(run), a), b), c), d), e) && HeardWithin(run', most)
  {
    StepBarren(Run(run), a);
    var r1 := Extended(run, a, most);
    StepBarren(Run(r1), b);
    var r2 := Extended(r1, b, most);
    StepBarren(Run(r2), c);
    var r3 := Extended(r2, c, most);
    StepBarren(Run(r3), d);
    var r4 := Extended(r3, d, most);
    run' := Extended(r4, e, most);
  }

  lemma NothingHeard(most: nat)
    ensures HeardWithin([], most)
  {
    var none: seq<Event> := [];
    assert forall k :: 0 <= k <= |none| ==> none[..k] == [];
  }

  lemma {:induction false} StaleAfter(k: nat, most: nat) returns (run: seq<Event>)
    requires k + 1 <= most
    ensures Stale(Run(run), 2 + 2 * k) && HeardWithin(run, most)
  {
    if k == 0 {
      NothingHeard(most);
      FirstRoundStale();
      run := FiveMore([], Start([0]), DeliverReq(Ok, true), Timeout, LoseReq(0), Timeout, most);
    } else {
      var earlier := StaleAfter(k - 1, most);
      BarrenRoundStale(Run(earlier), 2 * k);
      run := FiveMore(earlier, Start([0]), LoseReq(0), Timeout, LoseReq(0), Timeout, most);
    }
  }

  lemma StaleIsTaken(w: World)
    requires Shaped(w) && Stale(w, 256)
    ensures var w2 := Step(Step(w, Start([0])), DeliverResp); w2.count.misled && !Lockstep(w2)
  {
    var w1 := Step(w, Start([0]));
    StaleStarts(w, 256);
    assert w1.link.toSend == [Resp(1, BeginOp, Ok)];
  }

  /** At the 129th transfer without an answer, the answer to the very first attempt is taken
      for one to attempt 257, and the relay is ready to stream with its BEGIN still under way. */
  lemma LongSilenceMisleads()
    ensures exists run :: HeardWithin(run, MAX_BARREN + 1) && Run(run).count.misled && !Lockstep(Run(run))
  {
    var stale := StaleAfter(127, 129);
    StaleIsTaken(Run(stale));
    var started := Extended(stale, Start([0]), 129);
    StepBarren(Run(stale), Start([0]));
    var run := Extended(started, DeliverResp, 129);
    assert HeardWithin(run, MAX_BARREN + 1);
  }

  /** How long a silence the 8-bit number bears: 128 transfers, exactly. */
  lemma ToleratesExactly(most: nat)
    ensures (forall run :: HeardWithin(run, most) ==> !Run(run).count.misled) <==> most <= MAX_BARREN
    ensures (forall run :: HeardWithin(run, most) ==> Lockstep(Run(run))) <==> most <= MAX_BARREN
  {
    if most <= MAX_BARREN {
      forall run | HeardWithin(run, most) ensures !Run(run).count.misled && Lockstep(Run(run)) {
        AnswersMatch(run);
        SessionInLockstep(run);
      }
    } else {
      LongSilenceMisleads();
      var run :| HeardWithin(run, MAX_BARREN + 1) && Run(run).count.misled && !Lockstep(Run(run));
      assert HeardWithin(run, most);
    }
  }
}
