/** The resumable firmware download: up to five attempts, each from a checkpoint of bytes
    already in flash, each response accepted only for exactly the bytes that remain.

    The network is a parameter: one trip per attempt, with what the server answered and
    what each call of the HTTP-OTA library wrote. */
module FwResume {
  import opened FwHttpPolicy

  type Bytes = seq<bv8>

  datatype Error = Error(transport: bool, tls: bool)

  datatype Message = Message(status: nat, headers: seq<Header>)

  /** One call of the library: it wrote `n` more body bytes, or failed and left junk. The
      flags are what the clock says afterwards. */
  datatype Perform =
    | Wrote(n: nat, done: bool, late: bool, stalled: bool)
    | Failed(junk: Bytes, error: Error)

  /** `begun`: the connection was opened. `messages`: the responses seen, redirects and the
      library's own fallback included. `plain`: a live, unchunked, encrypted connection. */
  datatype Trip = Trip(late: bool, begun: bool, error: Error, lateBegun: bool, messages: seq<Message>, plain: bool,
                       body: Bytes, performs: seq<Perform>, whole: bool, lateBackoff: bool)

  /** A stretch of flash: taken from `from` on of a body that answered a request at `start`. */
  datatype Piece = Piece(start: nat, from: nat, bytes: Bytes, body: Bytes, r: Response)

  datatype Task = Task(checkpoint: nat, flash: Bytes, pieces: seq<Piece>)

  datatype End = Finished | Stopped(retry: bool)

  datatype Result = Result(t: Task, end: End)

  predicate Sized(t: Task) { t.checkpoint <= |t.flash| }

  function Record(messages: seq<Message>): Response {
    if messages == [] then Fresh(0)
    else OnHeaders(Fresh(messages[|messages| - 1].status), messages[|messages| - 1].headers)
  }

  /** A rejected Range shows as a full answer to a request that named an offset. */
  predicate FellBack(messages: seq<Message>, offset: nat) {
    offset != 0 && exists i :: 0 <= i < |messages| && (messages[i].status == 200 || messages[i].status == 416)
  }

  predicate Retryable(e: Error, status: nat) {
    !e.tls && if 400 <= status then StatusRetryable(status) else e.transport
  }

  function Min(a: nat, b: nat): nat { if a < b then a else b }
  function Max(a: nat, b: nat): nat { if a < b then b else a }

  function PieceOf(trip: Trip, offset: nat, k: nat, n: nat): Piece
    requires k + n <= |trip.body|
  {
    Piece(offset, k, trip.body[k..k + n], trip.body, Record(trip.messages))
  }

  /** One more piece behind the checkpoint. */
  function Grown(t: Task, p: Piece): (t': Task)
    requires Sized(t)
    ensures Sized(t') && t'.checkpoint == t.checkpoint + |p.bytes|
  {
    Task(t.checkpoint + |p.bytes|, t.flash[..t.checkpoint] + p.bytes, t.pieces + [p])
  }

  /** A download call ends the attempt, or goes on to body byte `k`. */
  datatype Call = Over(o: Result) | Going(t: Task, k: nat)

  /** The outcome of a call that grew the download to `t`, the body to `k`. */
  function AfterGrowing(t: Task, trip: Trip, imageLen: nat, k: nat, p: Perform): Call
    requires p.Wrote?
  {
    if p.done then Over(Result(t, if trip.whole && t.checkpoint == imageLen then Finished else Stopped(t.checkpoint < imageLen)))
    else if p.stalled then Over(Result(t, Stopped(true)))
    else Going(t, k)
  }

  function DownloadOne(t: Task, trip: Trip, offset: nat, imageLen: nat, k: nat, p: Perform): (c: Call)
    requires Sized(t) && k <= |trip.body| && offset + k == t.checkpoint
    ensures c.Over? ==> Sized(c.o.t)
    ensures c.Going? ==> Sized(c.t) && c.k <= |trip.body| && offset + c.k == c.t.checkpoint
  {
    match p
    case Failed(junk, error) =>
      Over(Result(t.(flash := t.flash[..t.checkpoint] + junk), Stopped(Retryable(error, Record(trip.messages).status))))
    case Wrote(n, _, late, _) =>
      var n := Min(n, |trip.body| - k);
      if late || imageLen < t.checkpoint + n then
        Over(Result(t.(flash := t.flash[..t.checkpoint] + trip.body[k..k + n]), Stopped(false)))
      else
        AfterGrowing(Grown(t, PieceOf(trip, offset, k, n)), trip, imageLen, k + n, p)
  }

  /** The download calls of one attempt, from the `k`-th body byte on. */
  function Download(t: Task, trip: Trip, offset: nat, imageLen: nat, k: nat, performs: seq<Perform>): (o: Result)
    requires Sized(t) && k <= |trip.body| && offset + k == t.checkpoint
    ensures Sized(o.t)
    decreases |performs|
  {
    if performs == [] then Result(t, Stopped(false))
    else
      match DownloadOne(t, trip, offset, imageLen, k, performs[0])
      case Over(o) => o
      case Going(t', k') => Download(t', trip, offset, imageLen, k', performs[1..])
  }

  /** A tiny prefix is not resumed. */
  function Restarted(t: Task): (t': Task)
    requires Sized(t)
    ensures Sized(t')
  {
    if t.checkpoint < RESUME_MIN then t.(checkpoint := 0, pieces := []) else t
  }

  function Attempt(t: Task, trip: Trip, imageLen: nat): (o: Result)
    requires Sized(t)
    ensures Sized(o.t)
  {
    if trip.late then Result(t, Stopped(false))
    else
      var t := Restarted(t);
      var offset := t.checkpoint;
      if !trip.begun then Result(t, Stopped(Retryable(trip.error, Record(trip.messages).status)))
      else if trip.lateBegun then Result(t, Stopped(false))
      else if FellBack(trip.messages, offset) then
        Result(t.(checkpoint := 0, pieces := []),
               Stopped(!trip.error.tls && (Record(trip.messages).status == 200 || Record(trip.messages).status == 206)))
      else if !ResponseValid(Record(trip.messages), offset, imageLen) || !trip.plain then Result(t, Stopped(false))
      else Download(t, trip, offset, imageLen, 0, trip.performs)
  }

  predicate GivesUp(o: Result, trip: Trip, attempt: nat, imageLen: nat) {
    match o.end
    case Finished => false
    case Stopped(retry) => !retry || RetryDelay(attempt) == 0 || imageLen <= o.t.checkpoint || trip.lateBackoff
  }

  /** The attempts from number `attempt` on. */
  function Attempts(t: Task, trips: seq<Trip>, imageLen: nat, attempt: nat): (o: Result)
    requires Sized(t)
    ensures Sized(o.t)
    decreases |trips|
  {
    if trips == [] || MAX_ATTEMPTS < attempt then Result(t, Stopped(false))
    else
      var o := Attempt(t, trips[0], imageLen);
      if o.end.Finished? || GivesUp(o, trips[0], attempt, imageLen) then o
      else Attempts(o.t, trips[1..], imageLen, attempt + 1)
  }

  const EMPTY: Task := Task(0, [], [])

  function Run(trips: seq<Trip>, imageLen: nat): Result { Attempts(EMPTY, trips, imageLen, 1) }

  /** The download as the firmware runs it, over the flash it writes. */
  class Downloader {
    var checkpoint: nat
    var flash: Bytes
    ghost var pieces: seq<Piece>

    ghost predicate Valid() reads this { checkpoint <= |flash| }

    ghost function State(): Task reads this { Task(checkpoint, flash, pieces) }

    constructor ()
      ensures Valid() && State() == EMPTY
    {
      checkpoint, flash, pieces := 0, [], [];
    }

    /** One call into the library and what is made of it. */
    method PerformOne(trip: Trip, offset: nat, imageLen: nat, k: nat, p: Perform) returns (over: bool, end: End, k': nat)
      requires Valid() && k <= |trip.body| && offset + k == checkpoint
      modifies this
      ensures Valid()
      ensures DownloadOne(old(State()), trip, offset, imageLen, k, p)
           == if over then Over(Result(State(), end)) else Going(State(), k')
    {
      over, end, k' := true, Stopped(false), k;
      if p.Failed? {
        flash := flash[..checkpoint] + p.junk;
        end := Stopped(Retryable(p.error, Record(trip.messages).status));
        return;
      }
      var n := Min(p.n, |trip.body| - k);
      flash := flash[..checkpoint] + trip.body[k..k + n];
      if p.late { return; }
      var read := offset + k + n;
      if read < checkpoint || read > imageLen { return; }
      if read >= checkpoint { checkpoint := read; }
      pieces := pieces + [Piece(offset, k, trip.body[k..k + n], trip.body, Record(trip.messages))];
      if p.done {
        end := if trip.whole && checkpoint == imageLen then Finished else Stopped(checkpoint < imageLen);
      } else if p.stalled {
        end := Stopped(true);
      } else {
        over, k' := false, k + n;
      }
    }

    method Receive(trip: Trip, imageLen: nat) returns (end: End)
      requires Valid()
      modifies this
      ensures Valid() && Result(State(), end) == Download(old(State()), trip, old(checkpoint), imageLen, 0, trip.performs)
    {
      var offset, k, i := checkpoint, 0, 0;
      ghost var start := State();
      assert trip.performs[0..] == trip.performs;
      while i < |trip.performs|
        invariant 0 <= i <= |trip.performs| && Valid() && 0 <= k <= |trip.body| && offset + k == checkpoint
        invariant Download(State(), trip, offset, imageLen, k, trip.performs[i..])
               == Download(start, trip, offset, imageLen, 0, trip.performs)
      {
        assert trip.performs[i..][0] == trip.performs[i] && trip.performs[i..][1..] == trip.performs[i + 1..];
        var over: bool;
        over, end, k := PerformOne(trip, offset, imageLen, k, trip.performs[i]);
        if over { return; }
        i := i + 1;
      }
      assert trip.performs[i..] == [];
      return Stopped(false);
    }

    method TryOnce(trip: Trip, imageLen: nat) returns (end: End)
      requires Valid()
      modifies this
      ensures Valid() && Result(State(), end) == Attempt(old(State()), trip, imageLen)
    {
      if trip.late { return Stopped(false); }
      if checkpoint < RESUME_MIN {
        checkpoint := 0;
        pieces := [];
      }
      if !trip.begun { return Stopped(Retryable(trip.error, Record(trip.messages).status)); }
      if trip.lateBegun { return Stopped(false); }
      if FellBack(trip.messages, checkpoint) {
        checkpoint := 0;
        pieces := [];
        var status := Record(trip.messages).status;
        return Stopped(!trip.error.tls && (status == 200 || status == 206));
      }
      if !ResponseValid(Record(trip.messages), checkpoint, imageLen) || !trip.plain { return Stopped(false); }
      end := Receive(trip, imageLen);
    }

    method Execute(trips: seq<Trip>, imageLen: nat) returns (complete: bool)
      requires Valid() && State() == EMPTY
      modifies this
      ensures Valid() && State() == Run(trips, imageLen).t && complete == Run(trips, imageLen).end.Finished?
    {
      var attempt := 1;
      assert trips[0..] == trips;
      while attempt <= MAX_ATTEMPTS && attempt <= |trips|
        invariant 1 <= attempt <= MAX_ATTEMPTS + 1 && attempt <= |trips| + 1 && Valid()
        invariant Attempts(State(), trips[attempt - 1..], imageLen, attempt) == Run(trips, imageLen)
        decreases |trips| - attempt
      {
        var trip := trips[attempt - 1];
        assert trips[attempt - 1..][0] == trip && trips[attempt - 1..][1..] == trips[attempt..];
        var end := TryOnce(trip, imageLen);
        if end.Finished? { return true; }
        if !end.retry || RetryDelay(attempt) == 0 || checkpoint >= imageLen || trip.lateBackoff { return false; }
        attempt := attempt + 1;
      }
      return false;
    }
  }

  // What is in flash.

  function Joined(pieces: seq<Piece>): Bytes {
    if pieces == [] then [] else Joined(pieces[..|pieces| - 1]) + pieces[|pieces| - 1].bytes
  }

  /** The piece lies where its response put it, and that response stood for exactly the rest of the image. */
  predicate Genuine(p: Piece, at: nat, imageLen: nat) {
    && ResponseValid(p.r, p.start, imageLen) && at == p.start + p.from
    && p.from + |p.bytes| <= |p.body| && p.bytes == p.body[p.from..p.from + |p.bytes|]
  }

  predicate AllGenuine(pieces: seq<Piece>, imageLen: nat) {
    pieces == [] || (AllGenuine(pieces[..|pieces| - 1], imageLen)
                     && Genuine(pieces[|pieces| - 1], |Joined(pieces[..|pieces| - 1])|, imageLen))
  }

  /** The bytes up to the checkpoint are the pieces, end to end. */
  predicate Contiguous(t: Task, imageLen: nat) {
    Sized(t) && t.flash[..t.checkpoint] == Joined(t.pieces) && AllGenuine(t.pieces, imageLen) && t.checkpoint <= imageLen
  }

  lemma GrownContiguous(t: Task, p: Piece, imageLen: nat)
    requires Contiguous(t, imageLen) && Genuine(p, t.checkpoint, imageLen) && t.checkpoint + |p.bytes| <= imageLen
    ensures Contiguous(Grown(t, p), imageLen)
  {
    var t' := Grown(t, p);
    assert t'.pieces[..|t.pieces|] == t.pieces;
    assert t'.flash[..t'.checkpoint] == t'.flash;
    assert |Joined(t.pieces)| == t.checkpoint;
  }

  lemma JunkContiguous(t: Task, junk: Bytes, imageLen: nat)
    requires Contiguous(t, imageLen)
    ensures Contiguous(t.(flash := t.flash[..t.checkpoint] + junk), imageLen)
  {
    assert (t.flash[..t.checkpoint] + junk)[..t.checkpoint] == t.flash[..t.checkpoint];
  }

  /** What an attempt may leave behind. */
  predicate Good(o: Result, imageLen: nat) {
    Contiguous(o.t, imageLen) && (o.end.Finished? ==> o.t.checkpoint == imageLen)
  }

  lemma StopGood(t: Task, junk: Bytes, imageLen: nat, retry: bool)
    requires Contiguous(t, imageLen)
    ensures Good(Result(t.(flash := t.flash[..t.checkpoint] + junk), Stopped(retry)), imageLen)
  {
    JunkContiguous(t, junk, imageLen);
  }

  lemma DoneGood(t: Task, imageLen: nat, whole: bool)
    requires Contiguous(t, imageLen)
    ensures Good(Result(t, if whole && t.checkpoint == imageLen then Finished else Stopped(t.checkpoint < imageLen)), imageLen)
    ensures Good(Result(t, Stopped(true)), imageLen) && Good(Result(t, Stopped(false)), imageLen)
  {
  }

  /** What one download call leaves is contiguous, whether or not it is the last. */
  predicate CallGood(c: Call, imageLen: nat) {
    match c
    case Over(o) => Good(o, imageLen)
    case Going(t, k) => Contiguous(t, imageLen)
  }

  lemma AfterGrowingGood(t: Task, trip: Trip, imageLen: nat, k: nat, p: Perform)
    requires Contiguous(t, imageLen) && p.Wrote?
    ensures CallGood(AfterGrowing(t, trip, imageLen, k, p), imageLen)
  {
    DoneGood(t, imageLen, trip.whole);
  }

  lemma PieceContiguous(t: Task, trip: Trip, offset: nat, imageLen: nat, k: nat, n: nat, t': Task)
    requires Contiguous(t, imageLen) && k + n <= |trip.body| && offset + k == t.checkpoint
    requires ResponseValid(Record(trip.messages), offset, imageLen) && t.checkpoint + n <= imageLen
    requires t' == Grown(t, PieceOf(trip, offset, k, n))
    ensures Contiguous(t', imageLen)
  {
    GrownContiguous(t, PieceOf(trip, offset, k, n), imageLen);
  }

  lemma GrowsTo(t: Task, trip: Trip, offset: nat, imageLen: nat, k: nat, n: nat, p: Perform)
    requires Sized(t) && k <= |trip.body| && offset + k == t.checkpoint
    requires p.Wrote? && !p.late && n == Min(p.n, |trip.body| - k) && t.checkpoint + n <= imageLen
    ensures DownloadOne(t, trip, offset, imageLen, k, p)
         == AfterGrowing(Grown(t, PieceOf(trip, offset, k, n)), trip, imageLen, k + n, p)
  {
  }

  lemma OneContiguous(t: Task, trip: Trip, offset: nat, imageLen: nat, k: nat, p: Perform)
    requires Contiguous(t, imageLen) && k <= |trip.body| && offset + k == t.checkpoint
    requires ResponseValid(Record(trip.messages), offset, imageLen)
    ensures CallGood(DownloadOne(t, trip, offset, imageLen, k, p), imageLen)
  {
    match p
    case Failed(junk, error) => StopGood(t, junk, imageLen, Retryable(error, Record(trip.messages).status));
    case Wrote(m, _, late, _) =>
      var n := Min(m, |trip.body| - k);
      if late || imageLen < t.checkpoint + n {
        StopGood(t, trip.body[k..k + n], imageLen, false);
      } else {
        var t' := Grown(t, PieceOf(trip, offset, k, n));
        PieceContiguous(t, trip, offset, imageLen, k, n, t');
        AfterGrowingGood(t', trip, imageLen, k + n, p);
        GrowsTo(t, trip, offset, imageLen, k, n, p);
      }
  }

  lemma {:induction false} DownloadContiguous(t: Task, trip: Trip, offset: nat, imageLen: nat, k: nat, performs: seq<Perform>)
    requires Contiguous(t, imageLen) && k <= |trip.body| && offset + k == t.checkpoint
    requires ResponseValid(Record(trip.messages), offset, imageLen)
    ensures Good(Download(t, trip, offset, imageLen, k, performs), imageLen)
    decreases |performs|
  {
    if performs == [] {
      DoneGood(t, imageLen, false);
    } else {
      var c := DownloadOne(t, trip, offset, imageLen, k, performs[0]);
      OneContiguous(t, trip, offset, imageLen, k, performs[0]);
      if c.Going? { DownloadContiguous(c.t, trip, offset, imageLen, c.k, performs[1..]); }
    }
  }

  lemma AttemptContiguous(t: Task, trip: Trip, imageLen: nat)
    requires Contiguous(t, imageLen)
    ensures Good(Attempt(t, trip, imageLen), imageLen)
  {
    var t' := Restarted(t);
    assert Contiguous(t', imageLen);
    if ResponseValid(Record(trip.messages), t'.checkpoint, imageLen) {
      DownloadContiguous(t', trip, t'.checkpoint, imageLen, 0, trip.performs);
    }
  }

  lemma {:induction false} AttemptsContiguous(t: Task, trips: seq<Trip>, imageLen: nat, attempt: nat)
    requires Contiguous(t, imageLen)
    ensures Good(Attempts(t, trips, imageLen, attempt), imageLen)
    decreases |trips|
  {
    if trips != [] && attempt <= MAX_ATTEMPTS {
      AttemptContiguous(t, trips[0], imageLen);
      AttemptsContiguous(Attempt(t, trips[0], imageLen).t, trips[1..], imageLen, attempt + 1);
    }
  }

  /** Against any server: flash up to the checkpoint is a gap-free chain of pieces, each from a
      response that stood for exactly the bytes from its offset to the end. */
  lemma FlashIsContiguous(trips: seq<Trip>, imageLen: nat)
    ensures var o := Run(trips, imageLen);
            && o.t.flash[..o.t.checkpoint] == Joined(o.t.pieces) && AllGenuine(o.t.pieces, imageLen)
            && (o.end.Finished? ==> o.t.checkpoint == imageLen)
  {
    AttemptsContiguous(EMPTY, trips, imageLen, 1);
  }

  // A server that serves one fixed image.

  predicate IsPrefixOf(a: Bytes, b: Bytes) { |a| <= |b| && a == b[..|a|] }

  /** A full answer carries the image from its start; a single range, from where the range says. */
  predicate Serves(image: Bytes, r: Response, body: Bytes) {
    && (r.status == 200 ==> IsPrefixOf(body, image))
    && (r.status == 206 && !r.invalid && r.ranges == 1 ==> r.first <= |image| && IsPrefixOf(body, image[r.first..]))
  }

  predicate ServesAll(image: Bytes, trips: seq<Trip>) {
    forall i :: 0 <= i < |trips| ==> Serves(image, Record(trips[i].messages), trips[i].body)
  }

  predicate AllServed(image: Bytes, pieces: seq<Piece>) {
    forall i :: 0 <= i < |pieces| ==> Serves(image, pieces[i].r, pieces[i].body)
  }

  lemma {:induction false} DownloadServed(image: Bytes, t: Task, trip: Trip, offset: nat, imageLen: nat, k: nat,
                                          performs: seq<Perform>)
    requires Sized(t) && k <= |trip.body| && offset + k == t.checkpoint
    requires AllServed(image, t.pieces) && Serves(image, Record(trip.messages), trip.body)
    ensures AllServed(image, Download(t, trip, offset, imageLen, k, performs).t.pieces)
    decreases |performs|
  {
    if performs != [] && performs[0].Wrote? && !performs[0].late {
      var n := Min(performs[0].n, |trip.body| - k);
      DownloadServed(image, Grown(t, PieceOf(trip, offset, k, n)), trip, offset, imageLen, k + n, performs[1..]);
    }
  }

  lemma {:induction false} AttemptsServed(image: Bytes, t: Task, trips: seq<Trip>, imageLen: nat, attempt: nat)
    requires Sized(t) && AllServed(image, t.pieces) && ServesAll(image, trips)
    ensures AllServed(image, Attempts(t, trips, imageLen, attempt).t.pieces)
    decreases |trips|
  {
    if trips != [] && attempt <= MAX_ATTEMPTS {
      var t' := Restarted(t);
      DownloadServed(image, t', trips[0], t'.checkpoint, imageLen, 0, trips[0].performs);
      AttemptsServed(image, Attempt(t, trips[0], imageLen).t, trips[1..], imageLen, attempt + 1);
    }
  }

  lemma SliceOfSlice(s: Bytes, start: nat, n: nat, i: nat, j: nat)
    requires start <= |s| && n <= |s| - start && i <= j <= n
    ensures s[start..][..n][i..j] == s[start + i..start + j]
  {
  }

  lemma PieceIsImage(image: Bytes, p: Piece, at: nat)
    requires Genuine(p, at, |image|) && Serves(image, p.r, p.body) && at + |p.bytes| <= |image|
    ensures p.bytes == image[at..at + |p.bytes|]
  {
    if p.start == 0 {
      assert p.body == image[..|p.body|];
    } else {
      assert p.body == image[p.start..][..|p.body|];
      SliceOfSlice(image, p.start, |p.body|, p.from, p.from + |p.bytes|);
    }
  }

  lemma {:induction false} JoinedIsImage(image: Bytes, pieces: seq<Piece>)
    requires AllGenuine(pieces, |image|) && AllServed(image, pieces) && |Joined(pieces)| <= |image|
    ensures Joined(pieces) == image[..|Joined(pieces)|]
  {
    if pieces != [] {
      var rest, p := pieces[..|pieces| - 1], pieces[|pieces| - 1];
      JoinedIsImage(image, rest);
      PieceIsImage(image, p, |Joined(rest)|);
    }
  }

  /** With a server that serves one fixed image, whatever drops, restarts or falls back: the
      bytes up to the checkpoint are the image's, and a finished download is the image. */
  lemma DownloadIsImage(image: Bytes, trips: seq<Trip>)
    requires ServesAll(image, trips)
    ensures var o := Run(trips, |image|);
            && o.t.checkpoint <= |image| && o.t.flash[..o.t.checkpoint] == image[..o.t.checkpoint]
            && (o.end.Finished? ==> o.t.flash[..o.t.checkpoint] == image)
  {
    AttemptsContiguous(EMPTY, trips, |image|, 1);
    AttemptsServed(image, EMPTY, trips, |image|, 1);
    JoinedIsImage(image, Run(trips, |image|).t.pieces);
  }
}
