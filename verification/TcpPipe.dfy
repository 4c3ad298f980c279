/**
 One direction of a tunnelled TCP connection: a source endpoint, the near
 pump's copy from its socket into the tunnel stream, the stream, and the far pump's copy
 from the stream into the sink's socket. Each copy is a task of its own.

 The stream is an ordered byte stream (section 2.2 of RFC 9000) that its writer either
 finishes or resets (section 19.4 of RFC 9000); a reset may discard unread bytes.
 */
module TcpPipe {
  import opened Bytes

  const BUFFER_SIZE := 65536

  /**
   A pump task. `Failing`: the copy failed and the terminal effect is done, the stream
   token is about to be cancelled. The last four are how a task ended.
   */
  datatype Task = Connecting | Copying | Failing | Clean | Errored | Cancelled | NeverConnected

  datatype Pipe = Pipe(
    sent: seq<byte>,       // everything the source endpoint wrote
    eof: bool,             // the source closed its write half
    unread: seq<byte>,     // of `sent`, what the near task has not read
    near: Task,
    nearBuf: seq<byte>,
    nearLost: seq<byte>,   // what the near task had read and not written when it stopped
    written: seq<byte>,    // everything the near task put into the stream
    wire: seq<byte>,       // of `written`, what the far task can still read
    discarded: seq<byte>,  // of `written`, what the stream dropped unread after a reset
    fin: bool,
    reset: bool,
    far: Task,
    farBuf: seq<byte>,
    farLost: seq<byte>,    // what the far task had read and not written when it stopped
    delivered: seq<byte>,  // everything written to the sink's socket
    shut: bool)            // the sink's socket was shut down

  datatype Move =
    | Write(bytes: seq<byte>)
    | Close
    | NearRead(n: nat)
    | NearWrite(n: nat)
    | NearEof
    | NearError
    | NearTrip             // cancels the near pump's stream token
    | NearCancelled
    | Discard              // the stream drops its unread bytes after a reset
    | FarRead(n: nat)
    | FarWrite(n: nat)
    | FarEof
    | FarError
    | FarTrip              // cancels the far pump's stream token
    | FarCancelled

  /** A pipe whose near end is `near` and whose far end is `far`, before any byte. */
  function Fresh(near: Task, far: Task): Pipe {
    Pipe([], false, [], near, [], [], [], [], [], false, false, far, [], [], [], false)
  }

  predicate Connected(t: Task) {
    !t.Connecting? && !t.NeverConnected?
  }

  /** `nearToken` and `farToken`: the token the near and the far task listen to is cancelled. */
  predicate CanMove(p: Pipe, nearToken: bool, farToken: bool, m: Move) {
    match m
    case Write(_) => Connected(p.near) && !p.eof
    case Close => Connected(p.near) && !p.eof
    case NearRead(n) => p.near.Copying? && p.nearBuf == [] && 1 <= n <= |p.unread| && n <= BUFFER_SIZE
    case NearWrite(n) => p.near.Copying? && 1 <= n <= |p.nearBuf|
    case NearEof => p.near.Copying? && p.nearBuf == [] && p.unread == [] && p.eof
    case NearError => p.near.Copying?
    case NearTrip => p.near.Failing?
    case NearCancelled => p.near.Copying? && nearToken
    case Discard => p.reset
    case FarRead(n) => p.far.Copying? && p.farBuf == [] && 1 <= n <= |p.wire| && n <= BUFFER_SIZE
    case FarWrite(n) => p.far.Copying? && 1 <= n <= |p.farBuf|
    case FarEof => p.far.Copying? && p.farBuf == [] && p.wire == [] && p.fin
    case FarError => p.far.Copying?
    case FarTrip => p.far.Failing?
    case FarCancelled => p.far.Copying? && farToken
  }

  function Moved(p: Pipe, m: Move): Pipe
    requires exists a, b :: CanMove(p, a, b, m)
  {
    match m
    case Write(bytes) => p.(sent := p.sent + bytes, unread := p.unread + bytes)
    case Close => p.(eof := true)
    case NearRead(n) => p.(nearBuf := p.unread[..n], unread := p.unread[n..])
    case NearWrite(n) =>
      p.(written := p.written + p.nearBuf[..n], wire := p.wire + p.nearBuf[..n], nearBuf := p.nearBuf[n..])
    case NearEof => p.(near := Clean, fin := true)
    case NearError => p.(near := Failing, reset := true, nearLost := p.nearBuf, nearBuf := [])
    case NearTrip => p.(near := Errored)
    case NearCancelled => p.(near := Cancelled, reset := true, nearLost := p.nearBuf, nearBuf := [])
    case Discard => p.(discarded := p.wire + p.discarded, wire := [])
    case FarRead(n) => p.(farBuf := p.wire[..n], wire := p.wire[n..])
    case FarWrite(n) => p.(delivered := p.delivered + p.farBuf[..n], farBuf := p.farBuf[n..])
    case FarEof => p.(far := Clean, shut := true)
    case FarError => p.(far := Failing, shut := true, farLost := p.farBuf, farBuf := [])
    case FarTrip => p.(far := Errored)
    case FarCancelled => p.(far := Cancelled, shut := true, farLost := p.farBuf, farBuf := [])
  }

  // ----- invariant -----

  /** Where the bytes that the source sent are, as far as the near end: into the stream or not. */
  function NearBytes(p: Pipe): seq<byte> {
    p.written + p.nearBuf + p.nearLost + p.unread
  }

  /** Where the bytes that went into the stream are. */
  function FarBytes(p: Pipe): seq<byte> {
    p.delivered + p.farBuf + p.farLost + p.wire + p.discarded
  }

  /** What each stage of the near task says about the stream. */
  predicate NearStage(p: Pipe) {
    match p.near
    case Connecting => p.sent == [] && !p.eof && !p.fin && !p.reset
    case NeverConnected => p.sent == [] && p.fin && !p.reset
    case Copying => p.nearLost == [] && !p.fin && !p.reset
    case Clean => p.nearBuf == p.nearLost == p.unread == [] && p.eof && p.fin && !p.reset
    case _ => p.nearBuf == [] && p.reset && !p.fin
  }

  /** What each stage of the far task says about the stream and the sink. */
  predicate FarStage(p: Pipe) {
    match p.far
    case Connecting => p.delivered == p.farBuf == p.farLost == []
    case NeverConnected => p.delivered == p.farBuf == p.farLost == []
    case Copying => p.farLost == []
    case Clean => p.fin && p.farBuf == p.farLost == p.wire == []
    case _ => p.farBuf == []
  }

  /** Every byte is accounted for, in order. */
  ghost predicate PipeOk(p: Pipe) {
    && NearBytes(p) == p.sent && FarBytes(p) == p.written
    && NearStage(p) && FarStage(p)
    && (p.discarded != [] ==> p.reset)
    && |p.nearBuf| <= BUFFER_SIZE && |p.farBuf| <= BUFFER_SIZE
    && (p.shut <==> p.far.Failing? || p.far.Clean? || p.far.Errored? || p.far.Cancelled?)
  }

  lemma Regroup(x: seq<byte>, y: seq<byte>, n: nat)
    requires n <= |y|
    ensures x + y[..n] + y[n..] == x + y
  {
  }

  /** A byte sequence moves across an empty one. */
  lemma Swap(x: seq<byte>, y: seq<byte>, z: seq<byte>)
    ensures x + y + [] + z == x + [] + y + z
  {
  }

  lemma NearBytesKept(p: Pipe, a: bool, b: bool, m: Move)
    requires PipeOk(p) && CanMove(p, a, b, m)
    ensures NearBytes(Moved(p, m)) == Moved(p, m).sent
  {
    hide FarBytes, FarStage;
    match m {
      case Write(bytes) =>
        var x := p.written + p.nearBuf + p.nearLost;
        assert x + (p.unread + bytes) == (x + p.unread) + bytes;
      case NearRead(n) =>
        Swap(p.written, p.unread[..n], p.unread[n..]);
        Regroup(p.written + [] + [], p.unread, n);
      case NearWrite(n) =>
        Regroup(p.written, p.nearBuf, n);
      case NearError => Swap(p.written, p.nearBuf, p.unread);
      case NearCancelled => Swap(p.written, p.nearBuf, p.unread);
      case _ =>
    }
  }

  lemma FarBytesKept(p: Pipe, a: bool, b: bool, m: Move)
    requires PipeOk(p) && CanMove(p, a, b, m)
    ensures FarBytes(Moved(p, m)) == Moved(p, m).written
  {
    hide NearBytes;
    match m {
      case NearWrite(n) =>
        assert p.discarded == [];
        FarBytesWrite(p, p.nearBuf[..n]);
      case Discard =>
        FarBytesDiscard(p);
      case FarRead(n) =>
        hide NearStage;
        FarBytesRead(p, n);
      case FarWrite(n) =>
        hide NearStage;
        Regroup(p.delivered, p.farBuf, n);
      case FarError => Swap(p.delivered, p.farBuf, p.wire);
      case FarCancelled => Swap(p.delivered, p.farBuf, p.wire);
      case _ =>
    }
  }

  lemma FarBytesWrite(p: Pipe, x: seq<byte>)
    requires p.discarded == []
    ensures FarBytes(p.(wire := p.wire + x)) == FarBytes(p) + x
  {
  }

  lemma FarBytesDiscard(p: Pipe)
    ensures FarBytes(p.(wire := [], discarded := p.wire + p.discarded)) == FarBytes(p)
  {
  }

  lemma FarBytesRead(p: Pipe, n: nat)
    requires p.farBuf == p.farLost == [] && n <= |p.wire|
    ensures FarBytes(p.(farBuf := p.wire[..n], wire := p.wire[n..])) == FarBytes(p)
  {
    Swap(p.delivered, p.wire[..n], p.wire[n..]);
    Regroup(p.delivered + [] + [], p.wire, n);
  }

  lemma MoveKeepsStages(p: Pipe, a: bool, b: bool, m: Move)
    requires PipeOk(p) && CanMove(p, a, b, m)
    ensures NearStage(Moved(p, m)) && FarStage(Moved(p, m))
    ensures Moved(p, m).discarded != [] ==> Moved(p, m).reset
  {
    hide NearBytes, FarBytes;
  }

  lemma MoveKeepsPipe(p: Pipe, a: bool, b: bool, m: Move)
    requires PipeOk(p) && CanMove(p, a, b, m)
    ensures PipeOk(Moved(p, m))
  {
    NearBytesKept(p, a, b, m);
    FarBytesKept(p, a, b, m);
    MoveKeepsStages(p, a, b, m);
    hide NearBytes, FarBytes, NearStage, FarStage;
  }

  /** Nothing that was sent is still on its way, and nothing was lost. */
  predicate NothingMissing(p: Pipe) {
    p.farBuf == p.farLost == p.wire == p.discarded == p.nearBuf == p.nearLost == p.unread == []
  }

  /**
   Conservation: what was written to the sink's socket, what is on its way or was lost at
   each place, in this order, is what the source sent. So what was written is a prefix,
   and it is everything if and only if nothing is on its way or lost.
   */
  lemma BytesAreConserved(p: Pipe)
    requires PipeOk(p)
    ensures p.delivered + p.farBuf + p.farLost + p.wire + p.discarded + p.nearBuf + p.nearLost + p.unread == p.sent
    ensures p.delivered <= p.sent
    ensures p.delivered == p.sent <==> NothingMissing(p)
  {
    var later := p.nearBuf + p.nearLost + p.unread;
    assert FarBytes(p) + p.nearBuf + p.nearLost + p.unread == p.sent;
    assert |p.sent| == |p.delivered| + |p.farBuf| + |p.farLost| + |p.wire| + |p.discarded| + |later|;
  }

  /** What the end of a copy says about completeness. */
  lemma DeliveredIsPrefix(p: Pipe)
    requires PipeOk(p)
    ensures p.delivered <= p.sent
    ensures p.near.Copying? && p.far.Copying? ==>
              p.delivered + p.farBuf + p.wire + p.nearBuf + p.unread == p.sent
    ensures p.far.Clean? ==> p.delivered == p.sent && p.fin && (p.eof || p.near.NeverConnected?)
    ensures p.near.NeverConnected? ==> p.delivered == []
    ensures p.fin ==> p.written == p.sent && (p.eof || p.near.NeverConnected?)
  {
    BytesAreConserved(p);
    if p.near.Copying? && p.far.Copying? {
      assert p.delivered + p.farBuf + [] + p.wire + [] + p.nearBuf + [] + p.unread
          == p.delivered + p.farBuf + p.wire + p.nearBuf + p.unread;
    }
  }

  /** The moves that shut down the sink's socket. */
  predicate Shuts(m: Move) {
    m.FarEof? || m.FarError? || m.FarCancelled?
  }

  /**
   A socket that is being shut down got everything that was sent, if and only if at that
   moment the far task and the stream hold nothing, the stream has dropped nothing and,
   on the near side, nothing is unread, held or lost. If the near copy ended by Ok, that
   is all on the far side; while it still runs, nothing was lost.
   */
  lemma ShutdownIsCompleteIff(p: Pipe, a: bool, b: bool, m: Move)
    requires PipeOk(p) && CanMove(p, a, b, m) && Shuts(m)
    ensures Moved(p, m).shut && Moved(p, m).sent == p.sent
    ensures Moved(p, m).delivered == p.sent <==>
              p.farBuf == p.wire == p.discarded == [] && p.nearBuf == p.nearLost == p.unread == []
    ensures p.near.Clean? ==> (Moved(p, m).delivered == p.sent <==> p.farBuf == p.wire == [])
    ensures p.near.Copying? ==>
              (Moved(p, m).delivered == p.sent <==> p.farBuf == p.wire == p.nearBuf == p.unread == [])
  {
    BytesAreConserved(p);
    hide NearBytes, FarBytes;
  }

  // ----- fault-free completion -----

  /** Moves of the two copy loops that are not failures. */
  predicate IsCopying(m: Move) {
    m.NearRead? || m.NearWrite? || m.NearEof? || m.FarRead? || m.FarWrite? || m.FarEof?
  }

  /** How much copying is left. */
  function Work(p: Pipe): nat {
    4 * |p.unread| + 3 * |p.nearBuf| + 2 * |p.wire| + |p.farBuf|
    + (if p.near.Copying? then 1 else 0) + (if p.far.Copying? then 1 else 0)
  }

  ghost predicate FaultFree(p: Pipe) {
    PipeOk(p) && p.eof && (p.near.Copying? || p.near.Clean?) && (p.far.Copying? || p.far.Clean?)
  }

  lemma CopyingMakesProgress(p: Pipe, m: Move)
    requires FaultFree(p) && IsCopying(m) && CanMove(p, false, false, m)
    ensures FaultFree(Moved(p, m)) && Work(Moved(p, m)) < Work(p)
    ensures Moved(p, m).sent == p.sent
  {
    MoveKeepsPipe(p, false, false, m);
  }

  lemma CopyingIsNotStuck(p: Pipe) returns (m: Move)
    requires FaultFree(p) && !p.far.Clean?
    ensures IsCopying(m) && CanMove(p, false, false, m)
  {
    if p.near.Copying? {
      m := if p.nearBuf != [] then NearWrite(1) else if p.unread != [] then NearRead(1) else NearEof;
    } else {
      m := if p.farBuf != [] then FarWrite(1) else if p.wire != [] then FarRead(1) else FarEof;
    }
  }

  predicate CanCopy(p: Pipe, ms: seq<Move>)
    decreases |ms|
  {
    ms == [] || (IsCopying(ms[0]) && CanMove(p, false, false, ms[0]) && CanCopy(Moved(p, ms[0]), ms[1..]))
  }

  function Copied(p: Pipe, ms: seq<Move>): Pipe
    requires CanCopy(p, ms)
    decreases |ms|
  {
    if ms == [] then p else Copied(Moved(p, ms[0]), ms[1..])
  }

  /**
   After the source closed, in whatever order the two copy loops run: they make at most
   `Work(p)` moves, and when neither can move any more the whole stream was written to the
   sink's socket and both copies have ended without an error.
   */
  lemma {:induction false} FaultFreeRunsComplete(p: Pipe, ms: seq<Move>)
    requires FaultFree(p) && CanCopy(p, ms)
    ensures |ms| <= Work(p)
    ensures var q := Copied(p, ms);
      (forall m :: IsCopying(m) ==> !CanMove(q, false, false, m)) ==>
        q.near.Clean? && q.far.Clean? && q.shut && q.delivered == p.sent
    decreases |ms|
  {
    if ms == [] {
      if !p.far.Clean? {
        var m := CopyingIsNotStuck(p);
      } else {
        DeliveredIsPrefix(p);
      }
    } else {
      CopyingMakesProgress(p, ms[0]);
      hide FaultFree, Work, IsCopying, CanMove, Moved;
      FaultFreeRunsComplete(Moved(p, ms[0]), ms[1..]);
    }
  }
}
