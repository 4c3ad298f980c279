/**
 Any number of tunnelled TCP connections between one ingress and one egress. Each has a
 pump at either end: two copy tasks that share a stream token, a child of the token of
 the listener (ingress) or of the process (egress). The egress pump starts once the
 target is connected.
 */
module TcpRelay {
  import opened Bytes
  import opened TcpPipe

  datatype Side = Ingress | Egress

  /** Forward: from the origin through the ingress to the target. */
  datatype Dir = Forward | Backward

  /** `ingressToken`, `egressToken`: the stream's own token was cancelled by one of its tasks. */
  datatype Link = Link(forward: Pipe, backward: Pipe, ingressToken: bool, egressToken: bool)

  datatype State = State(links: seq<Link>, ingressParent: bool, egressParent: bool)

  datatype Event =
    | Open
    | Connect(i: nat)
    | ConnectFails(i: nat)
    | On(i: nat, d: Dir, m: Move)
    | CancelParent(side: Side)

  function Init(): State {
    State([], false, false)
  }

  function NearSide(d: Dir): Side {
    if d.Forward? then Ingress else Egress
  }

  function FarSide(d: Dir): Side {
    if d.Forward? then Egress else Ingress
  }

  function PipeOf(l: Link, d: Dir): Pipe {
    if d.Forward? then l.forward else l.backward
  }

  /** The copy task of the pump at `side` that reads its TCP socket. */
  function TcpReader(l: Link, side: Side): Task {
    if side.Ingress? then l.forward.near else l.backward.near
  }

  /** The copy task of the pump at `side` that writes its TCP socket. */
  function TcpWriter(l: Link, side: Side): Task {
    if side.Ingress? then l.backward.far else l.forward.far
  }

  predicate OwnToken(l: Link, side: Side) {
    if side.Ingress? then l.ingressToken else l.egressToken
  }

  predicate Parent(s: State, side: Side) {
    if side.Ingress? then s.ingressParent else s.egressParent
  }

  /** A child token is cancelled with its parent. */
  predicate Token(s: State, l: Link, side: Side) {
    Parent(s, side) || OwnToken(l, side)
  }

  predicate Enabled(s: State, e: Event) {
    match e
    case Open => true
    case CancelParent(_) => true
    case Connect(i) => i < |s.links| && s.links[i].forward.far.Connecting?
    case ConnectFails(i) => i < |s.links| && s.links[i].forward.far.Connecting?
    case On(i, d, m) =>
      i < |s.links| &&
      var l := s.links[i];
      CanMove(PipeOf(l, d), Token(s, l, NearSide(d)), Token(s, l, FarSide(d)), m)
  }

  /** The move cancels the stream token at `side`. */
  predicate Trips(d: Dir, m: Move, side: Side) {
    (m.NearTrip? && side == NearSide(d)) || (m.FarTrip? && side == FarSide(d))
  }

  function MoveLink(l: Link, d: Dir, m: Move): Link
    requires exists a, b :: CanMove(PipeOf(l, d), a, b, m)
  {
    var p := Moved(PipeOf(l, d), m);
    Link(if d.Forward? then p else l.forward, if d.Forward? then l.backward else p,
         l.ingressToken || Trips(d, m, Ingress), l.egressToken || Trips(d, m, Egress))
  }

  function Apply(s: State, e: Event): State
    requires Enabled(s, e)
  {
    match e
    case Open =>
      s.(links := s.links + [Link(Fresh(Copying, Connecting), Fresh(Connecting, Copying), false, false)])
    case CancelParent(side) => if side.Ingress? then s.(ingressParent := true) else s.(egressParent := true)
    case Connect(i) =>
      var l := s.links[i];
      s.(links := s.links[i := l.(forward := l.forward.(far := Copying), backward := l.backward.(near := Copying))])
    case ConnectFails(i) =>
      var l := s.links[i];
      s.(links := s.links[i := l.(forward := l.forward.(far := NeverConnected),
                                  backward := l.backward.(near := NeverConnected, fin := true))])
    case On(i, d, m) => s.(links := s.links[i := MoveLink(s.links[i], d, m)])
  }

  predicate CanRun(s: State, es: seq<Event>)
    decreases |es|
  {
    es == [] || (Enabled(s, es[0]) && CanRun(Apply(s, es[0]), es[1..]))
  }

  function Run(s: State, es: seq<Event>): State
    requires CanRun(s, es)
    decreases |es|
  {
    if es == [] then s else Run(Apply(s, es[0]), es[1..])
  }

  // ----- invariant -----

  /** A stream token is cancelled exactly by the errors of its own pump; a cancelled task has a cause. */
  predicate TasksOk(own: bool, parent: bool, reader: Task, writer: Task) {
    && (own <==> reader.Errored? || writer.Errored?)
    && (reader.Cancelled? || writer.Cancelled? ==> parent || own)
    && (reader.Connecting? <==> writer.Connecting?)
    && (reader.NeverConnected? <==> writer.NeverConnected?)
  }

  ghost predicate PumpOk(s: State, l: Link, side: Side) {
    TasksOk(OwnToken(l, side), Parent(s, side), TcpReader(l, side), TcpWriter(l, side))
  }

  ghost predicate LinkOk(s: State, l: Link) {
    && PipeOk(l.forward) && PipeOk(l.backward)
    && Connected(l.forward.near)
    && PumpOk(s, l, Ingress) && PumpOk(s, l, Egress)
  }

  ghost predicate Inv(s: State) {
    forall i :: 0 <= i < |s.links| ==> LinkOk(s, s.links[i])
  }

  /** How a move may change a task, given whether it trips the token and whether the token is cancelled. */
  predicate Shifts(t: Task, t': Task, trips: bool, token: bool) {
    && (t' != t ==> (t.Copying? || t.Failing?) && Connected(t'))
    && (t'.Errored? <==> t.Errored? || trips)
    && (t'.Cancelled? ==> t.Cancelled? || token)
  }

  lemma NearShifts(p: Pipe, a: bool, b: bool, m: Move)
    requires CanMove(p, a, b, m)
    ensures Shifts(p.near, Moved(p, m).near, m.NearTrip?, a)
  {
    if m.NearEof? || m.NearError? || m.NearTrip? || m.NearCancelled? {
    } else {
      NearStays(p, a, b, m);
    }
  }

  lemma NearStays(p: Pipe, a: bool, b: bool, m: Move)
    requires CanMove(p, a, b, m) && !m.NearEof? && !m.NearError? && !m.NearTrip? && !m.NearCancelled?
    ensures Moved(p, m).near == p.near
  {
  }

  lemma FarStays(p: Pipe, a: bool, b: bool, m: Move)
    requires CanMove(p, a, b, m) && !m.FarEof? && !m.FarError? && !m.FarTrip? && !m.FarCancelled?
    ensures Moved(p, m).far == p.far
  {
  }

  lemma FarShifts(p: Pipe, a: bool, b: bool, m: Move)
    requires CanMove(p, a, b, m)
    ensures Shifts(p.far, Moved(p, m).far, m.FarTrip?, b)
  {
    if m.FarEof? || m.FarError? || m.FarTrip? || m.FarCancelled? {
    } else {
      FarStays(p, a, b, m);
    }
  }

  lemma ShiftsKeepTasks(own: bool, parent: bool, r: Task, r': Task, rTrips: bool, w: Task, w': Task, wTrips: bool)
    requires TasksOk(own, parent, r, w)
    requires Shifts(r, r', rTrips, parent || own) && Shifts(w, w', wTrips, parent || own)
    ensures TasksOk(own || rTrips || wTrips, parent, r', w')
  {
  }

  /** What a move changes in a link. */
  lemma MoveLinkParts(l: Link, d: Dir, m: Move, side: Side)
    requires exists a, b :: CanMove(PipeOf(l, d), a, b, m)
    ensures var p, l' := Moved(PipeOf(l, d), m), MoveLink(l, d, m);
      && OwnToken(l', side) == (OwnToken(l, side) || Trips(d, m, side))
      && TcpReader(l', side) == (if side == NearSide(d) then p.near else TcpReader(l, side))
      && TcpWriter(l', side) == (if side == FarSide(d) then p.far else TcpWriter(l, side))
      && (side == NearSide(d) ==> TcpReader(l, side) == PipeOf(l, d).near)
      && (side == FarSide(d) ==> TcpWriter(l, side) == PipeOf(l, d).far)
  {
    hide CanMove, Moved;
  }

  lemma MoveKeepsPump(s: State, i: nat, d: Dir, m: Move, side: Side)
    requires Enabled(s, On(i, d, m)) && PumpOk(s, s.links[i], side)
    ensures PumpOk(s, MoveLink(s.links[i], d, m), side)
  {
    hide CanMove, Moved, TasksOk, MoveLink, TcpReader, TcpWriter, OwnToken, PipeOf;
    var l, l' := s.links[i], MoveLink(s.links[i], d, m);
    NearShifts(PipeOf(l, d), Token(s, l, NearSide(d)), Token(s, l, FarSide(d)), m);
    FarShifts(PipeOf(l, d), Token(s, l, NearSide(d)), Token(s, l, FarSide(d)), m);
    MoveLinkParts(l, d, m, side);
    hide Enabled;
    if side == NearSide(d) {
      ShiftsKeepTasks(OwnToken(l, side), Parent(s, side), TcpReader(l, side), TcpReader(l', side), m.NearTrip?,
                      TcpWriter(l, side), TcpWriter(l', side), false);
    } else {
      ShiftsKeepTasks(OwnToken(l, side), Parent(s, side), TcpReader(l, side), TcpReader(l', side), false,
                      TcpWriter(l, side), TcpWriter(l', side), m.FarTrip?);
    }
  }

  lemma MoveKeepsLink(s: State, i: nat, d: Dir, m: Move)
    requires Enabled(s, On(i, d, m)) && LinkOk(s, s.links[i])
    ensures LinkOk(s, MoveLink(s.links[i], d, m))
  {
    var l := s.links[i];
    var a, b := Token(s, l, NearSide(d)), Token(s, l, FarSide(d));
    MoveKeepsPipe(PipeOf(l, d), a, b, m);
    NearShifts(PipeOf(l, d), a, b, m);
    MoveKeepsPump(s, i, d, m, Ingress);
    MoveKeepsPump(s, i, d, m, Egress);
    hide PipeOk, CanMove, Moved, PumpOk;
  }

  /** The far end of a pipe starts copying, or gives up before it starts. */
  lemma FarStarts(p: Pipe)
    requires PipeOk(p) && p.far.Connecting?
    ensures PipeOk(p.(far := Copying)) && PipeOk(p.(far := NeverConnected))
  {
  }

  /** The near end of a pipe starts copying, or finishes its stream without a byte. */
  lemma NearStarts(p: Pipe)
    requires PipeOk(p) && p.near.Connecting?
    ensures PipeOk(p.(near := Copying)) && PipeOk(p.(near := NeverConnected, fin := true))
  {
  }

  lemma ConnectKeepsLink(s: State, i: nat)
    requires Enabled(s, Connect(i)) && LinkOk(s, s.links[i])
    ensures LinkOk(s, Apply(s, Connect(i)).links[i])
    ensures LinkOk(s, Apply(s, ConnectFails(i)).links[i])
  {
    var l := s.links[i];
    hide PipeOk;
    FarStarts(l.forward);
    NearStarts(l.backward);
  }

  lemma ParentsKeep(s: State, s': State, l: Link)
    requires LinkOk(s, l)
    requires s.ingressParent ==> s'.ingressParent
    requires s.egressParent ==> s'.egressParent
    ensures LinkOk(s', l)
  {
    hide PipeOk;
  }

  lemma OpenLinkOk(s: State)
    ensures LinkOk(s, Apply(s, Open).links[|s.links|])
  {
  }

  lemma StepKeepsInv(s: State, e: Event)
    requires Inv(s) && Enabled(s, e)
    ensures Inv(Apply(s, e))
  {
    hide LinkOk, CanMove, Moved;
    var s' := Apply(s, e);
    OpenLinkOk(s);
    match e {
      case On(i, d, m) => MoveKeepsLink(s, i, d, m);
      case Connect(i) => ConnectKeepsLink(s, i);
      case ConnectFails(i) => ConnectKeepsLink(s, i);
      case _ =>
    }
    forall j | 0 <= j < |s'.links| ensures LinkOk(s', s'.links[j]) {
      assert LinkOk(s, s'.links[j]);
      ParentsKeep(s, s', s'.links[j]);
    }
  }

  lemma {:induction false} RunKeepsInv(s: State, es: seq<Event>)
    requires Inv(s) && CanRun(s, es)
    ensures Inv(Run(s, es))
    decreases |es|
  {
    hide Inv, Apply, Enabled;
    if es == [] {
    } else {
      StepKeepsInv(s, es[0]);
      RunKeepsInv(Apply(s, es[0]), es[1..]);
    }
  }

  // ----- every run -----

  /**
   In every run, for every connection: what was written to either sink's socket is a
   prefix of what its source sent, every other byte is on its way or was lost at a known
   place, in order, and all was written exactly if there is no such byte; while both
   tasks of a direction copy nothing is lost. If the copy to the target ended by Ok, everything was written and
   the origin had closed; if the copy to the origin ended by Ok, everything was written
   and the target had closed, or the target was never connected and nothing was written.
   */
  lemma RelayIntegrity(es: seq<Event>, i: nat)
    requires CanRun(Init(), es) && i < |Run(Init(), es).links|
    ensures var l := Run(Init(), es).links[i];
      && (forall d ::
            var p := PipeOf(l, d);
            && p.delivered <= p.sent
            && p.delivered + p.farBuf + p.farLost + p.wire + p.discarded + p.nearBuf + p.nearLost + p.unread == p.sent
            && (p.delivered == p.sent <==> NothingMissing(p))
            && |p.nearBuf| <= 65536 && |p.farBuf| <= 65536
            && (p.near.Copying? && p.far.Copying? ==>
                  p.delivered + p.farBuf + p.wire + p.nearBuf + p.unread == p.sent)
            && (p.fin ==> p.written == p.sent && (p.eof || p.near.NeverConnected?)))
      && (l.forward.far.Clean? ==> l.forward.eof && l.forward.delivered == l.forward.sent)
      && (l.backward.far.Clean? ==>
            && l.backward.delivered == l.backward.sent
            && (l.backward.eof || (l.backward.near.NeverConnected? && l.backward.delivered == [])))
  {
    RunKeepsInv(Init(), es);
    var l := Run(Init(), es).links[i];
    assert LinkOk(Run(Init(), es), l);
    hide Run, CanRun, PipeOk;
    forall d ensures PipeOk(PipeOf(l, d)) {
    }
    BytesAreConserved(l.forward);
    BytesAreConserved(l.backward);
    DeliveredIsPrefix(l.forward);
    DeliveredIsPrefix(l.backward);
    hide NothingMissing;
  }

  /**
   In every run, whichever way a copy to a socket stops and shuts the socket down: all
   that was sent has been written to it, if and only if at that moment neither copy nor
   the stream holds a byte, the source's socket holds none, and none was lost before.
   */
  lemma ShutSocketIsCompleteIff(es: seq<Event>, i: nat, d: Dir, m: Move)
    requires CanRun(Init(), es) && Enabled(Run(Init(), es), On(i, d, m)) && Shuts(m)
    ensures var p := PipeOf(Run(Init(), es).links[i], d);
      var q := PipeOf(Apply(Run(Init(), es), On(i, d, m)).links[i], d);
      && q.shut && q.sent == p.sent
      && (q.delivered == q.sent <==>
            p.farBuf == p.wire == p.discarded == [] && p.nearBuf == p.nearLost == p.unread == [])
      && (p.near.Clean? ==> (q.delivered == q.sent <==> p.farBuf == p.wire == []))
      && (p.near.Copying? ==> (q.delivered == q.sent <==> p.farBuf == p.wire == p.nearBuf == p.unread == []))
  {
    RunKeepsInv(Init(), es);
    var s := Run(Init(), es);
    var l := s.links[i];
    assert LinkOk(s, l);
    hide Run, CanRun, PipeOk;
    ShutdownIsCompleteIff(PipeOf(l, d), Token(s, l, NearSide(d)), Token(s, l, FarSide(d)), m);
  }

  // ----- what the events of a run say -----

  /** Something that happens at most once in a direction of a connection. */
  datatype Mark =
    | SourceClosed
    | NearFailed | NearErrored | NearWasCancelled | NearFinished
    | FarFailed | FarErrored | FarWasCancelled | FarFinished

  predicate PipeMarked(p: Pipe, k: Mark) {
    match k
    case SourceClosed => p.eof
    case NearFailed => p.near.Failing? || p.near.Errored?
    case NearErrored => p.near.Errored?
    case NearWasCancelled => p.near.Cancelled?
    case NearFinished => p.near.Clean?
    case FarFailed => p.far.Failing? || p.far.Errored?
    case FarErrored => p.far.Errored?
    case FarWasCancelled => p.far.Cancelled?
    case FarFinished => p.far.Clean?
  }

  predicate Marked(s: State, i: nat, d: Dir, k: Mark) {
    i < |s.links| && PipeMarked(PipeOf(s.links[i], d), k)
  }

  /** The one move that does it. */
  function MoveOf(k: Mark): Move {
    match k
    case SourceClosed => Close
    case NearFailed => NearError
    case NearErrored => NearTrip
    case NearWasCancelled => NearCancelled
    case NearFinished => NearEof
    case FarFailed => FarError
    case FarErrored => FarTrip
    case FarWasCancelled => FarCancelled
    case FarFinished => FarEof
  }

  function Cause(i: nat, d: Dir, k: Mark): Event {
    On(i, d, MoveOf(k))
  }

  lemma MoveMarks(p: Pipe, a: bool, b: bool, m: Move, k: Mark)
    requires CanMove(p, a, b, m)
    ensures PipeMarked(Moved(p, m), k) <==> PipeMarked(p, k) || m == MoveOf(k)
  {
  }

  /** What an event makes of one direction of a connection. */
  lemma PipeAfter(s: State, e: Event, i: nat, d: Dir)
    requires Enabled(s, e) && i < |s.links|
    ensures i < |Apply(s, e).links|
    ensures var p := PipeOf(s.links[i], d);
      PipeOf(Apply(s, e).links[i], d) ==
        if e.On? && e.i == i && e.d == d then Moved(p, e.m)
        else if e == Connect(i) then (if d.Forward? then p.(far := Copying) else p.(near := Copying))
        else if e == ConnectFails(i) then
          (if d.Forward? then p.(far := NeverConnected) else p.(near := NeverConnected, fin := true))
        else p
  {
    hide CanMove, Moved;
  }

  lemma NewLink(s: State, e: Event, i: nat, d: Dir)
    requires Enabled(s, e) && |s.links| <= i < |Apply(s, e).links|
    ensures e == Open
    ensures PipeOf(Apply(s, e).links[i], d) ==
      if d.Forward? then Fresh(Copying, Connecting) else Fresh(Connecting, Copying)
  {
    hide CanMove, Moved;
  }

  /** Both tasks of the egress wait for the target. */
  lemma EgressWaits(s: State, i: nat)
    requires Inv(s) && i < |s.links| && s.links[i].forward.far.Connecting?
    ensures s.links[i].backward.near.Connecting?
  {
    assert LinkOk(s, s.links[i]);
    hide PipeOk;
  }

  /** Starting or giving up marks nothing. */
  lemma StartMarks(p: Pipe, k: Mark)
    ensures p.far.Connecting? ==>
      PipeMarked(p.(far := Copying), k) == PipeMarked(p.(far := NeverConnected), k) == PipeMarked(p, k)
    ensures p.near.Connecting? ==>
      PipeMarked(p.(near := Copying), k) == PipeMarked(p.(near := NeverConnected, fin := true), k) == PipeMarked(p, k)
  {
  }

  lemma FreshMarks(k: Mark)
    ensures !PipeMarked(Fresh(Copying, Connecting), k) && !PipeMarked(Fresh(Connecting, Copying), k)
  {
  }

  lemma StepMarks(s: State, e: Event, i: nat, d: Dir, k: Mark)
    requires Inv(s) && Enabled(s, e)
    ensures Marked(Apply(s, e), i, d, k) <==> Marked(s, i, d, k) || e == Cause(i, d, k)
  {
    hide Apply, CanMove, Moved, MoveOf, Inv, PipeMarked, Fresh;
    if i < |s.links| {
      var l := s.links[i];
      PipeAfter(s, e, i, d);
      if e.On? && e.i == i && e.d == d {
        MoveMarks(PipeOf(l, d), Token(s, l, NearSide(d)), Token(s, l, FarSide(d)), e.m, k);
      } else if e == Connect(i) || e == ConnectFails(i) {
        EgressWaits(s, i);
        StartMarks(PipeOf(l, d), k);
      }
    } else if i < |Apply(s, e).links| {
      NewLink(s, e, i, d);
      FreshMarks(k);
    }
  }

  lemma {:induction false} RunMarks(s: State, es: seq<Event>, i: nat, d: Dir, k: Mark)
    requires Inv(s) && CanRun(s, es)
    ensures Marked(Run(s, es), i, d, k) <==> Marked(s, i, d, k) || Cause(i, d, k) in es
    decreases |es|
  {
    hide Inv, Apply, Enabled, Marked, Cause;
    if es == [] {
    } else {
      StepMarks(s, es[0], i, d, k);
      StepKeepsInv(s, es[0]);
      assert es == [es[0]] + es[1..];
      RunMarks(Apply(s, es[0]), es[1..], i, d, k);
    }
  }

  lemma {:induction false} RunParents(s: State, es: seq<Event>, side: Side)
    requires CanRun(s, es)
    ensures Parent(Run(s, es), side) <==> Parent(s, side) || CancelParent(side) in es
    decreases |es|
  {
    if es == [] {
    } else {
      assert Parent(Apply(s, es[0]), side) <==> Parent(s, side) || es[0] == CancelParent(side);
      hide Apply, Enabled, Parent;
      assert es == [es[0]] + es[1..];
      RunParents(Apply(s, es[0]), es[1..], side);
    }
  }

  /** What the source of a direction wrote, in order. */
  function WrittenIn(es: seq<Event>, i: nat, d: Dir): seq<byte> {
    if es == [] then []
    else (if es[0].On? && es[0].i == i && es[0].d == d && es[0].m.Write? then es[0].m.bytes else [])
         + WrittenIn(es[1..], i, d)
  }

  function SentOf(s: State, i: nat, d: Dir): seq<byte> {
    if i < |s.links| then PipeOf(s.links[i], d).sent else []
  }

  lemma {:induction false} RunSent(s: State, es: seq<Event>, i: nat, d: Dir)
    requires CanRun(s, es)
    ensures SentOf(Run(s, es), i, d) == SentOf(s, i, d) + WrittenIn(es, i, d)
    decreases |es|
  {
    hide Apply, Enabled, SentOf;
    if es == [] {
    } else {
      StepSent(s, es[0], i, d);
      RunSent(Apply(s, es[0]), es[1..], i, d);
      var first := if es[0].On? && es[0].i == i && es[0].d == d && es[0].m.Write? then es[0].m.bytes else [];
      assert SentOf(s, i, d) + first + WrittenIn(es[1..], i, d) == SentOf(s, i, d) + WrittenIn(es, i, d);
    }
  }

  lemma StepSent(s: State, e: Event, i: nat, d: Dir)
    requires Enabled(s, e)
    ensures SentOf(Apply(s, e), i, d) ==
      SentOf(s, i, d) + if e.On? && e.i == i && e.d == d && e.m.Write? then e.m.bytes else []
  {
    if i < |s.links| {
      PipeAfter(s, e, i, d);
      if e.On? && e.i == i && e.d == d {
        MoveSent(PipeOf(s.links[i], d), Token(s, s.links[i], NearSide(d)), Token(s, s.links[i], FarSide(d)), e.m);
      }
      hide Apply, CanMove, Moved;
      assert SentOf(s, i, d) + [] == SentOf(s, i, d);
    } else {
      if i < |Apply(s, e).links| {
        NewLink(s, e, i, d);
      }
      hide Apply, CanMove, Moved;
    }
  }

  lemma MoveSent(p: Pipe, a: bool, b: bool, m: Move)
    requires CanMove(p, a, b, m)
    ensures Moved(p, m).sent == p.sent + if m.Write? then m.bytes else []
  {
    assert p.sent + [] == p.sent;
  }

  /** The egress has connected to its target, or has given up. */
  predicate TargetMarked(s: State, i: nat, connected: bool) {
    i < |s.links| &&
    if connected then Connected(s.links[i].forward.far) else s.links[i].forward.far.NeverConnected?
  }

  lemma StepTarget(s: State, e: Event, i: nat, connected: bool)
    requires Enabled(s, e)
    ensures TargetMarked(Apply(s, e), i, connected) <==>
      TargetMarked(s, i, connected) || e == if connected then Connect(i) else ConnectFails(i)
  {
    if i < |s.links| {
      PipeAfter(s, e, i, Forward);
      if e.On? && e.i == i && e.d == Forward {
        FarShifts(s.links[i].forward, Token(s, s.links[i], Ingress), Token(s, s.links[i], Egress), e.m);
      }
      hide Apply, CanMove, Moved;
    } else {
      if i < |Apply(s, e).links| {
        NewLink(s, e, i, Forward);
      }
      hide Apply, CanMove, Moved;
    }
  }

  lemma {:induction false} RunTarget(s: State, es: seq<Event>, i: nat, connected: bool)
    requires CanRun(s, es)
    ensures TargetMarked(Run(s, es), i, connected) <==>
      TargetMarked(s, i, connected) || (if connected then Connect(i) else ConnectFails(i)) in es
    decreases |es|
  {
    hide Apply, Enabled, TargetMarked;
    if es == [] {
    } else {
      StepTarget(s, es[0], i, connected);
      assert es == [es[0]] + es[1..];
      RunTarget(Apply(s, es[0]), es[1..], i, connected);
    }
  }

  /** The direction whose bytes the pump at `side` reads from its TCP socket, and the one it writes. */
  function ReaderDir(side: Side): Dir {
    if side.Ingress? then Forward else Backward
  }

  function WriterDir(side: Side): Dir {
    if side.Ingress? then Backward else Forward
  }

  /** A task of the pump at `side` of connection `i` failed and cancelled the stream token. */
  predicate TripsIn(es: seq<Event>, i: nat, side: Side) {
    On(i, ReaderDir(side), NearTrip) in es || On(i, WriterDir(side), FarTrip) in es
  }

  /**
   The stages of a connection are the events of the run: every way a copy ends or fails,
   the connection to the target, the close of the source, the bytes it wrote, and the
   cancel of a parent token. A copy cancels its stream token only after it failed.
   */
  lemma StagesAreEvents(es: seq<Event>, i: nat, d: Dir)
    requires CanRun(Init(), es) && i < |Run(Init(), es).links|
    ensures var s := Run(Init(), es);
      && (forall k :: Marked(s, i, d, k) <==> Cause(i, d, k) in es)
      && (forall side :: Parent(s, side) <==> CancelParent(side) in es)
      && (Connected(s.links[i].forward.far) <==> Connect(i) in es)
      && (s.links[i].forward.far.NeverConnected? <==> ConnectFails(i) in es)
      && PipeOf(s.links[i], d).sent == WrittenIn(es, i, d)
      && (On(i, d, NearTrip) in es ==> On(i, d, NearError) in es)
      && (On(i, d, FarTrip) in es ==> On(i, d, FarError) in es)
  {
    var s := Run(Init(), es);
    forall k ensures Marked(s, i, d, k) <==> Cause(i, d, k) in es {
      RunMarks(Init(), es, i, d, k);
    }
    assert Marked(s, i, d, NearErrored) ==> Marked(s, i, d, NearFailed);
    assert Marked(s, i, d, FarErrored) ==> Marked(s, i, d, FarFailed);
    assert Cause(i, d, NearErrored) == On(i, d, NearTrip) && Cause(i, d, NearFailed) == On(i, d, NearError);
    assert Cause(i, d, FarErrored) == On(i, d, FarTrip) && Cause(i, d, FarFailed) == On(i, d, FarError);
    RunParents(Init(), es, Ingress);
    RunParents(Init(), es, Egress);
    RunTarget(Init(), es, i, true);
    RunTarget(Init(), es, i, false);
    RunSent(Init(), es, i, d);
    assert [] + WrittenIn(es, i, d) == WrittenIn(es, i, d);
    hide Run, CanRun, Marked, WrittenIn, Cause;
    forall side ensures Parent(s, side) <==> CancelParent(side) in es {
      assert side == Ingress || side == Egress;
    }
  }

  // ----- cancellation -----

  /** A task that has not ended but can leave right now. */
  predicate CanLeave(s: State, i: nat, d: Dir, near: bool)
    requires i < |s.links|
  {
    var p := PipeOf(s.links[i], d);
    var t := if near then p.near else p.far;
    || (t.Copying? && Enabled(s, On(i, d, if near then NearCancelled else FarCancelled)))
    || (t.Failing? && Enabled(s, On(i, d, if near then NearTrip else FarTrip)))
  }

  predicate HasEnded(t: Task) {
    t.Clean? || t.Errored? || t.Cancelled? || t.NeverConnected?
  }

  /** A token that the tasks of a pump listen to is cancelled by its parent or by the pump itself. */
  lemma TokenLetsGo(s: State, i: nat, d: Dir)
    requires Inv(s) && i < |s.links|
    ensures var l := s.links[i];
      && (Token(s, l, NearSide(d)) ==>
            HasEnded(PipeOf(l, d).near) || PipeOf(l, d).near.Connecting? || CanLeave(s, i, d, true))
      && (Token(s, l, FarSide(d)) ==>
            HasEnded(PipeOf(l, d).far) || PipeOf(l, d).far.Connecting? || CanLeave(s, i, d, false))
      && (PipeOf(l, d).near.Failing? ==> CanLeave(s, i, d, true))
      && (PipeOf(l, d).far.Failing? ==> CanLeave(s, i, d, false))
      && (forall side :: OwnToken(l, side) <==> TcpReader(l, side).Errored? || TcpWriter(l, side).Errored?)
      && (forall side :: TcpReader(l, side).Cancelled? || TcpWriter(l, side).Cancelled? ==>
            Parent(s, side) || OwnToken(l, side))
  {
    assert LinkOk(s, s.links[i]);
    hide PipeOk, Moved;
    forall side
      ensures PumpOk(s, s.links[i], side)
    {
      assert side == Ingress || side == Egress;
    }
  }

  /** The stream token of a pump is cancelled exactly by the errors of its own tasks. */
  lemma OwnTokenIff(es: seq<Event>, i: nat, side: Side)
    requires CanRun(Init(), es) && i < |Run(Init(), es).links|
    ensures OwnToken(Run(Init(), es).links[i], side) <==> TripsIn(es, i, side)
  {
    RunKeepsInv(Init(), es);
    var s := Run(Init(), es);
    TokenLetsGo(s, i, Forward);
    RunMarks(Init(), es, i, ReaderDir(side), NearErrored);
    RunMarks(Init(), es, i, WriterDir(side), FarErrored);
    hide Run, CanRun, Inv;
    assert Marked(s, i, ReaderDir(side), NearErrored) <==> TcpReader(s.links[i], side).Errored?;
    assert Marked(s, i, WriterDir(side), FarErrored) <==> TcpWriter(s.links[i], side).Errored?;
  }

  /**
   Cancellation closes a pump: after either of its tasks failed and cancelled the stream
   token, or after a cancel of its parent, each task of the pump has ended or can leave,
   unless the pump has not started. A task that failed has gone on to cancel the token,
   or can do so now.
   */
  lemma CancellationClosesPump(es: seq<Event>, i: nat, d: Dir)
    requires CanRun(Init(), es) && i < |Run(Init(), es).links|
    ensures var s := Run(Init(), es);
      var p := PipeOf(s.links[i], d);
      && (CancelParent(NearSide(d)) in es || TripsIn(es, i, NearSide(d)) ==>
            HasEnded(p.near) || p.near.Connecting? || CanLeave(s, i, d, true))
      && (CancelParent(FarSide(d)) in es || TripsIn(es, i, FarSide(d)) ==>
            HasEnded(p.far) || p.far.Connecting? || CanLeave(s, i, d, false))
      && (On(i, d, NearError) in es ==> On(i, d, NearTrip) in es || Enabled(s, On(i, d, NearTrip)))
      && (On(i, d, FarError) in es ==> On(i, d, FarTrip) in es || Enabled(s, On(i, d, FarTrip)))
  {
    RunKeepsInv(Init(), es);
    var s := Run(Init(), es);
    TokenLetsGo(s, i, d);
    OwnTokenIff(es, i, NearSide(d));
    OwnTokenIff(es, i, FarSide(d));
    StagesAreEvents(es, i, d);
    assert Marked(s, i, d, NearFailed) <==> Cause(i, d, NearFailed) in es;
    assert Marked(s, i, d, NearErrored) <==> Cause(i, d, NearErrored) in es;
    assert Marked(s, i, d, FarFailed) <==> Cause(i, d, FarFailed) in es;
    assert Marked(s, i, d, FarErrored) <==> Cause(i, d, FarErrored) in es;
    hide Run, CanRun, Inv, TripsIn, CanLeave, OwnToken;
  }

  /**
   Every cancel has a cause in its own pump: a task that ended by cancellation had its
   parent cancelled, or a task of the same pump of the same connection failed. So a
   clean end never cancels the other direction, and nothing reaches a sibling.
   */
  lemma CancelHasCause(es: seq<Event>, i: nat, side: Side)
    requires CanRun(Init(), es) && i < |Run(Init(), es).links|
    ensures On(i, ReaderDir(side), NearCancelled) in es || On(i, WriterDir(side), FarCancelled) in es ==>
      CancelParent(side) in es || TripsIn(es, i, side)
  {
    RunKeepsInv(Init(), es);
    var s := Run(Init(), es);
    TokenLetsGo(s, i, Forward);
    OwnTokenIff(es, i, side);
    RunParents(Init(), es, side);
    RunMarks(Init(), es, i, ReaderDir(side), NearWasCancelled);
    RunMarks(Init(), es, i, WriterDir(side), FarWasCancelled);
    hide Run, CanRun, Inv, TripsIn;
    assert Marked(s, i, ReaderDir(side), NearWasCancelled) <==> TcpReader(s.links[i], side).Cancelled?;
    assert Marked(s, i, WriterDir(side), FarWasCancelled) <==> TcpWriter(s.links[i], side).Cancelled?;
  }

  /**
   In every run a copy that runs can fail, can read up to 65536 bytes at a time and can
   write all that it has read; a source that has not closed can write and close; a stream
   that was reset can drop what it holds; the target can be reached or not.
   */
  lemma PumpsCanGoOn(es: seq<Event>, i: nat, d: Dir)
    requires CanRun(Init(), es) && i < |Run(Init(), es).links|
    ensures var s := Run(Init(), es);
      var p := PipeOf(s.links[i], d);
      && (p.near.Copying? ==> Enabled(s, On(i, d, NearError)))
      && (p.far.Copying? ==> Enabled(s, On(i, d, FarError)))
      && (p.reset ==>
            Enabled(s, On(i, d, Discard)) && PipeOf(Apply(s, On(i, d, Discard)).links[i], d).wire == [])
      && (Connected(p.near) && !p.eof ==>
            Enabled(s, On(i, d, Close)) && forall bytes :: Enabled(s, On(i, d, Write(bytes))))
      && (p.near.Copying? && p.nearBuf == [] && p.unread != [] ==>
            Enabled(s, On(i, d, NearRead(if |p.unread| < 65536 then |p.unread| else 65536))))
      && (p.near.Copying? && p.nearBuf != [] ==> Enabled(s, On(i, d, NearWrite(|p.nearBuf|))))
      && (p.far.Copying? && p.farBuf != [] ==> Enabled(s, On(i, d, FarWrite(|p.farBuf|))))
      && (p.far.Copying? && p.farBuf == [] && p.wire != [] ==>
            Enabled(s, On(i, d, FarRead(if |p.wire| < 65536 then |p.wire| else 65536))))
      && (p.far.Connecting? && d.Forward? ==> Enabled(s, Connect(i)) && Enabled(s, ConnectFails(i)))
  {
  }

  lemma Prepend(s: State, e: Event, es: seq<Event>)
    requires Enabled(s, e) && CanRun(Apply(s, e), es)
    ensures CanRun(s, [e] + es) && Run(s, [e] + es) == Run(Apply(s, e), es)
  {
    hide Apply, Enabled;
    assert ([e] + es)[1..] == es;
  }

  /**
   A socket that is shut down does not prove completeness: an error of the copy and a
   cancel of the egress process shut it down too.
   */
  lemma CleanShutdownProvesNothing(b: byte, cancel: bool) returns (es: seq<Event>)
    ensures CanRun(Init(), es) && |Run(Init(), es).links| == 1
    ensures var p := Run(Init(), es).links[0].forward;
      p.shut && p.sent == [b] && p.delivered == [] && p.far == if cancel then Cancelled else Failing
  {
    var write := On(0, Forward, Write([b]));
    var s1 := Apply(Init(), Open);
    var s2 := Apply(s1, Connect(0));
    var s3 := Apply(s2, write);
    var rest := TargetGetsNothing(s3, cancel);
    assert s3.links[0].forward.sent == [b] && s3.links[0].forward.delivered == [];
    hide Apply, Enabled, Run, CanRun;
    Prepend(s2, write, rest);
    Prepend(s1, Connect(0), [write] + rest);
    Prepend(Init(), Open, [Connect(0)] + ([write] + rest));
    es := [Open] + ([Connect(0)] + ([write] + rest));
  }

  lemma TargetGetsNothing(s: State, cancel: bool) returns (es: seq<Event>)
    requires |s.links| == 1 && s.links[0].forward.far.Copying?
    ensures CanRun(s, es) && |Run(s, es).links| == 1
    ensures var p, q := s.links[0].forward, Run(s, es).links[0].forward;
      q.shut && q.sent == p.sent && q.delivered == p.delivered && q.far == if cancel then Cancelled else Failing
  {
    if cancel {
      var stop := On(0, Forward, FarCancelled);
      var s1 := Apply(s, CancelParent(Egress));
      var s2 := Apply(s1, stop);
      assert CanRun(s2, []) && Run(s2, []) == s2;
      Prepend(s1, stop, []);
      Prepend(s, CancelParent(Egress), [stop] + []);
      es := [CancelParent(Egress)] + ([stop] + []);
    } else {
      var stop := On(0, Forward, FarError);
      var s1 := Apply(s, stop);
      assert CanRun(s1, []) && Run(s1, []) == s1;
      Prepend(s, stop, []);
      es := [stop] + [];
    }
  }
}
