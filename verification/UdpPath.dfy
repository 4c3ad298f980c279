/**
 One tunnel end to end: the ingress that reads datagrams from the public socket, a
 lossy and reordering datagram channel in each direction, and the egress sessions.
 Origins are told apart by the address on the wire. The ingress listens on an IPv4
 socket, so there it is the whole address.
 */
module UdpPath {
  import opened Bytes
  import opened Datagrams
  import opened Subsequences
  import S = UdpSessions
  import C = UdpConservation

  datatype State = State(
    up: multiset<seq<byte>>,                 // datagrams on their way to the egress
    egress: S.State,
    down: multiset<seq<byte>>,               // datagrams on their way back
    sent: seq<(SocketAddr, seq<byte>)>,      // what origins sent into this tunnel, by wire address
    delivered: seq<(SocketAddr, seq<byte>)>) // what the ingress sent back to origins

  datatype Event =
    | Send(from: SocketAddr, buffer: seq<byte>, size: nat)
    | LoseUp(datagram: seq<byte>)
    | LoseDown(datagram: seq<byte>)
    | Arrive(datagram: seq<byte>)
    | Egress(e: S.Event)
    | Reply(i: nat, buffer: seq<byte>, size: nat)
    | Deliver(datagram: seq<byte>)

  function Init(): State {
    State(multiset{}, S.Init(), multiset{}, [], [])
  }

  predicate Enabled(s: State, e: Event) {
    match e
    case Send(_, buffer, size) => size <= |buffer|
    case LoseUp(d) => d in s.up
    case LoseDown(d) => d in s.down
    case Arrive(d) =>
      && d in s.up
      && (var r := Extract(d); r.Origin? ==> S.Enabled(s.egress, S.Arrive(r.addr, r.payload)))
    case Egress(x) => !x.Arrive? && !x.Reply? && S.Enabled(s.egress, x)
    case Reply(i, buffer, size) => size <= |buffer| && S.Enabled(s.egress, S.Reply(i, buffer[..size]))
    case Deliver(d) => d in s.down
  }

  function Apply(s: State, e: Event): State
    requires Enabled(s, e)
  {
    match e
    case Send(from, buffer, size) =>
      s.(up := s.up + multiset{ToDatagram(from, buffer, size).value},
         sent := s.sent + [(WireAddr(from), buffer[..size])])
    case LoseUp(d) => s.(up := s.up - multiset{d})
    case LoseDown(d) => s.(down := s.down - multiset{d})
    case Arrive(d) =>
      var s', r := s.(up := s.up - multiset{d}), Extract(d);
      if r.Origin? then s'.(egress := S.Apply(s.egress, S.Arrive(r.addr, r.payload))) else s'
    case Egress(x) => s.(egress := S.Apply(s.egress, x))
    case Reply(i, buffer, size) =>
      s.(egress := S.Apply(s.egress, S.Reply(i, buffer[..size])),
         down := s.down + multiset{ToDatagram(s.egress.sessions[i].origin, buffer, size).value})
    case Deliver(d) =>
      var s', r := s.(down := s.down - multiset{d}), Extract(d);
      if r.Origin? then s'.(delivered := s.delivered + [(r.addr, r.payload)]) else s'
  }

  predicate CanRun(s: State, es: seq<Event>)
    decreases |es|
  {
    es == [] || (Enabled(s, es[0]) && CanRun(Apply(s, es[0]), es[1..]))
  }

  function Run(s: State, es: seq<Event>): State
    requires CanRun(s, es)
    decreases |es|
  {
    if es == [] then s else Run(Apply(s, es[0]), es[1..])
  }

  // ----- what the events of a run say -----

  /** What origins sent into the tunnel, in order. */
  function SentIn(es: seq<Event>): seq<(SocketAddr, seq<byte>)> {
    if es == [] then []
    else
      var e := es[0];
      (if e.Send? && e.size <= |e.buffer| then [(WireAddr(e.from), e.buffer[..e.size])] else []) + SentIn(es[1..])
  }

  /** The datagrams that the channel to the egress lost. */
  function LostUp(es: seq<Event>): multiset<seq<byte>> {
    if es == [] then multiset{}
    else (if es[0].LoseUp? then multiset{es[0].datagram} else multiset{}) + LostUp(es[1..])
  }

  /** The datagrams that the channel back lost. */
  function LostDown(es: seq<Event>): multiset<seq<byte>> {
    if es == [] then multiset{}
    else (if es[0].LoseDown? then multiset{es[0].datagram} else multiset{}) + LostDown(es[1..])
  }

  /** The steps of the egress. */
  function EgressSteps(e: Event): seq<S.Event> {
    match e
    case Arrive(d) =>
      if Extract(d).Origin? then [S.Arrive(Extract(d).addr, Extract(d).payload)] else []
    case Egress(x) => [x]
    case Reply(i, buffer, size) => if size <= |buffer| then [S.Reply(i, buffer[..size])] else []
    case _ => []
  }

  function EgressRun(es: seq<Event>): seq<S.Event> {
    if es == [] then [] else EgressSteps(es[0]) + EgressRun(es[1..])
  }

  lemma EgressStep(s: State, e: Event)
    requires Enabled(s, e)
    ensures S.CanRun(s.egress, EgressSteps(e))
    ensures Apply(s, e).egress == S.Run(s.egress, EgressSteps(e))
    ensures Apply(s, e).sent == s.sent + SentIn([e])
  {
    hide S.Apply, S.Enabled, Extract, Header;
    var xs := EgressSteps(e);
    if xs != [] {
      assert xs == [xs[0]] + [];
      C.RunNothing(S.Apply(s.egress, xs[0]));
      C.Prepend(s.egress, xs[0], []);
    } else {
      C.RunNothing(s.egress);
    }
    assert SentIn([e][1..]) == [];
  }

  /** The egress of a path runs as the session machine does, and `sent` is what the Send events say. */
  lemma {:induction false} PathRuns(s: State, es: seq<Event>)
    requires CanRun(s, es)
    ensures S.CanRun(s.egress, EgressRun(es))
    ensures Run(s, es).egress == S.Run(s.egress, EgressRun(es))
    ensures Run(s, es).sent == s.sent + SentIn(es)
    decreases |es|
  {
    hide Apply, Enabled, EgressSteps, S.CanRun, S.Run;
    if es == [] {
      C.RunNothing(s.egress);
    } else {
      EgressStep(s, es[0]);
      PathRuns(Apply(s, es[0]), es[1..]);
      C.RunAppend(s.egress, EgressSteps(es[0]), EgressRun(es[1..]));
      assert [es[0]][1..] == [];
      assert SentIn([es[0]]) + SentIn(es[1..]) == SentIn(es);
    }
  }

  // ----- the channels -----

  /** Everything put into a channel, for each address, got out of it, is in it or was lost. */
  ghost predicate Conserved(put: seq<(SocketAddr, seq<byte>)>, channel: multiset<seq<byte>>,
                            lost: multiset<seq<byte>>, got: seq<(SocketAddr, seq<byte>)>)
  {
    && (forall d :: d in channel ==> Extract(d).Origin?)
    && (forall a, p :: WireAddr(a) == a ==>
          multiset(got)[(a, p)] + channel[Header(a) + p] + lost[Header(a) + p] == multiset(put)[(a, p)])
  }

  /** `up` and `down`: what the channels have lost so far. */
  ghost predicate Inv(s: State, up: multiset<seq<byte>>, down: multiset<seq<byte>>) {
    && S.Inv(s.egress)
    && (forall i :: 0 <= i < |s.egress.sessions| ==>
          WireAddr(s.egress.sessions[i].origin) == s.egress.sessions[i].origin)
    && Conserved(s.sent, s.up, up, s.egress.arrived)
    && Conserved(s.egress.replies, s.down, down, s.delivered)
  }

  lemma PutConserves(put: seq<(SocketAddr, seq<byte>)>, channel: multiset<seq<byte>>, lost: multiset<seq<byte>>,
                     got: seq<(SocketAddr, seq<byte>)>, from: SocketAddr, p: seq<byte>)
    requires Conserved(put, channel, lost, got)
    ensures Conserved(put + [(WireAddr(from), p)], channel + multiset{Header(from) + p}, lost, got)
  {
    ExtractHeader(from, p);
    var put', channel' := put + [(WireAddr(from), p)], channel + multiset{Header(from) + p};
    forall a, q | WireAddr(a) == a
      ensures multiset(got)[(a, q)] + channel'[Header(a) + q] + lost[Header(a) + q] == multiset(put')[(a, q)]
    {
      DatagramInjective(a, q, from, p);
      hide Header;
    }
  }

  lemma LoseConserves(put: seq<(SocketAddr, seq<byte>)>, channel: multiset<seq<byte>>, lost: multiset<seq<byte>>,
                      got: seq<(SocketAddr, seq<byte>)>, d: seq<byte>)
    requires Conserved(put, channel, lost, got) && d in channel
    ensures Conserved(put, channel - multiset{d}, lost + multiset{d}, got)
  {
    hide Header, Extract;
  }

  lemma GetConserves(put: seq<(SocketAddr, seq<byte>)>, channel: multiset<seq<byte>>, lost: multiset<seq<byte>>,
                     got: seq<(SocketAddr, seq<byte>)>, d: seq<byte>)
    requires Conserved(put, channel, lost, got) && d in channel
    ensures Conserved(put, channel - multiset{d}, lost, got + [(Extract(d).addr, Extract(d).payload)])
  {
    HeaderOfExtracted(d);
    var b, r := Extract(d).addr, Extract(d).payload;
    var channel', got' := channel - multiset{d}, got + [(b, r)];
    forall a, p | WireAddr(a) == a
      ensures multiset(got')[(a, p)] + channel'[Header(a) + p] + lost[Header(a) + p] == multiset(put)[(a, p)]
    {
      DatagramInjective(a, p, b, r);
      hide Header, Extract;
    }
  }

  /** What an egress step does to the logs this module counts. */
  lemma EgressLogs(s: S.State, e: S.Event)
    requires S.Enabled(s, e)
    ensures S.Apply(s, e).arrived == if e.Arrive? then s.arrived + [(e.origin, e.payload)] else s.arrived
    ensures S.Apply(s, e).replies == if e.Reply? then s.replies + [(s.sessions[e.i].origin, e.payload)] else s.replies
  {
  }

  lemma EgressOrigins(s: S.State, e: S.Event, j: nat)
    requires S.Enabled(s, e) && j < |S.Apply(s, e).sessions|
    ensures j < |s.sessions| ==> S.Apply(s, e).sessions[j].origin == s.sessions[j].origin
    ensures j >= |s.sessions| ==> e.Arrive? && S.Apply(s, e).sessions[j].origin == e.origin
  {
    if S.IsTask(e) {
      S.TaskStepShape(s, e);
    }
    hide S.TaskStep;
  }

  lemma EgressKeeps(s: State, up: multiset<seq<byte>>, down: multiset<seq<byte>>, x: S.Event)
    requires Inv(s, up, down) && S.Enabled(s.egress, x) && (x.Arrive? ==> WireAddr(x.origin) == x.origin)
    ensures S.Inv(S.Apply(s.egress, x))
    ensures forall i :: 0 <= i < |S.Apply(s.egress, x).sessions| ==>
              WireAddr(S.Apply(s.egress, x).sessions[i].origin) == S.Apply(s.egress, x).sessions[i].origin
  {
    hide S.Owned, S.StagesOk, S.Ordered, S.Apply, S.Enabled, Conserved;
    S.StepKeepsOwned(s.egress, x);
    S.StepKeepsStages(s.egress, x);
    S.StepKeepsOrder(s.egress, x);
    forall i: nat | i < |S.Apply(s.egress, x).sessions|
      ensures WireAddr(S.Apply(s.egress, x).sessions[i].origin) == S.Apply(s.egress, x).sessions[i].origin
    {
      EgressOrigins(s.egress, x, i);
    }
  }

  lemma StepKeepsInv(s: State, up: multiset<seq<byte>>, down: multiset<seq<byte>>, e: Event)
    requires Inv(s, up, down) && Enabled(s, e)
    ensures Inv(Apply(s, e), up + LostUp([e]), down + LostDown([e]))
  {
    assert [e][1..] == [];
    assert LostUp([e]) == if e.LoseUp? then multiset{e.datagram} else multiset{};
    assert LostDown([e]) == if e.LoseDown? then multiset{e.datagram} else multiset{};
    hide S.Apply, S.Enabled, S.Inv, Conserved, Extract, Header, LostUp, LostDown;
    assert up + multiset{} == up && down + multiset{} == down;
    match e {
      case Send(from, buffer, size) => PutConserves(s.sent, s.up, up, s.egress.arrived, from, buffer[..size]);
      case LoseUp(d) => LoseConserves(s.sent, s.up, up, s.egress.arrived, d);
      case LoseDown(d) => LoseConserves(s.egress.replies, s.down, down, s.delivered, d);
      case Arrive(d) => ArriveKeepsInv(s, up, down, d);
      case Egress(x) =>
        EgressKeeps(s, up, down, x);
        EgressLogs(s.egress, x);
      case Reply(i, buffer, size) => ReplyKeepsInv(s, up, down, i, buffer, size);
      case Deliver(d) => DeliverKeepsInv(s, up, down, d);
    }
  }

  lemma ArriveKeepsInv(s: State, up: multiset<seq<byte>>, down: multiset<seq<byte>>, d: seq<byte>)
    requires Inv(s, up, down) && Enabled(s, Arrive(d))
    ensures Inv(Apply(s, Arrive(d)), up, down)
  {
    assert Extract(d).Origin?;
    hide S.Apply, S.Enabled, S.Inv, Conserved, Extract, Header;
    HeaderOfExtracted(d);
    var x := S.Arrive(Extract(d).addr, Extract(d).payload);
    GetConserves(s.sent, s.up, up, s.egress.arrived, d);
    EgressKeeps(s, up, down, x);
    EgressLogs(s.egress, x);
  }

  lemma DeliverKeepsInv(s: State, up: multiset<seq<byte>>, down: multiset<seq<byte>>, d: seq<byte>)
    requires Inv(s, up, down) && Enabled(s, Deliver(d))
    ensures Inv(Apply(s, Deliver(d)), up, down)
  {
    assert Extract(d).Origin?;
    hide S.Apply, S.Enabled, S.Inv, Conserved, Extract, Header;
    GetConserves(s.egress.replies, s.down, down, s.delivered, d);
  }

  lemma ReplyKeepsInv(s: State, up: multiset<seq<byte>>, down: multiset<seq<byte>>,
                      i: nat, buffer: seq<byte>, size: nat)
    requires Inv(s, up, down) && Enabled(s, Reply(i, buffer, size))
    ensures Inv(Apply(s, Reply(i, buffer, size)), up, down)
  {
    var x := S.Reply(i, buffer[..size]);
    assert i < |s.egress.sessions|;
    hide S.Apply, S.Enabled, S.Inv, Conserved, Extract, Header;
    EgressKeeps(s, up, down, x);
    EgressLogs(s.egress, x);
    PutConserves(s.egress.replies, s.down, down, s.delivered, s.egress.sessions[i].origin, buffer[..size]);
  }

  lemma {:induction false} RunKeepsInv(s: State, up: multiset<seq<byte>>, down: multiset<seq<byte>>, es: seq<Event>)
    requires Inv(s, up, down) && CanRun(s, es)
    ensures Inv(Run(s, es), up + LostUp(es), down + LostDown(es))
    decreases |es|
  {
    hide Inv, Apply, Enabled;
    if es == [] {
      assert up + LostUp(es) == up && down + LostDown(es) == down;
    } else {
      var e := es[0];
      StepKeepsInv(s, up, down, e);
      RunKeepsInv(Apply(s, e), up + LostUp([e]), down + LostDown([e]), es[1..]);
      assert [e][1..] == [];
      assert up + LostUp([e]) + LostUp(es[1..]) == up + LostUp(es);
      assert down + LostDown([e]) + LostDown(es[1..]) == down + LostDown(es);
    }
  }

  lemma InitOk()
    ensures Inv(Init(), multiset{}, multiset{})
  {
    hide Header, Extract;
  }

  lemma Reached(es: seq<Event>)
    requires CanRun(Init(), es)
    ensures Inv(Run(Init(), es), LostUp(es), LostDown(es))
  {
    hide Inv, Run, CanRun, LostUp, LostDown;
    InitOk();
    RunKeepsInv(Init(), multiset{}, multiset{}, es);
    assert multiset{} + LostUp(es) == LostUp(es) && multiset{} + LostDown(es) == LostDown(es);
  }

  // ----- every run -----

  /**
   Conservation from end to end, in every run and for every origin and payload: what the
   origin sent was handed to its own target socket, is held by a session of that origin,
   was lost by one for a named cause, is on its way, or was lost by the channel; and what
   was read from that socket went back to the origin, is on its way, or was lost.
   */
  lemma PathIsConserved(es: seq<Event>, a: SocketAddr, p: seq<byte>)
    requires CanRun(Init(), es) && WireAddr(a) == a
    ensures S.CanRun(S.Init(), EgressRun(es)) && Run(Init(), es).egress == S.Run(S.Init(), EgressRun(es))
    ensures var s, d, run := Run(Init(), es), Header(a) + p, EgressRun(es);
      && multiset(SentIn(es))[(a, p)] ==
           multiset(s.egress.handed)[(a, p)] + C.Held(s.egress, a, p)
           + C.Lost(S.Init(), run, a, p, C.QueueFull) + C.Lost(S.Init(), run, a, p, C.ReceiverGone)
           + C.Lost(S.Init(), run, a, p, C.QueueDropped) + C.Lost(S.Init(), run, a, p, C.WriteRefused)
           + s.up[d] + LostUp(es)[d]
      && multiset(s.egress.replies)[(a, p)] == multiset(s.delivered)[(a, p)] + s.down[d] + LostDown(es)[d]
  {
    Reached(es);
    PathRuns(Init(), es);
    assert [] + SentIn(es) == SentIn(es);
    C.PayloadsAreConserved(EgressRun(es), a, p);
    hide Run, CanRun, S.Run, S.CanRun, C.Held, C.Lost, LostUp, LostDown, SentIn, EgressRun, Header, Extract, S.Inv;
  }

  /**
   In every run: anyone can send, a datagram on its way can arrive or be lost, and the
   tasks of the egress go on as they do by themselves.
   */
  lemma PathCanGoOn(es: seq<Event>)
    requires CanRun(Init(), es)
    ensures var s := Run(Init(), es);
      && (forall a, buffer, size: nat :: size <= |buffer| ==> Enabled(s, Send(a, buffer, size)))
      && (forall d :: d in s.up ==> Enabled(s, LoseUp(d)))
      && (forall d :: d in s.down ==> Enabled(s, LoseDown(d)))
      && (forall d :: d in s.up && s.egress.loop.Selecting? ==> Enabled(s, Arrive(d)))
      && (forall x :: S.Enabled(s.egress, x) && !x.Arrive? && !x.Reply? ==> Enabled(s, Egress(x)))
  {
    hide Run, CanRun, Conserved, Header, Extract, LostUp, LostDown, S.Inv, S.Enabled;
    Reached(es);
    S.GoOn(Run(Init(), es).egress);
  }

  /** In every run a reply that a task reads can be sent back, with the address of its origin in front. */
  lemma ReplyIsSentBack(es: seq<Event>, i: nat, buffer: seq<byte>, size: nat)
    requires CanRun(Init(), es) && i < |Run(Init(), es).egress.sessions| && size <= |buffer|
    requires Run(Init(), es).egress.sessions[i].reverse.Pumping?
    ensures var s, e := Run(Init(), es), Reply(i, buffer, size);
      && Enabled(s, e)
      && Apply(s, e).down == s.down + multiset{Header(s.egress.sessions[i].origin) + buffer[..size]}
      && Apply(s, e).egress.replies == s.egress.replies + [(s.egress.sessions[i].origin, buffer[..size])]
  {
    hide Run, CanRun, Header;
  }

  /** In every run a datagram on its way back can be delivered, and then it goes to the origin it was read for. */
  lemma ReplyGoesToItsOrigin(es: seq<Event>, a: SocketAddr, p: seq<byte>)
    requires CanRun(Init(), es) && WireAddr(a) == a && Header(a) + p in Run(Init(), es).down
    ensures var s, e := Run(Init(), es), Deliver(Header(a) + p);
      Enabled(s, e) && Apply(s, e).delivered == s.delivered + [(a, p)]
  {
    ExtractHeader(a, p);
  }

  /** Without losses on the way back, once nothing is on its way every reply has reached its own origin. */
  lemma RepliesArrive(es: seq<Event>, a: SocketAddr)
    requires CanRun(Init(), es) && WireAddr(a) == a
    requires (forall e :: e in es ==> !e.LoseDown?) && Run(Init(), es).down == multiset{}
    ensures multiset(For(Run(Init(), es).delivered, a)) == multiset(For(Run(Init(), es).egress.replies, a))
  {
    NoLosses(es);
    var s := Run(Init(), es);
    forall p ensures multiset(s.delivered)[(a, p)] == multiset(s.egress.replies)[(a, p)] {
      PathIsConserved(es, a, p);
    }
    hide Run, CanRun;
    ForMultiset(s.delivered, s.egress.replies, a);
    ForMultiset(s.egress.replies, s.delivered, a);
  }

  lemma {:induction false} NoLosses(es: seq<Event>)
    requires forall e :: e in es ==> !e.LoseDown?
    ensures LostDown(es) == multiset{}
  {
    if es == [] {
    } else {
      NoLosses(es[1..]);
    }
  }

  /**
   Isolation and order, in every run over a channel that loses and reorders: what the
   target socket of origin `a` was handed is a subsequence, in tunnel-arrival order, of
   what arrived for `a`, and all of it was sent by `a`; what went back to `a` was read
   from the socket of `a`. Nothing is duplicated or crosses to another origin.
   */
  lemma OriginsAreIsolated(es: seq<Event>, a: SocketAddr)
    requires CanRun(Init(), es) && WireAddr(a) == a
    ensures var s := Run(Init(), es);
      && Subseq(For(s.egress.handed, a), For(s.egress.arrived, a))
      && multiset(For(s.egress.handed, a)) <= multiset(For(s.egress.arrived, a)) <= multiset(For(SentIn(es), a))
      && multiset(For(s.delivered, a)) <= multiset(For(s.egress.replies, a))
  {
    Reached(es);
    PathRuns(Init(), es);
    assert [] + SentIn(es) == SentIn(es);
    hide Run, CanRun, S.Run, S.CanRun, SentIn, EgressRun, LostUp, LostDown, Extract;
    var s := Run(Init(), es);
    SubseqMultiset(For(s.egress.handed, a), For(s.egress.arrived, a));
    ForMultiset(s.egress.arrived, SentIn(es), a);
    ForMultiset(s.delivered, s.egress.replies, a);
  }
}
