/**
 Where every payload that reached the UDP egress is: handed to its target socket, held
 by a session, or lost for a reason that is named.
 */
module UdpConservation {
  import opened Datagrams
  import opened Subsequences
  import opened UdpSessions

  datatype Cause =
    | QueueFull        // the session's queue held 128 messages
    | ReceiverGone     // the session had ended
    | QueueDropped     // the session ended with the payload in its queue
    | WriteRefused     // the target socket did not take it

  /** How often `p` is lost for `cause` when it is sent to the queue of session `t`. */
  function LostOnSend(t: Session, a: SocketAddr, q: Payload, p: Payload, cause: Cause): nat {
    if t.origin != a || q != p then 0
    else if t.forward.Ended? then (if cause.ReceiverGone? then 1 else 0)
    else if |t.queue| >= 128 then (if cause.QueueFull? then 1 else 0)
    else 0
  }

  /** How often step `e` loses payload `p` of origin `a` for `cause`. */
  function LostAt(s: State, e: Event, a: SocketAddr, p: Payload, cause: Cause): nat
    requires Enabled(s, e)
  {
    match e
    case Arrive(b, q) => if b in s.table then LostOnSend(s.sessions[s.table[b]], a, q, p, cause) else 0
    case Offer => LostOnSend(s.sessions[s.loop.sid], a, s.loop.payload, p, cause)
    case HandOver(i, accepted) =>
      var t := s.sessions[i];
      if !accepted && t.origin == a && t.forward.batch[0] == p && cause.WriteRefused? then 1 else 0
    case SeeCancelled(i) => LostAtEnd(s.sessions[i], a, p, cause)
    case SeeSendersDropped(i) => LostAtEnd(s.sessions[i], a, p, cause)
    case Return(i) => LostAtEnd(s.sessions[i], a, p, cause)
    case _ => 0
  }

  function LostAtEnd(t: Session, a: SocketAddr, p: Payload, cause: Cause): nat {
    if t.origin == a && cause.QueueDropped? then multiset(t.queue)[p] else 0
  }

  /** How often a run loses payload `p` of origin `a` for `cause`. */
  function Lost(s: State, es: seq<Event>, a: SocketAddr, p: Payload, cause: Cause): nat
    requires CanRun(s, es)
    decreases |es|
  {
    if es == [] then 0 else LostAt(s, es[0], a, p, cause) + Lost(Apply(s, es[0]), es[1..], a, p, cause)
  }

  /** How often session `t` holds payload `p` of origin `a`. */
  function CountIn(t: Session, a: SocketAddr, p: Payload): nat {
    if t.origin != a then 0
    else multiset(t.queue)[p] + if t.forward.Running? then multiset(t.forward.batch)[p] else 0
  }

  function CountAll(ts: seq<Session>, a: SocketAddr, p: Payload): nat {
    if ts == [] then 0 else CountAll(ts[..|ts| - 1], a, p) + CountIn(ts[|ts| - 1], a, p)
  }

  /** In all sessions, and on its way to a session that was just spawned. */
  function Held(s: State, a: SocketAddr, p: Payload): nat {
    CountAll(s.sessions, a, p)
    + if s.loop.Spawned? && s.loop.sid < |s.sessions| && s.sessions[s.loop.sid].origin == a && s.loop.payload == p
      then 1 else 0
  }

  lemma {:induction false} CountUpdate(ts: seq<Session>, i: nat, t: Session, a: SocketAddr, p: Payload)
    requires i < |ts|
    ensures CountAll(ts[i := t], a, p) + CountIn(ts[i], a, p) == CountAll(ts, a, p) + CountIn(t, a, p)
  {
    hide CountIn;
    var n := |ts| - 1;
    if i == n {
      assert ts[i := t][..n] == ts[..n];
    } else {
      assert ts[i := t][..n] == ts[..n][i := t];
      CountUpdate(ts[..n], i, t, a, p);
    }
  }

  /** The balance of one origin and payload: what arrived and is not accounted for. */
  function Missing(s: State, a: SocketAddr, p: Payload): int {
    multiset(s.arrived)[(a, p)] - multiset(s.handed)[(a, p)] - Held(s, a, p)
  }

  function LostAtAll(s: State, e: Event, a: SocketAddr, p: Payload): nat
    requires Enabled(s, e)
  {
    LostAt(s, e, a, p, QueueFull) + LostAt(s, e, a, p, ReceiverGone)
    + LostAt(s, e, a, p, QueueDropped) + LostAt(s, e, a, p, WriteRefused)
  }

  /** A session's own step: what it held is held, handed or lost. */
  lemma TaskBalance(s: State, e: Event, a: SocketAddr, p: Payload)
    requires IsTask(e) && Enabled(s, e)
    ensures var t, t' := s.sessions[e.i], TaskStep(s.sessions[e.i], e);
      CountIn(t, a, p) == CountIn(t', a, p) + LostAtAll(s, e, a, p)
        + if e.HandOver? && e.accepted && t.origin == a && t.forward.batch[0] == p then 1 else 0
  {
    var t := s.sessions[e.i];
    match e {
      case Receive(i, n) =>
        hide CountIn;
        ReceiveBalance(t, n, a, p);
      case HandOver(i, accepted) =>
        hide CountIn;
        HandOverBalance(t, a, p);
      case StopReverse(_) =>
        hide LostAtEnd;
      case Return(_) => EndBalance(s, e, a, p);
      case SeeCancelled(_) => EndBalance(s, e, a, p);
      case SeeSendersDropped(_) => EndBalance(s, e, a, p);
      case _ =>
        StageBalance(s, e, a, p);
    }
  }

  /** Opening a socket or announcing the end changes nothing that is held. */
  lemma StageBalance(s: State, e: Event, a: SocketAddr, p: Payload)
    requires Enabled(s, e) && (e.SocketOpened? || e.SocketFailed? || e.GoIdle? || e.SeeClosed?)
    ensures CountIn(TaskStep(s.sessions[e.i], e), a, p) == CountIn(s.sessions[e.i], a, p)
    ensures LostAtAll(s, e, a, p) == 0
  {
  }

  /** A session that ends loses its queue. */
  lemma EndBalance(s: State, e: Event, a: SocketAddr, p: Payload)
    requires Enabled(s, e) && (e.Return? || e.SeeCancelled? || e.SeeSendersDropped?)
    ensures CountIn(s.sessions[e.i], a, p) == CountIn(TaskStep(s.sessions[e.i], e), a, p) + LostAtAll(s, e, a, p)
  {
  }

  lemma ReceiveBalance(t: Session, n: nat, a: SocketAddr, p: Payload)
    requires t.forward == Running([]) && n <= |t.queue|
    ensures CountIn(t.(forward := Running(t.queue[..n]), queue := t.queue[n..]), a, p) == CountIn(t, a, p)
  {
    assert t.queue == t.queue[..n] + t.queue[n..];
  }

  lemma HandOverBalance(t: Session, a: SocketAddr, p: Payload)
    requires t.forward.Running? && t.forward.batch != []
    ensures CountIn(t, a, p) == CountIn(t.(forward := Running(t.forward.batch[1..])), a, p)
      + if t.origin == a && t.forward.batch[0] == p then 1 else 0
  {
    assert t.forward.batch == [t.forward.batch[0]] + t.forward.batch[1..];
  }

  /** Sending to a queue: the payload is held or lost. */
  lemma SendBalance(t: Session, q: Payload, a: SocketAddr, p: Payload)
    ensures CountIn(TrySend(t, q), a, p) + LostOnSend(t, a, q, p, QueueFull) + LostOnSend(t, a, q, p, ReceiverGone)
         == CountIn(t, a, p) + if t.origin == a && q == p then 1 else 0
    ensures LostOnSend(t, a, q, p, QueueDropped) == LostOnSend(t, a, q, p, WriteRefused) == 0
    ensures TrySend(t, q).origin == t.origin
  {
  }

  lemma StepTaskBalance(s: State, e: Event, a: SocketAddr, p: Payload)
    requires IsTask(e) && Enabled(s, e)
    ensures Missing(Apply(s, e), a, p) == Missing(s, a, p) + LostAtAll(s, e, a, p)
  {
    hide Apply, TaskStep, CountIn, CountAll, LostAtAll;
    TaskBalance(s, e, a, p);
    TaskStepShape(s, e);
    TaskFrame(s, e);
    HandedAfter(s, e, a, p);
    CountUpdate(s.sessions, e.i, TaskStep(s.sessions[e.i], e), a, p);
    hide Enabled;
    var s', t := Apply(s, e), s.sessions[e.i];
    assert Held(s', a, p) + CountIn(t, a, p) == Held(s, a, p) + CountIn(TaskStep(t, e), a, p);
    hide Held;
  }

  lemma HandedAfter(s: State, e: Event, a: SocketAddr, p: Payload)
    requires IsTask(e) && Enabled(s, e)
    ensures var t := s.sessions[e.i];
      multiset(Apply(s, e).handed)[(a, p)] == multiset(s.handed)[(a, p)]
        + if e.HandOver? && e.accepted && t.origin == a && t.forward.batch[0] == p then 1 else 0
  {
    hide TaskStep;
  }

  lemma ArriveBalance(s: State, b: SocketAddr, q: Payload, a: SocketAddr, p: Payload)
    requires TableOk(s) && Enabled(s, Arrive(b, q))
    ensures Missing(Apply(s, Arrive(b, q)), a, p) == Missing(s, a, p) + LostAtAll(s, Arrive(b, q), a, p)
  {
    if b in s.table {
      hide CountIn, CountAll, LostOnSend, TrySend;
      var i := s.table[b];
      SendBalance(s.sessions[i], q, a, p);
      CountUpdate(s.sessions, i, TrySend(s.sessions[i], q), a, p);
    } else {
      hide LostOnSend, TableOk, CountIn;
      var s' := Apply(s, Arrive(b, q));
      assert s'.sessions[..|s.sessions|] == s.sessions;
      NewHoldsNothing(s'.sessions[|s.sessions|], a, p);
    }
  }

  lemma NewHoldsNothing(t: Session, a: SocketAddr, p: Payload)
    requires t.queue == [] && t.forward.Opening?
    ensures CountIn(t, a, p) == 0
  {
  }

  lemma OfferBalance(s: State, a: SocketAddr, p: Payload)
    requires Enabled(s, Offer)
    ensures Missing(Apply(s, Offer), a, p) == Missing(s, a, p) + LostAtAll(s, Offer, a, p)
  {
    var i := s.loop.sid;
    SendBalance(s.sessions[i], s.loop.payload, a, p);
    CountUpdate(s.sessions, i, TrySend(s.sessions[i], s.loop.payload), a, p);
    hide CountIn, CountAll, LostOnSend, TrySend;
  }

  lemma StepBalance(s: State, e: Event, a: SocketAddr, p: Payload)
    requires TableOk(s) && Enabled(s, e)
    ensures Missing(Apply(s, e), a, p) == Missing(s, a, p) + LostAtAll(s, e, a, p)
  {
    if IsTask(e) {
      StepTaskBalance(s, e, a, p);
    } else {
      match e {
        case Arrive(b, q) => ArriveBalance(s, b, q, a, p);
        case Offer => OfferBalance(s, a, p);
        case _ => hide CountAll;
      }
    }
  }

  function LostInAll(s: State, es: seq<Event>, a: SocketAddr, p: Payload): nat
    requires CanRun(s, es)
  {
    Lost(s, es, a, p, QueueFull) + Lost(s, es, a, p, ReceiverGone)
    + Lost(s, es, a, p, QueueDropped) + Lost(s, es, a, p, WriteRefused)
  }

  lemma {:induction false} RunBalance(s: State, es: seq<Event>, a: SocketAddr, p: Payload)
    requires Inv(s) && CanRun(s, es)
    ensures Missing(Run(s, es), a, p) == Missing(s, a, p) + LostInAll(s, es, a, p)
    decreases |es|
  {
    if es == [] {
    } else {
      StepBalance(s, es[0], a, p);
      StepKeepsOwned(s, es[0]);
      StepKeepsStages(s, es[0]);
      StepKeepsOrder(s, es[0]);
      hide Owned, StagesOk, Ordered, Apply, Enabled, Missing, LostAt;
      RunBalance(Apply(s, es[0]), es[1..], a, p);
    }
  }

  /**
   Conservation, in every interleaving, for every origin and payload: what arrived was
   handed to the target socket, is held by a session, or was lost; and it was lost only
   to a session that had ended or held 128 messages, with the queue of a session that
   ended, or by a write that the socket refused.
   */
  lemma PayloadsAreConserved(es: seq<Event>, a: SocketAddr, p: Payload)
    requires CanRun(Init(), es)
    ensures var s := Run(Init(), es);
      multiset(s.arrived)[(a, p)] ==
        multiset(s.handed)[(a, p)] + Held(s, a, p)
        + Lost(Init(), es, a, p, QueueFull) + Lost(Init(), es, a, p, ReceiverGone)
        + Lost(Init(), es, a, p, QueueDropped) + Lost(Init(), es, a, p, WriteRefused)
  {
    Reached([]);
    RunBalance(Init(), es, a, p);
    hide Run, CanRun, Lost, Inv;
  }

  /**
   In every interleaving a payload that arrives for an origin in the table goes to the end
   of its session's queue, if and only if that session has not ended and holds fewer than
   128 messages; otherwise the queue stays as it is. No other session changes.
   */
  lemma ArrivalIsKeptIff(es: seq<Event>, a: SocketAddr, p: Payload)
    requires CanRun(Init(), es) && Enabled(Run(Init(), es), Arrive(a, p)) && a in Run(Init(), es).table
    ensures var s, s' := Run(Init(), es), Apply(Run(Init(), es), Arrive(a, p));
      var i := s.table[a];
      var t := s.sessions[i];
      && t.origin == a
      && (t.forward.Ended? || |t.queue| == 128 ==> s'.sessions == s.sessions)
      && (!t.forward.Ended? && |t.queue| < 128 ==> s'.sessions == s.sessions[i := t.(queue := t.queue + [p])])
      && s'.arrived == s.arrived + [(a, p)] && s'.handed == s.handed
  {
    Reached(es);
    QueuesStayBounded(es, Run(Init(), es).table[a]);
  }

  // ----- what is held can be handed over -----

  function HandAll(i: nat, n: nat): seq<Event> {
    if n == 0 then [] else [HandOver(i, true)] + HandAll(i, n - 1)
  }

  function Tagged(a: SocketAddr, ps: seq<Payload>): seq<(SocketAddr, Payload)> {
    if ps == [] then [] else [(a, ps[0])] + Tagged(a, ps[1..])
  }

  lemma {:induction false} RunAppend(s: State, es: seq<Event>, fs: seq<Event>)
    requires CanRun(s, es) && CanRun(Run(s, es), fs)
    ensures CanRun(s, es + fs) && Run(s, es + fs) == Run(Run(s, es), fs)
    decreases |es|
  {
    hide Apply, Enabled;
    if es == [] {
      assert es + fs == fs;
    } else {
      assert (es + fs)[1..] == es[1..] + fs;
      RunAppend(Apply(s, es[0]), es[1..], fs);
    }
  }

  lemma Prepend(s: State, e: Event, es: seq<Event>)
    requires Enabled(s, e) && CanRun(Apply(s, e), es)
    ensures CanRun(s, [e] + es) && Run(s, [e] + es) == Run(Apply(s, e), es)
  {
    hide Apply, Enabled;
    assert ([e] + es)[1..] == es;
  }

  lemma RunNothing(s: State)
    ensures CanRun(s, []) && Run(s, []) == s
  {
  }

  /** The state after session `i` has handed `ps` over and stands as `t`. */
  function HandedState(s: State, i: nat, t: Session, ps: seq<Payload>): State
    requires i < |s.sessions|
  {
    s.(sessions := s.sessions[i := t], handed := s.handed + Tagged(t.origin, ps))
  }

  lemma HandOne(s: State, i: nat)
    requires i < |s.sessions| && s.sessions[i].forward.Running? && s.sessions[i].forward.batch != []
    ensures Enabled(s, HandOver(i, true))
    ensures var t := s.sessions[i];
      Apply(s, HandOver(i, true)) ==
        s.(sessions := s.sessions[i := t.(forward := Running(t.forward.batch[1..]))],
           handed := s.handed + [(t.origin, t.forward.batch[0])])
  {
  }

  lemma {:induction false} HandAllRuns(s: State, i: nat)
    requires i < |s.sessions| && s.sessions[i].forward.Running?
    ensures var t := s.sessions[i];
      var steps := HandAll(i, |t.forward.batch|);
      CanRun(s, steps) && Run(s, steps) == HandedState(s, i, t.(forward := Running([])), t.forward.batch)
    decreases |s.sessions[i].forward.batch|
  {
    hide Apply, Enabled;
    var t := s.sessions[i];
    var ps := t.forward.batch;
    if ps == [] {
      assert t.(forward := Running([])) == t && s.sessions[i := t] == s.sessions;
      assert s.handed + [] == s.handed;
    } else {
      HandOne(s, i);
      var s1 := Apply(s, HandOver(i, true));
      HandAllRuns(s1, i);
      Prepend(s, HandOver(i, true), HandAll(i, |ps| - 1));
      assert s.handed + [(t.origin, ps[0])] + Tagged(t.origin, ps[1..]) == s.handed + Tagged(t.origin, ps);
    }
  }

  lemma QueueRuns(s: State, i: nat) returns (es: seq<Event>)
    requires i < |s.sessions| && s.sessions[i].forward == Running([]) && |s.sessions[i].queue| <= 128
    ensures CanRun(s, es)
    ensures var t := s.sessions[i]; Run(s, es) == HandedState(s, i, t.(queue := []), t.queue)
  {
    hide Run, CanRun;
    var t := s.sessions[i];
    if t.queue == [] {
      es := [];
      RunNothing(s);
      assert t.(queue := []) == t && s.sessions[i := t] == s.sessions && s.handed + [] == s.handed;
    } else {
      var e := Receive(i, |t.queue|);
      var s1 := Apply(s, e);
      assert t.queue[..|t.queue|] == t.queue && t.queue[|t.queue|..] == [];
      assert s1 == s.(sessions := s.sessions[i := t.(forward := Running(t.queue), queue := [])]);
      HandAllRuns(s1, i);
      hide Apply;
      es := [e] + HandAll(i, |t.queue|);
      Prepend(s, e, HandAll(i, |t.queue|));
    }
  }

  lemma {:induction false} TaggedConcat(a: SocketAddr, ps: seq<Payload>, qs: seq<Payload>)
    ensures Tagged(a, ps) + Tagged(a, qs) == Tagged(a, ps + qs)
  {
    if ps == [] {
      assert ps + qs == qs;
    } else {
      assert (ps + qs)[1..] == ps[1..] + qs;
      TaggedConcat(a, ps[1..], qs);
    }
  }

  lemma {:induction false} ForTagged(log: seq<(SocketAddr, Payload)>, a: SocketAddr, ps: seq<Payload>)
    ensures For(log + Tagged(a, ps), a) == For(log, a) + ps
    decreases |ps|
  {
    hide For;
    if ps == [] {
      assert log + [] == log && For(log, a) + [] == For(log, a);
    } else {
      ForAppend(log, a, ps[0], a);
      ForTagged(log + [(a, ps[0])], a, ps[1..]);
      assert log + [(a, ps[0])] + Tagged(a, ps[1..]) == log + Tagged(a, ps);
      assert For(log, a) + [ps[0]] + ps[1..] == For(log, a) + ps;
    }
  }

  lemma RunningRuns(s: State, i: nat) returns (es: seq<Event>)
    requires i < |s.sessions| && s.sessions[i].forward.Running? && |s.sessions[i].queue| <= 128
    ensures CanRun(s, es)
    ensures var t := s.sessions[i];
      Run(s, es) == HandedState(s, i, t.(forward := Running([]), queue := []), Backlog(t))
  {
    hide Run, CanRun, Apply, Enabled;
    var t := s.sessions[i];
    HandAllRuns(s, i);
    var s1 := HandedState(s, i, t.(forward := Running([])), t.forward.batch);
    var more := QueueRuns(s1, i);
    es := HandAll(i, |t.forward.batch|) + more;
    RunAppend(s, HandAll(i, |t.forward.batch|), more);
    TaggedConcat(t.origin, t.forward.batch, t.queue);
    assert s.handed + Tagged(t.origin, t.forward.batch) + Tagged(t.origin, t.queue)
        == s.handed + Tagged(t.origin, Backlog(t));
  }

  /**
   From every reachable state, whatever a live session holds can be handed to its target
   socket: there is a continuation that hands over all of it, in order, and nothing else.
   */
  lemma BacklogCanBeHanded(es: seq<Event>, i: nat) returns (more: seq<Event>)
    requires CanRun(Init(), es) && i < |Run(Init(), es).sessions| && Live(Run(Init(), es).sessions[i].forward)
    ensures CanRun(Init(), es + more)
    ensures var s, s' := Run(Init(), es), Run(Init(), es + more);
      var t := s.sessions[i];
      && i < |s'.sessions| && Backlog(s'.sessions[i]) == [] && s'.arrived == s.arrived
      && For(s'.handed, t.origin) == For(s.handed, t.origin) + Backlog(t)
  {
    hide Run, CanRun;
    QueuesStayBounded(es, i);
    var s := Run(Init(), es);
    var t := s.sessions[i];
    ForTagged(s.handed, t.origin, Backlog(t));
    if t.forward.Opening? {
      var s1 := Apply(s, SocketOpened(i));
      assert Backlog(s1.sessions[i]) == Backlog(t);
      hide Apply, Enabled;
      more := RunningRuns(s1, i);
      Prepend(s, SocketOpened(i), more);
      more := [SocketOpened(i)] + more;
    } else {
      more := RunningRuns(s, i);
    }
    RunAppend(Init(), es, more);
  }
}
