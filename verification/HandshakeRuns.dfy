/**
 What the events of a run say about the handshake: which ingress a client asked for and
 got, why a handler answered as it did, and what its client is told.
 */
module HandshakeRuns {
  import opened Bytes
  import opened Frames
  import opened Handshake
  import R = TunnelRegistry

  // ----- why a handler answered as it did -----

  lemma {:induction false} RunLast(s: State, es: seq<Event>, e: Event)
    ensures CanRun(s, es + [e]) <==> CanRun(s, es) && Enabled(Run(s, es), e)
    ensures CanRun(s, es + [e]) ==> Run(s, es + [e]) == Apply(Run(s, es), e)
    decreases |es|
  {
    hide Apply, Enabled;
    if es == [] {
      assert [e][1..] == [];
    } else {
      assert (es + [e])[1..] == es[1..] + [e];
      if Enabled(s, es[0]) {
        RunLast(Apply(s, es[0]), es[1..], e);
      }
    }
  }

  /** The ingress that was assigned to the server under `id` first; later ones are refused. */
  function FirstIngress(es: seq<Event>, id: Id): Option<Ingress> {
    if es == [] then None else
      var r, e := FirstIngress(es[..|es| - 1], id), es[|es| - 1];
      if r.None? && e.AssignIngress? && e.id == id then Some(e.ingress) else r
  }

  /** Whether ingress `id` was listening after these events. */
  function Listening(es: seq<Event>, id: Id): bool {
    if es == [] then false else
      var before, e := es[..|es| - 1], es[|es| - 1];
      if e.SetListening? && e.id == id then e.on
      else if e.AssignIngress? && e.id == id && FirstIngress(before, id).None? then e.ingress.listening
      else Listening(before, id)
  }

  /** The keys and ingress ids that clients dialled with, in order. */
  function Dials(es: seq<Event>): seq<(Id, Id)> {
    if es == [] then [] else
      var e := es[|es| - 1];
      Dials(es[..|es| - 1]) + if e.Dial? then [(e.authKey, e.ingressId)] else []
  }

  lemma EventsLast(es: seq<Event>, e: Event, id: Id)
    ensures FirstIngress(es + [e], id) ==
      if FirstIngress(es, id).None? && e.AssignIngress? && e.id == id then Some(e.ingress) else FirstIngress(es, id)
    ensures Listening(es + [e], id) ==
      if e.SetListening? && e.id == id then e.on
      else if e.AssignIngress? && e.id == id && FirstIngress(es, id).None? then e.ingress.listening
      else Listening(es, id)
    ensures Dials(es + [e]) == Dials(es) + if e.Dial? then [(e.authKey, e.ingressId)] else []
  {
    assert (es + [e])[..|es|] == es;
  }

  /** The server's ingress under `id` is the one of the events. */
  predicate IngressFollows(es: seq<Event>, s: State, id: Id) {
    && (id in s.ingresses <==> FirstIngress(es, id).Some?)
    && (id in s.ingresses ==>
          && s.ingresses[id].authKey == FirstIngress(es, id).value.authKey
          && s.ingresses[id].udp == FirstIngress(es, id).value.udp
          && s.ingresses[id].listening == Listening(es, id))
  }

  /** The connections are those that were dialled. */
  ghost predicate ConnsFollow(es: seq<Event>, s: State) {
    && |s.conns| == |Dials(es)|
    && (forall i :: 0 <= i < |s.conns| ==> (s.conns[i].authKey, s.conns[i].ingressId) == Dials(es)[i])
  }

  ghost predicate Follows(es: seq<Event>, s: State) {
    (forall id :: IngressFollows(es, s, id)) && ConnsFollow(es, s)
  }

  /** No step changes what a client asked for. */
  lemma RequestStays(s: State, c: Conn, e: Event)
    requires IsConn(e) && CanStep(c, e) && (e.AssignTunnel? ==> c.ingressId in s.ingresses)
    ensures StepConn(s, c, e).authKey == c.authKey && StepConn(s, c, e).ingressId == c.ingressId
  {
    hide Decode, Encode;
  }

  lemma IngressStep(es: seq<Event>, e: Event, s: State, id: Id)
    requires IngressFollows(es, s, id) && Enabled(s, e)
    ensures IngressFollows(es + [e], Apply(s, e), id)
  {
    hide StepConn, CanStep, Encode, FirstIngress, Listening, Dials;
    EventsLast(es, e, id);
  }

  lemma ConnsStep(es: seq<Event>, e: Event, s: State)
    requires ConnsFollow(es, s) && Enabled(s, e)
    ensures ConnsFollow(es + [e], Apply(s, e))
  {
    hide StepConn, Encode, FirstIngress, Listening, Dials;
    if IsConn(e) {
      RequestStays(s, s.conns[e.i], e);
    }
    hide CanStep;
    EventsLast(es, e, [97]);
  }

  lemma FollowsStep(es: seq<Event>, e: Event, s: State)
    requires Follows(es, s) && Enabled(s, e)
    ensures Follows(es + [e], Apply(s, e))
  {
    hide IngressFollows, ConnsFollow, Apply, Enabled;
    forall id ensures IngressFollows(es + [e], Apply(s, e), id) {
      IngressStep(es, e, s, id);
    }
    ConnsStep(es, e, s);
  }

  lemma FollowsInit(serverId: Id, es: seq<Event>)
    requires es == []
    ensures Follows(es, Init(serverId))
  {
  }

  lemma {:induction false} FollowsRun(serverId: Id, es: seq<Event>)
    requires CanRun(Init(serverId), es)
    ensures Follows(es, Run(Init(serverId), es))
    decreases |es|
  {
    hide Apply, Enabled, Follows;
    if es == [] {
      FollowsInit(serverId, es);
    } else {
      var before, e := es[..|es| - 1], es[|es| - 1];
      assert es == before + [e];
      RunLast(Init(serverId), before, e);
      FollowsRun(serverId, before);
      FollowsStep(before, e, Run(Init(serverId), before));
    }
  }

  /** Connection `i` asked for ingress `id`. */
  predicate AskedFor(es: seq<Event>, i: nat, id: Id) {
    i < |Dials(es)| && Dials(es)[i].1 == id
  }

  /** After these events ingress `id` exists and, if it is a UDP ingress, is listening. */
  predicate TakesTunnels(es: seq<Event>, id: Id) {
    FirstIngress(es, id).Some? && (FirstIngress(es, id).value.udp ==> Listening(es, id))
  }

  /** Step `n` of the run hands the tunnel of connection `i` to the ingress it asked for, which takes it. */
  predicate TakenAt(es: seq<Event>, i: nat, id: Id, n: nat) {
    n < |es| && es[n] == AssignTunnel(i) && AskedFor(es[..n], i, id) && TakesTunnels(es[..n], id)
  }

  /** Step `n` of the run lets the handler of connection `i` read when the ingress it asked for is missing. */
  predicate MissedAt(es: seq<Event>, i: nat, id: Id, n: nat) {
    n < |es| && es[n].HandlerReads? && es[n].i == i && AskedFor(es[..n], i, id) && FirstIngress(es[..n], id).None?
  }

  predicate RemovesNow(s: State, e: Event, t: Uuid) {
    e.RemoveTunnel? && Enabled(s, e) && s.ingresses[e.id].tunnels[e.at] == t
  }

  /** Step `n` of the run takes tunnel `t` off a list. */
  ghost predicate RemovedAt(serverId: Id, es: seq<Event>, t: Uuid, n: nat) {
    n < |es| && CanRun(Init(serverId), es[..n]) && RemovesNow(Run(Init(serverId), es[..n]), es[n], t)
  }

  predicate IsAssigned(s: State, i: nat, id: Id) {
    i < |s.conns| && s.conns[i].handler.Assigned? && s.conns[i].ingressId == id
  }

  predicate IsUnknown(s: State, i: nat, id: Id) {
    i < |s.conns| && s.conns[i].handler.UnknownIngress? && s.conns[i].ingressId == id
  }

  lemma TakesIff(es: seq<Event>, s: State, id: Id)
    requires Follows(es, s)
    ensures id in s.ingresses <==> FirstIngress(es, id).Some?
    ensures id in s.ingresses ==> (TakesTunnels(es, id) <==> Accepts(s.ingresses[id]))
  {
    hide FirstIngress, Listening, ConnsFollow;
    assert IngressFollows(es, s, id);
  }

  /** A tunnel is taken by an assignment to an ingress that takes it, and only so. */
  lemma AssignedAfter(es: seq<Event>, s: State, e: Event, i: nat, id: Id)
    requires Enabled(s, e) && Follows(es, s)
    ensures IsAssigned(Apply(s, e), i, id) <==>
      IsAssigned(s, i, id) || (e == AssignTunnel(i) && AskedFor(es, i, id) && TakesTunnels(es, id))
  {
    hide Encode, Decode, FirstIngress, Listening, Dials, AfterClientRead;
    if i < |s.conns| {
      TakesIff(es, s, s.conns[i].ingressId);
      assert AskedFor(es, i, id) <==> s.conns[i].ingressId == id;
    }
    assert |s.conns| == |Dials(es)|;
    hide Follows, AskedFor, TakesTunnels, Accepts;
    if e.HandlerReads? && e.i == i {
      ReadStep(s, s.conns[i], e);
    }
    hide AfterHandlerRead;
    if e.ClientReads? && e.i == i {
      QuietStep(s, s.conns[i], e);
    }
  }

  /** An ingress is found missing by a handler that reads, and only so. */
  lemma UnknownAfter(es: seq<Event>, s: State, e: Event, i: nat, id: Id)
    requires Inv(s) && Enabled(s, e) && Follows(es, s)
    ensures IsUnknown(Apply(s, e), i, id) ==>
      IsUnknown(s, i, id)
      || (e.HandlerReads? && e.i == i && AskedFor(es, i, id) && FirstIngress(es, id).None?)
  {
    hide Encode, Decode, IdsUnique, ListsOk, FirstIngress, Listening, Dials;
    if i < |s.conns| {
      TakesIff(es, s, s.conns[i].ingressId);
      assert AskedFor(es, i, id) <==> s.conns[i].ingressId == id;
    }
    hide Follows, AskedFor, TakesTunnels, Accepts;
    if e.HandlerReads? && e.i == i {
      var c := s.conns[i];
      assert ConnOk(s, c);
      var f := Auth(c.authKey, c.ingressId);
      var b := c.handlerBuf + c.up[..e.n];
      assert b + c.up[e.n..] == c.handlerBuf + c.up == Encode(f);
      hide ConnOk, Inv;
      ReadPrefix(f, Encode(f), b);
    } else {
      hide Inv;
    }
  }

  /** What one more event adds to these moments. */
  lemma MomentsLast(es: seq<Event>, e: Event, i: nat, id: Id)
    ensures (exists n: nat :: TakenAt(es + [e], i, id, n)) <==>
            || (exists n: nat :: TakenAt(es, i, id, n))
            || (e == AssignTunnel(i) && AskedFor(es, i, id) && TakesTunnels(es, id))
    ensures || (exists n: nat :: MissedAt(es, i, id, n))
            || (e.HandlerReads? && e.i == i && AskedFor(es, i, id) && FirstIngress(es, id).None?) ==>
            exists n: nat :: MissedAt(es + [e], i, id, n)
  {
    hide AskedFor, TakesTunnels, FirstIngress;
    var more := es + [e];
    assert more[..|es|] == es;
    forall n: nat | n < |es|
      ensures TakenAt(more, i, id, n) == TakenAt(es, i, id, n)
      ensures MissedAt(more, i, id, n) == MissedAt(es, i, id, n)
    {
      assert more[..n] == es[..n];
    }
    assert TakenAt(more, i, id, |es|) <==> e == AssignTunnel(i) && AskedFor(es, i, id) && TakesTunnels(es, id);
    assert MissedAt(more, i, id, |es|) <==>
      e.HandlerReads? && e.i == i && AskedFor(es, i, id) && FirstIngress(es, id).None?;
    if n: nat :| TakenAt(es, i, id, n) {
      assert TakenAt(more, i, id, n);
    }
    if n: nat :| MissedAt(es, i, id, n) {
      assert MissedAt(more, i, id, n);
    }
  }

  lemma InitOk(serverId: Id)
    ensures Inv(Init(serverId))
  {
  }

  lemma NoMoments(serverId: Id, es: seq<Event>, i: nat, id: Id)
    requires es == []
    ensures !IsAssigned(Run(Init(serverId), es), i, id) && !IsUnknown(Run(Init(serverId), es), i, id)
    ensures forall n: nat :: !TakenAt(es, i, id, n)
  {
  }

  /**
   In every run the tunnel of a connection was taken by the ingress it asked for, if and
   only if some step handed it to that ingress when it was a TCP ingress or listened; and
   a handler rejected an ingress id only at a step at which no such ingress was assigned.
   */
  lemma {:induction false} StagesHaveMoments(serverId: Id, es: seq<Event>, i: nat, id: Id)
    requires CanRun(Init(serverId), es)
    ensures IsAssigned(Run(Init(serverId), es), i, id) <==> exists n: nat :: TakenAt(es, i, id, n)
    ensures IsUnknown(Run(Init(serverId), es), i, id) ==> exists n: nat :: MissedAt(es, i, id, n)
    decreases |es|
  {
    hide Apply, Enabled, TakenAt, MissedAt, TakesTunnels, AskedFor, IsAssigned, IsUnknown, Inv, Follows;
    if es == [] {
      NoMoments(serverId, es, i, id);
    } else {
      var before, e := es[..|es| - 1], es[|es| - 1];
      assert es == before + [e];
      RunLast(Init(serverId), before, e);
      hide Run, CanRun, Init;
      InitOk(serverId);
      RunKeepsInv(Init(serverId), before);
      FollowsRun(serverId, before);
      AssignedAfter(before, Run(Init(serverId), before), e, i, id);
      UnknownAfter(before, Run(Init(serverId), before), e, i, id);
      MomentsLast(before, e, i, id);
      StagesHaveMoments(serverId, before, i, id);
    }
  }

  lemma RemovedStep(s: State, e: Event, t: Uuid)
    requires Enabled(s, e)
    ensures t in Apply(s, e).removed <==> t in s.removed || RemovesNow(s, e, t)
  {
    hide StepConn, CanStep, Encode;
  }

  lemma RemovedLast(serverId: Id, es: seq<Event>, e: Event, t: Uuid)
    requires CanRun(Init(serverId), es)
    ensures (exists n: nat :: RemovedAt(serverId, es + [e], t, n)) <==>
            (exists n: nat :: RemovedAt(serverId, es, t, n)) || RemovesNow(Run(Init(serverId), es), e, t)
  {
    hide CanRun, Run, RemovesNow, Init;
    var more := es + [e];
    assert more[..|es|] == es;
    forall n: nat | n < |es| ensures RemovedAt(serverId, more, t, n) == RemovedAt(serverId, es, t, n) {
      assert more[..n] == es[..n];
    }
    assert RemovedAt(serverId, more, t, |es|) == RemovesNow(Run(Init(serverId), es), e, t);
    if n: nat :| RemovedAt(serverId, es, t, n) {
      assert RemovedAt(serverId, more, t, n);
    }
  }

  lemma NothingRemoved(serverId: Id, es: seq<Event>, t: Uuid)
    requires es == []
    ensures t !in Run(Init(serverId), es).removed
    ensures forall n: nat :: !RemovedAt(serverId, es, t, n)
  {
    hide RemovesNow;
  }

  lemma {:induction false} RemovedIff(serverId: Id, es: seq<Event>, t: Uuid)
    requires CanRun(Init(serverId), es)
    ensures t in Run(Init(serverId), es).removed <==> exists n: nat :: RemovedAt(serverId, es, t, n)
    decreases |es|
  {
    hide Apply, Enabled, RemovesNow, RemovedAt, Init;
    if es == [] {
      NothingRemoved(serverId, es, t);
    } else {
      var before, e := es[..|es| - 1], es[|es| - 1];
      assert es == before + [e];
      RunLast(Init(serverId), before, e);
      hide Run, CanRun;
      RemovedStep(Run(Init(serverId), before), e, t);
      RemovedLast(serverId, before, e, t);
      RemovedIff(serverId, before, t);
    }
  }

  /** A client with a tunnel: its tunnel is on the list exactly if it was taken and not removed. */
  lemma ListedIff(s: State, i: nat)
    requires Inv(s) && i < |s.conns| && s.conns[i].client.Established?
    ensures var c := s.conns[i];
      && c.ingressId in s.ingresses
      && (c.client.tunnelId in s.ingresses[c.ingressId].tunnels <==>
            c.client.tunnelId !in s.removed && IsAssigned(s, i, c.ingressId))
  {
    var c := s.conns[i];
    var t := c.client.tunnelId;
    hide Encode;
    assert ConnOk(s, c) && ListOk(s, c.ingressId);
    assert IssuedTo(s, i, t);
    forall j | Took(s, c.ingressId, j, t) ensures j == i {
      assert IssuedTo(s, j, t);
    }
    assert IsAssigned(s, i, c.ingressId) <==> Took(s, c.ingressId, i, t);
  }

  /** An assigned ingress stays, whatever comes after. */
  lemma {:induction false} FirstStays(es: seq<Event>, n: nat, id: Id)
    requires n <= |es| && FirstIngress(es[..n], id).Some?
    ensures FirstIngress(es, id) == FirstIngress(es[..n], id)
  {
    if n == |es| {
      assert es[..n] == es;
    } else {
      assert es[..|es| - 1][..n] == es[..n];
      FirstStays(es[..|es| - 1], n, id);
    }
  }

  /**
   A client is told that it is authenticated before the ingress is asked. For a TCP
   ingress its tunnel is on the list if and only if the run has reached the assignment
   and the tunnel was not removed since. For a UDP ingress the assignment must have come
   while the ingress was listening.
   */
  lemma AssignedIffAccepted(serverId: Id, es: seq<Event>, i: nat)
    requires CanRun(Init(serverId), es) && i < |Run(Init(serverId), es).conns|
    requires Run(Init(serverId), es).conns[i].client.Established?
    ensures var s := Run(Init(serverId), es);
      i < |Dials(es)| &&
      var id, t := Dials(es)[i].1, s.conns[i].client.tunnelId;
      && id in s.ingresses && FirstIngress(es, id).Some?
      && (FirstIngress(es, id).value.udp ==>
            (t in s.ingresses[id].tunnels <==>
               && (exists n :: 0 <= n < |es| && es[n] == AssignTunnel(i) && Listening(es[..n], id))
               && !exists n: nat :: RemovedAt(serverId, es, t, n)))
      && (!FirstIngress(es, id).value.udp ==>
            (t in s.ingresses[id].tunnels <==>
               AssignTunnel(i) in es && !exists n: nat :: RemovedAt(serverId, es, t, n)))
  {
    hide Run, CanRun, Inv, RemovedAt;
    var s := Run(Init(serverId), es);
    InitOk(serverId);
    RunKeepsInv(Init(serverId), es);
    FollowsRun(serverId, es);
    ListedIff(s, i);
    var id := s.conns[i].ingressId;
    assert IngressFollows(es, s, id);
    StagesHaveMoments(serverId, es, i, id);
    RemovedIff(serverId, es, s.conns[i].client.tunnelId);
    forall n: nat | n < |es| && es[n] == AssignTunnel(i)
      ensures AskedFor(es[..n], i, id) && FirstIngress(es[..n], id) == FirstIngress(es, id)
    {
      AssignmentAsked(serverId, es, i, n);
    }
    hide FirstIngress, Listening, Dials;
    forall n: nat ensures TakenAt(es, i, id, n) <==>
      n < |es| && es[n] == AssignTunnel(i) && (FirstIngress(es, id).value.udp ==> Listening(es[..n], id))
    {
    }
    if AssignTunnel(i) in es {
      var n :| 0 <= n < |es| && es[n] == AssignTunnel(i);
      assert !FirstIngress(es, id).value.udp ==> TakenAt(es, i, id, n);
    }
  }

  /** At the assignment of connection `i` the ingress it asked for exists. */
  lemma AssignmentAsked(serverId: Id, es: seq<Event>, i: nat, n: nat)
    requires CanRun(Init(serverId), es) && n < |es| && es[n] == AssignTunnel(i)
    ensures i < |Run(Init(serverId), es).conns|
    ensures var id := Run(Init(serverId), es).conns[i].ingressId;
      AskedFor(es[..n], i, id) && FirstIngress(es[..n], id).Some? && FirstIngress(es[..n], id) == FirstIngress(es, id)
  {
    hide Run, CanRun, FirstIngress, Listening, Dials, Init;
    PrefixRuns(Init(serverId), es, n);
    FollowsRun(serverId, es[..n]);
    FollowsRun(serverId, es);
    DialsStay(es, n);
    var s := Run(Init(serverId), es[..n]);
    assert i < |s.conns| && s.conns[i].ingressId in s.ingresses;
    hide Enabled;
    var id := s.conns[i].ingressId;
    assert IngressFollows(es[..n], s, id);
    FirstStays(es, n, id);
  }

  lemma {:induction false} DialsStay(es: seq<Event>, n: nat)
    requires n <= |es|
    ensures Dials(es[..n]) <= Dials(es)
  {
    if n == |es| {
      assert es[..n] == es;
    } else {
      assert es[..|es| - 1][..n] == es[..n];
      DialsStay(es[..|es| - 1], n);
    }
  }

  lemma {:induction false} PrefixRuns(s: State, es: seq<Event>, n: nat)
    requires CanRun(s, es) && n < |es|
    ensures CanRun(s, es[..n]) && Enabled(Run(s, es[..n]), es[n])
    decreases |es|
  {
    hide Apply, Enabled;
    if n == 0 {
      assert es[..n] == [];
    } else {
      assert es[..n][1..] == es[1..][..n - 1];
      PrefixRuns(Apply(s, es[0]), es[1..], n - 1);
    }
  }

  /**
   A client is told that its ingress id was rejected only if no such ingress had been
   assigned at the step of the run at which the handler looked for it, and that its key
   was rejected only if the first ingress assigned under that id has another key.
   */
  lemma RejectedIngressWasMissing(serverId: Id, es: seq<Event>, i: nat)
    requires CanRun(Init(serverId), es) && i < |Run(Init(serverId), es).conns|
    ensures i < |Dials(es)|
    ensures var c, (key, id) := Run(Init(serverId), es).conns[i], Dials(es)[i];
      && (c.client == Refused(RejectedIngressId) ==> exists n: nat :: MissedAt(es, i, id, n))
      && (c.client == Refused(RejectedAuthKey) ==>
            FirstIngress(es, id).Some? && FirstIngress(es, id).value.authKey != key)
  {
    hide Run, CanRun, Inv, FirstIngress, Listening, Dials, MissedAt, Authorised;
    HandshakeAgreement(serverId, es, i);
    FollowsRun(serverId, es);
    var s := Run(Init(serverId), es);
    assert IngressFollows(es, s, s.conns[i].ingressId);
    StagesHaveMoments(serverId, es, i, s.conns[i].ingressId);
  }

  // ----- what is decided and what is told -----

  /**
   In every run, what a handler makes of the bytes it has read: one or two of them crash it,
   less than the whole Auth frame makes it wait, and with the whole frame it decides. No
   ingress under that id is a rejection with code 401, another key one with code 400;
   otherwise it sends the tunnel id and the server id, or gives up if it cannot.
   */
  lemma HandlerDecides(serverId: Id, es: seq<Event>, i: nat, n: nat, t: Uuid, sendOk: bool)
    requires CanRun(Init(serverId), es) && Enabled(Run(Init(serverId), es), HandlerReads(i, n, t, sendOk))
    ensures i < |Dials(es)| && i < |Run(Init(serverId), es).conns|
    ensures var s := Run(Init(serverId), es);
      var c := Apply(s, HandlerReads(i, n, t, sendOk)).conns[i];
      var (key, id) := Dials(es)[i];
      var has, all := |s.conns[i].handlerBuf| + n, |Encode(Auth(key, id))|;
      var g := FirstIngress(es, id);
      && has <= all
      && (has <= 2 ==> c.handler == Aborted(Crashed) && c.closed == Some(0))
      && (3 <= has < all ==> c.handler == AwaitingAuth && c.closed == None)
      && (has == all && g.None? ==> c.handler == UnknownIngress && c.closed == Some(401))
      && (has == all && g.Some? && g.value.authKey != key ==> c.handler == WrongKey && c.closed == Some(400))
      && (has == all && g.Some? && g.value.authKey == key ==>
            if sendOk then c.handler == Issued(t) && c.closed == None && c.down == Encode(Authenticated(t, serverId))
            else c.handler == Aborted(SendFailed) && c.closed == Some(0))
  {
    hide Run, CanRun, FirstIngress, Listening, Dials, Encode, IdsUnique, ListsOk, AfterHandlerRead, ConnOk;
    InitOk(serverId);
    RunKeepsInv(Init(serverId), es);
    FollowsRun(serverId, es);
    var s := Run(Init(serverId), es);
    var c := s.conns[i];
    assert ConnOk(s, c);
    assert IngressFollows(es, s, c.ingressId);
    HandlerJudges(s, c, n, t, sendOk);
    hide Inv, Follows;
  }

  lemma LongEnough(f: Frame)
    requires HasHeader(f)
    ensures |Encode(f)| >= 3
  {
  }

  lemma HandlerJudges(s: State, c: Conn, n: nat, t: Uuid, sendOk: bool)
    requires ConnOk(s, c) && c.handler.AwaitingAuth? && 1 <= n <= |c.up|
    ensures var c', id := AfterHandlerRead(s, c, n, t, sendOk), c.ingressId;
      var has, all := |c.handlerBuf| + n, |Encode(Auth(c.authKey, id))|;
      && 3 <= all && has <= all
      && (has <= 2 ==> c'.handler == Aborted(Crashed) && c'.closed == Some(0))
      && (3 <= has < all ==> c'.handler == AwaitingAuth && c'.closed == None)
      && (has == all && id !in s.ingresses ==> c'.handler == UnknownIngress && c'.closed == Some(401))
      && (has == all && id in s.ingresses && s.ingresses[id].authKey != c.authKey ==>
            c'.handler == WrongKey && c'.closed == Some(400))
      && (has == all && id in s.ingresses && s.ingresses[id].authKey == c.authKey ==>
            if sendOk
            then c'.handler == Issued(t) && c'.closed == None && c'.down == Encode(Authenticated(t, s.serverId))
            else c'.handler == Aborted(SendFailed) && c'.closed == Some(0))
  {
    hide Encode, Decode;
    var f := Auth(c.authKey, c.ingressId);
    LongEnough(f);
    assert c.handlerBuf + c.up == Encode(f) && c.closed.None? && c.down == [];
    hide ConnOk;
    var b := c.handlerBuf + c.up[..n];
    assert b + c.up[n..] == c.handlerBuf + c.up == Encode(f);
    assert b == Encode(f)[..|b|];
    if |b| < |Encode(f)| {
      DecodeStrictPrefix(f, |b|);
    } else {
      assert b == Encode(f) + [];
      DecodeEncode(f, []);
    }
    assert [] + Encode(Authenticated(t, s.serverId)) == Encode(Authenticated(t, s.serverId));
  }

  /** A handler refuses any other first frame with code 3001, and what is no frame with code 3999. */
  lemma OtherFramesAreRefused(s: State, c: Conn, t: Uuid, sendOk: bool)
    requires c.handler.AwaitingAuth? && c.handlerBuf == [] && c.up != []
    ensures var c' := AfterHandlerRead(s, c, |c.up|, t, sendOk);
      && (forall f, x :: c.up == Encode(f) + x && !f.Auth? ==>
            c'.handler == Aborted(Unexpected) && c'.closed == Some(3001))
      && (Decode(c.up).Failed? ==> c'.handler == Aborted(Malformed) && c'.closed == Some(3999))
  {
    hide Encode, Decode;
    assert [] + c.up[..|c.up|] == c.up;
    forall f, x | c.up == Encode(f) + x && !f.Auth? ensures Decode(c.up) == Item(f, x) {
      DecodeEncode(f, x);
    }
  }

  /**
   In every run, what a client makes of the bytes of the reply that it has read: one or two
   of them crash it, less than the whole Authenticated frame makes it wait, and with the
   frame it has its tunnel. One that sees the connection close is told the reason if there
   is one for it: 400 is the key, 401 the ingress id, 0 an orderly close, anything else is
   unknown.
   */
  lemma ClientIsTold(serverId: Id, es: seq<Event>, i: nat)
    requires CanRun(Init(serverId), es) && i < |Run(Init(serverId), es).conns|
    requires Run(Init(serverId), es).conns[i].client.AwaitingReply?
    ensures var s := Run(Init(serverId), es);
      var c := s.conns[i];
      && (forall n: nat :: TunnelOf(c.handler).Some? && 1 <= n <= |c.down| ==>
            Enabled(s, ClientReads(i, n)) &&
            var told := Apply(s, ClientReads(i, n)).conns[i].client;
            var t := TunnelOf(c.handler).value;
            var has, all := |c.clientBuf| + n, |Encode(Authenticated(t, serverId))|;
            && (has <= 2 ==> told == Refused(Panicking))
            && (3 <= has < all ==> told == AwaitingReply)
            && (has >= all ==> told == Established(t, serverId)))
      && (c.closed.Some? ==>
            Enabled(s, ClientSeesClose(i)) &&
            var told := Apply(s, ClientSeesClose(i)).conns[i].client;
            && (c.handler.WrongKey? ==> c.closed == Some(400) && told == Refused(RejectedAuthKey))
            && (c.handler.UnknownIngress? ==> c.closed == Some(401) && told == Refused(RejectedIngressId))
            && (!c.handler.WrongKey? && !c.handler.UnknownIngress? ==>
                  told == Refused(if c.closed == Some(0) then ClosedTunnel else Unknown))
            && (c.handler.Aborted? ==>
                  c.closed == Some(if c.handler.reason.TimedOut? then 3002
                                   else if c.handler.reason.ReadFailed? then 3999 else 0)))
      && Enabled(s, ClientTimesOut(i)) && Apply(s, ClientTimesOut(i)).conns[i].client == Refused(NotOnTime)
      && Enabled(s, ClientLosesConnection(i)) && Apply(s, ClientLosesConnection(i)).conns[i].client == Refused(Unknown)
  {
    hide Run, CanRun, Encode, IdsUnique, ListsOk, AfterClientRead, ConnOk, ErrorOfCode;
    InitOk(serverId);
    RunKeepsInv(Init(serverId), es);
    var s := Run(Init(serverId), es);
    var c := s.conns[i];
    assert ConnOk(s, c);
    forall n: nat | TunnelOf(c.handler).Some? && 1 <= n <= |c.down|
      ensures Enabled(s, ClientReads(i, n)) && ReplyJudged(s, c, n)
      ensures Apply(s, ClientReads(i, n)).conns[i] == AfterClientRead(c, n)
    {
      ClientJudges(s, c, n);
    }
    if c.closed.Some? {
      CloseCodes(s, c);
    }
    hide Inv;
  }

  predicate ReplyJudged(s: State, c: Conn, n: nat)
    requires TunnelOf(c.handler).Some? && 1 <= n <= |c.down|
  {
    var told, t := AfterClientRead(c, n).client, TunnelOf(c.handler).value;
    var has, all := |c.clientBuf| + n, |Encode(Authenticated(t, s.serverId))|;
    && (has <= 2 ==> told == Refused(Panicking))
    && (3 <= has < all ==> told == AwaitingReply)
    && (has >= all ==> told == Established(t, s.serverId))
  }

  lemma ClientJudges(s: State, c: Conn, n: nat)
    requires ConnOk(s, c) && c.client.AwaitingReply? && TunnelOf(c.handler).Some? && 1 <= n <= |c.down|
    ensures ReplyJudged(s, c, n)
  {
    hide Encode, Decode;
    var f := Authenticated(c.handler.tunnelId, s.serverId);
    LongEnough(f);
    assert Encode(f) <= c.clientBuf + c.down;
    hide ConnOk;
    var b := c.clientBuf + c.down[..n];
    assert b + c.down[n..] == c.clientBuf + c.down;
    if |b| < |Encode(f)| {
      assert b == Encode(f)[..|b|];
      DecodeStrictPrefix(f, |b|);
    } else {
      assert b == Encode(f) + b[|Encode(f)|..];
      DecodeEncode(f, b[|Encode(f)|..]);
    }
  }

  lemma CloseCodes(s: State, c: Conn)
    requires ConnOk(s, c) && c.closed.Some?
    ensures c.handler.WrongKey? ==> c.closed == Some(400) && ErrorOfCode(c.closed.value) == RejectedAuthKey
    ensures c.handler.UnknownIngress? ==> c.closed == Some(401) && ErrorOfCode(c.closed.value) == RejectedIngressId
    ensures !c.handler.WrongKey? && !c.handler.UnknownIngress? ==>
      ErrorOfCode(c.closed.value) == if c.closed == Some(0) then ClosedTunnel else Unknown
    ensures c.handler.Aborted? ==>
      c.closed.value == if c.handler.reason.TimedOut? then 3002 else if c.handler.reason.ReadFailed? then 3999 else 0
  {
    hide Encode;
  }

  /**
   In every run a handler that waits can give up, with the code of its reason; one that has
   issued a tunnel can ping, with the byte 3, and can close with code 0 or 3999.
   */
  lemma HandlerCanGoOn(serverId: Id, es: seq<Event>, i: nat)
    requires CanRun(Init(serverId), es) && i < |Run(Init(serverId), es).conns|
    ensures var s := Run(Init(serverId), es);
      var c := s.conns[i];
      && (c.handler.AwaitingAuth? ==>
            forall r :: r == TimedOut || r == StreamEnded || r == ReadFailed ==>
              Enabled(s, HandlerGivesUp(i, r)) &&
              Apply(s, HandlerGivesUp(i, r)).conns[i].closed ==
                Some(if r.TimedOut? then 3002 else if r.ReadFailed? then 3999 else 0))
      && (TunnelOf(c.handler).Some? && c.closed.None? ==>
            && Enabled(s, HandlerPings(i)) && Apply(s, HandlerPings(i)).conns[i].down == c.down + [3]
            && (forall code :: code == 0 || code == 3999 ==>
                  Enabled(s, HandlerCloses(i, code)) && Apply(s, HandlerCloses(i, code)).conns[i].closed == Some(code)))
      && (c.handler.Issued? ==> Enabled(s, AssignTunnel(i)))
  {
    hide Run, CanRun, Encode, IdsUnique, ListsOk, AfterHandlerRead, AfterClientRead, ConnOk;
    InitOk(serverId);
    RunKeepsInv(Init(serverId), es);
    WireFormat(Ping);
    var s := Run(Init(serverId), es);
    assert ConnOk(s, s.conns[i]);
    IssuedHasIngress(s, s.conns[i]);
    hide Inv;
  }

  lemma IssuedHasIngress(s: State, c: Conn)
    requires ConnOk(s, c)
    ensures TunnelOf(c.handler).Some? ==> c.ingressId in s.ingresses
  {
    hide Encode;
  }

  /** In every run anyone can dial, an ingress can be assigned, and one that is there can start and stop listening. */
  lemma ServerCanGoOn(serverId: Id, es: seq<Event>)
    requires CanRun(Init(serverId), es)
    ensures var s := Run(Init(serverId), es);
      && (forall key, id :: Enabled(s, Dial(key, id)))
      && (forall id, g: Ingress :: g.tunnels == [] ==> Enabled(s, AssignIngress(id, g)))
      && (forall id, on :: FirstIngress(es, id).Some? ==> Enabled(s, SetListening(id, on)))
  {
    FollowsRun(serverId, es);
    hide Run, CanRun, FirstIngress, Listening, Dials;
    var s := Run(Init(serverId), es);
    forall id, on: bool | FirstIngress(es, id).Some? ensures Enabled(s, SetListening(id, on)) {
      assert IngressFollows(es, s, id);
    }
  }

  /** In every run a tunnel on a list can be removed, and then it is gone and every other one is still there. */
  lemma ListedCanBeRemoved(serverId: Id, es: seq<Event>, id: Id, t: Uuid) returns (at: nat)
    requires CanRun(Init(serverId), es)
    requires id in Run(Init(serverId), es).ingresses && t in Run(Init(serverId), es).ingresses[id].tunnels
    ensures var s := Run(Init(serverId), es);
      && Enabled(s, RemoveTunnel(id, at))
      && (forall x :: x in Apply(s, RemoveTunnel(id, at)).ingresses[id].tunnels <==>
            x in s.ingresses[id].tunnels && x != t)
  {
    InitOk(serverId);
    RunKeepsInv(Init(serverId), es);
    hide Run, CanRun, ConnsOk, IdsUnique;
    var s := Run(Init(serverId), es);
    var ts := s.ingresses[id].tunnels;
    assert ListOk(s, id);
    at :| 0 <= at < |ts| && ts[at] == t;
    forall x ensures x in R.SwapRemove(ts, at) <==> x in ts && x != t {
      R.SwapRemoveExact(ts, at, x);
    }
  }

  lemma Prepend(s: State, e: Event, es: seq<Event>)
    requires Enabled(s, e) && CanRun(Apply(s, e), es)
    ensures CanRun(s, [e] + es) && Run(s, [e] + es) == Run(Apply(s, e), es)
  {
    hide Apply, Enabled;
    assert ([e] + es)[1..] == es;
  }

  /** A whole handshake on the only connection, up to the client's conclusion. */
  lemma Exchange(s: State, t: Uuid) returns (es: seq<Event>)
    requires |s.conns| == 1 && t !in s.used
    requires var c := s.conns[0];
      && c.client.AwaitingReply? && c.handler.AwaitingAuth? && c.handlerBuf == c.clientBuf == c.down == []
      && c.up == Encode(Auth(c.authKey, c.ingressId))
      && Authorised(s.ingresses, c) && !Accepts(s.ingresses[c.ingressId])
    ensures CanRun(s, es)
    ensures Run(s, es).ingresses == s.ingresses
    ensures |Run(s, es).conns| == 1 && Run(s, es).conns[0].client == Established(t, s.serverId)
  {
    hide Encode, AfterHandlerRead, AfterClientRead;
    var c := s.conns[0];
    var reply := Encode(Authenticated(t, s.serverId));
    var e2, e3, e4 := HandlerReads(0, |c.up|, t, true), AssignTunnel(0), ClientReads(0, |reply|);
    var c3 := HandlerAccepts(s, c, t);
    var c4 := c3.(handler := Unassigned(t));
    ClientAccepts(s, c4, t);
    var s3 := Apply(s, e2);
    assert s3.conns == [c3];
    var s4 := Apply(s3, e3);
    assert s4.conns == [c4];
    var s5 := Apply(s4, e4);
    hide Apply, Enabled;
    Prepend(s4, e4, []);
    Prepend(s3, e3, [e4] + []);
    Prepend(s, e2, [e3] + ([e4] + []));
    es := [e2] + ([e3] + ([e4] + []));
  }

  /** The handler reads a whole Auth frame that passes both checks. */
  lemma HandlerAccepts(s: State, c: Conn, t: Uuid) returns (c': Conn)
    requires c.handlerBuf == c.down == [] && c.up == Encode(Auth(c.authKey, c.ingressId))
    requires Authorised(s.ingresses, c)
    ensures c' == AfterHandlerRead(s, c, |c.up|, t, true)
    ensures c' == c.(handler := Issued(t), handlerBuf := [], up := [], down := Encode(Authenticated(t, s.serverId)))
  {
    DecodeEncode(Auth(c.authKey, c.ingressId), []);
    hide Encode, Decode;
    assert [] + c.up[..|c.up|] == c.up + [] && c.up[|c.up|..] == [];
    assert [] + Encode(Authenticated(t, s.serverId)) == Encode(Authenticated(t, s.serverId));
    c' := AfterHandlerRead(s, c, |c.up|, t, true);
  }

  /** The client reads a whole Authenticated frame. */
  lemma ClientAccepts(s: State, c: Conn, t: Uuid)
    requires c.clientBuf == [] && c.down == Encode(Authenticated(t, s.serverId))
    ensures AfterClientRead(c, |c.down|).client == Established(t, s.serverId)
  {
    DecodeEncode(Authenticated(t, s.serverId), []);
    hide Encode, Decode;
    assert [] + c.down[..|c.down|] == c.down + [];
  }

  /** So a client may hold a tunnel that no ingress knows: here a UDP ingress that is not listening. */
  lemma EstablishedButUnassigned(serverId: Id, key: Id, id: Id, t: Uuid) returns (es: seq<Event>)
    ensures CanRun(Init(serverId), es)
    ensures var s := Run(Init(serverId), es);
      && |s.conns| == 1 && s.conns[0].client == Established(t, serverId)
      && id in s.ingresses && s.ingresses[id].tunnels == []
  {
    var e0, e1 := AssignIngress(id, Ingress(key, true, false, [])), Dial(key, id);
    var s1 := Apply(Init(serverId), e0);
    var s2 := Apply(s1, e1);
    var rest := Exchange(s2, t);
    Prepend(s1, e1, rest);
    Prepend(Init(serverId), e0, [e1] + rest);
    es := [e0] + ([e1] + rest);
  }
}
