/**
 The authentication handshake of any number of tunnels with one server, down to the
 bytes on the command stream: clients, the server's connection handlers, the map of
 ingresses, and the assignment of authenticated tunnels to them.
 */
module Handshake {
  import opened Bytes
  import opened Frames
  import R = TunnelRegistry

  const CONNECTION_EOF := 0
  const REJECTED_AUTH_KEY := 400
  const REJECTED_INGRESS_ID := 401
  const UNEXPECTED_FRAME_RECEIVED := 3001
  const FRAME_NOT_RECEIVED_ON_TIME := 3002
  const UNKNOWN_ERROR := 3999

  datatype ClientError =
    | RejectedAuthKey
    | RejectedIngressId
    | ClosedTunnel
    | UnexpectedFrame
    | BadFrame
    | NotOnTime
    | Panicking
    | Unknown

  /** The error a client makes of the code its connection was closed with. */
  function ErrorOfCode(code: nat): ClientError {
    if code == CONNECTION_EOF then ClosedTunnel
    else if code == REJECTED_AUTH_KEY then RejectedAuthKey
    else if code == REJECTED_INGRESS_ID then RejectedIngressId
    else Unknown
  }

  datatype Client =
    | AwaitingReply
    | Established(tunnelId: Uuid, serverId: Id)
    | Refused(error: ClientError)

  /** Why a handler gave up without an answer. */
  datatype Reason =
    | TimedOut
    | StreamEnded        // the stream ended before a frame was complete
    | ReadFailed         // the connection was lost, or never opened its first stream
    | SendFailed
    | Crashed
    | Malformed
    | Unexpected

  /** The code a handler closes the connection with; dropping it closes it with CONNECTION_EOF. */
  function CodeOf(r: Reason): nat {
    match r
    case TimedOut => FRAME_NOT_RECEIVED_ON_TIME
    case ReadFailed => UNKNOWN_ERROR
    case Malformed => UNKNOWN_ERROR
    case Unexpected => UNEXPECTED_FRAME_RECEIVED
    case _ => CONNECTION_EOF
  }

  /**
   A connection handler. `Issued`: Authenticated was sent; then the tunnel is handed to
   the ingress, which takes it (`Assigned`) or not (`Unassigned`, which is only logged).
   */
  datatype Handler =
    | AwaitingAuth
    | UnknownIngress
    | WrongKey
    | Aborted(reason: Reason)
    | Issued(tunnelId: Uuid)
    | Assigned(tunnelId: Uuid)
    | Unassigned(tunnelId: Uuid)

  datatype Conn = Conn(
    authKey: Id, ingressId: Id,          // what the client asks for
    client: Client,
    handler: Handler,
    up: seq<byte>, handlerBuf: seq<byte>,
    down: seq<byte>, clientBuf: seq<byte>,
    closed: Option<nat>)                 // the code the server closed the connection with

  /** A TCP ingress always takes a tunnel, a UDP ingress only while it is listening. */
  datatype Ingress = Ingress(authKey: Id, udp: bool, listening: bool, tunnels: seq<Uuid>)

  datatype State = State(
    serverId: Id,
    ingresses: map<Id, Ingress>,
    conns: seq<Conn>,
    used: set<Uuid>,       // tunnel ids generated so far
    removed: set<Uuid>)    // tunnel ids taken off a list because the tunnel closed

  datatype Event =
    | AssignIngress(id: Id, ingress: Ingress)
    | SetListening(id: Id, on: bool)
    | Dial(authKey: Id, ingressId: Id)
    | HandlerReads(i: nat, n: nat, tunnelId: Uuid, sendOk: bool)
    | HandlerGivesUp(i: nat, reason: Reason)
    | AssignTunnel(i: nat)
    | HandlerPings(i: nat)
    | HandlerCloses(i: nat, code: nat)
    | RemoveTunnel(id: Id, at: nat)
    | ClientReads(i: nat, n: nat)
    | ClientSeesClose(i: nat)
    | ClientTimesOut(i: nat)
    | ClientLosesConnection(i: nat)

  function Init(serverId: Id): State {
    State(serverId, map[], [], {}, {})
  }

  /** The handler has authenticated the client and told it so. */
  function TunnelOf(h: Handler): Option<Uuid> {
    if h.Issued? || h.Assigned? || h.Unassigned? then Some(h.tunnelId) else None
  }

  predicate Accepts(g: Ingress) {
    !g.udp || g.listening
  }

  /** The handler gives up without an answer. */
  function Abort(c: Conn, r: Reason): Conn {
    c.(handler := Aborted(r), closed := Some(CodeOf(r)))
  }

  /** Events of one connection. */
  predicate IsConn(e: Event) {
    || e.HandlerReads? || e.HandlerGivesUp? || e.AssignTunnel? || e.HandlerPings? || e.HandlerCloses?
    || e.ClientReads? || e.ClientSeesClose? || e.ClientTimesOut? || e.ClientLosesConnection?
  }

  /** When an event of a connection can happen, as far as the connection is concerned. */
  predicate CanStep(c: Conn, e: Event)
    requires IsConn(e)
  {
    match e
    case HandlerReads(_, n, _, _) => c.handler.AwaitingAuth? && 1 <= n <= |c.up|
    case HandlerGivesUp(_, r) => c.handler.AwaitingAuth? && (r.TimedOut? || r.StreamEnded? || r.ReadFailed?)
    case AssignTunnel(_) => c.handler.Issued?
    case HandlerPings(_) => TunnelOf(c.handler).Some? && c.closed.None?
    case HandlerCloses(_, code) =>
      TunnelOf(c.handler).Some? && c.closed.None? && (code == CONNECTION_EOF || code == UNKNOWN_ERROR)
    case ClientReads(_, n) => c.client.AwaitingReply? && 1 <= n <= |c.down|
    case ClientSeesClose(_) => c.client.AwaitingReply? && c.closed.Some?
    case ClientTimesOut(_) => c.client.AwaitingReply?
    case ClientLosesConnection(_) => c.client.AwaitingReply?
  }

  predicate Enabled(s: State, e: Event) {
    if IsConn(e) then
      && e.i < |s.conns| && CanStep(s.conns[e.i], e)
      && (e.HandlerReads? ==> e.tunnelId !in s.used)
      && (e.AssignTunnel? ==> s.conns[e.i].ingressId in s.ingresses)
    else
      match e
      case AssignIngress(_, g) => g.tunnels == []
      case SetListening(id, _) => id in s.ingresses
      case Dial(_, _) => true
      case RemoveTunnel(id, at) => id in s.ingresses && at < |s.ingresses[id].tunnels|
  }

  /** The two checks of the handler, and its answer. */
  function Answer(s: State, c: Conn, key: Id, id: Id, t: Uuid, sendOk: bool): Conn {
    if id !in s.ingresses then c.(handler := UnknownIngress, closed := Some(REJECTED_INGRESS_ID))
    else if s.ingresses[id].authKey != key then c.(handler := WrongKey, closed := Some(REJECTED_AUTH_KEY))
    else if !sendOk then Abort(c, SendFailed)
    else c.(handler := Issued(t), down := c.down + Encode(Authenticated(t, s.serverId)))
  }

  function AfterHandlerRead(s: State, c: Conn, n: nat, t: Uuid, sendOk: bool): Conn
    requires n <= |c.up|
  {
    var b := c.handlerBuf + c.up[..n];
    var c' := c.(handlerBuf := b, up := c.up[n..]);
    match Decode(b)
    case Pending => c'
    case Panic => Abort(c', Crashed)
    case Failed(_, _) => Abort(c', Malformed)
    case Item(f, rest) =>
      if f.Auth? then Answer(s, c'.(handlerBuf := rest), f.authKey, f.ingressId, t, sendOk)
      else Abort(c', Unexpected)
  }

  function AfterClientRead(c: Conn, n: nat): Conn
    requires n <= |c.down|
  {
    var b := c.clientBuf + c.down[..n];
    var c' := c.(clientBuf := b, down := c.down[n..]);
    match Decode(b)
    case Pending => c'
    case Panic => c'.(client := Refused(Panicking))
    case Failed(_, _) => c'.(client := Refused(BadFrame))
    case Item(f, rest) =>
      if f.Authenticated? then c'.(client := Established(f.tunnelId, f.serverId), clientBuf := rest)
      else c'.(client := Refused(UnexpectedFrame))
  }

  /** What an event of a connection does to it. */
  function StepConn(s: State, c: Conn, e: Event): Conn
    requires IsConn(e) && CanStep(c, e)
    requires e.AssignTunnel? ==> c.ingressId in s.ingresses
  {
    match e
    case HandlerReads(_, n, t, sendOk) => AfterHandlerRead(s, c, n, t, sendOk)
    case HandlerGivesUp(_, r) => Abort(c, r)
    case AssignTunnel(_) =>
      var t := c.handler.tunnelId;
      c.(handler := if Accepts(s.ingresses[c.ingressId]) then Assigned(t) else Unassigned(t))
    case HandlerPings(_) => c.(down := c.down + Encode(Ping))
    case HandlerCloses(_, code) => c.(closed := Some(code))
    case ClientReads(_, n) => AfterClientRead(c, n)
    case ClientSeesClose(_) => c.(client := Refused(ErrorOfCode(c.closed.value)))
    case ClientTimesOut(_) => c.(client := Refused(NotOnTime))
    case ClientLosesConnection(_) => c.(client := Refused(Unknown))
  }

  /** The ingresses after an assignment: the tunnel is pushed only if the ingress takes it. */
  function Assign(ingresses: map<Id, Ingress>, c: Conn): map<Id, Ingress>
    requires c.handler.Issued? && c.ingressId in ingresses
  {
    var g := ingresses[c.ingressId];
    if Accepts(g) then ingresses[c.ingressId := g.(tunnels := g.tunnels + [c.handler.tunnelId])] else ingresses
  }

  function Apply(s: State, e: Event): State
    requires Enabled(s, e)
  {
    if IsConn(e) then
      var c := s.conns[e.i];
      s.(conns := s.conns[e.i := StepConn(s, c, e)],
         used := if e.HandlerReads? then s.used + {e.tunnelId} else s.used,
         ingresses := if e.AssignTunnel? then Assign(s.ingresses, c) else s.ingresses)
    else
      match e
      case AssignIngress(id, g) => if id in s.ingresses then s else s.(ingresses := s.ingresses[id := g])
      case SetListening(id, on) => s.(ingresses := s.ingresses[id := s.ingresses[id].(listening := on)])
      case Dial(key, id) =>
        s.(conns := s.conns + [Conn(key, id, AwaitingReply, AwaitingAuth, Encode(Auth(key, id)), [], [], [], None)])
      case RemoveTunnel(id, at) =>
        var g := s.ingresses[id];
        s.(ingresses := s.ingresses[id := g.(tunnels := R.SwapRemove(g.tunnels, at))],
           removed := s.removed + {g.tunnels[at]})
  }

  predicate CanRun(s: State, es: seq<Event>)
    decreases |es|
  {
    es == [] || (Enabled(s, es[0]) && CanRun(Apply(s, es[0]), es[1..]))
  }

  function Run(s: State, es: seq<Event>): State
    requires CanRun(s, es)
    decreases |es|
  {
    if es == [] then s else Run(Apply(s, es[0]), es[1..])
  }

  // ----- one connection -----

  /** The client's key is the key of the ingress it asked for. */
  predicate Authorised(ingresses: map<Id, Ingress>, c: Conn) {
    c.ingressId in ingresses && ingresses[c.ingressId].authKey == c.authKey
  }

  /** What the handler's stage says about the request and the wire. */
  ghost predicate HandlerOk(s: State, c: Conn) {
    match c.handler
    case AwaitingAuth =>
      c.handlerBuf + c.up == Encode(Auth(c.authKey, c.ingressId)) && c.down == [] == c.clientBuf && c.closed.None?
    case UnknownIngress => c.closed == Some(REJECTED_INGRESS_ID) && c.down == [] == c.clientBuf
    case WrongKey =>
      && c.closed == Some(REJECTED_AUTH_KEY) && c.down == [] == c.clientBuf
      && c.ingressId in s.ingresses && s.ingresses[c.ingressId].authKey != c.authKey
    case Aborted(r) =>
      c.closed == Some(CodeOf(r)) && !r.Malformed? && !r.Unexpected? && c.down == [] == c.clientBuf
    case _ =>
      && Authorised(s.ingresses, c) && c.handler.tunnelId in s.used
      && (c.closed.Some? ==> c.closed.value !in {REJECTED_AUTH_KEY, REJECTED_INGRESS_ID})
      && (c.client.AwaitingReply? ==>
            Encode(Authenticated(c.handler.tunnelId, s.serverId)) <= c.clientBuf + c.down)
  }

  /** What the client's conclusion says about the handler. */
  ghost predicate ClientOk(s: State, c: Conn) {
    match c.client
    case AwaitingReply => true
    case Established(t, server) => TunnelOf(c.handler) == Some(t) && server == s.serverId
    case Refused(RejectedAuthKey) => c.handler.WrongKey?
    case Refused(RejectedIngressId) => c.handler.UnknownIngress?
    case Refused(UnexpectedFrame) => false
    case Refused(BadFrame) => false
    case _ => true
  }

  ghost predicate ConnOk(s: State, c: Conn) {
    HandlerOk(s, c) && ClientOk(s, c)
  }

  /** The server's identity stays, ingresses keep their keys, ids stay used. */
  ghost predicate Grows(s: State, s': State) {
    && s'.serverId == s.serverId && s.used <= s'.used
    && (forall id :: id in s.ingresses ==> id in s'.ingresses && s'.ingresses[id].authKey == s.ingresses[id].authKey)
  }

  lemma GrowthKeepsConn(s: State, s': State, c: Conn)
    requires ConnOk(s, c) && Grows(s, s')
    ensures ConnOk(s', c)
  {
    hide Encode;
  }

  /** What the reader of a prefix of an encoded frame, followed by more, makes of it. */
  lemma ReadPrefix(f: Frame, whole: seq<byte>, b: seq<byte>)
    requires Encode(f) <= whole && b <= whole
    ensures |b| < |Encode(f)| ==> Decode(b).Pending? || Decode(b).Panic?
    ensures |b| >= |Encode(f)| ==> Decode(b).Item? && Decode(b).frame == f
  {
    if |b| < |Encode(f)| {
      assert b == Encode(f)[..|b|];
      DecodeStrictPrefix(f, |b|);
    } else {
      assert b == Encode(f) + b[|Encode(f)|..];
      DecodeEncode(f, b[|Encode(f)|..]);
    }
  }

  /** The client has concluded nothing about the handler, and nothing was sent to it. */
  ghost predicate Unanswered(c: Conn) {
    && c.down == [] == c.clientBuf && c.closed.None?
    && (c.client.Refused? ==>
          c.client.error !in {RejectedAuthKey, RejectedIngressId, UnexpectedFrame, BadFrame})
    && !c.client.Established?
  }

  lemma AnswerKeeps(s: State, s': State, c: Conn, t: Uuid, sendOk: bool)
    requires Unanswered(c) && Grows(s, s') && s'.ingresses == s.ingresses && t in s'.used
    ensures ConnOk(s', Answer(s, c, c.authKey, c.ingressId, t, sendOk))
  {
    hide Encode;
    var e := Encode(Authenticated(t, s.serverId));
    assert [] + ([] + e) == e;
  }

  lemma HandlerReadKeeps(s: State, s': State, c: Conn, n: nat, t: Uuid, sendOk: bool)
    requires ConnOk(s, c) && c.handler.AwaitingAuth? && n <= |c.up|
    requires Grows(s, s') && s'.ingresses == s.ingresses && t in s'.used
    ensures ConnOk(s', AfterHandlerRead(s, c, n, t, sendOk))
  {
    hide Decode, Encode;
    var f := Auth(c.authKey, c.ingressId);
    var b := c.handlerBuf + c.up[..n];
    assert b + c.up[n..] == c.handlerBuf + c.up == Encode(f);
    assert Unanswered(c);
    hide HandlerOk, ClientOk;
    ReadPrefix(f, Encode(f), b);
    if Decode(b).Item? {
      AnswerKeeps(s, s', c.(handlerBuf := Decode(b).rest, up := c.up[n..]), t, sendOk);
    } else {
      WaitOrCrashKeeps(s', c.(handlerBuf := b, up := c.up[n..]));
    }
  }

  lemma WaitOrCrashKeeps(s: State, c: Conn)
    requires Unanswered(c) && c.handler.AwaitingAuth?
    requires c.handlerBuf + c.up == Encode(Auth(c.authKey, c.ingressId))
    ensures ConnOk(s, c)
    ensures ConnOk(s, Abort(c, Crashed))
  {
    hide Encode;
  }

  lemma ClientReadKeeps(s: State, c: Conn, n: nat)
    requires ConnOk(s, c) && c.client.AwaitingReply? && 1 <= n <= |c.down|
    ensures ConnOk(s, AfterClientRead(c, n))
    ensures AfterClientRead(c, n).handler == c.handler
  {
    hide Decode, Encode;
    assert TunnelOf(c.handler).Some?;
    var f := Authenticated(c.handler.tunnelId, s.serverId);
    var b := c.clientBuf + c.down[..n];
    assert b + c.down[n..] == c.clientBuf + c.down;
    ReadPrefix(f, c.clientBuf + c.down, b);
  }

  // ----- the server's lists -----

  /** Connection `i` was issued tunnel `t`. */
  predicate IssuedTo(s: State, i: nat, t: Uuid) {
    i < |s.conns| && TunnelOf(s.conns[i].handler) == Some(t)
  }

  /** Connection `i` was issued `t` and its ingress took the tunnel. */
  predicate Took(s: State, id: Id, i: nat, t: Uuid) {
    i < |s.conns| && s.conns[i].handler == Assigned(t) && s.conns[i].ingressId == id
  }

  /** Tunnel ids belong to one connection each. */
  ghost predicate IdsUnique(s: State) {
    && (forall i, j, t :: IssuedTo(s, i, t) && IssuedTo(s, j, t) ==> i == j)
    && (forall i, t :: IssuedTo(s, i, t) ==> t in s.used)
  }

  /** A list holds, once each, exactly the tunnels the ingress took that were not removed. */
  ghost predicate ListOk(s: State, id: Id) {
    id in s.ingresses ==>
      && R.Distinct(s.ingresses[id].tunnels)
      && (forall t :: t in s.ingresses[id].tunnels <==> t !in s.removed && exists i :: Took(s, id, i, t))
  }

  ghost predicate ConnsOk(s: State) {
    forall i :: 0 <= i < |s.conns| ==> ConnOk(s, s.conns[i])
  }

  ghost predicate ListsOk(s: State) {
    && (forall id :: ListOk(s, id))
    && (forall t :: t in s.removed ==> exists id, i :: Took(s, id, i, t))
  }

  ghost predicate Inv(s: State) {
    ConnsOk(s) && IdsUnique(s) && ListsOk(s)
  }

  // -- connections --

  lemma StepGrows(s: State, e: Event)
    requires Enabled(s, e)
    ensures Grows(s, Apply(s, e))
  {
    hide StepConn, CanStep;
  }

  lemma PlainStepKeeps(s: State, c: Conn, e: Event)
    requires ConnOk(s, c) && IsConn(e) && CanStep(c, e) && !e.HandlerReads? && !e.ClientReads?
    requires e.AssignTunnel? ==> c.ingressId in s.ingresses
    ensures ConnOk(s, StepConn(s, c, e))
  {
    hide Encode, Decode;
    if e.HandlerPings? {
      assert c.clientBuf + (c.down + Encode(Ping)) == (c.clientBuf + c.down) + Encode(Ping);
    }
  }

  lemma ConnStepKeeps(s: State, e: Event)
    requires ConnsOk(s) && IsConn(e) && Enabled(s, e)
    ensures ConnOk(Apply(s, e), Apply(s, e).conns[e.i])
  {
    var s', c := Apply(s, e), s.conns[e.i];
    assert ConnOk(s, c);
    StepGrows(s, e);
    hide ConnOk, Grows, AfterHandlerRead, AfterClientRead;
    if e.HandlerReads? {
      HandlerReadKeeps(s, s', c, e.n, e.tunnelId, e.sendOk);
    } else {
      if e.ClientReads? {
        ClientReadKeeps(s, c, e.n);
      } else {
        PlainStepKeeps(s, c, e);
      }
      GrowthKeepsConn(s, s', s'.conns[e.i]);
    }
  }

  lemma StepKeepsConns(s: State, e: Event)
    requires ConnsOk(s) && Enabled(s, e)
    ensures ConnsOk(Apply(s, e))
  {
    var s' := Apply(s, e);
    StepGrows(s, e);
    if IsConn(e) {
      ConnStepKeeps(s, e);
    }
    hide Encode, StepConn, CanStep, Grows;
    forall j: nat | j < |s'.conns| ensures ConnOk(s', s'.conns[j]) {
      if j < |s.conns| && !(IsConn(e) && e.i == j) {
        assert ConnOk(s, s.conns[j]);
        GrowthKeepsConn(s, s', s.conns[j]);
      }
    }
  }

  // -- lists --

  /** The same tunnels were issued, taken and removed. */
  ghost predicate SameTunnels(s: State, s': State) {
    && s'.removed == s.removed && s.used <= s'.used
    && (forall i, t :: IssuedTo(s', i, t) <==> IssuedTo(s, i, t))
    && (forall id, i, t :: Took(s', id, i, t) <==> Took(s, id, i, t))
    && (forall id :: id in s'.ingresses ==>
          s'.ingresses[id].tunnels == if id in s.ingresses then s.ingresses[id].tunnels else [])
  }

  /** An ingress that is not there yet has taken no tunnel. */
  lemma TakerExists(s: State, id: Id, i: nat, t: Uuid)
    requires ConnsOk(s) && Took(s, id, i, t)
    ensures id in s.ingresses
  {
    assert ConnOk(s, s.conns[i]);
  }

  lemma SameTunnelsKeep(s: State, s': State)
    requires Inv(s) && SameTunnels(s, s')
    ensures IdsUnique(s') && ListsOk(s')
  {
    forall id ensures ListOk(s', id) {
      assert ListOk(s, id);
      if id in s'.ingresses && id !in s.ingresses {
        forall i, t | Took(s, id, i, t) ensures false {
          TakerExists(s, id, i, t);
        }
      }
    }
    forall t | t in s'.removed ensures exists id, i :: Took(s', id, i, t) {
      var id, i :| Took(s, id, i, t);
      assert Took(s', id, i, t);
    }
  }

  /** Tunnel and list of a connection are untouched by everything but an answer and an assignment. */
  lemma QuietStep(s: State, c: Conn, e: Event)
    requires IsConn(e) && CanStep(c, e) && !e.HandlerReads? && !e.AssignTunnel?
    ensures var c' := StepConn(s, c, e);
      c'.ingressId == c.ingressId && TunnelOf(c'.handler) == TunnelOf(c.handler)
      && c'.handler.Assigned? == c.handler.Assigned?
  {
    hide Decode, Encode;
  }

  lemma ReadStep(s: State, c: Conn, e: Event)
    requires e.HandlerReads? && CanStep(c, e)
    ensures var c' := StepConn(s, c, e);
      c'.ingressId == c.ingressId && !c'.handler.Assigned? && TunnelOf(c'.handler) in {None, Some(e.tunnelId)}
  {
    hide Decode, Encode;
  }

  lemma QuietConnEvent(s: State, e: Event)
    requires Enabled(s, e) && IsConn(e) && !e.HandlerReads? && !e.AssignTunnel?
    ensures SameTunnels(s, Apply(s, e))
  {
    hide StepConn;
    QuietStep(s, s.conns[e.i], e);
    hide CanStep, Assign;
  }

  lemma QuietServerEvent(s: State, e: Event)
    requires Enabled(s, e) && !IsConn(e) && !e.RemoveTunnel?
    ensures SameTunnels(s, Apply(s, e))
  {
    hide Encode;
  }

  lemma IssueChanges(s: State, e: Event)
    requires e.HandlerReads? && Enabled(s, e)
    ensures var s' := Apply(s, e);
      && s'.removed == s.removed && s'.ingresses == s.ingresses && s'.used == s.used + {e.tunnelId}
      && (forall j, t :: IssuedTo(s', j, t) ==> IssuedTo(s, j, t) || (j == e.i && t == e.tunnelId))
      && (forall id, j, t :: Took(s', id, j, t) <==> Took(s, id, j, t))
  {
    ReadStep(s, s.conns[e.i], e);
    hide StepConn;
  }

  lemma SameList(s: State, s': State, id: Id)
    requires ListOk(s, id) && s'.ingresses == s.ingresses && s'.removed == s.removed
    requires forall j, t :: Took(s', id, j, t) <==> Took(s, id, j, t)
    ensures ListOk(s', id)
  {
    hide Took;
    if id in s.ingresses {
      var ts := s.ingresses[id].tunnels;
      forall t ensures t in ts <==> t !in s'.removed && exists j :: Took(s', id, j, t) {
        assert forall j :: Took(s', id, j, t) <==> Took(s, id, j, t);
      }
    }
  }

  lemma IssueKeeps(s: State, e: Event)
    requires Inv(s) && e.HandlerReads? && Enabled(s, e)
    ensures IdsUnique(Apply(s, e)) && ListsOk(Apply(s, e))
  {
    var s' := Apply(s, e);
    assert e.tunnelId !in s.used;
    IssueChanges(s, e);
    hide ConnsOk, Apply, Enabled, IssuedTo, Took;
    assert IdsUnique(s');
    hide IdsUnique;
    forall id ensures ListOk(s', id) {
      assert ListOk(s, id);
      SameList(s, s', id);
    }
    hide ListOk;
    forall t | t in s'.removed ensures exists id, i :: Took(s', id, i, t) {
      var id, i :| Took(s, id, i, t);
      assert Took(s', id, i, t);
    }
  }

  /** A tunnel about to be assigned is on no list and was never removed. */
  lemma NotYetTaken(s: State, i: nat, id: Id, j: nat, t: Uuid)
    requires IdsUnique(s) && i < |s.conns| && s.conns[i].handler == Issued(t)
    ensures !Took(s, id, j, t)
  {
    assert IssuedTo(s, i, t);
    assert Took(s, id, j, t) ==> IssuedTo(s, j, t);
  }

  lemma AssignKeepsList(s: State, e: Event, id: Id)
    requires Inv(s) && e.AssignTunnel? && Enabled(s, e)
    ensures ListOk(Apply(s, e), id)
  {
    var s', t, me := Apply(s, e), s.conns[e.i].handler.tunnelId, s.conns[e.i].ingressId;
    assert ListOk(s, id);
    hide ConnsOk;
    forall k, j ensures !Took(s, k, j, t) {
      NotYetTaken(s, e.i, k, j, t);
    }
    assert t !in s.removed;
    var takes := Accepts(s.ingresses[me]);
    assert forall j, x :: Took(s', id, j, x) <==> Took(s, id, j, x) || (takes && id == me && j == e.i && x == t);
    if id in s.ingresses {
      var before, after := s.ingresses[id].tunnels, s'.ingresses[id].tunnels;
      assert after == if takes && id == me then before + [t] else before;
      if takes && id == me {
        assert Took(s', id, e.i, t);
      }
      forall x ensures x in after <==> x !in s'.removed && exists j :: Took(s', id, j, x) {
        if x in before {
          var j :| Took(s, id, j, x);
          assert Took(s', id, j, x);
        }
      }
    }
  }

  lemma AssignKeeps(s: State, e: Event)
    requires Inv(s) && e.AssignTunnel? && Enabled(s, e)
    ensures IdsUnique(Apply(s, e)) && ListsOk(Apply(s, e))
  {
    hide ListOk, ConnsOk;
    var s' := Apply(s, e);
    assert forall j, t :: IssuedTo(s', j, t) <==> IssuedTo(s, j, t);
    forall id ensures ListOk(s', id) {
      AssignKeepsList(s, e, id);
    }
    forall t | t in s'.removed ensures exists id, i :: Took(s', id, i, t) {
      var id, i :| Took(s, id, i, t);
      assert Took(s', id, i, t);
    }
  }

  lemma RemoveKeepsList(s: State, e: Event, id: Id)
    requires Inv(s) && e.RemoveTunnel? && Enabled(s, e)
    ensures ListOk(Apply(s, e), id)
  {
    var s', t := Apply(s, e), s.ingresses[e.id].tunnels[e.at];
    assert ListOk(s, id) && ListOk(s, e.id);
    assert t in s.ingresses[e.id].tunnels;
    var i :| Took(s, e.id, i, t);
    assert forall k, j, x :: Took(s', k, j, x) <==> Took(s, k, j, x);
    if id == e.id {
      forall x ensures x in s'.ingresses[id].tunnels <==> x in s.ingresses[id].tunnels && x != t {
        R.SwapRemoveExact(s.ingresses[id].tunnels, e.at, x);
      }
      R.SwapRemoveExact(s.ingresses[id].tunnels, e.at, t);
    } else {
      forall j ensures !Took(s, id, j, t) {
        assert Took(s, id, j, t) ==> IssuedTo(s, j, t) && IssuedTo(s, i, t);
      }
    }
  }

  lemma RemoveKeeps(s: State, e: Event)
    requires Inv(s) && e.RemoveTunnel? && Enabled(s, e)
    ensures IdsUnique(Apply(s, e)) && ListsOk(Apply(s, e))
  {
    var s', x := Apply(s, e), s.ingresses[e.id].tunnels[e.at];
    assert forall j, t :: IssuedTo(s', j, t) <==> IssuedTo(s, j, t);
    forall id ensures ListOk(s', id) {
      RemoveKeepsList(s, e, id);
    }
    assert ListOk(s, e.id);
    assert x in s.ingresses[e.id].tunnels;
    hide ListOk;
    forall t | t in s'.removed ensures exists id, i :: Took(s', id, i, t) {
      if t in s.removed {
        var id, i :| Took(s, id, i, t);
        assert Took(s', id, i, t);
      } else {
        var i :| Took(s, e.id, i, x);
        assert Took(s', e.id, i, t);
      }
    }
  }

  lemma StepKeepsInv(s: State, e: Event)
    requires Inv(s) && Enabled(s, e)
    ensures Inv(Apply(s, e))
  {
    StepKeepsConns(s, e);
    hide ConnsOk, IdsUnique, ListsOk, Apply, Enabled;
    if e.HandlerReads? {
      IssueKeeps(s, e);
    } else if e.AssignTunnel? {
      AssignKeeps(s, e);
    } else if e.RemoveTunnel? {
      RemoveKeeps(s, e);
    } else {
      if IsConn(e) {
        QuietConnEvent(s, e);
      } else {
        QuietServerEvent(s, e);
      }
      SameTunnelsKeep(s, Apply(s, e));
    }
  }

  lemma {:induction false} RunKeepsInv(s: State, es: seq<Event>)
    requires Inv(s) && CanRun(s, es)
    ensures Inv(Run(s, es)) && Run(s, es).serverId == s.serverId
    decreases |es|
  {
    hide Inv, Apply, Enabled;
    if es == [] {
    } else {
      StepKeepsInv(s, es[0]);
      StepGrows(s, es[0]);
      RunKeepsInv(Apply(s, es[0]), es[1..]);
    }
  }

  // ----- every run -----

  /**
   Agreement: a client that got a tunnel agrees with its handler on the tunnel id and the
   server id, the handler's two checks passed for the id and key this client asked for,
   and no other connection was issued that tunnel id. A client is told that its key or
   its ingress id was rejected only if the handler rejected it for that reason. Neither
   party ever sees an unexpected or malformed frame: a handler that gives up without an
   answer waited too long, lost the stream or the connection, could not send, or panicked.
   */
  lemma HandshakeAgreement(serverId: Id, es: seq<Event>, i: nat)
    requires CanRun(Init(serverId), es) && i < |Run(Init(serverId), es).conns|
    ensures var s := Run(Init(serverId), es);
      var c := s.conns[i];
      && (c.client.Established? ==>
            && c.client.serverId == serverId
            && TunnelOf(c.handler) == Some(c.client.tunnelId)
            && Authorised(s.ingresses, c)
            && (forall j :: 0 <= j < |s.conns| && TunnelOf(s.conns[j].handler) == TunnelOf(c.handler) ==> j == i))
      && (c.client == Refused(RejectedAuthKey) ==>
            c.handler.WrongKey? && c.ingressId in s.ingresses && s.ingresses[c.ingressId].authKey != c.authKey)
      && (c.client == Refused(RejectedIngressId) ==> c.handler.UnknownIngress?)
      && c.client != Refused(UnexpectedFrame) && c.client != Refused(BadFrame)
      && (c.handler.Aborted? ==>
            !c.handler.reason.Malformed? && !c.handler.reason.Unexpected? && c.closed == Some(CodeOf(c.handler.reason)))
  {
    RunKeepsInv(Init(serverId), es);
    var s := Run(Init(serverId), es);
    var c := s.conns[i];
    assert ConnOk(s, c);
    hide Run, CanRun, Encode, ListsOk;
    if c.client.Established? {
      forall j | 0 <= j < |s.conns| && TunnelOf(s.conns[j].handler) == TunnelOf(c.handler) ensures j == i {
        assert IssuedTo(s, i, c.client.tunnelId) && IssuedTo(s, j, c.client.tunnelId);
      }
    }
  }

  /**
   Every tunnel on an ingress's list stems from one connection whose Auth frame matched
   that ingress's id and key; the list is duplicate-free, and misses none of the tunnels
   the ingress took that have not closed.
   */
  lemma ListedTunnelsAreAuthorised(serverId: Id, es: seq<Event>, id: Id)
    requires CanRun(Init(serverId), es) && id in Run(Init(serverId), es).ingresses
    ensures var s := Run(Init(serverId), es);
      var g := s.ingresses[id];
      && R.Distinct(g.tunnels)
      && (forall t :: t in g.tunnels <==> t !in s.removed && exists i :: Took(s, id, i, t))
      && (forall i: nat, t :: Took(s, id, i, t) ==> s.conns[i].authKey == g.authKey && s.conns[i].ingressId == id)
  {
    RunKeepsInv(Init(serverId), es);
    var s := Run(Init(serverId), es);
    hide Run, CanRun, Encode;
    assert ListOk(s, id);
    forall i: nat, t | Took(s, id, i, t) ensures s.conns[i].authKey == s.ingresses[id].authKey {
      assert ConnOk(s, s.conns[i]);
    }
  }
}
