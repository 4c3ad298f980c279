/**
 The UDP egress on one tunnel connection, as an interleaving of its tasks: the select
 loop that owns the table of origins, and for every session a forward task that
 writes datagrams to the target socket and a reverse task that sends replies back.

 The select loop looks up an origin, and for an unknown one spawns a session, offers
 it the first payload and only then inserts it into the table; other tasks run in
 between. They all share one expiry queue, the tunnel and the process token.
 */
module UdpSessions {
  import opened Datagrams
  import opened Subsequences
  import opened Bytes

  const MAX_MESSAGES_RECEIVED := 128

  type Payload = seq<byte>

  /** Why a forward task stopped. */
  datatype Reason = SocketFailure | IdleTimeout | Cancellation | ClosedTunnel | SendersDropped

  /** `Expired`: past its expiry message, about to return. */
  datatype Forward =
    | Opening
    | Running(batch: seq<Payload>)
    | Expired(reason: Reason)
    | Ended(reason: Reason)

  datatype Reverse = NotStarted | Pumping | Stopped

  datatype Session = Session(
    origin: SocketAddr,
    queue: seq<Payload>,
    forward: Forward,
    reverse: Reverse,
    socketCancelled: bool)

  /** An expiry message. The loop sees only `origin`; `sender` records who sent it. */
  datatype Expiry = Expiry(origin: SocketAddr, sender: nat)

  datatype Loop =
    | Selecting
    | Spawned(sid: nat, payload: Payload)
    | Offered(sid: nat)
    | Left

  datatype State = State(
    sessions: seq<Session>,
    table: map<SocketAddr, nat>,
    expiry: seq<Expiry>,
    loop: Loop,
    tunnelClosed: bool,
    cancelled: bool,
    arrived: seq<(SocketAddr, Payload)>,   // datagrams read from the tunnel
    handed: seq<(SocketAddr, Payload)>,    // payloads handed to a target socket, by its origin
    replies: seq<(SocketAddr, Payload)>)   // replies read from a target socket, by its origin

  datatype Event =
    // select loop
    | Arrive(origin: SocketAddr, payload: Payload)
    | Offer
    | Insert
    | HandleExpiry
    | Leave
    // environment
    | CloseTunnel
    | CancelProcess
    // forward task of session i
    | SocketOpened(i: nat)
    | SocketFailed(i: nat)
    | Receive(i: nat, n: nat)
    | HandOver(i: nat, accepted: bool)
    | GoIdle(i: nat)
    | SeeClosed(i: nat)
    | SeeCancelled(i: nat)
    | SeeSendersDropped(i: nat)
    | Return(i: nat)
    // reverse task of session i
    | Reply(i: nat, payload: Payload)
    | StopReverse(i: nat)

  function Init(): State {
    State([], map[], [], Selecting, false, false, [], [], [])
  }

  predicate Live(f: Forward) {
    f.Opening? || f.Running?
  }

  predicate AboutToInsert(s: State, i: nat) {
    (s.loop.Spawned? || s.loop.Offered?) && s.loop.sid == i
  }

  /** Session `i` is the one its origin maps to, counting an insert that is under way. */
  predicate Holds(s: State, i: nat) {
    && i < |s.sessions|
    && (AboutToInsert(s, i) || (s.sessions[i].origin in s.table && s.table[s.sessions[i].origin] == i))
  }

  /** Some sender of session `i`'s queue still exists. The loop drops them all when it leaves. */
  predicate SenderAlive(s: State, i: nat) {
    !s.loop.Left? && Holds(s, i)
  }

  /** `try_send`: lost if the queue is full or its receiver is gone. */
  function TrySend(t: Session, p: Payload): Session {
    if t.forward.Ended? || |t.queue| >= MAX_MESSAGES_RECEIVED then t else t.(queue := t.queue + [p])
  }

  /** The select arm of session `i`'s forward task is waiting: socket open, batch written. */
  predicate Waiting(s: State, i: nat) {
    i < |s.sessions| && s.sessions[i].forward == Running([])
  }

  predicate MayStopReverse(s: State, i: nat) {
    i < |s.sessions| && s.sessions[i].reverse.Pumping?
    && (s.sessions[i].socketCancelled || s.tunnelClosed || s.cancelled)
  }

  predicate Enabled(s: State, e: Event) {
    match e
    case Arrive(a, _) => s.loop.Selecting? && (a in s.table ==> s.table[a] < |s.sessions|)
    case Offer => s.loop.Spawned? && s.loop.sid < |s.sessions|
    case Insert => s.loop.Offered? && s.loop.sid < |s.sessions|
    case HandleExpiry => s.loop.Selecting? && s.expiry != []
    case Leave => s.loop.Selecting? && (s.tunnelClosed || s.cancelled)
    case CloseTunnel => true
    case CancelProcess => true
    case SocketOpened(i) => i < |s.sessions| && s.sessions[i].forward.Opening?
    case SocketFailed(i) => i < |s.sessions| && s.sessions[i].forward.Opening?
    case Receive(i, n) => Waiting(s, i) && 1 <= n <= |s.sessions[i].queue| && n <= MAX_MESSAGES_RECEIVED
    case HandOver(i, _) => i < |s.sessions| && s.sessions[i].forward.Running? && s.sessions[i].forward.batch != []
    case GoIdle(i) => Waiting(s, i)
    case SeeClosed(i) => Waiting(s, i) && s.tunnelClosed
    case SeeCancelled(i) => Waiting(s, i) && s.cancelled
    case SeeSendersDropped(i) => Waiting(s, i) && s.sessions[i].queue == [] && !SenderAlive(s, i)
    case Return(i) => i < |s.sessions| && s.sessions[i].forward.Expired?
    case Reply(i, _) => i < |s.sessions| && s.sessions[i].reverse.Pumping?
    case StopReverse(i) => MayStopReverse(s, i)
  }

  function Put(s: State, i: nat, t: Session): State
    requires i < |s.sessions|
  {
    s.(sessions := s.sessions[i := t])
  }

  /** Events of a session's own tasks that change the session. */
  predicate IsTask(e: Event) {
    || e.SocketOpened? || e.SocketFailed? || e.Receive? || e.HandOver? || e.GoIdle? || e.SeeClosed?
    || e.SeeCancelled? || e.SeeSendersDropped? || e.Return? || e.StopReverse?
  }

  /** Task events that send the session's one expiry message. */
  predicate Announces(e: Event) {
    e.SocketFailed? || e.GoIdle? || e.SeeClosed?
  }

  /** What such an event does to its session. Ending drops the queue's receiver and all that is in it. */
  function TaskStep(t: Session, e: Event): Session
    requires IsTask(e)
    requires e.Receive? ==> e.n <= |t.queue|
    requires e.HandOver? ==> t.forward.Running? && t.forward.batch != []
    requires e.Return? ==> t.forward.Expired?
  {
    match e
    case SocketOpened(_) => t.(forward := Running([]), reverse := Pumping)
    case SocketFailed(_) => t.(forward := Expired(SocketFailure))
    case Receive(_, n) => t.(forward := Running(t.queue[..n]), queue := t.queue[n..])
    case HandOver(_, _) => t.(forward := Running(t.forward.batch[1..]))
    case GoIdle(_) => t.(forward := Expired(IdleTimeout))
    case SeeClosed(_) => t.(forward := Expired(ClosedTunnel))
    case SeeCancelled(_) => t.(forward := Ended(Cancellation), queue := [])
    case SeeSendersDropped(_) => t.(forward := Ended(SendersDropped), queue := [])
    case Return(_) =>
      t.(forward := Ended(t.forward.reason), queue := [],
         socketCancelled := t.socketCancelled || t.forward.reason.IdleTimeout?)
    case StopReverse(_) => t.(reverse := Stopped)
  }

  /** A task event: an expiry message is lost if the loop has dropped its receiver. */
  function ApplyTask(s: State, e: Event): State
    requires IsTask(e) && Enabled(s, e)
  {
    var t := s.sessions[e.i];
    s.(sessions := s.sessions[e.i := TaskStep(t, e)],
       expiry := if Announces(e) && !s.loop.Left? then s.expiry + [Expiry(t.origin, e.i)] else s.expiry,
       handed := if e.HandOver? && e.accepted then s.handed + [(t.origin, t.forward.batch[0])] else s.handed)
  }

  function Apply(s: State, e: Event): State
    requires Enabled(s, e)
  {
    if IsTask(e) then ApplyTask(s, e) else
      match e
      case Arrive(a, p) =>
        var s' := s.(arrived := s.arrived + [(a, p)]);
        if a in s.table then Put(s', s.table[a], TrySend(s.sessions[s.table[a]], p))
        else s'.(sessions := s.sessions + [Session(a, [], Opening, NotStarted, false)],
                 loop := Spawned(|s.sessions|, p))
      case Offer =>
        Put(s, s.loop.sid, TrySend(s.sessions[s.loop.sid], s.loop.payload)).(loop := Offered(s.loop.sid))
      case Insert =>
        s.(table := s.table[s.sessions[s.loop.sid].origin := s.loop.sid], loop := Selecting)
      case HandleExpiry => s.(table := s.table - {s.expiry[0].origin}, expiry := s.expiry[1..])
      case Leave => s.(loop := Left)
      case CloseTunnel => s.(tunnelClosed := true)
      case CancelProcess => s.(cancelled := true)
      case Reply(i, p) => s.(replies := s.replies + [(s.sessions[i].origin, p)])
  }

  predicate CanRun(s: State, es: seq<Event>)
    decreases |es|
  {
    es == [] || (Enabled(s, es[0]) && CanRun(Apply(s, es[0]), es[1..]))
  }

  /** The state after a run. */
  function Run(s: State, es: seq<Event>): State
    requires CanRun(s, es)
    decreases |es|
  {
    if es == [] then s else Run(Apply(s, es[0]), es[1..])
  }

  // ----- the inductive invariant -----

  ghost predicate TableOk(s: State) {
    && (forall a :: a in s.table ==> s.table[a] < |s.sessions| && s.sessions[s.table[a]].origin == a)
    && (s.loop.Spawned? || s.loop.Offered? ==>
          s.loop.sid < |s.sessions| && s.sessions[s.loop.sid].origin !in s.table)
  }

  /** No session of the same origin is newer than the one that holds it. */
  ghost predicate HoldersNewest(s: State) {
    forall i, j :: 0 <= i < j < |s.sessions| && Holds(s, i) ==> s.sessions[j].origin != s.sessions[i].origin
  }

  ghost predicate LiveHolds(s: State) {
    forall i :: 0 <= i < |s.sessions| && Live(s.sessions[i].forward) ==> Holds(s, i)
  }

  ghost predicate ExpiryOk(s: State) {
    && (forall k :: 0 <= k < |s.expiry| ==>
          var e := s.expiry[k];
          Holds(s, e.sender) && s.sessions[e.sender].origin == e.origin && !Live(s.sessions[e.sender].forward))
    && (forall j, k :: 0 <= j < k < |s.expiry| ==> s.expiry[j].sender != s.expiry[k].sender)
  }

  ghost predicate Announced(s: State, i: nat) {
    exists k :: 0 <= k < |s.expiry| && s.expiry[k].sender == i
  }

  ghost predicate DeadAnnounced(s: State) {
    forall i :: 0 <= i < |s.sessions| && Holds(s, i) && !Live(s.sessions[i].forward) ==>
      Announced(s, i) || s.cancelled || s.loop.Left?
  }

  /** Queues and batches stay within their capacity. */
  predicate Fits(t: Session) {
    |t.queue| <= MAX_MESSAGES_RECEIVED && (t.forward.Running? ==> |t.forward.batch| <= MAX_MESSAGES_RECEIVED)
  }

  /** The forward task has not opened its socket, or could not. */
  predicate NoSocket(f: Forward) {
    f.Opening? || f == Expired(SocketFailure) || f == Ended(SocketFailure)
  }

  /** What each stage of a forward task leaves behind for its reverse task. */
  ghost predicate StageOk(s: State, t: Session) {
    Fits(t) && (t.reverse.NotStarted? <==> NoSocket(t.forward)) &&
    match t.forward
    case Opening => true
    case Running(_) => true
    case Expired(SocketFailure) => true
    case Expired(IdleTimeout) => true
    case Ended(SocketFailure) => true
    case Ended(IdleTimeout) => t.socketCancelled
    case Expired(_) => s.tunnelClosed || s.cancelled
    case Ended(_) => s.tunnelClosed || s.cancelled
  }

  ghost predicate StagesOk(s: State) {
    && (s.loop.Left? ==> s.tunnelClosed || s.cancelled)
    && (forall i :: 0 <= i < |s.sessions| ==> StageOk(s, s.sessions[i]))
  }

  /** The ownership part of the invariant. */
  ghost predicate Owned(s: State) {
    TableOk(s) && HoldersNewest(s) && LiveHolds(s) && ExpiryOk(s) && DeadAnnounced(s)
  }

  /** Same table, same loop, same origins: the same sessions hold. */
  ghost predicate SameHolders(s: State, s': State) {
    && s'.table == s.table && s'.loop == s.loop && |s'.sessions| == |s.sessions|
    && (forall j :: 0 <= j < |s.sessions| ==> s'.sessions[j].origin == s.sessions[j].origin)
  }

  lemma SameHoldersKeep(s: State, s': State)
    requires TableOk(s) && HoldersNewest(s) && SameHolders(s, s')
    ensures TableOk(s') && HoldersNewest(s')
    ensures forall j :: Holds(s', j) == Holds(s, j)
  {
    assert forall j :: Holds(s', j) == Holds(s, j);
  }

  /** Sessions may stop, if their death is excused; nobody comes back to life. */
  lemma LocalKeepsOwned(s: State, s': State)
    requires Owned(s) && SameHolders(s, s') && s'.expiry == s.expiry
    requires s.cancelled ==> s'.cancelled
    requires forall j :: 0 <= j < |s.sessions| && Live(s'.sessions[j].forward) ==> Live(s.sessions[j].forward)
    requires forall j :: 0 <= j < |s.sessions| && Live(s.sessions[j].forward) && !Live(s'.sessions[j].forward) ==>
               s.cancelled || s.loop.Left?
    ensures Owned(s')
  {
    SameHoldersKeep(s, s');
    assert forall j :: Announced(s', j) == Announced(s, j);
  }

  lemma TaskStepShape(s: State, e: Event)
    requires IsTask(e) && Enabled(s, e)
    ensures var t, t' := s.sessions[e.i], TaskStep(s.sessions[e.i], e);
      && t'.origin == t.origin
      && (Live(t'.forward) ==> Live(t.forward))
      && (Announces(e) ==> Live(t.forward) && !Live(t'.forward))
      && (Live(t.forward) && !Live(t'.forward) ==> Announces(e) || e.SeeCancelled? || e.SeeSendersDropped?)
  {
  }

  /** What a task event does to the whole state. */
  lemma TaskFrame(s: State, e: Event)
    requires IsTask(e) && Enabled(s, e)
    ensures var s' := Apply(s, e);
      && s'.sessions == s.sessions[e.i := TaskStep(s.sessions[e.i], e)]
      && s'.table == s.table && s'.loop == s.loop && s'.arrived == s.arrived
      && s'.cancelled == s.cancelled && s'.tunnelClosed == s.tunnelClosed
      && s'.expiry == s.expiry + (if Announces(e) && !s.loop.Left? then [Expiry(s.sessions[e.i].origin, e.i)] else [])
      && (!e.HandOver? ==> s'.handed == s.handed)
  {
    hide TaskStep;
  }

  lemma QuietTaskKeepsOwned(s: State, e: Event)
    requires Owned(s) && IsTask(e) && Enabled(s, e) && !Announces(e)
    ensures Owned(Apply(s, e))
  {
    if e.SeeSendersDropped? {
      assert Holds(s, e.i);
    }
    TaskStepShape(s, e);
    assert e.SeeCancelled? ==> s.cancelled;
    assert e.SeeSendersDropped? ==> s.loop.Left?;
    hide Owned, TaskStep, Enabled;
    LocalKeepsOwned(s, Apply(s, e));
  }

  /** Session `i` dies and its message, if it is not lost, is the newest. */
  lemma ExpiryAppend(s: State, s': State, i: nat)
    requires ExpiryOk(s) && Holds(s, i) && Live(s.sessions[i].forward)
    requires |s'.sessions| == |s.sessions| && (forall j :: Holds(s', j) == Holds(s, j))
    requires forall j :: 0 <= j < |s.sessions| ==> s'.sessions[j].origin == s.sessions[j].origin
    requires forall j :: 0 <= j < |s.sessions| && j != i ==> s'.sessions[j] == s.sessions[j]
    requires !Live(s'.sessions[i].forward)
    requires s'.expiry == s.expiry || s'.expiry == s.expiry + [Expiry(s.sessions[i].origin, i)]
    ensures ExpiryOk(s')
  {
    assert forall j: nat :: Holds(s, j) ==> j < |s.sessions|;
    hide Holds, Live;
    assert forall k :: 0 <= k < |s.expiry| ==> s.expiry[k].sender != i && s'.expiry[k] == s.expiry[k];
  }

  lemma AnnounceKeepsExpiry(s: State, e: Event)
    requires Owned(s) && IsTask(e) && Enabled(s, e) && Announces(e)
    ensures ExpiryOk(Apply(s, e))
  {
    var s' := Apply(s, e);
    TaskStepShape(s, e);
    TaskFrame(s, e);
    assert Holds(s, e.i);
    hide TaskStep, Enabled, Apply, DeadAnnounced, ExpiryOk, LiveHolds;
    SameHoldersKeep(s, s');
    hide Holds, TableOk, HoldersNewest;
    ExpiryAppend(s, s', e.i);
  }

  lemma AnnounceKeepsDead(s: State, e: Event)
    requires Owned(s) && IsTask(e) && Enabled(s, e) && Announces(e)
    ensures DeadAnnounced(Apply(s, e))
  {
    var s' := Apply(s, e);
    TaskStepShape(s, e);
    hide TaskStep, Enabled, ExpiryOk;
    SameHoldersKeep(s, s');
    forall j | 0 <= j < |s'.sessions| && Holds(s', j) && !Live(s'.sessions[j].forward)
      ensures Announced(s', j) || s'.cancelled || s'.loop.Left?
    {
      if j == e.i {
        assert s.loop.Left? || s'.expiry[|s.expiry|].sender == j;
      } else if Announced(s, j) {
        var k :| 0 <= k < |s.expiry| && s.expiry[k].sender == j;
        assert s'.expiry[k].sender == j;
      }
    }
  }

  lemma AnnounceKeepsOwned(s: State, e: Event)
    requires Owned(s) && IsTask(e) && Enabled(s, e) && Announces(e)
    ensures Owned(Apply(s, e))
  {
    TaskStepShape(s, e);
    AnnounceKeepsExpiry(s, e);
    AnnounceKeepsDead(s, e);
    hide TaskStep, Enabled, ExpiryOk, DeadAnnounced;
    SameHoldersKeep(s, Apply(s, e));
  }

  /** Only the sender of the handled message loses its hold. */
  lemma HandleExpiryHolders(s: State, j: nat)
    requires TableOk(s) && ExpiryOk(s) && Enabled(s, HandleExpiry)
    ensures Holds(Apply(s, HandleExpiry), j) <==> Holds(s, j) && j != s.expiry[0].sender
  {
    assert Holds(s, s.expiry[0].sender);
  }

  lemma HandleExpiryKeepsOwned(s: State)
    requires Owned(s) && Enabled(s, HandleExpiry)
    ensures Owned(Apply(s, HandleExpiry))
  {
    var s' := Apply(s, HandleExpiry);
    forall j: nat ensures Holds(s', j) <==> Holds(s, j) && j != s.expiry[0].sender {
      HandleExpiryHolders(s, j);
    }
    HandleExpiryKeepsAnnounced(s);
    hide Holds, DeadAnnounced;
  }

  lemma HandleExpiryKeepsAnnounced(s: State)
    requires TableOk(s) && ExpiryOk(s) && DeadAnnounced(s) && Enabled(s, HandleExpiry)
    ensures DeadAnnounced(Apply(s, HandleExpiry))
  {
    var s' := Apply(s, HandleExpiry);
    var e := s.expiry[0];
    forall j: nat ensures Holds(s', j) <==> Holds(s, j) && j != e.sender {
      HandleExpiryHolders(s, j);
    }
    hide Holds, TableOk, ExpiryOk;
    forall j | Announced(s, j) && j != e.sender ensures Announced(s', j) {
      var k :| 0 <= k < |s.expiry| && s.expiry[k].sender == j;
      assert s'.expiry[k - 1].sender == j;
    }
  }

  lemma ArriveKeepsOwned(s: State, a: SocketAddr, p: Payload)
    requires Owned(s) && Enabled(s, Arrive(a, p))
    ensures Owned(Apply(s, Arrive(a, p)))
  {
    var s' := Apply(s, Arrive(a, p));
    if a in s.table {
      hide Owned;
      LocalKeepsOwned(s, s');
    } else {
      SpawnKeepsOwned(s, a, p);
    }
  }

  lemma SpawnKeepsOwned(s: State, a: SocketAddr, p: Payload)
    requires Owned(s) && Enabled(s, Arrive(a, p)) && a !in s.table
    ensures Owned(Apply(s, Arrive(a, p)))
  {
    var s', i := Apply(s, Arrive(a, p)), |s.sessions|;
    assert forall j :: 0 <= j < i ==> s'.sessions[j] == s.sessions[j];
    assert s'.sessions[i] == Session(a, [], Opening, NotStarted, false);
    assert s'.loop == Spawned(i, p) && s'.table == s.table && s'.expiry == s.expiry && |s'.sessions| == i + 1;
    assert s'.cancelled == s.cancelled && s.loop.Selecting?;
    hide Apply, Enabled;
    assert forall j: nat :: j < i ==> Holds(s', j) == Holds(s, j);
    assert Holds(s', i);
    assert forall j :: Announced(s', j) == Announced(s, j);
    hide Announced;
  }

  lemma InsertKeepsOwned(s: State)
    requires Owned(s) && Enabled(s, Insert)
    ensures Owned(Apply(s, Insert))
  {
    var s' := Apply(s, Insert);
    assert forall j: nat :: Holds(s', j) == Holds(s, j);
    assert forall j :: Announced(s', j) == Announced(s, j);
  }

  lemma OfferKeepsOwned(s: State)
    requires Owned(s) && Enabled(s, Offer)
    ensures Owned(Apply(s, Offer))
  {
    var s' := Apply(s, Offer);
    assert forall j: nat :: Holds(s', j) == Holds(s, j);
    assert forall j :: Announced(s', j) == Announced(s, j);
  }

  lemma SharedKeepsOwned(s: State, e: Event)
    requires Owned(s) && Enabled(s, e) && (e.Leave? || e.CloseTunnel? || e.CancelProcess? || e.Reply?)
    ensures Owned(Apply(s, e))
  {
    var s' := Apply(s, e);
    assert forall j: nat :: Holds(s', j) == Holds(s, j);
    assert forall j :: Announced(s', j) == Announced(s, j);
  }

  lemma StepKeepsOwned(s: State, e: Event)
    requires Owned(s) && Enabled(s, e)
    ensures Owned(Apply(s, e))
  {
    hide Owned, Apply, Enabled;
    if IsTask(e) {
      if Announces(e) {
        AnnounceKeepsOwned(s, e);
      } else {
        QuietTaskKeepsOwned(s, e);
      }
    } else {
      match e {
        case Arrive(a, p) => ArriveKeepsOwned(s, a, p);
        case Offer => OfferKeepsOwned(s);
        case Insert => InsertKeepsOwned(s);
        case HandleExpiry => HandleExpiryKeepsOwned(s);
        case _ => SharedKeepsOwned(s, e);
      }
    }
  }

  lemma FlagsStay(s: State, e: Event)
    requires Enabled(s, e)
    ensures s.tunnelClosed ==> Apply(s, e).tunnelClosed
    ensures s.cancelled ==> Apply(s, e).cancelled
    ensures Apply(s, e).loop.Left? ==> s.loop.Left? || s.tunnelClosed || s.cancelled
  {
    hide TaskStep;
  }

  lemma TaskStage(s: State, e: Event)
    requires Owned(s) && StagesOk(s) && IsTask(e) && Enabled(s, e)
    ensures StageOk(s, TaskStep(s.sessions[e.i], e))
  {
    assert StageOk(s, s.sessions[e.i]);
    if e.SeeSendersDropped? {
      assert Holds(s, e.i);
    }
  }

  lemma StepKeepsStages(s: State, e: Event)
    requires Owned(s) && StagesOk(s) && Enabled(s, e)
    ensures StagesOk(Apply(s, e))
  {
    hide Owned, TaskStep;
    var s' := Apply(s, e);
    FlagsStay(s, e);
    if IsTask(e) {
      TaskStage(s, e);
    }
    forall j: nat | j < |s'.sessions| ensures StageOk(s', s'.sessions[j]) {
      assert j < |s.sessions| ==> StageOk(s, s.sessions[j]);
    }
  }

  // ----- order -----

  function Backlog(t: Session): seq<Payload> {
    (if t.forward.Running? then t.forward.batch else []) + t.queue
  }

  /** Everything handed over for session `i`'s origin, then everything it may still hand over. */
  function Outgoing(s: State, i: nat): seq<Payload>
    requires i < |s.sessions|
  {
    For(s.handed, s.sessions[i].origin) + Backlog(s.sessions[i])
  }

  /** What had arrived for session `i`'s origin, without the payload still to be offered. */
  function Considered(s: State, i: nat): seq<Payload>
    requires i < |s.sessions|
  {
    var all := For(s.arrived, s.sessions[i].origin);
    if s.loop.Spawned? && s.loop.sid == i && all != [] then all[..|all| - 1] else all
  }

  ghost predicate Ordered(s: State) {
    && (forall i :: 0 <= i < |s.sessions| && Live(s.sessions[i].forward) ==> Subseq(Outgoing(s, i), Considered(s, i)))
    && (forall a :: Subseq(For(s.handed, a), For(s.arrived, a)))
    && (s.loop.Spawned? && s.loop.sid < |s.sessions| ==>
          var all := For(s.arrived, s.sessions[s.loop.sid].origin);
          all != [] && all[|all| - 1] == s.loop.payload)
  }

  /** Nothing that matters to the order changed, except that some sessions may have stopped. */
  ghost predicate SameTraffic(s: State, s': State) {
    && s'.arrived == s.arrived && s'.handed == s.handed
    && s.loop.Spawned? == s'.loop.Spawned? && (s.loop.Spawned? ==> s'.loop == s.loop)
    && |s'.sessions| == |s.sessions|
    && (forall j :: 0 <= j < |s.sessions| ==>
          && s'.sessions[j].origin == s.sessions[j].origin
          && (Live(s'.sessions[j].forward) ==>
                Live(s.sessions[j].forward) && Backlog(s'.sessions[j]) == Backlog(s.sessions[j])))
  }

  lemma SameTrafficKeepsOrder(s: State, s': State)
    requires Ordered(s) && SameTraffic(s, s')
    ensures Ordered(s')
  {
    forall i | 0 <= i < |s'.sessions| && Live(s'.sessions[i].forward)
      ensures Subseq(Outgoing(s', i), Considered(s', i))
    {
      assert Outgoing(s', i) == Outgoing(s, i) && Considered(s', i) == Considered(s, i);
    }
  }

  lemma QuietLoopEvent(s: State, e: Event)
    requires Enabled(s, e) && !IsTask(e) && !e.Arrive? && !e.Offer?
    ensures SameTraffic(s, Apply(s, e))
  {
  }

  lemma QuietTaskStep(t: Session, e: Event)
    requires IsTask(e) && !e.HandOver? && (e.Return? ==> t.forward.Expired?)
    requires e.Receive? ==> t.forward == Running([]) && e.n <= |t.queue|
    requires e.SocketOpened? ==> t.forward.Opening?
    ensures var t' := TaskStep(t, e);
      t'.origin == t.origin && (Live(t'.forward) ==> Live(t.forward) && Backlog(t') == Backlog(t))
  {
    if e.Receive? {
      assert t.queue[..e.n] + t.queue[e.n..] == t.queue;
    }
  }

  lemma QuietTaskEvent(s: State, e: Event)
    requires Enabled(s, e) && IsTask(e) && !e.HandOver?
    ensures SameTraffic(s, Apply(s, e))
  {
    QuietTaskStep(s.sessions[e.i], e);
    TaskFrame(s, e);
    hide TaskStep, Enabled, Backlog, Apply;
  }

  /** Two live sessions have different origins. */
  lemma OneLivePerOrigin(s: State, i: nat, j: nat)
    requires TableOk(s) && LiveHolds(s) && i < |s.sessions| && j < |s.sessions|
    requires Live(s.sessions[i].forward) && Live(s.sessions[j].forward)
    requires s.sessions[i].origin == s.sessions[j].origin
    ensures i == j
  {
    assert Holds(s, i) && Holds(s, j);
  }

  lemma TrySendKeepsOrder(handed: seq<Payload>, t: Session, all: seq<Payload>, p: Payload)
    requires Subseq(handed + Backlog(t), all)
    ensures Subseq(handed + Backlog(TrySend(t, p)), all + [p])
  {
    if TrySend(t, p) == t {
      SubseqExtend(handed + Backlog(t), all, p);
    } else {
      SubseqAppend(handed + Backlog(t), all, p);
      assert handed + Backlog(TrySend(t, p)) == (handed + Backlog(t)) + [p];
    }
  }

  lemma ArriveKeepsHanded(s: State, a: SocketAddr, p: Payload, b: SocketAddr)
    requires Ordered(s)
    ensures For(s.arrived + [(a, p)], b) == if b == a then For(s.arrived, b) + [p] else For(s.arrived, b)
    ensures Subseq(For(s.handed, b), For(s.arrived + [(a, p)], b))
  {
    ForAppend(s.arrived, a, p, b);
    if b == a {
      SubseqExtend(For(s.handed, b), For(s.arrived, b), p);
    }
  }

  lemma ArriveKeepsSession(s: State, a: SocketAddr, p: Payload, i: nat)
    requires TableOk(s) && LiveHolds(s) && Ordered(s) && Enabled(s, Arrive(a, p))
    requires i < |s.sessions| && Live(s.sessions[i].forward)
    ensures var s' := Apply(s, Arrive(a, p)); Subseq(Outgoing(s', i), Considered(s', i))
  {
    var s' := Apply(s, Arrive(a, p));
    var b := s.sessions[i].origin;
    ArriveKeepsHanded(s, a, p, b);
    assert Holds(s, i) && b in s.table && s.table[b] == i;
    assert Subseq(Outgoing(s, i), Considered(s, i));
    hide Subseq, For, Ordered, TableOk, LiveHolds;
    assert s'.sessions[i] == if b == a then TrySend(s.sessions[i], p) else s.sessions[i];
    assert TrySend(s.sessions[i], p).origin == b && s'.handed == s.handed && s.loop.Selecting?;
    assert s'.loop.Spawned? ==> s'.loop.sid != i;
    hide Apply, Enabled, Backlog, TrySend;
    if b == a {
      TrySendKeepsOrder(For(s.handed, a), s.sessions[i], For(s.arrived, a), p);
    } else {
      assert Outgoing(s', i) == Outgoing(s, i) && Considered(s', i) == Considered(s, i);
    }
  }

  lemma ArriveKeepsOrder(s: State, a: SocketAddr, p: Payload)
    requires Owned(s) && Ordered(s) && Enabled(s, Arrive(a, p))
    ensures Ordered(Apply(s, Arrive(a, p)))
  {
    hide Subseq, For, ExpiryOk, DeadAnnounced, HoldersNewest;
    var s' := Apply(s, Arrive(a, p));
    forall b ensures Subseq(For(s'.handed, b), For(s'.arrived, b)) {
      ArriveKeepsHanded(s, a, p, b);
    }
    ArriveKeepsHanded(s, a, p, a);
    forall i | 0 <= i < |s'.sessions| && Live(s'.sessions[i].forward)
      ensures Subseq(Outgoing(s', i), Considered(s', i))
    {
      if i == |s.sessions| {
        assert Outgoing(s', i) == For(s.handed, a);
        assert (For(s.arrived, a) + [p])[..|For(s.arrived, a)|] == For(s.arrived, a);
      } else {
        ArriveKeepsSession(s, a, p, i);
      }
    }
  }

  lemma OfferKeepsOrder(s: State)
    requires Ordered(s) && Enabled(s, Offer)
    ensures Ordered(Apply(s, Offer))
  {
    hide Subseq, For;
    var s' := Apply(s, Offer);
    forall i | 0 <= i < |s'.sessions| && Live(s'.sessions[i].forward)
      ensures Subseq(Outgoing(s', i), Considered(s', i))
    {
      if i == s.loop.sid {
        var all := For(s.arrived, s.sessions[i].origin);
        assert all == Considered(s, i) + [s.loop.payload];
        TrySendKeepsOrder(For(s.handed, s.sessions[i].origin), s.sessions[i], Considered(s, i), s.loop.payload);
      } else {
        assert Outgoing(s', i) == Outgoing(s, i) && Considered(s', i) == Considered(s, i);
      }
    }
  }

  lemma HandOverKeepsSelf(s: State, i: nat, accepted: bool)
    requires Ordered(s) && Enabled(s, HandOver(i, accepted))
    ensures var s' := Apply(s, HandOver(i, accepted)); Subseq(Outgoing(s', i), Considered(s', i))
  {
    var s', t := Apply(s, HandOver(i, accepted)), s.sessions[i];
    var handed, head, rest := For(s.handed, t.origin), t.forward.batch[0], t.forward.batch[1..] + t.queue;
    assert Outgoing(s, i) == handed + [head] + rest;
    if accepted {
      ForAppend(s.handed, t.origin, head, t.origin);
      assert Outgoing(s', i) == handed + [head] + rest;
    } else {
      SubseqDrop(handed, head, rest, Considered(s, i));
    }
  }

  lemma HandOverKeepsOther(s: State, i: nat, accepted: bool, j: nat)
    requires Owned(s) && Enabled(s, HandOver(i, accepted))
    requires j < |s.sessions| && j != i && Live(s.sessions[j].forward)
    ensures var s' := Apply(s, HandOver(i, accepted));
            Outgoing(s', j) == Outgoing(s, j) && Considered(s', j) == Considered(s, j)
  {
    var t := s.sessions[i];
    if t.origin == s.sessions[j].origin {
      OneLivePerOrigin(s, i, j);
    }
    ForAppend(s.handed, t.origin, t.forward.batch[0], s.sessions[j].origin);
  }

  lemma HandedWithin(handed: seq<Payload>, backlog: seq<Payload>, part: seq<Payload>, all: seq<Payload>)
    requires Subseq(handed + backlog, part)
    requires part == all || (all != [] && part == all[..|all| - 1])
    ensures Subseq(handed, all)
  {
    SubseqTruncate(handed, backlog, part);
    if part != all {
      SubseqExtend(handed, part, all[|all| - 1]);
      assert part + [all[|all| - 1]] == all;
    }
  }

  lemma HandOverKeepsHanded(s: State, i: nat, accepted: bool, b: SocketAddr)
    requires Ordered(s) && Enabled(s, HandOver(i, accepted))
    ensures var s' := Apply(s, HandOver(i, accepted)); Subseq(For(s'.handed, b), For(s'.arrived, b))
  {
    var s', t := Apply(s, HandOver(i, accepted)), s.sessions[i];
    if b == t.origin {
      HandOverKeepsSelf(s, i, accepted);
      hide Subseq, For, Ordered;
      HandedWithin(For(s'.handed, b), Backlog(s'.sessions[i]), Considered(s', i), For(s.arrived, b));
    } else {
      ForAppend(s.handed, t.origin, t.forward.batch[0], b);
    }
  }

  lemma HandOverKeepsOrder(s: State, i: nat, accepted: bool)
    requires Owned(s) && Ordered(s) && Enabled(s, HandOver(i, accepted))
    ensures Ordered(Apply(s, HandOver(i, accepted)))
  {
    hide Owned, Subseq, For;
    var s' := Apply(s, HandOver(i, accepted));
    forall b ensures Subseq(For(s'.handed, b), For(s'.arrived, b)) {
      HandOverKeepsHanded(s, i, accepted, b);
    }
    forall j | 0 <= j < |s'.sessions| && Live(s'.sessions[j].forward)
      ensures Subseq(Outgoing(s', j), Considered(s', j))
    {
      if j == i {
        HandOverKeepsSelf(s, i, accepted);
      } else {
        HandOverKeepsOther(s, i, accepted, j);
      }
    }
  }

  lemma StepKeepsOrder(s: State, e: Event)
    requires Owned(s) && Ordered(s) && Enabled(s, e)
    ensures Ordered(Apply(s, e))
  {
    hide Owned, Ordered, Apply, Enabled, SameTraffic;
    match e {
      case Arrive(a, p) => ArriveKeepsOrder(s, a, p);
      case Offer => OfferKeepsOrder(s);
      case HandOver(i, accepted) => HandOverKeepsOrder(s, i, accepted);
      case _ =>
        if IsTask(e) {
          QuietTaskEvent(s, e);
        } else {
          QuietLoopEvent(s, e);
        }
        SameTrafficKeepsOrder(s, Apply(s, e));
    }
  }

  // ----- every run -----

  ghost predicate Inv(s: State) {
    Owned(s) && StagesOk(s) && Ordered(s)
  }

  lemma {:induction false} RunKeepsInv(s: State, es: seq<Event>)
    requires Inv(s) && CanRun(s, es)
    ensures Inv(Run(s, es))
    decreases |es|
  {
    hide Owned, StagesOk, Ordered, Apply, Enabled;
    if es == [] {
    } else {
      StepKeepsOwned(s, es[0]);
      StepKeepsStages(s, es[0]);
      StepKeepsOrder(s, es[0]);
      RunKeepsInv(Apply(s, es[0]), es[1..]);
    }
  }

  lemma Reached(es: seq<Event>)
    requires CanRun(Init(), es)
    ensures Inv(Run(Init(), es))
  {
    RunKeepsInv(Init(), es);
  }

  /** Every expiry message was sent by the session its origin maps to, its newest one, which is not live. */
  ghost predicate ExpirySafe(s: State) {
    && (forall j, k :: 0 <= j < k < |s.expiry| ==> s.expiry[j].origin != s.expiry[k].origin)
    && (forall k :: 0 <= k < |s.expiry| ==>
          var e := s.expiry[k];
          && Holds(s, e.sender) && s.sessions[e.sender].origin == e.origin
          && !Live(s.sessions[e.sender].forward)
          && (forall j :: e.sender < j < |s.sessions| ==> s.sessions[j].origin != e.origin))
  }

  lemma OwnedIsExpirySafe(s: State)
    requires TableOk(s) && HoldersNewest(s) && ExpiryOk(s)
    ensures ExpirySafe(s)
  {
    forall j, k | 0 <= j < k < |s.expiry| ensures s.expiry[j].origin != s.expiry[k].origin {
      assert Holds(s, s.expiry[j].sender) && Holds(s, s.expiry[k].sender);
    }
  }

  /**
   In every interleaving the expiry queue holds at most one message per origin, sent by
   the session that origin maps to, which is its newest one and no longer live. So
   handling an expiry takes out exactly that session's entry: a late message never
   evicts a live or a newer session.
   */
  lemma ExpiryNeverEvictsLiveSession(es: seq<Event>)
    requires CanRun(Init(), es)
    ensures var s := Run(Init(), es);
      && ExpirySafe(s)
      && (Enabled(s, HandleExpiry) ==>
            var e := s.expiry[0];
            && e.origin in s.table && s.table[e.origin] == e.sender
            && Apply(s, HandleExpiry).table == s.table - {e.origin})
  {
    hide Run, CanRun, Ordered, StagesOk, DeadAnnounced, LiveHolds;
    Reached(es);
    var s := Run(Init(), es);
    OwnedIsExpirySafe(s);
    if s.expiry != [] {
      assert Holds(s, s.expiry[0].sender);
    }
  }

  /** In every interleaving at most one forward session per origin is live. */
  lemma OneLiveSessionPerOrigin(es: seq<Event>, i: nat, j: nat)
    requires CanRun(Init(), es)
    requires var s := Run(Init(), es);
      && i < |s.sessions| && j < |s.sessions|
      && Live(s.sessions[i].forward) && Live(s.sessions[j].forward)
      && s.sessions[i].origin == s.sessions[j].origin
    ensures i == j
  {
    Reached(es);
    OneLivePerOrigin(Run(Init(), es), i, j);
  }

  /** The signals that tasks see are those that were given. */
  lemma {:induction false} SignalsRun(s: State, es: seq<Event>)
    requires CanRun(s, es)
    ensures var s' := Run(s, es);
      && (s'.cancelled <==> s.cancelled || CancelProcess in es)
      && (s'.tunnelClosed <==> s.tunnelClosed || CloseTunnel in es)
      && (s'.loop.Left? <==> s.loop.Left? || Leave in es)
    decreases |es|
  {
    if es == [] {
    } else {
      SignalStep(s, es[0]);
      hide Apply, Enabled;
      assert es == [es[0]] + es[1..];
      SignalsRun(Apply(s, es[0]), es[1..]);
    }
  }

  lemma SignalStep(s: State, e: Event)
    requires Enabled(s, e)
    ensures var s' := Apply(s, e);
      && (s'.cancelled <==> s.cancelled || e == CancelProcess)
      && (s'.tunnelClosed <==> s.tunnelClosed || e == CloseTunnel)
      && (s'.loop.Left? <==> s.loop.Left? || e == Leave)
  {
    hide TaskStep;
  }

  /**
   No orphan reverse task. A reverse task was started exactly if the forward session
   opened its socket. Once the forward session has ended, for whatever reason, the
   reverse task was never started, has stopped, or can stop now. A live session loses
   its sender only when the loop left, which takes a closed tunnel or a cancel.
   */
  lemma NoOrphanReverse(es: seq<Event>)
    requires CanRun(Init(), es)
    ensures var s := Run(Init(), es);
      && (forall i :: 0 <= i < |s.sessions| ==>
            (s.sessions[i].reverse.NotStarted? <==> NoSocket(s.sessions[i].forward)))
      && (forall i :: 0 <= i < |s.sessions| && s.sessions[i].forward.Ended? && s.sessions[i].reverse.Pumping? ==>
            Enabled(s, StopReverse(i)) && Apply(s, StopReverse(i)).sessions[i].reverse.Stopped?)
      && (forall i :: 0 <= i < |s.sessions| && Live(s.sessions[i].forward) && !SenderAlive(s, i) ==>
            Leave in es && (CloseTunnel in es || CancelProcess in es))
  {
    hide Run, CanRun, Inv;
    SignalsRun(Init(), es);
    Reached(es);
    var s := Run(Init(), es);
    forall i: nat | i < |s.sessions|
      ensures s.sessions[i].reverse.NotStarted? <==> NoSocket(s.sessions[i].forward)
      ensures s.sessions[i].forward.Ended? && s.sessions[i].reverse.Pumping? ==>
                Enabled(s, StopReverse(i)) && Apply(s, StopReverse(i)).sessions[i].reverse.Stopped?
      ensures Live(s.sessions[i].forward) && !SenderAlive(s, i) ==> s.loop.Left? && (s.tunnelClosed || s.cancelled)
    {
      ReverseFacts(s, i);
    }
    hide Enabled, Apply, NoSocket, SenderAlive, Live;
  }

  lemma ReverseFacts(s: State, i: nat)
    requires Inv(s) && i < |s.sessions|
    ensures var t := s.sessions[i];
      && (t.reverse.NotStarted? <==> NoSocket(t.forward))
      && (t.forward.Ended? && t.reverse.Pumping? ==>
            Enabled(s, StopReverse(i)) && Apply(s, StopReverse(i)).sessions[i].reverse.Stopped?)
      && (Live(t.forward) && !SenderAlive(s, i) ==> s.loop.Left? && (s.tunnelClosed || s.cancelled))
  {
    assert StageOk(s, s.sessions[i]);
  }

  /**
   In every interleaving no task is stuck: a session that opens its socket can succeed or
   fail; one that is started reads replies; the loop takes any datagram, handles expiry
   messages, and can leave once the tunnel closed or the process was cancelled.
   */
  lemma TasksCanGoOn(es: seq<Event>)
    requires CanRun(Init(), es)
    ensures var s := Run(Init(), es);
      && (forall i :: 0 <= i < |s.sessions| && s.sessions[i].forward.Opening? ==>
            Enabled(s, SocketOpened(i)) && Enabled(s, SocketFailed(i)))
      && (forall i, p :: 0 <= i < |s.sessions| && s.sessions[i].reverse.Pumping? ==>
            Enabled(s, Reply(i, p)) && Apply(s, Reply(i, p)).replies == s.replies + [(s.sessions[i].origin, p)])
      && (s.loop.Selecting? ==>
            && (forall a, p :: Enabled(s, Arrive(a, p)))
            && (s.expiry != [] ==> Enabled(s, HandleExpiry))
            && (CloseTunnel in es || CancelProcess in es ==> Enabled(s, Leave)))
      && (s.loop.Spawned? ==> Enabled(s, Offer))
      && (s.loop.Offered? ==> Enabled(s, Insert))
      && (forall i :: 0 <= i < |s.sessions| && s.sessions[i].forward.Expired? ==>
            Enabled(s, Return(i)) && Apply(s, Return(i)).sessions[i].forward.Ended?)
      && Enabled(s, CloseTunnel) && Enabled(s, CancelProcess)
  {
    hide Run, CanRun, Inv;
    Reached(es);
    SignalsRun(Init(), es);
    GoOn(Run(Init(), es));
  }

  lemma GoOn(s: State)
    requires Inv(s)
    ensures forall i :: 0 <= i < |s.sessions| && s.sessions[i].forward.Opening? ==>
      Enabled(s, SocketOpened(i)) && Enabled(s, SocketFailed(i))
    ensures s.loop.Selecting? ==> forall a, p :: Enabled(s, Arrive(a, p))
    ensures s.loop.Spawned? ==> Enabled(s, Offer)
    ensures s.loop.Offered? ==> Enabled(s, Insert)
  {
    hide StagesOk, Ordered, ExpiryOk, DeadAnnounced, HoldersNewest, LiveHolds;
  }

  /**
   In every interleaving a session that waits can end: by itself, after a cancel, after the
   tunnel closed, or after the loop left and the queue is empty.
   */
  lemma WaitingSessionCanEnd(es: seq<Event>, i: nat)
    requires CanRun(Init(), es) && Waiting(Run(Init(), es), i)
    ensures var s := Run(Init(), es);
      && Enabled(s, GoIdle(i)) && Apply(s, GoIdle(i)).sessions[i].forward == Expired(IdleTimeout)
      && (CancelProcess in es ==>
            Enabled(s, SeeCancelled(i)) && Apply(s, SeeCancelled(i)).sessions[i].forward == Ended(Cancellation))
      && (CloseTunnel in es ==>
            Enabled(s, SeeClosed(i)) && Apply(s, SeeClosed(i)).sessions[i].forward == Expired(ClosedTunnel))
      && (Leave in es && s.sessions[i].queue == [] ==>
            Enabled(s, SeeSendersDropped(i)) &&
            Apply(s, SeeSendersDropped(i)).sessions[i].forward == Ended(SendersDropped))
  {
    SignalsRun(Init(), es);
  }

  /** In every interleaving no queue and no batch outgrows its capacity. */
  lemma QueuesStayBounded(es: seq<Event>, i: nat)
    requires CanRun(Init(), es) && i < |Run(Init(), es).sessions|
    ensures var t := Run(Init(), es).sessions[i];
      |t.queue| <= 128 && (t.forward.Running? ==> |t.forward.batch| <= 128)
  {
    hide Run, CanRun, Ordered, Owned;
    Reached(es);
    assert StageOk(Run(Init(), es), Run(Init(), es).sessions[i]);
  }

  /**
   A table entry whose session is dead is about to go: its expiry message is queued,
   unless the process was cancelled or the loop has left.
   */
  lemma DeadEntryIsBeingEvicted(es: seq<Event>, a: SocketAddr)
    requires CanRun(Init(), es) && a in Run(Init(), es).table
    ensures var s := Run(Init(), es);
      && s.table[a] < |s.sessions|
      && (Live(s.sessions[s.table[a]].forward) || CancelProcess in es || Leave in es
          || Expiry(a, s.table[a]) in s.expiry)
  {
    SignalsRun(Init(), es);
    hide Run, CanRun, Ordered;
    Reached(es);
    var s := Run(Init(), es);
    var i := s.table[a];
    assert Holds(s, i);
    if Announced(s, i) {
      var k :| 0 <= k < |s.expiry| && s.expiry[k].sender == i;
      assert s.expiry[k] == Expiry(a, i);
    }
  }

  /** In every interleaving, what a target socket was handed is a subsequence of what arrived for its origin. */
  lemma HandedInArrivalOrder(es: seq<Event>, a: SocketAddr)
    requires CanRun(Init(), es)
    ensures Subseq(For(Run(Init(), es).handed, a), For(Run(Init(), es).arrived, a))
  {
    Reached(es);
  }
}
