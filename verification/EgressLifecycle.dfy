/**
 Starting and stopping an egress from any number of concurrent calls. A start holds the
 process lock from its check to the installation of the process; a stop takes no lock:
 it takes the process out of its slot, cancels it, waits for its task and then reports.
 */
module EgressLifecycle {
  import opened Bytes

  datatype Report = Starting | Ready | Stopped

  datatype StartCall = Waiting | Locked | Cleared | Announced | StartReturned(installed: bool)

  datatype StopCall =
    | Called
    | Took(task: nat)
    | Signalled(task: nat)
    | Joined(task: nat)
    | StopReturned(stopped: bool)

  /** A process runs one task: it connects, reconnects when the tunnel drops, and ends when cancelled. */
  datatype Task = Task(connects: nat, drops: nat, cancelled: bool, ended: bool)

  const NEW_TASK := Task(0, 0, false, false)

  /** The task has a tunnel now. */
  predicate Linked(t: Task) {
    t.connects > t.drops
  }

  datatype State = State(
    slot: Option<nat>,
    lock: Option<nat>,          // the start call that holds the process lock
    starts: seq<StartCall>,
    stops: seq<StopCall>,
    tasks: seq<Task>,
    published: seq<Report>,     // every state the egress has published
    overlapped: bool)           // some start announced itself while a stop was under way

  datatype Event =
    | CallStart
    | Lock(i: nat)
    | Check(i: nat)
    | Announce(i: nat)
    | Install(i: nat)
    | CallStop
    | Take(j: nat)
    | Signal(j: nat)
    | Join(j: nat)
    | ReportStopped(j: nat)
    | Connect(t: nat)
    | Drop(t: nat)
    | Exit(t: nat)

  function Init(): State {
    State(None, None, [], [], [], [], false)
  }

  /** A stop that has taken a process and not reported yet. */
  predicate UnderWay(c: StopCall) {
    c.Took? || c.Signalled? || c.Joined?
  }

  ghost predicate SomeStopUnderWay(s: State) {
    exists j :: 0 <= j < |s.stops| && UnderWay(s.stops[j])
  }

  predicate IsStart(s: State, i: nat, c: StartCall) {
    i < |s.starts| && s.starts[i] == c
  }

  predicate Enabled(s: State, e: Event) {
    match e
    case CallStart => true
    case Lock(i) => IsStart(s, i, Waiting) && s.lock.None?
    case Check(i) => IsStart(s, i, Locked)
    case Announce(i) => IsStart(s, i, Cleared)
    case Install(i) => IsStart(s, i, Announced)
    case CallStop => true
    case Take(j) => j < |s.stops| && s.stops[j].Called?
    case Signal(j) => j < |s.stops| && s.stops[j].Took? && s.stops[j].task < |s.tasks|
    case Join(j) =>
      j < |s.stops| && s.stops[j].Signalled? && s.stops[j].task < |s.tasks| && s.tasks[s.stops[j].task].ended
    case ReportStopped(j) => j < |s.stops| && s.stops[j].Joined?
    case Connect(t) => t < |s.tasks| && !s.tasks[t].ended && !Linked(s.tasks[t])
    case Drop(t) => t < |s.tasks| && !s.tasks[t].ended && Linked(s.tasks[t])
    case Exit(t) => t < |s.tasks| && !s.tasks[t].ended && s.tasks[t].cancelled
  }

  ghost function Apply(s: State, e: Event): State
    requires Enabled(s, e)
  {
    match e
    case CallStart => s.(starts := s.starts + [Waiting])
    case Lock(i) => s.(lock := Some(i), starts := s.starts[i := Locked])
    case Check(i) =>
      if s.slot.Some? then s.(lock := None, starts := s.starts[i := StartReturned(false)])
      else s.(starts := s.starts[i := Cleared])
    case Announce(i) =>
      s.(published := s.published + [Starting], starts := s.starts[i := Announced],
         overlapped := s.overlapped || SomeStopUnderWay(s))
    case Install(i) =>
      s.(slot := Some(|s.tasks|), tasks := s.tasks + [NEW_TASK],
         lock := None, starts := s.starts[i := StartReturned(true)])
    case CallStop => s.(stops := s.stops + [Called])
    case Take(j) =>
      if s.slot.Some? then s.(slot := None, stops := s.stops[j := Took(s.slot.value)])
      else s.(stops := s.stops[j := StopReturned(false)])
    case Signal(j) =>
      var t := s.stops[j].task;
      s.(tasks := s.tasks[t := s.tasks[t].(cancelled := true)], stops := s.stops[j := Signalled(t)])
    case Join(j) => s.(stops := s.stops[j := Joined(s.stops[j].task)])
    case ReportStopped(j) => s.(published := s.published + [Stopped], stops := s.stops[j := StopReturned(true)])
    case Connect(t) =>
      s.(tasks := s.tasks[t := s.tasks[t].(connects := s.tasks[t].connects + 1)], published := s.published + [Ready])
    case Drop(t) => s.(tasks := s.tasks[t := s.tasks[t].(drops := s.tasks[t].drops + 1)])
    case Exit(t) => s.(tasks := s.tasks[t := s.tasks[t].(ended := true)])
  }

  ghost predicate CanRun(s: State, es: seq<Event>)
    decreases |es|
  {
    es == [] || (Enabled(s, es[0]) && CanRun(Apply(s, es[0]), es[1..]))
  }

  ghost function Run(s: State, es: seq<Event>): State
    requires CanRun(s, es)
    decreases |es|
  {
    if es == [] then s else Run(Apply(s, es[0]), es[1..])
  }

  // ----- who owns which task -----

  /** Stop call `j` holds the handle of task `t`. */
  predicate HeldBy(s: State, j: nat, t: nat) {
    j < |s.stops| && UnderWay(s.stops[j]) && s.stops[j].task == t
  }

  /** The process lock: held by exactly the start that is past it, and then the slot stays empty. */
  ghost predicate LockOk(s: State) {
    && (s.lock.Some? ==> s.lock.value < |s.starts|)
    && (forall i :: 0 <= i < |s.starts| ==>
          (s.starts[i].Locked? || s.starts[i].Cleared? || s.starts[i].Announced? <==> s.lock == Some(i)))
    && (forall i :: 0 <= i < |s.starts| && (s.starts[i].Cleared? || s.starts[i].Announced?) ==> s.slot.None?)
  }

  ghost predicate HandlesOk(s: State) {
    && (s.slot.Some? ==> s.slot.value < |s.tasks| && !s.tasks[s.slot.value].cancelled)
    && (forall j, t: nat :: HeldBy(s, j, t) ==> t < |s.tasks| && s.slot != Some(t))
    && (forall j, k, t: nat :: HeldBy(s, j, t) && HeldBy(s, k, t) ==> j == k)
    && (forall t: nat :: t < |s.tasks| && !s.tasks[t].ended ==> s.slot == Some(t) || exists j: nat :: HeldBy(s, j, t))
    && (forall t: nat :: t < |s.tasks| && s.tasks[t].ended ==> s.tasks[t].cancelled)
    && (forall j: nat, t: nat :: HeldBy(s, j, t) && t < |s.tasks| ==>
          && (s.stops[j].Took? ==> !s.tasks[t].cancelled)
          && (s.stops[j].Signalled? ==> s.tasks[t].cancelled)
          && (s.stops[j].Joined? ==> s.tasks[t].ended))
  }

  lemma StepKeepsLock(s: State, e: Event)
    requires LockOk(s) && Enabled(s, e)
    ensures LockOk(Apply(s, e))
  {
    hide SomeStopUnderWay;
  }

  /** Only these events change what a stop holds, or the slot. */
  lemma SameHolders(s: State, e: Event)
    requires Enabled(s, e) && !e.Take? && !e.ReportStopped? && !e.Install?
    ensures Apply(s, e).slot == s.slot && |Apply(s, e).tasks| == |s.tasks|
    ensures forall j, t: nat :: HeldBy(Apply(s, e), j, t) == HeldBy(s, j, t)
  {
    hide SomeStopUnderWay;
  }

  lemma QuietKeepsHandles(s: State, e: Event)
    requires HandlesOk(s) && Enabled(s, e) && !e.Take? && !e.ReportStopped? && !e.Install? && !e.Signal?
    ensures HandlesOk(Apply(s, e))
  {
    SameHolders(s, e);
    hide HeldBy, SomeStopUnderWay;
    var s' := Apply(s, e);
    forall j: nat, t: nat | HeldBy(s', j, t) && t < |s.tasks|
      ensures s'.stops[j].Took? ==> !s'.tasks[t].cancelled
      ensures s'.stops[j].Signalled? ==> s'.tasks[t].cancelled
      ensures s'.stops[j].Joined? ==> s'.tasks[t].ended
    {
      HeldIs(s, j, t);
      HeldIs(s', j, t);
    }
  }

  lemma HeldIs(s: State, j: nat, t: nat)
    requires HeldBy(s, j, t)
    ensures j < |s.stops| && UnderWay(s.stops[j]) && s.stops[j].task == t
  {
  }

  lemma SignalKeepsHandles(s: State, j: nat)
    requires HandlesOk(s) && Enabled(s, Signal(j))
    ensures HandlesOk(Apply(s, Signal(j)))
  {
    SameHolders(s, Signal(j));
    assert HeldBy(s, j, s.stops[j].task);
  }

  lemma TakeKeepsHandles(s: State, j: nat)
    requires HandlesOk(s) && Enabled(s, Take(j))
    ensures HandlesOk(Apply(s, Take(j)))
  {
    var s' := Apply(s, Take(j));
    if s.slot.Some? {
      assert HeldBy(s', j, s.slot.value);
    }
    forall k, t: nat | k != j ensures HeldBy(s', k, t) == HeldBy(s, k, t) {
    }
    assert forall t: nat :: !HeldBy(s, j, t);
  }

  lemma ReportKeepsHandles(s: State, j: nat)
    requires HandlesOk(s) && Enabled(s, ReportStopped(j))
    ensures HandlesOk(Apply(s, ReportStopped(j)))
  {
    var s' := Apply(s, ReportStopped(j));
    assert HeldBy(s, j, s.stops[j].task);
    forall k, t: nat ensures HeldBy(s', k, t) <==> HeldBy(s, k, t) && k != j {
    }
  }

  lemma InstallKeepsHandles(s: State, i: nat)
    requires HandlesOk(s) && LockOk(s) && Enabled(s, Install(i))
    ensures HandlesOk(Apply(s, Install(i)))
  {
    var s' := Apply(s, Install(i));
    forall k, t: nat ensures HeldBy(s', k, t) <==> HeldBy(s, k, t) {
    }
  }

  lemma StepKeepsHandles(s: State, e: Event)
    requires HandlesOk(s) && LockOk(s) && Enabled(s, e)
    ensures HandlesOk(Apply(s, e))
  {
    hide HandlesOk, LockOk, Apply, Enabled;
    match e {
      case Take(j) => TakeKeepsHandles(s, j);
      case ReportStopped(j) => ReportKeepsHandles(s, j);
      case Install(i) => InstallKeepsHandles(s, i);
      case Signal(j) => SignalKeepsHandles(s, j);
      case _ => QuietKeepsHandles(s, e);
    }
  }

  // ----- what is published -----

  /** The last report says the egress is on. */
  predicate On(p: seq<Report>) {
    p != [] && !p[|p| - 1].Stopped?
  }

  /** Report `i` is Starting exactly if it is the first one or follows Stopped. */
  predicate InPlace(p: seq<Report>, i: nat)
    requires i < |p|
  {
    p[i].Starting? <==> (i == 0 || p[i - 1].Stopped?)
  }

  /** A prefix of (Starting Ready* Stopped)*. */
  predicate WellFormed(p: seq<Report>) {
    forall i :: 0 <= i < |p| ==> InPlace(p, i)
  }

  lemma WellFormedAppend(p: seq<Report>, r: Report)
    ensures WellFormed(p + [r]) <==> WellFormed(p) && (r.Starting? <==> !On(p))
    ensures On(p + [r]) <==> !r.Stopped?
  {
    var q := p + [r];
    assert forall i :: 0 <= i < |p| ==> InPlace(q, i) == InPlace(p, i);
    assert InPlace(q, |p|) <==> (r.Starting? <==> !On(p));
  }

  predicate SomeStartAnnounced(s: State) {
    s.lock.Some? && IsStart(s, s.lock.value, Announced)
  }

  /** At most one process exists, counting one that is about to be installed or is being stopped. */
  ghost predicate Single(s: State) {
    && (s.slot.Some? || SomeStartAnnounced(s) ==> !SomeStopUnderWay(s))
    && (forall j, k :: 0 <= j < k < |s.stops| ==> !(UnderWay(s.stops[j]) && UnderWay(s.stops[k])))
  }

  ghost predicate Busy(s: State) {
    s.slot.Some? || SomeStartAnnounced(s) || SomeStopUnderWay(s)
  }

  ghost predicate PublishedOk(s: State) {
    && (WellFormed(s.published) <==> !s.overlapped)
    && (!s.overlapped ==> Single(s) && (On(s.published) <==> Busy(s)))
  }

  ghost predicate Inv(s: State) {
    LockOk(s) && HandlesOk(s) && PublishedOk(s)
  }

  /** A task that can still report is in the slot or being stopped. */
  lemma RunningIsBusy(s: State, t: nat)
    requires HandlesOk(s) && t < |s.tasks| && !s.tasks[t].ended
    ensures Busy(s)
  {
    if s.slot != Some(t) {
      var j: nat :| HeldBy(s, j, t);
      assert UnderWay(s.stops[j]);
    }
  }

  /** Events that publish nothing and neither take nor install: who is busy does not change. */
  lemma SilentKeepsPublished(s: State, e: Event)
    requires LockOk(s) && PublishedOk(s) && Enabled(s, e)
    requires e.CallStart? || e.Lock? || e.Check? || e.CallStop? || e.Signal? || e.Join? || e.Drop? || e.Exit?
    ensures PublishedOk(Apply(s, e))
  {
    var s' := Apply(s, e);
    assert SomeStartAnnounced(s') == SomeStartAnnounced(s);
    assert forall j :: 0 <= j < |s'.stops| ==>
      (UnderWay(s'.stops[j]) <==> j < |s.stops| && UnderWay(s.stops[j]));
    assert SomeStopUnderWay(s') == SomeStopUnderWay(s) by {
      if SomeStopUnderWay(s) {
        var j :| 0 <= j < |s.stops| && UnderWay(s.stops[j]);
        assert UnderWay(s'.stops[j]);
      }
    }
  }

  lemma ConnectKeepsPublished(s: State, t: nat)
    requires Inv(s) && Enabled(s, Connect(t))
    ensures PublishedOk(Apply(s, Connect(t)))
  {
    RunningIsBusy(s, t);
    WellFormedAppend(s.published, Ready);
    hide WellFormed, On;
    var s' := Apply(s, Connect(t));
    assert SomeStopUnderWay(s') == SomeStopUnderWay(s);
  }

  lemma AnnounceKeepsPublished(s: State, i: nat)
    requires Inv(s) && Enabled(s, Announce(i))
    ensures PublishedOk(Apply(s, Announce(i)))
  {
    WellFormedAppend(s.published, Starting);
    hide WellFormed, On, HandlesOk;
    var s' := Apply(s, Announce(i));
    assert s.slot.None? && s.lock == Some(i) && !SomeStartAnnounced(s) && SomeStartAnnounced(s');
    assert SomeStopUnderWay(s') == SomeStopUnderWay(s);
  }

  lemma InstallKeepsPublished(s: State, i: nat)
    requires Inv(s) && Enabled(s, Install(i))
    ensures PublishedOk(Apply(s, Install(i)))
  {
    hide WellFormed, On, HandlesOk;
    var s' := Apply(s, Install(i));
    assert s.lock == Some(i) && SomeStartAnnounced(s);
    assert SomeStopUnderWay(s') == SomeStopUnderWay(s);
  }

  lemma TakeKeepsPublished(s: State, j: nat)
    requires Inv(s) && Enabled(s, Take(j))
    ensures PublishedOk(Apply(s, Take(j)))
  {
    hide WellFormed, On, HandlesOk;
    var s' := Apply(s, Take(j));
    assert SomeStartAnnounced(s') == SomeStartAnnounced(s);
    assert forall k :: 0 <= k < |s.stops| && k != j ==> s'.stops[k] == s.stops[k];
    if s.slot.Some? {
      assert UnderWay(s'.stops[j]);
      assert !SomeStartAnnounced(s);
    } else {
      assert SomeStopUnderWay(s') == SomeStopUnderWay(s) by {
        if SomeStopUnderWay(s) {
          var k :| 0 <= k < |s.stops| && UnderWay(s.stops[k]);
          assert UnderWay(s'.stops[k]);
        }
      }
    }
  }

  lemma ReportKeepsPublished(s: State, j: nat)
    requires Inv(s) && Enabled(s, ReportStopped(j))
    ensures PublishedOk(Apply(s, ReportStopped(j)))
  {
    WellFormedAppend(s.published, Stopped);
    hide WellFormed, On, HandlesOk;
    var s' := Apply(s, ReportStopped(j));
    assert UnderWay(s.stops[j]) && SomeStopUnderWay(s);
    assert SomeStartAnnounced(s') == SomeStartAnnounced(s);
    if !s.overlapped {
      forall k | 0 <= k < |s'.stops| ensures !UnderWay(s'.stops[k]) {
        assert k != j ==> s'.stops[k] == s.stops[k];
      }
    }
  }

  lemma StepKeepsInv(s: State, e: Event)
    requires Inv(s) && Enabled(s, e)
    ensures Inv(Apply(s, e))
  {
    StepKeepsLock(s, e);
    StepKeepsHandles(s, e);
    hide LockOk, HandlesOk, PublishedOk, Apply, Enabled;
    match e {
      case Connect(t) => ConnectKeepsPublished(s, t);
      case Announce(i) => AnnounceKeepsPublished(s, i);
      case Install(i) => InstallKeepsPublished(s, i);
      case Take(j) => TakeKeepsPublished(s, j);
      case ReportStopped(j) => ReportKeepsPublished(s, j);
      case _ => SilentKeepsPublished(s, e);
    }
  }

  lemma {:induction false} RunKeepsInv(s: State, es: seq<Event>)
    requires Inv(s) && CanRun(s, es)
    ensures Inv(Run(s, es))
    decreases |es|
  {
    hide Inv, Apply, Enabled;
    if es == [] {
    } else {
      StepKeepsInv(s, es[0]);
      RunKeepsInv(Apply(s, es[0]), es[1..]);
    }
  }

  // ----- every run -----

  /**
   In every interleaving of start and stop calls, a start that installs finds the slot
   empty, so no process is overwritten; and every task that has not ended has its handle
   in the slot or with exactly one stop call that is under way, never both.
   */
  lemma NoProcessIsLost(es: seq<Event>)
    requires CanRun(Init(), es)
    ensures var s := Run(Init(), es);
      && (forall i :: Enabled(s, Install(i)) ==> s.slot.None?)
      && (forall t: nat :: t < |s.tasks| && !s.tasks[t].ended ==> s.slot == Some(t) || exists j: nat :: HeldBy(s, j, t))
      && (forall j, t: nat :: HeldBy(s, j, t) ==> s.slot != Some(t))
      && (forall j, k, t: nat :: HeldBy(s, j, t) && HeldBy(s, k, t) ==> j == k)
  {
    hide Run, CanRun;
    RunKeepsInv(Init(), es);
  }

  /** Start call `i` can take its next step. */
  predicate StartCanGoOn(s: State, i: nat)
    requires i < |s.starts|
  {
    match s.starts[i]
    case Waiting => s.lock.None? && Enabled(s, Lock(i))
    case Locked => Enabled(s, Check(i))
    case Cleared => Enabled(s, Announce(i))
    case Announced => Enabled(s, Install(i))
    case StartReturned(_) => true
  }

  /** Stop call `j` can take its next step, or the task it waits for can end. */
  predicate StopCanGoOn(s: State, j: nat)
    requires j < |s.stops|
  {
    match s.stops[j]
    case Called => Enabled(s, Take(j))
    case Took(_) => Enabled(s, Signal(j))
    case Signalled(t) => Enabled(s, Join(j)) || Enabled(s, Exit(t))
    case Joined(_) => Enabled(s, ReportStopped(j))
    case StopReturned(_) => true
  }

  /**
   No call is stuck, in any interleaving: every call can take its next step, except that a
   start waits for the lock while another start holds it, and that one can go on. Calls
   can begin at any time, and a running task can connect, or drop if it is connected.
   */
  lemma CallsCanGoOn(es: seq<Event>)
    requires CanRun(Init(), es)
    ensures var s := Run(Init(), es);
      && (forall i :: 0 <= i < |s.starts| ==>
            StartCanGoOn(s, i)
            || (s.lock.Some? && s.lock.value != i && s.lock.value < |s.starts| && StartCanGoOn(s, s.lock.value)))
      && (forall j :: 0 <= j < |s.stops| ==> StopCanGoOn(s, j))
      && (forall t :: 0 <= t < |s.tasks| && !s.tasks[t].ended ==>
            if Linked(s.tasks[t]) then Enabled(s, Drop(t)) else Enabled(s, Connect(t)))
      && Enabled(s, CallStart) && Enabled(s, CallStop)
  {
    hide Run, CanRun;
    RunKeepsInv(Init(), es);
    var s := Run(Init(), es);
    forall j: nat | j < |s.stops| ensures StopCanGoOn(s, j) {
      StopGoesOn(s, j);
    }
    hide HandlesOk, PublishedOk, StopCanGoOn;
  }

  /** A task whose end a stop waits for was cancelled. */
  lemma StopGoesOn(s: State, j: nat)
    requires HandlesOk(s) && j < |s.stops|
    ensures StopCanGoOn(s, j)
  {
    if UnderWay(s.stops[j]) {
      assert HeldBy(s, j, s.stops[j].task);
    }
  }

  /**
   The published states form a prefix of (Starting Ready* Stopped)*, if and only if no
   start announced itself while a stop was under way; and then the last report tells
   whether there is a process.
   */
  lemma PublishedInOrderIff(es: seq<Event>)
    requires CanRun(Init(), es)
    ensures var s := Run(Init(), es);
      && (WellFormed(s.published) <==> !s.overlapped)
      && (!s.overlapped ==> (On(s.published) <==> Busy(s)))
  {
    hide Run, CanRun;
    RunKeepsInv(Init(), es);
  }

  // ----- calls that do not overlap -----

  ghost predicate AllReturned(s: State) {
    && (forall i :: 0 <= i < |s.starts| ==> s.starts[i].StartReturned?)
    && (forall j :: 0 <= j < |s.stops| ==> s.stops[j].StopReturned?)
  }

  /** A run in which no call begins before all earlier calls have returned. */
  ghost predicate CallsDoNotOverlap(s: State, es: seq<Event>)
    decreases |es|
  {
    es == [] ||
    (Enabled(s, es[0]) && (es[0].CallStart? || es[0].CallStop? ==> AllReturned(s))
     && CallsDoNotOverlap(Apply(s, es[0]), es[1..]))
  }

  /** While a start is active no stop is. */
  ghost predicate Alone(s: State) {
    && !s.overlapped
    && (forall i, j :: 0 <= i < |s.starts| && 0 <= j < |s.stops| && !s.starts[i].StartReturned? ==>
          s.stops[j].StopReturned?)
  }

  lemma StepKeepsAlone(s: State, e: Event)
    requires Alone(s) && Enabled(s, e) && (e.CallStart? || e.CallStop? ==> AllReturned(s))
    ensures Alone(Apply(s, e))
  {
    if e.Announce? {
      assert forall j :: 0 <= j < |s.stops| ==> !UnderWay(s.stops[j]);
    }
  }

  lemma {:induction false} SequentialRun(s: State, es: seq<Event>)
    requires Inv(s) && Alone(s) && CallsDoNotOverlap(s, es)
    ensures CanRun(s, es) && Inv(Run(s, es)) && Alone(Run(s, es))
    decreases |es|
  {
    if es == [] {
      assert Run(s, es) == s;
    } else {
      StepKeepsInv(s, es[0]);
      StepKeepsAlone(s, es[0]);
      hide Inv, Alone, Apply, Enabled;
      SequentialRun(Apply(s, es[0]), es[1..]);
    }
  }

  /**
   When calls do not overlap, the published states are in order, so no Ready follows a
   returned stop before the next start, and the last one tells whether there is a
   process: between calls, whether one is installed.
   */
  lemma SequentialCallsPublishInOrder(es: seq<Event>)
    requires CallsDoNotOverlap(Init(), es)
    ensures CanRun(Init(), es)
    ensures var s := Run(Init(), es);
      && WellFormed(s.published)
      && (On(s.published) <==> Busy(s))
      && (AllReturned(s) ==> (On(s.published) <==> s.slot.Some?))
  {
    SequentialRun(Init(), es);
    hide Run, CanRun;
  }
}
