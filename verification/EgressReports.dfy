/**
 What the published states of an egress tell its users: when the last one is true, in
 every interleaving of start and stop, and what Ready is worth.
 */
module EgressReports {
  import opened Bytes
  import opened EgressLifecycle

  // ----- when the last report is wrong -----

  predicate Publishes(e: Event) {
    e.Announce? || e.Connect? || e.ReportStopped?
  }

  ghost predicate OtherStopUnderWay(s: State, j: nat) {
    exists k :: 0 <= k < |s.stops| && k != j && UnderWay(s.stops[k])
  }

  /** Besides the process that stop `j` has stopped there is another, or one about to be installed. */
  ghost predicate OthersBusy(s: State, j: nat) {
    s.slot.Some? || SomeStartAnnounced(s) || OtherStopUnderWay(s, j)
  }

  /** Event `n` of the run is its last report, and says Stopped in spite of another process. */
  ghost predicate MisleadsAt(es: seq<Event>, n: nat) {
    && n < |es| && es[n].ReportStopped?
    && (forall k :: n < k < |es| ==> !Publishes(es[k]))
    && CanRun(Init(), es[..n]) && OthersBusy(Run(Init(), es[..n]), es[n].j)
  }

  ghost predicate Misleads(es: seq<Event>) {
    exists n: nat :: MisleadsAt(es, n)
  }

  lemma ReportLeavesOthers(s: State, j: nat)
    requires LockOk(s) && Enabled(s, ReportStopped(j))
    ensures Busy(Apply(s, ReportStopped(j))) <==> OthersBusy(s, j)
    ensures !On(Apply(s, ReportStopped(j)).published)
  {
    var s' := Apply(s, ReportStopped(j));
    assert SomeStartAnnounced(s') == SomeStartAnnounced(s);
    assert forall k :: 0 <= k < |s.stops| ==> s'.stops[k] == if k == j then StopReturned(true) else s.stops[k];
    if OtherStopUnderWay(s, j) {
      var k :| 0 <= k < |s.stops| && k != j && UnderWay(s.stops[k]);
      assert UnderWay(s'.stops[k]);
    }
  }

  /** An event that publishes nothing neither begins nor ends a process. */
  lemma QuietKeepsBusy(s: State, e: Event)
    requires LockOk(s) && Enabled(s, e) && !Publishes(e)
    ensures Apply(s, e).published == s.published && (Busy(Apply(s, e)) <==> Busy(s))
  {
    var s' := Apply(s, e);
    assert forall j :: 0 <= j < |s.stops| && !(e.Take? && e.j == j) ==> UnderWay(s'.stops[j]) == UnderWay(s.stops[j]);
    if SomeStopUnderWay(s) {
      var j :| 0 <= j < |s.stops| && UnderWay(s.stops[j]);
      assert UnderWay(s'.stops[j]);
    }
    if e.Take? && s.slot.Some? {
      assert UnderWay(s'.stops[e.j]);
    }
  }

  lemma AnnouncedIsOn(s: State, e: Event)
    requires Inv(s) && Enabled(s, e) && (e.Announce? || e.Connect?)
    ensures On(Apply(s, e).published) && Busy(Apply(s, e))
  {
    var s' := Apply(s, e);
    if e.Connect? {
      RunningIsBusy(s, e.t);
      assert SomeStopUnderWay(s') == SomeStopUnderWay(s);
    }
  }

  lemma {:induction false} RunLast(s: State, es: seq<Event>, e: Event)
    ensures CanRun(s, es + [e]) <==> CanRun(s, es) && Enabled(Run(s, es), e)
    ensures CanRun(s, es + [e]) ==> Run(s, es + [e]) == Apply(Run(s, es), e)
    decreases |es|
  {
    hide Apply, Enabled;
    if es == [] {
      assert [e][1..] == [];
    } else {
      assert (es + [e])[1..] == es[1..] + [e];
      if Enabled(s, es[0]) {
        RunLast(Apply(s, es[0]), es[1..], e);
      }
    }
  }

  /** What one more event does to the verdict on a run. */
  lemma MisleadsLast(es: seq<Event>, e: Event)
    requires CanRun(Init(), es)
    ensures Misleads(es + [e]) <==>
      if e.ReportStopped? then OthersBusy(Run(Init(), es), e.j) else !Publishes(e) && Misleads(es)
  {
    hide CanRun, Run, OthersBusy;
    var more := es + [e];
    assert more[..|es|] == es;
    forall n: nat | n < |es|
      ensures MisleadsAt(more, n) <==> !Publishes(e) && MisleadsAt(es, n)
    {
      assert more[..n] == es[..n];
      if MisleadsAt(more, n) {
        assert !Publishes(more[|es|]);
        forall k | n < k < |es| ensures !Publishes(es[k]) {
          assert more[k] == es[k];
        }
      }
    }
    assert MisleadsAt(more, |es|) <==> e.ReportStopped? && OthersBusy(Run(Init(), es), e.j);
    if Misleads(es) && !Publishes(e) {
      var n: nat :| MisleadsAt(es, n);
      assert MisleadsAt(more, n);
    }
  }

  /**
   In every run whatsoever: a report other than Stopped means there is a process. The
   last report tells exactly whether there is one, unless it is a Stopped that was
   reported while another process was installed, announced or being stopped. Without
   a process nothing runs.
   */
  lemma {:induction false} LastReportIsTrueIff(es: seq<Event>)
    requires CanRun(Init(), es)
    ensures var s := Run(Init(), es);
      && (On(s.published) ==> Busy(s))
      && ((On(s.published) <==> Busy(s)) <==> !Misleads(es))
      && (!Busy(s) ==> s.slot.None? && forall t :: 0 <= t < |s.tasks| ==> s.tasks[t].ended)
    decreases |es|
  {
    RunKeepsInv(Init(), es);
    var s := Run(Init(), es);
    assert Inv(s);
    forall t | 0 <= t < |s.tasks| && !s.tasks[t].ended ensures Busy(s) {
      RunningIsBusy(s, t);
    }
    if es == [] {
      assert !Misleads(es);
    } else {
      var before, e := es[..|es| - 1], es[|es| - 1];
      assert es == before + [e];
      RunLast(Init(), before, e);
      LastReportIsTrueIff(before);
      MisleadsLast(before, e);
      RunKeepsInv(Init(), before);
      LastStep(Run(Init(), before), e);
    }
  }

  lemma LastStep(s: State, e: Event)
    requires Inv(s) && Enabled(s, e)
    ensures var s' := Apply(s, e);
      && (e.ReportStopped? ==> !On(s'.published) && (Busy(s') <==> OthersBusy(s, e.j)))
      && (!Publishes(e) ==> s'.published == s.published && (Busy(s') <==> Busy(s)))
      && (e.Announce? || e.Connect? ==> On(s'.published) && Busy(s'))
  {
    if e.ReportStopped? {
      ReportLeavesOthers(s, e.j);
    } else if Publishes(e) {
      AnnouncedIsOn(s, e);
    } else {
      QuietKeepsBusy(s, e);
    }
  }

  // ----- what Ready tells -----

  /** The process that is installed, or one that is being stopped. */
  ghost predicate Current(s: State, t: nat) {
    s.slot == Some(t) || exists j: nat :: HeldBy(s, j, t)
  }

  predicate LastIsReady(p: seq<Report>) {
    p != [] && p[|p| - 1].Ready?
  }

  ghost predicate ReadyOk(s: State) {
    && (forall t :: 0 <= t < |s.tasks| ==> s.tasks[t].drops <= s.tasks[t].connects <= s.tasks[t].drops + 1)
    && (!s.overlapped ==>
          && (forall t: nat :: Current(s, t) && t < |s.tasks| ==>
                (LastIsReady(s.published) <==> s.tasks[t].connects > 0))
          && (LastIsReady(s.published) ==> exists t: nat :: Current(s, t)))
  }

  /** Without an overlap there is at most one process. */
  lemma CurrentIsOne(s: State, t: nat, u: nat)
    requires Single(s) && Current(s, t) && Current(s, u)
    ensures t == u
    ensures !SomeStartAnnounced(s) || s.slot.Some?
  {
    forall j: nat, v: nat ensures HeldBy(s, j, v) ==> SomeStopUnderWay(s) {
      HolderIsUnderWay(s, j, v);
    }
    if s.slot.None? {
      var j: nat :| HeldBy(s, j, t);
      var k: nat :| HeldBy(s, k, u);
      assert j == k;
    }
  }

  lemma SameCurrent(s: State, e: Event)
    requires HandlesOk(s) && Enabled(s, e) && !e.ReportStopped? && !e.Install?
    ensures |Apply(s, e).tasks| == |s.tasks|
    ensures forall t: nat :: Current(Apply(s, e), t) <==> Current(s, t)
  {
    var s' := Apply(s, e);
    if e.Take? {
      forall k, t: nat | k != e.j ensures HeldBy(s', k, t) == HeldBy(s, k, t) {
      }
      forall t: nat ensures Current(s', t) <==> Current(s, t) {
        if s.slot == Some(t) {
          assert HeldBy(s', e.j, t);
        }
      }
    } else {
      SameHolders(s, e);
    }
  }

  lemma HolderIsUnderWay(s: State, j: nat, t: nat)
    ensures HeldBy(s, j, t) ==> SomeStopUnderWay(s)
  {
    if HeldBy(s, j, t) {
      assert UnderWay(s.stops[j]);
    }
  }

  lemma NobodyCurrent(s: State)
    requires s.slot.None? && !SomeStopUnderWay(s)
    ensures forall t: nat :: !Current(s, t)
  {
    forall j: nat, t: nat ensures HeldBy(s, j, t) ==> SomeStopUnderWay(s) {
      HolderIsUnderWay(s, j, t);
    }
  }

  lemma InstallKeepsReady(s: State, i: nat)
    requires Inv(s) && ReadyOk(s) && Enabled(s, Install(i))
    ensures ReadyOk(Apply(s, Install(i)))
  {
    var s' := Apply(s, Install(i));
    if !s.overlapped {
      assert SomeStartAnnounced(s);
      NobodyCurrent(s);
      forall k, t: nat ensures HeldBy(s', k, t) <==> HeldBy(s, k, t) {
      }
      assert Current(s', |s.tasks|);
    }
  }

  lemma AnnounceKeepsReady(s: State, i: nat)
    requires Inv(s) && ReadyOk(s) && Enabled(s, Announce(i))
    ensures ReadyOk(Apply(s, Announce(i)))
  {
    AnnounceKeepsPublished(s, i);
    StepKeepsLock(s, Announce(i));
    var s' := Apply(s, Announce(i));
    if !s'.overlapped {
      NobodyCurrent(s');
    }
  }

  lemma ReportKeepsReady(s: State, j: nat)
    requires Inv(s) && ReadyOk(s) && Enabled(s, ReportStopped(j))
    ensures ReadyOk(Apply(s, ReportStopped(j)))
  {
    ReportKeepsPublished(s, j);
    var s' := Apply(s, ReportStopped(j));
    if !s.overlapped {
      NobodyCurrent(s');
    }
  }

  lemma ConnectKeepsReady(s: State, t: nat)
    requires Inv(s) && ReadyOk(s) && Enabled(s, Connect(t))
    ensures ReadyOk(Apply(s, Connect(t)))
  {
    SameCurrent(s, Connect(t));
    assert Current(s, t);
    if !s.overlapped {
      forall u: nat | Current(s, u) ensures u == t {
        CurrentIsOne(s, t, u);
      }
    }
  }

  lemma StepKeepsReady(s: State, e: Event)
    requires Inv(s) && ReadyOk(s) && Enabled(s, e)
    ensures ReadyOk(Apply(s, e))
  {
    match e {
      case ReportStopped(j) => ReportKeepsReady(s, j);
      case Announce(i) => AnnounceKeepsReady(s, i);
      case Install(i) => InstallKeepsReady(s, i);
      case Connect(t) => ConnectKeepsReady(s, t);
      case _ => SameCurrent(s, e);
    }
  }

  lemma {:induction false} RunKeepsReady(s: State, es: seq<Event>)
    requires Inv(s) && ReadyOk(s) && CanRun(s, es)
    ensures ReadyOk(Run(s, es))
    decreases |es|
  {
    hide Inv, ReadyOk, Apply, Enabled;
    if es == [] {
      assert Run(s, es) == s;
    } else {
      StepKeepsInv(s, es[0]);
      StepKeepsReady(s, es[0]);
      RunKeepsReady(Apply(s, es[0]), es[1..]);
    }
  }

  /** Event `n` of the run is its last report: task `t` has connected. */
  predicate ReadyAt(es: seq<Event>, n: nat, t: nat) {
    n < |es| && es[n] == Connect(t) && forall k :: n < k < |es| ==> !Publishes(es[k])
  }

  predicate DropsAfter(es: seq<Event>, n: nat, t: nat) {
    exists k :: n < k < |es| && es[k] == Drop(t)
  }

  /** What is known of the process whose connect was the last report. */
  ghost predicate Reported(s: State, t: nat, linked: bool) {
    t < |s.tasks| && Current(s, t) && s.tasks[t].connects > 0 && (Linked(s.tasks[t]) <==> linked)
  }

  lemma ConnectReports(s: State, t: nat)
    requires Inv(s) && ReadyOk(s) && Enabled(s, Connect(t))
    ensures Reported(Apply(s, Connect(t)), t, true)
  {
    SameCurrent(s, Connect(t));
    assert Current(s, t);
  }

  lemma QuietKeepsReported(s: State, e: Event, t: nat, linked: bool)
    requires Inv(s) && ReadyOk(s) && Enabled(s, e) && !Publishes(e) && Reported(s, t, linked)
    ensures Reported(Apply(s, e), t, linked && e != Drop(t))
  {
    var s' := Apply(s, e);
    if e.Install? {
      forall k, u: nat ensures HeldBy(s', k, u) <==> HeldBy(s, k, u) {
      }
      assert s.slot.None?;
    } else {
      SameCurrent(s, e);
    }
    hide Current, Inv;
  }

  /** What one more event makes of the last connect that was reported. */
  lemma ReadyLast(es: seq<Event>, e: Event, n: nat, t: nat)
    ensures ReadyAt(es + [e], n, t) <==> if n == |es| then e == Connect(t) else ReadyAt(es, n, t) && !Publishes(e)
    ensures n < |es| ==> (DropsAfter(es + [e], n, t) <==> DropsAfter(es, n, t) || e == Drop(t))
    ensures !DropsAfter(es + [e], |es|, t)
  {
    var more := es + [e];
    assert forall k :: 0 <= k < |es| ==> more[k] == es[k];
    assert more[|es|] == e;
    if DropsAfter(es, n, t) {
      var k :| n < k < |es| && es[k] == Drop(t);
      assert more[k] == Drop(t);
    }
    if ReadyAt(more, n, t) && n < |es| {
      assert !Publishes(more[|es|]);
      forall k | n < k < |es| ensures !Publishes(es[k]) {
        assert !Publishes(more[k]);
      }
    }
  }

  /** Ready is the last report exactly if there is such an event, and what it tells. */
  ghost predicate ReadyMeans(es: seq<Event>, s: State) {
    && (LastIsReady(s.published) <==> exists n: nat, t: nat :: ReadyAt(es, n, t))
    && (forall n: nat, t: nat :: ReadyAt(es, n, t) ==> Reported(s, t, !DropsAfter(es, n, t)))
  }

  lemma ReadyStep(es: seq<Event>, e: Event, s: State)
    requires ReadyMeans(es, s) && Inv(s) && ReadyOk(s) && Enabled(s, e)
    ensures ReadyMeans(es + [e], Apply(s, e))
  {
    var s', more := Apply(s, e), es + [e];
    assert LastIsReady(s'.published) <==> if Publishes(e) then e.Connect? else LastIsReady(s.published);
    hide Inv, ReadyOk, Apply, Enabled, LastIsReady, ReadyAt, DropsAfter, Reported;
    forall n: nat, t: nat | ReadyAt(more, n, t) ensures Reported(s', t, !DropsAfter(more, n, t)) {
      ReadyLast(es, e, n, t);
      if n == |es| {
        ConnectReports(s, t);
      } else {
        QuietKeepsReported(s, e, t, !DropsAfter(es, n, t));
      }
    }
    if e.Connect? {
      ReadyLast(es, e, |es|, e.t);
      assert ReadyAt(more, |es|, e.t);
    }
    if n: nat, t: nat :| ReadyAt(es, n, t) {
      InRange(es, n, t);
      ReadyLast(es, e, n, t);
    }
    if n: nat, t: nat :| ReadyAt(more, n, t) {
      ReadyLast(es, e, n, t);
    }
  }

  lemma InRange(es: seq<Event>, n: nat, t: nat)
    requires ReadyAt(es, n, t)
    ensures n < |es|
  {
  }

  lemma {:induction false} ReadyMeansRun(es: seq<Event>)
    requires CanRun(Init(), es)
    ensures ReadyMeans(es, Run(Init(), es))
    decreases |es|
  {
    if es == [] {
      assert Run(Init(), es).published == [];
    } else {
      var before, e := es[..|es| - 1], es[|es| - 1];
      assert es == before + [e];
      RunLast(Init(), before, e);
      hide ReadyMeans, Apply, Enabled;
      ReadyMeansRun(before);
      RunKeepsInv(Init(), before);
      NobodyCurrent(Init());
      RunKeepsReady(Init(), before);
      ReadyStep(before, e, Run(Init(), before));
    }
  }

  /**
   In every run: Ready is the last report exactly if the last event that reports is a
   connect. The process that connected is then installed or being stopped, and it still
   has its tunnel if and only if it has not dropped since, because a drop withdraws
   nothing. Without an overlap there is only that process, so a process is reported Ready
   exactly if it has connected since its Starting.
   */
  lemma ReadyTellsIff(es: seq<Event>)
    requires CanRun(Init(), es)
    ensures ReadyMeans(es, Run(Init(), es))
    ensures var s := Run(Init(), es);
      !s.overlapped ==>
        forall t: nat :: Current(s, t) ==>
          && t < |s.tasks|
          && (LastIsReady(s.published) <==> s.tasks[t].connects > 0)
          && (Linked(s.tasks[t]) ==> LastIsReady(s.published))
          && (LastIsReady(s.published) && !Linked(s.tasks[t]) <==> s.tasks[t].connects == s.tasks[t].drops > 0)
  {
    RunKeepsInv(Init(), es);
    NobodyCurrent(Init());
    RunKeepsReady(Init(), es);
    ReadyMeansRun(es);
    hide Run, CanRun, ReadyMeans;
  }

  // ----- what overlapping calls can lead to -----

  lemma Prepend(s: State, e: Event, es: seq<Event>)
    requires Enabled(s, e) && CanRun(Apply(s, e), es)
    ensures CanRun(s, [e] + es) && Run(s, [e] + es) == Run(Apply(s, e), es)
  {
    hide Apply, Enabled;
    assert ([e] + es)[1..] == es;
  }

  /** A start call that runs through without interruption, followed by more. */
  ghost function Started(s: State): State {
    s.(slot := Some(|s.tasks|), tasks := s.tasks + [NEW_TASK],
       starts := s.starts + [StartReturned(true)], published := s.published + [Starting],
       overlapped := s.overlapped || SomeStopUnderWay(s))
  }

  /** The steps of a start call that runs without interruption. */
  function StartSteps(s: State): seq<Event> {
    var i := |s.starts|;
    if s.slot.Some? then [CallStart, Lock(i), Check(i)] else [CallStart, Lock(i), Check(i), Announce(i), Install(i)]
  }

  lemma StartRuns(s: State)
    requires s.lock.None?
    ensures CanRun(s, StartSteps(s))
    ensures Run(s, StartSteps(s)) ==
            if s.slot.Some? then s.(starts := s.starts + [StartReturned(false)]) else Started(s)
  {
    var i := |s.starts|;
    var s1 := Apply(s, CallStart);
    var s2 := Apply(s1, Lock(i));
    var s3 := Apply(s2, Check(i));
    hide Run, CanRun;
    RunThree(s, CallStart, Lock(i), Check(i));
    if s.slot.Some? {
      assert s3 == s.(starts := s.starts + [StartReturned(false)]);
    } else {
      assert s3 == s.(lock := Some(i), starts := s.starts + [Cleared]);
      assert SomeStopUnderWay(s3) == SomeStopUnderWay(s);
      InstallRuns(s, s3);
      hide Apply, Enabled, Started, SomeStopUnderWay;
      RunAppend(s, [CallStart, Lock(i), Check(i)], [Announce(i), Install(i)]);
      assert StartSteps(s) == [CallStart, Lock(i), Check(i)] + [Announce(i), Install(i)];
    }
  }

  /** The second half of a start: `s` before the call, `cleared` after its check. */
  lemma InstallRuns(s: State, cleared: State)
    requires s.lock.None? && SomeStopUnderWay(cleared) == SomeStopUnderWay(s)
    requires cleared == s.(lock := Some(|s.starts|), starts := s.starts + [Cleared])
    ensures var steps := [Announce(|s.starts|), Install(|s.starts|)];
      CanRun(cleared, steps) && Run(cleared, steps) == Started(s)
  {
    hide Run, CanRun, SomeStopUnderWay;
    var i := |s.starts|;
    var s4 := Apply(cleared, Announce(i));
    var s5 := Apply(s4, Install(i));
    assert s5 == Started(s);
    hide Apply, Enabled, Started;
    RunNothing(s5);
    Prepend(s4, Install(i), []);
    Prepend(cleared, Announce(i), [Install(i)] + []);
    assert [Announce(i), Install(i)] == [Announce(i)] + ([Install(i)] + []);
  }

  lemma StartRunsThrough(s: State, rest: seq<Event>) returns (es: seq<Event>)
    requires s.slot.None? && s.lock.None? && CanRun(Started(s), rest)
    ensures CanRun(s, es) && Run(s, es) == Run(Started(s), rest)
  {
    StartRuns(s);
    hide Started;
    es := StartSteps(s) + rest;
    RunAppend(s, StartSteps(s), rest);
  }

  lemma {:induction false} RunAppend(s: State, es: seq<Event>, fs: seq<Event>)
    requires CanRun(s, es) && CanRun(Run(s, es), fs)
    ensures CanRun(s, es + fs) && Run(s, es + fs) == Run(Run(s, es), fs)
    decreases |es|
  {
    hide Apply, Enabled;
    if es == [] {
      assert es + fs == fs;
    } else {
      assert (es + fs)[1..] == es[1..] + fs;
      RunAppend(Apply(s, es[0]), es[1..], fs);
    }
  }

  /** Ready stays the last report of a process whose tunnel has dropped. */
  lemma ReadyWithoutTunnel() returns (es: seq<Event>)
    ensures CanRun(Init(), es)
    ensures var s := Run(Init(), es);
      && !s.overlapped && s.published == [Starting, Ready]
      && s.slot == Some(0) && |s.tasks| == 1 && !s.tasks[0].ended && !Linked(s.tasks[0])
  {
    var s1 := Started(Init());
    var s2 := Apply(s1, Connect(0));
    var s3 := Apply(s2, Drop(0));
    assert s3.published == [Starting, Ready] && s3.tasks == [NEW_TASK.(connects := 1, drops := 1)];
    hide Apply, Enabled, Started;
    Prepend(s2, Drop(0), []);
    Prepend(s1, Connect(0), [Drop(0)] + []);
    es := StartRunsThrough(Init(), [Connect(0)] + ([Drop(0)] + []));
  }

  /** A stop that has taken the only process, then finishes after a second start ran through. */
  lemma StopFinishes(s: State) returns (es: seq<Event>)
    requires s.stops == [Took(0)] && s.slot == Some(1) && s.tasks == [NEW_TASK, NEW_TASK]
    ensures CanRun(s, es)
    ensures Run(s, es).slot == Some(1) && |Run(s, es).tasks| == 2 && !Run(s, es).tasks[1].ended
    ensures Run(s, es).published == s.published + [Stopped]
  {
    var s1 := Apply(s, Signal(0));
    var s2 := Apply(s1, Exit(0));
    var s3 := Apply(s2, Join(0));
    var s4 := Apply(s3, ReportStopped(0));
    assert s4.slot == Some(1) && |s4.tasks| == 2 && !s4.tasks[1].ended && s4.published == s.published + [Stopped];
    hide Apply, Enabled;
    Prepend(s3, ReportStopped(0), []);
    es := [ReportStopped(0)] + [];
    Prepend(s2, Join(0), es);
    es := [Join(0)] + es;
    Prepend(s1, Exit(0), es);
    es := [Exit(0)] + es;
    Prepend(s, Signal(0), es);
    es := [Signal(0)] + es;
  }

  /** A stop that overlaps a second start: the last report is Stopped although a process is installed and running. */
  lemma StoppedWhileRunning() returns (es: seq<Event>)
    ensures CanRun(Init(), es)
    ensures var s := Run(Init(), es);
      && s.published == [Starting, Starting, Stopped] && !WellFormed(s.published)
      && s.slot == Some(1) && |s.tasks| == 2 && !s.tasks[1].ended
  {
    hide Run, CanRun;
    var s1 := Started(Init());
    var s2 := Apply(s1, CallStop);
    var s3 := Apply(s2, Take(0));
    var s4 := Started(s3);
    assert s4.tasks == [NEW_TASK, NEW_TASK];
    assert s4.published == [Starting, Starting];
    var r4 := StopFinishes(s4);
    var r3 := StartRunsThrough(s3, r4);
    Prepend(s2, Take(0), r3);
    Prepend(s1, CallStop, [Take(0)] + r3);
    es := StartRunsThrough(Init(), [CallStop] + ([Take(0)] + r3));
    assert !InPlace([Starting, Starting, Stopped], 1);
  }

  // ----- the object, one caller at a time -----

  /** A stopped process, as stop `j` leaves it; a task that was dialling connects before it ends. */
  ghost function StoppedState(s: State, dialling: bool): State
    requires s.slot.Some? && s.slot.value < |s.tasks|
  {
    var t := s.slot.value;
    var task := s.tasks[t];
    s.(slot := None, stops := s.stops + [StopReturned(true)],
       tasks := s.tasks[t := task.(connects := if dialling then task.connects + 1 else task.connects,
                                  cancelled := true, ended := true)],
       published := s.published + (if dialling then [Ready] else []) + [Stopped])
  }

  /** From the cancelled task to the report. */
  function AwaitSteps(j: nat, t: nat, dialling: bool): seq<Event> {
    (if dialling then [Connect(t)] else []) + [Exit(t), Join(j), ReportStopped(j)]
  }

  /** The steps of a stop call that is the only call. */
  function StopSteps(s: State, dialling: bool): seq<Event> {
    var j := |s.stops|;
    if s.slot.None? then [CallStop, Take(j)]
    else [CallStop, Take(j), Signal(j)] + AwaitSteps(j, s.slot.value, dialling)
  }

  lemma RunThree(s: State, e: Event, f: Event, g: Event)
    requires Enabled(s, e) && Enabled(Apply(s, e), f) && Enabled(Apply(Apply(s, e), f), g)
    ensures CanRun(s, [e, f, g]) && Run(s, [e, f, g]) == Apply(Apply(Apply(s, e), f), g)
  {
    hide Apply, Enabled;
    var s1 := Apply(s, e);
    var s2 := Apply(s1, f);
    RunNothing(Apply(s2, g));
    Prepend(s2, g, []);
    Prepend(s1, f, [g] + []);
    Prepend(s, e, [f] + ([g] + []));
    assert [e, f, g] == [e] + ([f] + ([g] + []));
  }

  lemma EndRuns(s: State, j: nat, t: nat)
    requires j < |s.stops| && s.stops[j] == Signalled(t) && t < |s.tasks|
    requires !s.tasks[t].ended && s.tasks[t].cancelled
    ensures var steps := [Exit(t), Join(j), ReportStopped(j)];
      && CanRun(s, steps)
      && Run(s, steps) == s.(stops := s.stops[j := StopReturned(true)],
                             tasks := s.tasks[t := s.tasks[t].(ended := true)],
                             published := s.published + [Stopped])
  {
    hide Run, CanRun, SomeStopUnderWay;
    RunThree(s, Exit(t), Join(j), ReportStopped(j));
  }

  lemma AwaitRuns(s: State, j: nat, t: nat, dialling: bool)
    requires j < |s.stops| && s.stops[j] == Signalled(t) && t < |s.tasks|
    requires !s.tasks[t].ended && s.tasks[t].cancelled && (dialling ==> !Linked(s.tasks[t]))
    ensures CanRun(s, AwaitSteps(j, t, dialling))
    ensures Run(s, AwaitSteps(j, t, dialling)) ==
      s.(stops := s.stops[j := StopReturned(true)],
         tasks := s.tasks[t := s.tasks[t].(
           connects := if dialling then s.tasks[t].connects + 1 else s.tasks[t].connects, ended := true)],
         published := s.published + (if dialling then [Ready] else []) + [Stopped])
  {
    hide Run, CanRun, SomeStopUnderWay;
    if dialling {
      var s1 := Apply(s, Connect(t));
      EndRuns(s1, j, t);
      hide Apply, Enabled;
      Prepend(s, Connect(t), [Exit(t), Join(j), ReportStopped(j)]);
    } else {
      EndRuns(s, j, t);
      assert s.published + [] == s.published;
      assert [] + [Exit(t), Join(j), ReportStopped(j)] == [Exit(t), Join(j), ReportStopped(j)];
    }
  }

  /** The first half of a stop: the process is taken and its task cancelled. */
  lemma SignalRuns(s: State)
    requires s.slot.Some? && s.slot.value < |s.tasks|
    ensures var j, t := |s.stops|, s.slot.value;
      var steps := [CallStop, Take(j), Signal(j)];
      && CanRun(s, steps)
      && Run(s, steps) == s.(slot := None, stops := s.stops + [Signalled(t)],
                             tasks := s.tasks[t := s.tasks[t].(cancelled := true)])
  {
    hide Run, CanRun, SomeStopUnderWay;
    var j := |s.stops|;
    RunThree(s, CallStop, Take(j), Signal(j));
  }

  lemma StopRuns(s: State, dialling: bool)
    requires s.slot.Some? ==>
      var t := s.slot.value; t < |s.tasks| && !s.tasks[t].ended && (dialling ==> !Linked(s.tasks[t]))
    ensures CanRun(s, StopSteps(s, dialling))
    ensures Run(s, StopSteps(s, dialling)) ==
            if s.slot.Some? then StoppedState(s, dialling) else s.(stops := s.stops + [StopReturned(false)])
  {
    hide Run, CanRun, SomeStopUnderWay, AwaitSteps;
    var j := |s.stops|;
    var s2 := Apply(Apply(s, CallStop), Take(j));
    if s.slot.Some? {
      var t := s.slot.value;
      SignalRuns(s);
      hide Apply, Enabled;
      var s3 := Run(s, [CallStop, Take(j), Signal(j)]);
      AwaitRuns(s3, j, t, dialling);
      assert Run(s3, AwaitSteps(j, t, dialling)) == StoppedState(s, dialling);
      hide StoppedState;
      RunAppend(s, [CallStop, Take(j), Signal(j)], AwaitSteps(j, t, dialling));
    } else {
      assert s2 == s.(stops := s.stops + [StopReturned(false)]);
      RunNothing(s2);
      hide Apply, Enabled;
      Prepend(Apply(s, CallStop), Take(j), []);
      Prepend(s, CallStop, [Take(j)] + []);
      assert StopSteps(s, dialling) == [CallStop] + ([Take(j)] + []);
    }
  }

  lemma RunNothing(s: State)
    ensures CanRun(s, []) && Run(s, []) == s
  {
  }

  predicate IsCall(e: Event) {
    e.CallStart? || e.CallStop?
  }

  /** One call, begun when no other is active. */
  lemma {:induction false} OneCall(s: State, es: seq<Event>)
    requires CanRun(s, es) && (forall k :: 1 <= k < |es| ==> !IsCall(es[k]))
    requires es != [] && IsCall(es[0]) ==> AllReturned(s)
    ensures CallsDoNotOverlap(s, es)
    decreases |es|
  {
    hide Apply, Enabled, AllReturned;
    if es == [] {
    } else {
      OneCall(Apply(s, es[0]), es[1..]);
    }
  }

  lemma {:induction false} SequentialAppend(s: State, es: seq<Event>, fs: seq<Event>)
    requires CallsDoNotOverlap(s, es) && CanRun(s, es) && CallsDoNotOverlap(Run(s, es), fs)
    ensures CallsDoNotOverlap(s, es + fs)
    decreases |es|
  {
    hide Apply, Enabled, AllReturned;
    if es == [] {
      assert es + fs == fs;
    } else {
      assert (es + fs)[1..] == es[1..] + fs;
      SequentialAppend(Apply(s, es[0]), es[1..], fs);
    }
  }

  /** `trace` records the steps taken so far; the fields are the state they lead to. */
  class Egress {
    var process: Option<nat>
    var tasks: seq<Task>
    var published: seq<Report>
    ghost var trace: seq<Event>

    ghost predicate Traced()
      reads this
    {
      CallsDoNotOverlap(Init(), trace) && CanRun(Init(), trace)
    }

    /** The state of the machine after the steps taken so far. */
    ghost function Abs(): State
      requires Traced()
      reads this
    {
      Run(Init(), trace)
    }

    /** Between calls. */
    ghost predicate Valid()
      reads this
    {
      && Traced() && AllReturned(Abs()) && Abs().lock.None?
      && process == Abs().slot && tasks == Abs().tasks && published == Abs().published
      && (process.Some? ==> process.value < |tasks|)
    }

    constructor ()
      ensures Valid() && trace == []
    {
      process := None;
      tasks := [];
      published := [];
      trace := [];
    }

    /** Appends steps to the trace. */
    ghost method Record(steps: seq<Event>)
      requires Traced() && CanRun(Abs(), steps) && (forall k :: 1 <= k < |steps| ==> !IsCall(steps[k]))
      requires steps != [] && IsCall(steps[0]) ==> AllReturned(Abs())
      modifies this`trace
      ensures Traced() && trace == old(trace) + steps && Abs() == Run(old(Abs()), steps)
    {
      hide Run, CanRun, CallsDoNotOverlap, AllReturned;
      OneCall(Abs(), steps);
      SequentialAppend(Init(), trace, steps);
      RunAppend(Init(), trace, steps);
      trace := trace + steps;
    }

    /** False is the error that the egress is already started. */
    method Start() returns (ok: bool)
      requires Valid()
      modifies this
      ensures Valid() && trace == old(trace) + StartSteps(old(Abs()))
      ensures ok <==> !On(old(published))
    {
      NothingElseRuns();
      StartRuns(Abs());
      hide Run, CanRun, CallsDoNotOverlap, On, SomeStopUnderWay;
      Record(StartSteps(Abs()));
      if process.Some? {
        return false;
      }
      published := published + [Starting];
      process := Some(|tasks|);
      tasks := tasks + [NEW_TASK];
      return true;
    }

    /** The running task has connected. */
    method Connected()
      requires Valid() && process.Some? && !Linked(tasks[process.value])
      modifies this
      ensures Valid() && trace == old(trace) + [Connect(old(process).value)]
      ensures LastIsReady(published)
    {
      NothingElseRuns();
      var t := process.value;
      RunNothing(Apply(Abs(), Connect(t)));
      Prepend(Abs(), Connect(t), []);
      hide Run, CanRun, CallsDoNotOverlap, On;
      Record([Connect(t)] + []);
      tasks := tasks[t := tasks[t].(connects := tasks[t].connects + 1)];
      published := published + [Ready];
    }

    /** The tunnel of the running task has dropped: Ready is still what is reported. */
    method Dropped()
      requires Valid() && process.Some? && Linked(tasks[process.value])
      modifies this
      ensures Valid() && trace == old(trace) + [Drop(old(process).value)]
      ensures LastIsReady(published)
    {
      NothingElseRuns();
      SequentialRun(Init(), trace);
      var t := process.value;
      assert Current(Abs(), t);
      ReadyTellsIff(trace);
      RunNothing(Apply(Abs(), Drop(t)));
      Prepend(Abs(), Drop(t), []);
      hide Run, CanRun, CallsDoNotOverlap, On, Current;
      Record([Drop(t)] + []);
      tasks := tasks[t := tasks[t].(drops := tasks[t].drops + 1)];
    }

    /** False is the error that the egress is not started. */
    method Stop(dialling: bool) returns (ok: bool)
      requires Valid() && (dialling ==> process.Some? && !Linked(tasks[process.value]))
      modifies this
      ensures Valid() && trace == old(trace) + StopSteps(old(Abs()), dialling)
      ensures ok <==> On(old(published))
      ensures !On(published) && forall t :: 0 <= t < |tasks| ==> tasks[t].ended
    {
      NothingElseRuns();
      StopRuns(Abs(), dialling);
      hide Run, CanRun, CallsDoNotOverlap;
      Record(StopSteps(Abs(), dialling));
      if process.None? {
        return false;
      }
      var t := process.value;
      process := None;
      tasks := tasks[t := tasks[t].(cancelled := true)];
      if dialling {
        tasks := tasks[t := tasks[t].(connects := tasks[t].connects + 1)];
        published := published + [Ready];
      }
      tasks := tasks[t := tasks[t].(ended := true)];
      published := published + [Stopped];
      return true;
    }

    /** Between calls the installed process runs, and no other. */
    lemma NothingElseRuns()
      requires Valid()
      ensures process.Some? <==> On(published)
      ensures forall t :: 0 <= t < |tasks| ==> (tasks[t].ended <==> process != Some(t))
    {
      SequentialCallsPublishInOrder(trace);
      RunKeepsInv(Init(), trace);
      hide WellFormed, Run, CanRun, CallsDoNotOverlap, LockOk, PublishedOk;
      assert forall j: nat, t: nat :: !HeldBy(Abs(), j, t);
    }
  }
}
