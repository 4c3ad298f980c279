/**
 The tunnels of an ingress: a list that connections are pushed onto, and one watcher
 per tunnel that takes it off again when the connection closes. The watcher is spawned
 before the push, so it may run first.
 */
module TunnelRegistry {

  /** Removes an element by moving the last one into its place. */
  function SwapRemove<T>(ts: seq<T>, at: nat): seq<T>
    requires at < |ts|
  {
    ts[at := ts[|ts| - 1]][..|ts| - 1]
  }

  ghost predicate Distinct<T>(ts: seq<T>) {
    forall j, k :: 0 <= j < k < |ts| ==> ts[j] != ts[k]
  }

  /** `swap_remove` takes out that element and no other. */
  lemma SwapRemoveExact<T>(ts: seq<T>, at: nat, x: T)
    requires at < |ts| && Distinct(ts)
    ensures Distinct(SwapRemove(ts, at))
    ensures x in SwapRemove(ts, at) <==> x in ts && x != ts[at]
  {
    var r, last := SwapRemove(ts, at), |ts| - 1;
    assert forall k :: 0 <= k < last ==> r[k] == if k == at then ts[last] else ts[k];
    if x in ts && x != ts[at] {
      var k :| 0 <= k < |ts| && ts[k] == x;
      assert r[if k == last then at else k] == x;
    }
  }

  /** The first position of `x`, or the length if there is none. */
  function Position<T(==)>(ts: seq<T>, x: T): (k: nat)
    ensures k <= |ts| && (k < |ts| ==> ts[k] == x) && x !in ts[..k]
  {
    if ts == [] || ts[0] == x then 0 else
      var k := 1 + Position(ts[1..], x);
      assert ts[..k] == [ts[0]] + ts[1..][..k - 1];
      k
  }

  lemma {:induction false} FirstIsPosition<T>(ts: seq<T>, x: T, i: nat)
    requires i <= |ts| && x !in ts[..i] && (i < |ts| ==> ts[i] == x)
    ensures Position(ts, x) == i
  {
    if i == 0 {
    } else {
      assert ts[..i] == [ts[0]] + ts[1..][..i - 1];
      FirstIsPosition(ts[1..], x, i - 1);
    }
  }

  function Without<T(==)>(ts: seq<T>, x: T): seq<T> {
    if Position(ts, x) < |ts| then SwapRemove(ts, Position(ts, x)) else ts
  }

  lemma WithoutExact<T(!new)>(ts: seq<T>, x: T)
    requires Distinct(ts)
    ensures Distinct(Without(ts, x))
    ensures forall y :: y in Without(ts, x) <==> y in ts && y != x
  {
    var k := Position(ts, x);
    if k < |ts| {
      forall y ensures y in Without(ts, x) <==> y in ts && y != x {
        SwapRemoveExact(ts, k, y);
      }
    } else {
      assert ts[..k] == ts;
    }
  }

  type TunnelId = nat

  // ----- every interleaving of assignments, closes and watchers -----

  datatype Stage = Stage(
    pushed: bool,        // the assignment has pushed the tunnel
    closed: bool,        // the connection has closed
    firedEarly: bool,    // the watcher ran before the push
    firedLate: bool)     // the watcher ran after the push

  datatype State = State(list: seq<TunnelId>, stages: map<TunnelId, Stage>)

  datatype Event =
    | Spawn(t: TunnelId)    // a fresh tunnel is assigned: its watcher is spawned
    | Push(t: TunnelId)
    | Close(t: TunnelId)
    | Fire(t: TunnelId)     // the watcher removes the tunnel and ends

  function Init(): State {
    State([], map[])
  }

  predicate Fired(g: Stage) {
    g.firedEarly || g.firedLate
  }

  predicate Enabled(s: State, e: Event) {
    match e
    case Spawn(t) => t !in s.stages
    case Push(t) => t in s.stages && !s.stages[t].pushed
    case Close(t) => t in s.stages
    case Fire(t) => t in s.stages && s.stages[t].closed && !Fired(s.stages[t])
  }

  function Apply(s: State, e: Event): State
    requires Enabled(s, e)
  {
    match e
    case Spawn(t) => s.(stages := s.stages[t := Stage(false, false, false, false)])
    case Push(t) => State(s.list + [t], s.stages[t := s.stages[t].(pushed := true)])
    case Close(t) => s.(stages := s.stages[t := s.stages[t].(closed := true)])
    case Fire(t) =>
      var g := s.stages[t];
      State(Without(s.list, t), s.stages[t := if g.pushed then g.(firedLate := true) else g.(firedEarly := true)])
  }

  predicate CanRun(s: State, es: seq<Event>)
    decreases |es|
  {
    es == [] || (Enabled(s, es[0]) && CanRun(Apply(s, es[0]), es[1..]))
  }

  function Run(s: State, es: seq<Event>): State
    requires CanRun(s, es)
    decreases |es|
  {
    if es == [] then s else Run(Apply(s, es[0]), es[1..])
  }

  ghost predicate Inv(s: State) {
    && Distinct(s.list)
    && (forall t :: t in s.list <==> t in s.stages && s.stages[t].pushed && !s.stages[t].firedLate)
    && (forall t :: t in s.stages ==>
          && (s.stages[t].firedLate ==> s.stages[t].pushed && !s.stages[t].firedEarly)
          && (Fired(s.stages[t]) ==> s.stages[t].closed))
  }

  lemma StepKeepsInv(s: State, e: Event)
    requires Inv(s) && Enabled(s, e)
    ensures Inv(Apply(s, e))
  {
    if e.Fire? {
      WithoutExact(s.list, e.t);
    }
  }

  lemma {:induction false} RunKeepsInv(s: State, es: seq<Event>)
    requires Inv(s) && CanRun(s, es)
    ensures Inv(Run(s, es))
    decreases |es|
  {
    if es == [] {
    } else {
      StepKeepsInv(s, es[0]);
      RunKeepsInv(Apply(s, es[0]), es[1..]);
    }
  }

  /**
   In every interleaving the list is duplicate-free and is exactly the pushed tunnels
   whose watcher has not fired after the push.
   */
  lemma RegistryIsExact(es: seq<Event>)
    requires CanRun(Init(), es)
    ensures var s := Run(Init(), es);
      && Distinct(s.list)
      && (forall t :: t in s.list <==> t in s.stages && s.stages[t].pushed && !s.stages[t].firedLate)
  {
    RunKeepsInv(Init(), es);
  }

  /**
   A pushed tunnel whose watcher has run is gone, if and only if the watcher did not run
   before the push; one whose watcher ran too early stays, though it is closed.
   */
  lemma ClosedTunnelIsGoneIff(es: seq<Event>, t: TunnelId)
    requires CanRun(Init(), es)
    requires t in Run(Init(), es).stages && Run(Init(), es).stages[t].pushed && Fired(Run(Init(), es).stages[t])
    ensures var s := Run(Init(), es); t !in s.list <==> !s.stages[t].firedEarly
    ensures Run(Init(), es).stages[t].closed
  {
    RunKeepsInv(Init(), es);
  }

  /** In every interleaving a tunnel can close at any time, an assignment can push it, and its watcher can then run. */
  lemma RegistryCanGoOn(es: seq<Event>, t: TunnelId)
    requires CanRun(Init(), es) && t in Run(Init(), es).stages
    ensures var s := Run(Init(), es);
      && Enabled(s, Close(t))
      && (!s.stages[t].pushed ==> Enabled(s, Push(t)))
      && (s.stages[t].closed && !s.stages[t].firedEarly && !s.stages[t].firedLate ==> Enabled(s, Fire(t)))
  {
  }

  /** Once the watcher has run too early, no continuation of the run takes the tunnel off the list. */
  lemma {:induction false} EarlyWatcherLeaksForever(s: State, es: seq<Event>, t: TunnelId)
    requires Inv(s) && CanRun(s, es)
    requires t in s.stages && s.stages[t].pushed && s.stages[t].firedEarly
    ensures t in Run(s, es).list
    decreases |es|
  {
    if es == [] {
    } else {
      StepKeepsInv(s, es[0]);
      EarlyWatcherLeaksForever(Apply(s, es[0]), es[1..], t);
    }
  }

  lemma {:induction false} RunAppend(s: State, es: seq<Event>, fs: seq<Event>)
    requires CanRun(s, es) && CanRun(Run(s, es), fs)
    ensures CanRun(s, es + fs) && Run(s, es + fs) == Run(Run(s, es), fs)
    decreases |es|
  {
    hide Apply, Enabled;
    if es == [] {
      assert es + fs == fs;
    } else {
      assert (es + fs)[1..] == es[1..] + fs;
      RunAppend(Apply(s, es[0]), es[1..], fs);
    }
  }

  /** The connection closes right after the watcher was spawned, and the watcher is first. */
  function EarlySteps(t: TunnelId): seq<Event> {
    [Spawn(t), Close(t), Fire(t), Push(t)]
  }

  /** It does happen: a run after which a closed tunnel is on the list, whatever comes next. */
  lemma EarlyWatcherHappens(t: TunnelId, more: seq<Event>)
    ensures CanRun(Init(), EarlySteps(t))
    ensures var s := Run(Init(), EarlySteps(t));
      && t in s.stages && s.stages[t].closed && s.stages[t].firedEarly && s.list == [t]
      && (CanRun(s, more) ==> CanRun(Init(), EarlySteps(t) + more) && t in Run(Init(), EarlySteps(t) + more).list)
  {
    var steps := EarlySteps(t);
    var s1 := Apply(Init(), Spawn(t));
    var s2 := Apply(s1, Close(t));
    var s3 := Apply(s2, Fire(t));
    var s4 := Apply(s3, Push(t));
    assert s4.list == [t] && s4.stages[t] == Stage(true, true, true, false);
    hide Apply, Enabled;
    assert CanRun(s3, [Push(t)]) && Run(s3, [Push(t)]) == s4 by {
      assert [Push(t)][1..] == [];
    }
    assert CanRun(s2, [Fire(t), Push(t)]) && Run(s2, [Fire(t), Push(t)]) == s4 by {
      assert [Fire(t), Push(t)][1..] == [Push(t)];
    }
    assert CanRun(s1, steps[1..]) && Run(s1, steps[1..]) == s4 by {
      assert steps[1..][1..] == [Fire(t), Push(t)];
    }
    var s := Run(Init(), steps);
    if CanRun(s, more) {
      RunKeepsInv(Init(), steps);
      EarlyWatcherLeaksForever(s, more, t);
      RunAppend(Init(), steps, more);
    }
  }

  // ----- the list itself -----

  /** The list, updated in place under its lock; `stages` is what the rest of the ingress has done so far. */
  class TunnelList {
    var tunnels: seq<TunnelId>
    ghost var stages: map<TunnelId, Stage>

    ghost function Abs(): State
      reads this
    {
      State(tunnels, stages)
    }

    ghost predicate Valid()
      reads this
    {
      Inv(Abs())
    }

    constructor ()
      ensures Valid() && Abs() == Init()
    {
      tunnels := [];
      stages := map[];
    }

    /** The push of an assignment. */
    method PushTunnel(t: TunnelId)
      requires Valid() && Enabled(Abs(), Push(t))
      modifies this
      ensures Valid() && Abs() == Apply(old(Abs()), Push(t))
    {
      StepKeepsInv(Abs(), Push(t));
      tunnels := tunnels + [t];
      stages := stages[t := stages[t].(pushed := true)];
    }

    /** What a watcher does once its tunnel has closed. */
    method RemoveClosed(t: TunnelId)
      requires Valid() && Enabled(Abs(), Fire(t))
      modifies this
      ensures Valid() && Abs() == Apply(old(Abs()), Fire(t))
      ensures forall y :: y in tunnels <==> y in old(tunnels) && y != t
    {
      StepKeepsInv(Abs(), Fire(t));
      var i := 0;
      while i < |tunnels| && tunnels[i] != t
        invariant i <= |tunnels| && t !in tunnels[..i]
      {
        i := i + 1;
      }
      FirstIsPosition(tunnels, t, i);
      WithoutExact(tunnels, t);
      ghost var after := Apply(Abs(), Fire(t));
      if i < |tunnels| {
        tunnels := SwapRemove(tunnels, i);
      }
      stages := after.stages;
    }

    /** A whole assignment: the watcher is spawned, then the tunnel is pushed. */
    method AssignTunnel(t: TunnelId)
      requires Valid() && t !in stages
      modifies this
      ensures Valid() && Abs() == Apply(Apply(old(Abs()), Spawn(t)), Push(t))
    {
      StepKeepsInv(Abs(), Spawn(t));
      stages := stages[t := Stage(false, false, false, false)];
      PushTunnel(t);
    }
  }
}
