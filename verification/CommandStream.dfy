/**
 The command stream after authentication: on both ends a loop that pings on a timer and
 answers pings, over a reliable ordered stream of frames in each direction.
 */
module CommandStream {
  import opened Frames

  /** What can wake the loop up. */
  datatype Input = TimerFired | Received(frame: Frame)

  /** What the loop sends for it. */
  function React(i: Input): seq<Frame> {
    match i
    case TimerFired => [Ping]
    case Received(f) => if f.Ping? then [Pong] else []
  }

  function Reactions(inputs: seq<Input>): seq<Frame> {
    if inputs == [] then [] else Reactions(inputs[..|inputs| - 1]) + React(inputs[|inputs| - 1])
  }

  function Pings(s: seq<Frame>): nat {
    if s == [] then 0 else Pings(s[..|s| - 1]) + if s[|s| - 1].Ping? then 1 else 0
  }

  function Pongs(s: seq<Frame>): nat {
    if s == [] then 0 else Pongs(s[..|s| - 1]) + if s[|s| - 1].Pong? then 1 else 0
  }

  function Firings(inputs: seq<Input>): nat {
    if inputs == [] then 0 else Firings(inputs[..|inputs| - 1]) + if inputs[|inputs| - 1].TimerFired? then 1 else 0
  }

  function PingsReceived(inputs: seq<Input>): nat {
    if inputs == [] then 0 else
      PingsReceived(inputs[..|inputs| - 1]) + if inputs[|inputs| - 1] == Received(Ping) then 1 else 0
  }

  lemma CountAppend(s: seq<Frame>, f: Frame)
    ensures Pings(s + [f]) == Pings(s) + if f.Ping? then 1 else 0
    ensures Pongs(s + [f]) == Pongs(s) + if f.Pong? then 1 else 0
  {
    assert (s + [f])[..|s|] == s;
  }

  /** What one loop sends while every send succeeds: a ping per timer firing, a pong per ping received. */
  lemma {:induction false} ReactionsCount(inputs: seq<Input>)
    ensures Pings(Reactions(inputs)) == Firings(inputs)
    ensures Pongs(Reactions(inputs)) == PingsReceived(inputs)
    ensures |Reactions(inputs)| == Firings(inputs) + PingsReceived(inputs)
  {
    if inputs == [] {
    } else {
      var n := |inputs| - 1;
      ReactionsCount(inputs[..n]);
      var r := React(inputs[n]);
      if r == [] {
        assert Reactions(inputs[..n]) + r == Reactions(inputs[..n]);
      } else {
        CountAppend(Reactions(inputs[..n]), r[0]);
        assert r == [r[0]];
      }
    }
  }

  /** The loop of either end, until its inputs run out. */
  method CommandLoop(inputs: seq<Input>) returns (sent: seq<Frame>)
    ensures sent == Reactions(inputs)
    ensures Pings(sent) == Firings(inputs) && Pongs(sent) == PingsReceived(inputs)
  {
    sent := [];
    var k := 0;
    while k < |inputs|
      invariant k <= |inputs| && sent == Reactions(inputs[..k])
    {
      assert inputs[..k + 1][..k] == inputs[..k];
      match inputs[k] {
        case TimerFired => sent := sent + [Ping];
        case Received(f) =>
          if f.Ping? {
            sent := sent + [Pong];
          }
      }
      k := k + 1;
    }
    assert inputs[..k] == inputs;
    ReactionsCount(inputs);
  }

  // ----- both loops together -----

  datatype End = Client | Server

  /**
   `inbox`: frames sent to this end and not yet read; `inputs` and `sent`: everything that
   woke its loop up and everything it has sent.
   */
  datatype Party = Party(
    running: bool, inbox: seq<Frame>, inputs: seq<Input>, sent: seq<Frame>,
    failedPings: nat, failedPongs: nat)

  datatype State = State(client: Party, server: Party)

  datatype Event =
    | Fire(who: End, sendOk: bool)
    | Read(who: End, sendOk: bool)
    | Stop(who: End)

  function Init(): State {
    var p := Party(true, [], [], [], 0, 0);
    State(p, p)
  }

  function Of(s: State, who: End): Party {
    if who.Client? then s.client else s.server
  }

  function Peer(who: End): End {
    if who.Client? then Server else Client
  }

  predicate Enabled(s: State, e: Event) {
    Of(s, e.who).running && (e.Read? ==> Of(s, e.who).inbox != [])
  }

  function Put(me: End, p: Party, q: Party): State {
    if me.Client? then State(p, q) else State(q, p)
  }

  /** The loop wakes up. A failed ping ends either loop; a failed pong ends the server's loop only. */
  function Wake(me: End, p: Party, q: Party, i: Input, sendOk: bool): State {
    var woken := p.(inputs := p.inputs + [i]);
    if sendOk || React(i) == [] then
      Put(me, woken.(sent := p.sent + React(i)), q.(inbox := q.inbox + React(i)))
    else if i.TimerFired? then
      Put(me, woken.(failedPings := p.failedPings + 1, running := false), q)
    else
      Put(me, woken.(failedPongs := p.failedPongs + 1, running := me.Client?), q)
  }

  function Apply(s: State, e: Event): State
    requires Enabled(s, e)
  {
    var p, q := Of(s, e.who), Of(s, Peer(e.who));
    match e
    case Stop(me) => Put(me, p.(running := false), q)
    case Fire(me, ok) => Wake(me, p, q, TimerFired, ok)
    case Read(me, ok) => Wake(me, p.(inbox := p.inbox[1..]), q, Received(p.inbox[0]), ok)
  }

  predicate CanRun(s: State, es: seq<Event>)
    decreases |es|
  {
    es == [] || (Enabled(s, es[0]) && CanRun(Apply(s, es[0]), es[1..]))
  }

  function Run(s: State, es: seq<Event>): State
    requires CanRun(s, es)
    decreases |es|
  {
    if es == [] then s else Run(Apply(s, es[0]), es[1..])
  }

  /** The frames among the inputs. */
  function FramesIn(inputs: seq<Input>): seq<Frame> {
    if inputs == [] then [] else
      var i := inputs[|inputs| - 1];
      FramesIn(inputs[..|inputs| - 1]) + if i.Received? then [i.frame] else []
  }

  lemma {:induction false} CountConcat(a: seq<Frame>, b: seq<Frame>)
    ensures Pings(a + b) == Pings(a) + Pings(b) && Pongs(a + b) == Pongs(a) + Pongs(b)
  {
    if b == [] {
      assert a + b == a;
    } else {
      var n := |b| - 1;
      CountConcat(a, b[..n]);
      CountAppend(a + b[..n], b[n]);
      assert a + b == a + b[..n] + [b[n]];
    }
  }

  lemma {:induction false} CountFramesIn(inputs: seq<Input>)
    ensures Pings(FramesIn(inputs)) == PingsReceived(inputs)
  {
    if inputs == [] {
      assert FramesIn(inputs) == [];
    } else {
      var n := |inputs| - 1;
      CountFramesIn(inputs[..n]);
      if inputs[n].Received? {
        CountAppend(FramesIn(inputs[..n]), inputs[n].frame);
      } else {
        assert FramesIn(inputs) == FramesIn(inputs[..n]) + [];
        assert FramesIn(inputs[..n]) + [] == FramesIn(inputs[..n]);
      }
    }
  }

  /** One more input. */
  lemma InputAppend(inputs: seq<Input>, i: Input)
    ensures Firings(inputs + [i]) == Firings(inputs) + if i.TimerFired? then 1 else 0
    ensures PingsReceived(inputs + [i]) == PingsReceived(inputs) + if i == Received(Ping) then 1 else 0
    ensures FramesIn(inputs + [i]) == FramesIn(inputs) + if i.Received? then [i.frame] else []
    ensures Reactions(inputs + [i]) == Reactions(inputs) + React(i)
  {
    assert (inputs + [i])[..|inputs|] == inputs;
  }

  /** What an end has sent: its reaction to each input, except where sending failed. */
  ghost predicate SentOk(p: Party) {
    && Pings(p.sent) + p.failedPings == Firings(p.inputs)
    && Pongs(p.sent) + p.failedPongs == PingsReceived(p.inputs)
    && |p.sent| == Pings(p.sent) + Pongs(p.sent)
    && (p.failedPings + p.failedPongs == 0 ==> p.sent == Reactions(p.inputs))
  }

  /** Frames arrive in order: what `p` has read and has still to read is what `q` sent. */
  ghost predicate InOrder(p: Party, q: Party) {
    FramesIn(p.inputs) + p.inbox == q.sent
  }

  ghost predicate Inv(s: State) {
    && SentOk(s.client) && SentOk(s.server)
    && InOrder(s.client, s.server) && InOrder(s.server, s.client)
  }

  /** The sender's half of waking up. */
  lemma WakeKeepsSent(p: Party, i: Input)
    requires SentOk(p)
    ensures var woken := p.(inputs := p.inputs + [i]);
      && SentOk(woken.(sent := p.sent + React(i)))
      && (React(i) != [] ==>
            if i.TimerFired? then SentOk(woken.(failedPings := p.failedPings + 1))
            else SentOk(woken.(failedPongs := p.failedPongs + 1)))
  {
    hide Pings, Pongs, Firings, PingsReceived, Reactions, FramesIn;
    InputAppend(p.inputs, i);
    if React(i) == [] {
      assert p.sent + [] == p.sent && Reactions(p.inputs) + [] == Reactions(p.inputs);
    } else {
      CountAppend(p.sent, React(i)[0]);
    }
  }

  lemma StepKeepsSent(s: State, e: Event)
    requires Inv(s) && Enabled(s, e)
    ensures SentOk(Apply(s, e).client) && SentOk(Apply(s, e).server)
  {
    var p := Of(s, e.who);
    hide Pings, Pongs, Firings, PingsReceived, Reactions, React, InOrder;
    if e.Read? {
      WakeKeepsSent(p.(inbox := p.inbox[1..]), Received(p.inbox[0]));
    } else if e.Fire? {
      WakeKeepsSent(p, TimerFired);
    }
  }

  /** The sender's new frames go to the end of the peer's inbox. */
  lemma SendKeepsOrder(p: Party, p': Party, q: Party, out: seq<Frame>)
    requires InOrder(q, p) && p'.sent == p.sent + out
    ensures InOrder(q.(inbox := q.inbox + out), p')
  {
    hide FramesIn;
    assert FramesIn(q.inputs) + (q.inbox + out) == FramesIn(q.inputs) + q.inbox + out;
  }

  /** The reader takes the first frame of its inbox; a timer takes none. */
  lemma ReadKeepsOrder(p: Party, q: Party)
    requires InOrder(p, q)
    ensures FramesIn(p.inputs + [TimerFired]) + p.inbox == q.sent
    ensures p.inbox != [] ==> FramesIn(p.inputs + [Received(p.inbox[0])]) + p.inbox[1..] == q.sent
  {
    hide FramesIn, Firings, PingsReceived, Reactions, React;
    InputAppend(p.inputs, TimerFired);
    assert FramesIn(p.inputs) + [] == FramesIn(p.inputs);
    if p.inbox != [] {
      InputAppend(p.inputs, Received(p.inbox[0]));
      assert FramesIn(p.inputs) + [p.inbox[0]] + p.inbox[1..] == FramesIn(p.inputs) + p.inbox;
    }
  }

  lemma StepKeepsOrder(s: State, e: Event)
    requires Inv(s) && Enabled(s, e)
    ensures InOrder(Apply(s, e).client, Apply(s, e).server) && InOrder(Apply(s, e).server, Apply(s, e).client)
  {
    hide SentOk, FramesIn, React;
    var p, q := Of(s, e.who), Of(s, Peer(e.who));
    ReadKeepsOrder(p, q);
    if !e.Stop? {
      var i := if e.Fire? then TimerFired else Received(p.inbox[0]);
      SendKeepsOrder(p, p.(sent := p.sent + React(i)), q, React(i));
    }
  }

  lemma {:induction false} RunKeepsInv(s: State, es: seq<Event>)
    requires Inv(s) && CanRun(s, es)
    ensures Inv(Run(s, es))
    decreases |es|
  {
    if es == [] {
      assert Run(s, es) == s;
    } else {
      StepKeepsSent(s, es[0]);
      StepKeepsOrder(s, es[0]);
      hide SentOk, InOrder, Apply, Enabled;
      RunKeepsInv(Apply(s, es[0]), es[1..]);
    }
  }

  /** How what an end sent relates to what its peer sent and to the timers. */
  ghost predicate Bounded(p: Party, q: Party) {
    && Pongs(p.sent) <= PingsReceived(p.inputs) <= Pings(q.sent) <= Firings(q.inputs)
    && FramesIn(p.inputs) <= q.sent
  }

  lemma InvBounds(p: Party, q: Party)
    requires SentOk(p) && SentOk(q) && InOrder(p, q)
    ensures Bounded(p, q)
  {
    CountConcat(FramesIn(p.inputs), p.inbox);
    CountFramesIn(p.inputs);
    hide Pings, Pongs, Firings, PingsReceived, FramesIn;
  }

  lemma FreshOk(p: Party, q: Party)
    requires p.sent == [] == q.sent && p.inputs == [] && p.inbox == [] && p.failedPings == p.failedPongs == 0
    ensures SentOk(p) && InOrder(p, q)
  {
  }

  lemma NothingYet(who: End)
    ensures Firings(Of(Init(), who).inputs) == 0 && FramesIn(Of(Init(), who).inputs) == []
  {
  }

  lemma InitOk()
    ensures Inv(Init())
  {
    hide SentOk, InOrder;
    FreshOk(Init().client, Init().server);
  }

  // ----- what the events of a run say -----

  /** How often the timer of an end fired. */
  function FiredIn(es: seq<Event>, who: End): nat {
    if es == [] then 0 else (if es[0].Fire? && es[0].who == who then 1 else 0) + FiredIn(es[1..], who)
  }

  /** How often an end read a frame. */
  function ReadsIn(es: seq<Event>, who: End): nat {
    if es == [] then 0 else (if es[0].Read? && es[0].who == who then 1 else 0) + ReadsIn(es[1..], who)
  }

  /** In state `s`, event `e` is a ping that `who` could not send. */
  predicate PingFails(s: State, e: Event, who: End) {
    e == Fire(who, false)
  }

  /** In state `s`, event `e` is a ping that `who` read and could not answer. */
  predicate PongFails(s: State, e: Event, who: End) {
    e == Read(who, false) && Of(s, who).inbox != [] && Of(s, who).inbox[0] == Ping
  }

  /** Some step of the run ends the loop of `who`. */
  predicate Ends(s: State, es: seq<Event>, who: End)
    requires CanRun(s, es)
    decreases |es|
  {
    es != [] &&
    (|| es[0] == Stop(who)
     || PingFails(s, es[0], who)
     || (who.Server? && PongFails(s, es[0], who))
     || Ends(Apply(s, es[0]), es[1..], who))
  }

  lemma StepCounts(s: State, e: Event, who: End)
    requires Enabled(s, e)
    ensures var p, p' := Of(s, who), Of(Apply(s, e), who);
      && Firings(p'.inputs) == Firings(p.inputs) + (if e.Fire? && e.who == who then 1 else 0)
      && |FramesIn(p'.inputs)| == |FramesIn(p.inputs)| + (if e.Read? && e.who == who then 1 else 0)
      && (p'.running <==> p.running && e != Stop(who) && !PingFails(s, e, who)
                          && !(who.Server? && PongFails(s, e, who)))
  {
    hide Firings, FramesIn, PingsReceived, Reactions;
    var p := Of(s, e.who);
    if e.Fire? {
      InputAppend(p.inputs, TimerFired);
    } else if e.Read? {
      InputAppend(p.inputs, Received(p.inbox[0]));
    }
  }

  /** The inputs of an end are the events of the run, and its loop runs until one of them ends it. */
  lemma {:induction false} RunCounts(s: State, es: seq<Event>, who: End)
    requires CanRun(s, es)
    ensures var p, p' := Of(s, who), Of(Run(s, es), who);
      && Firings(p'.inputs) == Firings(p.inputs) + FiredIn(es, who)
      && |FramesIn(p'.inputs)| == |FramesIn(p.inputs)| + ReadsIn(es, who)
      && (p'.running <==> p.running && !Ends(s, es, who))
    decreases |es|
  {
    hide Firings, FramesIn, Apply, Enabled, Of;
    if es == [] {
    } else {
      StepCounts(s, es[0], who);
      RunCounts(Apply(s, es[0]), es[1..], who);
    }
  }

  /**
   In every joint run the loop of an end still runs, if and only if it was not stopped,
   every ping it had to send was sent and, at the server, every ping it read was answered.
   A client goes on after a pong that it could not send.
   */
  lemma LoopEndsIff(es: seq<Event>, who: End)
    requires CanRun(Init(), es)
    ensures Of(Run(Init(), es), who).running <==> !Ends(Init(), es, who)
  {
    RunCounts(Init(), es, who);
  }

  /**
   In every joint run: an end never sends more pongs than it received pings, nor receives
   more pings than its peer sent, and reads what its peer sent in order; the frames sent
   by both ends together never exceed twice the timer firings, so replies never feed on
   replies. An end none of whose sends failed has sent exactly what CommandLoop sends.
   */
  lemma PingPongIsBounded(es: seq<Event>)
    requires CanRun(Init(), es)
    ensures var s := Run(Init(), es);
      && Bounded(s.client, s.server) && Bounded(s.server, s.client)
      && |s.client.sent| + |s.server.sent| <= 2 * (FiredIn(es, Client) + FiredIn(es, Server))
      && (forall who :: Firings(Of(s, who).inputs) == FiredIn(es, who))
      && (forall who :: |FramesIn(Of(s, who).inputs)| == ReadsIn(es, who))
      && (forall who :: var p := Of(s, who); p.failedPings + p.failedPongs == 0 ==> p.sent == Reactions(p.inputs))
  {
    hide Run, CanRun, Pings, Pongs, Firings, PingsReceived, FramesIn, Reactions, Init;
    InitOk();
    RunKeepsInv(Init(), es);
    var s := Run(Init(), es);
    InvBounds(s.client, s.server);
    InvBounds(s.server, s.client);
    forall who ensures Firings(Of(s, who).inputs) == FiredIn(es, who)
      ensures |FramesIn(Of(s, who).inputs)| == ReadsIn(es, who)
    {
      RunCounts(Init(), es, who);
      NothingYet(who);
    }
    assert s.client == Of(s, Client) && s.server == Of(s, Server);
  }
}
