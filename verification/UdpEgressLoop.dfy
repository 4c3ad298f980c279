/**
 The UDP egress code itself, run without interruption: what the select loop does with
 one datagram, and how a forward task writes a batch to its socket. Each is a sequence
 of the atomic steps of UdpSessions.
 */
module UdpEgressLoop {
  import opened Bytes
  import opened Datagrams
  import opened UdpSessions

  /** The state of one tunnel connection, updated in place. */
  class EgressLoop {
    var udpSockets: map<SocketAddr, nat>   // origin -> session whose queue the sender feeds
    var sessions: seq<Session>
    var expiry: seq<Expiry>
    var tunnelClosed: bool
    var cancelled: bool
    ghost var arrived: seq<(SocketAddr, Payload)>
    ghost var handed: seq<(SocketAddr, Payload)>
    ghost var replies: seq<(SocketAddr, Payload)>

    ghost function Abs(): State
      reads this
    {
      State(sessions, udpSockets, expiry, Selecting, tunnelClosed, cancelled, arrived, handed, replies)
    }

    predicate Valid()
      reads this
    {
      forall a :: a in udpSockets ==> udpSockets[a] < |sessions|
    }

    constructor ()
      ensures Valid() && Abs() == Init()
    {
      udpSockets := map[];
      sessions, expiry := [], [];
      tunnelClosed, cancelled := false, false;
      arrived, handed, replies := [], [], [];
    }

    /** Returns false for the panic on a datagram too short for its address. */
    method ProcessDatagram(bytes: seq<byte>) returns (ok: bool)
      requires Valid()
      modifies this
      ensures ok <==> !Extract(bytes).Truncated?
      ensures !Extract(bytes).Origin? ==> Abs() == old(Abs())
      ensures Extract(bytes).Origin? ==>
        var a, p := Extract(bytes).addr, Extract(bytes).payload;
        var steps := if a in old(udpSockets) then [Arrive(a, p)] else [Arrive(a, p), Offer, Insert];
        CanRun(old(Abs()), steps) && Abs() == Run(old(Abs()), steps)
      ensures Valid()
    {
      var buffer := new BytesMut(bytes);
      var r := ExtractOrigin(buffer);
      match r {
        case Truncated => return false;
        case UnknownOrigin(_) => return true;
        case Origin(a, p) =>
          ghost var s0 := Abs();
          arrived := arrived + [(a, p)];
          if a in udpSockets {
            var i := udpSockets[a];
            sessions := sessions[i := TrySend(sessions[i], p)];
            RunOne(s0, Arrive(a, p));
          } else {
            var i := |sessions|;
            sessions := sessions + [Session(a, [], Opening, NotStarted, false)];
            sessions := sessions[i := TrySend(sessions[i], p)];
            assert TrySend(Session(a, [], Opening, NotStarted, false), p).queue == [p];
            assert sessions == s0.sessions + [Session(a, [p], Opening, NotStarted, false)];
            udpSockets := udpSockets[a := i];
            RunThree(s0, a, p);
          }
          return true;
      }
    }

    /** Handles the oldest expiry message, if there is one. */
    method HandleExpired() returns (handled: bool)
      requires Valid()
      modifies this
      ensures handled <==> Enabled(old(Abs()), HandleExpiry)
      ensures Abs() == if handled then Apply(old(Abs()), HandleExpiry) else old(Abs())
      ensures Valid()
    {
      if expiry == [] {
        return false;
      }
      udpSockets := udpSockets - {expiry[0].origin};
      expiry := expiry[1..];
      return true;
    }

    /** Writes the batch that session `i` took to its socket; `accepts` says which writes succeed. */
    method DrainBatch(i: nat, accepts: seq<bool>)
      requires Valid() && i < |sessions| && sessions[i].forward.Running?
      requires |accepts| == |sessions[i].forward.batch|
      modifies this
      ensures var steps := HandOvers(i, accepts); CanRun(old(Abs()), steps) && Abs() == Run(old(Abs()), steps)
      ensures Valid() && i < |sessions| && sessions[i].forward == Running([])
    {
      assert accepts[0..] == accepts;
      var k := 0;
      while k < |accepts|
        invariant k <= |accepts| && Valid()
        invariant i < |sessions| && sessions[i].forward.Running?
        invariant |sessions[i].forward.batch| == |accepts| - k
        invariant HandOversFollow(old(Abs()), Abs(), i, accepts, k)
      {
        ghost var s0 := Abs();
        var t := sessions[i];
        if accepts[k] {
          handed := handed + [(t.origin, t.forward.batch[0])];
        }
        sessions := sessions[i := t.(forward := Running(t.forward.batch[1..]))];
        assert Abs() == Apply(s0, HandOver(i, accepts[k]));
        hide Apply, Enabled, HandOversFollow;
        FollowOne(old(Abs()), s0, i, accepts, k);
        k := k + 1;
      }
      FollowAll(old(Abs()), Abs(), i, accepts);
    }
  }

  /** Running the remaining hand-overs from `s` is running all of them from `s0`. */
  ghost predicate HandOversFollow(s0: State, s: State, i: nat, accepts: seq<bool>, k: nat) {
    k <= |accepts| &&
    (CanRun(s, HandOvers(i, accepts[k..])) ==>
       CanRun(s0, HandOvers(i, accepts)) && Run(s, HandOvers(i, accepts[k..])) == Run(s0, HandOvers(i, accepts)))
  }

  lemma FollowOne(s0: State, s: State, i: nat, accepts: seq<bool>, k: nat)
    requires k < |accepts| && HandOversFollow(s0, s, i, accepts, k) && Enabled(s, HandOver(i, accepts[k]))
    ensures HandOversFollow(s0, Apply(s, HandOver(i, accepts[k])), i, accepts, k + 1)
  {
    hide Apply, Enabled;
    HandOversStep(i, accepts[k..]);
    assert accepts[k..][1..] == accepts[k + 1..];
  }

  lemma FollowAll(s0: State, s: State, i: nat, accepts: seq<bool>)
    requires HandOversFollow(s0, s, i, accepts, |accepts|)
    ensures CanRun(s0, HandOvers(i, accepts)) && Run(s0, HandOvers(i, accepts)) == s
  {
    assert accepts[|accepts|..] == [];
  }

  function HandOvers(i: nat, accepts: seq<bool>): seq<Event> {
    if accepts == [] then [] else [HandOver(i, accepts[0])] + HandOvers(i, accepts[1..])
  }

  lemma HandOversStep(i: nat, accepts: seq<bool>)
    requires accepts != []
    ensures HandOvers(i, accepts)[0] == HandOver(i, accepts[0])
    ensures HandOvers(i, accepts)[1..] == HandOvers(i, accepts[1..])
  {
  }

  lemma RunOne(s: State, e: Event)
    requires Enabled(s, e)
    ensures CanRun(s, [e]) && Run(s, [e]) == Apply(s, e)
  {
    hide Apply, Enabled;
    assert [e][1..] == [];
    assert CanRun(Apply(s, e), []) && Run(Apply(s, e), []) == Apply(s, e);
  }

  /** A datagram from an unknown origin: spawn, offer, insert. */
  lemma RunThree(s: State, a: SocketAddr, p: Payload)
    requires s.loop.Selecting? && a !in s.table
    ensures var steps := [Arrive(a, p), Offer, Insert];
      && CanRun(s, steps)
      && Run(s, steps) == s.(arrived := s.arrived + [(a, p)], table := s.table[a := |s.sessions|],
                            sessions := s.sessions + [Session(a, [p], Opening, NotStarted, false)])
  {
    var spawned := Session(a, [], Opening, NotStarted, false);
    var s1 := Apply(s, Arrive(a, p));
    var s2 := Apply(s1, Offer);
    var s3 := Apply(s2, Insert);
    assert s2.sessions == s.sessions + [TrySend(spawned, p)];
    assert TrySend(spawned, p) == spawned.(queue := [p]);
    hide Apply, Enabled;
    var steps := [Arrive(a, p), Offer, Insert];
    assert steps[1..] == [Offer, Insert] && steps[1..][1..] == [Insert] && steps[1..][1..][1..] == [];
    RunOne(s2, Insert);
    assert CanRun(s1, [Offer, Insert]) && Run(s1, [Offer, Insert]) == s3;
  }
}
