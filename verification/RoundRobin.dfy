/**
 The balancer of an ingress: an atomic counter of one machine word hands out tickets,
 and a ticket modulo the number of tunnels picks the tunnel. The counter wraps.
 */
module RoundRobin {
  import opened Words

  /** The ticket that the `j`-th pick takes when the counter stands at `c`. */
  function Ticket(c: nat, j: nat): nat {
    (c + j) % WORD
  }

  /** Ticket `x` picks tunnel `t` of `n`. */
  predicate Picks(x: nat, n: nat, t: nat)
    requires n > 0
  {
    x % n == t
  }

  /** How often tunnel `t` of `n` is picked by `m` picks that start at counter `c`. */
  function Hits(c: nat, m: nat, n: nat, t: nat): nat
    requires n > 0
  {
    if m == 0 then 0 else Hits(c, m - 1, n, t) + if Picks(Ticket(c, m - 1), n, t) then 1 else 0
  }

  /** The same with a counter that does not wrap. */
  function PlainHits(a: nat, m: nat, n: nat, t: nat): nat
    requires n > 0
  {
    if m == 0 then 0 else PlainHits(a, m - 1, n, t) + if Picks(a + m - 1, n, t) then 1 else 0
  }

  /** How many picks after counter `a` tunnel `t` is next picked. */
  function Distance(a: nat, n: nat, t: nat): nat
    requires t < n
  {
    if t >= a % n then t - a % n else t + n - a % n
  }

  /** `t` gets one pick more than others: the window does not divide evenly. */
  predicate Extra(a: nat, m: nat, n: nat, t: nat)
    requires t < n
  {
    Distance(a, n, t) < m % n
  }

  lemma SmallTicket(c: nat, j: nat)
    ensures c + j < WORD ==> Ticket(c, j) == c + j
    ensures WORD <= c + j < 2 * WORD ==> Ticket(c, j) == c + j - WORD
  {
  }

  lemma {:induction false} PickedWhen(a: nat, j: nat, n: nat, t: nat)
    requires t < n
    ensures (a + j) % n == t <==> j % n == Distance(a, n, t)
    ensures (a + j) % n == if a % n + j % n < n then a % n + j % n else a % n + j % n - n
  {
    if j == 0 {
    } else {
      PickedWhen(a, j - 1, n, t);
      DivModStep(a + (j - 1), n);
      DivModStep(j - 1, n);
    }
  }

  /** The exact number of picks without a wrap. */
  lemma {:induction false} PlainHitsExact(a: nat, m: nat, n: nat, t: nat)
    requires t < n
    ensures PlainHits(a, m, n, t) == m / n + if Extra(a, m, n, t) then 1 else 0
  {
    if m == 0 {
    } else {
      PlainHitsExact(a, m - 1, n, t);
      PickedWhen(a, m - 1, n, t);
      DivModStep(m - 1, n);
    }
  }

  lemma {:induction false} HitsBeforeWrap(c: nat, m: nat, n: nat, t: nat)
    requires n > 0 && c + m <= WORD
    ensures Hits(c, m, n, t) == PlainHits(c, m, n, t)
  {
    hide Ticket, Picks;
    if m == 0 {
    } else {
      HitsBeforeWrap(c, m - 1, n, t);
      SmallTicket(c, m - 1);
    }
  }

  lemma {:induction false} HitsAfterWrap(c: nat, m: nat, n: nat, t: nat)
    requires n > 0 && c < WORD && WORD <= c + m <= 2 * WORD
    ensures Hits(c, m, n, t) == PlainHits(c, WORD - c, n, t) + PlainHits(0, c + m - WORD, n, t)
  {
    hide Ticket, Picks;
    if c + m == WORD {
      HitsBeforeWrap(c, m, n, t);
    } else {
      HitsAfterWrap(c, m - 1, n, t);
      SmallTicket(c, m - 1);
    }
  }

  /** If the number of tunnels divides the word, the wrap does not show. */
  lemma {:induction false} HitsIfDivides(c: nat, m: nat, n: nat, t: nat)
    requires n > 0 && WORD % n == 0
    ensures Hits(c, m, n, t) == PlainHits(c, m, n, t)
  {
    if m == 0 {
    } else {
      HitsIfDivides(c, m - 1, n, t);
      ModOfMod(c + m - 1, n);
    }
  }

  lemma ModOfMod(x: nat, n: nat)
    requires n > 0 && WORD % n == 0
    ensures x % WORD % n == x % n
  {
    var k, w, y := WORD / n, x / WORD, x % WORD;
    assert WORD == n * k;
    assert x == WORD * w + y;
    assert WORD * w == n * (k * w);
    assert y == n * (y / n) + y % n;
    assert x == n * (k * w + y / n) + y % n;
    DivModUnique(x, n, k * w + y / n, y % n);
  }

  // ----- fairness -----

  /** No two tunnels differ by more than `d` picks. */
  ghost predicate Fair(c: nat, m: nat, n: nat, d: nat)
    requires n > 0
  {
    forall t, u :: 0 <= t < n && 0 <= u < n ==> Hits(c, m, n, t) <= Hits(c, m, n, u) + d
  }

  /** Without a wrap, or if `n` divides the word, any window of picks is spread to within one. */
  lemma FairWithinOne(c: nat, m: nat, n: nat)
    requires n > 0 && (c + m <= WORD || WORD % n == 0)
    ensures Fair(c, m, n, 1)
  {
    forall t, u | 0 <= t < n && 0 <= u < n ensures Hits(c, m, n, t) <= Hits(c, m, n, u) + 1 {
      if c + m <= WORD {
        HitsBeforeWrap(c, m, n, t);
        HitsBeforeWrap(c, m, n, u);
      } else {
        HitsIfDivides(c, m, n, t);
        HitsIfDivides(c, m, n, u);
      }
      PlainHitsExact(c, m, n, t);
      PlainHitsExact(c, m, n, u);
    }
  }

  /** How many of the two sides of the wrap give tunnel `t` an extra pick. */
  function Extras(c: nat, m: nat, n: nat, t: nat): nat
    requires t < n && c < WORD <= c + m
  {
    (if Extra(c, WORD - c, n, t) then 1 else 0) + (if Extra(0, c + m - WORD, n, t) then 1 else 0)
  }

  /** Some tunnel gets an extra pick on both sides of the wrap and another on neither. */
  predicate DoubledUp(c: nat, m: nat, n: nat)
    requires n > 0 && c < WORD <= c + m
  {
    exists t, u :: 0 <= t < n && 0 <= u < n && Extras(c, m, n, t) == 2 && Extras(c, m, n, u) == 0
  }

  /**
   The same, read off the counter, the number of picks and the number of tunnels: before
   the wrap the extra picks go to `before` tunnels from `first` on, in a circle, after it
   to the first `after` tunnels.
   */
  predicate FavoursTwice(c: nat, m: nat, n: nat)
    requires n > 0 && c < WORD <= c + m
  {
    var first, before, after := c % n, (WORD - c) % n, (c + m - WORD) % n;
    before > 0 && after > 0 &&
    ((first + before < n && first < after) || (first + before > n && after < first))
  }

  lemma DoubledUpIff(c: nat, m: nat, n: nat)
    requires n > 0 && c < WORD <= c + m
    ensures DoubledUp(c, m, n) <==> FavoursTwice(c, m, n)
  {
    var first, before, after := c % n, (WORD - c) % n, (c + m - WORD) % n;
    assert 0 % n == 0;
    forall t | 0 <= t < n
      ensures Extras(c, m, n, t) == (if first <= t < first + before || t + n < first + before then 1 else 0)
                                    + (if t < after then 1 else 0)
    {
    }
    if FavoursTwice(c, m, n) {
      var t, u := if first + before < n then first else 0, if first + before < n then n - 1 else first - 1;
      assert Extras(c, m, n, t) == 2 && Extras(c, m, n, u) == 0;
    }
  }

  lemma HitsAcrossWrap(c: nat, m: nat, n: nat, t: nat)
    requires t < n && c < WORD <= c + m && m <= WORD
    ensures Hits(c, m, n, t) == (WORD - c) / n + (c + m - WORD) / n + Extras(c, m, n, t)
  {
    HitsAfterWrap(c, m, n, t);
    PlainHitsExact(c, WORD - c, n, t);
    PlainHitsExact(0, c + m - WORD, n, t);
  }

  /**
   A window of at most one word of picks that reaches the wrap is spread to within two,
   and to within one exactly if the tunnels with an extra pick before the wrap and those
   after it do not overlap, or together are all tunnels.
   */
  lemma FairAcrossWrapIff(c: nat, m: nat, n: nat)
    requires n > 0 && c < WORD <= c + m && m <= WORD
    ensures Fair(c, m, n, 2)
    ensures Fair(c, m, n, 1) <==> !FavoursTwice(c, m, n)
  {
    DoubledUpIff(c, m, n);
    hide Hits, FavoursTwice;
    var base := (WORD - c) / n + (c + m - WORD) / n;
    forall t | 0 <= t < n ensures Hits(c, m, n, t) == base + Extras(c, m, n, t) && Extras(c, m, n, t) <= 2 {
      HitsAcrossWrap(c, m, n, t);
    }
    hide Extras;
    if DoubledUp(c, m, n) {
      var t, u :| 0 <= t < n && 0 <= u < n && Extras(c, m, n, t) == 2 && Extras(c, m, n, u) == 0;
      assert Hits(c, m, n, t) > Hits(c, m, n, u) + 1;
    }
  }

  /** Within two for every window of at most one word of picks, wherever the counter stands. */
  lemma FairWithinTwo(c: nat, m: nat, n: nat)
    requires n > 0 && c < WORD && m <= WORD
    ensures Fair(c, m, n, 2)
  {
    if c + m < WORD {
      FairWithinOne(c, m, n);
    } else {
      FairAcrossWrapIff(c, m, n);
    }
  }

  /** Two is reached: with three tunnels the last ticket and the first one pick the same tunnel. */
  lemma WrapPicksTwice()
    ensures Hits(WORD - 1, 2, 3, 0) == 2 && Hits(WORD - 1, 2, 3, 1) == 0
  {
    HitsAfterWrap(WORD - 1, 2, 3, 0);
    HitsAfterWrap(WORD - 1, 2, 3, 1);
    assert PlainHits(WORD - 1, 1, 3, 0) == PlainHits(WORD - 1, 0, 3, 0) + 1;
    assert PlainHits(WORD - 1, 1, 3, 1) == PlainHits(WORD - 1, 0, 3, 1);
    assert PlainHits(0, 1, 3, 0) == PlainHits(0, 0, 3, 0) + 1;
    assert PlainHits(0, 1, 3, 1) == PlainHits(0, 0, 3, 1);
  }

  /** The balancer: the tunnels of an ingress and its rotation counter. */
  class Balancer<T> {
    var tunnels: seq<T>
    var rotation: nat

    constructor (tunnels: seq<T>)
      ensures this.tunnels == tunnels && rotation == 0
    {
      this.tunnels := tunnels;
      rotation := 0;
    }

    /** One pick; the index of the tunnel, or -1 if there is none. A single tunnel takes no ticket. */
    method Pick() returns (k: int)
      requires rotation < WORD
      modifies this`rotation
      ensures tunnels == [] <==> k == -1
      ensures tunnels != [] ==> 0 <= k < |tunnels|
      ensures |tunnels| >= 2 ==> k == old(rotation) % |tunnels| && rotation == (old(rotation) + 1) % WORD
      ensures |tunnels| < 2 ==> rotation == old(rotation)
    {
      if |tunnels| == 0 {
        return -1;
      }
      if |tunnels| == 1 {
        return 0;
      }
      var ticket := rotation;
      rotation := (rotation + 1) % WORD;
      return ticket % |tunnels|;
    }

    /** A burst of picks between membership changes. */
    method PickMany(m: nat) returns (picks: seq<int>)
      requires rotation < WORD && |tunnels| >= 2
      modifies this`rotation
      ensures |picks| == m && rotation == Ticket(old(rotation), m)
      ensures forall j :: 0 <= j < m ==> picks[j] == Ticket(old(rotation), j) % |tunnels|
      ensures forall t :: 0 <= t < |tunnels| ==> multiset(picks)[t] == Hits(old(rotation), m, |tunnels|, t)
    {
      picks := [];
      var c := rotation;
      SmallTicket(c, 0);
      while |picks| < m
        invariant |picks| <= m && rotation == Ticket(c, |picks|)
        invariant forall j :: 0 <= j < |picks| ==> picks[j] == Ticket(c, j) % |tunnels|
        invariant forall t :: 0 <= t < |tunnels| ==> multiset(picks)[t] == Hits(c, |picks|, |tunnels|, t)
      {
        var k := Pick();
        NextTicket(c, |picks|);
        picks := picks + [k];
      }
    }
  }

  lemma NextTicket(c: nat, j: nat)
    ensures (Ticket(c, j) + 1) % WORD == Ticket(c, j + 1)
  {
    var x := c + j;
    var r := x % WORD;
    DivModStep(x, WORD);
    SmallTicket(r, 0);
    DivModStep(r, WORD);
  }

  /** Tickets of at most one word of picks are all different. */
  lemma TicketsDistinct(c: nat, i: nat, j: nat)
    requires i < j < i + WORD
    ensures Ticket(c, i) != Ticket(c, j)
  {
    var x, y := c + i, c + j;
    assert y - x == WORD * (y / WORD - x / WORD) + (y % WORD - x % WORD);
  }
}
