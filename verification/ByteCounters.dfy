/**
 Byte counters form a tree: streams under tunnels under a server or a client. Adding to
 a counter first adds to its parent, recursively, then to the counter itself; each of
 these is one atomic add on a machine word, and adds of different tasks interleave.
 */
module ByteCounters {
  import opened Bytes
  import opened Words

  /** One atomic add on a machine word. */
  function Plus(x: nat, n: nat): nat {
    (x + n) % WORD
  }

  // ----- the object -----

  /** A counter with its chain of parents. */
  class ByteCounter {
    const parent: ByteCounter?
    var bytesRead: nat
    var bytesWrite: nat

    /** From the root down to this counter. */
    ghost const chain: seq<ByteCounter>

    ghost predicate Valid()
      decreases |chain|
    {
      if parent == null then chain == [this]
      else |parent.chain| < |chain| && parent.Valid() && chain == parent.chain + [this] && this !in parent.chain
    }

    constructor (parent: ByteCounter?)
      requires parent != null ==> parent.Valid()
      ensures Valid() && this.parent == parent && bytesRead == 0 && bytesWrite == 0
      ensures chain == (if parent == null then [] else parent.chain) + [this]
    {
      this.parent := parent;
      bytesRead, bytesWrite := 0, 0;
      chain := (if parent == null then [] else parent.chain) + [this];
    }

    /** Adds to every counter of the chain, modulo the word, and to no other. */
    method AddBytesRead(n: nat)
      requires Valid()
      modifies (set c | c in chain)`bytesRead
      ensures forall c :: c in chain ==> c.bytesRead == Plus(old(c.bytesRead), n)
      decreases |chain|
    {
      if parent != null {
        parent.AddBytesRead(n);
      }
      bytesRead := Plus(bytesRead, n);
    }

    method AddBytesWrite(n: nat)
      requires Valid()
      modifies (set c | c in chain)`bytesWrite
      ensures forall c :: c in chain ==> c.bytesWrite == Plus(old(c.bytesWrite), n)
      decreases |chain|
    {
      if parent != null {
        parent.AddBytesWrite(n);
      }
      bytesWrite := Plus(bytesWrite, n);
    }
  }

  // ----- the tree under interleaved adds -----

  type Parents = ps: seq<Option<nat>> | forall i :: 0 <= i < |ps| && ps[i].Some? ==> ps[i].value < i

  /** The counters an add to `i` visits: from the root down to `i`. */
  function PathTo(ps: Parents, i: nat): (path: seq<nat>)
    requires i < |ps|
    ensures path != [] && path[|path| - 1] == i
  {
    if ps[i].None? then [i] else PathTo(ps, ps[i].value) + [i]
  }

  /** An add under way: the first `done` counters of its path have been updated. */
  datatype Add = Add(bytes: nat, path: seq<nat>, done: nat)

  /**
   Counters are numbered in order of creation. `word` is what the machine holds, `total`
   the same without wrap-around; `adds` lists every add ever begun.
   */
  datatype State = State(parents: Parents, word: seq<nat>, total: seq<nat>, adds: seq<Add>)

  datatype Event =
    | Create(parent: Option<nat>)
    | Begin(counter: nat, bytes: nat)
    | Advance(k: nat)

  function Init(): State {
    State([], [], [], [])
  }

  predicate Sized(s: State) {
    |s.parents| == |s.word| == |s.total|
  }

  predicate Enabled(s: State, e: Event) {
    Sized(s) &&
    match e
    case Create(p) => p.Some? ==> p.value < |s.parents|
    case Begin(i, _) => i < |s.parents|
    case Advance(k) =>
      && k < |s.adds| && s.adds[k].done < |s.adds[k].path|
      && s.adds[k].path[s.adds[k].done] < |s.parents|
  }

  function Apply(s: State, e: Event): State
    requires Enabled(s, e)
  {
    match e
    case Create(p) => State(s.parents + [p], s.word + [0], s.total + [0], s.adds)
    case Begin(i, n) => s.(adds := s.adds + [Add(n, PathTo(s.parents, i), 0)])
    case Advance(k) =>
      var a := s.adds[k];
      var q := a.path[a.done];
      s.(word := s.word[q := Plus(s.word[q], a.bytes)],
         total := s.total[q := s.total[q] + a.bytes],
         adds := s.adds[k := a.(done := a.done + 1)])
  }

  predicate CanRun(s: State, es: seq<Event>)
    decreases |es|
  {
    es == [] || (Enabled(s, es[0]) && CanRun(Apply(s, es[0]), es[1..]))
  }

  function Run(s: State, es: seq<Event>): State
    requires CanRun(s, es)
    decreases |es|
  {
    if es == [] then s else Run(Apply(s, es[0]), es[1..])
  }

  // ----- sums -----

  /** The sum of `w` over the children of `p` among the first `k` counters. */
  function ChildSum(ps: Parents, w: seq<nat>, p: nat, k: nat): nat
    requires k <= |ps| == |w|
  {
    if k == 0 then 0 else ChildSum(ps, w, p, k - 1) + if ps[k - 1] == Some(p) then w[k - 1] else 0
  }

  /** The bytes of an add whose last update was `p`, if it is finished, or is not, as asked. */
  function Share(a: Add, p: nat, finished: bool): nat {
    if 0 < a.done <= |a.path| && a.path[a.done - 1] == p && (a.done == |a.path| <==> finished) then a.bytes else 0
  }

  function Shares(adds: seq<Add>, p: nat, finished: bool): nat {
    if adds == [] then 0 else Shares(adds[..|adds| - 1], p, finished) + Share(adds[|adds| - 1], p, finished)
  }

  /** Everything that finished adds have added to counter `p` itself. */
  function Own(adds: seq<Add>, p: nat): nat {
    Shares(adds, p, true)
  }

  /** What has reached `p` but not yet the child below it. */
  function InFlight(adds: seq<Add>, p: nat): nat {
    Shares(adds, p, false)
  }

  /** Raising the weight of one counter raises only its parent's sum. */
  lemma {:induction false} ChildSumRaise(ps: Parents, w: seq<nat>, q: nat, n: nat, p: nat, k: nat)
    requires k <= |ps| == |w| && q < |w|
    ensures ChildSum(ps, w[q := w[q] + n], p, k) ==
            ChildSum(ps, w, p, k) + if q < k && ps[q] == Some(p) then n else 0
  {
    if k == 0 {
    } else {
      ChildSumRaise(ps, w, q, n, p, k - 1);
    }
  }

  lemma {:induction false} ChildSumExtend(ps: Parents, ps': Parents, w: seq<nat>, p: nat, k: nat)
    requires k <= |ps| == |w| && |ps'| == |ps| + 1 && ps <= ps'
    ensures ChildSum(ps', w + [0], p, k) == ChildSum(ps, w, p, k)
  {
    if k == 0 {
    } else {
      ChildSumExtend(ps, ps', w, p, k - 1);
    }
  }

  lemma {:induction false} SharesUpdate(adds: seq<Add>, k: nat, a: Add, p: nat, finished: bool)
    requires k < |adds|
    ensures Shares(adds[k := a], p, finished) + Share(adds[k], p, finished) ==
            Shares(adds, p, finished) + Share(a, p, finished)
  {
    var n := |adds| - 1;
    if k == n {
      assert adds[k := a][..n] == adds[..n];
    } else {
      assert adds[k := a][..n] == adds[..n][k := a];
      SharesUpdate(adds[..n], k, a, p, finished);
    }
  }

  // ----- invariant -----

  ghost predicate AddsOk(s: State) {
    forall k :: 0 <= k < |s.adds| ==>
      var a := s.adds[k];
      a.path != [] && a.path[|a.path| - 1] < |s.parents|
      && a.path == PathTo(s.parents, a.path[|a.path| - 1]) && a.done <= |a.path|
  }

  ghost predicate Conserved(s: State) {
    Sized(s) &&
    forall p: nat :: p < |s.parents| ==>
      s.total[p] == Own(s.adds, p) + ChildSum(s.parents, s.total, p, |s.parents|) + InFlight(s.adds, p)
  }

  ghost predicate Inv(s: State) {
    && Sized(s) && AddsOk(s) && Conserved(s)
    && (forall i :: 0 <= i < |s.word| ==> s.word[i] == s.total[i] % WORD)
  }

  /** On a path, each counter is the parent of the next. */
  lemma {:induction false} PathSteps(ps: Parents, i: nat, j: nat)
    requires i < |ps| && j < |PathTo(ps, i)|
    ensures PathTo(ps, i)[j] <= i
    ensures ps[PathTo(ps, i)[j]] == if j == 0 then None else Some(PathTo(ps, i)[j - 1])
  {
    if ps[i].Some? && j + 1 < |PathTo(ps, i)| {
      PathSteps(ps, ps[i].value, j);
    }
  }

  lemma {:induction false} PathExtend(ps: Parents, ps': Parents, i: nat)
    requires i < |ps| && ps <= ps'
    ensures PathTo(ps', i) == PathTo(ps, i)
  {
    assert ps'[i] == ps[i];
    if ps[i].Some? {
      PathExtend(ps, ps', ps[i].value);
    }
  }

  /** Where an add stands: the counter it updates next hangs below the one it updated last. */
  lemma NextOnPath(s: State, k: nat)
    requires AddsOk(s) && Enabled(s, Advance(k))
    ensures var a := s.adds[k];
      s.parents[a.path[a.done]] == if a.done == 0 then None else Some(a.path[a.done - 1])
  {
    var a := s.adds[k];
    PathSteps(s.parents, a.path[|a.path| - 1], a.done);
  }

  lemma AdvanceConserves(s: State, k: nat, p: nat)
    requires Inv(s) && Enabled(s, Advance(k)) && p < |s.parents|
    ensures var s' := Apply(s, Advance(k));
      s'.total[p] == Own(s'.adds, p) + ChildSum(s'.parents, s'.total, p, |s'.parents|) + InFlight(s'.adds, p)
  {
    var a := s.adds[k];
    var q := a.path[a.done];
    NextOnPath(s, k);
    assert s.total[p] == Own(s.adds, p) + ChildSum(s.parents, s.total, p, |s.parents|) + InFlight(s.adds, p);
    var s' := Apply(s, Advance(k));
    assert s'.total == s.total[q := s.total[q] + a.bytes] && s'.adds == s.adds[k := a.(done := a.done + 1)];
    hide Inv, ChildSum, Shares, PathTo, Apply, Enabled;
    ChildSumRaise(s.parents, s.total, q, a.bytes, p, |s.parents|);
    SharesUpdate(s.adds, k, a.(done := a.done + 1), p, true);
    SharesUpdate(s.adds, k, a.(done := a.done + 1), p, false);
  }

  /** No counter is a child of one that does not exist yet. */
  lemma {:induction false} NoChildren(ps: Parents, w: seq<nat>, p: nat, k: nat)
    requires k <= |ps| == |w| && k <= p + 1
    ensures ChildSum(ps, w, p, k) == 0
  {
    if k == 0 {
    } else {
      NoChildren(ps, w, p, k - 1);
    }
  }

  lemma {:induction false} NoShares(adds: seq<Add>, p: nat, finished: bool)
    requires forall k :: 0 <= k < |adds| ==> Share(adds[k], p, finished) == 0
    ensures Shares(adds, p, finished) == 0
  {
    if adds == [] {
    } else {
      NoShares(adds[..|adds| - 1], p, finished);
    }
  }

  /** No add has reached a counter that does not exist yet. */
  lemma NothingAddedYet(s: State, n: nat)
    requires AddsOk(s) && n >= |s.parents|
    ensures Own(s.adds, n) == InFlight(s.adds, n) == 0
  {
    forall k, finished | 0 <= k < |s.adds| ensures Share(s.adds[k], n, finished) == 0 {
      var a := s.adds[k];
      if 0 < a.done <= |a.path| {
        PathSteps(s.parents, a.path[|a.path| - 1], a.done - 1);
      }
    }
    NoShares(s.adds, n, true);
    NoShares(s.adds, n, false);
  }

  lemma CreateConserves(s: State, p: Option<nat>)
    requires Inv(s) && Enabled(s, Create(p))
    ensures Conserved(Apply(s, Create(p)))
  {
    hide PathTo, Shares;
    var s', n := Apply(s, Create(p)), |s.parents|;
    forall i: nat | i < n + 1
      ensures s'.total[i] == Own(s'.adds, i) + ChildSum(s'.parents, s'.total, i, n + 1) + InFlight(s'.adds, i)
    {
      if i < n {
        ChildSumExtend(s.parents, s'.parents, s.total, i, n);
      } else {
        NoChildren(s'.parents, s'.total, n, n + 1);
        NothingAddedYet(s, n);
      }
    }
  }

  lemma CreateKeepsInv(s: State, p: Option<nat>)
    requires Inv(s) && Enabled(s, Create(p))
    ensures Inv(Apply(s, Create(p)))
  {
    CreateConserves(s, p);
    hide Conserved;
    var s' := Apply(s, Create(p));
    forall k | 0 <= k < |s.adds| ensures s'.adds[k].path == PathTo(s'.parents, s'.adds[k].path[|s'.adds[k].path| - 1]) {
      var a := s.adds[k];
      PathExtend(s.parents, s'.parents, a.path[|a.path| - 1]);
    }
  }

  lemma BeginKeepsInv(s: State, i: nat, n: nat)
    requires Inv(s) && Enabled(s, Begin(i, n))
    ensures Inv(Apply(s, Begin(i, n)))
  {
    var s' := Apply(s, Begin(i, n));
    assert s'.adds[..|s.adds|] == s.adds;
  }

  lemma AdvanceKeepsInv(s: State, k: nat)
    requires Inv(s) && Enabled(s, Advance(k))
    ensures Inv(Apply(s, Advance(k)))
  {
    var s' := Apply(s, Advance(k));
    forall p: nat | p < |s'.parents|
      ensures s'.total[p] == Own(s'.adds, p) + ChildSum(s'.parents, s'.total, p, |s'.parents|) + InFlight(s'.adds, p)
    {
      AdvanceConserves(s, k, p);
    }
    var q := s.adds[k].path[s.adds[k].done];
    WrapAdd(s.total[q], s.adds[k].bytes);
  }

  lemma WrapAdd(x: nat, n: nat)
    ensures (x % WORD + n) % WORD == (x + n) % WORD
  {
  }

  lemma StepKeepsInv(s: State, e: Event)
    requires Inv(s) && Enabled(s, e)
    ensures Inv(Apply(s, e))
  {
    match e {
      case Create(p) => CreateKeepsInv(s, p);
      case Begin(i, n) => BeginKeepsInv(s, i, n);
      case Advance(k) => AdvanceKeepsInv(s, k);
    }
  }

  lemma {:induction false} RunKeepsInv(s: State, es: seq<Event>)
    requires Inv(s) && CanRun(s, es)
    ensures Inv(Run(s, es))
    decreases |es|
  {
    if es == [] {
    } else {
      StepKeepsInv(s, es[0]);
      hide Inv, Apply, Enabled;
      RunKeepsInv(Apply(s, es[0]), es[1..]);
    }
  }

  // ----- the whole tree -----

  /** Counter `d` is `p` or below it. */
  predicate Under(ps: Parents, p: nat, d: nat)
    requires d < |ps|
  {
    p == d || (ps[d].Some? && Under(ps, p, ps[d].value))
  }

  /** The sum of `own` over `p` and everything below it, among the first `k` counters. */
  function TreeSum(ps: Parents, own: seq<nat>, p: nat, k: nat): nat
    requires k <= |ps| == |own|
  {
    if k == 0 then 0 else TreeSum(ps, own, p, k - 1) + if Under(ps, p, k - 1) then own[k - 1] else 0
  }

  /** The child of `p` through which `d` hangs under it. */
  function Toward(ps: Parents, p: nat, d: nat): (c: nat)
    requires d < |ps| && Under(ps, p, d) && p != d
    ensures c <= d && c < |ps| && ps[c] == Some(p)
  {
    if ps[d] == Some(p) then d else Toward(ps, p, ps[d].value)
  }

  lemma {:induction false} UnderIsOlder(ps: Parents, p: nat, d: nat)
    requires d < |ps| && Under(ps, p, d)
    ensures p <= d
  {
    if p != d {
      UnderIsOlder(ps, p, ps[d].value);
    }
  }

  /** Exactly one child of `p` leads to `d`. */
  lemma {:induction false} OneChildLeads(ps: Parents, p: nat, c: nat, d: nat)
    requires c < |ps| && d < |ps| && ps[c] == Some(p)
    ensures Under(ps, c, d) <==> Under(ps, p, d) && p != d && c == Toward(ps, p, d)
  {
    if c == d {
      assert Under(ps, p, p);
    } else if ps[d].Some? {
      OneChildLeads(ps, p, c, ps[d].value);
      if Under(ps, c, ps[d].value) {
        UnderIsOlder(ps, c, ps[d].value);
      }
    }
  }

  /** The tree sums of all counters. */
  function TreeSums(ps: Parents, own: seq<nat>, k: nat): (w: seq<nat>)
    requires k <= |ps| == |own|
    ensures |w| == |ps| && forall c :: 0 <= c < |ps| ==> w[c] == TreeSum(ps, own, c, k)
  {
    seq(|ps|, c requires 0 <= c < |ps| => TreeSum(ps, own, c, k))
  }

  lemma {:induction false} ChildSumEqual(ps: Parents, v: seq<nat>, w: seq<nat>, p: nat, k: nat)
    requires k <= |ps| == |v| == |w|
    requires forall c :: 0 <= c < k && ps[c] == Some(p) ==> v[c] == w[c]
    ensures ChildSum(ps, v, p, k) == ChildSum(ps, w, p, k)
  {
    if k == 0 {
    } else {
      ChildSumEqual(ps, v, w, p, k - 1);
    }
  }

  /** A tree sum is the own value plus the tree sums of the children. */
  lemma {:induction false} TreeSumSplits(ps: Parents, own: seq<nat>, p: nat, k: nat)
    requires k <= |ps| == |own| && p < |ps|
    ensures TreeSum(ps, own, p, k) == (if p < k then own[p] else 0) + ChildSum(ps, TreeSums(ps, own, k), p, |ps|)
  {
    if k == 0 {
      AllZero(ps, TreeSums(ps, own, 0), p, |ps|);
    } else {
      var d := k - 1;
      TreeSumSplits(ps, own, p, d);
      var v, w := TreeSums(ps, own, d), TreeSums(ps, own, k);
      forall c | 0 <= c < |ps| && ps[c] == Some(p)
        ensures w[c] == v[c] + if Under(ps, p, d) && p != d && c == Toward(ps, p, d) then own[d] else 0
      {
        OneChildLeads(ps, p, c, d);
      }
      if Under(ps, p, d) && p != d {
        var t := Toward(ps, p, d);
        UnderIsOlder(ps, p, d);
        ChildSumEqual(ps, w, v[t := v[t] + own[d]], p, |ps|);
        ChildSumRaise(ps, v, t, own[d], p, |ps|);
      } else {
        ChildSumEqual(ps, w, v, p, |ps|);
      }
    }
  }

  lemma {:induction false} AllZero(ps: Parents, w: seq<nat>, p: nat, k: nat)
    requires k <= |ps| == |w| && forall c :: 0 <= c < |w| ==> w[c] == 0
    ensures ChildSum(ps, w, p, k) == 0
  {
    if k == 0 {
    } else {
      AllZero(ps, w, p, k - 1);
    }
  }

  /** If every counter is its own value plus its children, every counter is its tree sum. */
  lemma {:induction false} TotalsAreTreeSums(ps: Parents, total: seq<nat>, own: seq<nat>, p: nat)
    requires |ps| == |total| == |own| && p < |ps|
    requires forall i: nat :: i < |ps| ==> total[i] == own[i] + ChildSum(ps, total, i, |ps|)
    ensures total[p] == TreeSum(ps, own, p, |ps|)
    decreases |ps| - p
  {
    var w := TreeSums(ps, own, |ps|);
    forall c | 0 <= c < |ps| && ps[c] == Some(p) ensures total[c] == w[c] {
      TotalsAreTreeSums(ps, total, own, c);
    }
    ChildSumEqual(ps, total, w, p, |ps|);
    TreeSumSplits(ps, own, p, |ps|);
  }

  // ----- every run -----

  /** Sums of words and sums of totals agree modulo the word. */
  lemma {:induction false} ChildSumWraps(ps: Parents, w: seq<nat>, total: seq<nat>, p: nat, k: nat)
    requires k <= |ps| == |w| == |total| && forall i :: 0 <= i < |w| ==> w[i] == total[i] % WORD
    ensures ChildSum(ps, w, p, k) % WORD == ChildSum(ps, total, p, k) % WORD
    ensures ChildSum(ps, w, p, k) <= ChildSum(ps, total, p, k)
  {
    if k == 0 {
    } else {
      ChildSumWraps(ps, w, total, p, k - 1);
      var a, b := ChildSum(ps, w, p, k - 1), ChildSum(ps, total, p, k - 1);
      if ps[k - 1] == Some(p) {
        WrapSum(a, w[k - 1], b, total[k - 1]);
      }
    }
  }

  lemma WrapSum(a: nat, x: nat, b: nat, y: nat)
    requires a % WORD == b % WORD && x % WORD == y % WORD
    ensures (a + x) % WORD == (b + y) % WORD
  {
    ModAdd(a, x, WORD);
    ModAdd(b, y, WORD);
  }

  /**
   At every step of every interleaving, each counter holds, modulo the word, what was
   added to itself, plus what its children hold, plus what has reached it and not yet
   the child below; and without wrap-around exactly that. So, until a counter wraps, it
   never trails its children.
   */
  lemma CountersAreConserved(es: seq<Event>, p: nat)
    requires CanRun(Init(), es) && p < |Run(Init(), es).parents|
    ensures var s := Run(Init(), es);
      && Sized(s)
      && s.word[p] == s.total[p] % WORD
      && s.total[p] == Own(s.adds, p) + ChildSum(s.parents, s.total, p, |s.parents|) + InFlight(s.adds, p)
      && s.word[p] ==
           (Own(s.adds, p) + ChildSum(s.parents, s.word, p, |s.parents|) + InFlight(s.adds, p)) % WORD
      && (s.total[p] < WORD ==> s.word[p] >= ChildSum(s.parents, s.word, p, |s.parents|))
  {
    hide Run, CanRun;
    RunKeepsInv(Init(), es);
    var s := Run(Init(), es);
    hide ChildSum, Shares;
    ChildSumWraps(s.parents, s.word, s.total, p, |s.parents|);
    var own := Own(s.adds, p) + InFlight(s.adds, p);
    WrapSum(ChildSum(s.parents, s.word, p, |s.parents|), own, ChildSum(s.parents, s.total, p, |s.parents|), own);
  }

  predicate AtRest(s: State) {
    forall k :: 0 <= k < |s.adds| ==> s.adds[k].done == |s.adds[k].path|
  }

  /** What was added to each counter itself. */
  function Owns(s: State): (own: seq<nat>)
    ensures |own| == |s.parents| && forall i :: 0 <= i < |own| ==> own[i] == Own(s.adds, i)
  {
    seq(|s.parents|, i requires 0 <= i => Own(s.adds, i))
  }

  /**
   Whenever no add is under way, each counter equals, modulo the word, everything ever
   added to it and to the counters below it: the totals of a server or a client are the
   sum over all its streams.
   */
  lemma TotalsAtRest(es: seq<Event>, p: nat)
    requires CanRun(Init(), es) && p < |Run(Init(), es).parents| && AtRest(Run(Init(), es))
    ensures var s := Run(Init(), es);
      Sized(s) && s.word[p] == TreeSum(s.parents, Owns(s), p, |s.parents|) % WORD
  {
    hide Run, CanRun;
    RunKeepsInv(Init(), es);
    var s := Run(Init(), es);
    forall i: nat | i < |s.parents| ensures s.total[i] == Owns(s)[i] + ChildSum(s.parents, s.total, i, |s.parents|) {
      NoShares(s.adds, i, false);
    }
    TotalsAreTreeSums(s.parents, s.total, Owns(s), p);
  }

  // ----- an add of the object is a run of the machine -----

  /** Where the entries of a path stand: older counters first. */
  lemma {:induction false} PathIncreases(ps: Parents, i: nat, a: nat, b: nat)
    requires i < |ps| && a < b < |PathTo(ps, i)|
    ensures PathTo(ps, i)[a] < PathTo(ps, i)[b]
  {
    if b + 1 == |PathTo(ps, i)| {
      PathSteps(ps, ps[i].value, a);
    } else {
      PathIncreases(ps, ps[i].value, a, b);
    }
  }

  /** All updates of an add, one after the other. */
  function Advances(k: nat, times: nat): seq<Event> {
    if times == 0 then [] else [Advance(k)] + Advances(k, times - 1)
  }

  function AddSteps(s: State, i: nat, n: nat): seq<Event>
    requires i < |s.parents|
  {
    [Begin(i, n)] + Advances(|s.adds|, |PathTo(s.parents, i)|)
  }

  predicate AddedAlong(s: State, s': State, path: seq<nat>, n: nat) {
    && Sized(s) && Sized(s') && s'.parents == s.parents && |s'.adds| == |s.adds|
    && forall q: nat :: q < |s.word| ==> s'.word[q] == if q in path then Plus(s.word[q], n) else s.word[q]
  }

  /** The next counter on the path of an add, and what one update does. */
  lemma AdvanceOnce(s: State, k: nat)
    requires Inv(s) && k < |s.adds| && s.adds[k].done < |s.adds[k].path|
    ensures Enabled(s, Advance(k))
    ensures var a, s' := s.adds[k], Apply(s, Advance(k));
      && Inv(s') && k < |s'.adds| && s'.adds[k] == a.(done := a.done + 1)
      && a.path[a.done] !in a.path[a.done + 1..]
      && AddedAlong(s, s', [a.path[a.done]], a.bytes)
  {
    var a := s.adds[k];
    var i, q := a.path[|a.path| - 1], a.path[a.done];
    PathSteps(s.parents, i, a.done);
    forall j | a.done < j < |a.path| ensures a.path[j] != q {
      PathIncreases(s.parents, i, a.done, j);
    }
    hide PathTo;
    StepKeepsInv(s, Advance(k));
  }

  lemma {:induction false} AdvancesRun(s: State, k: nat)
    requires Inv(s) && k < |s.adds| && s.adds[k].done <= |s.adds[k].path|
    ensures var a := s.adds[k];
      && CanRun(s, Advances(k, |a.path| - a.done))
      && AddedAlong(s, Run(s, Advances(k, |a.path| - a.done)), a.path[a.done..], a.bytes)
    decreases |s.adds[k].path| - s.adds[k].done
  {
    hide Inv, Apply, Enabled, AddedAlong, Plus;
    var a := s.adds[k];
    var rest, steps := a.path[a.done..], Advances(k, |a.path| - a.done);
    if a.done == |a.path| {
      NothingAdded(s, a.bytes);
      assert Run(s, steps) == s && rest == [];
    } else {
      AdvanceOnce(s, k);
      var s' := Apply(s, Advance(k));
      AdvancesRun(s', k);
      assert steps[1..] == Advances(k, |a.path| - a.done - 1);
      assert rest == [a.path[a.done]] + a.path[a.done + 1..];
      AddedTwice(s, s', Run(s, steps), a.path[a.done], a.path[a.done + 1..], a.bytes);
    }
  }

  lemma NothingAdded(s: State, n: nat)
    requires Inv(s)
    ensures AddedAlong(s, s, [], n)
  {
  }

  lemma AddedTwice(s: State, s': State, s'': State, q: nat, path: seq<nat>, n: nat)
    requires AddedAlong(s, s', [q], n) && AddedAlong(s', s'', path, n) && q !in path
    ensures AddedAlong(s, s'', [q] + path, n)
  {
  }

  lemma BeginOnce(s: State, i: nat, n: nat)
    requires Inv(s) && i < |s.parents|
    ensures Enabled(s, Begin(i, n))
    ensures var s' := Apply(s, Begin(i, n));
      && Inv(s') && |s'.adds| == |s.adds| + 1 && s'.adds[|s.adds|] == Add(n, PathTo(s.parents, i), 0)
      && s'.word == s.word && s'.parents == s.parents
  {
    hide PathTo;
    StepKeepsInv(s, Begin(i, n));
  }

  /** An uninterrupted add reaches every counter from the root down, and no other. */
  lemma AddRuns(s: State, i: nat, n: nat)
    requires Inv(s) && i < |s.parents|
    ensures CanRun(s, AddSteps(s, i, n)) && Inv(Run(s, AddSteps(s, i, n)))
    ensures AddedAlong(s.(adds := Run(s, AddSteps(s, i, n)).adds), Run(s, AddSteps(s, i, n)), PathTo(s.parents, i), n)
  {
    assert Sized(s);
    hide Inv, Apply, Enabled, PathTo, Plus;
    BeginOnce(s, i, n);
    var s1 := Apply(s, Begin(i, n));
    var path, steps := PathTo(s.parents, i), AddSteps(s, i, n);
    AdvancesRun(s1, |s.adds|);
    assert path[0..] == path;
    assert steps[1..] == Advances(|s.adds|, |path|);
    RunKeepsInv(s, steps);
  }

  function WordOf(c: ByteCounter, write: bool): nat
    reads c
  {
    if write then c.bytesWrite else c.bytesRead
  }

  /** The objects hang in the tree that the machine describes. */
  ghost predicate SameTree(objs: seq<ByteCounter>, ps: Parents) {
    && |objs| == |ps|
    && (forall j, k :: 0 <= j < k < |objs| ==> objs[j] != objs[k])
    && (forall k :: 0 <= k < |objs| ==>
          objs[k].Valid() && objs[k].parent == if ps[k].None? then null else objs[ps[k].value])
  }

  /** Every object holds the machine's word, for bytes read or for bytes written. */
  ghost predicate Mirrors(objs: seq<ByteCounter>, s: State, write: bool)
    reads set c | c in objs
  {
    && SameTree(objs, s.parents) && Inv(s)
    && forall k :: 0 <= k < |objs| ==> WordOf(objs[k], write) == s.word[k]
  }

  lemma {:induction false} ChainIsPath(objs: seq<ByteCounter>, ps: Parents, i: nat)
    requires SameTree(objs, ps) && i < |objs|
    ensures forall q: nat :: q < |objs| ==> (objs[q] in objs[i].chain <==> q in PathTo(ps, i))
  {
    if ps[i].Some? {
      ChainIsPath(objs, ps, ps[i].value);
    }
  }

  /** What the words must become. */
  lemma WordsFollow(objs: seq<ByteCounter>, s: State, i: nat, n: nat)
    requires SameTree(objs, s.parents) && Inv(s) && i < |objs|
    ensures CanRun(s, AddSteps(s, i, n))
    ensures var s' := Run(s, AddSteps(s, i, n));
      && Inv(s') && s'.parents == s.parents && |s'.word| == |s.word| == |objs|
      && forall q :: 0 <= q < |objs| ==>
           s'.word[q] == if objs[q] in objs[i].chain then Plus(s.word[q], n) else s.word[q]
  {
    assert |s.word| == |objs|;
    hide Inv, PathTo, Run, CanRun, AddSteps, Plus;
    AddRuns(s, i, n);
    ChainIsPath(objs, s.parents, i);
  }

  /** Adding to an object, uninterrupted, is a run of the machine. */
  method AddTo(objs: seq<ByteCounter>, i: nat, n: nat, write: bool, ghost s: State) returns (ghost s': State)
    requires Mirrors(objs, s, write) && i < |objs|
    modifies set c | c in objs[i].chain
    ensures CanRun(s, AddSteps(s, i, n)) && s' == Run(s, AddSteps(s, i, n)) && Mirrors(objs, s', write)
  {
    WordsFollow(objs, s, i, n);
    s' := Run(s, AddSteps(s, i, n));
    assert objs[i].Valid();
    hide PathTo, Run, CanRun, Inv, AddSteps, SameTree, Plus;
    if write {
      objs[i].AddBytesWrite(n);
    } else {
      objs[i].AddBytesRead(n);
    }
  }

  lemma CreateRuns(s: State, parent: Option<nat>)
    requires Inv(s) && (parent.Some? ==> parent.value < |s.parents|)
    ensures CanRun(s, [Create(parent)])
    ensures var s' := Run(s, [Create(parent)]);
      Inv(s') && s'.parents == s.parents + [parent] && s'.word == s.word + [0] && |s.word| == |s.parents|
  {
    assert Enabled(s, Create(parent));
    StepKeepsInv(s, Create(parent));
    var s' := Apply(s, Create(parent));
    assert [Create(parent)][1..] == [] && CanRun(s', []) && Run(s', []) == s';
  }

  lemma TreeGrows(objs: seq<ByteCounter>, ps: Parents, c: ByteCounter, parent: Option<nat>, ps': Parents)
    requires SameTree(objs, ps) && c !in objs && c.Valid() && ps' == ps + [parent]
    requires parent.Some? ==> parent.value < |objs|
    requires c.parent == if parent.Some? then objs[parent.value] else null
    ensures SameTree(objs + [c], ps')
  {
  }

  /** A new object below one of the tree, or a new root, is a Create step of the machine. */
  method NewCounter(objs: seq<ByteCounter>, parent: Option<nat>, ghost s: State)
      returns (all: seq<ByteCounter>, ghost s': State)
    requires Mirrors(objs, s, false) && Mirrors(objs, s, true) && (parent.Some? ==> parent.value < |objs|)
    ensures |all| == |objs| + 1 && all[..|objs|] == objs && fresh(all[|objs|])
    ensures CanRun(s, [Create(parent)]) && s' == Run(s, [Create(parent)])
    ensures Mirrors(all, s', false) && Mirrors(all, s', true)
  {
    assert |objs| == |s.parents| && (parent.Some? ==> objs[parent.value].Valid());
    hide Inv, Run, CanRun, SameTree;
    CreateRuns(s, parent);
    s' := Run(s, [Create(parent)]);
    var above: ByteCounter? := if parent.Some? then objs[parent.value] else null;
    var c := new ByteCounter(above);
    all := objs + [c];
    TreeGrows(objs, s.parents, c, parent, s'.parents);
  }
}
