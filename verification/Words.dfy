/**
 The machine word of the 64-bit counters, and facts about remainders.
 */
module Words {

  const WORD := 0x1_0000_0000_0000_0000

  lemma DivModStep(x: nat, n: nat)
    requires n > 0
    ensures (x + 1) % n == if x % n + 1 == n then 0 else x % n + 1
    ensures (x + 1) / n == if x % n + 1 == n then x / n + 1 else x / n
  {
    var q, r := x / n, x % n;
    if r + 1 == n {
      DivModUnique(x + 1, n, q + 1, 0);
    } else {
      DivModUnique(x + 1, n, q, r + 1);
    }
  }

  lemma {:induction false} MulMonotone(n: nat, a: nat, b: nat)
    requires a <= b
    ensures n * a <= n * b
  {
    if a < b {
      MulMonotone(n, a, b - 1);
      assert n * b == n * (b - 1) + n;
    }
  }

  lemma DivModUnique(x: nat, n: nat, q: nat, r: nat)
    requires n > 0 && r < n && x == n * q + r
    ensures x / n == q && x % n == r
  {
    var q', r' := x / n, x % n;
    assert x == n * q' + r' && r' < n;
    assert n * (q + 1) == n * q + n && n * (q' + 1) == n * q' + n;
    if q' > q {
      MulMonotone(n, q + 1, q');
    } else if q' < q {
      MulMonotone(n, q' + 1, q);
    }
  }

  lemma ModAdd(a: nat, b: nat, n: nat)
    requires n > 0
    ensures (a + b) % n == (a % n + b % n) % n
  {
    var r := a % n + b % n;
    var q := a / n + b / n + r / n;
    assert a + b == n * (a / n) + n * (b / n) + n * (r / n) + r % n;
    assert n * q == n * (a / n) + n * (b / n) + n * (r / n);
    DivModUnique(a + b, n, q, r % n);
  }
}
