/**
 Two-level routing: the reader takes the hash modulo the number of balancers, the balancer takes the
 same hash modulo its number of fast paths. Which workers that can reach is the Chinese remainder
 theorem.
 */
module Routing {
  import opened Types
  import opened MtStreams
  import opened MtPipeline
  import MtRefinement

  // ---------------------------------------------------------------- divisors

  predicate Divides(d: int, n: int)
    requires d != 0
  {
    n % d == 0
  }

  function Gcd(a: nat, b: nat): (g: nat)
    requires a > 0 || b > 0
    ensures g > 0
    decreases b
  {
    if b == 0 then a else Gcd(b, a % b)
  }

  /** A multiple of `d` that is less than `d` in size is zero. */
  lemma SmallMultiple(d: int, k: int)
    requires d > 0 && -d < d * k < d
    ensures k == 0
  {
  }

  lemma MultipleDivides(d: int, k: int)
    requires d > 0
    ensures Divides(d, d * k) && d * k / d == k
  {
  }

  lemma QuotientOf(d: int, n: int) returns (k: int)
    requires d > 0 && Divides(d, n)
    ensures n == d * k && k == n / d
  {
    k := n / d;
  }

  /** Adding a multiple of the modulus changes nothing. */
  lemma RemainderShift(n: int, d: int, k: int)
    requires d > 0
    ensures (n + d * k) % d == n % d
  {
    var m := n + d * k;
    var q := n / d;
    assert m == d * (q + k) + n % d by {
      assert d * (q + k) == d * q + d * k;
    }
    RemainderIs(m, d, q + k, n % d);
  }

  lemma RemainderIs(m: int, d: int, q: int, r: int)
    requires d > 0 && 0 <= r < d && m == d * q + r
    ensures m % d == r && m / d == q
  {
    var e := m / d - q;
    assert m == d * (m / d) + m % d;
    assert d * e == r - m % d by {
      assert d * e == d * (m / d) - d * q;
    }
    SmallMultiple(d, e);
  }

  /** A divisor of the modulus sees the remainder as it sees the number. */
  lemma RemainderOfRemainder(h: int, m: int, d: int)
    requires d > 0 && m > 0 && Divides(d, m)
    ensures h % m % d == h % d
  {
    var k := QuotientOf(d, m);
    var q := h / m;
    assert h == h % m + d * (k * q) by {
      assert h == h % m + m * q;
      assert m * q == d * (k * q);
    }
    RemainderShift(h % m, d, k * q);
  }

  lemma CombinationDivides(d: int, a: int, b: int, x: int, y: int)
    requires d > 0 && Divides(d, a) && Divides(d, b)
    ensures Divides(d, a * x + b * y)
  {
    var i, j := a / d, b / d;
    assert a * x + b * y == d * (i * x + j * y) by {
      assert a == d * i && b == d * j;
      assert d * i * x == d * (i * x);
      assert d * j * y == d * (j * y);
    }
    MultipleDivides(d, i * x + j * y);
  }

  lemma Recombine(b: int, q: int, r: int, u: int, v: int)
    ensures (b * q + r) * v + b * (u - q * v) == b * u + r * v
  {
  }

  lemma BezoutStep(a: nat, b: nat, u: int, v: int, g: nat)
    requires b > 0 && g > 0 && Divides(g, b) && Divides(g, a % b) && b * u + a % b * v == g
    ensures a * v + b * (u - a / b * v) == g && Divides(g, a)
  {
    var q, r := a / b, a % b;
    assert a == b * q + r;
    Recombine(b, q, r, u, v);
    CombinationDivides(g, b, r, q, 1);
  }

  /** Bezout: Euclid's result divides both numbers and is a combination of them. */
  lemma {:induction false} Bezout(a: nat, b: nat) returns (x: int, y: int)
    requires a > 0 || b > 0
    ensures a * x + b * y == Gcd(a, b)
    ensures Divides(Gcd(a, b), a) && Divides(Gcd(a, b), b)
    decreases b
  {
    if b == 0 {
      x, y := 1, 0;
    } else {
      var u, v := Bezout(b, a % b);
      BezoutStep(a, b, u, v, Gcd(b, a % b));
      x, y := v, u - a / b * v;
    }
  }

  function Lcm(a: nat, b: nat): (m: nat)
    requires a > 0 && b > 0
  {
    a / Gcd(a, b) * b
  }

  lemma ProductByQuotients(a: int, b: int, g: int, i: int, j: int)
    requires a == g * i && b == g * j
    ensures i * b == b * i == a * j && g * (i * b) == a * b
  {
  }

  /** The least common multiple is a common multiple, and `Gcd * Lcm` is the product. */
  lemma LcmIsCommonMultiple(a: nat, b: nat)
    requires a > 0 && b > 0
    ensures Lcm(a, b) > 0 && Divides(a, Lcm(a, b)) && Divides(b, Lcm(a, b))
    ensures Gcd(a, b) * Lcm(a, b) == a * b
  {
    var g := Gcd(a, b);
    var x, y := Bezout(a, b);
    var i := QuotientOf(g, a);
    var j := QuotientOf(g, b);
    ProductByQuotients(a, b, g, i, j);
    MultipleDivides(a, j);
    MultipleDivides(b, i);
    PositiveProduct(i, b);
  }

  lemma PositiveProduct(i: int, b: int)
    requires i > 0 && b > 0
    ensures i * b > 0
  {
  }

  lemma CombineMultiples(a: int, b: int, x: int, y: int, i: int, j: int)
    requires a * i == b * j
    ensures (a * x + b * y) * (a * i) == a * b * (x * j + y * i)
  {
  }

  /** It divides every common multiple. */
  lemma LcmIsLeast(a: nat, b: nat, d: int)
    requires a > 0 && b > 0 && Divides(a, d) && Divides(b, d)
    ensures Lcm(a, b) > 0 && Divides(Lcm(a, b), d)
  {
    var g, m := Gcd(a, b), Lcm(a, b);
    LcmIsCommonMultiple(a, b);
    var x, y := Bezout(a, b);
    var i := QuotientOf(a, d);
    var j := QuotientOf(b, d);
    CombineMultiples(a, b, x, y, i, j);
    MultipleByCofactor(g, m, d, x * j + y * i);
  }

  lemma MultipleByCofactor(g: int, m: int, d: int, k: int)
    requires g > 0 && m > 0 && g * d == g * m * k
    ensures Divides(m, d)
  {
    assert g * m * k == g * (m * k);
    CancelFactor(g, d, m * k);
    MultipleDivides(m, k);
  }

  lemma CancelFactor(g: int, a: int, b: int)
    requires g > 0 && g * a == g * b
    ensures a == b
  {
  }

  // ---------------------------------------------------------------- reachable workers

  /** A hash below `bound` leads the reader to balancer `lb` and that balancer to its fast path `fp`. */
  ghost predicate Reaches(lbs: nat, fps: nat, h: nat, lb: nat, fp: nat)
    requires lbs > 0 && fps > 0
  {
    h % lbs == lb && h % fps == fp
  }

  ghost predicate Reachable(lbs: nat, fps: nat, bound: nat, lb: nat, fp: nat)
    requires lbs > 0 && fps > 0
  {
    exists h: nat :: h < bound && Reaches(lbs, fps, h, lb, fp)
  }

  predicate Congruent(lbs: nat, fps: nat, lb: nat, fp: nat)
    requires lbs > 0 && fps > 0
  {
    lb % Gcd(lbs, fps) == fp % Gcd(lbs, fps)
  }

  lemma HashesAreCongruent(lbs: nat, fps: nat, h: nat)
    requires lbs > 0 && fps > 0
    ensures Congruent(lbs, fps, h % lbs, h % fps)
  {
    var x, y := Bezout(lbs, fps);
    RemainderOfRemainder(h, lbs, Gcd(lbs, fps));
    RemainderOfRemainder(h, fps, Gcd(lbs, fps));
  }

  lemma EqualRemaindersDiffer(a: int, b: int, g: int) returns (k: int)
    requires g > 0 && a % g == b % g
    ensures b == a + g * k
  {
    k := b / g - a / g;
    assert g * k == g * (b / g) - g * (a / g);
  }

  lemma StepAcross(lbs: int, fps: int, x: int, y: int, k: int)
    ensures (lbs * x + fps * y) * k == lbs * (x * k) - fps * (-(y * k))
  {
  }

  /** The constructive half of the Chinese remainder theorem. */
  lemma SolveCongruences(lbs: nat, fps: nat, lb: nat, fp: nat) returns (h: nat)
    requires lb < lbs && fp < fps && Congruent(lbs, fps, lb, fp)
    ensures h < Lcm(lbs, fps) && Reaches(lbs, fps, h, lb, fp)
  {
    var g, m := Gcd(lbs, fps), Lcm(lbs, fps);
    var x, y := Bezout(lbs, fps);
    LcmIsCommonMultiple(lbs, fps);
    var k := EqualRemaindersDiffer(lb, fp, g);
    var z := lb + lbs * (x * k);
    StepAcross(lbs, fps, x, y, k);
    RemainderShift(lb, lbs, x * k);
    RemainderShift(fp, fps, -(y * k));
    h := z % m;
    RemainderOfRemainder(z, m, lbs);
    RemainderOfRemainder(z, m, fps);
    RemainderIs(lb, lbs, 0, lb);
    RemainderIs(fp, fps, 0, fp);
  }

  /**
   Fast path `fp` of balancer `lb` can get packets exactly when the two numbers agree modulo the
   greatest common divisor of the two counts. `bound` is the number of hash values.
   */
  lemma ReachableIffCongruent(lbs: nat, fps: nat, bound: nat, lb: nat, fp: nat)
    requires lb < lbs && fp < fps && bound >= Lcm(lbs, fps)
    ensures Reachable(lbs, fps, bound, lb, fp) <==> Congruent(lbs, fps, lb, fp)
  {
    if Reachable(lbs, fps, bound, lb, fp) {
      var h: nat :| h < bound && Reaches(lbs, fps, h, lb, fp);
      HashesAreCongruent(lbs, fps, h);
    }
    if Congruent(lbs, fps, lb, fp) {
      var h := SolveCongruences(lbs, fps, lb, fp);
      assert Reachable(lbs, fps, bound, lb, fp);
    }
  }

  /** Every worker can get packets exactly when the two counts are coprime. */
  lemma AllReachableIffCoprime(lbs: nat, fps: nat, bound: nat)
    requires lbs > 0 && fps > 0 && bound >= Lcm(lbs, fps)
    ensures (forall lb: nat, fp: nat :: lb < lbs && fp < fps ==> Reachable(lbs, fps, bound, lb, fp)) <==> Gcd(lbs, fps) == 1
  {
    var g := Gcd(lbs, fps);
    if g == 1 {
      forall lb: nat, fp: nat | lb < lbs && fp < fps ensures Reachable(lbs, fps, bound, lb, fp) {
        ReachableIffCongruent(lbs, fps, bound, lb, fp);
      }
    } else {
      var x, y := Bezout(lbs, fps);
      var j := QuotientOf(g, fps);
      assert fps > 1;
      RemainderIs(1, g, 0, 1);
      ReachableIffCongruent(lbs, fps, bound, 0, 1);
    }
  }

  // ---------------------------------------------------------------- how many workers

  /** The number of the worker that hash `h` leads to. */
  function WorkerOf(lbs: nat, fps: nat, h: nat): nat
    requires lbs > 0 && fps > 0
  {
    h % lbs * fps + h % fps
  }

  function Workers(lbs: nat, fps: nat, bound: nat): set<nat>
    requires lbs > 0 && fps > 0
  {
    set h | 0 <= h < bound :: WorkerOf(lbs, fps, h)
  }

  lemma WorkerDecides(lbs: nat, fps: nat, h: nat, k: nat)
    requires lbs > 0 && fps > 0
    ensures WorkerOf(lbs, fps, h) == WorkerOf(lbs, fps, k) <==> h % lbs == k % lbs && h % fps == k % fps
  {
    var a, b := h % lbs, k % lbs;
    if WorkerOf(lbs, fps, h) == WorkerOf(lbs, fps, k) {
      RemainderIs(fps * a + h % fps, fps, a, h % fps);
      RemainderIs(fps * b + k % fps, fps, b, k % fps);
    }
  }

  lemma DistinctBelowLcm(lbs: nat, fps: nat, h: nat, k: nat)
    requires lbs > 0 && fps > 0 && h < k < Lcm(lbs, fps)
    ensures WorkerOf(lbs, fps, h) != WorkerOf(lbs, fps, k)
  {
    WorkerDecides(lbs, fps, h, k);
    if h % lbs == k % lbs && h % fps == k % fps {
      var i := EqualRemaindersDiffer(h, k, lbs);
      var j := EqualRemaindersDiffer(h, k, fps);
      MultipleDivides(lbs, i);
      MultipleDivides(fps, j);
      LcmIsLeast(lbs, fps, k - h);
      RemainderIs(k - h, Lcm(lbs, fps), 0, k - h);
    }
  }

  lemma {:induction false} CountBelowLcm(lbs: nat, fps: nat, n: nat)
    requires lbs > 0 && fps > 0 && n <= Lcm(lbs, fps)
    ensures |Workers(lbs, fps, n)| == n
  {
    if n == 0 {
      assert Workers(lbs, fps, 0) == {};
    } else {
      CountBelowLcm(lbs, fps, n - 1);
      var w := WorkerOf(lbs, fps, n - 1);
      assert Workers(lbs, fps, n) == Workers(lbs, fps, n - 1) + {w};
      if w in Workers(lbs, fps, n - 1) {
        var h :| 0 <= h < n - 1 && WorkerOf(lbs, fps, h) == w;
        DistinctBelowLcm(lbs, fps, h, n - 1);
      }
    }
  }

  lemma HashesRepeat(lbs: nat, fps: nat, h: nat)
    requires lbs > 0 && fps > 0
    ensures Lcm(lbs, fps) > 0 && WorkerOf(lbs, fps, h) == WorkerOf(lbs, fps, h % Lcm(lbs, fps))
  {
    LcmIsCommonMultiple(lbs, fps);
    RemainderOfRemainder(h, Lcm(lbs, fps), lbs);
    RemainderOfRemainder(h, Lcm(lbs, fps), fps);
  }

  /** Out of `lbs * fps` workers, exactly the least common multiple of the two counts ever get a packet. */
  lemma LcmWorkersAreReachable(lbs: nat, fps: nat, bound: nat)
    requires lbs > 0 && fps > 0 && bound >= Lcm(lbs, fps)
    ensures |Workers(lbs, fps, bound)| == Lcm(lbs, fps)
    ensures Lcm(lbs, fps) * Gcd(lbs, fps) == lbs * fps
  {
    LcmIsCommonMultiple(lbs, fps);
    var m := Lcm(lbs, fps);
    CountBelowLcm(lbs, fps, m);
    forall w ensures w in Workers(lbs, fps, bound) <==> w in Workers(lbs, fps, m) {
      if w in Workers(lbs, fps, bound) {
        var h :| 0 <= h < bound && WorkerOf(lbs, fps, h) == w;
        HashesRepeat(lbs, fps, h);
        assert 0 <= h % m < m;
      }
    }
    assert Workers(lbs, fps, bound) == Workers(lbs, fps, m);
  }

  // ---------------------------------------------------------------- in the pipeline

  lemma {:induction false} NothingSelected(ps: seq<Packet>, keep: FiveTuple -> bool)
    requires forall t :: !keep(t)
    ensures Select(ps, keep) == []
  {
    if ps != [] {
      NothingSelected(ps[..|ps| - 1], keep);
    }
  }

  lemma RoutedOnlyToCongruent(c: Config, lb: nat, fp: nat, t: FiveTuple)
    requires ValidConfig(c) && lb < c.numLbs && fp < c.fpsPerLb && FpOf(c, t) == FpIndex(c, lb, fp)
    ensures Congruent(c.numLbs, c.fpsPerLb, lb, fp)
  {
    FpIndexIsInjective(c, LbOf(c, t), FpWithin(c, t), lb, fp);
    HashesAreCongruent(c.numLbs, c.fpsPerLb, Hash(c.std, t));
  }

  /** A worker whose numbers are not congruent sits idle in every run, on every input. */
  lemma OthersStayIdle(c: Config, schedule: seq<Thread>, lb: nat, fp: nat)
    requires ValidConfig(c) && lb < c.numLbs && fp < c.fpsPerLb
    requires !Congruent(c.numLbs, c.fpsPerLb, lb, fp)
    ensures FpIndex(c, lb, fp) < NumFps(c)
    ensures var worker := Run(c, schedule).fps[FpIndex(c, lb, fp)]; worker.handled == [] && worker.queue.items == []
  {
    FpIndexInRange(c, lb, fp);
    var j, s := FpIndex(c, lb, fp), Run(c, schedule);
    MtRefinement.RunRefines(c, schedule);
    assert MtRefinement.InOrder(c, s, lb, j);
    var keep := MtRefinement.ToFp(c, j);
    forall t ensures !keep(t) {
      if keep(t) {
        RoutedOnlyToCongruent(c, lb, fp, t);
      }
    }
    NothingSelected(c.input[..s.next], keep);
  }
}
