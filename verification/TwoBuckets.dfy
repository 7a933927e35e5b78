/** The two buckets of a provider's limiter together: for which request sizes each keeps its rate although
    a request waits for both. */
module TwoBuckets {
  import opened Common
  import opened Limiter

  /** Two full buckets that refill in the same time. */
  ghost predicate Paired(a: Bucket, b: Bucket) {
    Good(a) && Good(b) && a.capacity == 60.0 * a.rate && b.capacity == 60.0 * b.rate && a.last == b.last
  }

  /** A charge of `x` on `a` is a larger share of that bucket than a charge of `y` on `b`, or as large. */
  predicate Heavier(a: Bucket, x: real, b: Bucket, y: real) {
    x * b.rate >= y * a.rate
  }

  /** `b` has at least as large a share left as `a`. */
  predicate Ahead(b: Bucket, a: Bucket) {
    Heavier(b, b.tokens, a, a.tokens)
  }

  /** A product, named so that its laws are used one at a time. */
  function Prod(x: real, y: real): real {
    x * y
  }

  lemma ProdAdd(x: real, y: real, k: real)
    ensures Prod(x + y, k) == Prod(x, k) + Prod(y, k) && Prod(x - y, k) == Prod(x, k) - Prod(y, k)
  {
  }

  lemma ProdSwap(x: real, y: real, z: real)
    ensures Prod(Prod(x, y), z) == Prod(Prod(x, z), y)
  {
  }

  lemma ProdOrder(x: real, y: real, k: real)
    requires k > 0.0
    ensures x <= y <==> Prod(x, k) <= Prod(y, k)
    ensures x < y <==> Prod(x, k) < Prod(y, k)
  {
    Scale(x, y, k);
  }

  lemma ProdSign(x: real, k: real)
    requires x >= 0.0 && k >= 0.0
    ensures Prod(x, k) >= 0.0 && (x > 0.0 && k > 0.0 ==> Prod(x, k) > 0.0)
  {
    if x > 0.0 && k > 0.0 {
      StrictlyPositive(x, k);
    }
  }

  lemma Scale(x: real, y: real, k: real)
    requires k > 0.0
    ensures x <= y <==> x * k <= y * k
    ensures x < y <==> x * k < y * k
  {
    if x < y {
      StrictlyPositive(y - x, k);
    } else if y < x {
      StrictlyPositive(x - y, k);
    }
  }

  lemma MinTimes(x: real, y: real, k: real)
    requires k > 0.0
    ensures Min(x, y) * k == Min(x * k, y * k)
  {
    Scale(x, y, k);
  }

  lemma RefillAhead(a: Bucket, b: Bucket, now: real)
    requires Paired(a, b) && Ahead(b, a)
    ensures Ahead(Refill(b, now), Refill(a, now)) && Paired(Refill(a, now), Refill(b, now))
  {
    var d := now - a.last;
    MinTimes(b.capacity, b.tokens + d * b.rate, a.rate);
    MinTimes(a.capacity, a.tokens + d * a.rate, b.rate);
    assert b.capacity * a.rate == a.capacity * b.rate by { Products(60.0, a.rate, b.rate); }
    assert (b.tokens + d * b.rate) * a.rate == b.tokens * a.rate + d * b.rate * a.rate;
    assert (a.tokens + d * a.rate) * b.rate == a.tokens * b.rate + d * a.rate * b.rate;
    Products(d, a.rate, b.rate);
  }

  lemma Products(d: real, x: real, y: real)
    ensures d * x * y == d * y * x
  {
  }

  lemma ApplyAhead(a: Bucket, b: Bucket, x: Op, y: Op)
    requires Paired(a, b) && Ahead(b, a) && x.at == y.at && x.kept == y.kept && x.cost >= 0.0 && y.cost >= 0.0
    requires Heavier(a, Owed(a, x), b, Owed(b, y))
    ensures Ahead(Apply(b, y), Apply(a, x)) && Paired(Apply(a, x), Apply(b, y))
  {
    RefillAhead(a, b, x.at);
    hide Heavier, Refill;
    if x.kept {
      DropAhead(Refill(a, x.at), Refill(b, x.at), Owed(a, x), Owed(b, y));
    }
  }

  lemma DropAhead(a: Bucket, b: Bucket, x: real, y: real)
    requires Ahead(b, a) && Heavier(a, x, b, y)
    ensures Ahead(b.(tokens := b.tokens - y), a.(tokens := a.tokens - x))
  {
    assert (b.tokens - y) * a.rate == b.tokens * a.rate - y * a.rate;
    assert (a.tokens - x) * b.rate == a.tokens * b.rate - x * b.rate;
  }

  /** Every kept request is at least as large a share of `a` as of `b`. */
  ghost predicate AllHeavier(a: Bucket, xs: seq<Op>, b: Bucket, ys: seq<Op>) {
    |xs| == |ys| && forall i :: 0 <= i < |xs| ==> Heavier(a, Owed(a, xs[i]), b, Owed(b, ys[i]))
  }

  lemma {:induction false} RunAhead(a: Bucket, b: Bucket, xs: seq<Op>, ys: seq<Op>, n: nat)
    requires Paired(a, b) && Ahead(b, a) && Ordered(a, xs) && Ordered(b, ys) && SameRequests(xs, ys)
    requires AllHeavier(a, xs, b, ys) && n <= |xs|
    ensures Ahead(After(b, ys[..n]), After(a, xs[..n])) && Paired(After(a, xs[..n]), After(b, ys[..n]))
  {
    hide Apply, Heavier, Ahead;
    if n == 0 {
      assert xs[..0] == [] && ys[..0] == [];
    } else {
      RunAhead(a, b, xs, ys, n - 1);
      AfterOneMore(a, xs, n);
      AfterOneMore(b, ys, n);
      hide After, Paired;
      SameShare(a, b, After(a, xs[..n - 1]), After(b, ys[..n - 1]), xs[n - 1], ys[n - 1]);
      ApplyAhead(After(a, xs[..n - 1]), After(b, ys[..n - 1]), xs[n - 1], ys[n - 1]);
    }
  }

  lemma AfterOneMore(b: Bucket, ops: seq<Op>, n: nat)
    requires 0 < n <= |ops|
    ensures After(b, ops[..n]) == Apply(After(b, ops[..n - 1]), ops[n - 1])
  {
    hide Apply;
    assert ops[..n][..n - 1] == ops[..n - 1];
  }

  lemma SameShare(a: Bucket, b: Bucket, a': Bucket, b': Bucket, x: Op, y: Op)
    requires a'.capacity == a.capacity && a'.rate == a.rate && b'.capacity == b.capacity && b'.rate == b.rate
    ensures Heavier(a, Owed(a, x), b, Owed(b, y)) <==> Heavier(a', Owed(a', x), b', Owed(b', y))
  {
  }

  lemma WaitsLess(a: Bucket, b: Bucket)
    requires a.rate > 0.0 && b.rate > 0.0 && Ahead(b, a)
    ensures Wait(b) <= Wait(a)
  {
    var x, y := Wait(a), Wait(b);
    if b.tokens < 0.0 {
      assert y * b.rate == -b.tokens;
      assert a.tokens < 0.0 by {
        if a.tokens >= 0.0 {
          StrictlyPositive(-b.tokens, a.rate);
          if a.tokens > 0.0 { StrictlyPositive(a.tokens, b.rate); }
        }
      }
      assert x * a.rate == -a.tokens;
      var k := a.rate * b.rate;
      StrictlyPositive(a.rate, b.rate);
      assert y * k == -b.tokens * a.rate && x * k == -a.tokens * b.rate by {
        assert y * k == (y * b.rate) * a.rate;
        assert x * k == (x * a.rate) * b.rate;
      }
      Scale(y, x, k);
    } else {
      WaitCoversDebt(a, a.rate);
    }
  }

  /** If every request is at least as large a share of `a`, then `a` alone decides when requests pass. */
  lemma AdmittedByHeavier(a: Bucket, b: Bucket, xs: seq<Op>, ys: seq<Op>)
    requires Paired(a, b) && Ahead(b, a) && Ordered(a, xs) && Ordered(b, ys) && SameRequests(xs, ys)
    requires AllHeavier(a, xs, b, ys)
    ensures AdmittedAll(a, b, xs, ys) == CoveredAll(a, xs) == AdmittedAll(b, a, ys, xs)
  {
    forall i | 0 <= i < |xs| ensures Covered(b, ys, i) <= Covered(a, xs, i) {
      RunAhead(a, b, xs, ys, i + 1);
      AfterIsGood(a, xs[..i + 1]);
      WaitsLess(After(a, xs[..i + 1]), After(b, ys[..i + 1]));
    }
  }

  /** What bucket `b` counts in a window is no larger a share than what `a` counts. */
  lemma {:induction false} SharesIn(a: Bucket, b: Bucket, xs: seq<Op>, ys: seq<Op>, admitted: seq<real>, s: real, e: real, k: nat)
    requires k <= |xs| == |ys| == |admitted| && AllHeavier(a, xs, b, ys)
    ensures Heavier(a, ChargedIn(a, xs, admitted, s, e, k), b, ChargedIn(b, ys, admitted, s, e, k))
  {
    if k > 0 {
      SharesIn(a, b, xs, ys, admitted, s, e, k - 1);
      assert Heavier(a, Owed(a, xs[k - 1]), b, Owed(b, ys[k - 1]));
      SumHeavier(a, b, ChargedIn(a, xs, admitted, s, e, k - 1), Owed(a, xs[k - 1]),
                 ChargedIn(b, ys, admitted, s, e, k - 1), Owed(b, ys[k - 1]));
    }
  }

  lemma SumHeavier(a: Bucket, b: Bucket, x: real, dx: real, y: real, dy: real)
    requires Heavier(a, x, b, y) && Heavier(a, dx, b, dy)
    ensures Heavier(a, x + dx, b, y + dy)
  {
    assert (x + dx) * b.rate == x * b.rate + dx * b.rate && (y + dy) * a.rate == y * a.rate + dy * a.rate;
  }

  /** The rate promise of bucket `b` by the instants at which requests really pass. */
  ghost predicate Conforms(b: Bucket, ops: seq<Op>, admitted: seq<real>, s: real, e: real)
    requires |admitted| == |ops|
  {
    ChargedIn(b, ops, admitted, s, e, |ops|) <= b.capacity + Gain(e - s, b.rate)
  }

  /** Then both buckets keep their rate. */
  lemma BothConform(a: Bucket, b: Bucket, xs: seq<Op>, ys: seq<Op>, s: real, e: real)
    requires Paired(a, b) && Ahead(b, a) && Ordered(a, xs) && Ordered(b, ys) && SameRequests(xs, ys) && s <= e
    requires AllHeavier(a, xs, b, ys)
    ensures Conforms(a, xs, AdmittedAll(a, b, xs, ys), s, e) && Conforms(b, ys, AdmittedAll(a, b, xs, ys), s, e)
  {
    var admitted := AdmittedAll(a, b, xs, ys);
    AdmittedByHeavier(a, b, xs, ys);
    RateConformance(a, xs, s, e);
    SharesIn(a, b, xs, ys, admitted, s, e, |xs|);
    ShareOfBound(a, b, ChargedIn(a, xs, admitted, s, e, |xs|), ChargedIn(b, ys, admitted, s, e, |xs|), e - s);
  }

  lemma ShareOfBound(a: Bucket, b: Bucket, x: real, y: real, d: real)
    requires Paired(a, b) && Heavier(a, x, b, y) && x <= a.capacity + Gain(d, a.rate)
    ensures y <= b.capacity + Gain(d, b.rate)
  {
    var mine, his := a.capacity + Gain(d, a.rate), b.capacity + Gain(d, b.rate);
    Scale(x, mine, b.rate);
    assert mine * b.rate == (60.0 + d) * a.rate * b.rate;
    assert his * a.rate == (60.0 + d) * b.rate * a.rate;
    Products(60.0 + d, a.rate, b.rate);
    Scale(y, his, a.rate);
  }

  // ---- requests of two kinds at one instant -------------------------------------------------------------

  function Repeat(op: Op, n: nat): (r: seq<Op>)
    ensures |r| == n && forall i :: 0 <= i < n ==> r[i] == op
  {
    seq(n, _ => op)
  }

  /** `m` requests of one kind, then `j` of another, all at the instant `at`. */
  function Burst(at: real, x: real, m: nat, x': real, j: nat): (r: seq<Op>)
    ensures |r| == m + j
    ensures forall i :: 0 <= i < m + j ==> r[i] == Op(at, if i < m then x else x', true)
  {
    Repeat(Op(at, x, true), m) + Repeat(Op(at, x', true), j)
  }

  /** At one instant nothing is refilled: the balance is the capacity less all charges. */
  lemma {:induction false} BurstBalance(b: Bucket, ops: seq<Op>, n: nat)
    requires Good(b) && b.tokens == b.capacity && n <= |ops|
    requires forall i :: 0 <= i < |ops| ==> ops[i].at == b.last && ops[i].cost >= 0.0 && ops[i].kept
    ensures After(b, ops[..n]) == b.(tokens := b.capacity - Charged(b, ops, 0, n)) && Charged(b, ops, 0, n) >= 0.0
  {
    if n == 0 {
      assert ops[..0] == [];
    } else {
      BurstBalance(b, ops, n - 1);
      AfterOneMore(b, ops, n);
      ReserveAtOnce(After(b, ops[..n - 1]), ops[n - 1]);
      hide After;
    }
  }

  lemma ReserveAtOnce(b: Bucket, op: Op)
    requires Good(b) && op.at == b.last && op.kept
    ensures Apply(b, op) == b.(tokens := b.tokens - Charge(b, op.cost))
  {
  }

  lemma {:induction false} BurstCharged(b: Bucket, x: real, m: nat, x': real, j: nat, n: nat)
    requires 0.0 <= x <= b.capacity && 0.0 <= x' <= b.capacity && n <= m + j
    ensures Charged(b, Burst(b.last, x, m, x', j), 0, n)
         == if n <= m then Prod(n as real, x) else Prod(m as real, x) + Prod((n - m) as real, x')
  {
    if n > 0 {
      BurstCharged(b, x, m, x', j, n - 1);
      var ops := Burst(b.last, x, m, x', j);
      assert Owed(b, ops[n - 1]) == if n <= m then x else x';
    }
  }

  /** If all of `i..k` pass in the window, it counts at least what they are charged. */
  lemma {:induction false} ChargedInAtLeast(b: Bucket, ops: seq<Op>, admitted: seq<real>, s: real, e: real, i: nat, k: nat, n: nat)
    requires Good(b) && Ordered(b, ops) && i <= k <= n <= |ops| == |admitted|
    requires forall h :: i <= h < k ==> s <= admitted[h] <= e
    ensures ChargedIn(b, ops, admitted, s, e, n) >= Charged(b, ops, i, k)
  {
    if n > k {
      ChargedInAtLeast(b, ops, admitted, s, e, i, k, n - 1);
    } else if k > i {
      ChargedInAtLeast(b, ops, admitted, s, e, i, k - 1, n - 1);
    } else if n > 0 {
      ChargedInAtLeast(b, ops, admitted, s, e, n - 1, n - 1, n - 1);
    }
  }

  lemma {:induction false} ChargedAdds(b: Bucket, ops: seq<Op>, i: nat, k: nat)
    requires i <= k <= |ops|
    ensures Charged(b, ops, 0, k) == Charged(b, ops, 0, i) + Charged(b, ops, i, k)
  {
    if i < k {
      ChargedAdds(b, ops, i, k - 1);
    }
  }

  /** Enough steps to pass any amount. */
  lemma Enough(amount: real, step: real) returns (n: nat)
    requires step > 0.0 && amount >= 0.0
    ensures Prod(n as real, step) > amount && n >= 1
  {
    var x := amount / step;
    assert x * step == amount;
    assert x >= 0.0 by { if x < 0.0 { StrictlyPositive(-x, step); } }
    n := x.Floor + 1;
    assert x < n as real;
    ProdOrder(x, n as real, step);
  }

  /** A kind of request: what it is charged on the two buckets. */
  datatype Kind = Kind(x: real, y: real)

  predicate Fits(a: Bucket, b: Bucket, k: Kind) {
    0.0 <= k.x <= a.capacity && 0.0 <= k.y <= b.capacity
  }

  /** How much larger a share of `b` than of `a` a request is. */
  function Tilt(a: Bucket, b: Bucket, k: Kind): real {
    Prod(k.y, a.rate) - Prod(k.x, b.rate)
  }

  lemma TiltOf(a: Bucket, b: Bucket, k: Kind, n: nat)
    ensures Prod(n as real, Tilt(a, b, k)) == Prod(Prod(n as real, k.y), a.rate) - Prod(Prod(n as real, k.x), b.rate)
  {
    var r := n as real;
    assert r * (k.y * a.rate - k.x * b.rate) == r * (k.y * a.rate) - r * (k.x * b.rate);
  }

  lemma SameFill(a: Bucket, b: Bucket)
    requires Paired(a, b)
    ensures Prod(a.capacity, b.rate) == Prod(b.capacity, a.rate)
  {
    Products(60.0, a.rate, b.rate);
  }

  /** Two full buckets, and the requests of a burst as each sees them. */
  ghost predicate Bursting(a: Bucket, b: Bucket, u: Kind, v: Kind) {
    Paired(a, b) && a.tokens == a.capacity && b.tokens == b.capacity && Fits(a, b, u) && Fits(a, b, v)
  }

  function OnA(a: Bucket, u: Kind, m: nat, v: Kind, j: nat): seq<Op> {
    Burst(a.last, u.x, m, v.x, j)
  }

  function OnB(b: Bucket, u: Kind, m: nat, v: Kind, j: nat): seq<Op> {
    Burst(b.last, u.y, m, v.y, j)
  }

  lemma BurstGood(a: Bucket, b: Bucket, u: Kind, m: nat, v: Kind, j: nat)
    requires Bursting(a, b, u, v)
    ensures Ordered(a, OnA(a, u, m, v, j)) && Ordered(b, OnB(b, u, m, v, j))
    ensures SameRequests(OnA(a, u, m, v, j), OnB(b, u, m, v, j))
    ensures |OnA(a, u, m, v, j)| == |OnB(b, u, m, v, j)| == m + j
  {
  }

  /** While the requests so far weigh more on `b`, it is `b` that decides when they pass. */
  lemma BurstPasses(a: Bucket, b: Bucket, u: Kind, m: nat, v: Kind, j: nat, n: nat)
    requires Bursting(a, b, u, v) && 0 < n <= m + j
    requires Prod(Charged(b, OnB(b, u, m, v, j), 0, n), a.rate) >= Prod(Charged(a, OnA(a, u, m, v, j), 0, n), b.rate)
    requires Charged(b, OnB(b, u, m, v, j), 0, n) >= b.capacity
    ensures var y := Charged(b, OnB(b, u, m, v, j), 0, n);
            Prod(AdmittedAt(a, b, OnA(a, u, m, v, j), OnB(b, u, m, v, j), n - 1) - a.last, b.rate) == y - b.capacity
  {
    hide Prod, Charged, After, OnA, OnB, AdmittedAt;
    var xs, ys := OnA(a, u, m, v, j), OnB(b, u, m, v, j);
    BurstAfter(a, b, u, m, v, j, n);
    WaitsOnB(a, b, Charged(a, xs, 0, n), Charged(b, ys, 0, n));
    AfterLast(a, b, xs, ys, n);
  }

  lemma BurstAfter(a: Bucket, b: Bucket, u: Kind, m: nat, v: Kind, j: nat, n: nat)
    requires Bursting(a, b, u, v) && 0 < n <= m + j
    ensures var xs, ys := OnA(a, u, m, v, j), OnB(b, u, m, v, j);
      && |xs| == |ys| == m + j && xs[n - 1].at == ys[n - 1].at == a.last
      && After(a, xs[..n]) == a.(tokens := a.capacity - Charged(a, xs, 0, n))
      && After(b, ys[..n]) == b.(tokens := b.capacity - Charged(b, ys, 0, n))
  {
    BurstAtOnce(a, u.x, m, v.x, j);
    BurstAtOnce(b, u.y, m, v.y, j);
    hide Burst, Charged, After;
    BurstBalance(a, OnA(a, u, m, v, j), n);
    BurstBalance(b, OnB(b, u, m, v, j), n);
  }

  lemma WaitsOnB(a: Bucket, b: Bucket, x: real, y: real)
    requires Paired(a, b) && Prod(y, a.rate) >= Prod(x, b.rate) && y >= b.capacity
    ensures var a', b' := a.(tokens := a.capacity - x), b.(tokens := b.capacity - y);
            Wait(a') <= Wait(b') && Prod(Wait(b'), b.rate) == y - b.capacity
  {
    var a', b' := a.(tokens := a.capacity - x), b.(tokens := b.capacity - y);
    SameFill(a, b);
    ProdAdd(a.capacity, x, b.rate);
    ProdAdd(b.capacity, y, a.rate);
    hide Prod, Wait;
    ShareAhead(a', b');
    hide Ahead;
    WaitsLess(b', a');
    WaitOf(b');
  }

  lemma AfterLast(a: Bucket, b: Bucket, xs: seq<Op>, ys: seq<Op>, n: nat)
    requires a.rate > 0.0 && b.rate > 0.0 && 0 < n <= |xs| == |ys| && xs[n - 1].at == ys[n - 1].at == a.last
    requires Wait(After(a, xs[..n])) <= Wait(After(b, ys[..n]))
    ensures AdmittedAt(a, b, xs, ys, n - 1) - a.last == Wait(After(b, ys[..n]))
  {
    hide Wait, After;
  }

  lemma ShareAhead(a: Bucket, b: Bucket)
    requires Prod(a.tokens, b.rate) >= Prod(b.tokens, a.rate)
    ensures Ahead(a, b)
  {
  }

  lemma BurstAtOnce(b: Bucket, x: real, m: nat, x': real, j: nat)
    requires x >= 0.0 && x' >= 0.0
    ensures var ops := Burst(b.last, x, m, x', j);
            forall i :: 0 <= i < |ops| ==> ops[i].at == b.last && ops[i].cost >= 0.0 && ops[i].kept
  {
  }

  lemma WaitOf(b: Bucket)
    requires b.rate > 0.0 && b.tokens <= 0.0
    ensures Prod(Wait(b), b.rate) == -b.tokens
  {
  }

  lemma PositiveShare(a: Bucket, b: Bucket, u: Kind)
    requires Paired(a, b) && Fits(a, b, u) && Tilt(a, b, u) > 0.0
    ensures u.y > 0.0
  {
    ProdSign(u.x, b.rate);
  }

  /** How many of the two kinds it takes. */
  ghost predicate Enoughs(a: Bucket, b: Bucket, u: Kind, v: Kind, m: nat, j: nat) {
    && m >= 1 && j >= 1 && Prod(j as real, -Tilt(a, b, v)) > Prod(a.capacity - u.x, b.rate)
    && Prod(m as real, Tilt(a, b, u)) > Prod(j as real, -Tilt(a, b, v)) && Prod(m as real, u.y) > b.capacity
  }

  lemma BurstSizes(a: Bucket, b: Bucket, u: Kind, v: Kind) returns (m: nat, j: nat)
    requires Bursting(a, b, u, v) && Tilt(a, b, u) > 0.0 > Tilt(a, b, v)
    ensures Enoughs(a, b, u, v, m, j)
  {
    PositiveShare(a, b, u);
    hide Prod, Tilt;
    ProdSign(a.capacity - u.x, b.rate);
    j := Enough(Prod(a.capacity - u.x, b.rate), -Tilt(a, b, v));
    var tilts := Enough(Prod(j as real, -Tilt(a, b, v)), Tilt(a, b, u));
    var fills := Enough(b.capacity, u.y);
    m := tilts + fills;
    ProdOrder(tilts as real, m as real, Tilt(a, b, u));
    ProdOrder(fills as real, m as real, u.y);
  }

  /** What the two buckets are charged after the first kind, and after both. */
  lemma BurstShares(a: Bucket, b: Bucket, u: Kind, v: Kind, m: nat, j: nat)
    requires Bursting(a, b, u, v) && Enoughs(a, b, u, v, m, j) && Tilt(a, b, u) > 0.0 > Tilt(a, b, v)
    ensures var xs, ys := OnA(a, u, m, v, j), OnB(b, u, m, v, j);
      && |xs| == |ys| == m + j
      && Prod(Charged(b, ys, 0, m), a.rate) >= Prod(Charged(a, xs, 0, m), b.rate)
      && Prod(Charged(b, ys, 0, m + j), a.rate) >= Prod(Charged(a, xs, 0, m + j), b.rate)
      && b.capacity <= Charged(b, ys, 0, m) <= Charged(b, ys, 0, m + j)
      && Charged(b, ys, 0, m + j) == Charged(b, ys, 0, m) + Prod(j as real, v.y)
  {
    hide Prod, Charged, Tilt, Burst;
    BurstGood(a, b, u, m, v, j);
    BurstCharged(a, u.x, m, v.x, j, m);
    BurstCharged(a, u.x, m, v.x, j, m + j);
    BurstCharged(b, u.y, m, v.y, j, m);
    BurstCharged(b, u.y, m, v.y, j, m + j);
    TiltOf(a, b, u, m);
    TiltOf(a, b, v, j);
    Negated(j as real, Tilt(a, b, v));
    ProdSign(j as real, -Tilt(a, b, v));
    ProdSign(j as real, v.y);
    ProdAdd(Prod(m as real, u.y), Prod(j as real, v.y), a.rate);
    ProdAdd(Prod(m as real, u.x), Prod(j as real, v.x), b.rate);
  }

  lemma Negated(x: real, y: real)
    ensures Prod(x, -y) == -Prod(x, y)
  {
  }

  /** The charges on `a` from the last request of the first kind on. */
  lemma BurstWindow(a: Bucket, x: real, m: nat, x': real, j: nat)
    requires 0.0 <= x <= a.capacity && 0.0 <= x' <= a.capacity && m >= 1
    ensures Charged(a, Burst(a.last, x, m, x', j), m - 1, m + j) == x + Prod(j as real, x')
  {
    var ops := Burst(a.last, x, m, x', j);
    ChargedAdds(a, ops, m - 1, m + j);
    BurstCharged(a, x, m, x', j, m - 1);
    BurstCharged(a, x, m, x', j, m + j);
    hide Charged, Burst;
    assert (m - 1) as real == m as real - 1.0;
    ProdAdd(m as real, 1.0, x);
    assert Prod(1.0, x) == x;
    hide Prod;
  }

  lemma OverRate(a: Bucket, b: Bucket, u: Kind, v: Kind, m: nat, j: nat, d: real)
    requires Bursting(a, b, u, v) && Enoughs(a, b, u, v, m, j) && Prod(d, b.rate) == Prod(j as real, v.y)
    ensures u.x + Prod(j as real, v.x) > a.capacity + Gain(d, a.rate)
  {
    GainIsProd(d, a.rate);
    hide Prod, Tilt, Gain;
    TiltOf(a, b, v, j);
    Negated(j as real, Tilt(a, b, v));
    var mine, bound := u.x + Prod(j as real, v.x), a.capacity + Prod(d, a.rate);
    ProdAdd(u.x, Prod(j as real, v.x), b.rate);
    ProdAdd(a.capacity, Prod(d, a.rate), b.rate);
    ProdAdd(a.capacity, u.x, b.rate);
    ProdSwap(d, a.rate, b.rate);
    ProdOrder(bound, mine, b.rate);
  }

  lemma GainIsProd(d: real, rate: real)
    ensures Gain(d, rate) == Prod(d, rate)
  {
  }

  /** Enough requests that weigh more on `b`, followed by enough that weigh more on `a`: in the window from
      the last of the former to the last of the latter bucket `a` is over its rate. */
  lemma BurstBreaks(a: Bucket, b: Bucket, u: Kind, v: Kind) returns (m: nat, j: nat, s: real, e: real)
    requires Bursting(a, b, u, v) && Tilt(a, b, u) > 0.0 > Tilt(a, b, v)
    ensures var xs, ys := OnA(a, u, m, v, j), OnB(b, u, m, v, j);
            |xs| == |ys| && s <= e && !Conforms(a, xs, AdmittedAll(a, b, xs, ys), s, e)
  {
    hide Tilt, Prod, Charged, OnA, OnB, AdmittedAt, ChargedIn, Gain, Ordered, SameRequests, Fits;
    m, j := BurstSizes(a, b, u, v);
    var xs, ys := OnA(a, u, m, v, j), OnB(b, u, m, v, j);
    BurstGood(a, b, u, m, v, j);
    BurstShares(a, b, u, v, m, j);
    BurstPasses(a, b, u, m, v, j, m);
    BurstPasses(a, b, u, m, v, j, m + j);
    s, e := AdmittedAt(a, b, xs, ys, m - 1), AdmittedAt(a, b, xs, ys, m + j - 1);
    ProdAdd(e - a.last, s - a.last, b.rate);
    assert (e - a.last) - (s - a.last) == e - s;
    BurstCounts(a, b, u, m, v, j, s, e);
    OverRate(a, b, u, v, m, j, e - s);
  }

  lemma BurstCounts(a: Bucket, b: Bucket, u: Kind, m: nat, v: Kind, j: nat, s: real, e: real)
    requires Bursting(a, b, u, v) && m >= 1
    requires |OnA(a, u, m, v, j)| == |OnB(b, u, m, v, j)| == m + j
    requires s == AdmittedAt(a, b, OnA(a, u, m, v, j), OnB(b, u, m, v, j), m - 1)
    requires e == AdmittedAt(a, b, OnA(a, u, m, v, j), OnB(b, u, m, v, j), m + j - 1)
    ensures var xs, ys := OnA(a, u, m, v, j), OnB(b, u, m, v, j);
            s <= e && ChargedIn(a, xs, AdmittedAll(a, b, xs, ys), s, e, m + j) >= u.x + Prod(j as real, v.x)
  {
    hide OnA, OnB, Prod, AdmittedAt, ChargedIn, Charged, Ordered, SameRequests;
    var xs, ys := OnA(a, u, m, v, j), OnB(b, u, m, v, j);
    BurstGood(a, b, u, m, v, j);
    BurstTail(a, b, u, m, v, j);
    InWindow(a, b, xs, ys, m - 1, s, e);
  }

  lemma BurstTail(a: Bucket, b: Bucket, u: Kind, m: nat, v: Kind, j: nat)
    requires Bursting(a, b, u, v) && m >= 1
    ensures var xs, ys := OnA(a, u, m, v, j), OnB(b, u, m, v, j);
      && |xs| == m + j && Charged(a, xs, m - 1, m + j) == u.x + Prod(j as real, v.x)
      && forall i :: 0 <= i < m + j ==> xs[i].kept
  {
    BurstWindow(a, u.x, m, v.x, j);
    hide Charged, Prod;
  }

  /** From the instant request `i` passes to that of the last one, at least all from `i` on are counted. */
  lemma InWindow(a: Bucket, b: Bucket, xs: seq<Op>, ys: seq<Op>, i: nat, s: real, e: real)
    requires Good(a) && Good(b) && Ordered(a, xs) && Ordered(b, ys) && SameRequests(xs, ys) && i < |xs|
    requires forall h :: 0 <= h < |xs| ==> xs[h].kept
    requires s == AdmittedAt(a, b, xs, ys, i) && e == AdmittedAt(a, b, xs, ys, |xs| - 1)
    ensures s <= e && ChargedIn(a, xs, AdmittedAll(a, b, xs, ys), s, e, |xs|) >= Charged(a, xs, i, |xs|)
  {
    hide AdmittedAt, ChargedIn, Charged, Ordered;
    var admitted := AdmittedAll(a, b, xs, ys);
    AdmittedInOrder(a, b, xs, ys, i, |xs| - 1);
    forall h | i <= h < |xs| ensures s <= admitted[h] <= e {
      AdmittedInOrder(a, b, xs, ys, i, h);
      AdmittedInOrder(a, b, xs, ys, h, |xs| - 1);
    }
    ChargedInAtLeast(a, xs, admitted, s, e, i, |xs|, |xs|);
  }

  // ---- exactly which request sizes keep the rates ----------------------------------------------------------

  /** A full bucket of `perMinute`, as the limiter makes it. */
  function PerMinute(perMinute: nat, start: real): Bucket {
    Bucket(perMinute as real, perMinute as real / 60.0, perMinute as real, start)
  }

  lemma FullPair(requests: nat, tokens: nat, start: real)
    requires requests >= 1 && tokens >= 1
    ensures Paired(PerMinute(requests, start), PerMinute(tokens, start))
    ensures Ahead(PerMinute(requests, start), PerMinute(tokens, start))
    ensures Ahead(PerMinute(tokens, start), PerMinute(requests, start))
  {
  }

  /** Requests as the two buckets of a provider see them: each counts one, and costs from `lo` to `hi`
      tokens once clamped to the bucket; the kept ones were admitted, the others rejected. */
  ghost predicate Traffic(requests: nat, tokens: nat, lo: real, hi: real, start: real, xs: seq<Op>, ys: seq<Op>)
    requires requests >= 1 && tokens >= 1
  {
    var a, b := PerMinute(requests, start), PerMinute(tokens, start);
    && Ordered(a, xs) && Ordered(b, ys) && SameRequests(xs, ys)
    && forall i :: 0 <= i < |xs| ==> xs[i].cost == 1.0 && lo <= Charge(b, ys[i].cost) <= hi
  }

  /** Both buckets keep their rate by the instants at which requests pass, in every window of every run. */
  ghost predicate RequestsConform(requests: nat, tokens: nat, lo: real, hi: real, start: real)
    requires requests >= 1 && tokens >= 1
  {
    var a, b := PerMinute(requests, start), PerMinute(tokens, start);
    forall xs: seq<Op>, ys: seq<Op>, s: real, e: real ::
      Traffic(requests, tokens, lo, hi, start, xs, ys) && s <= e ==> Conforms(a, xs, AdmittedAll(a, b, xs, ys), s, e)
  }

  ghost predicate TokensConform(requests: nat, tokens: nat, lo: real, hi: real, start: real)
    requires requests >= 1 && tokens >= 1
  {
    var a, b := PerMinute(requests, start), PerMinute(tokens, start);
    forall xs: seq<Op>, ys: seq<Op>, s: real, e: real ::
      Traffic(requests, tokens, lo, hi, start, xs, ys) && s <= e ==> Conforms(b, ys, AdmittedAll(a, b, xs, ys), s, e)
  }

  /** No request is a larger share of the token rate than of the request rate, or none is a smaller one. */
  predicate OneSided(requests: nat, tokens: nat, lo: real, hi: real) {
    hi * requests as real <= tokens as real || lo * requests as real >= tokens as real
  }

  lemma RateShare(c: real, n: nat, m: nat)
    ensures c * (n as real / 60.0) <= 1.0 * (m as real / 60.0) <==> c * n as real <= m as real
    ensures c * (n as real / 60.0) >= 1.0 * (m as real / 60.0) <==> c * n as real >= m as real
  {
    assert c * (n as real / 60.0) == (c * n as real) / 60.0;
  }

  lemma CostOrder(c: real, d: real, n: nat)
    requires c <= d && n >= 1
    ensures c * n as real <= d * n as real
  {
    Scale(c, d, n as real);
  }

  lemma TrafficHeavier(requests: nat, tokens: nat, lo: real, hi: real, start: real, xs: seq<Op>, ys: seq<Op>)
    requires requests >= 1 && tokens >= 1 && Traffic(requests, tokens, lo, hi, start, xs, ys)
    ensures var a, b := PerMinute(requests, start), PerMinute(tokens, start);
      && (hi * requests as real <= tokens as real ==> AllHeavier(a, xs, b, ys))
      && (lo * requests as real >= tokens as real ==> AllHeavier(b, ys, a, xs))
  {
    var a, b := PerMinute(requests, start), PerMinute(tokens, start);
    forall i | 0 <= i < |xs|
      ensures hi * requests as real <= tokens as real ==> Heavier(a, Owed(a, xs[i]), b, Owed(b, ys[i]))
      ensures lo * requests as real >= tokens as real ==> Heavier(b, Owed(b, ys[i]), a, Owed(a, xs[i]))
    {
      var c := Charge(b, ys[i].cost);
      CostOrder(c, hi, requests);
      CostOrder(lo, c, requests);
      RateShare(c, requests, tokens);
    }
  }

  lemma OneSidedConforms(requests: nat, tokens: nat, lo: real, hi: real, start: real)
    requires requests >= 1 && tokens >= 1 && OneSided(requests, tokens, lo, hi)
    ensures RequestsConform(requests, tokens, lo, hi, start) && TokensConform(requests, tokens, lo, hi, start)
  {
    var a, b := PerMinute(requests, start), PerMinute(tokens, start);
    FullPair(requests, tokens, start);
    forall xs: seq<Op>, ys: seq<Op>, s: real, e: real | Traffic(requests, tokens, lo, hi, start, xs, ys) && s <= e
      ensures Conforms(a, xs, AdmittedAll(a, b, xs, ys), s, e) && Conforms(b, ys, AdmittedAll(a, b, xs, ys), s, e)
    {
      TrafficHeavier(requests, tokens, lo, hi, start, xs, ys);
      hide Conforms, AllHeavier, Ahead, Paired;
      if hi * requests as real <= tokens as real {
        BothConform(a, b, xs, ys, s, e);
      } else {
        BothConform(b, a, ys, xs, s, e);
        AdmittedByHeavier(b, a, ys, xs);
      }
    }
  }

  /** Costs on both sides of the balance: dear requests followed by cheap ones break the request rate, and
      cheap ones followed by dear ones the token rate. */
  lemma TwoSidedBreaks(requests: nat, tokens: nat, lo: real, hi: real, start: real)
    requires requests >= 1 && tokens >= 1 && 0.0 <= lo <= hi <= tokens as real && !OneSided(requests, tokens, lo, hi)
    ensures !RequestsConform(requests, tokens, lo, hi, start) && !TokensConform(requests, tokens, lo, hi, start)
  {
    var a, b := PerMinute(requests, start), PerMinute(tokens, start);
    FullPair(requests, tokens, start);
    FullPair(tokens, requests, start);
    RateShare(hi, requests, tokens);
    RateShare(lo, requests, tokens);
    var dear, cheap := Kind(1.0, hi), Kind(1.0, lo);
    var m, j, s, e := BurstBreaks(a, b, dear, cheap);
    BurstTraffic(requests, tokens, lo, hi, start, dear, m, cheap, j);
    var cheap', dear' := Kind(lo, 1.0), Kind(hi, 1.0);
    var m', j', s', e' := BurstBreaks(b, a, cheap', dear');
    BurstTraffic(requests, tokens, lo, hi, start, cheap, m', dear, j');
    SameEitherWay(a, b, OnA(a, cheap, m', dear, j'), OnB(b, cheap, m', dear, j'));
    hide Conforms, Burst, Traffic;
    assert OnA(b, cheap', m', dear', j') == OnB(b, cheap, m', dear, j');
    assert OnB(a, cheap', m', dear', j') == OnA(a, cheap, m', dear, j');
  }

  lemma SameEitherWay(a: Bucket, b: Bucket, xs: seq<Op>, ys: seq<Op>)
    requires |xs| == |ys| && a.rate > 0.0 && b.rate > 0.0
    ensures AdmittedAll(a, b, xs, ys) == AdmittedAll(b, a, ys, xs)
  {
    hide Covered;
  }

  lemma BurstTraffic(requests: nat, tokens: nat, lo: real, hi: real, start: real, u: Kind, m: nat, v: Kind, j: nat)
    requires requests >= 1 && tokens >= 1 && 0.0 <= lo <= hi <= tokens as real
    requires u.x == v.x == 1.0 && lo <= u.y <= hi && lo <= v.y <= hi
    ensures var a, b := PerMinute(requests, start), PerMinute(tokens, start);
            Traffic(requests, tokens, lo, hi, start, OnA(a, u, m, v, j), OnB(b, u, m, v, j))
  {
  }

  /** The exact condition, known from the configuration and the costs requests can have: with costs from `lo`
      to `hi` tokens each of the two rates is kept by the instants at which requests pass, in every window of
      every run, if and only if costs lie on one side of the balance of the two rates. */
  lemma ConformIff(requests: nat, tokens: nat, lo: real, hi: real, start: real)
    requires requests >= 1 && tokens >= 1 && 0.0 <= lo <= hi <= tokens as real
    ensures RequestsConform(requests, tokens, lo, hi, start) <==> OneSided(requests, tokens, lo, hi)
    ensures TokensConform(requests, tokens, lo, hi, start) <==> OneSided(requests, tokens, lo, hi)
  {
    hide RequestsConform, TokensConform, OneSided;
    if OneSided(requests, tokens, lo, hi) {
      OneSidedConforms(requests, tokens, lo, hi, start);
    } else {
      TwoSidedBreaks(requests, tokens, lo, hi, start);
    }
  }
}
