/** The per-provider limiter: reservation token buckets, concurrency slots, and how far the
    admissions of a run conform to the configured rates. Times are seconds, amounts exact. */
module Limiter {
  import opened Common

  datatype Bucket = Bucket(capacity: real, rate: real, tokens: real, last: real)

  ghost predicate Good(b: Bucket) {
    b.capacity > 0.0 && b.rate > 0.0 && b.tokens <= b.capacity
  }

  function Refill(b: Bucket, now: real): Bucket {
    b.(tokens := Min(b.capacity, b.tokens + (now - b.last) * b.rate), last := now)
  }

  /** Charges are clamped to the capacity, so no request waits forever. */
  function Charge(b: Bucket, n: real): real { Min(n, b.capacity) }

  function Reserve(b: Bucket, n: real, now: real): Bucket {
    var r := Refill(b, now);
    r.(tokens := r.tokens - Charge(b, n))
  }

  function Wait(b: Bucket): real
    requires b.rate > 0.0
  {
    if b.tokens >= 0.0 then 0.0 else -b.tokens / b.rate
  }

  function Refund(b: Bucket, n: real): Bucket {
    b.(tokens := Min(b.capacity, b.tokens + Charge(b, n)))
  }

  /** Undoing a reservation at the instant it was made leaves exactly the refilled bucket. */
  lemma RefundUndoesReserve(b: Bucket, n: real, now: real)
    requires Good(b) && n >= 0.0
    ensures Refund(Reserve(b, n, now), n) == Refill(b, now)
  {
  }

  // ----- The classes --------------------------------------------------------------------

  class TokenBucket {
    const capacity: real
    const rate: real
    var tokens: real
    var last: real

    function Value(): Bucket
      reads this
    {
      Bucket(capacity, rate, tokens, last)
    }

    constructor (capacity: real, rate: real, now: real)
      ensures Value() == Bucket(capacity, rate, capacity, now)
    {
      this.capacity, this.rate := capacity, rate;
      tokens, last := capacity, now;
    }

    method RefillNow(now: real)
      modifies this
      ensures Value() == Refill(old(Value()), now)
    {
      var elapsed := now - last;
      tokens := Min(capacity, tokens + elapsed * rate);
      last := now;
    }

    method TakeReservation(n: real, now: real) returns (wait: real)
      requires Value().rate > 0.0
      modifies this
      ensures Value() == Reserve(old(Value()), n, now) && wait == Wait(Value())
    {
      RefillNow(now);
      tokens := tokens - Min(n, capacity);
      if tokens >= 0.0 {
        return 0.0;
      }
      return -tokens / rate;
    }

    method GiveBack(n: real)
      modifies this
      ensures Value() == Refund(old(Value()), n)
    {
      tokens := Min(capacity, tokens + Min(n, capacity));
    }
  }

  /** `Rejected` carries the retry-after hint; `Interrupted` is a waiter that was cancelled. */
  datatype Outcome = Admitted(at: real) | Rejected(retryAfter: Option<real>) | Interrupted

  /** How long both buckets together make a request of `n` tokens wait that reserves at `now`. */
  function RateWait(a: Bucket, b: Bucket, n: real, now: real): real
    requires a.rate > 0.0 && b.rate > 0.0
  {
    Max(Wait(Reserve(a, 1.0, now)), Wait(Reserve(b, n, now)))
  }

  /** That wait covers both debts, and no more than the later one. */
  lemma RateWaitCoversBoth(a: Bucket, b: Bucket, n: real, now: real)
    requires a.rate > 0.0 && b.rate > 0.0
    ensures var w, x, y := RateWait(a, b, n, now), Wait(Reserve(a, 1.0, now)), Wait(Reserve(b, n, now));
      w >= x && w >= y && (w == x || w == y)
  {
  }

  /** With a slot at `slotAt`, `wait` more would take longer than the caller, waiting since `started`, allows. */
  predicate WaitTooLong(wait: real, maxWait: Option<real>, started: real, slotAt: real) {
    maxWait.Some? && wait > Max(0.0, maxWait.value - (slotAt - started))
  }

  class ProviderLimiter {
    const concurrent: nat
    const requests: TokenBucket
    const amounts: TokenBucket
    var free: nat
    var active: nat
    var total: nat
    var rejected: nat

    ghost predicate Valid()
      reads this, requests, amounts
    {
      && requests != amounts
      && Good(requests.Value()) && Good(amounts.Value())
      && free + active <= concurrent
    }

    constructor (perMinute: nat, tokensPerMinute: nat, concurrent: nat, now: real)
      requires perMinute >= 1 && tokensPerMinute >= 1 && concurrent >= 1
      ensures Valid() && fresh(requests) && fresh(amounts)
      ensures this.concurrent == concurrent && free == concurrent && active == total == rejected == 0
      ensures requests.Value() == Bucket(perMinute as real, perMinute as real / 60.0, perMinute as real, now)
      ensures amounts.Value() == Bucket(tokensPerMinute as real, tokensPerMinute as real / 60.0, tokensPerMinute as real, now)
    {
      this.concurrent := concurrent;
      requests := new TokenBucket(perMinute as real, perMinute as real / 60.0, now);
      amounts := new TokenBucket(tokensPerMinute as real, tokensPerMinute as real / 60.0, now);
      free, active, total, rejected := concurrent, 0, 0, 0;
    }

    /** `acquire`, called at `started`. The environment says when a slot came free (`slotAt`, none if
        the wait for one timed out) and whether the rate wait is cancelled. */
    method Acquire(started: real, slotAt: Option<real>, n: real, maxWait: Option<real>, cancelled: bool)
      returns (r: Outcome)
      requires Valid() && n >= 0.0 && (slotAt.Some? ==> free > 0)
      modifies this, requests, amounts
      ensures Valid()
      ensures slotAt.Some? ==>
        && requests.Value() == Apply(old(requests.Value()), Op(slotAt.value, 1.0, r.Admitted?))
        && amounts.Value() == Apply(old(amounts.Value()), Op(slotAt.value, n, r.Admitted?))
      ensures slotAt.None? ==> requests.Value() == old(requests.Value()) && amounts.Value() == old(amounts.Value())
      ensures r.Admitted? ==>
        && slotAt.Some? && free == old(free) - 1 && active == old(active) + 1
        && total == old(total) + 1 && rejected == old(rejected)
        && r.at == Max(slotAt.value + Wait(requests.Value()), slotAt.value + Wait(amounts.Value()))
        && (maxWait.Some? ==> r.at <= Max(slotAt.value, started + maxWait.value))
      ensures !r.Admitted? ==> free == old(free) && active == old(active) && total == old(total)
      ensures r.Rejected? ==> rejected == old(rejected) + 1
      ensures slotAt.None? ==> r == Rejected(None)
      ensures slotAt.Some? ==>
        var wait := RateWait(old(requests.Value()), old(amounts.Value()), n, slotAt.value);
        var tooLong := WaitTooLong(wait, maxWait, started, slotAt.value);
        && (r.Rejected? <==> tooLong) && (r.Rejected? ==> r.retryAfter == Some(wait))
        && (r.Interrupted? <==> !tooLong && wait > 0.0 && cancelled)
    {
      if slotAt.None? {
        rejected := rejected + 1;
        return Rejected(None);
      }
      free := free - 1;
      var now := slotAt.value;
      var reqWait := requests.TakeReservation(1.0, now);
      var tokWait := amounts.TakeReservation(n, now);
      var wait := Max(reqWait, tokWait);
      if maxWait.Some? && wait > Max(0.0, maxWait.value - (now - started)) {
        rejected := rejected + 1;
        ReturnEverything(n);
        return Rejected(Some(wait));
      }
      if wait > 0.0 && cancelled {
        ReturnEverything(n);
        return Interrupted;
      }
      active := active + 1;
      total := total + 1;
      return Admitted(now + wait);
    }

    /** The failure path: refund both reservations, then the slot. */
    method ReturnEverything(n: real)
      modifies this`free, requests, amounts
      requires requests != amounts
      ensures free == old(free) + 1
      ensures requests.Value() == Refund(old(requests.Value()), 1.0)
      ensures amounts.Value() == Refund(old(amounts.Value()), n)
    {
      requests.GiveBack(1.0);
      amounts.GiveBack(n);
      free := free + 1;
    }

    /** Returns a slot only while one is held, so the pool never outgrows its configured size. */
    method Release()
      requires Valid()
      modifies this
      ensures Valid()
      ensures if old(active) > 0 then active == old(active) - 1 && free == old(free) + 1
              else active == old(active) && free == old(free)
    {
      if active > 0 {
        active := active - 1;
        free := free + 1;
      }
    }
  }

  // ----- One bucket over a run ----------------------------------------------------------

  /** One `acquire` as one bucket sees it; a rejected one is not `kept`. */
  datatype Op = Op(at: real, cost: real, kept: bool)

  function Apply(b: Bucket, op: Op): Bucket {
    if op.kept then Reserve(b, op.cost, op.at) else Refill(b, op.at)
  }

  function After(b: Bucket, ops: seq<Op>): (r: Bucket)
    ensures r.capacity == b.capacity && r.rate == b.rate
  {
    if ops == [] then b else Apply(After(b, ops[..|ops| - 1]), ops[|ops| - 1])
  }

  ghost predicate Ordered(b: Bucket, ops: seq<Op>) {
    && (forall i :: 0 <= i < |ops| ==> b.last <= ops[i].at && ops[i].cost >= 0.0)
    && (forall i, j :: 0 <= i < j < |ops| ==> ops[i].at <= ops[j].at)
  }

  lemma {:induction false} AfterIsGood(b: Bucket, ops: seq<Op>)
    requires Good(b) && Ordered(b, ops)
    ensures Good(After(b, ops)) && After(b, ops).last == (if ops == [] then b.last else ops[|ops| - 1].at)
  {
    if ops != [] {
      AfterIsGood(b, ops[..|ops| - 1]);
    }
  }

  function Owed(b: Bucket, op: Op): real {
    if op.kept then Charge(b, op.cost) else 0.0
  }

  /** What the operations `i..j` charged. */
  function Charged(b: Bucket, ops: seq<Op>, i: nat, j: nat): real
    requires i <= j <= |ops|
  {
    if i == j then 0.0 else Charged(b, ops, i, j - 1) + Owed(b, ops[j - 1])
  }

  /** The instant at which this bucket has covered reservation `i`. */
  function Covered(b: Bucket, ops: seq<Op>, i: nat): real
    requires i < |ops| && b.rate > 0.0
  {
    ops[i].at + Wait(After(b, ops[..i + 1]))
  }

  /** What `d` seconds of refill at `rate` bring. */
  function Gain(d: real, rate: real): real {
    d * rate
  }

  /** The balance a bucket refilled at `rate` would show at `x` if nothing were capped. */
  function Balance(b: Bucket, rate: real, x: real): real {
    b.tokens + Gain(x - b.last, rate)
  }

  lemma BalanceGrows(b: Bucket, rate: real, x: real, y: real)
    ensures Balance(b, rate, y) == Balance(b, rate, x) + Gain(y - x, rate)
  {
  }

  lemma BalanceRises(b: Bucket, rate: real, x: real, y: real)
    requires x < y && rate > 0.0
    ensures Balance(b, rate, x) < Balance(b, rate, y)
  {
    StrictlyPositive(y - x, rate);
  }

  lemma StrictlyPositive(x: real, y: real)
    requires x > 0.0 && y > 0.0
    ensures x * y > 0.0
  {
  }

  lemma WaitCoversDebt(b: Bucket, rate: real)
    requires b.rate == rate > 0.0
    ensures Wait(b) >= 0.0 && Balance(b, rate, b.last + Wait(b)) == Max(0.0, b.tokens)
  {
    var w := Wait(b);
    if b.tokens < 0.0 {
      assert w * b.rate == -b.tokens;
      assert w >= 0.0 by {
        if w < 0.0 { StrictlyPositive(-w, b.rate); }
      }
    }
  }

  /** Every operation lowers the balance at any instant by at least what it charges. */
  lemma BalanceDrops(b: Bucket, rate: real, op: Op, x: real)
    requires Good(b) && b.rate == rate && b.last <= op.at
    ensures Balance(Apply(b, op), rate, x) <= Balance(b, rate, x) - Owed(b, op)
  {
    BalanceGrows(b, rate, op.at, x);
    var r := Refill(b, op.at);
    assert r.tokens <= Balance(b, rate, op.at);
  }

  lemma {:induction false} BalanceOverRun(b: Bucket, ops: seq<Op>, i: nat, j: nat, x: real)
    requires Good(b) && Ordered(b, ops) && i <= j <= |ops|
    ensures Balance(After(b, ops[..j]), b.rate, x) <= Balance(After(b, ops[..i]), b.rate, x) - Charged(b, ops, i, j)
  {
    if i < j {
      BalanceOverRun(b, ops, i, j - 1, x);
      AfterIsGood(b, ops[..j - 1]);
      assert ops[..j][..j - 1] == ops[..j - 1];
      BalanceDrops(After(b, ops[..j - 1]), b.rate, ops[j - 1], x);
    }
  }

  /** At instant `x` the bucket has just covered reservation `i`: it is not in debt, it had room for
      the charge, and if the request had to wait the debt is exactly paid. */
  ghost predicate CoveredBy(b: Bucket, ops: seq<Op>, i: nat, x: real)
    requires i < |ops|
  {
    var balance := Balance(After(b, ops[..i + 1]), b.rate, x);
    && ops[i].at <= x && 0.0 <= balance <= b.capacity - Owed(b, ops[i])
    && (ops[i].at < x ==> balance == 0.0)
  }

  lemma CoveredIsCoveredBy(b: Bucket, ops: seq<Op>, i: nat)
    requires Good(b) && Ordered(b, ops) && i < |ops| && ops[i].kept
    ensures CoveredBy(b, ops, i, Covered(b, ops, i))
  {
    AfterIsGood(b, ops[..i]);
    AfterIsGood(b, ops[..i + 1]);
    assert ops[..i + 1][..i] == ops[..i];
    WaitCoversDebt(After(b, ops[..i + 1]), b.rate);
  }

  lemma InOrder(b: Bucket, ops: seq<Op>, i: nat, j: nat, x: real, y: real)
    requires Good(b) && Ordered(b, ops) && i < j < |ops|
    requires CoveredBy(b, ops, i, x) && CoveredBy(b, ops, j, y)
    ensures x <= y
  {
    if y < x {
      BalanceOverRun(b, ops, i + 1, j + 1, y);
      ChargedIsPositive(b, ops, i + 1, j + 1);
      BalanceRises(After(b, ops[..i + 1]), b.rate, y, x);
      assert false;
    }
  }

  /** A bucket covers its reservations in the order they were made. */
  lemma CoveredInOrder(b: Bucket, ops: seq<Op>, i: nat, j: nat)
    requires Good(b) && Ordered(b, ops) && i <= j < |ops| && ops[i].kept && ops[j].kept
    ensures Covered(b, ops, i) <= Covered(b, ops, j)
  {
    if i < j {
      CoveredIsCoveredBy(b, ops, i);
      CoveredIsCoveredBy(b, ops, j);
      InOrder(b, ops, i, j, Covered(b, ops, i), Covered(b, ops, j));
    }
  }

  lemma {:induction false} ChargedIsPositive(b: Bucket, ops: seq<Op>, i: nat, j: nat)
    requires Good(b) && Ordered(b, ops) && i <= j <= |ops|
    ensures Charged(b, ops, i, j) >= 0.0
  {
    if i < j {
      ChargedIsPositive(b, ops, i, j - 1);
    }
  }

  lemma {:induction false} ChargedSplit(b: Bucket, ops: seq<Op>, i: nat, j: nat)
    requires i < j <= |ops|
    ensures Charged(b, ops, i, j) == Owed(b, ops[i]) + Charged(b, ops, i + 1, j)
  {
    if i + 1 < j {
      ChargedSplit(b, ops, i, j - 1);
    }
  }

  /** From one covered reservation to a later one, at most the capacity plus the refill is charged. */
  lemma ChargedBetween(b: Bucket, ops: seq<Op>, i: nat, j: nat, x: real, y: real)
    requires Good(b) && Ordered(b, ops) && i <= j < |ops|
    requires CoveredBy(b, ops, i, x) && CoveredBy(b, ops, j, y)
    ensures Charged(b, ops, i, j + 1) <= b.capacity + Gain(y - x, b.rate)
  {
    BalanceOverRun(b, ops, i + 1, j + 1, y);
    BalanceGrows(After(b, ops[..i + 1]), b.rate, x, y);
    ChargedSplit(b, ops, i, j + 1);
  }

  // ----- Windows of admissions --------------------------------------------------------------

  /** What the first `k` operations charged with an admission instant in the window `[s, e]`. */
  function ChargedIn(b: Bucket, ops: seq<Op>, admitted: seq<real>, s: real, e: real, k: nat): real
    requires k <= |ops| == |admitted|
  {
    if k == 0 then 0.0
    else
      var here := if s <= admitted[k - 1] <= e then Owed(b, ops[k - 1]) else 0.0;
      ChargedIn(b, ops, admitted, s, e, k - 1) + here
  }

  predicate Counts(ops: seq<Op>, admitted: seq<real>, s: real, e: real, i: nat)
    requires i < |ops| == |admitted|
  {
    ops[i].kept && s <= admitted[i] <= e
  }

  lemma {:induction false} ChargedInRange(b: Bucket, ops: seq<Op>, admitted: seq<real>, s: real, e: real,
                                          i: nat, k: nat, n: nat)
    requires Good(b) && Ordered(b, ops) && i <= k <= n <= |ops| == |admitted|
    requires forall m :: 0 <= m < i ==> !Counts(ops, admitted, s, e, m)
    requires forall m :: k <= m < n ==> !Counts(ops, admitted, s, e, m)
    ensures ChargedIn(b, ops, admitted, s, e, n) <= Charged(b, ops, i, k)
    decreases n
  {
    if n > k {
      ChargedInRange(b, ops, admitted, s, e, i, k, n - 1);
      assert !Counts(ops, admitted, s, e, n - 1);
    } else if k > i {
      ChargedInRange(b, ops, admitted, s, e, i, k - 1, n - 1);
    } else if n > 0 {
      ChargedInRange(b, ops, admitted, s, e, i - 1, k - 1, n - 1);
      assert !Counts(ops, admitted, s, e, n - 1);
    }
  }

  lemma FirstCounted(ops: seq<Op>, admitted: seq<real>, s: real, e: real, n: nat) returns (i: nat)
    requires n <= |ops| == |admitted|
    ensures i <= n && (i < n ==> Counts(ops, admitted, s, e, i))
    ensures forall m :: 0 <= m < i ==> !Counts(ops, admitted, s, e, m)
  {
    i := 0;
    while i < n && !Counts(ops, admitted, s, e, i)
      invariant i <= n && forall m :: 0 <= m < i ==> !Counts(ops, admitted, s, e, m)
    {
      i := i + 1;
    }
  }

  lemma LastCounted(ops: seq<Op>, admitted: seq<real>, s: real, e: real, i: nat) returns (j: nat)
    requires i < |ops| == |admitted| && Counts(ops, admitted, s, e, i)
    ensures i <= j < |ops| && Counts(ops, admitted, s, e, j)
    ensures forall m :: j < m < |ops| ==> !Counts(ops, admitted, s, e, m)
  {
    j := |ops| - 1;
    while !Counts(ops, admitted, s, e, j)
      invariant i <= j < |ops| && forall m :: j < m < |ops| ==> !Counts(ops, admitted, s, e, m)
      decreases j
    {
      j := j - 1;
    }
  }

  /** The charges admitted in a window, when some other limit may hold a request back after this
      bucket covered it at `cover[i]`: capacity plus the refill since the first of them was covered. */
  lemma WindowBound(b: Bucket, ops: seq<Op>, cover: seq<real>, admitted: seq<real>, s: real, e: real) returns (i: nat)
    requires Good(b) && Ordered(b, ops) && |ops| == |admitted| == |cover|
    requires forall k :: 0 <= k < |ops| && ops[k].kept ==> CoveredBy(b, ops, k, cover[k]) && cover[k] <= admitted[k]
    ensures i <= |ops| && (i < |ops| ==> Counts(ops, admitted, s, e, i))
    ensures i == |ops| ==> ChargedIn(b, ops, admitted, s, e, |ops|) <= 0.0
    ensures i < |ops| ==>
      ChargedIn(b, ops, admitted, s, e, |ops|) <= b.capacity + Gain(e - cover[i], b.rate)
  {
    var n := |ops|;
    i := FirstCounted(ops, admitted, s, e, n);
    if i == n {
      ChargedInRange(b, ops, admitted, s, e, n, n, n);
    } else {
      var j := LastCounted(ops, admitted, s, e, i);
      ChargedInRange(b, ops, admitted, s, e, i, j + 1, n);
      ChargedBetween(b, ops, i, j, cover[i], cover[j]);
      Widen(cover[j] - cover[i], e - cover[i], b.rate);
    }
  }

  lemma Widen(x: real, y: real, rate: real)
    requires x <= y && rate > 0.0
    ensures Gain(x, rate) <= Gain(y, rate)
  {
    if x < y {
      StrictlyPositive(y - x, rate);
    }
  }

  function CoveredAll(b: Bucket, ops: seq<Op>): (r: seq<real>)
    requires b.rate > 0.0
    ensures |r| == |ops| && forall i :: 0 <= i < |ops| ==> r[i] == Covered(b, ops, i)
  {
    seq(|ops|, i requires 0 <= i < |ops| => Covered(b, ops, i))
  }

  lemma CoveredAllIsCoveredBy(b: Bucket, ops: seq<Op>)
    requires Good(b) && Ordered(b, ops)
    ensures forall k :: 0 <= k < |ops| && ops[k].kept ==> CoveredBy(b, ops, k, CoveredAll(b, ops)[k])
  {
    forall k | 0 <= k < |ops| && ops[k].kept
      ensures CoveredBy(b, ops, k, CoveredAll(b, ops)[k])
    {
      CoveredIsCoveredBy(b, ops, k);
    }
  }

  lemma WindowFromStart(b: Bucket, ops: seq<Op>, cover: seq<real>, admitted: seq<real>, s: real, e: real) returns (i: nat)
    requires Good(b) && Ordered(b, ops) && |ops| == |admitted| == |cover| && s <= e
    requires forall k :: 0 <= k < |ops| && ops[k].kept ==> CoveredBy(b, ops, k, cover[k]) && cover[k] <= admitted[k]
    ensures i <= |ops| && (i < |ops| ==> Counts(ops, admitted, s, e, i))
    ensures (i < |ops| ==> s <= cover[i]) ==>
      ChargedIn(b, ops, admitted, s, e, |ops|) <= b.capacity + Gain(e - s, b.rate)
    ensures i < |ops| ==>
      ChargedIn(b, ops, admitted, s, e, |ops|) <= b.capacity + Gain(e - cover[i], b.rate)
  {
    i := WindowBound(b, ops, cover, admitted, s, e);
    Widen(0.0, e - s, b.rate);
    if i < |ops| && s <= cover[i] {
      Widen(e - cover[i], e - s, b.rate);
    }
  }

  /** The rate promise: in any window, what a bucket covers is at most its capacity plus its
      refill rate times the length of the window. */
  lemma RateConformance(b: Bucket, ops: seq<Op>, s: real, e: real)
    requires Good(b) && Ordered(b, ops) && s <= e
    ensures ChargedIn(b, ops, CoveredAll(b, ops), s, e, |ops|) <= b.capacity + Gain(e - s, b.rate)
  {
    CoveredAllIsCoveredBy(b, ops);
    var i := WindowFromStart(b, ops, CoveredAll(b, ops), CoveredAll(b, ops), s, e);
  }

  // ----- Two buckets ----------------------------------------------------------------------

  /** The instant request `i` is let through: both buckets must have covered it. */
  function AdmittedAt(a: Bucket, b: Bucket, xs: seq<Op>, ys: seq<Op>, i: nat): real
    requires i < |xs| == |ys| && a.rate > 0.0 && b.rate > 0.0
  {
    Max(Covered(a, xs, i), Covered(b, ys, i))
  }

  function AdmittedAll(a: Bucket, b: Bucket, xs: seq<Op>, ys: seq<Op>): (r: seq<real>)
    requires |xs| == |ys| && a.rate > 0.0 && b.rate > 0.0
    ensures |r| == |xs| && forall i :: 0 <= i < |xs| ==> r[i] == AdmittedAt(a, b, xs, ys, i)
  {
    seq(|xs|, i requires 0 <= i < |xs| => AdmittedAt(a, b, xs, ys, i))
  }

  /** Both buckets see every request at the same instant and keep the same ones. */
  ghost predicate SameRequests(xs: seq<Op>, ys: seq<Op>) {
    |xs| == |ys| && forall i :: 0 <= i < |xs| ==> xs[i].at == ys[i].at && xs[i].kept == ys[i].kept
  }

  /** Requests are admitted in the order in which they reserved, even under two buckets. */
  lemma AdmittedInOrder(a: Bucket, b: Bucket, xs: seq<Op>, ys: seq<Op>, i: nat, j: nat)
    requires Good(a) && Good(b) && Ordered(a, xs) && Ordered(b, ys) && SameRequests(xs, ys)
    requires i <= j < |xs| && xs[i].kept && xs[j].kept
    ensures AdmittedAt(a, b, xs, ys, i) <= AdmittedAt(a, b, xs, ys, j)
  {
    CoveredInOrder(a, xs, i, j);
    CoveredInOrder(b, ys, i, j);
  }

  lemma CoveredBeforeAdmitted(a: Bucket, b: Bucket, xs: seq<Op>, ys: seq<Op>)
    requires a.rate > 0.0 && b.rate > 0.0 && |xs| == |ys|
    ensures forall k :: 0 <= k < |xs| ==> CoveredAll(a, xs)[k] <= AdmittedAll(a, b, xs, ys)[k]
  {
  }

  /** Counting the instants requests are really let through, the promise of bucket `a` holds for a
      window whenever `a` covered the first request of the window no earlier than the window began;
      in every window the excess is at most the refill over the time that request was held back. */
  lemma ConformanceUnderTwo(a: Bucket, b: Bucket, xs: seq<Op>, ys: seq<Op>, s: real, e: real) returns (i: nat)
    requires Good(a) && Good(b) && Ordered(a, xs) && SameRequests(xs, ys) && s <= e
    ensures i <= |xs| && (i < |xs| ==> Counts(xs, AdmittedAll(a, b, xs, ys), s, e, i))
    ensures (i < |xs| ==> s <= CoveredAll(a, xs)[i]) ==>
      ChargedIn(a, xs, AdmittedAll(a, b, xs, ys), s, e, |xs|) <= a.capacity + Gain(e - s, a.rate)
    ensures i < |xs| ==>
      ChargedIn(a, xs, AdmittedAll(a, b, xs, ys), s, e, |xs|) <= a.capacity + Gain(e - CoveredAll(a, xs)[i], a.rate)
  {
    hide ChargedIn, Gain, Ordered;
    CoveredAllIsCoveredBy(a, xs);
    CoveredBeforeAdmitted(a, b, xs, ys);
    i := WindowFromStart(a, xs, CoveredAll(a, xs), AdmittedAll(a, b, xs, ys), s, e);
  }

  /** With two requests and 1200 tokens a minute: two full-size requests at 0 s and two small ones at
      60 s. The second big one is let through at 60 s although the request bucket covered it at 0 s,
      so three requests pass in the ten seconds from 60 s, where the request rate allows fewer than three. */
  lemma HeldBackRequestsOvershoot() returns (a: Bucket, b: Bucket, xs: seq<Op>, ys: seq<Op>)
    ensures Good(a) && Good(b) && Ordered(a, xs) && Ordered(b, ys) && SameRequests(xs, ys)
    ensures ChargedIn(a, xs, AdmittedAll(a, b, xs, ys), 60.0, 70.0, |xs|) > a.capacity + Gain(10.0, a.rate)
  {
    a, b := Bucket(2.0, 2.0 / 60.0, 2.0, 0.0), Bucket(1200.0, 20.0, 1200.0, 0.0);
    xs := [Op(0.0, 1.0, true), Op(0.0, 1.0, true), Op(60.0, 1.0, true), Op(60.0, 1.0, true)];
    ys := [Op(0.0, 1200.0, true), Op(0.0, 1200.0, true), Op(60.0, 100.0, true), Op(60.0, 100.0, true)];
    var admitted := AdmittedExample(a, b, xs, ys);
    HeldBackCount(a, xs, admitted);
    assert Gain(10.0, a.rate) < 1.0;
  }

  lemma AdmittedExample(a: Bucket, b: Bucket, xs: seq<Op>, ys: seq<Op>) returns (admitted: seq<real>)
    requires a == Bucket(2.0, 2.0 / 60.0, 2.0, 0.0) && b == Bucket(1200.0, 20.0, 1200.0, 0.0)
    requires xs == [Op(0.0, 1.0, true), Op(0.0, 1.0, true), Op(60.0, 1.0, true), Op(60.0, 1.0, true)]
    requires ys == [Op(0.0, 1200.0, true), Op(0.0, 1200.0, true), Op(60.0, 100.0, true), Op(60.0, 100.0, true)]
    ensures admitted == AdmittedAll(a, b, xs, ys)
    ensures admitted == [0.0, 60.0, 65.0, 70.0]
  {
    RequestBucketExample(a, xs);
    AmountBucketExample(b, ys);
    admitted := AdmittedAll(a, b, xs, ys);
  }

  lemma RequestBucketExample(a: Bucket, xs: seq<Op>)
    requires a == Bucket(2.0, 2.0 / 60.0, 2.0, 0.0)
    requires xs == [Op(0.0, 1.0, true), Op(0.0, 1.0, true), Op(60.0, 1.0, true), Op(60.0, 1.0, true)]
    ensures Covered(a, xs, 0) == Covered(a, xs, 1) == 0.0 && Covered(a, xs, 2) == Covered(a, xs, 3) == 60.0
  {
    Unroll(a, xs);
    assert After(a, xs[..1]).tokens == 1.0 && After(a, xs[..2]).tokens == 0.0;
    assert 60.0 * a.rate == 2.0;
    assert After(a, xs[..3]).tokens == 1.0;
  }

  lemma AmountBucketExample(b: Bucket, ys: seq<Op>)
    requires b == Bucket(1200.0, 20.0, 1200.0, 0.0)
    requires ys == [Op(0.0, 1200.0, true), Op(0.0, 1200.0, true), Op(60.0, 100.0, true), Op(60.0, 100.0, true)]
    ensures Covered(b, ys, 0) == 0.0 && Covered(b, ys, 1) == 60.0
    ensures Covered(b, ys, 2) == 65.0 && Covered(b, ys, 3) == 70.0
  {
    hide After, Apply, Wait;
    Unroll(b, ys);
    AmountStep(b, ys[0], 0.0);
    AmountStep(After(b, ys[..1]), ys[1], -1200.0);
    AmountStep(After(b, ys[..2]), ys[2], -100.0);
    AmountStep(After(b, ys[..3]), ys[3], -200.0);
    WaitAt(After(b, ys[..1]), 0.0);
    WaitAt(After(b, ys[..2]), 60.0);
    WaitAt(After(b, ys[..3]), 5.0);
    WaitAt(After(b, ys[..4]), 10.0);
  }

  lemma WaitAt(b: Bucket, wait: real)
    requires b.rate == 20.0 && wait >= 0.0 && (b.tokens == wait * -20.0)
    ensures Wait(b) == wait
  {
  }

  /** One reservation at twenty tokens a second, at the same instant or sixty seconds later. */
  lemma AmountStep(b: Bucket, op: Op, left: real)
    requires b.rate == 20.0 && b.capacity == 1200.0 && op.kept && (op.at == b.last || op.at == b.last + 60.0)
    requires left == Min(1200.0, b.tokens + (if op.at == b.last then 0.0 else 1200.0)) - Min(op.cost, 1200.0)
    ensures Apply(b, op) == Bucket(1200.0, 20.0, left, op.at)
  {
  }

  lemma HeldBackCount(a: Bucket, xs: seq<Op>, admitted: seq<real>)
    requires a.capacity == 2.0 && admitted == [0.0, 60.0, 65.0, 70.0]
    requires |xs| == 4 && forall i :: 0 <= i < 4 ==> Owed(a, xs[i]) == 1.0
    ensures ChargedIn(a, xs, admitted, 60.0, 70.0, 4) == 3.0
  {
    assert ChargedIn(a, xs, admitted, 60.0, 70.0, 1) == 0.0;
    assert ChargedIn(a, xs, admitted, 60.0, 70.0, 2) == 1.0;
    assert ChargedIn(a, xs, admitted, 60.0, 70.0, 3) == 2.0;
  }

  lemma Unroll(b: Bucket, ops: seq<Op>)
    requires |ops| == 4
    ensures After(b, ops[..1]) == Apply(b, ops[0])
    ensures After(b, ops[..2]) == Apply(After(b, ops[..1]), ops[1])
    ensures After(b, ops[..3]) == Apply(After(b, ops[..2]), ops[2])
    ensures After(b, ops[..4]) == Apply(After(b, ops[..3]), ops[3])
  {
    assert ops[..1][..0] == [] && ops[..2][..1] == ops[..1] && ops[..3][..2] == ops[..2] && ops[..4][..3] == ops[..3];
  }
}
