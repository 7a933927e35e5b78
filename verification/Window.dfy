/** The per-client sliding window of the API middleware. */
module Window {
  import opened Common

  type Client = string

  const WINDOW := 60.0

  /** Clients with the times of their requests, oldest first, and when the table was last swept. */
  datatype Table = Table(windows: map<Client, seq<real>>, lastSweep: real)

  datatype Reply = Allowed | Refused(retryAfter: real)

  datatype Limits = Limits(rpm: nat, maxClients: nat)

  datatype Request = Request(client: Client, now: real)

  /** How many times at the front have left the window. */
  function Old(times: seq<real>, cutoff: real): (n: nat)
    ensures n <= |times| && (forall i :: 0 <= i < n ==> times[i] <= cutoff) && (n < |times| ==> times[n] > cutoff)
  {
    if times == [] || times[0] > cutoff then 0 else 1 + Old(times[1..], cutoff)
  }

  function Recent(times: seq<real>, cutoff: real): seq<real> {
    times[Old(times, cutoff)..]
  }

  predicate Stale(times: seq<real>, cutoff: real) {
    times == [] || times[|times| - 1] <= cutoff
  }

  function Fresh(windows: map<Client, seq<real>>, cutoff: real): map<Client, seq<real>> {
    map k | k in windows && !Stale(windows[k], cutoff) :: windows[k]
  }

  function Swept(t: Table, now: real): Table {
    if now - t.lastSweep < WINDOW then t else Table(Fresh(t.windows, now - WINDOW), now)
  }

  function Window(t: Table, client: Client): seq<real> {
    if client in t.windows then t.windows[client] else []
  }

  function Put(t: Table, client: Client, times: seq<real>): Table {
    t.(windows := t.windows[client := times])
  }

  function Next(l: Limits, t: Table, r: Request): (Table, Reply)
    requires l.rpm >= 1
  {
    var t := Swept(t, r.now);
    if r.client !in t.windows && |t.windows| >= l.maxClients then (t, Refused(WINDOW)) else
    var times := Recent(Window(t, r.client), r.now - WINDOW);
    if |times| >= l.rpm then (Put(t, r.client, times), Refused(Max(WINDOW - (r.now - times[0]), 0.0)))
    else (Put(t, r.client, times + [r.now]), Allowed)
  }

  lemma Opened(t: Table, client: Client, windows: map<Client, seq<real>>)
    requires windows == if client in t.windows then t.windows else t.windows[client := []]
    ensures client in windows && windows[client] == Window(t, client)
  {
  }

  lemma Stored(t: Table, client: Client, t': Table, times: seq<real>)
    requires t'.lastSweep == t.lastSweep && client in t'.windows && t'.windows[client] == times
    requires t'.windows - {client} == t.windows - {client}
    ensures t' == Put(t, client, times)
  {
    forall k | k in t'.windows ensures k in Put(t, client, times).windows && t'.windows[k] == Put(t, client, times).windows[k] {
      assert k != client ==> k in t'.windows - {client};
    }
    forall k | k in Put(t, client, times).windows ensures k in t'.windows {
      assert k != client ==> k in t.windows - {client};
    }
  }

  class RateLimit {
    const limits: Limits
    var windows: map<Client, seq<real>>
    var lastSweep: real

    function Now(): Table
      reads this
    {
      Table(windows, lastSweep)
    }

    constructor (limits: Limits)
      ensures Now() == Table(map[], 0.0) && this.limits == limits
    {
      this.limits := limits;
      windows, lastSweep := map[], 0.0;
    }

    method Check(client: Client, now: real) returns (reply: Reply)
      requires limits.rpm >= 1
      modifies this
      ensures (Now(), reply) == Next(limits, old(Now()), Request(client, now))
    {
      hide Swept, Recent, Put, Window;
      var cutoff := now - WINDOW;
      Sweep(now, cutoff);
      ghost var t := Now();
      if client !in windows {
        if |windows| >= limits.maxClients {
          return Refused(WINDOW);
        }
        windows := windows[client := []];
      }
      Opened(t, client, windows);
      var times := Evict(windows[client], cutoff);
      windows := windows[client := times];
      assert Now() == Put(t, client, times) by { Stored(t, client, Now(), times); }
      if |times| >= limits.rpm {
        return Refused(Max(WINDOW - (now - times[0]), 0.0));
      }
      windows := windows[client := times + [now]];
      Stored(t, client, Now(), times + [now]);
      return Allowed;
    }

    /** The loop that drops what has left the window. */
    static method Evict(all: seq<real>, cutoff: real) returns (times: seq<real>)
      ensures times == Recent(all, cutoff)
    {
      times := all;
      while times != [] && times[0] <= cutoff
        invariant Recent(times, cutoff) == Recent(all, cutoff)
      {
        assert times[1..][Old(times[1..], cutoff)..] == times[Old(times, cutoff)..];
        times := times[1..];
      }
    }

    method Sweep(now: real, cutoff: real)
      requires cutoff == now - WINDOW
      modifies this
      ensures Now() == Swept(old(Now()), now)
    {
      if now - lastSweep < WINDOW {
        return;
      }
      lastSweep := now;
      ghost var before := windows;
      var stale := set k | k in windows && Stale(windows[k], cutoff);
      while stale != {}
        invariant forall k :: k in windows <==> k in before && (k in stale || !Stale(before[k], cutoff))
        invariant lastSweep == now && forall k <- windows :: windows[k] == before[k]
        invariant forall k <- stale :: k in before && Stale(before[k], cutoff)
        decreases |stale|
      {
        var k :| k in stale;
        windows := windows - {k};
        stale := stale - {k};
      }
      assert windows == Fresh(before, cutoff);
    }
  }

  // ---- against the history of accepted requests -----------------------------------------------------

  datatype Entry = Entry(request: Request, allowed: bool)

  /** When the client's requests were accepted, oldest first. */
  function Accepted(h: seq<Entry>, client: Client): seq<real> {
    if h == [] then [] else
    var e := h[|h| - 1];
    Accepted(h[..|h| - 1], client) + if e.allowed && e.request.client == client then [e.request.now] else []
  }

  /** The time of the last sweep: sweeps run with a request, at most once a minute. */
  function SweptAt(h: seq<Entry>): real {
    if h == [] then 0.0 else Due(SweptAt(h[..|h| - 1]), h[|h| - 1].request.now)
  }

  function Due(last: real, now: real): real {
    if now - last < WINDOW then last else now
  }

  function Clock(h: seq<Entry>): real {
    if h == [] then 0.0 else h[|h| - 1].request.now
  }

  /** Requests in clock order, each answered as the limiter answers it. */
  predicate Answered(l: Limits, h: seq<Entry>)
    requires l.rpm >= 1
  {
    h == [] ||
    (var before, e := h[..|h| - 1], h[|h| - 1];
     Answered(l, before) && Clock(before) <= e.request.now
     && e.allowed == Next(l, After(l, before), e.request).1.Allowed?)
  }

  function After(l: Limits, h: seq<Entry>): Table
    requires l.rpm >= 1
  {
    if h == [] then Table(map[], 0.0) else Next(l, After(l, h[..|h| - 1]), h[|h| - 1].request).0
  }

  predicate Sorted(times: seq<real>, now: real) {
    (forall i, j :: 0 <= i < j < |times| ==> times[i] <= times[j]) && forall t <- times :: t <= now
  }

  /** A client whose last accepted request is less than a minute older than the last sweep. */
  predicate Active(times: seq<real>, swept: real) {
    times != [] && times[|times| - 1] > swept - WINDOW
  }

  /** A kept window: the accepted times without some that are a minute old, never empty, at most `rpm`. */
  predicate Keeps(l: Limits, times: seq<real>, kept: seq<real>, now: real) {
    && 1 <= |kept| <= l.rpm && |kept| <= |times| && kept == times[|times| - |kept|..]
    && forall i :: 0 <= i < |times| - |kept| ==> times[i] <= now - WINDOW
  }

  /** What the table holds for a client, given when its requests were accepted. */
  ghost predicate Exact(l: Limits, t: Table, k: Client, times: seq<real>, now: real) {
    && Sorted(times, now) && (k in t.windows <==> Active(times, t.lastSweep))
    && (k in t.windows ==> Keeps(l, times, t.windows[k], now))
  }

  ghost predicate Inv(l: Limits, h: seq<Entry>, t: Table) {
    && t.lastSweep == SweptAt(h) && t.lastSweep <= Clock(h) && |t.windows| <= l.maxClients
    && forall k: Client :: Exact(l, t, k, Accepted(h, k), Clock(h))
  }

  /** `n` consecutive accepted requests and the next one are a minute apart at least. */
  predicate Spaced(times: seq<real>, n: nat) {
    forall i :: 0 <= i < |times| - n ==> times[i + n] - times[i] >= WINDOW
  }

  lemma {:induction false} OldOfSuffix(times: seq<real>, cutoff: real, n: nat)
    requires n <= |times| && forall i :: 0 <= i < n ==> times[i] <= cutoff
    ensures n + Old(times[n..], cutoff) == Old(times, cutoff)
  {
    if n > 0 {
      OldOfSuffix(times[1..], cutoff, n - 1);
      assert times[1..][n - 1..] == times[n..];
    }
  }

  lemma SubsetSize(a: set<Client>, b: set<Client>)
    requires a <= b
    ensures |a| <= |b|
  {
    assert b == a + (b - a);
  }

  lemma SweepExact(l: Limits, t: Table, k: Client, times: seq<real>, clock: real, now: real)
    requires Exact(l, t, k, times, clock) && t.lastSweep <= clock <= now
    ensures Exact(l, Swept(t, now), k, times, now)
  {
  }

  /** A sweep keeps exactly the clients active at its time. */
  lemma SweptInv(l: Limits, h: seq<Entry>, t: Table, now: real)
    requires Inv(l, h, t) && Clock(h) <= now
    ensures var t' := Swept(t, now);
      && t'.lastSweep == Due(SweptAt(h), now) && t'.lastSweep <= now && |t'.windows| <= l.maxClients
      && forall k: Client :: Exact(l, t', k, Accepted(h, k), now)
  {
    var t' := Swept(t, now);
    SubsetSize(t'.windows.Keys, t.windows.Keys);
    assert |t'.windows| == |t'.windows.Keys| && |t.windows| == |t.windows.Keys|;
    forall k: Client ensures Exact(l, t', k, Accepted(h, k), now) {
      SweepExact(l, t, k, Accepted(h, k), Clock(h), now);
    }
  }

  lemma RefusedExact(l: Limits, t: Table, k: Client, times: seq<real>, now: real, d: nat)
    requires Exact(l, t, k, times, now) && k in t.windows
    requires d < |times| <= d + l.rpm && forall i :: 0 <= i < d ==> times[i] <= now - WINDOW
    ensures Exact(l, Put(t, k, times[d..]), k, times, now)
  {
  }

  lemma AllowedExact(l: Limits, t: Table, k: Client, times: seq<real>, now: real, d: nat)
    requires Sorted(times, now) && t.lastSweep <= now
    requires d <= |times| < d + l.rpm && forall i :: 0 <= i < d ==> times[i] <= now - WINDOW
    ensures Exact(l, Put(t, k, times[d..] + [now]), k, times + [now], now)
  {
    var more := times + [now];
    assert times[d..] + [now] == more[d..];
    forall i | 0 <= i < |times| ensures times[i] <= now {
      assert times[i] in times;
    }
  }

  /** The client's window after the step, in both outcomes. */
  lemma OwnExact(l: Limits, t: Table, r: Request, times: seq<real>)
    requires l.rpm >= 1 && Exact(l, t, r.client, times, r.now) && t.lastSweep <= r.now
    ensures var recent := Recent(Window(t, r.client), r.now - WINDOW);
      && recent == Recent(times, r.now - WINDOW)
      && (|recent| >= l.rpm ==> r.client in t.windows && Exact(l, Put(t, r.client, recent), r.client, times, r.now))
      && (|recent| < l.rpm ==> Exact(l, Put(t, r.client, recent + [r.now]), r.client, times + [r.now], r.now))
  {
    hide Put, Exact, Recent, Window;
    var d := OwnRecent(l, t, r, times);
    assert |times[d..]| == |times| - d;
    if |times| - d >= l.rpm {
      RefusedExact(l, t, r.client, times, r.now, d);
    } else {
      SortedOf(l, t, r.client, times, r.now);
      AllowedExact(l, t, r.client, times, r.now, d);
    }
  }

  /** The client's recent times, as a suffix of its accepted ones. */
  lemma OwnRecent(l: Limits, t: Table, r: Request, times: seq<real>) returns (d: nat)
    requires Exact(l, t, r.client, times, r.now) && t.lastSweep <= r.now
    ensures var recent := Recent(Window(t, r.client), r.now - WINDOW);
      && d <= |times| && recent == Recent(times, r.now - WINDOW) == times[d..]
      && (forall i :: 0 <= i < d ==> times[i] <= r.now - WINDOW)
      && (r.client in t.windows ==> |times| - d <= l.rpm) && (r.client !in t.windows ==> recent == [])
  {
    var w, cutoff := Window(t, r.client), r.now - WINDOW;
    OwnOld(l, t, r, times);
    OldOfSuffix(times, cutoff, |times| - |w|);
    d := Old(times, cutoff);
    hide Old;
    assert Recent(w, cutoff) == times[d..];
    assert r.client in t.windows ==> |times[d..]| <= |w| <= l.rpm;
    assert r.client !in t.windows ==> w == [];
  }

  lemma SortedOf(l: Limits, t: Table, k: Client, times: seq<real>, now: real)
    requires Exact(l, t, k, times, now)
    ensures Sorted(times, now)
  {
  }

  lemma OwnOld(l: Limits, t: Table, r: Request, times: seq<real>)
    requires Exact(l, t, r.client, times, r.now) && t.lastSweep <= r.now
    ensures var w := Window(t, r.client);
      |w| <= |times| && w == times[|times| - |w|..] && forall i :: 0 <= i < |times| - |w| ==> times[i] <= r.now - WINDOW
  {
  }

  lemma OthersExact(l: Limits, t: Table, k: Client, other: Client, kept: seq<real>, times: seq<real>, now: real)
    requires Exact(l, t, k, times, now) && k != other
    ensures Exact(l, Put(t, other, kept), k, times, now)
  {
  }

  lemma AcceptedAfter(h: seq<Entry>, e: Entry, k: Client)
    ensures Accepted(h + [e], k) ==
      if e.allowed && e.request.client == k then Accepted(h, k) + [e.request.now] else Accepted(h, k)
  {
    assert (h + [e])[..|h|] == h;
    assert Accepted(h, k) + [] == Accepted(h, k);
  }

  lemma SweptInvAt(l: Limits, h: seq<Entry>, t: Table, now: real, k: Client)
    requires Inv(l, h, t) && Clock(h) <= now
    ensures Swept(t, now).lastSweep <= now && Exact(l, Swept(t, now), k, Accepted(h, k), now)
  {
    hide Exact, Swept;
    SweptInv(l, h, t, now);
  }

  lemma NextExact(l: Limits, h: seq<Entry>, t: Table, e: Entry, k: Client)
    requires l.rpm >= 1 && Inv(l, h, t) && Clock(h) <= e.request.now
    requires e.allowed == Next(l, t, e.request).1.Allowed?
    ensures Exact(l, Next(l, t, e.request).0, k, Accepted(h + [e], k), e.request.now)
  {
    var r, t1 := e.request, Swept(t, e.request.now);
    hide Recent, Exact, Swept, Put, Window, Inv, Accepted, Clock;
    SweptInvAt(l, h, t, r.now, k);
    AcceptedAfter(h, e, k);
    if k == r.client {
      OwnExact(l, t1, r, Accepted(h, k));
    } else {
      var times := Recent(Window(t1, r.client), r.now - WINDOW);
      OthersExact(l, t1, k, r.client, times, Accepted(h, k), r.now);
      OthersExact(l, t1, k, r.client, times + [r.now], Accepted(h, k), r.now);
    }
  }

  lemma NextInv(l: Limits, h: seq<Entry>, t: Table, e: Entry)
    requires l.rpm >= 1 && Inv(l, h, t) && Clock(h) <= e.request.now
    requires e.allowed == Next(l, t, e.request).1.Allowed?
    ensures Inv(l, h + [e], Next(l, t, e.request).0)
  {
    var h' := h + [e];
    assert h'[..|h'| - 1] == h;
    SweptInv(l, h, t, e.request.now);
    NextSize(l, Swept(t, e.request.now), e.request);
    hide Exact, Swept;
    forall k: Client ensures Exact(l, Next(l, t, e.request).0, k, Accepted(h', k), e.request.now) {
      NextExact(l, h, t, e, k);
    }
  }

  lemma NextSize(l: Limits, t: Table, r: Request)
    requires |t.windows| <= l.maxClients
    ensures r.client in t.windows || |t.windows| < l.maxClients ==>
      forall times: seq<real> :: |Put(t, r.client, times).windows| <= l.maxClients
  {
    forall times: seq<real> | r.client in t.windows || |t.windows| < l.maxClients
      ensures |Put(t, r.client, times).windows| <= l.maxClients {
      var w := Put(t, r.client, times).windows;
      assert w.Keys == t.windows.Keys + {r.client};
      assert |w| == |w.Keys|;
    }
  }

  lemma {:induction false} EveryRun(l: Limits, h: seq<Entry>)
    requires l.rpm >= 1 && Answered(l, h)
    ensures Inv(l, h, After(l, h))
  {
    hide Inv, Next;
    if h == [] {
      EmptyInv(l);
    } else {
      var before, e := h[..|h| - 1], h[|h| - 1];
      EveryRun(l, before);
      NextInv(l, before, After(l, before), e);
      assert before + [e] == h;
    }
  }

  lemma EmptyInv(l: Limits)
    ensures Inv(l, [], Table(map[], 0.0))
  {
  }

  // ---- the promises ---------------------------------------------------------------------------------

  /** Accepted or refused is a matter of the history alone: a client active at the last sweep needs fewer
      than `rpm` accepted requests in the last minute, any other needs a place among the active clients. */
  lemma DecidedByHistory(l: Limits, h: seq<Entry>, r: Request) returns (active: set<Client>)
    requires l.rpm >= 1 && Answered(l, h) && Clock(h) <= r.now
    ensures forall k: Client :: k in active <==> Active(Accepted(h, k), Due(SweptAt(h), r.now))
    ensures Next(l, After(l, h), r).1.Allowed? <==>
            if r.client in active then |Recent(Accepted(h, r.client), r.now - WINDOW)| < l.rpm
            else |active| < l.maxClients
  {
    var t := After(l, h);
    EveryRun(l, h);
    SweptInv(l, h, t, r.now);
    var t1 := Swept(t, r.now);
    OwnExact(l, t1, r, Accepted(h, r.client));
    active := t1.windows.Keys;
    hide Swept, Recent, Accepted, Keeps, Sorted;
    assert |t1.windows| == |t1.windows.Keys|;
  }

  /** With `rpm` requests between them, two accepted requests of a client are a minute apart. */
  lemma {:induction false} AcceptedSpaced(l: Limits, h: seq<Entry>, k: Client)
    requires l.rpm >= 1 && Answered(l, h)
    ensures Spaced(Accepted(h, k), l.rpm)
  {
    if h != [] {
      var before, e := h[..|h| - 1], h[|h| - 1];
      AcceptedSpaced(l, before, k);
      EveryRun(l, h);
      assert before + [e] == h;
      AcceptedAfter(before, e, k);
      var t := After(l, h);
      hide After;
      assert Exact(l, t, k, Accepted(h, k), Clock(h));
      if e.allowed && e.request.client == k {
        AllowedKept(l, before, e);
        SpacedMore(l, Accepted(before, k), e.request.now, t.windows[k]);
      }
    }
  }

  lemma AllowedKept(l: Limits, before: seq<Entry>, e: Entry)
    requires l.rpm >= 1 && Answered(l, before + [e]) && e.allowed
    ensures e.request.client in After(l, before + [e]).windows
  {
    assert (before + [e])[..|before|] == before;
  }

  lemma SpacedMore(l: Limits, times: seq<real>, now: real, kept: seq<real>)
    requires Spaced(times, l.rpm) && Keeps(l, times + [now], kept, now)
    ensures Spaced(times + [now], l.rpm)
  {
  }

  /** Accepted requests in the minute from `lo` on, or in the minute up to and including `lo` plus a minute. */
  function CountFrom(times: seq<real>, lo: real): set<nat> {
    set i: nat | i < |times| && lo <= times[i] < lo + WINDOW
  }

  function CountUpTo(times: seq<real>, lo: real): set<nat> {
    set i: nat | i < |times| && lo < times[i] <= lo + WINDOW
  }

  lemma {:induction false} RangeSize(a: nat, n: nat, s: set<nat>)
    requires forall i <- s :: a <= i < a + n
    ensures |s| <= n
  {
    if n == 0 {
      assert s == {};
    } else {
      RangeSize(a, n - 1, s - {a + n - 1});
    }
  }

  lemma FarApart(times: seq<real>, n: nat, now: real, a: nat, j: nat)
    requires Sorted(times, now) && Spaced(times, n) && a + n <= j < |times|
    ensures times[j] - times[a] >= WINDOW
  {
    assert times[a + n] - times[a] >= WINDOW;
    assert times[a + n] <= times[j];
  }

  lemma AtMostIn(times: seq<real>, n: nat, now: real, s: set<nat>)
    requires Sorted(times, now) && Spaced(times, n)
    requires forall i <- s :: i < |times|
    requires forall i <- s, j <- s :: times[j] - times[i] < WINDOW
    ensures |s| <= n
  {
    if s != {} {
      var i :| i in s;
      var a := Least(s, i);
      forall j: nat | a + n <= j < |times| ensures times[j] - times[a] >= WINDOW {
        FarApart(times, n, now, a, j);
      }
      RangeSize(a, n, s);
    }
  }

  lemma {:induction false} Least(s: set<nat>, i: nat) returns (a: nat)
    requires i in s
    ensures a in s && forall j <- s :: a <= j
    decreases i
  {
    if j :| j in s && j < i {
      a := Least(s, j);
    } else {
      a := i;
    }
  }

  /** Never more than `rpm` accepted requests of a client in any half-open minute, whichever end is open. */
  lemma NeverMoreThanRpm(l: Limits, h: seq<Entry>, k: Client, lo: real)
    requires l.rpm >= 1 && Answered(l, h)
    ensures |CountFrom(Accepted(h, k), lo)| <= l.rpm && |CountUpTo(Accepted(h, k), lo)| <= l.rpm
  {
    EveryRun(l, h);
    AcceptedSpaced(l, h, k);
    assert Exact(l, After(l, h), k, Accepted(h, k), Clock(h));
    hide Answered, After, Accepted, Keeps;
    AtMostIn(Accepted(h, k), l.rpm, Clock(h), CountFrom(Accepted(h, k), lo));
    AtMostIn(Accepted(h, k), l.rpm, Clock(h), CountUpTo(Accepted(h, k), lo));
  }

  /** The table never outgrows its bound. */
  lemma TableBounded(l: Limits, h: seq<Entry>)
    requires l.rpm >= 1 && Answered(l, h)
    ensures |After(l, h).windows| <= l.maxClients
  {
    EveryRun(l, h);
  }

  // ---- waiting as told --------------------------------------------------------------------------------

  /** A full window stays as it is until its oldest time is a minute old, whoever asks. */
  lemma FullStep(l: Limits, t: Table, r: Request, k: Client, w: seq<real>)
    requires l.rpm >= 1 && k in t.windows && t.windows[k] == w && |w| >= l.rpm
    requires r.now < w[0] + WINDOW && w[0] <= w[|w| - 1]
    ensures k in Next(l, t, r).0.windows && Next(l, t, r).0.windows[k] == w
  {
    assert Old(w, r.now - WINDOW) == 0;
  }

  lemma {:induction false} StaysFull(l: Limits, h: seq<Entry>, more: seq<Entry>, k: Client, w: seq<real>)
    requires l.rpm >= 1 && Answered(l, h + more)
    requires k in After(l, h).windows && After(l, h).windows[k] == w && |w| >= l.rpm && w[0] <= w[|w| - 1]
    requires forall e <- more :: e.request.now < w[0] + WINDOW
    ensures k in After(l, h + more).windows && After(l, h + more).windows[k] == w
    decreases |more|
  {
    if more == [] {
      assert h + more == h;
    } else {
      var all, init := h + more, more[..|more| - 1];
      assert all[..|all| - 1] == h + init && more == init + [more[|more| - 1]];
      StaysFull(l, h, init, k, w);
      FullStep(l, After(l, h + init), all[|all| - 1].request, k, w);
    }
  }

  /** At the minute's end the oldest time leaves, or the whole client does. */
  lemma FreedAt(l: Limits, t: Table, k: Client, w: seq<real>)
    requires l.rpm >= 1 && k in t.windows && t.windows[k] == w && |w| == l.rpm && |t.windows| <= l.maxClients
    ensures Next(l, t, Request(k, w[0] + WINDOW)).1.Allowed?
  {
    var t1 := Swept(t, w[0] + WINDOW);
    assert t1.windows.Keys <= t.windows.Keys;
    if k in t1.windows {
      assert Old(w, w[0]) >= 1;
    } else {
      SubsetSize(t1.windows.Keys + {k}, t.windows.Keys);
      assert |t1.windows| == |t1.windows.Keys| && |t.windows| == |t.windows.Keys|;
    }
  }

  /** What a refusal for a full window leaves in the table. */
  lemma FullWindow(l: Limits, h: seq<Entry>, e: Entry) returns (w: seq<real>)
    requires l.rpm >= 1 && Answered(l, h + [e]) && !e.allowed
    requires e.request.client in Swept(After(l, h), e.request.now).windows
    ensures e.request.client in After(l, h + [e]).windows && After(l, h + [e]).windows[e.request.client] == w
    ensures |w| == l.rpm && w[0] <= w[|w| - 1]
    ensures Next(l, After(l, h), e.request).1 == Refused(w[0] + WINDOW - e.request.now)
  {
    var all := h + [e];
    assert all[..|all| - 1] == h;
    EveryRun(l, all);
    var t := After(l, all);
    var k := e.request.client;
    assert Exact(l, t, k, Accepted(all, k), Clock(all));
    w := t.windows[k];
    var times := Accepted(all, k);
    assert w[0] == times[|times| - |w|] && w[|w| - 1] == times[|times| - 1];
    assert w == Recent(Window(Swept(After(l, h), e.request.now), k), e.request.now - WINDOW);
  }

  lemma {:induction false} AnsweredPrefix(l: Limits, h: seq<Entry>, more: seq<Entry>)
    requires l.rpm >= 1 && Answered(l, h + more)
    ensures Answered(l, h)
    decreases |more|
  {
    if more == [] {
      assert h + more == h;
    } else {
      assert (h + more)[..|h + more| - 1] == h + more[..|more| - 1];
      AnsweredPrefix(l, h, more[..|more| - 1]);
    }
  }

  /** A client refused because its window is full is let in after `retryAfter`, if whatever else
      arrives meanwhile arrives before that moment. */
  lemma WaitingFreesWindow(l: Limits, h: seq<Entry>, e: Entry, more: seq<Entry>)
    requires l.rpm >= 1 && Answered(l, h + [e] + more) && !e.allowed
    requires e.request.client in Swept(After(l, h), e.request.now).windows
    requires Next(l, After(l, h), e.request).1.Refused?
    requires forall m <- more :: m.request.now < e.request.now + Next(l, After(l, h), e.request).1.retryAfter
    ensures var wait := Next(l, After(l, h), e.request).1.retryAfter;
            Next(l, After(l, h + [e] + more), Request(e.request.client, e.request.now + wait)).1.Allowed?
  {
    hide Next, Swept, Answered, After, Accepted, Exact, SweptAt, Clock;
    var all := h + [e];
    AnsweredPrefix(l, all, more);
    var w := FullWindow(l, h, e);
    StaysFull(l, all, more, e.request.client, w);
    EveryRun(l, all + more);
    var wait := Next(l, After(l, h), e.request).1.retryAfter;
    assert e.request.now + wait == w[0] + WINDOW;
    FreedAt(l, After(l, all + more), e.request.client, w);
  }

  /** A new client refused because the table is full is let in a minute later, if nobody else asks meanwhile. */
  lemma WaitingFreesTable(l: Limits, h: seq<Entry>, e: Entry)
    requires l.rpm >= 1 && l.maxClients >= 1 && Answered(l, h + [e]) && !e.allowed
    requires e.request.client !in Swept(After(l, h), e.request.now).windows
    ensures Next(l, After(l, h), e.request).1 == Refused(WINDOW)
    ensures Next(l, After(l, h + [e]), Request(e.request.client, e.request.now + WINDOW)).1.Allowed?
  {
    var all, later := h + [e], e.request.now + WINDOW;
    assert all[..|all| - 1] == h;
    EveryRun(l, all);
    var t := After(l, all);
    assert Clock(all) == e.request.now;
    hide After;
    forall k | k in t.windows ensures Stale(t.windows[k], later - WINDOW) {
      assert Exact(l, t, k, Accepted(all, k), Clock(all));
      var w := t.windows[k];
      assert w[|w| - 1] in Accepted(all, k);
    }
    assert Swept(t, later).windows == map[];
  }

  // ---- whatever others ask meanwhile ----------------------------------------------------------------------

  lemma OldPast(times: seq<real>, now: real, i: nat, cutoff: real)
    requires Sorted(times, now) && i < |times|
    ensures Old(times, cutoff) <= i <==> times[i] > cutoff
  {
    var n := Old(times, cutoff);
    if n <= i {
      assert times[n] <= times[i];
    }
  }

  lemma SweepsOnward(last: real, now: real)
    ensures Due(last, now) >= last && (last <= now ==> Due(last, now) <= now)
  {
  }

  lemma {:induction false} SweptLater(h: seq<Entry>, more: seq<Entry>)
    ensures SweptAt(h + more) >= SweptAt(h)
    decreases |more|
  {
    if more == [] {
      assert h + more == h;
    } else {
      assert (h + more)[..|h + more| - 1] == h + more[..|more| - 1];
      SweptLater(h, more[..|more| - 1]);
      SweepsOnward(SweptAt(h + more[..|more| - 1]), more[|more| - 1].request.now);
    }
  }

  /** A client whose last `rpm` accepted requests are `times`' last ones is refused until the oldest of them
      is a minute old. */
  lemma FullRefuses(l: Limits, h: seq<Entry>, r: Request)
    requires l.rpm >= 1 && Answered(l, h) && Clock(h) <= r.now && |Accepted(h, r.client)| >= l.rpm
    requires var times := Accepted(h, r.client); r.now < times[|times| - l.rpm] + WINDOW
    ensures !Next(l, After(l, h), r).1.Allowed?
  {
    var times := Accepted(h, r.client);
    var first := |times| - l.rpm;
    hide Next, After, Accepted, Answered, SweptAt, Clock, Old, Due;
    TimesSorted(l, h, r.client);
    var active := DecidedByHistory(l, h, r);
    SweptBy(l, h, r.now);
    assert times[first] <= times[|times| - 1];
    OldPast(times, Clock(h), first, r.now - WINDOW);
  }

  lemma TimesSorted(l: Limits, h: seq<Entry>, k: Client)
    requires l.rpm >= 1 && Answered(l, h)
    ensures Sorted(Accepted(h, k), Clock(h))
  {
    EveryRun(l, h);
    assert Exact(l, After(l, h), k, Accepted(h, k), Clock(h));
  }

  lemma SweptBy(l: Limits, h: seq<Entry>, now: real)
    requires l.rpm >= 1 && Answered(l, h) && Clock(h) <= now
    ensures Due(SweptAt(h), now) <= now
  {
    EveryRun(l, h);
  }

  /** The client's own requests all come before `t`. */
  predicate AsksBefore(more: seq<Entry>, k: Client, t: real) {
    forall i :: 0 <= i < |more| && more[i].request.client == k ==> more[i].request.now < t
  }

  /** So meanwhile nothing of that client is accepted. */
  lemma {:induction false} NothingOfIts(l: Limits, h: seq<Entry>, more: seq<Entry>, k: Client)
    requires l.rpm >= 1 && Answered(l, h + more) && |Accepted(h, k)| >= l.rpm
    requires var times := Accepted(h, k);
             AsksBefore(more, k, times[|times| - l.rpm] + WINDOW)
    ensures Accepted(h + more, k) == Accepted(h, k)
    decreases |more|
  {
    if more == [] {
      assert h + more == h;
    } else {
      var init, last, times := more[..|more| - 1], more[|more| - 1], Accepted(h, k);
      hide Answered, Accepted;
      assert h + more == (h + init) + [last];
      AnsweredLast(l, h + init, last);
      assert AsksBefore(init, k, times[|times| - l.rpm] + WINDOW);
      hide AsksBefore, After, Next, Clock;
      NothingOfIts(l, h, init, k);
      assert last.request.client == k ==> last.request.now < times[|times| - l.rpm] + WINDOW by {
        AsksBeforeLast(more, k, times[|times| - l.rpm] + WINDOW);
      }
      OneMoreRefused(l, h + init, last, k);
    }
  }

  lemma AsksBeforeLast(more: seq<Entry>, k: Client, t: real)
    requires AsksBefore(more, k, t) && more != []
    ensures more[|more| - 1].request.client == k ==> more[|more| - 1].request.now < t
  {
  }

  lemma OneMoreRefused(l: Limits, h: seq<Entry>, e: Entry, k: Client)
    requires l.rpm >= 1 && Answered(l, h + [e]) && |Accepted(h, k)| >= l.rpm
    requires var times := Accepted(h, k); e.request.client == k ==> e.request.now < times[|times| - l.rpm] + WINDOW
    ensures Accepted(h + [e], k) == Accepted(h, k)
  {
    hide Answered, After, Next, Accepted, Clock;
    AnsweredLast(l, h, e);
    AcceptedAfter(h, e, k);
    if e.request.client == k {
      FullRefuses(l, h, e.request);
    }
  }

  lemma AnsweredLast(l: Limits, h: seq<Entry>, e: Entry)
    requires l.rpm >= 1 && Answered(l, h + [e])
    ensures Answered(l, h) && Clock(h) <= e.request.now && e.allowed == Next(l, After(l, h), e.request).1.Allowed?
  {
    assert (h + [e])[..|h|] == h;
  }

  lemma {:induction false} NotAsking(h: seq<Entry>, more: seq<Entry>, k: Client)
    requires forall m <- more :: m.request.client != k
    ensures Accepted(h + more, k) == Accepted(h, k)
    decreases |more|
  {
    if more == [] {
      assert h + more == h;
    } else {
      var init, last := more[..|more| - 1], more[|more| - 1];
      assert h + more == (h + init) + [last] && last in more;
      assert forall m <- init :: m in more;
      NotAsking(h, init, k);
      AcceptedAfter(h + init, last, k);
    }
  }

  /** The clients active at the sweep due at `now`. */
  ghost predicate ActiveAt(h: seq<Entry>, now: real, active: set<Client>) {
    forall k: Client :: k in active <==> Active(Accepted(h, k), Due(SweptAt(h), now))
  }

  /** A client that was refused for its full window, asks again after exactly the wait it was told and not at that
      moment already, is let in if and only if it is still active or there is a place for it, whoever else asked
      in the meantime. */
  lemma WaitingForWindow(l: Limits, h: seq<Entry>, e: Entry, more: seq<Entry>) returns (active: set<Client>)
    requires l.rpm >= 1 && Answered(l, h + [e] + more) && !e.allowed
    requires e.request.client in Swept(After(l, h), e.request.now).windows
    requires Next(l, After(l, h), e.request).1.Refused?
    requires var again := e.request.now + Next(l, After(l, h), e.request).1.retryAfter;
             Clock(h + [e] + more) <= again
             && AsksBefore(more, e.request.client, again)
    ensures var again := e.request.now + Next(l, After(l, h), e.request).1.retryAfter;
            var all := h + [e] + more;
            ActiveAt(all, again, active)
            && (Next(l, After(l, all), Request(e.request.client, again)).1.Allowed?
                <==> e.request.client in active || |active| < l.maxClients)
  {
    hide Next, Swept, Answered, After, Accepted, SweptAt, Clock, Exact, Keeps, Recent;
    var k, all := e.request.client, h + [e];
    AnsweredPrefix(l, all, more);
    var w := FullWindow(l, h, e);
    var again := e.request.now + Next(l, After(l, h), e.request).1.retryAfter;
    FullTimes(l, all, k, w);
    assert again == w[0] + WINDOW;
    NothingOfIts(l, all, more, k);
    active := DecidedByHistory(l, all + more, Request(k, again));
    FreeAgain(l, all + more, k, again);
  }

  /** The kept window is the last `rpm` accepted times. */
  lemma FullTimes(l: Limits, h: seq<Entry>, k: Client, w: seq<real>)
    requires l.rpm >= 1 && Answered(l, h) && k in After(l, h).windows && After(l, h).windows[k] == w && |w| == l.rpm
    ensures var times := Accepted(h, k); |times| >= l.rpm && times[|times| - l.rpm] == w[0]
  {
    EveryRun(l, h);
    assert Exact(l, After(l, h), k, Accepted(h, k), Clock(h));
  }

  lemma FreeAgain(l: Limits, h: seq<Entry>, k: Client, again: real)
    requires l.rpm >= 1 && Answered(l, h) && |Accepted(h, k)| >= l.rpm
    requires var times := Accepted(h, k); again == times[|times| - l.rpm] + WINDOW
    ensures |Recent(Accepted(h, k), again - WINDOW)| < l.rpm
  {
    TimesSorted(l, h, k);
    var times := Accepted(h, k);
    hide After, Accepted, Answered;
    OldPast(times, Clock(h), |times| - l.rpm, again - WINDOW);
  }

  /** A new client that was refused for a full table and asks again after the minute is let in if and only if
      fewer clients than the table holds are active at the sweep due then, whoever else asked in the meantime. */
  lemma WaitingForTable(l: Limits, h: seq<Entry>, e: Entry, more: seq<Entry>) returns (active: set<Client>)
    requires l.rpm >= 1 && Answered(l, h + [e] + more) && !e.allowed
    requires e.request.client !in Swept(After(l, h), e.request.now).windows
    requires Clock(h + [e] + more) <= e.request.now + WINDOW
    requires forall m <- more :: m.request.client != e.request.client
    ensures Next(l, After(l, h), e.request).1 == Refused(WINDOW)
    ensures var again, all := e.request.now + WINDOW, h + [e] + more;
            ActiveAt(all, again, active)
            && (Next(l, After(l, all), Request(e.request.client, again)).1.Allowed? <==> |active| < l.maxClients)
  {
    var k, all, again := e.request.client, h + [e], e.request.now + WINDOW;
    AnsweredPrefix(l, all, more);
    TableRefusal(l, h, e);
    NotAsking(all, more, k);
    AcceptedAfter(h, e, k);
    SweptLater(all, more);
    SweepsOnward(SweptAt(all + more), again);
    hide Next, Swept, Answered, After, Accepted, SweptAt, Clock, Recent;
    active := DecidedByHistory(l, all + more, Request(k, again));
  }

  lemma TableRefusal(l: Limits, h: seq<Entry>, e: Entry)
    requires l.rpm >= 1 && Answered(l, h + [e]) && !e.allowed
    requires e.request.client !in Swept(After(l, h), e.request.now).windows
    ensures Next(l, After(l, h), e.request).1 == Refused(WINDOW)
    ensures !Active(Accepted(h, e.request.client), SweptAt(h + [e]))
  {
    var all := h + [e];
    assert all[..|all| - 1] == h;
    EveryRun(l, h);
    SweptInvAt(l, h, After(l, h), e.request.now, e.request.client);
    SweptInv(l, h, After(l, h), e.request.now);
    hide Swept, After, Accepted;
  }

  /** With others asking meanwhile a full table may stay full: another client renews its place. */
  lemma TableMayStayFull(l: Limits)
    requires l == Limits(1, 1)
    ensures var h := [Entry(Request("a", 0.0), true), Entry(Request("b", 1.0), false), Entry(Request("a", 60.5), true)];
            Answered(l, h) && Next(l, After(l, h[..1]), Request("b", 1.0)).1 == Refused(60.0)
            && Next(l, After(l, h), Request("b", 61.0)).1 == Refused(60.0)
  {
    var a, b, c := Entry(Request("a", 0.0), true), Entry(Request("b", 1.0), false), Entry(Request("a", 60.5), true);
    Alone(l, a, b, c);
    var t := Table(map["a" := [0.0]], 0.0);
    assert Fresh(t.windows, 0.5) == map[];
    FirstIn(l, t, "a", 60.5);
    assert Next(l, t, b.request) == (t, Refused(60.0));
  }

  /** Even a place in one's own window is not certain when others ask at the very moment it gets free:
      the table may be swept and filled first. */
  lemma PlaceMayBeTaken(l: Limits)
    requires l == Limits(1, 1)
    ensures var h := [Entry(Request("a", 0.0), true), Entry(Request("a", 30.0), false), Entry(Request("b", 60.0), true)];
            Answered(l, h) && Next(l, After(l, h[..1]), Request("a", 30.0)).1 == Refused(30.0)
            && Next(l, After(l, h), Request("a", 60.0)).1 == Refused(60.0)
  {
    var a, b, c := Entry(Request("a", 0.0), true), Entry(Request("a", 30.0), false), Entry(Request("b", 60.0), true);
    Alone(l, a, b, c);
    var t := Table(map["a" := [0.0]], 0.0);
    assert Old([0.0], -30.0) == 0 && Put(t, "a", [0.0]) == t;
    assert Fresh(t.windows, 0.0) == map[];
    FirstIn(l, t, "b", 60.0);
    assert Next(l, t, b.request) == (t, Refused(30.0));
  }

  lemma FirstIn(l: Limits, t: Table, client: Client, now: real)
    requires l == Limits(1, 1) && Swept(t, now).windows == map[]
    ensures Next(l, t, Request(client, now)) == (Table(map[client := [now]], Swept(t, now).lastSweep), Allowed)
  {
    assert Recent([], now - WINDOW) == [] && [] + [now] == [now];
    assert map[][client := [now]] == map[client := [now]];
  }

  /** The start of both examples: the first client takes the only place. */
  lemma Alone(l: Limits, a: Entry, b: Entry, c: Entry)
    requires l == Limits(1, 1) && a == Entry(Request("a", 0.0), true)
    ensures var h := [a, b, c];
      && h[..2] == [a, b] && h[..1] == [a] && h[..2][..1] == [a] && h[..1][..0] == []
      && After(l, [a]) == Table(map["a" := [0.0]], 0.0) && Answered(l, [a])
  {
    FirstIn(l, Table(map[], 0.0), "a", 0.0);
    assert After(l, []) == Table(map[], 0.0);
    assert [a][..0] == [];
  }
}
