/** What a usage report says, by the times and dimensions of the calls alone. */
module LedgerLaws {
  import opened Common
  import opened Ledger

  /** The length of a report's periods in seconds. */
  function Length(b: Bucket): int { if b == Daily then 86400 else 3600 }

  /** A call that report `q` counts for group `g`: made in the group's period and the range asked for, for the subject
      asked for, and with the dimensions of the group. */
  predicate Counts(q: Query, g: Group, e: Entry) {
    && g.period as real <= e.at < (g.period + Length(q.bucket)) as real
    && (q.since.Some? ==> q.since.value as real <= e.at) && (q.until.Some? ==> e.at < q.until.value as real)
    && (q.subject.Some? ==> e.dims.subject == q.subject.value)
    && g.subject == (if q.bySubject then Some(e.dims.subject) else None)
    && g.provider == (if q.byProvider then Some(e.dims.provider) else None)
    && g.model == (if q.byModel then Some(e.dims.model) else None)
  }

  /** Requests, tokens and cost of those calls. */
  function SumFor(q: Query, g: Group, es: seq<Entry>): Amount {
    if es == [] then Amount(0, 0, 0, 0.0) else
    var rest := SumFor(q, g, es[1..]);
    var a := es[0].amount;
    if Counts(q, g, es[0])
    then Amount(a.requests + rest.requests, a.input + rest.input, a.output + rest.output, a.cost + rest.cost)
    else rest
  }

  /** Rows are hourly: a call is in the row of the hour it was made in. */
  lemma HourHolds(t: real)
    ensures HourOf(t) % 3600 == 0 && HourOf(t) as real <= t < (HourOf(t) + 3600) as real
  {
    var h := HourOf(t);
    assert h == (t / 3600.0).Floor * 3600;
    HourAtLeast(t, h);
    HourAtLeast(t, h + 3600);
    assert (h + 3600) % 3600 == 0;
  }

  lemma PeriodHolds(hour: int, b: Bucket, t: real, p: int)
    requires hour % 3600 == 0 && hour as real <= t < (hour + 3600) as real && p % Length(b) == 0
    ensures PeriodOf(hour, b) == p <==> p as real <= t < (p + Length(b)) as real
    ensures PeriodOf(hour, b) % Length(b) == 0
  {
    assert p as real <= t < (p + Length(b)) as real <==> p <= hour < p + Length(b) by { Within(hour, b, t, p); }
    PeriodStarts(hour, b, p);
  }

  /** A period that holds a moment of an hour holds the whole hour. */
  lemma Within(hour: int, b: Bucket, t: real, p: int)
    requires hour % 3600 == 0 && hour as real <= t < (hour + 3600) as real && p % Length(b) == 0
    ensures p as real <= t < (p + Length(b)) as real <==> p <= hour < p + Length(b)
  {
    WholeHours(p, hour, b);
    assert p as real <= t <==> p <= hour by { if p > hour { assert p >= hour + 3600; } }
    assert t < (p + Length(b)) as real <==> hour < p + Length(b) by {
      if hour < p + Length(b) { assert hour + 3600 <= p + Length(b); }
    }
  }

  lemma WholeHours(p: int, hour: int, b: Bucket)
    requires hour % 3600 == 0 && p % Length(b) == 0
    ensures (p <= hour || p >= hour + 3600) && (hour >= p + Length(b) || hour + 3600 <= p + Length(b))
  {
    if b == Daily {
      InHour(p, 24 * (p / 86400));
    }
  }

  lemma PeriodStarts(hour: int, b: Bucket, p: int)
    requires p % Length(b) == 0
    ensures PeriodOf(hour, b) == p <==> p <= hour < p + Length(b)
    ensures PeriodOf(hour, b) % Length(b) == 0
  {
    if b == Daily {
      InDay(hour, p / 86400);
    } else {
      InHour(hour, p / 3600);
    }
  }

  lemma InDay(x: int, k: int)
    ensures x - x % 86400 == 86400 * k <==> 86400 * k <= x < 86400 * k + 86400
    ensures (x - x % 86400) % 86400 == 0
  {
  }

  lemma InHour(x: int, k: int)
    ensures x - x % 3600 == 3600 * k <==> 3600 * k <= x < 3600 * k + 3600
    ensures (x - x % 3600) % 3600 == 0
  {
  }

  lemma CountsByRow(q: Query, g: Group, e: Entry)
    requires !Refused(q) && g.period % Length(q.bucket) == 0
    ensures Counts(q, g, e) <==> Matches(q, HourOf(e.at), e.dims) && GroupOf(q, HourOf(e.at), e.dims) == g
  {
    HourHolds(e.at);
    PeriodHolds(HourOf(e.at), q.bucket, e.at, g.period);
    AskedByHour(q, e);
    assert Asked(q, e) <==> Matches(q, HourOf(e.at), e.dims);
    hide HourOf, PeriodOf, Matches, Refused;
  }

  lemma AddedIf(yes: bool, a: Amount, rest: Amount)
    ensures ZERO == Amount(0, 0, 0, 0.0)
    ensures Plus(If(yes, a), rest) ==
      if yes then Amount(a.requests + rest.requests, a.input + rest.input, a.output + rest.output, a.cost + rest.cost) else rest
  {
  }

  lemma BehindCounts(q: Query, g: Group, e: Entry)
    requires !Refused(q) && g.period % Length(q.bucket) == 0
    ensures Behind(q, Only(g))(HourOf(e.at), e.dims) <==> Counts(q, g, e)
  {
    CountsByRow(q, g, e);
    hide Counts, Matches, GroupOf, HourOf, Refused;
  }

  lemma {:induction false} MadeIsSum(q: Query, g: Group, es: seq<Entry>)
    requires !Refused(q) && g.period % Length(q.bucket) == 0
    ensures Made(es, Behind(q, Only(g))) == SumFor(q, g, es)
  {
    hide Counts, HourOf, Refused, Plus, If, Behind;
    if es == [] {
      AddedIf(false, ZERO, ZERO);
    } else {
      MadeIsSum(q, g, es[1..]);
      BehindCounts(q, g, es[0]);
      AddedIf(Counts(q, g, es[0]), es[0].amount, SumFor(q, g, es[1..]));
    }
  }

  lemma GroupAligned(q: Query, hour: int, d: Dims)
    ensures GroupOf(q, hour, d).period % Length(q.bucket) == 0
  {
    PeriodStarts(hour, q.bucket, 0);
  }

  /** Every line of a report on any run is the sum of the calls it stands for, of those still retained. */
  lemma LineIsSum(c: Config, run: seq<Call>, q: Query, i: nat)
    requires !Refused(q) && i < |Aggregate(q, After(c, run))|
    ensures var line := Aggregate(q, After(c, run))[i]; line.amount == SumFor(q, line.group, Retained(c, run))
  {
    var rows := After(c, run);
    var items := Aggregate(q, rows);
    var g := items[i].group;
    AggregateOneEach(q, rows);
    SumListed(items, i);
    ReportSums(q, rows, Only(g));
    RowsAccount(c, run, Behind(q, Only(g)));
    ListedItem(items, g);
    GroupsListed(q, rows, g);
    var r :| r in rows && Asks(q, r, g);
    hide Aggregate, After, Retained, Refused, Matches;
    GroupAligned(q, r.hour, r.dims);
    MadeIsSum(q, g, Retained(c, run));
  }

  /** And every retained call has its line. */
  lemma CallHasLine(c: Config, run: seq<Call>, q: Query, g: Group, e: Entry)
    requires !Refused(q) && g.period % Length(q.bucket) == 0 && e in Retained(c, run) && Counts(q, g, e)
    ensures Listed(Aggregate(q, After(c, run)), g)
  {
    CountsByRow(q, g, e);
    EntryHasRow(c, run, e);
    var r :| r in After(c, run) && r.hour == HourOf(e.at) && r.dims == e.dims;
    hide After, Retained, Counts;
    GroupsListed(q, After(c, run), g);
    assert Asks(q, r, g);
  }

  lemma {:induction false} EntryHasRow(c: Config, run: seq<Call>, e: Entry)
    requires e in Retained(c, run)
    ensures Has(After(c, run), HourOf(e.at), e.dims)
    decreases |run|
  {
    hide *;
    SomeCall(c, run, e);
    var before, call := run[..|run| - 1], run[|run| - 1];
    assert run == before + [call];
    StillThere(c, before, call, e);
    if e in Retained(c, before) {
      EntryHasRow(c, before, e);
    }
    EntryStays(c, before, call, e);
  }

  lemma EntryStays(c: Config, before: seq<Call>, call: Call, e: Entry)
    requires Has(After(c, before), HourOf(e.at), e.dims) || e == call.entry
    requires !Has(Dropped(c, After(c, before), call), HourOf(e.at), e.dims)
    ensures Has(After(c, before + [call]), HourOf(e.at), e.dims)
  {
    hide *;
    EveryRun(c, before);
    NotedHas(After(c, before), call.entry, e);
    RowStays(c, After(c, before), call, HourOf(e.at), e.dims);
    AfterOne(c, before, call);
  }

  lemma SomeCall(c: Config, run: seq<Call>, e: Entry)
    requires e in Retained(c, run)
    ensures run != []
  {
    hide Still, Dropped;
  }

  lemma AfterOne(c: Config, before: seq<Call>, call: Call)
    ensures After(c, before + [call]) == Recorded(c, After(c, before), call)
  {
    assert (before + [call])[..|before|] == before;
  }

  lemma RowStays(c: Config, rows: seq<Row>, call: Call, hour: int, dims: Dims)
    requires Sorted(rows) && Distinct(rows) && Has(Noted(rows, call.entry), hour, dims)
    requires !Has(Dropped(c, rows, call), hour, dims)
    ensures Has(Recorded(c, rows, call), hour, dims)
  {
    var n := DroppedPrefix(c, rows, call);
    var noted := Noted(rows, call.entry);
    hide *;
    RowInRest(noted, n, hour, dims);
  }

  lemma RowInRest(noted: seq<Row>, n: nat, hour: int, dims: Dims)
    requires n <= |noted| && Has(noted, hour, dims) && !Has(noted[..n], hour, dims)
    ensures Has(noted[n..], hour, dims)
  {
    var r :| r in noted && r.hour == hour && r.dims == dims;
    assert noted == noted[..n] + noted[n..];
  }

  lemma StillThere(c: Config, before: seq<Call>, call: Call, e: Entry)
    requires e in Retained(c, before + [call])
    ensures e == call.entry || e in Retained(c, before)
    ensures !Has(Dropped(c, After(c, before), call), HourOf(e.at), e.dims)
  {
    var run := before + [call];
    assert run[..|run| - 1] == before && run[|run| - 1] == call;
    assert e in Retained(c, before) + [call.entry];
  }

  lemma NotedHas(rows: seq<Row>, call: Entry, e: Entry)
    requires Has(rows, HourOf(e.at), e.dims) || e == call
    ensures Has(Noted(rows, call), HourOf(e.at), e.dims)
  {
    var hour := HourOf(call.at);
    var there := if Has(rows, hour, call.dims) then rows else Place(rows, Row(hour, call.dims, ZERO));
    assert Has(there, HourOf(e.at), e.dims);
    var x :| x in there && x.hour == HourOf(e.at) && x.dims == e.dims;
    var i :| 0 <= i < |there| && there[i] == x;
    assert AddTo(there, hour, call.dims, call.amount)[i] in AddTo(there, hour, call.dims, call.amount);
  }

  /** A row leaves only when its hour began longer ago than usage is kept, or when there are too many rows and it is
      among the oldest. */
  lemma LeavesFor(c: Config, run: seq<Call>, call: Call, r: Row)
    requires r in Noted(After(c, run), call.entry) && r !in Recorded(c, After(c, run), call)
    ensures r.hour as real < call.clock - c.retention as real || |Noted(After(c, run), call.entry)| > c.maxRows
    ensures forall x <- Recorded(c, After(c, run), call) :: r.hour <= x.hour
  {
    var rows := After(c, run);
    EveryRun(c, run);
    NotedKeeps(rows, call.entry);
    hide After, Noted;
    PrunedFor(Noted(rows, call.entry), call.clock - c.retention as real, c.maxRows, r);
  }

  lemma InSuffix(rows: seq<Row>, n: nat, i: nat)
    requires n <= |rows|
    ensures n <= i < |rows| ==> rows[i] in rows[n..]
  {
    assert rows == rows[..n] + rows[n..];
  }

  lemma PrunedFor(rows: seq<Row>, cutoff: real, max: nat, r: Row)
    requires Sorted(rows) && Distinct(rows) && r in rows && r !in Pruned(rows, cutoff, max)
    ensures r.hour as real < cutoff || |rows| > max
    ensures forall x <- Pruned(rows, cutoff, max) :: r.hour <= x.hour
  {
    var n := PrunesPrefix(rows, cutoff, max);
    var i :| 0 <= i < |rows| && rows[i] == r;
    hide Pruned, Distinct;
    InSuffix(rows, n, i);
    forall x <- rows[n..] ensures r.hour <= x.hour {
      var j :| 0 <= j < |rows[n..]| && rows[n..][j] == x;
      assert rows[n + j] == x;
    }
  }
}
