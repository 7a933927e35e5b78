/** The usage ledger: hourly rows per subject, provider and model, and reports over them. */
module Ledger {
  import opened Common

  datatype Dims = Dims(subject: string, provider: string, model: string)

  datatype Amount = Amount(requests: int, input: int, output: int, cost: real)

  /** One hourly row. */
  datatype Row = Row(hour: int, dims: Dims, amount: Amount)

  /** One call of `record`. */
  datatype Entry = Entry(at: real, dims: Dims, amount: Amount)

  const HOUR := 3600
  const DAY := 86400

  const ZERO := Amount(0, 0, 0, 0.0)

  function Plus(a: Amount, b: Amount): Amount {
    Amount(a.requests + b.requests, a.input + b.input, a.output + b.output, a.cost + b.cost)
  }

  function HourOf(t: real): int {
    (t / HOUR as real).Floor * HOUR
  }

  /** What a call adds: negative tokens and cost count as none. */
  function Added(requests: int, input: int, output: int, cost: real): Amount {
    Amount(requests, if input > 0 then input else 0, if output > 0 then output else 0, if cost > 0.0 then cost else 0.0)
  }

  // ---- rows ---------------------------------------------------------------------------------------

  predicate Sorted(rows: seq<Row>) {
    forall i, j :: 0 <= i < j < |rows| ==> rows[i].hour <= rows[j].hour
  }

  predicate Has(rows: seq<Row>, hour: int, dims: Dims) {
    exists r <- rows :: r.hour == hour && r.dims == dims
  }

  predicate Distinct(rows: seq<Row>) {
    rows == [] || (!Has(rows[1..], rows[0].hour, rows[0].dims) && Distinct(rows[1..]))
  }

  /** Stable insertion by hour, as a stable sort of the rows with the new one last does it. */
  function Place(rows: seq<Row>, r: Row): (all: seq<Row>)
    ensures forall x :: x in all <==> x in rows || x == r
    ensures |all| == |rows| + 1
  {
    if rows == [] || rows[|rows| - 1].hour <= r.hour then rows + [r]
    else
      assert rows == rows[..|rows| - 1] + [rows[|rows| - 1]];
      Place(rows[..|rows| - 1], r) + [rows[|rows| - 1]]
  }

  function AddTo(rows: seq<Row>, hour: int, dims: Dims, a: Amount): (all: seq<Row>)
    ensures |all| == |rows|
    ensures forall i :: 0 <= i < |all| ==> all[i].hour == rows[i].hour && all[i].dims == rows[i].dims
  {
    if rows == [] then []
    else if rows[0].hour == hour && rows[0].dims == dims then [rows[0].(amount := Plus(rows[0].amount, a))] + rows[1..]
    else [rows[0]] + AddTo(rows[1..], hour, dims, a)
  }

  /** `record`, before pruning. */
  function Noted(rows: seq<Row>, e: Entry): seq<Row> {
    var hour := HourOf(e.at);
    var there := if Has(rows, hour, e.dims) then rows else Place(rows, Row(hour, e.dims, ZERO));
    AddTo(there, hour, e.dims, e.amount)
  }

  /** `_prune`: rows leave from the oldest end. */
  function Pruned(rows: seq<Row>, cutoff: real, max: nat): seq<Row> {
    if rows != [] && (rows[0].hour as real < cutoff || |rows| > max) then Pruned(rows[1..], cutoff, max) else rows
  }

  lemma {:induction false} PlaceSorted(rows: seq<Row>, r: Row)
    requires Sorted(rows)
    ensures Sorted(Place(rows, r))
  {
    if rows != [] && rows[|rows| - 1].hour > r.hour {
      var init, last := rows[..|rows| - 1], rows[|rows| - 1];
      PlaceSorted(init, r);
      forall x <- Place(init, r) ensures x.hour <= last.hour {
        if x != r {
          var i :| 0 <= i < |init| && init[i] == x;
        }
      }
    }
  }

  lemma {:induction false} AppendDistinct(rows: seq<Row>, r: Row)
    requires Distinct(rows) && !Has(rows, r.hour, r.dims)
    ensures Distinct(rows + [r])
  {
    if rows == [] {
      assert [r][1..] == [];
    } else {
      assert rows == [rows[0]] + rows[1..];
      AppendDistinct(rows[1..], r);
      assert (rows + [r])[1..] == rows[1..] + [r];
    }
  }

  lemma {:induction false} PrefixDistinct(rows: seq<Row>, n: nat)
    requires n <= |rows| && Distinct(rows)
    ensures Distinct(rows[..n])
  {
    if n > 0 {
      PrefixDistinct(rows[1..], n - 1);
      assert rows[..n][1..] == rows[1..][..n - 1];
      assert forall x <- rows[..n][1..] :: x in rows[1..];
    }
  }

  lemma {:induction false} LastApart(rows: seq<Row>)
    requires rows != [] && Distinct(rows)
    ensures var last := rows[|rows| - 1]; !Has(rows[..|rows| - 1], last.hour, last.dims)
  {
    if |rows| > 1 {
      LastApart(rows[1..]);
      var init, last := rows[..|rows| - 1], rows[|rows| - 1];
      assert rows[1..][|rows| - 2] == last && rows[1..][..|rows| - 2] == init[1..];
      assert last in rows[1..];
      assert init == [rows[0]] + init[1..];
    }
  }

  lemma {:induction false} PlaceDistinct(rows: seq<Row>, r: Row)
    requires Distinct(rows) && !Has(rows, r.hour, r.dims)
    ensures Distinct(Place(rows, r))
  {
    if rows == [] || rows[|rows| - 1].hour <= r.hour {
      AppendDistinct(rows, r);
    } else {
      var init, last := rows[..|rows| - 1], rows[|rows| - 1];
      assert rows == init + [last];
      PrefixDistinct(rows, |rows| - 1);
      LastApart(rows);
      PlaceDistinct(init, r);
      AppendDistinct(Place(init, r), last);
    }
  }

  lemma {:induction false} AddDistinct(rows: seq<Row>, hour: int, dims: Dims, a: Amount)
    requires Distinct(rows)
    ensures Distinct(AddTo(rows, hour, dims, a))
    ensures forall h, d :: Has(AddTo(rows, hour, dims, a), h, d) <==> Has(rows, h, d)
  {
    if rows != [] {
      assert rows == [rows[0]] + rows[1..];
      AddDistinct(rows[1..], hour, dims, a);
      var all := AddTo(rows, hour, dims, a);
      assert all == [all[0]] + all[1..];
    }
  }

  /** Pruning drops exactly a prefix: rows past retention or over the limit, and none that is neither. */
  lemma {:induction false} PrunesPrefix(rows: seq<Row>, cutoff: real, max: nat) returns (n: nat)
    requires Sorted(rows) && Distinct(rows)
    ensures n <= |rows| && Pruned(rows, cutoff, max) == rows[n..]
    ensures forall i :: 0 <= i < n ==> rows[i].hour as real < cutoff || |rows| - i > max
    ensures |rows| - n <= max && forall i :: n <= i < |rows| ==> rows[i].hour as real >= cutoff
    ensures Sorted(rows[n..]) && Distinct(rows[n..])
  {
    hide *;
    PrunesOne(rows, cutoff, max);
    if rows != [] && (rows[0].hour as real < cutoff || |rows| > max) {
      TailFine(rows);
      var m := PrunesPrefix(rows[1..], cutoff, max);
      n := m + 1;
      ShiftedTail(rows, m);
    } else {
      n := 0;
      assert rows[0..] == rows;
      NoneOld(rows, cutoff);
    }
  }

  lemma PrunesOne(rows: seq<Row>, cutoff: real, max: nat)
    ensures Pruned(rows, cutoff, max) ==
      if rows != [] && (rows[0].hour as real < cutoff || |rows| > max) then Pruned(rows[1..], cutoff, max) else rows
  {
  }

  lemma ShiftedTail(rows: seq<Row>, m: nat)
    requires m < |rows|
    ensures rows[1..][m..] == rows[m + 1..] && forall i :: 0 < i < |rows| ==> rows[i] == rows[1..][i - 1]
  {
  }

  lemma NoneOld(rows: seq<Row>, cutoff: real)
    requires Sorted(rows) && (rows != [] ==> rows[0].hour as real >= cutoff)
    ensures forall i :: 0 <= i < |rows| ==> rows[i].hour as real >= cutoff
  {
  }

  lemma TailFine(rows: seq<Row>)
    requires rows != [] && Sorted(rows) && Distinct(rows)
    ensures Sorted(rows[1..]) && Distinct(rows[1..])
  {
  }

  // ---- totals ---------------------------------------------------------------------------------------

  type Pick = (int, Dims) -> bool

  function If(yes: bool, a: Amount): Amount { if yes then a else ZERO }

  lemma PlusLaws(a: Amount, b: Amount, c: Amount)
    ensures Plus(a, ZERO) == a == Plus(ZERO, a) && Plus(a, b) == Plus(b, a)
    ensures Plus(Plus(a, b), c) == Plus(a, Plus(b, c)) == Plus(Plus(a, c), b)
  {
  }

  function Total(rows: seq<Row>, pick: Pick): Amount {
    if rows == [] then ZERO
    else Plus(If(pick(rows[0].hour, rows[0].dims), rows[0].amount), Total(rows[1..], pick))
  }

  function Made(entries: seq<Entry>, pick: Pick): Amount {
    if entries == [] then ZERO
    else Plus(If(pick(HourOf(entries[0].at), entries[0].dims), entries[0].amount), Made(entries[1..], pick))
  }

  lemma {:induction false} TotalConcat(a: seq<Row>, b: seq<Row>, pick: Pick)
    ensures Total(a + b, pick) == Plus(Total(a, pick), Total(b, pick))
  {
    if a == [] {
      assert a + b == b;
    } else {
      assert (a + b)[1..] == a[1..] + b;
      TotalConcat(a[1..], b, pick);
    }
  }

  lemma {:induction false} MadeAppend(es: seq<Entry>, e: Entry, pick: Pick)
    ensures Made(es + [e], pick) == Plus(Made(es, pick), If(pick(HourOf(e.at), e.dims), e.amount))
  {
    if es == [] {
      assert [e][1..] == [];
    } else {
      assert (es + [e])[1..] == es[1..] + [e];
      MadeAppend(es[1..], e, pick);
    }
  }

  lemma TotalOne(r: Row, pick: Pick)
    ensures Total([r], pick) == If(pick(r.hour, r.dims), r.amount)
  {
    assert [r][1..] == [] && Total([], pick) == ZERO;
    PlusLaws(If(pick(r.hour, r.dims), r.amount), ZERO, ZERO);
  }

  lemma {:induction false} PlaceTotal(rows: seq<Row>, r: Row, pick: Pick)
    ensures Total(Place(rows, r), pick) == Plus(Total(rows, pick), If(pick(r.hour, r.dims), r.amount))
  {
    hide Plus, Total, If;
    TotalOne(r, pick);
    if rows == [] || rows[|rows| - 1].hour <= r.hour {
      TotalConcat(rows, [r], pick);
    } else {
      var init, last := rows[..|rows| - 1], rows[|rows| - 1];
      assert rows == init + [last];
      PlaceTotal(init, r, pick);
      TotalConcat(init, [last], pick);
      TotalConcat(Place(init, r), [last], pick);
      PlusLaws(Total(init, pick), If(pick(r.hour, r.dims), r.amount), Total([last], pick));
    }
  }

  lemma {:induction false} AddTotal(rows: seq<Row>, hour: int, dims: Dims, a: Amount, pick: Pick)
    requires Has(rows, hour, dims)
    ensures Total(AddTo(rows, hour, dims, a), pick) == Plus(Total(rows, pick), If(pick(hour, dims), a))
  {
    hide Plus, If;
    var r, rest := rows[0], rows[1..];
    assert rows == [r] + rest;
    TotalCons(r, rest, pick);
    if r.hour == hour && r.dims == dims {
      assert AddTo(rows, hour, dims, a) == [r.(amount := Plus(r.amount, a))] + rest;
      TotalCons(r.(amount := Plus(r.amount, a)), rest, pick);
      hide Total, AddTo;
      IfPlus(pick(hour, dims), r.amount, a, Total(rest, pick));
    } else {
      AddTotal(rest, hour, dims, a, pick);
      assert AddTo(rows, hour, dims, a) == [r] + AddTo(rest, hour, dims, a);
      TotalCons(r, AddTo(rest, hour, dims, a), pick);
      hide Total, AddTo;
      PlusLaws(If(pick(r.hour, r.dims), r.amount), Total(rest, pick), If(pick(hour, dims), a));
    }
  }

  lemma TotalCons(r: Row, rest: seq<Row>, pick: Pick)
    ensures Total([r] + rest, pick) == Plus(If(pick(r.hour, r.dims), r.amount), Total(rest, pick))
  {
    assert ([r] + rest)[1..] == rest;
  }

  lemma NotedTotal(rows: seq<Row>, e: Entry, pick: Pick)
    ensures Total(Noted(rows, e), pick) == Plus(Total(rows, pick), If(pick(HourOf(e.at), e.dims), e.amount))
  {
    var hour := HourOf(e.at);
    if Has(rows, hour, e.dims) {
      AddTotal(rows, hour, e.dims, e.amount, pick);
    } else {
      var r := Row(hour, e.dims, ZERO);
      PlaceTotal(rows, r, pick);
      assert r in Place(rows, r);
      AddTotal(Place(rows, r), hour, e.dims, e.amount, pick);
    }
  }

  lemma {:induction false} TotalSame(rows: seq<Row>, f: Pick, g: Pick)
    requires forall i :: 0 <= i < |rows| ==> f(rows[i].hour, rows[i].dims) == g(rows[i].hour, rows[i].dims)
    ensures Total(rows, f) == Total(rows, g)
  {
    hide Plus;
    if rows != [] {
      TotalSame(rows[1..], f, g);
    }
  }

  lemma TotalSkips(rows: seq<Row>, f: Pick)
    requires rows != [] && !f(rows[0].hour, rows[0].dims)
    ensures Total(rows, f) == Total(rows[1..], f)
  {
    PlusLaws(Total(rows[1..], f), ZERO, ZERO);
  }

  lemma {:induction false} TotalNone(rows: seq<Row>, f: Pick)
    requires forall i :: 0 <= i < |rows| ==> !f(rows[i].hour, rows[i].dims)
    ensures Total(rows, f) == ZERO
  {
    if rows == [] {
      assert Total([], f) == ZERO;
    } else {
      TotalSkips(rows, f);
      hide Total;
      TotalNone(rows[1..], f);
    }
  }

  /** The rows left over a dropped prefix are those whose bucket the prefix does not hold. */
  lemma {:induction false} SuffixApart(rows: seq<Row>, n: nat, r: Row)
    requires n <= |rows| && Distinct(rows) && r in rows[n..]
    ensures !Has(rows[..n], r.hour, r.dims)
  {
    if n > 0 {
      assert rows[1..][n - 1..] == rows[n..];
      SuffixApart(rows[1..], n - 1, r);
      assert rows[..n] == [rows[0]] + rows[1..][..n - 1];
      assert r in rows[1..];
    }
  }

  function Leaving(pick: Pick, dropped: seq<Row>): Pick {
    (h: int, d: Dims) => pick(h, d) && !Has(dropped, h, d)
  }

  lemma SuffixTotal(rows: seq<Row>, n: nat, pick: Pick)
    requires n <= |rows| && Distinct(rows)
    ensures Total(rows[n..], pick) == Total(rows, Leaving(pick, rows[..n]))
  {
    hide Plus, Total, Distinct;
    var left := Leaving(pick, rows[..n]);
    forall i | 0 <= i < |rows[n..]| ensures !Has(rows[..n], rows[n..][i].hour, rows[n..][i].dims) {
      SuffixApart(rows, n, rows[n..][i]);
    }
    TotalSame(rows[n..], pick, left);
    PrefixPicked(rows[..n]);
    TotalNone(rows[..n], left);
    TotalConcat(rows[..n], rows[n..], left);
    assert rows[..n] + rows[n..] == rows;
    PlusLaws(Total(rows[n..], left), ZERO, ZERO);
  }

  lemma PrefixPicked(rows: seq<Row>)
    ensures forall i :: 0 <= i < |rows| ==> Has(rows, rows[i].hour, rows[i].dims)
  {
    forall i | 0 <= i < |rows| ensures Has(rows, rows[i].hour, rows[i].dims) {
      assert rows[i] in rows;
    }
  }

  // ---- against the calls made -------------------------------------------------------------------------

  /** The entries whose row is not among `dropped`. */
  function Still(es: seq<Entry>, dropped: seq<Row>): (r: seq<Entry>)
    ensures forall e :: e in r <==> e in es && !Has(dropped, HourOf(e.at), e.dims)
  {
    if es == [] then []
    else
      assert es == [es[0]] + es[1..];
      (if !Has(dropped, HourOf(es[0].at), es[0].dims) then [es[0]] else []) + Still(es[1..], dropped)
  }

  lemma MadeCons(e: Entry, es: seq<Entry>, pick: Pick)
    ensures Made([e] + es, pick) == Plus(If(pick(HourOf(e.at), e.dims), e.amount), Made(es, pick))
    ensures !pick(HourOf(e.at), e.dims) ==> Made([e] + es, pick) == Made(es, pick)
  {
    assert ([e] + es)[1..] == es;
    PlusLaws(Made(es, pick), ZERO, ZERO);
  }

  lemma {:induction false} StillMade(es: seq<Entry>, dropped: seq<Row>, pick: Pick)
    ensures Made(Still(es, dropped), pick) == Made(es, Leaving(pick, dropped))
  {
    if es != [] {
      StillMade(es[1..], dropped, pick);
      var e, rest := es[0], Still(es[1..], dropped);
      assert es == [e] + es[1..];
      MadeCons(e, es[1..], Leaving(pick, dropped));
      MadeCons(e, rest, pick);
      assert Still(es, dropped) == if Has(dropped, HourOf(e.at), e.dims) then rest else [e] + rest;
      hide Has, Plus, Made, Still;
    }
  }

  datatype Config = Config(retention: nat, maxRows: nat)

  /** One `record` call: the entry, and the clock reading its pruning makes. */
  datatype Call = Call(entry: Entry, clock: real)

  function Cutoff(c: Config, call: Call): real {
    call.clock - c.retention as real
  }

  function Recorded(c: Config, rows: seq<Row>, call: Call): seq<Row> {
    Pruned(Noted(rows, call.entry), Cutoff(c, call), c.maxRows)
  }

  /** The rows after a run of calls, clocks arbitrary. */
  function After(c: Config, run: seq<Call>): seq<Row> {
    if run == [] then [] else Recorded(c, After(c, run[..|run| - 1]), run[|run| - 1])
  }

  /** The rows a call prunes. */
  function Dropped(c: Config, rows: seq<Row>, call: Call): seq<Row> {
    var noted := Noted(rows, call.entry);
    var n := |noted| - |Recorded(c, rows, call)|;
    if 0 <= n then noted[..n] else []
  }

  /** The entries still accounted for: all that were recorded, less those of rows pruned since. */
  function Retained(c: Config, run: seq<Call>): seq<Entry> {
    if run == [] then [] else
    var before, call := run[..|run| - 1], run[|run| - 1];
    Still(Retained(c, before) + [call.entry], Dropped(c, After(c, before), call))
  }

  lemma NotedKeeps(rows: seq<Row>, e: Entry)
    requires Sorted(rows) && Distinct(rows)
    ensures Sorted(Noted(rows, e)) && Distinct(Noted(rows, e))
  {
    var hour := HourOf(e.at);
    var r := Row(hour, e.dims, ZERO);
    if !Has(rows, hour, e.dims) {
      PlaceSorted(rows, r);
      PlaceDistinct(rows, r);
      AddDistinct(Place(rows, r), hour, e.dims, e.amount);
    } else {
      AddDistinct(rows, hour, e.dims, e.amount);
    }
  }

  /** Sorted by hour whatever the clock does, a row per bucket, within the limits of the last call. */
  lemma {:induction false} EveryRun(c: Config, run: seq<Call>)
    ensures var rows := After(c, run); Sorted(rows) && Distinct(rows) && |rows| <= c.maxRows
    ensures run != [] ==> forall r <- After(c, run) :: r.hour as real >= Cutoff(c, run[|run| - 1])
  {
    if run != [] {
      var rows, call := After(c, run[..|run| - 1]), run[|run| - 1];
      EveryRun(c, run[..|run| - 1]);
      hide Noted, Distinct, Pruned;
      NotedKeeps(rows, call.entry);
      var n := PrunesPrefix(Noted(rows, call.entry), Cutoff(c, call), c.maxRows);
    }
  }

  lemma DroppedPrefix(c: Config, rows: seq<Row>, call: Call) returns (n: nat)
    requires Sorted(rows) && Distinct(rows)
    ensures var noted := Noted(rows, call.entry);
      n <= |noted| && Distinct(noted) && Dropped(c, rows, call) == noted[..n] && Recorded(c, rows, call) == noted[n..]
  {
    hide Noted, Pruned, Distinct, Sorted;
    NotedKeeps(rows, call.entry);
    n := PrunesPrefix(Noted(rows, call.entry), Cutoff(c, call), c.maxRows);
  }

  /** Whatever is picked by hour and dimensions, the rows hold exactly what the retained calls added. */
  lemma {:induction false} RowsAccount(c: Config, run: seq<Call>, pick: Pick)
    ensures Total(After(c, run), pick) == Made(Retained(c, run), pick)
  {
    if run != [] {
      var before, call := run[..|run| - 1], run[|run| - 1];
      var rows := After(c, before);
      EveryRun(c, before);
      var n := DroppedPrefix(c, rows, call);
      hide Plus, If, Has, Recorded, Dropped, Noted, Total, Made, Distinct, Sorted, Still;
      var noted, dropped := Noted(rows, call.entry), Dropped(c, rows, call);
      var left := Leaving(pick, dropped);
      SuffixTotal(noted, n, pick);
      NotedTotal(rows, call.entry, left);
      RowsAccount(c, before, left);
      MadeAppend(Retained(c, before), call.entry, left);
      StillMade(Retained(c, before) + [call.entry], dropped, pick);
    }
  }

  // ---- reports ------------------------------------------------------------------------------------------

  datatype Bucket = Hourly | Daily

  datatype Query = Query(subject: Option<string>, since: Option<int>, until: Option<int>, bucket: Bucket,
                         bySubject: bool, byProvider: bool, byModel: bool)

  /** What a report row is about; a dimension that is not grouped by is absent. */
  datatype Group = Group(period: int, subject: Option<string>, provider: Option<string>, model: Option<string>)

  datatype Item = Item(group: Group, amount: Amount)

  predicate Refused(q: Query) {
    || (q.since.Some? && q.until.Some? && q.since.value >= q.until.value)
    || (q.since.Some? && q.since.value % HOUR != 0) || (q.until.Some? && q.until.value % HOUR != 0)
  }

  predicate Matches(q: Query, hour: int, d: Dims) {
    && (q.subject.Some? ==> d.subject == q.subject.value)
    && (q.since.Some? ==> hour >= q.since.value) && (q.until.Some? ==> hour < q.until.value)
  }

  function PeriodOf(hour: int, bucket: Bucket): int {
    hour - hour % if bucket.Daily? then DAY else HOUR
  }

  function GroupOf(q: Query, hour: int, d: Dims): Group {
    Group(PeriodOf(hour, q.bucket), if q.bySubject then Some(d.subject) else None,
          if q.byProvider then Some(d.provider) else None, if q.byModel then Some(d.model) else None)
  }

  /** Add to the group's item, or start one. */
  function Bump(items: seq<Item>, g: Group, a: Amount): seq<Item> {
    if items == [] then [Item(g, a)]
    else if items[0].group == g then [Item(g, Plus(items[0].amount, a))] + items[1..]
    else [items[0]] + Bump(items[1..], g, a)
  }

  predicate Listed(items: seq<Item>, g: Group) {
    items != [] && (items[0].group == g || Listed(items[1..], g))
  }

  lemma {:induction false} ListedItem(items: seq<Item>, g: Group)
    ensures Listed(items, g) <==> exists i :: 0 <= i < |items| && items[i].group == g
  {
    if items != [] {
      ListedItem(items[1..], g);
      if Listed(items[1..], g) {
        var i :| 0 <= i < |items[1..]| && items[1..][i].group == g;
        assert items[i + 1].group == g;
      }
      if i :| 0 < i < |items| && items[i].group == g {
        assert items[1..][i - 1].group == g;
      }
    }
  }

  lemma {:induction false} BumpListed(items: seq<Item>, g: Group, a: Amount, x: Group)
    ensures Listed(Bump(items, g, a), x) <==> Listed(items, x) || x == g
  {
    if items == [] {
      assert Bump(items, g, a)[1..] == [];
    } else {
      BumpListed(items[1..], g, a, x);
      assert Bump(items, g, a)[1..] == if items[0].group == g then items[1..] else Bump(items[1..], g, a);
    }
  }

  /** The aggregation of a report, groups in the order they first occur. */
  function Aggregate(q: Query, rows: seq<Row>): seq<Item> {
    if rows == [] then [] else
    var init, r := rows[..|rows| - 1], rows[|rows| - 1];
    var items := Aggregate(q, init);
    if Matches(q, r.hour, r.dims) then Bump(items, GroupOf(q, r.hour, r.dims), r.amount) else items
  }

  type Choose = Group -> bool

  function SumOf(items: seq<Item>, choose: Choose): Amount {
    if items == [] then ZERO else Plus(If(choose(items[0].group), items[0].amount), SumOf(items[1..], choose))
  }

  function Only(g: Group): Choose { x => x == g }

  function Any(): Choose { x => true }

  lemma SumCons(x: Item, items: seq<Item>, choose: Choose)
    ensures SumOf([x] + items, choose) == Plus(If(choose(x.group), x.amount), SumOf(items, choose))
  {
    assert ([x] + items)[1..] == items;
  }

  lemma IfPlus(yes: bool, a: Amount, b: Amount, c: Amount)
    ensures Plus(If(yes, Plus(a, b)), c) == Plus(Plus(If(yes, a), c), If(yes, b))
  {
  }

  lemma {:induction false} BumpSum(items: seq<Item>, g: Group, a: Amount, choose: Choose)
    ensures SumOf(Bump(items, g, a), choose) == Plus(SumOf(items, choose), If(choose(g), a))
  {
    hide Plus, If;
    if items == [] {
      assert [Item(g, a)][1..] == [];
      PlusLaws(If(choose(g), a), ZERO, ZERO);
    } else {
      var x, rest := items[0], items[1..];
      assert items == [x] + rest;
      SumCons(x, rest, choose);
      if x.group == g {
        assert Bump(items, g, a) == [Item(g, Plus(x.amount, a))] + rest;
        SumCons(Item(g, Plus(x.amount, a)), rest, choose);
        hide SumOf, Bump;
        IfPlus(choose(g), x.amount, a, SumOf(rest, choose));
      } else {
        BumpSum(rest, g, a, choose);
        assert Bump(items, g, a) == [x] + Bump(rest, g, a);
        SumCons(x, Bump(rest, g, a), choose);
        hide SumOf, Bump;
        PlusLaws(If(choose(x.group), x.amount), SumOf(rest, choose), If(choose(g), a));
      }
    }
  }

  /** The rows a choice of groups stands for. */
  function Behind(q: Query, choose: Choose): Pick {
    (h: int, d: Dims) => Matches(q, h, d) && choose(GroupOf(q, h, d))
  }

  lemma BehindRow(q: Query, choose: Choose, r: Row)
    ensures Behind(q, choose)(r.hour, r.dims) <==> Matches(q, r.hour, r.dims) && choose(GroupOf(q, r.hour, r.dims))
  {
  }

  /** Over any choice of groups, a report adds up to the matching rows of those groups. */
  lemma {:induction false} ReportSums(q: Query, rows: seq<Row>, choose: Choose)
    ensures SumOf(Aggregate(q, rows), choose) == Total(rows, Behind(q, choose))
  {
    hide Total, Plus, SumOf, Matches, GroupOf, Behind, Bump;
    if rows == [] {
      NothingSums(choose, Behind(q, choose));
    } else {
      var init, r := rows[..|rows| - 1], rows[|rows| - 1];
      ReportSums(q, init, choose);
      assert rows == init + [r];
      TotalConcat(init, [r], Behind(q, choose));
      TotalOne(r, Behind(q, choose));
      BehindRow(q, choose, r);
      BumpSum(Aggregate(q, init), GroupOf(q, r.hour, r.dims), r.amount, choose);
      PlusLaws(Total(init, Behind(q, choose)), ZERO, ZERO);
    }
  }

  lemma NothingSums(choose: Choose, pick: Pick)
    ensures SumOf([], choose) == ZERO == Total([], pick)
  {
  }

  /** Unrounded report totals are the totals of the matching rows. */
  lemma ReportTotals(q: Query, rows: seq<Row>)
    ensures SumOf(Aggregate(q, rows), Any()) == Total(rows, Matching(q))
  {
    ReportSums(q, rows, Any());
    TotalSame(rows, Behind(q, Any()), Matching(q));
  }

  function Matching(q: Query): Pick { (h: int, d: Dims) => Matches(q, h, d) }

  predicate OneEach(items: seq<Item>) {
    items == [] || (!Listed(items[1..], items[0].group) && OneEach(items[1..]))
  }

  lemma {:induction false} BumpOneEach(items: seq<Item>, g: Group, a: Amount)
    requires OneEach(items)
    ensures OneEach(Bump(items, g, a))
  {
    if items == [] {
      assert Bump(items, g, a)[1..] == [];
    } else {
      BumpOneEach(items[1..], g, a);
      BumpListed(items[1..], g, a, items[0].group);
      assert Bump(items, g, a)[1..] == if items[0].group == g then items[1..] else Bump(items[1..], g, a);
    }
  }

  lemma {:induction false} AggregateOneEach(q: Query, rows: seq<Row>)
    ensures OneEach(Aggregate(q, rows))
  {
    if rows != [] {
      var r := rows[|rows| - 1];
      AggregateOneEach(q, rows[..|rows| - 1]);
      BumpOneEach(Aggregate(q, rows[..|rows| - 1]), GroupOf(q, r.hour, r.dims), r.amount);
    }
  }

  lemma SumFirst(items: seq<Item>, choose: Choose)
    requires items != []
    ensures SumOf(items, choose) ==
            if choose(items[0].group) then Plus(items[0].amount, SumOf(items[1..], choose)) else SumOf(items[1..], choose)
  {
    PlusLaws(SumOf(items[1..], choose), ZERO, ZERO);
  }

  lemma {:induction false} SumUnlisted(items: seq<Item>, g: Group)
    requires !Listed(items, g)
    ensures SumOf(items, Only(g)) == ZERO
  {
    if items != [] {
      SumFirst(items, Only(g));
      hide SumOf;
      SumUnlisted(items[1..], g);
    }
  }

  lemma {:induction false} SumListed(items: seq<Item>, i: nat)
    requires OneEach(items) && i < |items|
    ensures SumOf(items, Only(items[i].group)) == items[i].amount
  {
    hide SumOf, Plus, Listed;
    var x := items[i];
    SumFirst(items, Only(x.group));
    if i == 0 {
      SumUnlisted(items[1..], x.group);
      PlusLaws(x.amount, ZERO, ZERO);
    } else {
      SumListed(items[1..], i - 1);
      ListedItem(items[1..], x.group);
      assert items[1..][i - 1] == x;
    }
  }

  predicate Asks(q: Query, r: Row, g: Group) {
    Matches(q, r.hour, r.dims) && GroupOf(q, r.hour, r.dims) == g
  }

  /** Which groups a report lists. */
  lemma {:induction false} GroupsListed(q: Query, rows: seq<Row>, g: Group)
    ensures Listed(Aggregate(q, rows), g) <==> exists r <- rows :: Asks(q, r, g)
  {
    if rows != [] {
      var init, last := rows[..|rows| - 1], rows[|rows| - 1];
      assert rows == init + [last];
      GroupsListed(q, init, g);
      BumpListed(Aggregate(q, init), GroupOf(q, last.hour, last.dims), last.amount, g);
      assert (exists r <- rows :: Asks(q, r, g)) <==> (exists r <- init :: Asks(q, r, g)) || Asks(q, last, g) by {
        hide Asks;
        if r :| r in init && Asks(q, r, g) {
          assert r in rows;
        }
        assert last in rows;
      }
    }
  }

  /** The day a group's period lies in. */
  function DayOf(g: Group): Group {
    g.(period := PeriodOf(g.period, Daily))
  }

  lemma SameDay(q: Query, hour: int, d: Dims)
    requires hour % HOUR == 0
    ensures GroupOf(q.(bucket := Daily), hour, d) == DayOf(GroupOf(q.(bucket := Hourly), hour, d))
  {
  }

  function InDay(day: Group): Choose { g => DayOf(g) == day }

  lemma DaySums(q: Query, rows: seq<Row>, day: Group)
    requires forall r <- rows :: r.hour % HOUR == 0
    ensures SumOf(Aggregate(q.(bucket := Daily), rows), Only(day)) == SumOf(Aggregate(q.(bucket := Hourly), rows), InDay(day))
  {
    var qd, qh := q.(bucket := Daily), q.(bucket := Hourly);
    ReportSums(qd, rows, Only(day));
    ReportSums(qh, rows, InDay(day));
    hide Aggregate, SumOf, Total;
    forall i | 0 <= i < |rows|
      ensures Behind(qd, Only(day))(rows[i].hour, rows[i].dims) == Behind(qh, InDay(day))(rows[i].hour, rows[i].dims)
    {
      var r := rows[i];
      assert r in rows;
      BehindRow(qd, Only(day), r);
      BehindRow(qh, InDay(day), r);
      SameDay(q, r.hour, r.dims);
      hide GroupOf, Behind, DayOf;
    }
    TotalSame(rows, Behind(qd, Only(day)), Behind(qh, InDay(day)));
  }

  lemma DayRow(q: Query, rows: seq<Row>, i: nat)
    requires forall r <- rows :: r.hour % HOUR == 0
    requires i < |Aggregate(q.(bucket := Daily), rows)|
    ensures var x, hours := Aggregate(q.(bucket := Daily), rows)[i], Aggregate(q.(bucket := Hourly), rows);
            x.amount == SumOf(hours, InDay(x.group))
  {
    var days := Aggregate(q.(bucket := Daily), rows);
    AggregateOneEach(q.(bucket := Daily), rows);
    SumListed(days, i);
    DaySums(q, rows, days[i].group);
  }

  /** The hours of a day are listed under that day, and every listed day has an hour. */
  lemma DaysAreHoursDays(q: Query, rows: seq<Row>, day: Group)
    requires forall r <- rows :: r.hour % HOUR == 0
    ensures Listed(Aggregate(q.(bucket := Daily), rows), day)
            <==> exists g: Group :: DayOf(g) == day && Listed(Aggregate(q.(bucket := Hourly), rows), g)
  {
    var qd, qh := q.(bucket := Daily), q.(bucket := Hourly);
    GroupsListed(qd, rows, day);
    hide Listed, Aggregate, PeriodOf;
    if r :| r in rows && Asks(qd, r, day) {
      SameDay(q, r.hour, r.dims);
      var g := GroupOf(qh, r.hour, r.dims);
      assert Asks(qh, r, g);
      GroupsListed(qh, rows, g);
      assert DayOf(g) == day && Listed(Aggregate(qh, rows), g);
    }
    if g: Group :| DayOf(g) == day && Listed(Aggregate(qh, rows), g) {
      GroupsListed(qh, rows, g);
      var r :| r in rows && Asks(qh, r, g);
      SameDay(q, r.hour, r.dims);
      assert Asks(qd, r, day);
    }
  }

  // ---- hour-aligned bounds --------------------------------------------------------------------------------

  /** The entries a query asks for, by their own time. */
  predicate Asked(q: Query, e: Entry) {
    && (q.subject.Some? ==> e.dims.subject == q.subject.value)
    && (q.since.Some? ==> q.since.value as real <= e.at) && (q.until.Some? ==> e.at < q.until.value as real)
  }

  function AskedSum(q: Query, es: seq<Entry>): Amount {
    if es == [] then ZERO else Plus(If(Asked(q, es[0]), es[0].amount), AskedSum(q, es[1..]))
  }

  lemma HourAtLeast(t: real, bound: int)
    requires bound % HOUR == 0
    ensures HourOf(t) >= bound <==> t >= bound as real
  {
    var n := bound / HOUR;
    assert bound == n * HOUR && bound as real == n as real * 3600.0;
    var x := t / 3600.0;
    assert t == x * 3600.0;
    assert x.Floor >= n <==> x >= n as real;
  }

  lemma AskedByHour(q: Query, e: Entry)
    requires !Refused(q)
    ensures Asked(q, e) <==> Matching(q)(HourOf(e.at), e.dims)
  {
    if q.since.Some? { HourAtLeast(e.at, q.since.value); }
    if q.until.Some? { HourAtLeast(e.at, q.until.value); }
    hide HourOf;
  }

  lemma {:induction false} AskedIsMade(q: Query, es: seq<Entry>)
    requires !Refused(q)
    ensures AskedSum(q, es) == Made(es, Matching(q))
  {
    hide Plus, Asked, Matching, Refused;
    if es != [] {
      AskedIsMade(q, es[1..]);
      AskedByHour(q, es[0]);
    }
  }

  /** A report that is not refused adds up to exactly the retained calls made in its time range. */
  lemma BoundsExact(c: Config, run: seq<Call>, q: Query)
    requires !Refused(q)
    ensures SumOf(Aggregate(q, After(c, run)), Any()) == AskedSum(q, Retained(c, run))
  {
    ReportTotals(q, After(c, run));
    RowsAccount(c, run, Matching(q));
    AskedIsMade(q, Retained(c, run));
  }

  /** All rows are hourly, so day reports of the ledger roll up. */
  lemma {:induction false} RowsHourly(c: Config, run: seq<Call>)
    ensures forall r <- After(c, run) :: r.hour % HOUR == 0
  {
    if run != [] {
      var rows, call := After(c, run[..|run| - 1]), run[|run| - 1];
      RowsHourly(c, run[..|run| - 1]);
      EveryRun(c, run[..|run| - 1]);
      var n := DroppedPrefix(c, rows, call);
      hide Recorded;
      NotedHourly(rows, call.entry);
    }
  }

  lemma NotedHourly(rows: seq<Row>, e: Entry)
    requires forall r <- rows :: r.hour % HOUR == 0
    ensures forall r <- Noted(rows, e) :: r.hour % HOUR == 0
  {
    var hour := HourOf(e.at);
    var there := if Has(rows, hour, e.dims) then rows else Place(rows, Row(hour, e.dims, ZERO));
    forall i | 0 <= i < |there| ensures there[i].hour % HOUR == 0 {
      assert there[i] in there;
    }
  }

  /** In every run a day report is the roll-up of the hour report with the same filter and groups: the same
      days, and for each the sum of its hours. */
  lemma DayRollsUp(c: Config, run: seq<Call>, q: Query)
    ensures var days, hours := Aggregate(q.(bucket := Daily), After(c, run)), Aggregate(q.(bucket := Hourly), After(c, run));
      && (forall i :: 0 <= i < |days| ==> days[i].amount == SumOf(hours, InDay(days[i].group)))
      && (forall day: Group :: Listed(days, day) <==> exists g: Group :: DayOf(g) == day && Listed(hours, g))
  {
    var rows := After(c, run);
    RowsHourly(c, run);
    hide Aggregate, SumOf, Listed, After, InDay, DayOf;
    forall i | 0 <= i < |Aggregate(q.(bucket := Daily), rows)|
      ensures Aggregate(q.(bucket := Daily), rows)[i].amount
           == SumOf(Aggregate(q.(bucket := Hourly), rows), InDay(Aggregate(q.(bucket := Daily), rows)[i].group))
    {
      DayRow(q, rows, i);
    }
    forall day: Group
      ensures Listed(Aggregate(q.(bucket := Daily), rows), day)
              <==> exists g: Group :: DayOf(g) == day && Listed(Aggregate(q.(bucket := Hourly), rows), g)
    {
      DaysAreHoursDays(q, rows, day);
    }
  }

  // ---- the ledger object --------------------------------------------------------------------------------------

  datatype Outcome = Report(items: seq<Item>) | QueryError

  class UsageLedger {
    const config: Config
    var rows: seq<Row>

    constructor (config: Config)
      ensures rows == [] && this.config == config
    {
      this.config := config;
      rows := [];
    }

    method Prune(clock: real)
      modifies this
      ensures rows == Pruned(old(rows), clock - config.retention as real, config.maxRows)
    {
      var cutoff := clock - config.retention as real;
      while rows != [] && (rows[0].hour as real < cutoff || |rows| > config.maxRows)
        invariant Pruned(rows, cutoff, config.maxRows) == Pruned(old(rows), cutoff, config.maxRows)
        decreases |rows|
      {
        rows := rows[1..];
      }
    }

    method Record(dims: Dims, requests: int, input: int, output: int, cost: real, now: real, clock: real)
      modifies this
      ensures rows == Recorded(config, old(rows), Call(Entry(now, dims, Added(requests, input, output, cost)), clock))
      ensures Added(requests, input, output, cost) ==
        Amount(requests, if input < 0 then 0 else input, if output < 0 then 0 else output, if cost < 0.0 then 0.0 else cost)
    {
      var hour := HourOf(now);
      if !Has(rows, hour, dims) {
        rows := Place(rows, Row(hour, dims, ZERO));
      }
      rows := AddTo(rows, hour, dims, Added(requests, input, output, cost));
      Prune(clock);
    }

    /** The items come in the order their groups first occur; the caller sees them sorted. */
    method Summarise(q: Query) returns (r: Outcome)
      ensures r == if Refused(q) then QueryError else Report(Aggregate(q, rows))
      ensures r == QueryError <==>
        || (q.since.Some? && q.until.Some? && q.until.value <= q.since.value)
        || (q.since.Some? && q.since.value % 3600 > 0) || (q.until.Some? && q.until.value % 3600 > 0)
    {
      if Refused(q) {
        return QueryError;
      }
      var items: seq<Item> := [];
      for i := 0 to |rows|
        invariant items == Aggregate(q, rows[..i])
      {
        var row := rows[i];
        assert rows[..i + 1][..i] == rows[..i];
        if !Matches(q, row.hour, row.dims) {
          continue;
        }
        items := Bump(items, GroupOf(q, row.hour, row.dims), row.amount);
      }
      assert rows[..|rows|] == rows;
      return Report(items);
    }
  }
}
