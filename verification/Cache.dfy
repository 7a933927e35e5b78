/** The in-memory response cache: least recently used eviction plus a time to live. */
module Cache {
  import opened Common

  type Key = string
  type Value = string
  type Time = real

  datatype Item = Item(key: Key, value: Value, expiry: Time)

  /** One call on the cache. `Set` reads the clock when it stores and again when it purges. */
  datatype Event =
    | Get(key: Key, now: Time)
    | Set(key: Key, value: Value, ttl: nat, now: Time, later: Time)
    | Purge(now: Time)
    | Delete(key: Key)
    | Clear

  // ---- the store as an ordered list of items, oldest first --------------------------------------

  predicate Has(items: seq<Item>, key: Key) {
    exists x <- items :: x.key == key
  }

  predicate Distinct(items: seq<Item>) {
    items == [] || (!Has(items[1..], items[0].key) && Distinct(items[1..]))
  }

  function Find(items: seq<Item>, key: Key): (r: Option<Item>)
    ensures r.Some? <==> Has(items, key)
    ensures r.Some? ==> r.value in items && r.value.key == key
  {
    if items == [] then None
    else if items[0].key == key then Some(items[0])
    else
      assert items == [items[0]] + items[1..];
      Find(items[1..], key)
  }

  function Without(items: seq<Item>, key: Key): (r: seq<Item>)
    ensures |r| <= |items|
    ensures forall x :: x in r <==> x in items && x.key != key
  {
    if items == [] then []
    else
      assert items == [items[0]] + items[1..];
      (if items[0].key != key then [items[0]] else []) + Without(items[1..], key)
  }

  function Live(items: seq<Item>, now: Time): (r: seq<Item>)
    ensures |r| <= |items|
    ensures forall x :: x in r <==> x in items && now < x.expiry
  {
    if items == [] then []
    else
      assert items == [items[0]] + items[1..];
      (if now < items[0].expiry then [items[0]] else []) + Live(items[1..], now)
  }

  /** The `max` most recently used items. */
  function Newest(items: seq<Item>, max: nat): (r: seq<Item>) {
    if |items| > max then items[|items| - max..] else items
  }

  /** How many live items over the limit there are. */
  function Excess(max: nat, items: seq<Item>, now: Time): nat {
    if |items| > max && |Live(items, now)| > max then |Live(items, now)| - max else 0
  }

  function Placed(items: seq<Item>, key: Key, value: Value, expiry: Time): seq<Item> {
    Without(items, key) + [Item(key, value, expiry)]
  }

  function Step(max: nat, items: seq<Item>, e: Event): seq<Item> {
    match e
    case Get(key, now) =>
      (match Find(items, key)
       case None => items
       case Some(x) => Without(items, key) + if now < x.expiry then [x] else [])
    case Set(key, value, ttl, now, later) =>
      if ttl == 0 then Without(items, key) else
      var placed := Placed(items, key, value, now + ttl as real);
      if |placed| > max then Newest(Live(placed, later), max) else placed
    case Purge(now) => Live(items, now)
    case Delete(key) => Without(items, key)
    case Clear => []
  }

  function Run(max: nat, history: seq<Event>): seq<Item> {
    if history == [] then [] else Step(max, Run(max, history[..|history| - 1]), history[|history| - 1])
  }

  // ---- the simple map it is compared with -------------------------------------------------------

  /** What was last stored under `key`, if it was not deleted since: value and expiry. */
  function Latest(history: seq<Event>, key: Key): (r: Option<Item>)
    ensures r.Some? ==> r.value.key == key
  {
    if history == [] then None else
    var before := Latest(history[..|history| - 1], key);
    match history[|history| - 1]
    case Set(k, value, ttl, now, _) =>
      if k != key then before else if ttl == 0 then None else Some(Item(key, value, now + ttl as real))
    case Delete(k) => if k == key then None else before
    case Clear => None
    case _ => before
  }

  /** The key an event makes most recently used: one that is stored, or one that is hit. */
  function Touched(items: seq<Item>, e: Event): Option<Key> {
    match e
    case Get(key, now) =>
      var x := Find(items, key);
      if x.Some? && now < x.value.expiry then Some(key) else None
    case Set(key, _, ttl, _, _) => if ttl > 0 then Some(key) else None
    case _ => None
  }

  /** The other keys touched since `key` last was. */
  function Since(max: nat, history: seq<Event>, key: Key): set<Key> {
    if history == [] then {} else
    var before := history[..|history| - 1];
    match Touched(Run(max, before), history[|history| - 1])
    case None => Since(max, before, key)
    case Some(k) => if k == key then {} else Since(max, before, key) + {k}
  }

  /** The latest clock reading an event made, given the latest before it. */
  function Reading(e: Event, before: Time): Time {
    match e
    case Get(_, now) => now
    case Set(_, _, _, _, later) => later
    case Purge(now) => now
    case _ => before
  }

  predicate InOrder(e: Event, before: Time) {
    match e
    case Get(_, now) => before <= now
    case Set(_, _, _, now, later) => before <= now <= later
    case Purge(now) => before <= now
    case _ => true
  }

  function Clock(history: seq<Event>, start: Time): Time {
    if history == [] then start else Reading(history[|history| - 1], Clock(history[..|history| - 1], start))
  }

  /** The clock never goes backwards. */
  predicate Monotone(history: seq<Event>, start: Time) {
    history == [] ||
    (Monotone(history[..|history| - 1], start) &&
     InOrder(history[|history| - 1], Clock(history[..|history| - 1], start)))
  }

  // ---- order of the items -----------------------------------------------------------------------

  /** Every key behind another one is in that one's `since` set. */
  ghost predicate Ranked(items: seq<Item>, since: Key -> set<Key>) {
    items == [] || ((forall x <- items[1..] :: x.key in since(items[0].key)) && Ranked(items[1..], since))
  }

  lemma {:induction false} WithoutKeeps(items: seq<Item>, key: Key, since: Key -> set<Key>)
    requires Distinct(items) && Ranked(items, since)
    ensures Distinct(Without(items, key)) && Ranked(Without(items, key), since)
    ensures Has(items, key) ==> |Without(items, key)| < |items|
  {
    if items != [] {
      WithoutKeeps(items[1..], key, since);
      var rest := Without(items[1..], key);
      assert items == [items[0]] + items[1..];
      assert Without(items, key) == if items[0].key != key then [items[0]] + rest else rest;
    }
  }

  lemma {:induction false} LiveKeeps(items: seq<Item>, now: Time, since: Key -> set<Key>)
    requires Distinct(items) && Ranked(items, since)
    ensures Distinct(Live(items, now)) && Ranked(Live(items, now), since)
  {
    if items != [] {
      LiveKeeps(items[1..], now, since);
      var rest := Live(items[1..], now);
      assert Live(items, now) == if now < items[0].expiry then [items[0]] + rest else rest;
    }
  }

  lemma {:induction false} SuffixKeeps(items: seq<Item>, n: nat, since: Key -> set<Key>)
    requires n <= |items| && Distinct(items) && Ranked(items, since)
    ensures Distinct(items[n..]) && Ranked(items[n..], since)
  {
    if n > 0 {
      SuffixKeeps(items[1..], n - 1, since);
      assert items[1..][n - 1..] == items[n..];
    }
  }

  lemma {:induction false} AppendKeeps(items: seq<Item>, x: Item, since: Key -> set<Key>)
    requires Distinct(items) && Ranked(items, since) && !Has(items, x.key)
    requires forall y <- items :: x.key in since(y.key)
    ensures Distinct(items + [x]) && Ranked(items + [x], since)
  {
    if items == [] {
      assert [x][1..] == [];
    } else {
      AppendKeeps(items[1..], x, since);
      assert (items + [x])[1..] == items[1..] + [x];
      assert items[0] in items;
    }
  }

  lemma {:induction false} RankedMore(items: seq<Item>, since: Key -> set<Key>, since': Key -> set<Key>)
    requires Ranked(items, since)
    requires forall x <- items :: since(x.key) <= since'(x.key)
    ensures Ranked(items, since')
  {
    if items != [] {
      assert items[0] in items;
      RankedMore(items[1..], since, since');
    }
  }

  // ---- every run -----------------------------------------------------------------------------------

  /** A stored key is stored with what was last set under it. */
  ghost predicate Faithful(items: seq<Item>, history: seq<Event>) {
    forall x <- items :: Latest(history, x.key) == Some(x)
  }

  /** A key that was set, not deleted and not expired is missing only after enough other keys were touched. */
  ghost predicate Retains(max: nat, items: seq<Item>, history: seq<Event>, now: Time) {
    forall key :: Latest(history, key).Some? && now < Latest(history, key).value.expiry && !Has(items, key)
              ==> |Since(max, history, key)| >= max
  }

  ghost predicate Inv(max: nat, history: seq<Event>, start: Time) {
    var items := Run(max, history);
    Distinct(items) && |items| <= max && Faithful(items, history)
    && Ranked(items, k => Since(max, history, k)) && Retains(max, items, history, Clock(history, start))
  }

  lemma {:induction false} DistinctKeys(items: seq<Item>, others: set<Key>)
    requires Distinct(items) && forall x <- items :: x.key in others
    ensures |others| >= |items|
  {
    if items != [] {
      assert items == [items[0]] + items[1..];
      DistinctKeys(items[1..], others - {items[0].key});
    }
  }

  lemma {:induction false} RankedAt(items: seq<Item>, i: nat, since: Key -> set<Key>)
    requires i < |items| && Distinct(items) && Ranked(items, since)
    ensures |since(items[i].key)| >= |items| - 1 - i
  {
    SuffixKeeps(items, i, since);
    var tail := items[i..];
    DistinctKeys(tail[1..], since(tail[0].key));
  }

  lemma {:induction false} SubsetSize(a: set<Key>, b: set<Key>)
    requires a <= b
    ensures |a| <= |b|
  {
    if a != {} {
      var x :| x in a;
      SubsetSize(a - {x}, b - {x});
    }
  }

  /** `since'` is `since` after one more touch. */
  ghost predicate Advances(since: Key -> set<Key>, since': Key -> set<Key>, touched: Option<Key>) {
    forall k :: since'(k) == match touched
                             case None => since(k)
                             case Some(t) => if k == t then {} else since(k) + {t}
  }

  lemma PlacedKeeps(items: seq<Item>, x: Item, since: Key -> set<Key>, since': Key -> set<Key>)
    requires Distinct(items) && Ranked(items, since) && Advances(since, since', Some(x.key))
    ensures Distinct(Without(items, x.key) + [x]) && Ranked(Without(items, x.key) + [x], since')
  {
    var rest := Without(items, x.key);
    WithoutKeeps(items, x.key, since);
    RankedMore(rest, since, since');
    AppendKeeps(rest, x, since');
  }

  lemma TrimKeeps(max: nat, placed: seq<Item>, later: Time, since: Key -> set<Key>)
    requires Distinct(placed) && Ranked(placed, since)
    ensures Distinct(Newest(Live(placed, later), max)) && Ranked(Newest(Live(placed, later), max), since)
  {
    var live := Live(placed, later);
    LiveKeeps(placed, later, since);
    if |live| > max {
      SuffixKeeps(live, |live| - max, since);
    }
  }

  lemma StepOrdered(max: nat, items: seq<Item>, e: Event, since: Key -> set<Key>, since': Key -> set<Key>)
    requires Distinct(items) && Ranked(items, since) && Advances(since, since', Touched(items, e))
    ensures Distinct(Step(max, items, e)) && Ranked(Step(max, items, e), since')
  {
    hide Ranked, Distinct, Without, Live, Find;
    match e
    case Get(key, now) =>
      var x := Find(items, key);
      if x.Some? {
        if now < x.value.expiry {
          PlacedKeeps(items, x.value, since, since');
        } else {
          RankedMore(items, since, since');
          WithoutKeeps(items, key, since');
          assert Without(items, key) + [] == Without(items, key);
        }
      } else {
        RankedMore(items, since, since');
      }
    case Set(key, value, ttl, now, later) =>
      if ttl == 0 {
        RankedMore(items, since, since');
        WithoutKeeps(items, key, since');
      } else {
        PlacedKeeps(items, Item(key, value, now + ttl as real), since, since');
        TrimKeeps(max, Placed(items, key, value, now + ttl as real), later, since');
      }
    case Purge(now) =>
      RankedMore(items, since, since');
      LiveKeeps(items, now, since');
    case Delete(key) =>
      RankedMore(items, since, since');
      WithoutKeeps(items, key, since');
    case Clear => NoneKeep(since');
  }

  lemma NoneKeep(since: Key -> set<Key>)
    ensures Distinct([]) && Ranked([], since)
  {
  }

  lemma StepFits(max: nat, items: seq<Item>, e: Event)
    requires Distinct(items) && |items| <= max
    ensures |Step(max, items, e)| <= max
  {
    if e.Get? {
      var none: Key -> set<Key> := k => set x <- items :: x.key;
      AllRanked(items, none);
      WithoutKeeps(items, e.key, none);
    }
  }

  lemma {:induction false} AllRanked(items: seq<Item>, since: Key -> set<Key>)
    requires forall x <- items, k :: x.key in since(k)
    ensures Ranked(items, since)
  {
    if items != [] {
      assert items == [items[0]] + items[1..];
      AllRanked(items[1..], since);
    }
  }

  lemma {:induction false} OnePerKey(items: seq<Item>, x: Item, y: Item)
    requires Distinct(items) && x in items && y in items && x.key == y.key
    ensures x == y
  {
    assert items == [items[0]] + items[1..];
    if x != items[0] && y != items[0] {
      OnePerKey(items[1..], x, y);
    }
  }

  /** Why an item that has not expired can leave the store. */
  lemma LeavesOnlyIf(max: nat, items: seq<Item>, e: Event, before: Time, x: Item)
    requires Distinct(items) && x in items
    requires InOrder(e, before) && Reading(e, before) < x.expiry && x !in Step(max, items, e)
    ensures || e == Delete(x.key) || e == Clear || (e.Set? && e.key == x.key)
            || (e.Set? && e.ttl > 0 && |Live(Placed(items, e.key, e.value, e.now + e.ttl as real), e.later)| > max)
  {
    if e.Get? && e.key == x.key {
      OnePerKey(items, x, Find(items, e.key).value);
    }
  }

  lemma FaithfulStep(max: nat, history: seq<Event>, e: Event)
    requires Distinct(Run(max, history)) && Faithful(Run(max, history), history)
    ensures Faithful(Step(max, Run(max, history), e), history + [e])
  {
    var items, h := Run(max, history), history + [e];
    hide Without, Live, Find, Run;
    assert h[..|h| - 1] == history;
    forall x | x in Step(max, items, e) ensures Latest(h, x.key) == Some(x) {
    }
  }

  lemma NewestHas(live: seq<Item>, max: nat, i: nat)
    requires |live| - max <= i < |live|
    ensures live[i] in Newest(live, max)
  {
    if |live| > max {
      assert live[|live| - max..][i - (|live| - max)] == live[i];
    }
  }

  /** An item the trim drops although it is live has `max` other items behind it. */
  lemma TrimmedBehind(max: nat, placed: seq<Item>, later: Time, since: Key -> set<Key>, x: Item)
    requires Distinct(placed) && Ranked(placed, since)
    requires x in placed && later < x.expiry && x !in Newest(Live(placed, later), max)
    ensures |since(x.key)| >= max
  {
    var live := Live(placed, later);
    LiveKeeps(placed, later, since);
    var i :| 0 <= i < |live| && live[i] == x;
    if i >= |live| - max {
      NewestHas(live, max, i);
    }
    RankedAt(live, i, since);
  }

  lemma SinceAdvances(max: nat, history: seq<Event>, e: Event)
    ensures Advances(k => Since(max, history, k), k => Since(max, history + [e], k), Touched(Run(max, history), e))
  {
    var h := history + [e];
    assert h[..|h| - 1] == history;
  }

  /** Whatever was set, not deleted and not expired but is missing after `e` was either missing before or trimmed. */
  lemma MissingBecause(max: nat, history: seq<Event>, e: Event, key: Key, start: Time)
    requires var items := Run(max, history); Distinct(items) && Faithful(items, history)
    requires InOrder(e, Clock(history, start))
    requires !Has(Step(max, Run(max, history), e), key)
    requires Latest(history + [e], key).Some? && Reading(e, Clock(history, start)) < Latest(history + [e], key).value.expiry
    ensures var items := Run(max, history);
            || (!Has(items, key) && Latest(history, key) == Latest(history + [e], key) && Touched(items, e) != Some(key))
            || (e.Set? && e.ttl > 0 && Latest(history + [e], key).value in Placed(items, e.key, e.value, e.now + e.ttl as real))
  {
    hide Without, Live, Run, Clock;
    var h := history + [e];
    assert h[..|h| - 1] == history;
    var items := Run(max, history);
    var x := Latest(h, key).value;
    if Has(items, key) {
      var y :| y in items && y.key == key;
      assert Latest(history, key) == Some(y);
    }
  }

  lemma RetainsStep(max: nat, history: seq<Event>, e: Event, start: Time)
    requires Inv(max, history, start) && InOrder(e, Clock(history, start))
    ensures Retains(max, Step(max, Run(max, history), e), history + [e], Reading(e, Clock(history, start)))
  {
    var items, h, now := Run(max, history), history + [e], Reading(e, Clock(history, start));
    SinceAdvances(max, history, e);
    forall key | Latest(h, key).Some? && now < Latest(h, key).value.expiry && !Has(Step(max, items, e), key)
      ensures |Since(max, h, key)| >= max
    {
      MissingBecause(max, history, e, key, start);
      RetainsKey(max, history, e, start, key);
    }
  }

  lemma RetainsKey(max: nat, history: seq<Event>, e: Event, start: Time, key: Key)
    requires Inv(max, history, start) && InOrder(e, Clock(history, start))
    requires var items := Run(max, history);
             || (!Has(items, key) && Latest(history, key) == Latest(history + [e], key) && Touched(items, e) != Some(key))
             || (e.Set? && e.ttl > 0 && Latest(history + [e], key).value in Placed(items, e.key, e.value, e.now + e.ttl as real))
    requires Latest(history + [e], key).Some? && Latest(history + [e], key).value.key == key
    requires Reading(e, Clock(history, start)) < Latest(history + [e], key).value.expiry
    requires !Has(Step(max, Run(max, history), e), key)
    ensures |Since(max, history + [e], key)| >= max
  {
    hide Run, Without, Live, Latest, Since, Touched;
    var items := Run(max, history);
    var since, since' := k => Since(max, history, k), k => Since(max, history + [e], k);
    SinceAdvances(max, history, e);
    if !Has(items, key) && Latest(history, key) == Latest(history + [e], key) && Touched(items, e) != Some(key) {
      assert since(key) <= since'(key);
      SubsetSize(since(key), since'(key));
    } else {
      var x := Latest(history + [e], key).value;
      var placed := Placed(items, e.key, e.value, e.now + e.ttl as real);
      TouchedBySet(items, e);
      PlacedKeeps(items, Item(e.key, e.value, e.now + e.ttl as real), since, since');
      TrimmedBehind(max, placed, e.later, since', x);
    }
  }

  lemma TouchedBySet(items: seq<Item>, e: Event)
    requires e.Set? && e.ttl > 0
    ensures Touched(items, e) == Some(e.key)
  {
  }

  lemma {:induction false} EveryRun(max: nat, history: seq<Event>, start: Time)
    requires Monotone(history, start)
    ensures Inv(max, history, start)
  {
    hide Step, Since, Latest, Reading, InOrder, Faithful, Retains, Ranked, Distinct;
    if history == [] {
      EmptyInv(max, start);
    } else {
      var before, e := history[..|history| - 1], history[|history| - 1];
      assert before + [e] == history;
      EveryRun(max, before, start);
      var items := Run(max, before);
      SinceAdvances(max, before, e);
      StepOrdered(max, items, e, k => Since(max, before, k), k => Since(max, before + [e], k));
      StepFits(max, items, e);
      FaithfulStep(max, before, e);
      RetainsStep(max, before, e, start);
    }
  }

  lemma EmptyInv(max: nat, start: Time)
    ensures Inv(max, [], start)
  {
  }

  /** A hit is the latest value set under the key and has not expired. */
  lemma HitIsLatest(max: nat, history: seq<Event>, start: Time, key: Key)
    requires Monotone(history, start)
    ensures Find(Run(max, history), key).Some? ==> Find(Run(max, history), key) == Latest(history, key)
  {
    EveryRun(max, history, start);
  }

  /** A value that was set, not deleted and not expired is found if fewer than `max` other keys were touched since. */
  lemma MustHit(max: nat, history: seq<Event>, start: Time, key: Key, now: Time)
    requires Monotone(history, start) && Clock(history, start) <= now
    requires Latest(history, key).Some? && now < Latest(history, key).value.expiry
    requires |Since(max, history, key)| < max
    ensures Find(Run(max, history), key) == Latest(history, key)
  {
    EveryRun(max, history, start);
  }

  /** The bound is met in every run. */
  lemma NeverOverfull(max: nat, history: seq<Event>, start: Time)
    requires Monotone(history, start)
    ensures |Run(max, history)| <= max
  {
    EveryRun(max, history, start);
  }

  // ---- the cache object ----------------------------------------------------------------------------

  class MemoryCache {
    const maxEntries: nat
    var store: seq<Item>
    var evictions: nat
    ghost const start: Time
    ghost var history: seq<Event>

    ghost predicate Valid()
      reads this
    {
      Monotone(history, start) && store == Run(maxEntries, history)
    }

    constructor (maxEntries: nat, ghost start: Time)
      requires maxEntries >= 1
      ensures Valid() && history == [] && store == [] && this.maxEntries == maxEntries && this.start == start
      ensures evictions == 0
    {
      this.maxEntries, this.start := maxEntries, start;
      store, evictions, history := [], 0, [];
    }

    method Get(key: Key, now: Time) returns (r: Option<Value>)
      requires Valid() && Clock(history, start) <= now
      modifies this
      ensures Valid() && history == old(history) + [Event.Get(key, now)] && evictions == old(evictions)
      ensures r.Some? ==> var x := Latest(old(history), key);
                          x.Some? && x.value.value == r.value && now < x.value.expiry
      ensures var x := Latest(old(history), key);
              x.Some? && now < x.value.expiry && |Since(maxEntries, old(history), key)| < maxEntries ==> r.Some?
    {
      assert (history + [Event.Get(key, now)])[..|history|] == history;
      HitIsLatest(maxEntries, history, start, key);
      ghost var x := Latest(history, key);
      if x.Some? && now < x.value.expiry && |Since(maxEntries, history, key)| < maxEntries {
        MustHit(maxEntries, history, start, key, now);
      }
      history := history + [Event.Get(key, now)];
      var found := Find(store, key);
      if found == None {
        return None;
      }
      if now >= found.value.expiry {
        store := Without(store, key);
        return None;
      }
      store := Without(store, key) + [found.value];
      return Some(found.value.value);
    }

    method Set(key: Key, value: Value, ttl: int, now: Time, later: Time) returns (accepted: bool)
      requires Valid() && Clock(history, start) <= now <= later
      modifies this
      ensures Valid() && accepted == (ttl >= 0)
      ensures !accepted ==> history == old(history) && store == old(store) && evictions == old(evictions)
      ensures accepted ==> history == old(history) + [Event.Set(key, value, ttl, now, later)]
      ensures accepted && ttl > 0 && later < now + ttl as real && maxEntries > 0 ==>
                Find(store, key) == Some(Item(key, value, now + ttl as real))
      ensures evictions == old(evictions) +
                if ttl > 0 then Excess(maxEntries, Placed(old(store), key, value, now + ttl as real), later) else 0
    {
      hide Distinct, Monotone, Live, Find, Latest, Without, Newest, Has, InOrder, Inv, Reading;
      if ttl < 0 {
        return false;
      }
      ghost var e := Event.Set(key, value, ttl, now, later);
      assert (history + [e])[..|history|] == history;
      RunAfter(maxEntries, history, e, start);
      history := history + [e];
      if ttl == 0 {
        store := Without(store, key);
        return true;
      }
      store := Placed(store, key, value, now + ttl as real);
      Trim(later);
      SetIsFound(maxEntries, old(history), e, start);
      accepted := true;
    }

    /** The end of `set`: purge if over the limit, then drop the least recently used items. */
    method Trim(later: Time)
      requires Distinct(store)
      modifies `store, `evictions
      ensures store == if |old(store)| > maxEntries then Newest(Live(old(store), later), maxEntries) else old(store)
      ensures evictions == old(evictions) + Excess(maxEntries, old(store), later)
    {
      if |store| > maxEntries {
        var dropped := Purged(later);
      }
      ghost var live := store;
      while |store| > maxEntries
        invariant |store| <= |live| && store == live[|live| - |store|..]
        invariant |store| < |live| ==> |store| >= maxEntries
        invariant |old(store)| <= maxEntries ==> store == old(store) && evictions == old(evictions)
        invariant evictions - old(evictions) == |live| - |store|
      {
        store := store[1..];
        evictions := evictions + 1;
      }
    }

    /** `purge_expired`, used inside `Set` as well as on its own. */
    method Purged(now: Time) returns (removed: nat)
      requires Distinct(store)
      modifies `store
      ensures store == Live(old(store), now) && removed == |old(store)| - |store|
    {
      ghost var items := store;
      hide Live, Without, Distinct, Excluding;
      var expired := Expired(store, now);
      ExcludingNone(items);
      assert expired[..0] == [] && KeySet(expired[..0]) == {};
      for i := 0 to |expired|
        invariant store == Excluding(items, KeySet(expired[..i]))
      {
        ExcludingOneMore(items, KeySet(expired[..i]), expired[i]);
        assert expired[..i + 1] == expired[..i] + [expired[i]];
        assert KeySet(expired[..i + 1]) == KeySet(expired[..i]) + {expired[i]};
        store := Without(store, expired[i]);
      }
      assert expired[..|expired|] == expired;
      ExcludingExpired(items, items, now);
      return |expired|;
    }

    method PurgeExpired(now: Time) returns (removed: nat)
      requires Valid() && Clock(history, start) <= now
      modifies this
      ensures Valid() && history == old(history) + [Purge(now)] && evictions == old(evictions)
      ensures store == Live(old(store), now) && removed == |old(store)| - |store|
    {
      hide Inv, Run, Live, Monotone;
      RunAfter(maxEntries, history, Purge(now), start);
      StoreDistinct(maxEntries, history, start);
      removed := Purged(now);
      history := history + [Purge(now)];
    }

    method Delete(key: Key)
      requires Valid()
      modifies this
      ensures Valid() && history == old(history) + [Event.Delete(key)] && evictions == old(evictions)
      ensures !Has(store, key) && forall x :: x in store <==> x in old(store) && x.key != key
    {
      assert (history + [Event.Delete(key)])[..|history|] == history;
      history := history + [Event.Delete(key)];
      store := Without(store, key);
    }

    method Clear()
      requires Valid()
      modifies this
      ensures Valid() && history == old(history) + [Event.Clear] && store == [] && evictions == old(evictions)
    {
      assert (history + [Event.Clear])[..|history|] == history;
      history := history + [Event.Clear];
      store := [];
    }
  }

  lemma RunAfter(max: nat, history: seq<Event>, e: Event, start: Time)
    requires Monotone(history, start) && InOrder(e, Clock(history, start))
    ensures Monotone(history + [e], start) && Run(max, history + [e]) == Step(max, Run(max, history), e)
    ensures e.Set? ==> Distinct(Placed(Run(max, history), e.key, e.value, e.now + e.ttl as real))
  {
    var h := history + [e];
    assert h[..|h| - 1] == history;
    EveryRun(max, history, start);
    if e.Set? {
      PlacedDistinct(Run(max, history), Item(e.key, e.value, e.now + e.ttl as real));
    }
  }

  lemma StoreDistinct(max: nat, history: seq<Event>, start: Time)
    requires Monotone(history, start)
    ensures Distinct(Run(max, history))
  {
    EveryRun(max, history, start);
  }

  lemma PlacedDistinct(items: seq<Item>, x: Item)
    requires Distinct(items)
    ensures Distinct(Without(items, x.key) + [x])
  {
    var all: Key -> set<Key> := k => (set y <- items :: y.key) + {x.key};
    AllRanked(items, all);
    WithoutKeeps(items, x.key, all);
    AppendKeeps(Without(items, x.key), x, all);
  }

  lemma SetIsFound(max: nat, history: seq<Event>, e: Event, start: Time)
    requires Monotone(history + [e], start) && e.Set? && e.ttl > 0
    ensures max > 0 && e.later < e.now + e.ttl as real ==>
              Find(Run(max, history + [e]), e.key) == Some(Item(e.key, e.value, e.now + e.ttl as real))
  {
    var h := history + [e];
    assert h[..|h| - 1] == history;
    if max > 0 && e.later < e.now + e.ttl as real {
      TouchedBySet(Run(max, history), e);
      assert Since(max, h, e.key) == {};
      MustHit(max, h, start, e.key, e.later);
    }
  }

  /** Keys of the expired items, in order. */
  function Expired(items: seq<Item>, now: Time): (keys: seq<Key>)
    ensures |keys| == |items| - |Live(items, now)|
    ensures forall k :: k in keys <==> exists x <- items :: x.key == k && now >= x.expiry
  {
    if items == [] then []
    else
      assert items == [items[0]] + items[1..];
      (if now >= items[0].expiry then [items[0].key] else []) + Expired(items[1..], now)
  }

  function KeySet(keys: seq<Key>): set<Key> {
    set k | k in keys
  }

  ghost function Excluding(items: seq<Item>, keys: set<Key>): seq<Item> {
    if items == [] then [] else (if items[0].key !in keys then [items[0]] else []) + Excluding(items[1..], keys)
  }

  lemma {:induction false} ExcludingNone(items: seq<Item>)
    ensures Excluding(items, {}) == items
  {
    if items != [] {
      ExcludingNone(items[1..]);
    }
  }

  lemma {:induction false} ExcludingOneMore(items: seq<Item>, keys: set<Key>, key: Key)
    ensures Without(Excluding(items, keys), key) == Excluding(items, keys + {key})
  {
    if items != [] {
      ExcludingOneMore(items[1..], keys, key);
      var rest := Excluding(items[1..], keys);
      assert items[0].key !in keys ==> ([items[0]] + rest)[1..] == rest;
      assert [] + rest == rest;
    }
  }

  lemma {:induction false} ExcludingExpired(all: seq<Item>, items: seq<Item>, now: Time)
    requires Distinct(all) && forall x <- items :: x in all
    ensures Excluding(items, KeySet(Expired(all, now))) == Live(items, now)
  {
    if items != [] {
      var x := items[0];
      assert items == [x] + items[1..];
      ExcludingExpired(all, items[1..], now);
      if x.key in Expired(all, now) {
        var y :| y in all && y.key == x.key && now >= y.expiry;
        OnePerKey(all, x, y);
      }
    }
  }

  // ---- what a store keeps ------------------------------------------------------------------------------------

  /** With room for it, storing a value drops nothing but what was stored under the key before, expired or not. */
  lemma RoomForAll(max: nat, items: seq<Item>, key: Key, value: Value, ttl: nat, now: Time, later: Time)
    requires ttl > 0 && |Without(items, key)| < max
    ensures forall x <- items :: x.key != key ==> x in Step(max, items, Set(key, value, ttl, now, later))
    ensures Item(key, value, now + ttl as real) in Step(max, items, Set(key, value, ttl, now, later))
  {
  }

  /** The evictions counted are the live items that the limit pushed out. */
  lemma ExcessIsEvicted(max: nat, items: seq<Item>, now: Time)
    ensures Excess(max, items, now) == if |items| > max then |Live(items, now)| - |Newest(Live(items, now), max)| else 0
  {
  }
}
