/** Personal data and secrets: the card check digit, finding matches and masking them. */
module Pii {

  type Digit = n: nat | n < 10

  // ---- the Luhn check ---------------------------------------------------------------------------

  /** What a digit adds: every other one, counted from the right, is doubled with its digits summed. */
  function Weight(d: Digit, alt: bool): nat {
    if !alt then d else if d > 4 then d * 2 - 9 else d * 2
  }

  function Total(ds: seq<Digit>, alt: bool): nat {
    if ds == [] then 0 else Weight(ds[|ds| - 1], alt) + Total(ds[..|ds| - 1], !alt)
  }

  predicate Valid(ds: seq<Digit>) {
    Total(ds, false) % 10 == 0
  }

  /** Whether a digit `n` places further left is doubled. */
  predicate Doubled(n: nat, alt: bool) {
    if n % 2 == 0 then alt else !alt
  }

  method LuhnValid(digits: seq<Digit>) returns (valid: bool)
    ensures valid <==> Valid(digits)
  {
    var total, alt := 0, false;
    var i := |digits|;
    assert digits[..i] == digits;
    while i > 0
      invariant 0 <= i <= |digits|
      invariant total + Total(digits[..i], alt) == Total(digits, false)
    {
      i := i - 1;
      var d: nat := digits[i];
      assert digits[..i + 1][..i] == digits[..i];
      if alt {
        d := if d > 4 then d * 2 - 9 else d * 2;
      }
      total, alt := total + d, !alt;
    }
    return total % 10 == 0;
  }

  /** A change at one position changes the sum by the difference of the two weights. */
  lemma {:induction false} TotalAt(ds: seq<Digit>, i: nat, d: Digit, alt: bool)
    requires i < |ds|
    ensures var a := Doubled(|ds| - 1 - i, alt);
            Total(ds[i := d], alt) - Weight(d, a) == Total(ds, alt) - Weight(ds[i], a)
    decreases |ds|
  {
    var n := |ds| - 1;
    if i == n {
      assert ds[i := d][..n] == ds[..n];
    } else {
      TotalAt(ds[..n], i, d, !alt);
      assert ds[i := d][..n] == ds[..n][i := d];
    }
  }

  lemma WeightsDiffer(d: Digit, e: Digit, alt: bool)
    requires d != e
    ensures Weight(d, alt) % 10 != Weight(e, alt) % 10
  {
  }

  lemma ShiftedTen(t: int, t': int, x: int, y: int)
    requires t % 10 == 0 && t' - y == t - x
    ensures t' % 10 == 0 <==> x % 10 == y % 10
  {
  }

  lemma SingleDigitChange(ds: seq<Digit>, i: nat, d: Digit)
    requires Valid(ds) && i < |ds| && d != ds[i]
    ensures !Valid(ds[i := d])
  {
    hide Total, Weight;
    var a := Doubled(|ds| - 1 - i, false);
    TotalAt(ds, i, d, false);
    WeightsDiffer(d, ds[i], a);
    ShiftedTen(Total(ds, false), Total(ds[i := d], false), Weight(ds[i], a), Weight(d, a));
  }

  predicate ZeroAndNine(d: Digit, e: Digit) {
    (d == 0 && e == 9) || (d == 9 && e == 0)
  }

  lemma SwapWeights(d: Digit, e: Digit, a: bool)
    requires d != e
    ensures (Weight(d, a) + Weight(e, !a)) % 10 == (Weight(e, a) + Weight(d, !a)) % 10 <==> ZeroAndNine(d, e)
  {
    SameRest(Weight(d, a) + Weight(e, !a), Weight(e, a) + Weight(d, !a));
  }

  lemma SameRest(x: nat, y: nat)
    requires x < 20 && y < 20
    ensures x % 10 == y % 10 <==> x == y || x == y + 10 || y == x + 10
  {
  }

  /** Swapping two different neighbours goes unnoticed exactly for 0 and 9. */
  lemma NeighbourSwap(ds: seq<Digit>, i: nat)
    requires Valid(ds) && i + 1 < |ds| && ds[i] != ds[i + 1]
    ensures Valid(ds[i := ds[i + 1]][i + 1 := ds[i]]) <==> ZeroAndNine(ds[i], ds[i + 1])
  {
    hide Total, Weight, ZeroAndNine;
    var d, e := ds[i], ds[i + 1];
    var once := ds[i := e];
    var a := Doubled(|ds| - 1 - i, false);
    assert Doubled(|ds| - 1 - (i + 1), false) == !a;
    TotalAt(ds, i, e, false);
    TotalAt(once, i + 1, d, false);
    SwapWeights(d, e, a);
    ShiftedTen(Total(ds, false), Total(once[i + 1 := d], false),
               Weight(d, a) + Weight(e, !a), Weight(e, a) + Weight(d, !a));
  }

  function CheckDigit(prefix: seq<Digit>): Digit {
    (10 - Total(prefix, true) % 10) % 10
  }

  lemma OneCheckDigit(prefix: seq<Digit>, d: Digit)
    ensures Valid(prefix + [d]) <==> d == CheckDigit(prefix)
  {
    assert (prefix + [d])[..|prefix|] == prefix;
    assert Total(prefix + [d], false) == d + Total(prefix, true);
    SumTen(Total(prefix, true), d);
  }

  lemma SumTen(t: nat, d: Digit)
    ensures (d + t) % 10 == 0 <==> d == (10 - t % 10) % 10
  {
  }

  // ---- finding ----------------------------------------------------------------------------------

  type Kind = string

  datatype Span = Span(start: nat, end: nat)

  datatype Finding = Finding(kind: Kind, start: nat, end: nat)

  /** A rule with the matches its pattern has in the text, left to right. */
  datatype Rule = Rule(kind: Kind, card: bool, matches: seq<Span>)

  function DigitsOf(s: string): seq<Digit> {
    if s == "" then []
    else (if '0' <= s[0] <= '9' then [(s[0] as int - '0' as int) as Digit] else []) + DigitsOf(s[1..])
  }

  /** The digits of a text are its characters from 0 to 9, in order. */
  lemma {:induction false} DigitsInOrder(s: string, t: string)
    ensures DigitsOf(s + t) == DigitsOf(s) + DigitsOf(t)
  {
    if s == "" {
      assert s + t == t;
    } else {
      DigitsInOrder(s[1..], t);
      FirstDigit(s, t);
    }
  }

  lemma FirstDigit(s: string, t: string)
    requires s != "" && DigitsOf(s[1..] + t) == DigitsOf(s[1..]) + DigitsOf(t)
    ensures DigitsOf(s + t) == DigitsOf(s) + DigitsOf(t)
  {
    hide *;
    Unfold(s);
    Unfold(s + t);
    assert (s + t)[1..] == s[1..] + t && (s + t)[0] == s[0];
    Regroup(DigitsOf([s[0]]), DigitsOf(s[1..]), DigitsOf(t));
  }

  lemma Unfold(s: string)
    requires s != ""
    ensures DigitsOf(s) == DigitsOf([s[0]]) + DigitsOf(s[1..])
  {
    assert [s[0]][1..] == "" && DigitsOf("") == [];
  }

  lemma Regroup(a: seq<Digit>, b: seq<Digit>, c: seq<Digit>)
    ensures a + (b + c) == (a + b) + c
  {
  }

  lemma DigitsOfOne(c: char)
    ensures DigitsOf([c]) == if '0' <= c && c < ':' then [(c as int - 48) as Digit] else []
  {
    assert [c][1..] == "";
  }

  /** The validator: only the card rule has one. */
  predicate Passes(text: string, r: Rule, m: Span) {
    r.card ==> m.start <= m.end <= |text| &&
               13 <= |DigitsOf(text[m.start..m.end])| <= 19 && Valid(DigitsOf(text[m.start..m.end]))
  }

  /** A card number counts only with 13 to 19 digits whose check digit is right; any other match counts. */
  lemma Counts(text: string, r: Rule, m: Span)
    ensures !r.card ==> Passes(text, r, m)
    ensures r.card && m.start <= m.end <= |text| ==>
      var ds := DigitsOf(text[m.start..m.end]);
      Passes(text, r, m) <==> |ds| > 12 && |ds| < 20 && ds[|ds| - 1] == CheckDigit(ds[..|ds| - 1])
  {
    if r.card && m.start <= m.end <= |text| {
      var ds := DigitsOf(text[m.start..m.end]);
      if |ds| > 12 {
        assert ds == ds[..|ds| - 1] + [ds[|ds| - 1]];
        OneCheckDigit(ds[..|ds| - 1], ds[|ds| - 1]);
      }
    }
  }

  predicate Overlap(f: Finding, g: Finding) {
    f.start < g.end && g.start < f.end
  }

  predicate Clear(f: Finding, found: seq<Finding>) {
    forall g <- found :: !Overlap(f, g)
  }

  function Add(found: seq<Finding>, f: Finding): seq<Finding> {
    if Clear(f, found) then found + [f] else found
  }

  /** Taking a rule's first `n` matches in order, each unless it overlaps what was found before. */
  function Scan(text: string, r: Rule, n: nat, found: seq<Finding>): seq<Finding>
    requires n <= |r.matches|
  {
    if n == 0 then found else
    var before := Scan(text, r, n - 1, found);
    var m := r.matches[n - 1];
    if Passes(text, r, m) then Add(before, Finding(r.kind, m.start, m.end)) else before
  }

  function ScanAll(text: string, rules: seq<Rule>, kinds: set<Kind>): seq<Finding> {
    if rules == [] then [] else
    var before := ScanAll(text, rules[..|rules| - 1], kinds);
    var r := rules[|rules| - 1];
    if r.kind in kinds then Scan(text, r, |r.matches|, before) else before
  }

  /** Patterns match non-empty stretches of the text. */
  predicate InText(text: string, rules: seq<Rule>) {
    forall r <- rules, m <- r.matches :: m.start < m.end <= |text|
  }

  predicate Disjoint(found: seq<Finding>) {
    found == [] || (Clear(found[|found| - 1], found[..|found| - 1]) && Disjoint(found[..|found| - 1]))
  }

  predicate Bounded(text: string, found: seq<Finding>) {
    forall f <- found :: f.start < f.end <= |text|
  }

  /** `f` is a validated match of a selected rule. */
  predicate Matched(text: string, rules: seq<Rule>, kinds: set<Kind>, f: Finding) {
    exists r <- rules :: r.kind == f.kind && r.kind in kinds &&
      Span(f.start, f.end) in r.matches && Passes(text, r, Span(f.start, f.end))
  }

  lemma {:induction false} ScanKeeps(text: string, r: Rule, n: nat, found: seq<Finding>)
    requires n <= |r.matches| && InText(text, [r]) && Disjoint(found) && Bounded(text, found)
    ensures var all := Scan(text, r, n, found); found <= all && Disjoint(all) && Bounded(text, all)
  {
    if n > 0 {
      ScanKeeps(text, r, n - 1, found);
      assert r.matches[n - 1] in r.matches && r in [r];
      var before := Scan(text, r, n - 1, found);
      var m := r.matches[n - 1];
      assert (before + [Finding(r.kind, m.start, m.end)])[..|before|] == before;
    }
  }

  /** Every validated match is kept, or overlaps a finding kept before it. */
  lemma {:induction false} ScanCovers(text: string, r: Rule, n: nat, found: seq<Finding>, k: nat)
    requires k < n <= |r.matches| && InText(text, [r]) && Passes(text, r, r.matches[k])
    ensures var f := Finding(r.kind, r.matches[k].start, r.matches[k].end);
            exists g <- Scan(text, r, n, found) :: g == f || Overlap(f, g)
  {
    var f := Finding(r.kind, r.matches[k].start, r.matches[k].end);
    var before := Scan(text, r, n - 1, found);
    if k < n - 1 {
      ScanCovers(text, r, n - 1, found, k);
      var g :| g in before && (g == f || Overlap(f, g));
      assert g in Scan(text, r, n, found);
    } else if Clear(f, before) {
      assert f in Scan(text, r, n, found);
    } else {
      var g :| g in before && Overlap(f, g);
      assert g in Scan(text, r, n, found);
    }
  }

  lemma {:induction false} ScanSound(text: string, r: Rule, n: nat, found: seq<Finding>, f: Finding)
    requires n <= |r.matches| && f in Scan(text, r, n, found) && f !in found
    ensures f.kind == r.kind && Span(f.start, f.end) in r.matches && Passes(text, r, Span(f.start, f.end))
  {
    if n > 0 && f in Scan(text, r, n - 1, found) {
      ScanSound(text, r, n - 1, found, f);
    }
  }

  lemma {:induction false} ScanAllKeeps(text: string, rules: seq<Rule>, kinds: set<Kind>)
    requires InText(text, rules)
    ensures var found := ScanAll(text, rules, kinds); Disjoint(found) && Bounded(text, found)
  {
    if rules != [] {
      var r := rules[|rules| - 1];
      ScanAllKeeps(text, rules[..|rules| - 1], kinds);
      ScanKeeps(text, r, |r.matches|, ScanAll(text, rules[..|rules| - 1], kinds));
    }
  }

  /** What the first rules find is not revised by later ones. */
  lemma {:induction false} EarlierRulesFirst(text: string, rules: seq<Rule>, kinds: set<Kind>, i: nat)
    requires InText(text, rules) && i <= |rules|
    ensures ScanAll(text, rules[..i], kinds) <= ScanAll(text, rules, kinds)
    decreases |rules|
  {
    if i == |rules| {
      assert rules[..i] == rules;
    } else {
      var r, init := rules[|rules| - 1], rules[..|rules| - 1];
      EarlierRulesFirst(text, init, kinds, i);
      assert init[..i] == rules[..i];
      ScanAllKeeps(text, init, kinds);
      ScanKeeps(text, r, |r.matches|, ScanAll(text, init, kinds));
    }
  }

  lemma InPrefix(a: seq<Finding>, b: seq<Finding>)
    requires a <= b
    ensures forall g <- a :: g in b
  {
    assert a == b[..|a|];
  }

  /** A validated match is kept or overlaps a finding of its own or an earlier rule. */
  lemma EveryMatchCovered(text: string, rules: seq<Rule>, kinds: set<Kind>, i: nat, k: nat)
    requires InText(text, rules) && i < |rules| && k < |rules[i].matches|
    requires rules[i].kind in kinds && Passes(text, rules[i], rules[i].matches[k])
    ensures var f := Finding(rules[i].kind, rules[i].matches[k].start, rules[i].matches[k].end);
            exists g <- ScanAll(text, rules[..i + 1], kinds) :: g in ScanAll(text, rules, kinds)
              && (g == f || (g.start < f.end && f.start < g.end))
  {
    var r := rules[i];
    var f := Finding(r.kind, r.matches[k].start, r.matches[k].end);
    assert rules[..i + 1][..i] == rules[..i];
    ScanCovers(text, r, |r.matches|, ScanAll(text, rules[..i], kinds), k);
    var first := ScanAll(text, rules[..i + 1], kinds);
    assert first == Scan(text, r, |r.matches|, ScanAll(text, rules[..i], kinds));
    hide ScanAll, Scan, Passes;
    EarlierRulesFirst(text, rules, kinds, i + 1);
    InPrefix(first, ScanAll(text, rules, kinds));
  }

  lemma {:induction false} OnlyMatches(text: string, rules: seq<Rule>, kinds: set<Kind>, f: Finding)
    requires f in ScanAll(text, rules, kinds)
    ensures Matched(text, rules, kinds, f)
  {
    var r, init := rules[|rules| - 1], rules[..|rules| - 1];
    if f in ScanAll(text, init, kinds) {
      OnlyMatches(text, init, kinds, f);
    } else {
      ScanSound(text, r, |r.matches|, ScanAll(text, init, kinds), f);
      assert r in rules;
    }
  }

  // ---- in text order ------------------------------------------------------------------------------

  /** Each ends before the next begins. */
  predicate Apart(fs: seq<Finding>) {
    fs == [] || ((forall g <- fs[1..] :: fs[0].end <= g.start) && Apart(fs[1..]))
  }

  function Place(f: Finding, fs: seq<Finding>): (r: seq<Finding>)
    ensures multiset(r) == multiset(fs) + multiset{f}
  {
    if fs == [] || f.start < fs[0].start then [f] + fs
    else
      assert fs == [fs[0]] + fs[1..];
      [fs[0]] + Place(f, fs[1..])
  }

  function ByStart(fs: seq<Finding>): (r: seq<Finding>)
    ensures multiset(r) == multiset(fs)
  {
    if fs == [] then []
    else
      assert fs == fs[..|fs| - 1] + [fs[|fs| - 1]];
      Place(fs[|fs| - 1], ByStart(fs[..|fs| - 1]))
  }

  lemma {:induction false} PlaceApart(text: string, f: Finding, fs: seq<Finding>)
    requires Apart(fs) && Clear(f, fs) && Bounded(text, fs) && f.start < f.end
    ensures Apart(Place(f, fs))
  {
    if fs != [] {
      assert fs == [fs[0]] + fs[1..];
      assert fs[0] in fs;
      PlaceApart(text, f, fs[1..]);
      var rest := Place(f, fs[1..]);
      if f.start < fs[0].start {
        assert ([f] + fs)[1..] == fs;
      } else {
        forall g <- rest ensures fs[0].end <= g.start {
          assert g in multiset(rest);
          assert g in multiset(fs[1..]) || g == f;
        }
        assert ([fs[0]] + rest)[1..] == rest;
      }
    }
  }

  lemma {:induction false} ByStartApart(text: string, fs: seq<Finding>)
    requires Disjoint(fs) && Bounded(text, fs)
    ensures Apart(ByStart(fs)) && Bounded(text, ByStart(fs))
  {
    if fs != [] {
      var init, f := fs[..|fs| - 1], fs[|fs| - 1];
      assert fs == init + [f];
      ByStartApart(text, init);
      forall g <- ByStart(init) ensures g in init {
        assert g in multiset(ByStart(init));
      }
      PlaceApart(text, f, ByStart(init));
      forall g <- ByStart(fs) ensures g in fs {
        assert g in multiset(ByStart(fs));
      }
    }
  }

  method Detect(text: string, rules: seq<Rule>, kinds: set<Kind>) returns (findings: seq<Finding>)
    ensures findings == ByStart(ScanAll(text, rules, kinds))
    ensures multiset(findings) == multiset(ScanAll(text, rules, kinds))
    ensures InText(text, rules) ==> Apart(findings) && Bounded(text, findings)
  {
    var found: seq<Finding> := [];
    for i := 0 to |rules|
      invariant found == ScanAll(text, rules[..i], kinds)
    {
      var r := rules[i];
      assert rules[..i + 1][..i] == rules[..i];
      if r.kind in kinds {
        for j := 0 to |r.matches|
          invariant found == Scan(text, r, j, ScanAll(text, rules[..i], kinds))
        {
          var m := r.matches[j];
          if Passes(text, r, m) && Clear(Finding(r.kind, m.start, m.end), found) {
            found := found + [Finding(r.kind, m.start, m.end)];
          }
        }
      }
    }
    assert rules[..|rules|] == rules;
    if InText(text, rules) {
      ScanAllKeeps(text, rules, kinds);
      ByStartApart(text, found);
    }
    findings := ByStart(found);
  }

  // ---- masking ------------------------------------------------------------------------------------

  function Marker(kind: Kind): string {
    "[REDACTED:" + kind + "]"
  }

  /** The text from `pos` on, read character by character: a finding's stretch becomes its marker. */
  function Masked(text: string, fs: seq<Finding>, pos: nat): string
    requires pos <= |text| && Apart(fs) && Bounded(text, fs) && (fs != [] ==> pos <= fs[0].start)
    decreases |text| - pos, |fs|
  {
    if fs != [] && fs[0].start == pos then
      assert fs[0] in fs && fs == [fs[0]] + fs[1..];
      Marker(fs[0].kind) + Masked(text, fs[1..], fs[0].end)
    else if pos == |text| then ""
    else [text[pos]] + Masked(text, fs, pos + 1)
  }

  lemma {:induction false} GapKept(text: string, fs: seq<Finding>, pos: nat, to: nat)
    requires pos <= to <= |text| && Apart(fs) && Bounded(text, fs) && (fs != [] ==> to <= fs[0].start)
    ensures Masked(text, fs, pos) == text[pos..to] + Masked(text, fs, to)
    decreases |text| - pos
  {
    hide Apart, Bounded;
    if pos < to {
      GapKept(text, fs, pos + 1, to);
      assert text[pos..to] == [text[pos]] + text[pos + 1..to];
      assert Masked(text, fs, pos) == [text[pos]] + Masked(text, fs, pos + 1);
    }
  }

  predicate Ready(text: string, fs: seq<Finding>, i: nat, pos: nat) {
    i <= |fs| && pos <= |text| && Apart(fs[i..]) && Bounded(text, fs[i..]) && (i < |fs| ==> pos <= fs[i].start)
  }

  lemma MaskOne(text: string, fs: seq<Finding>, i: nat, pos: nat)
    requires i < |fs| && Ready(text, fs, i, pos)
    ensures fs[i].start <= fs[i].end <= |text| && Ready(text, fs, i + 1, fs[i].end)
    ensures Masked(text, fs[i..], pos)
         == text[pos..fs[i].start] + Marker(fs[i].kind) + Masked(text, fs[i + 1..], fs[i].end)
  {
    var f, rest := fs[i], fs[i + 1..];
    assert fs[i..] == [f] + rest && fs[i..][1..] == rest && f in fs[i..];
    if rest != [] {
      assert rest[0] in rest && rest[0] == fs[i + 1];
    }
    GapKept(text, fs[i..], pos, f.start);
  }

  lemma MaskRest(text: string, fs: seq<Finding>, pos: nat)
    requires Ready(text, fs, |fs|, pos)
    ensures Masked(text, fs[|fs|..], pos) == text[pos..]
  {
    assert fs[|fs|..] == [];
    GapKept(text, [], pos, |text|);
  }

  lemma MaskAll(text: string, fs: seq<Finding>)
    requires Apart(fs) && Bounded(text, fs)
    ensures Ready(text, fs, 0, 0) && fs[0..] == fs && (text == "" ==> Masked(text, fs, 0) == "")
  {
    if fs != [] {
      assert fs[0] in fs;
    }
  }

  method Redact(text: string, rules: seq<Rule>, kinds: set<Kind>) returns (out: string)
    requires InText(text, rules)
    ensures var fs := ByStart(ScanAll(text, rules, kinds));
            Apart(fs) && Bounded(text, fs) && out == Masked(text, fs, 0)
  {
    hide Masked, Marker, Apart, Bounded, InText, ByStart, ScanAll;
    var fs := Detect(text, rules, kinds);
    MaskAll(text, fs);
    if text == "" {
      return text;
    }
    out := "";
    var pos := 0;
    for i := 0 to |fs|
      invariant 0 <= pos && Ready(text, fs, i, pos)
      invariant out + Masked(text, fs[i..], pos) == Masked(text, fs, 0)
    {
      MaskOne(text, fs, i, pos);
      out := out + (text[pos..fs[i].start] + Marker(fs[i].kind));
      pos := fs[i].end;
    }
    MaskRest(text, fs, pos);
    out := out + text[pos..];
  }
}
