/** Splitting a migration script into statements. */
module SqlSplit {

  /** What the scanner is inside of; `Out` is plain SQL. */
  datatype Quote = Out | Single | Double | Dollar

  /** What the scanner does next: keep some characters, end the statement, or skip a comment. */
  datatype Action = Keep(len: nat, next: Quote) | Cut | Skip(len: nat)

  predicate At(s: string, mark: string) {
    |mark| <= |s| && s[..|mark|] == mark
  }

  /** Length of a `--` comment: up to the line feed that ends it, which stays. */
  function ToNewline(s: string): (n: nat)
    ensures n <= |s| && '\n' !in s[..n] && (n < |s| ==> s[n] == '\n')
  {
    if s == "" || s[0] == '\n' then 0 else 1 + ToNewline(s[1..])
  }

  function Next(s: string, quote: Quote): (a: Action)
    requires s != ""
    ensures a.Keep? ==> 1 <= a.len <= |s|
    ensures a.Skip? ==> 2 <= a.len <= |s|
  {
    match quote
    case Single => Keep(1, if s[0] == '\'' then Out else Single)
    case Double => Keep(1, if s[0] == '"' then Out else Double)
    case Dollar => if At(s, "$$") then Keep(2, Out) else Keep(1, Dollar)
    case Out =>
      if At(s, "--") then assert s[..2][0] == '-' == s[..2][1]; Skip(ToNewline(s))
      else if At(s, "$$") then Keep(2, Dollar)
      else if s[0] == '\'' then Keep(1, Single)
      else if s[0] == '"' then Keep(1, Double)
      else if s[0] == ';' then Cut
      else Keep(1, Out)
  }

  function Prepend(t: string, parts: seq<string>): seq<string>
    requires parts != []
  {
    [t + parts[0]] + parts[1..]
  }

  /** The raw statements of `s`, read from inside `quote`: the first one continues a statement already begun. */
  function Segments(s: string, quote: Quote): (parts: seq<string>)
    ensures parts != []
    decreases |s|
  {
    if s == "" then [""] else
    match Next(s, quote)
    case Keep(k, q) => Prepend(s[..k], Segments(s[k..], q))
    case Cut => [""] + Segments(s[1..], Out)
    case Skip(k) => Segments(s[k..], Out)
  }

  /** The characters `str.strip` removes. */
  predicate Space(c: char) {
    var n := c as int;
    0x09 <= n <= 0x0d || 0x1c <= n <= 0x20 || n == 0x85 || n == 0xa0 || n == 0x1680 || 0x2000 <= n <= 0x200a
    || n == 0x2028 || n == 0x2029 || n == 0x202f || n == 0x205f || n == 0x3000
  }

  function StripLeft(s: string): (r: string)
    ensures r != "" ==> !Space(r[0])
  {
    if s != "" && Space(s[0]) then StripLeft(s[1..]) else s
  }

  function StripRight(s: string): (r: string)
    ensures r <= s && (r != "" ==> !Space(r[|r| - 1]))
  {
    if s != "" && Space(s[|s| - 1]) then StripRight(s[..|s| - 1]) else s
  }

  function Strip(s: string): string {
    StripRight(StripLeft(s))
  }

  function StripAll(parts: seq<string>): (r: seq<string>)
    ensures |r| == |parts| && forall i :: 0 <= i < |r| ==> r[i] == Strip(parts[i])
  {
    seq(|parts|, i requires 0 <= i < |parts| => Strip(parts[i]))
  }

  /** `str.upper` on the letters that decide the filter: besides ASCII, only the dotless i maps onto one of them. */
  function UpperChar(c: char): char {
    if 'a' <= c <= 'z' then (c as int - 32) as char
    else if c as int == 0x131 then 'I'
    else c
  }

  function Upper(s: string): (r: string)
    ensures |r| == |s| && forall i :: 0 <= i < |r| ==> r[i] == UpperChar(s[i])
  {
    seq(|s|, i requires 0 <= i < |s| => UpperChar(s[i]))
  }

  predicate Runs(s: string) {
    s != "" && Upper(s) != "BEGIN" && Upper(s) != "COMMIT"
  }

  function Kept(parts: seq<string>): seq<string> {
    if parts == [] then [] else (if Runs(parts[0]) then [parts[0]] else []) + Kept(parts[1..])
  }

  function Statements(sql: string): seq<string> {
    Kept(StripAll(Segments(sql, Out)))
  }

  // ---- the loop -------------------------------------------------------------------------------

  lemma KeptAppend(parts: seq<string>, last: string)
    ensures Kept(parts + [last]) == Kept(parts) + if Runs(last) then [last] else []
  {
    if parts != [] {
      KeptAppend(parts[1..], last);
      assert (parts + [last])[1..] == parts[1..] + [last];
    }
  }

  method FilterStatements(parts: seq<string>) returns (kept: seq<string>)
    ensures kept == Kept(parts)
  {
    kept := [];
    for i := 0 to |parts|
      invariant kept == Kept(parts[..i])
    {
      KeptAppend(parts[..i], parts[i]);
      assert parts[..i + 1] == parts[..i] + [parts[i]];
      if Runs(parts[i]) {
        kept := kept + [parts[i]];
      }
    }
    assert parts[..|parts|] == parts;
  }

  function Opening(c: char): Quote {
    if c == '\'' then Single else if c == '"' then Double else Out
  }

  /** What the loop has produced so far, plus what the rest of the text will produce. */
  ghost predicate Progress(sql: string, i: nat, quote: Quote, buf: string, out: seq<string>) {
    i <= |sql| && out + StripAll(Prepend(buf, Segments(sql[i..], quote))) == StripAll(Segments(sql, Out))
  }

  lemma Kept1(sql: string, i: nat, quote: Quote, buf: string, out: seq<string>)
    requires i < |sql| && Progress(sql, i, quote, buf, out) && Next(sql[i..], quote).Keep?
    ensures var a := Next(sql[i..], quote);
            i + a.len <= |sql| && Progress(sql, i + a.len, a.next, buf + sql[i..i + a.len], out)
  {
    var a := Next(sql[i..], quote);
    assert sql[i..][..a.len] == sql[i..i + a.len] && sql[i..][a.len..] == sql[i + a.len..];
    var rest := Segments(sql[i + a.len..], a.next);
    assert (buf + sql[i..i + a.len]) + rest[0] == buf + (sql[i..i + a.len] + rest[0]);
  }

  lemma PrependNothing(parts: seq<string>)
    requires parts != []
    ensures Prepend("", parts) == parts
  {
    assert "" + parts[0] == parts[0];
  }

  lemma CutParts(buf: string, rest: seq<string>)
    requires rest != []
    ensures StripAll(Prepend(buf, [""] + rest)) == [Strip(buf)] + StripAll(rest)
  {
    hide Strip;
    assert buf + "" == buf && ([""] + rest)[1..] == rest;
    assert Prepend(buf, [""] + rest) == [buf] + rest;
    hide Prepend;
    assert StripAll([buf] + rest) == [Strip(buf)] + StripAll(rest);
  }

  lemma Cut1(sql: string, i: nat, buf: string, out: seq<string>)
    requires i < |sql| && Progress(sql, i, Out, buf, out) && Next(sql[i..], Out).Cut?
    ensures Progress(sql, i + 1, Out, "", out + [Strip(buf)])
  {
    assert sql[i..][1..] == sql[i + 1..];
    var rest := Segments(sql[i + 1..], Out);
    PrependNothing(rest);
    CutParts(buf, rest);
  }

  lemma Skip1(sql: string, i: nat, buf: string, out: seq<string>)
    requires i < |sql| && Progress(sql, i, Out, buf, out) && Next(sql[i..], Out).Skip?
    ensures Progress(sql, i + ToNewline(sql[i..]), Out, buf, out)
  {
    var n := ToNewline(sql[i..]);
    assert sql[i..][n..] == sql[i + n..];
  }

  lemma InsideStep(sql: string, i: nat, quote: Quote, buf: string, out: seq<string>)
    requires i < |sql| && Progress(sql, i, quote, buf, out) && quote != Out
    ensures quote == Dollar && At(sql[i..], "$$") ==>
              i + 2 <= |sql| && Progress(sql, i + 2, Out, buf + [sql[i]] + sql[i + 1..i + 2], out)
    ensures quote == Dollar && !At(sql[i..], "$$") ==> Progress(sql, i + 1, quote, buf + [sql[i]], out)
    ensures quote != Dollar ==>
              Progress(sql, i + 1, if Opening(sql[i]) == quote then Out else quote, buf + [sql[i]], out)
  {
    Kept1(sql, i, quote, buf, out);
    var a := Next(sql[i..], quote);
    assert a.len == 2 ==> buf + sql[i..i + 2] == buf + [sql[i]] + sql[i + 1..i + 2];
    assert a.len == 1 ==> sql[i..i + 1] == [sql[i]];
  }

  lemma OutsideStep(sql: string, i: nat, buf: string, out: seq<string>)
    requires i < |sql| && Progress(sql, i, Out, buf, out) && Next(sql[i..], Out).Keep?
    ensures At(sql[i..], "$$") ==> i + 2 <= |sql| && Progress(sql, i + 2, Dollar, buf + "$$", out)
    ensures !At(sql[i..], "$$") ==> Progress(sql, i + 1, Opening(sql[i]), buf + [sql[i]], out)
  {
    hide Progress;
    Kept1(sql, i, Out, buf, out);
    KeptOutside(sql[i..]);
    hide Next, At;
    var a := Next(sql[i..], Out);
    assert sql[i..i + a.len] == sql[i..][..a.len];
    assert a.len == 1 ==> sql[i..i + 1] == [sql[i]];
  }

  lemma KeptOutside(s: string)
    requires s != "" && Next(s, Out).Keep?
    ensures Next(s, Out) == if At(s, "$$") then Keep(2, Dollar) else Keep(1, Opening(s[0]))
    ensures At(s, "$$") ==> |s| >= 2 && s[..2] == "$$"
  {
  }

  lemma Finish(sql: string, buf: string, out: seq<string>, quote: Quote)
    requires Progress(sql, |sql|, quote, buf, out)
    ensures out + [Strip(buf)] == StripAll(Segments(sql, Out))
  {
    assert sql[|sql|..] == "";
    assert buf + "" == buf && Prepend(buf, [""]) == [buf];
    assert StripAll([buf]) == [Strip(buf)];
  }

  lemma Begin(sql: string)
    ensures Progress(sql, 0, Out, "", [])
  {
    assert sql[0..] == sql;
    PrependNothing(Segments(sql, Out));
  }

  method SplitStatements(sql: string) returns (statements: seq<string>)
    ensures statements == Statements(sql)
  {
    hide Progress;
    var out: seq<string>, buf, i, n := [], "", 0, |sql|;
    var quote := Out;
    Begin(sql);
    while i < n
      invariant i <= n == |sql| && Progress(sql, i, quote, buf, out)
    {
      var ch := sql[i];
      if quote != Out {
        InsideStep(sql, i, quote, buf, out);
        buf := buf + [ch];
        if quote == Dollar && At(sql[i..], "$$") {
          buf := buf + sql[i + 1..i + 2];
          i := i + 1;
          quote := Out;
        } else if quote != Dollar && Opening(ch) == quote {
          quote := Out;
        }
      } else if At(sql[i..], "--") {
        Skip1(sql, i, buf, out);
        i := i + ToNewline(sql[i..]);
        continue;
      } else if At(sql[i..], "$$") {
        OutsideStep(sql, i, buf, out);
        quote := Dollar;
        buf := buf + "$$";
        i := i + 1;
      } else if ch == '\'' || ch == '"' {
        OutsideStep(sql, i, buf, out);
        quote := Opening(ch);
        buf := buf + [ch];
      } else if ch == ';' {
        Cut1(sql, i, buf, out);
        out := out + [Strip(buf)];
        buf := "";
      } else {
        OutsideStep(sql, i, buf, out);
        buf := buf + [ch];
      }
      i := i + 1;
    }
    Finish(sql, buf, out, quote);
    out := out + [Strip(buf)];
    statements := FilterStatements(out);
  }

  // ---- what the statements are ------------------------------------------------------------------

  /** Read from inside `quote`, `t` holds no separator and no comment outside quotes and `$$` bodies. */
  predicate Clean(t: string, quote: Quote)
    decreases |t|
  {
    t == "" || (Next(t, quote).Keep? && Clean(t[Next(t, quote).len..], Next(t, quote).next))
  }

  /** What `t` ends inside of. */
  function Ending(t: string, quote: Quote): Quote
    requires Clean(t, quote)
    decreases |t|
  {
    if t == "" then quote else Ending(t[Next(t, quote).len..], Next(t, quote).next)
  }

  predicate Closed(t: string) {
    Clean(t, Out) && Ending(t, Out) == Out
  }

  /** Clean statements; only the last may end in an unterminated quote. */
  predicate Sound(parts: seq<string>) {
    parts == [] || (Clean(parts[0], Out) && (|parts| > 1 ==> Closed(parts[0])) && Sound(parts[1..]))
  }

  predicate SoundFrom(parts: seq<string>, quote: Quote)
    requires parts != []
  {
    Clean(parts[0], quote) && (|parts| > 1 ==> Ending(parts[0], quote) == Out) && Sound(parts[1..])
  }

  lemma {:induction false} SegmentHead(s: string, quote: Quote)
    ensures var t := Segments(s, quote)[0]; t == "" || t[0] == '\n' || (s != "" && t[0] == s[0])
    decreases |s|
  {
    if s != "" && Next(s, quote).Skip? {
      var k := Next(s, quote).len;
      SegmentHead(s[k..], Out);
    }
  }

  /** What follows a kept piece does not change how the piece is read. */
  lemma NextSame(s: string, t: string, quote: Quote)
    requires s != "" && Next(s, quote).Keep?
    requires t == "" || t[0] == '\n' || t[0] == ';' || (Next(s, quote).len < |s| && t[0] == s[Next(s, quote).len])
    ensures Next(s[..Next(s, quote).len] + t, quote) == Next(s, quote)
  {
    var u := s[..Next(s, quote).len] + t;
    assert u[0] == s[0];
    if |u| >= 2 {
      assert u[..2] == [u[0], u[1]];
    }
    if |s| >= 2 {
      assert s[..2] == [s[0], s[1]];
    }
  }

  lemma {:induction false} SegmentsSound(s: string, quote: Quote)
    ensures SoundFrom(Segments(s, quote), quote)
    decreases |s|
  {
    if s != "" {
      match Next(s, quote)
      case Keep(k, q) =>
        SegmentsSound(s[k..], q);
        SegmentHead(s[k..], q);
        var t := Segments(s[k..], q)[0];
        NextSame(s, t, quote);
        assert (s[..k] + t)[k..] == t;
      case Cut => SegmentsSound(s[1..], Out);
      case Skip(k) => SegmentsSound(s[k..], Out);
    }
  }

  // ---- stripping --------------------------------------------------------------------------------

  lemma {:induction false} StripLeftClean(t: string)
    requires Clean(t, Out)
    ensures Clean(StripLeft(t), Out) && (Closed(t) ==> Closed(StripLeft(t)))
  {
    if t != "" && Space(t[0]) {
      StripLeftClean(t[1..]);
    }
  }

  lemma LastPiece(t: string, quote: Quote)
    requires t != "" && Space(t[|t| - 1]) && Next(t, quote).Keep?
    ensures var a := Next(t, quote); a.len == |t| ==> |t| == 1 && (a.next == Out <==> quote == Out)
  {
    assert |t| >= 2 ==> t[..2] == [t[0], t[1]];
  }

  lemma NextButLast(t: string, quote: Quote)
    requires t != "" && Next(t, quote).Keep? && Next(t, quote).len < |t|
    ensures |t| > 1 && Next(t[..|t| - 1], quote) == Next(t, quote)
  {
    var k := Next(t, quote).len;
    var w := t[k..][..|t| - k - 1];
    assert t[..|t| - 1] == t[..k] + w;
    NextSame(t, w, quote);
  }

  lemma {:induction false} DropLastSpace(t: string, quote: Quote)
    requires t != "" && Space(t[|t| - 1]) && Clean(t, quote)
    ensures Clean(t[..|t| - 1], quote)
    ensures Ending(t[..|t| - 1], quote) == Out <==> Ending(t, quote) == Out
    decreases |t|
  {
    hide Next;
    var a := Next(t, quote);
    var u := t[..|t| - 1];
    if a.len == |t| {
      LastPiece(t, quote);
      assert u == "" && t[a.len..] == "";
    } else {
      NextButLast(t, quote);
      assert u[a.len..] == t[a.len..][..|t| - a.len - 1];
      DropLastSpace(t[a.len..], a.next);
    }
  }

  lemma {:induction false} StripRightClean(t: string)
    requires Clean(t, Out)
    ensures Clean(StripRight(t), Out) && (Closed(t) ==> Closed(StripRight(t)))
  {
    if t != "" && Space(t[|t| - 1]) {
      DropLastSpace(t, Out);
      StripRightClean(t[..|t| - 1]);
    }
  }

  lemma StripClean(t: string)
    requires Clean(t, Out)
    ensures Clean(Strip(t), Out) && (Closed(t) ==> Closed(Strip(t)))
  {
    StripLeftClean(t);
    StripRightClean(StripLeft(t));
  }

  lemma StripTwice(t: string)
    ensures Strip(Strip(t)) == Strip(t)
  {
    var u := StripLeft(t);
    var r := StripRight(u);
    if r != "" {
      assert r[0] == u[0];
    }
  }

  lemma {:induction false} StripSound(parts: seq<string>)
    requires Sound(parts)
    ensures Sound(StripAll(parts))
  {
    if parts != [] {
      StripClean(parts[0]);
      StripSound(parts[1..]);
      assert StripAll(parts)[1..] == StripAll(parts[1..]);
    }
  }

  lemma {:induction false} KeptSound(parts: seq<string>)
    requires Sound(parts)
    ensures Sound(Kept(parts)) && |Kept(parts)| <= |parts|
    ensures forall t <- Kept(parts) :: t in parts && Runs(t)
  {
    if parts != [] {
      KeptSound(parts[1..]);
      var rest := Kept(parts[1..]);
      assert Kept(parts) == if Runs(parts[0]) then [parts[0]] + rest else rest;
    }
  }

  // ---- splitting again ----------------------------------------------------------------------------

  function Join(parts: seq<string>): string {
    if parts == [] then "" else if |parts| == 1 then parts[0] else parts[0] + ";" + Join(parts[1..])
  }

  lemma {:induction false} SegmentsClean(t: string, quote: Quote)
    requires Clean(t, quote)
    ensures Segments(t, quote) == [t]
    decreases |t|
  {
    if t != "" {
      var a := Next(t, quote);
      SegmentsClean(t[a.len..], a.next);
      assert t[..a.len] + t[a.len..] == t;
    }
  }

  lemma NextJoined(t: string, w: string, quote: Quote)
    requires t != "" && w != "" && w[0] == ';' && Next(t, quote).Keep?
    ensures Next(t + w, quote) == Next(t, quote)
  {
    var k := Next(t, quote).len;
    NextSame(t, t[k..] + w, quote);
    assert t + w == t[..k] + (t[k..] + w);
  }

  lemma SegmentsAtCut(u: string)
    ensures Segments(";" + u, Out) == [""] + Segments(u, Out)
  {
    var w := ";" + u;
    assert w[1..] == u;
    assert |w| >= 2 ==> w[..2][0] == ';';
  }

  lemma {:induction false} SegmentsJoined(t: string, u: string, quote: Quote)
    requires Clean(t, quote) && Ending(t, quote) == Out
    ensures Segments(t + (";" + u), quote) == [t] + Segments(u, Out)
    decreases |t|
  {
    hide Segments, Next;
    var w := ";" + u;
    if t == "" {
      assert t + w == w;
      SegmentsAtCut(u);
    } else {
      var a := Next(t, quote);
      var rest := t[a.len..];
      SegmentsJoined(rest, u, a.next);
      NextJoined(t, w, quote);
      KeepUnfolds(t + w, quote);
      assert (t + w)[..a.len] == t[..a.len] && (t + w)[a.len..] == rest + w;
      PrependFirst(t[..a.len], rest, Segments(u, Out));
      assert t[..a.len] + rest == t;
    }
  }

  lemma KeepUnfolds(s: string, quote: Quote)
    requires s != "" && Next(s, quote).Keep?
    ensures var a := Next(s, quote); Segments(s, quote) == Prepend(s[..a.len], Segments(s[a.len..], a.next))
  {
  }

  lemma PrependFirst(p: string, t: string, rest: seq<string>)
    ensures Prepend(p, [t] + rest) == [p + t] + rest
  {
  }

  lemma {:induction false} SegmentsOfJoin(parts: seq<string>)
    requires parts != [] && Sound(parts)
    ensures Segments(Join(parts), Out) == parts
  {
    hide Segments, Clean, Ending;
    if |parts| == 1 {
      SegmentsClean(parts[0], Out);
    } else {
      SegmentsOfJoin(parts[1..]);
      SegmentsJoined(parts[0], Join(parts[1..]), Out);
      assert parts[0] + ";" + Join(parts[1..]) == parts[0] + (";" + Join(parts[1..]));
    }
  }

  lemma {:induction false} KeptAll(parts: seq<string>)
    requires forall t <- parts :: Runs(t)
    ensures Kept(parts) == parts
  {
    if parts != [] {
      KeptAll(parts[1..]);
    }
  }

  /** A list the splitter can return: sound, each statement stripped and worth running. */
  predicate Splittable(parts: seq<string>) {
    Sound(parts) && forall t <- parts :: Strip(t) == t && Runs(t)
  }

  lemma SplitOfJoin(parts: seq<string>)
    requires Splittable(parts)
    ensures Statements(Join(parts)) == parts
  {
    if parts == [] {
      assert Segments("", Out) == [""];
      assert Strip("") == "";
      assert StripAll([""]) == [""];
      assert Kept([""]) == Kept([]);
    } else {
      SegmentsOfJoin(parts);
      forall i | 0 <= i < |parts| ensures StripAll(parts)[i] == parts[i] {
        assert parts[i] in parts;
      }
      assert StripAll(parts) == parts;
      KeptAll(parts);
    }
  }

  lemma StatementsSplittable(sql: string)
    ensures Splittable(Statements(sql))
  {
    var raw := Segments(sql, Out);
    SegmentsSound(sql, Out);
    StripSound(raw);
    KeptSound(StripAll(raw));
    forall t | t in StripAll(raw) ensures Strip(t) == t {
      var i :| 0 <= i < |raw| && StripAll(raw)[i] == t;
      StripTwice(raw[i]);
    }
  }

  lemma SplitJoinSplit(sql: string)
    ensures Statements(Join(Statements(sql))) == Statements(sql)
  {
    StatementsSplittable(sql);
    SplitOfJoin(Statements(sql));
  }

  // ---- quoted text survives -----------------------------------------------------------------------

  /** The terminated quotes of `s` in order, delimiters included; `open` is the part of a quote already read. */
  function Literals(s: string, quote: Quote, open: string): seq<string>
    decreases |s|
  {
    if s == "" then [] else
    match Next(s, quote)
    case Cut => Literals(s[1..], Out, "")
    case Skip(k) => Literals(s[k..], Out, "")
    case Keep(k, q) =>
      if quote == Out && q == Out then Literals(s[k..], Out, "")
      else if q == Out then [open + s[..k]] + Literals(s[k..], Out, "")
      else Literals(s[k..], q, open + s[..k])
  }

  function LiteralsOfAll(parts: seq<string>): seq<string> {
    if parts == [] then [] else Literals(parts[0], Out, "") + LiteralsOfAll(parts[1..])
  }

  lemma {:induction false} LiteralsOfSegments(s: string, quote: Quote, open: string)
    requires quote == Out ==> open == ""
    ensures var parts := Segments(s, quote);
            Literals(s, quote, open) == Literals(parts[0], quote, open) + LiteralsOfAll(parts[1..])
    decreases |s|
  {
    if s != "" {
      match Next(s, quote)
      case Cut =>
        LiteralsOfSegments(s[1..], Out, "");
        var parts := Segments(s[1..], Out);
        assert Segments(s, quote)[1..] == parts;
      case Skip(k) => LiteralsOfSegments(s[k..], Out, "");
      case Keep(k, q) => KeepLiterals(s, quote, open);
    }
  }

  lemma KeepLiterals(s: string, quote: Quote, open: string)
    requires s != "" && Next(s, quote).Keep? && (quote == Out ==> open == "")
    ensures var parts := Segments(s, quote);
            Literals(s, quote, open) == Literals(parts[0], quote, open) + LiteralsOfAll(parts[1..])
    decreases |s|, 0
  {
    hide Segments, Next, LiteralsOfAll;
    var a := Next(s, quote);
    var k, q := a.len, a.next;
    KeepUnfolds(s, quote);
    var tail := Segments(s[k..], q);
    SegmentHead(s[k..], q);
    NextSame(s, tail[0], quote);
    var u := s[..k] + tail[0];
    assert u[..k] == s[..k] && u[k..] == tail[0];
    var open' := if q == Out then "" else open + s[..k];
    LiteralsOfSegments(s[k..], q, open');
  }

  lemma {:induction false} StripLeftLiterals(t: string)
    requires Clean(t, Out)
    ensures Literals(StripLeft(t), Out, "") == Literals(t, Out, "")
  {
    if t != "" && Space(t[0]) {
      StripLeftLiterals(t[1..]);
    }
  }

  lemma {:induction false} DropLastLiterals(t: string, quote: Quote, open: string)
    requires t != "" && Space(t[|t| - 1]) && Clean(t, quote)
    ensures Literals(t[..|t| - 1], quote, open) == Literals(t, quote, open)
    decreases |t|
  {
    hide Next;
    var k, q := Next(t, quote).len, Next(t, quote).next;
    var u := t[..|t| - 1];
    if k == |t| {
      LastPiece(t, quote);
      assert u == "" && t[k..] == "";
    } else {
      NextButLast(t, quote);
      assert u[k..] == t[k..][..|t| - k - 1] && u[..k] == t[..k];
      DropLastLiterals(t[k..], q, if q == Out then "" else open + t[..k]);
    }
  }

  lemma {:induction false} StripRightLiterals(t: string)
    requires Clean(t, Out)
    ensures Literals(StripRight(t), Out, "") == Literals(t, Out, "")
  {
    if t != "" && Space(t[|t| - 1]) {
      DropLastSpace(t, Out);
      DropLastLiterals(t, Out, "");
      StripRightLiterals(t[..|t| - 1]);
    }
  }

  /** A dropped statement holds no quote: no quote character upper-cases into BEGIN or COMMIT. */
  lemma {:induction false} PlainLiterals(t: string)
    requires forall i :: 0 <= i < |t| ==> t[i] !in "'\"$-;"
    ensures Literals(t, Out, "") == []
  {
    if t != "" {
      assert |t| >= 2 ==> t[..2][0] == t[0];
      PlainLiterals(t[1..]);
    }
  }

  lemma DroppedLiterals(t: string)
    requires !Runs(t)
    ensures Literals(t, Out, "") == []
  {
    forall i | 0 <= i < |t| ensures t[i] !in "'\"$-;" {
      assert Upper(t)[i] == UpperChar(t[i]);
    }
    PlainLiterals(t);
  }

  lemma {:induction false} LiteralsKept(parts: seq<string>)
    requires Sound(parts)
    ensures LiteralsOfAll(Kept(StripAll(parts))) == LiteralsOfAll(parts)
  {
    if parts != [] {
      LiteralsKept(parts[1..]);
      var t := parts[0];
      StripLeftLiterals(t);
      StripLeftClean(t);
      StripRightLiterals(StripLeft(t));
      var rest := Kept(StripAll(parts[1..]));
      assert StripAll(parts)[1..] == StripAll(parts[1..]);
      if Runs(Strip(t)) {
        assert Kept(StripAll(parts)) == [Strip(t)] + rest;
      } else {
        DroppedLiterals(Strip(t));
        assert Kept(StripAll(parts)) == rest;
      }
    }
  }

  lemma QuotedTextUnchanged(sql: string)
    ensures LiteralsOfAll(Statements(sql)) == Literals(sql, Out, "")
  {
    SegmentsSound(sql, Out);
    LiteralsKept(Segments(sql, Out));
    LiteralsOfSegments(sql, Out, "");
  }
}
