/** What the splitter returns for every script, by laws about the script alone: where a statement ends, that comments
    are blank, and that every other piece is returned unless it is empty or opens or ends a transaction. */
module SqlLaws {
  import opened SqlSplit

  // ---- reading a script character by character ----------------------------------------------------------

  /** Where the reader is; `Dash` and `OneDollar` are outside too, just behind the first half of a mark, and
      `HalfEnd` is inside a `$$` body, just behind the first half of its end. */
  datatype Mode = Plain | Dash | OneDollar | InComment | InSingle | InDouble | InDollar | HalfEnd

  function Move(m: Mode, c: char): Mode {
    match m
    case InComment => if c == '\n' then Plain else InComment
    case InSingle => if c == '\'' then Plain else InSingle
    case InDouble => if c == '"' then Plain else InDouble
    case InDollar => if c == '$' then HalfEnd else InDollar
    case HalfEnd => if c == '$' then Plain else InDollar
    case _ =>
      if m.Dash? && c == '-' then InComment
      else if m.OneDollar? && c == '$' then InDollar
      else match c
           case '-' => Dash
           case '$' => OneDollar
           case '\'' => InSingle
           case '"' => InDouble
           case _ => Plain
  }

  function Read(s: string, m: Mode): Mode {
    if s == "" then m else Read(s[1..], Move(m, s[0]))
  }

  predicate Outside(m: Mode) {
    m.Plain? || m.Dash? || m.OneDollar?
  }

  lemma {:induction false} ReadAppend(a: string, b: string, m: Mode)
    ensures Read(a + b, m) == Read(b, Read(a, m))
  {
    if a == "" {
      assert a + b == b;
    } else {
      ReadAppend(a[1..], b, Move(m, a[0]));
      assert (a + b)[1..] == a[1..] + b;
    }
  }

  /** No separator outside quotes and comments, and no comment: one piece. */
  predicate OnePiece(t: string, m: Mode) {
    t == "" || (!(Outside(m) && t[0] == ';') && !Move(m, t[0]).InComment? && OnePiece(t[1..], Move(m, t[0])))
  }

  // ---- the reader and the scanner --------------------------------------------------------------------------

  /** The reader's mode is what the scanner has in mind before `s`. */
  predicate Agrees(m: Mode, s: string, quote: Quote) {
    match quote
    case Single => m.InSingle?
    case Double => m.InDouble?
    case Dollar => m.InDollar? || (m.HalfEnd? && (s == "" || s[0] != '$'))
    case Out =>
      || m.Plain? || (m.Dash? && (s == "" || s[0] != '-')) || (m.OneDollar? && (s == "" || s[0] != '$'))
      || (m.InComment? && (s == "" || s[0] == '\n'))
  }

  lemma ReadOne(s: string, m: Mode)
    requires s != ""
    ensures Read(s[..1], m) == Move(m, s[0])
  {
    assert s[..1][1..] == "" && s[..1][0] == s[0];
  }

  lemma ReadTwo(s: string, m: Mode)
    requires |s| >= 2
    ensures Read(s[..2], m) == Move(Move(m, s[0]), s[1])
  {
    var t := s[..2];
    assert t == [s[0], s[1]] && t[1..] == [s[1]] && t[1..][1..] == "";
    assert Read(t, m) == Read(t[1..], Move(m, t[0])) == Read(t[1..][1..], Move(Move(m, t[0]), t[1]));
  }

  lemma {:induction false} ReadComment(s: string)
    requires '\n' !in s
    ensures Read(s, InComment) == InComment
  {
    if s != "" {
      ReadComment(s[1..]);
    }
  }

  lemma Marks(s: string)
    requires s != ""
    ensures At(s, "--") <==> |s| >= 2 && s[0] == '-' == s[1]
    ensures At(s, "$$") <==> |s| >= 2 && s[0] == '$' == s[1]
  {
    if |s| >= 2 {
      assert s[..2] == [s[0], s[1]];
    }
  }

  /** One token of the scanner, read by the reader. */
  lemma TokenAgrees(s: string, quote: Quote, m: Mode)
    requires s != "" && Agrees(m, s, quote)
    ensures var a := Next(s, quote);
      if a.Keep? then Agrees(Read(s[..a.len], m), s[a.len..], a.next)
      else if a.Cut? then quote == Out && s[0] == ';' && Move(m, s[0]) == Plain && Outside(m)
      else quote == Out && At(s, "--") && Read(s[..a.len], m) == InComment && Agrees(InComment, s[a.len..], Out)
  {
    Marks(s);
    ReadOne(s, m);
    if |s| >= 2 {
      ReadTwo(s, m);
    }
    if quote == Out && At(s, "--") {
      CommentToken(s, m);
    }
  }

  lemma CommentToken(s: string, m: Mode)
    requires |s| >= 2 && s[0] == '-' == s[1] && Agrees(m, s, Out)
    ensures ToNewline(s) >= 2 && Read(s[..ToNewline(s)], m) == InComment
  {
    var k := ToNewline(s);
    assert k >= 2;
    assert s[..k] == s[..2] + s[2..k];
    ReadAppend(s[..2], s[2..k], m);
    ReadTwo(s, m);
    ReadComment(s[2..k]);
  }

  // ---- a script in two parts ----------------------------------------------------------------------------------

  /** The last piece of `p` goes on as the first of `q`. */
  function Glue(p: seq<string>, q: seq<string>): (r: seq<string>)
    requires p != [] && q != []
  {
    p[..|p| - 1] + [p[|p| - 1] + q[0]] + q[1..]
  }

  lemma GlueFirst(p: string, q: seq<string>, r: seq<string>)
    requires q != [] && r != []
    ensures Glue(Prepend(p, q), r) == Prepend(p, Glue(q, r))
  {
    if |q| == 1 {
      assert p + q[0] + r[0] == p + (q[0] + r[0]);
    }
  }

  lemma GlueCut(q: seq<string>, r: seq<string>)
    requires q != [] && r != []
    ensures Glue([""] + q, r) == [""] + Glue(q, r)
  {
  }

  /** What follows a text does not change its tokens, if no mark lies across. */
  lemma TokenStays(a: string, r: string, quote: Quote, m: Mode)
    requires a != "" && Agrees(m, a + r, quote) && Agrees(Read(a, m), r, Out)
    ensures Agrees(m, a, quote) && Next(a + r, quote) == Next(a, quote)
  {
    var s := a + r;
    assert s[0] == a[0];
    Marks(s);
    Marks(a);
    if |a| == 1 {
      ReadOne(a, m);
      assert a[..1] == a;
      assert r != "" ==> s[1] == r[0];
    } else {
      assert s[1] == a[1];
      if quote == Out && At(a, "--") {
        CommentStays(a, r, m);
      }
    }
  }

  lemma {:induction false} NewlineStays(a: string, r: string)
    requires '\n' in a || r == "" || r[0] == '\n'
    ensures ToNewline(a + r) == ToNewline(a)
  {
    if a != "" && a[0] != '\n' {
      NewlineStays(a[1..], r);
      assert (a + r)[1..] == a[1..] + r;
    } else if a == "" {
      assert a + r == r;
    }
  }

  lemma CommentStays(a: string, r: string, m: Mode)
    requires |a| >= 2 && a[0] == '-' == a[1] && Agrees(m, a, Out) && Agrees(Read(a, m), r, Out)
    ensures ToNewline(a + r) == ToNewline(a)
  {
    if '\n' !in a {
      CommentToken(a, m);
      assert ToNewline(a) == |a| && a[..|a|] == a;
    }
    NewlineStays(a, r);
  }

  lemma GlueNothing(p: seq<string>)
    requires p != []
    ensures Glue([""], p) == p && Glue(p, [""]) == p
  {
    assert "" + p[0] == p[0] && p[|p| - 1] + "" == p[|p| - 1];
  }

  lemma GlueApart(p: seq<string>, q: seq<string>)
    requires p != []
    ensures Glue(p, [""] + q) == p + q
  {
    assert p[|p| - 1] + "" == p[|p| - 1];
  }

  lemma OneToken(s: string, quote: Quote)
    requires s != ""
    ensures var a := Next(s, quote);
      Segments(s, quote) == if a.Keep? then Prepend(s[..a.len], Segments(s[a.len..], a.next))
                            else if a.Cut? then [""] + Segments(s[1..], Out)
                            else Segments(s[a.len..], Out)
  {
  }

  lemma {:induction false} SegmentsAppend(a: string, r: string, quote: Quote, m: Mode)
    requires Agrees(m, a + r, quote) && Agrees(Read(a, m), r, Out)
    ensures Segments(a + r, quote) == Glue(Segments(a, quote), Segments(r, Out))
    decreases |a|
  {
    if a == "" {
      assert a + r == r && quote == Out && Segments("", quote) == [""];
      GlueNothing(Segments(r, Out));
    } else {
      hide Segments, Next, Read, Move, Agrees, Glue;
      TokenStays(a, r, quote, m);
      TokenAgrees(a, quote, m);
      OneToken(a, quote);
      OneToken(a + r, quote);
      var n := Next(a, quote);
      var k := if n.Cut? then 1 else n.len;
      var next := if n.Keep? then n.next else Out;
      TokenSplits(a, r, k, m);
      AgreesNext(a, quote, m, k, next);
      Ahead(a, r, k, Read(a[..k], m), next);
      SegmentsAppend(a[k..], r, next, Read(a[..k], m));
      var p, q := Segments(a[k..], next), Segments(r, Out);
      if n.Keep? {
        GlueFirst(a[..k], p, q);
      } else if n.Cut? {
        GlueCut(p, q);
      }
    }
  }

  lemma TokenSplits(a: string, r: string, k: nat, m: Mode)
    requires k <= |a|
    ensures (a + r)[..k] == a[..k] && (a + r)[k..] == a[k..] + r && Read(a, m) == Read(a[k..], Read(a[..k], m))
  {
    assert a[..k] + a[k..] == a;
    ReadAppend(a[..k], a[k..], m);
  }

  lemma AgreesNext(a: string, quote: Quote, m: Mode, k: nat, next: Quote)
    requires a != "" && Agrees(m, a, quote)
    requires var n := Next(a, quote); k == (if n.Cut? then 1 else n.len) && next == if n.Keep? then n.next else Out
    ensures Agrees(Read(a[..k], m), a[k..], next)
  {
    hide Next;
    TokenAgrees(a, quote, m);
    ReadOne(a, m);
  }

  lemma Ahead(a: string, r: string, k: nat, m: Mode, next: Quote)
    requires k <= |a| && Agrees(m, a[k..], next) && Agrees(Read(a[k..], m), r, Out)
    ensures Agrees(m, a[k..] + r, next)
  {
  }

  // ---- the laws --------------------------------------------------------------------------------------------------

  lemma {:induction false} KeptConcat(p: seq<string>, q: seq<string>)
    ensures Kept(p + q) == Kept(p) + Kept(q)
  {
    if p == [] {
      assert p + q == q;
    } else {
      hide Runs;
      KeptConcat(p[1..], q);
      assert (p + q)[1..] == p[1..] + q && (p + q)[0] == p[0];
    }
  }

  lemma StatementsConcat(p: seq<string>, q: seq<string>)
    ensures Kept(StripAll(p + q)) == Kept(StripAll(p)) + Kept(StripAll(q))
  {
    assert StripAll(p + q) == StripAll(p) + StripAll(q);
    KeptConcat(StripAll(p), StripAll(q));
  }

  /** A separator outside quotes and comments ends a statement: what comes before and after it is split alone. */
  lemma CutLaw(a: string, b: string)
    requires Outside(Read(a, Plain))
    ensures Statements(a + ";" + b) == Statements(a) + Statements(b)
  {
    var r := ";" + b;
    assert a + ";" + b == a + r;
    AgreesAt(a + r);
    assert Agrees(Read(a, Plain), r, Out);
    hide Segments, Glue, Kept, StripAll, Read, Agrees;
    SegmentsAppend(a, r, Out, Plain);
    SegmentsAtCut(b);
    var p, q := Segments(a, Out), Segments(b, Out);
    GlueApart(p, q);
    StatementsConcat(p, q);
  }

  /** A comment outside quotes is as good as nothing, up to the line feed that ends it. */
  lemma CommentLaw(a: string, x: string, b: string)
    requires Outside(Read(a, Plain)) && !Read(a, Plain).Dash? && '\n' !in x
    ensures Statements(a + "--" + x + "\n" + b) == Statements(a + "\n" + b)
  {
    var c, u := "--" + x, "\n" + b;
    CommentGone(a, c, u);
    assert a + "--" + x + "\n" + b == a + (c + u) && a + "\n" + b == a + u;
  }

  lemma CommentGone(a: string, c: string, u: string)
    requires Outside(Read(a, Plain)) && !Read(a, Plain).Dash?
    requires |c| >= 2 && c[0] == '-' == c[1] && '\n' !in c && u != "" && u[0] == '\n'
    ensures Statements(a + (c + u)) == Statements(a + u)
  {
    hide Segments;
    CommentSkipped(c, u);
    assert (c + u)[0] == '-';
    AgreesAt(a + (c + u));
    AgreesAt(a + u);
    SegmentsAppend(a, c + u, Out, Plain);
    SegmentsAppend(a, u, Out, Plain);
  }

  lemma AgreesAt(s: string)
    ensures Agrees(Plain, s, Out)
  {
  }

  /** And up to the end of the script if it is the last line. */
  lemma LastCommentLaw(a: string, x: string)
    requires Outside(Read(a, Plain)) && !Read(a, Plain).Dash? && '\n' !in x
    ensures Statements(a + "--" + x) == Statements(a)
  {
    var r := "--" + x;
    assert a + "--" + x == a + r && r + "" == r;
    AgreesAt(a + r);
    assert Agrees(Read(a, Plain), r, Out) && Segments("", Out) == [""];
    hide Segments, Glue, Kept, StripAll, Read, Agrees;
    SegmentsAppend(a, r, Out, Plain);
    CommentSkipped(r, "");
    GlueNothing(Segments(a, Out));
  }

  lemma CommentSkipped(r: string, u: string)
    requires |r| >= 2 && r[0] == '-' == r[1] && '\n' !in r && (u == "" || u[0] == '\n')
    ensures Segments(r + u, Out) == Segments(u, Out)
  {
    NewlineAfter(r, u);
    Marks(r + u);
    assert (r + u)[|r|..] == u;
  }

  lemma {:induction false} NewlineAfter(r: string, u: string)
    requires '\n' !in r && (u == "" || u[0] == '\n')
    ensures ToNewline(r + u) == |r|
  {
    if r == "" {
      assert r + u == u;
    } else {
      NewlineAfter(r[1..], u);
      assert (r + u)[1..] == r[1..] + u;
    }
  }

  /** The word in capitals, in any mix of cases; a dotless i has a capital I too. */
  predicate Spells(t: string, word: string) {
    |t| == |word| && forall i :: 0 <= i < |t| ==>
      t[i] == word[i] || t[i] as int == word[i] as int + 32 || (word[i] == 'I' && t[i] as int == 0x131)
  }

  lemma SpellsUpper(t: string, word: string)
    requires forall i :: 0 <= i < |word| ==> 'A' <= word[i] <= 'Z'
    ensures Upper(t) == word <==> Spells(t, word)
  {
    if |t| == |word| {
      assert forall i :: 0 <= i < |t| ==> (Upper(t)[i] == word[i] <==>
        t[i] == word[i] || t[i] as int == word[i] as int + 32 || (word[i] == 'I' && t[i] as int == 0x131));
    }
  }

  /** Between `i` and `j` lies what is left of `t` without the space around it. */
  ghost predicate CoreAt(t: string, core: string, i: nat, j: nat) {
    && i <= j <= |t| && core == t[i..j] && (forall k :: 0 <= k < i || j <= k < |t| ==> Space(t[k]))
    && (core != "" ==> !Space(t[i]) && !Space(t[j - 1]))
  }

  ghost predicate Core(t: string, core: string) {
    exists i: nat, j: nat :: CoreAt(t, core, i, j)
  }

  /** Among the characters of plain text only the usual ones are space. */
  lemma PlainSpace(c: char)
    requires c as int < 0x7f
    ensures Space(c) <==> c in " \t\n\r" || c as int in {0x0b, 0x0c, 0x1c, 0x1d, 0x1e, 0x1f}
  {
  }

  lemma {:induction false} LeftIsSuffix(t: string) returns (i: nat)
    ensures i <= |t| && StripLeft(t) == t[i..] && forall k :: 0 <= k < i ==> Space(t[k])
  {
    if t != "" && Space(t[0]) {
      var h := LeftIsSuffix(t[1..]);
      i := h + 1;
      assert forall k :: 0 < k < i ==> t[k] == t[1..][k - 1];
    } else {
      i := 0;
    }
  }

  lemma {:induction false} RightIsPrefix(t: string) returns (j: nat)
    ensures j <= |t| && StripRight(t) == t[..j] && forall k :: j <= k < |t| ==> Space(t[k])
  {
    if t != "" && Space(t[|t| - 1]) {
      j := RightIsPrefix(t[..|t| - 1]);
    } else {
      j := |t|;
    }
  }

  lemma StripIsCore(t: string)
    ensures Core(t, Strip(t))
  {
    var i := LeftIsSuffix(t);
    var u := t[i..];
    var j := RightIsPrefix(u);
    assert Strip(t) == t[i..i + j];
    assert forall k :: i + j <= k < |t| ==> t[k] == u[k - i];
    StripEnds(t);
    assert CoreAt(t, Strip(t), i, i + j);
  }

  lemma StripEnds(t: string)
    ensures var c := Strip(t); c != "" ==> !Space(c[0]) && !Space(c[|c| - 1])
  {
    var u, c := StripLeft(t), Strip(t);
    assert c != "" ==> c[0] == u[0];
  }

  lemma {:induction false} OneSegment(t: string, quote: Quote, m: Mode)
    requires Agrees(m, t, quote) && OnePiece(t, m)
    ensures Segments(t, quote) == [t]
    decreases |t|
  {
    if t != "" {
      TokenAgrees(t, quote, m);
      NoSkip(t, quote, m);
      var a := Next(t, quote);
      OnePieceTail(t, m, a.len);
      OneSegment(t[a.len..], a.next, Read(t[..a.len], m));
      assert t[..a.len] + t[a.len..] == t;
    }
  }

  lemma NoSkip(t: string, quote: Quote, m: Mode)
    requires t != "" && Agrees(m, t, quote) && OnePiece(t, m)
    ensures Next(t, quote).Keep?
  {
    TokenAgrees(t, quote, m);
    Marks(t);
    if |t| >= 2 {
      assert OnePiece(t[1..], Move(m, t[0])) && t[1..][0] == t[1];
    }
  }

  lemma OnePieceTail(t: string, m: Mode, k: nat)
    requires OnePiece(t, m) && k <= |t| && k <= 2
    ensures OnePiece(t[k..], Read(t[..k], m))
  {
    if k == 1 {
      ReadOne(t, m);
    } else if k == 2 {
      ReadTwo(t, m);
      assert t[1..][1..] == t[2..] && t[1..][0] == t[1];
    } else {
      assert t[0..] == t && t[..0] == "";
    }
  }

  /** A piece without separator or comment is returned without the space around it, whatever it says, unless nothing
      is left or it is BEGIN or COMMIT in any mix of cases. */
  lemma PieceLaw(t: string, core: string)
    requires OnePiece(t, Plain) && Core(t, core)
    ensures Statements(t) == if core == "" || Spells(core, "BEGIN") || Spells(core, "COMMIT") then [] else [core]
  {
    OneSegment(t, Out, Plain);
    StripIsCore(t);
    hide Strip, Spells, Core, Segments, Kept, Runs, OnePiece, StripAll;
    OneCore(t, core, Strip(t));
    RunsUnless(core);
    OneKept(t);
  }

  lemma RunsUnless(t: string)
    ensures Runs(t) <==> !(t == "" || Spells(t, "BEGIN") || Spells(t, "COMMIT"))
  {
    SpellsUpper(t, "BEGIN");
    SpellsUpper(t, "COMMIT");
    hide Upper, Spells;
  }

  lemma OneKept(t: string)
    ensures Kept(StripAll([t])) == if Runs(Strip(t)) then [Strip(t)] else []
  {
    hide Strip, Runs;
    var one := StripAll([t]);
    assert one == [Strip(t)] && one[1..] == [];
  }

  lemma OneCore(t: string, c: string, d: string)
    requires Core(t, c) && Core(t, d)
    ensures c == d
  {
    var i: nat, j: nat :| CoreAt(t, c, i, j);
    var i': nat, j': nat :| CoreAt(t, d, i', j');
    hide Core, Space;
    if c != "" {
      CoreWithin(t, c, i, j, d, i', j');
    }
    if d != "" {
      CoreWithin(t, d, i', j', c, i, j);
    }
  }

  lemma CoreWithin(t: string, c: string, i: nat, j: nat, d: string, i': nat, j': nat)
    requires CoreAt(t, c, i, j) && CoreAt(t, d, i', j') && c != ""
    ensures i' <= i && j <= j'
  {
    hide Space;
    assert !Space(t[i]) && !Space(t[j - 1]);
  }
}
