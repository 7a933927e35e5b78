/** Conversation histories, and the compaction that keeps a history inside the model's window. */
module Context {

  datatype Call = Call(id: string, name: string, arguments: string)

  datatype Message =
    | User(content: string)
    | Assistant(content: string, calls: seq<Call>)
    | Tool(content: string, callId: string)

  /** Message by message, `results` are the tool results of `calls`, in call order. */
  predicate Results(results: seq<Message>, calls: seq<Call>) {
    && |results| == |calls|
    && forall i :: 0 <= i < |calls| ==> results[i].Tool? && results[i].callId == calls[i].id
  }

  /** Each assistant message is followed by exactly the results of its calls; no result stands alone. */
  predicate Blocks(t: seq<Message>) {
    t == [] ||
    match t[0]
    case User(_) => Blocks(t[1..])
    case Assistant(_, calls) =>
      |calls| < |t| && Results(t[1..|calls| + 1], calls) && Blocks(t[|calls| + 1..])
    case Tool(_, _) => false
  }

  /** A history a provider accepts: the task first, then complete blocks. */
  predicate WellFormed(h: seq<Message>) {
    h != [] && h[0].User? && Blocks(h[1..])
  }

  function BlockLength(m: Message): nat {
    if m.Assistant? then |m.calls| + 1 else 1
  }

  lemma FirstBlock(t: seq<Message>)
    requires t != []
    ensures var n := BlockLength(t[0]);
      Blocks(t) <==> !t[0].Tool? && n <= |t| && (t[0].Assistant? ==> Results(t[1..n], t[0].calls)) && Blocks(t[n..])
  {
  }

  lemma AppendSlices(a: seq<Message>, b: seq<Message>, n: nat)
    requires 1 <= n <= |a|
    ensures (a + b)[0] == a[0] && (a + b)[1..n] == a[1..n] && (a + b)[n..] == a[n..] + b
  {
  }

  lemma {:induction false} BlocksAppend(a: seq<Message>, b: seq<Message>)
    requires Blocks(a) && Blocks(b)
    ensures Blocks(a + b)
  {
    if a == [] {
      assert a + b == b;
    } else {
      var n := BlockLength(a[0]);
      FirstBlock(a);
      AppendSlices(a, b, n);
      FirstBlock(a + b);
      hide Blocks, Results;
      BlocksAppend(a[n..], b);
    }
  }

  /** A suffix that starts at a turn, not inside one, is again made of complete blocks. */
  lemma {:induction false} BlocksSuffix(t: seq<Message>, k: nat)
    requires Blocks(t) && k <= |t| && (k < |t| ==> !t[k].Tool?)
    ensures Blocks(t[k..])
  {
    if t != [] && k > 0 {
      var n := BlockLength(t[0]);
      assert forall j :: 1 <= j < n ==> t[j] == t[1..n][j - 1] && t[j].Tool?;
      BlocksSuffix(t[n..], k - n);
      assert t[n..][k - n..] == t[k..];
    }
  }

  // ----- Turns -------------------------------------------------------------------------

  function Flatten(turns: seq<seq<Message>>): seq<Message> {
    if turns == [] then [] else turns[0] + Flatten(turns[1..])
  }

  lemma {:induction false} FlattenAppend(turns: seq<seq<Message>>, t: seq<Message>)
    ensures Flatten(turns + [t]) == Flatten(turns) + t
  {
    if turns != [] {
      assert (turns + [t])[1..] == turns[1..] + [t];
      FlattenAppend(turns[1..], t);
    } else {
      assert turns + [t] == [t];
    }
  }

  /** A turn is one message and the tool results after it. */
  predicate IsTurn(t: seq<Message>) {
    t != [] && forall i :: 1 <= i < |t| ==> t[i].Tool?
  }

  /** Only the very first turn can begin with a stray tool result. */
  predicate AreTurns(turns: seq<seq<Message>>) {
    forall i :: 0 <= i < |turns| ==> IsTurn(turns[i]) && (i > 0 ==> !turns[i][0].Tool?)
  }

  /** `_turns`: group a history so that tool calls stay with their results. */
  method Turns(messages: seq<Message>) returns (turns: seq<seq<Message>>)
    ensures Flatten(turns) == messages && AreTurns(turns)
  {
    turns := [];
    for i := 0 to |messages|
      invariant Flatten(turns) == messages[..i] && AreTurns(turns)
    {
      var m := messages[i];
      assert messages[..i + 1] == messages[..i] + [m];
      if m.Tool? && turns != [] {
        var last := |turns| - 1;
        FlattenAppend(turns[..last], turns[last]);
        FlattenAppend(turns[..last], turns[last] + [m]);
        assert turns == turns[..last] + [turns[last]];
        turns := turns[..last] + [turns[last] + [m]];
      } else {
        FlattenAppend(turns, [m]);
        turns := turns + [[m]];
      }
    }
    assert messages[..|messages|] == messages;
  }

  // ----- Compaction ----------------------------------------------------------------------

  const OLD_TOOL_OUTPUT_CHARS: nat := 300
  const TRUNCATED: string := " \U{2026}[truncated]"

  function Shrink(m: Message): Message {
    if m.Tool? && |m.content| > OLD_TOOL_OUTPUT_CHARS then
      m.(content := m.content[..OLD_TOOL_OUTPUT_CHARS] + TRUNCATED)
    else m
  }

  /** The messages outside the recent window with their tool outputs shrunk. */
  function Shrunk(rest: seq<Message>, keepRecent: nat): seq<Message> {
    seq(|rest|, i requires 0 <= i < |rest| => if i + keepRecent < |rest| then Shrink(rest[i]) else rest[i])
  }

  /** Shrinking touches tool results only, outside the `keepRecent` last messages, and of those longer than 300 characters
      keeps the first 300. */
  lemma ShrunkAt(rest: seq<Message>, keepRecent: nat, i: nat)
    requires i < |rest|
    ensures var m, s := rest[i], Shrunk(rest, keepRecent)[i];
      if m.Tool? && |m.content| > 300 && |rest| - i > keepRecent
      then s.Tool? && s.callId == m.callId && s.content == m.content[..300] + TRUNCATED
      else s == m
  {
  }

  lemma {:induction false} ShrinkingKeepsBlocks(t: seq<Message>, u: seq<Message>)
    requires |t| == |u| && forall i :: 0 <= i < |t| ==> u[i] == t[i] || u[i] == Shrink(t[i])
    requires Blocks(t)
    ensures Blocks(u)
  {
    if t != [] {
      var n := BlockLength(t[0]);
      ShrinkingKeepsBlocks(t[n..], u[n..]);
      if t[0].Assistant? {
        assert forall i :: 0 <= i < n - 1 ==> t[1..n][i] == t[i + 1] && u[1..n][i] == u[i + 1];
      }
    }
  }

  /** Everything that compaction may return: the task and the shrunk rest; or one note in place of whole
      turns dropped from the front; or, when nothing was dropped, the rest without stray leading results. */
  ghost predicate Compacted(messages: seq<Message>, keepRecent: nat, out: seq<Message>)
    requires messages != []
  {
    var rest := Shrunk(messages[1..], keepRecent);
    || out == messages[..1] + rest
    || (exists k: nat, note: string :: NoteReplaces(messages[0], rest, k, note, out))
    || (exists k: nat :: StrayDropped(messages[0], rest, k, out))
  }

  ghost predicate NoteReplaces(task: Message, rest: seq<Message>, k: nat, note: string, out: seq<Message>) {
    0 < k < |rest| && !rest[k].Tool? && out == [task, User(note)] + rest[k..]
  }

  ghost predicate StrayDropped(task: Message, rest: seq<Message>, k: nat, out: seq<Message>) {
    k <= |rest| && (forall i :: 0 <= i < k ==> rest[i].Tool?) && out == [task] + rest[k..]
  }

  lemma NoteIsWellFormed(task: Message, rest: seq<Message>, k: nat, note: string, out: seq<Message>)
    requires task.User? && Blocks(rest) && NoteReplaces(task, rest, k, note, out)
    ensures WellFormed(out) && |out| > 1 && rest != [] && out[0] == task && out[|out| - 1] == rest[|rest| - 1]
  {
    BlocksSuffix(rest, k);
    hide Blocks;
    NoteSlices(task, User(note), rest[k..]);
    FirstBlock(out[1..]);
  }

  lemma NoteSlices(task: Message, note: Message, kept: seq<Message>)
    ensures ([task, note] + kept)[1..] == [note] + kept && ([note] + kept)[1..] == kept
  {
  }

  lemma StrayIsWellFormed(task: Message, rest: seq<Message>, k: nat, out: seq<Message>)
    requires task.User? && Blocks(rest) && StrayDropped(task, rest, k, out)
    ensures WellFormed(out) && out == [task] + rest
  {
    assert rest[k..] == rest;
    RestIsWellFormed(task, rest);
  }

  lemma RestIsWellFormed(task: Message, rest: seq<Message>)
    requires task.User? && Blocks(rest)
    ensures WellFormed([task] + rest)
  {
    assert ([task] + rest)[1..] == rest;
  }

  /** Compaction never breaks a history, never touches the task, and always keeps the last message,
      shortened at most. */
  lemma CompactedIsWellFormed(messages: seq<Message>, keepRecent: nat, out: seq<Message>)
    requires WellFormed(messages) && Compacted(messages, keepRecent, out)
    ensures WellFormed(out) && out[0] == messages[0]
    ensures var rest := Shrunk(messages[1..], keepRecent);
      rest != [] ==> |out| > 1 && out[|out| - 1] == rest[|rest| - 1]
  {
    var rest := Shrunk(messages[1..], keepRecent);
    ShrinkingKeepsBlocks(messages[1..], rest);
    assert messages[..1] == [messages[0]];
    hide Blocks, Shrunk, NoteReplaces, StrayDropped;
    AnyCompactedIsWellFormed(messages[0], rest, out);
  }

  lemma AnyCompactedIsWellFormed(task: Message, rest: seq<Message>, out: seq<Message>)
    requires task.User? && Blocks(rest)
    requires || out == [task] + rest
             || (exists k: nat, note: string :: NoteReplaces(task, rest, k, note, out))
             || (exists k: nat :: StrayDropped(task, rest, k, out))
    ensures WellFormed(out) && out[0] == task && (rest != [] ==> |out| > 1 && out[|out| - 1] == rest[|rest| - 1])
  {
    hide Blocks, WellFormed, NoteReplaces, StrayDropped;
    if out == [task] + rest {
      RestIsWellFormed(task, rest);
    } else if k: nat, note: string :| NoteReplaces(task, rest, k, note, out) {
      NoteIsWellFormed(task, rest, k, note, out);
    } else {
      var k: nat :| StrayDropped(task, rest, k, out);
      StrayIsWellFormed(task, rest, k, out);
    }
  }

  /** First step: shorten tool outputs outside the recent window. */
  method ShrinkOld(messages: seq<Message>, keepRecent: nat) returns (rest: seq<Message>)
    ensures rest == Shrunk(messages, keepRecent)
  {
    rest := messages;
    var cut := if |rest| > keepRecent then |rest| - keepRecent else 0;
    for i := 0 to cut
      invariant |rest| == |messages|
      invariant forall j :: 0 <= j < |rest| ==> rest[j] == if j < i then Shrink(messages[j]) else messages[j]
    {
      rest := rest[i := Shrink(rest[i])];
    }
  }

  const PLACEHOLDER: string := "[Earlier steps, condensed] " + seq(80, _ => 'x')

  /** Dropping may stop only at the first message of a turn. */
  predicate StartsTurn(rest: seq<Message>, k: nat) {
    k == 0 || (k < |rest| && !rest[k].Tool?)
  }

  /** Too long with a note of the usual length in front of `tail`. */
  predicate TooLong(task: Message, tail: seq<Message>, count: seq<Message> -> int, maxTokens: int) {
    count([task] + [User(PLACEHOLDER)] + tail) > maxTokens
  }

  /** Before `k` no turn may become the first one kept. */
  ghost predicate LongBefore(task: Message, rest: seq<Message>, count: seq<Message> -> int, maxTokens: int, k: nat)
    requires k <= |rest|
  {
    forall j: nat :: j < k && StartsTurn(rest, j) ==> TooLong(task, rest[j..], count, maxTokens)
  }

  /** Dropping `k` messages drops turns as long as the rest is too long, and no longer; the last turn stays. */
  ghost predicate DropsUntilFits(task: Message, rest: seq<Message>, count: seq<Message> -> int, maxTokens: int,
                                 k: nat) {
    && k <= |rest| && StartsTurn(rest, k)
    && LongBefore(task, rest, count, maxTokens, k)
    && (TooLong(task, rest[k..], count, maxTokens) ==> forall j :: k < j < |rest| ==> !StartsTurn(rest, j))
  }

  /** There is one such number, so the history decides how much is dropped. */
  lemma DropsOneWay(task: Message, rest: seq<Message>, count: seq<Message> -> int, maxTokens: int, k: nat, l: nat)
    ensures DropsUntilFits(task, rest, count, maxTokens, k) && DropsUntilFits(task, rest, count, maxTokens, l)
            ==> k == l
  {
  }

  /** The shortened history: a note in place of what was dropped; with nothing dropped, no stray results. */
  ghost predicate Shortened(task: Message, rest: seq<Message>, count: seq<Message> -> int, maxTokens: int,
                            note: seq<Message> -> string, out: seq<Message>) {
    if DropsUntilFits(task, rest, count, maxTokens, 0)
    then (|out| > 1 ==> !out[1].Tool?) && exists k: nat :: StrayDropped(task, rest, k, out)
    else exists k: nat :: DropsUntilFits(task, rest, count, maxTokens, k)
                          && NoteReplaces(task, rest, k, note(rest[..k]), out)
  }

  /** Second step: drop the oldest whole turns while the history is still too long, keeping the last turn. */
  method DropOldest(task: Message, rest: seq<Message>, count: seq<Message> -> int, maxTokens: int)
    returns (dropped: seq<Message>, kept: seq<Message>)
    ensures dropped + kept == rest
    ensures DropsUntilFits(task, rest, count, maxTokens, |dropped|)
  {
    var turns := Turns(rest);
    dropped := [];
    assert Dropping(task, rest, count, maxTokens, dropped, turns);
    hide Dropping, DropsUntilFits, TooLong;
    while |turns| > 1 && count([task] + [User(PLACEHOLDER)] + Flatten(turns)) > maxTokens
      invariant Dropping(task, rest, count, maxTokens, dropped, turns)
    {
      DropsNext(task, rest, count, maxTokens, dropped, turns);
      dropped, turns := dropped + turns[0], turns[1..];
    }
    kept := Flatten(turns);
    Dropped(task, rest, count, maxTokens, dropped, turns);
  }

  /** `dropped` was rightly dropped, and `turns` are still to go. */
  ghost predicate Dropping(task: Message, rest: seq<Message>, count: seq<Message> -> int, maxTokens: int,
                           dropped: seq<Message>, turns: seq<seq<Message>>) {
    && dropped + Flatten(turns) == rest && AreTurns(turns)
    && StartsTurn(rest, |dropped|) && LongBefore(task, rest, count, maxTokens, |dropped|)
  }

  lemma DropsNext(task: Message, rest: seq<Message>, count: seq<Message> -> int, maxTokens: int,
                  dropped: seq<Message>, turns: seq<seq<Message>>)
    requires Dropping(task, rest, count, maxTokens, dropped, turns) && |turns| > 1
    requires count([task] + [User(PLACEHOLDER)] + Flatten(turns)) > maxTokens
    ensures Dropping(task, rest, count, maxTokens, dropped + turns[0], turns[1..])
  {
    Behind(dropped, Flatten(turns));
    NextTurn(rest, dropped, turns);
    hide Flatten, AreTurns, IsTurn, StartsTurn, LongBefore;
    LongerBefore(task, rest, count, maxTokens, |dropped|, |dropped + turns[0]|);
  }

  lemma Dropped(task: Message, rest: seq<Message>, count: seq<Message> -> int, maxTokens: int,
                dropped: seq<Message>, turns: seq<seq<Message>>)
    requires Dropping(task, rest, count, maxTokens, dropped, turns)
    requires |turns| <= 1 || count([task] + [User(PLACEHOLDER)] + Flatten(turns)) <= maxTokens
    ensures dropped + Flatten(turns) == rest && DropsUntilFits(task, rest, count, maxTokens, |dropped|)
  {
    Behind(dropped, Flatten(turns));
    if |turns| <= 1 {
      LastTurn(rest, |dropped|, turns);
    }
  }

  lemma LongerBefore(task: Message, rest: seq<Message>, count: seq<Message> -> int, maxTokens: int, k: nat, l: nat)
    requires k <= l <= |rest| && LongBefore(task, rest, count, maxTokens, k)
    requires TooLong(task, rest[k..], count, maxTokens) && forall j :: k < j < l ==> !StartsTurn(rest, j)
    ensures LongBefore(task, rest, count, maxTokens, l)
  {
  }

  lemma Behind(a: seq<Message>, b: seq<Message>)
    ensures (a + b)[..|a|] == a && (a + b)[|a|..] == b
  {
  }

  lemma LastTurn(rest: seq<Message>, k: nat, turns: seq<seq<Message>>)
    requires k <= |rest| && rest[k..] == Flatten(turns) && AreTurns(turns) && |turns| <= 1
    ensures forall j :: k < j < |rest| ==> !StartsTurn(rest, j)
  {
    if |turns| == 1 {
      assert Flatten(turns) == turns[0] && IsTurn(turns[0]);
      assert forall j :: k < j < |rest| ==> rest[j] == rest[k..][j - k] == turns[0][j - k];
    } else {
      assert |rest[k..]| == |rest| - k;
    }
  }

  /** Inside a turn no turn starts; the one after it starts the next. */
  lemma NextTurn(rest: seq<Message>, dropped: seq<Message>, turns: seq<seq<Message>>)
    requires rest == dropped + Flatten(turns) && AreTurns(turns) && |turns| > 1
    ensures var k := |dropped + turns[0]|;
      && k < |rest| && StartsTurn(rest, k) && AreTurns(turns[1..])
      && dropped + turns[0] + Flatten(turns[1..]) == rest
      && forall j :: |dropped| < j < k ==> !StartsTurn(rest, j)
  {
    var first, others := turns[0], Flatten(turns[1..]);
    assert IsTurn(first) && IsTurn(turns[1]) && others[0] == turns[1][0];
    assert dropped + (first + others) == dropped + first + others;
    hide Flatten, AreTurns, IsTurn;
    assert rest[|dropped + first|] == others[0];
    assert forall j :: |dropped| < j < |dropped + first| ==> rest[j] == first[j - |dropped|];
  }

  /** `compact`: `count` estimates the tokens of a history, `note` condenses what is dropped. */
  method Compact(messages: seq<Message>, count: seq<Message> -> int, maxTokens: int, keepRecent: nat,
                 note: seq<Message> -> string) returns (out: seq<Message>, changed: bool)
    requires messages != []
    ensures !changed ==> out == messages
    ensures changed <==> count(messages) > maxTokens
    ensures changed ==> Compacted(messages, keepRecent, out)
    ensures var rest := Shrunk(messages[1..], keepRecent);
      changed ==>
        if count(messages[..1] + rest) <= maxTokens then out == messages[..1] + rest
        else Shortened(messages[0], rest, count, maxTokens, note, out)
  {
    if count(messages) <= maxTokens {
      return messages, false;
    }
    var pinned := messages[..1];
    var rest := ShrinkOld(messages[1..], keepRecent);
    if count(pinned + rest) <= maxTokens {
      return pinned + rest, true;
    }
    var shorter := Shorten(messages[0], rest, count, maxTokens, note);
    assert pinned == [messages[0]];
    ShortenedIsCompacted(messages, keepRecent, count, maxTokens, note, pinned + shorter);
    return pinned + shorter, true;
  }

  /** What `compact` does when shrinking is not enough: `r` replaces `rest` behind the task. */
  method Shorten(task: Message, rest: seq<Message>, count: seq<Message> -> int, maxTokens: int,
                 note: seq<Message> -> string) returns (r: seq<Message>)
    ensures Shortened(task, rest, count, maxTokens, note, [task] + r)
  {
    var dropped, kept := DropOldest(task, rest, count, maxTokens);
    assert rest[..|dropped|] == dropped && rest[|dropped|..] == kept;
    if dropped != [] {
      r := [User(note(dropped))] + kept;
      DropsOneWay(task, rest, count, maxTokens, 0, |dropped|);
      assert [task] + r == [task, User(note(dropped))] + kept;
      assert NoteReplaces(task, rest, |dropped|, note(dropped), [task] + r);
    } else {
      var k := SkipStray(kept);
      r := kept[k..];
      assert StrayDropped(task, rest, k, [task] + r);
    }
  }

  lemma ShortenedIsCompacted(messages: seq<Message>, keepRecent: nat, count: seq<Message> -> int, maxTokens: int,
                             note: seq<Message> -> string, out: seq<Message>)
    requires messages != []
    requires Shortened(messages[0], Shrunk(messages[1..], keepRecent), count, maxTokens, note, out)
    ensures Compacted(messages, keepRecent, out)
  {
    var rest := Shrunk(messages[1..], keepRecent);
    if !DropsUntilFits(messages[0], rest, count, maxTokens, 0) {
      var k: nat :| DropsUntilFits(messages[0], rest, count, maxTokens, k)
                    && NoteReplaces(messages[0], rest, k, note(rest[..k]), out);
    }
  }

  /** Results at the very front, with no caller left, are dropped. */
  method SkipStray(kept: seq<Message>) returns (k: nat)
    ensures k <= |kept| && (k < |kept| ==> !kept[k].Tool?)
    ensures forall i :: 0 <= i < k ==> kept[i].Tool?
  {
    k := 0;
    while k < |kept| && kept[k].Tool?
      invariant k <= |kept| && forall i :: 0 <= i < k ==> kept[i].Tool?
    {
      k := k + 1;
    }
  }
}
