/** Splitting long replies (app/adminbot/format.py). */
module SplitMessage {

  const NL := '\n'

  ghost predicate OnlyNewlines(s: string) {
    forall k | 0 <= k < |s| :: s[k] == NL
  }

  /** text.split("\n"). */
  function Lines(text: string): (ls: seq<string>)
    ensures |ls| >= 1 && Join(ls) == text
    ensures forall k | 0 <= k < |ls| :: NL !in ls[k]
  {
    if text == "" then [""]
    else
      var n := |text| - 1;
      var ls := Lines(text[..n]);
      assert text == text[..n] + [text[n]];
      if text[n] == NL then
        assert (ls + [""])[..|ls|] == ls;
        ls + [""]
      else
        var last := |ls| - 1;
        var longer := ls[last := ls[last] + [text[n]]];
        assert longer[..last] == ls[..last];
        longer
  }

  function Join(ls: seq<string>): (s: string) {
    if |ls| == 0 then ""
    else if |ls| == 1 then ls[0]
    else Join(ls[..|ls| - 1]) + [NL] + ls[|ls| - 1]
  }

  // ----- What a split keeps ---------------------------------------------------------------------------

  /** The chunks lie in the text one after the other, with nothing but newlines between and
      around them, and each starts at the beginning, after a newline or after a full chunk. */
  ghost predicate Laid(text: string, chunks: seq<string>, max: nat)
    decreases |chunks|
  {
    if chunks == [] then OnlyNewlines(text)
    else
      var n := |chunks| - 1;
      exists i, j | 0 <= i <= j <= |text| :: Placed(text, chunks, max, i, j) && Laid(text[..i], chunks[..n], max)
  }

  /** The last chunk is text[i..j]. */
  ghost predicate Placed(text: string, chunks: seq<string>, max: nat, i: nat, j: nat)
    requires chunks != [] && i <= j <= |text|
  {
    var n := |chunks| - 1;
    && text[i..j] == chunks[n] && OnlyNewlines(text[j..])
    && (i == 0 || text[i - 1] == NL || (n > 0 && |chunks[n - 1]| == max))
  }

  /** A chunk may follow here. */
  ghost predicate CleanEnd(text: string, chunks: seq<string>, max: nat) {
    text == "" || text[|text| - 1] == NL || (chunks != [] && |chunks[|chunks| - 1]| == max)
  }

  lemma LaidChunk(text: string, chunks: seq<string>, max: nat, c: string)
    requires Laid(text, chunks, max) && CleanEnd(text, chunks, max)
    ensures Laid(text + c, chunks + [c], max)
  {
    var i, j := |text|, |text + c|;
    assert (text + c)[i..j] == c && (text + c)[..i] == text && (chunks + [c])[..|chunks|] == chunks;
    assert Placed(text + c, chunks + [c], max, i, j);
  }

  lemma LaidNewline(text: string, chunks: seq<string>, max: nat)
    requires Laid(text, chunks, max)
    ensures Laid(text + [NL], chunks, max)
  {
    if chunks != [] {
      var n := |chunks| - 1;
      var i, j :| 0 <= i <= j <= |text| && Placed(text, chunks, max, i, j) && Laid(text[..i], chunks[..n], max);
      var longer := text + [NL];
      assert longer[i..j] == text[i..j] && longer[j..] == text[j..] + [NL] && longer[..i] == text[..i];
      assert Placed(longer, chunks, max, i, j);
    }
  }

  function Kept(s: string): (r: string) {
    if s == "" then ""
    else if s[|s| - 1] == NL then Kept(s[..|s| - 1])
    else Kept(s[..|s| - 1]) + [s[|s| - 1]]
  }

  function Concat(chunks: seq<string>): (s: string) {
    if chunks == [] then "" else Concat(chunks[..|chunks| - 1]) + chunks[|chunks| - 1]
  }

  lemma {:induction false} KeptAppend(s: string, t: string)
    ensures Kept(s + t) == Kept(s) + Kept(t)
  {
    if t == "" {
      assert s + t == s;
    } else {
      var n := |t| - 1;
      KeptAppend(s, t[..n]);
      assert (s + t)[..|s| + n] == s + t[..n];
    }
  }

  lemma {:induction false} KeptNewlines(s: string)
    requires OnlyNewlines(s)
    ensures Kept(s) == ""
  {
    if s != "" {
      KeptNewlines(s[..|s| - 1]);
    }
  }

  /** Laid chunks hold every character of the text that is not a newline, in order. */
  lemma {:induction false} LaidKeepsCharacters(text: string, chunks: seq<string>, max: nat)
    requires Laid(text, chunks, max)
    ensures Kept(Concat(chunks)) == Kept(text)
    decreases |chunks|
  {
    if chunks == [] {
      KeptNewlines(text);
    } else {
      var n := |chunks| - 1;
      var i, j :| 0 <= i <= j <= |text| && Placed(text, chunks, max, i, j) && Laid(text[..i], chunks[..n], max);
      LaidKeepsCharacters(text[..i], chunks[..n], max);
      KeptAppend(Concat(chunks[..n]), chunks[n]);
      KeptParts(text, i, j);
    }
  }

  lemma KeptParts(text: string, i: nat, j: nat)
    requires i <= j <= |text| && OnlyNewlines(text[j..])
    ensures Kept(text) == Kept(text[..i]) + Kept(text[i..j])
  {
    var a, b, c := text[..i], text[i..j], text[j..];
    assert text == a + b + c;
    KeptAppend(a + b, c);
    KeptAppend(a, b);
    KeptNewlines(c);
  }

  // ----- The loop ------------------------------------------------------------------------------------

  /** Every chunk is within the limit and begins with a character that is kept. */
  ghost predicate Fit(chunks: seq<string>, max: nat) {
    forall k | 0 <= k < |chunks| :: 1 <= |chunks[k]| <= max && chunks[k][0] != NL
  }

  /** The chunks so far and the open one account for the text consumed so far. */
  ghost predicate Consumed(done: string, chunks: seq<string>, current: string, max: nat) {
    && Fit(chunks, max) && |current| <= max && |current| <= |done|
    && var base := done[..|done| - |current|];
    && done == base + current
    && Laid(base, chunks, max)
    && (current != "" ==> CleanEnd(base, chunks, max) && current[0] != NL)
  }

  /** Closing the open chunk. */
  lemma Flushed(done: string, chunks: seq<string>, current: string, max: nat)
    requires Consumed(done, chunks, current, max)
    ensures current != "" ==> Consumed(done, chunks + [current], "", max)
  {
    if current != "" {
      var base := done[..|done| - |current|];
      LaidChunk(base, chunks, max, current);
      assert done[..|done|] == done;
    }
  }

  /** A newline when no chunk is open. */
  lemma Skipped(done: string, chunks: seq<string>, max: nat)
    requires Consumed(done, chunks, "", max)
    ensures Consumed(done + [NL], chunks, "", max) && CleanEnd(done + [NL], chunks, max)
  {
    assert done[..|done|] == done && (done + [NL])[..|done| + 1] == done + [NL];
    LaidNewline(done, chunks, max);
  }

  /** A new chunk is opened, or stays closed when it is empty. */
  lemma Reopened(done: string, chunks: seq<string>, c: string, max: nat)
    requires Consumed(done, chunks, "", max) && CleanEnd(done, chunks, max) && |c| <= max && NL !in c
    ensures Consumed(done + c, chunks, c, max)
  {
    assert (done + c)[..|done|] == done && done[..|done|] == done;
  }

  /** One piece of an oversized line. */
  lemma Cut(done: string, chunks: seq<string>, piece: string, max: nat)
    requires Consumed(done, chunks, "", max) && CleanEnd(done, chunks, max) && 1 <= |piece| == max && NL !in piece
    ensures Consumed(done + piece, chunks + [piece], "", max) && CleanEnd(done + piece, chunks + [piece], max)
  {
    Reopened(done, chunks, piece, max);
    Flushed(done + piece, chunks, piece, max);
  }

  /** The text consumed once another line has been taken. */
  function After(done: string, line: string, first: bool): (s: string) {
    if first then done + line else done + [NL] + line
  }

  lemma AfterLine(done: string, line: string, first: bool)
    ensures After(done, "", first) + line == After(done, line, first)
  {
  }

  /** The line separator, once nothing is open. */
  lemma Separated(done: string, chunks: seq<string>, first: bool, max: nat)
    requires Consumed(done, chunks, "", max) && (first ==> done == "")
    ensures Consumed(After(done, "", first), chunks, "", max) && CleanEnd(After(done, "", first), chunks, max)
  {
    assert done + "" == done && done + [NL] + "" == done + [NL];
    Skipped(done, chunks, max);
  }

  /** A line that fits becomes the open chunk. */
  lemma Opened(done: string, first: bool, chunks: seq<string>, line: string, max: nat)
    requires Consumed(done, chunks, "", max) && (first ==> done == "") && |line| <= max && NL !in line
    ensures Consumed(After(done, line, first), chunks, line, max)
  {
    Separated(done, chunks, first, max);
    AfterLine(done, line, first);
    Reopened(After(done, "", first), chunks, line, max);
  }

  /** A line is joined to the open chunk. */
  lemma Extended(done: string, chunks: seq<string>, current: string, line: string, max: nat)
    requires Consumed(done, chunks, current, max) && current != "" && |current + [NL] + line| <= max
    ensures Consumed(done + [NL] + line, chunks, current + [NL] + line, max)
  {
    var base := done[..|done| - |current|];
    var all, candidate := done + [NL] + line, current + [NL] + line;
    assert all == base + candidate;
    assert all[..|all| - |candidate|] == base;
  }

  /** A line that fits: joined to the open chunk if both fit together. */
  method AddShortLine(ghost done: string, first: bool, chunks: seq<string>, current: string, line: string, max: nat)
    returns (chunks': seq<string>, current': string)
    requires Consumed(done, chunks, current, max) && (first ==> done == "") && |line| <= max && NL !in line
    ensures Consumed(After(done, line, first), chunks', current', max)
  {
    var candidate := if current != "" then current + [NL] + line else line;
    if |candidate| > max {
      Flushed(done, chunks, current, max);
      Opened(done, first, chunks + [current], line, max);
      return chunks + [current], line;
    }
    if current == "" {
      Opened(done, first, chunks, line, max);
    } else {
      Extended(done, chunks, current, line, max);
    }
    return chunks, candidate;
  }

  /** An oversized line: the open chunk is closed and full pieces are cut off. */
  method AddLongLine(ghost done: string, first: bool, chunks: seq<string>, current: string, line: string, max: nat)
    returns (chunks': seq<string>, current': string)
    requires Consumed(done, chunks, current, max) && (first ==> done == "") && |line| > max >= 1 && NL !in line
    ensures Consumed(After(done, line, first), chunks', current', max)
  {
    chunks' := chunks;
    Flushed(done, chunks, current, max);
    if current != "" {
      chunks' := chunks' + [current];
    }
    Separated(done, chunks', first, max);
    AfterLine(done, line, first);
    chunks', current' := CutPieces(After(done, "", first), chunks', line, max);
  }

  /** The while loop that cuts full pieces off an oversized line. */
  method CutPieces(ghost done: string, chunks: seq<string>, line: string, max: nat) returns (chunks': seq<string>, rest: string)
    requires Consumed(done, chunks, "", max) && CleanEnd(done, chunks, max) && max >= 1 && NL !in line
    ensures Consumed(done + line, chunks', rest, max)
  {
    chunks', rest := chunks, line;
    ghost var d := done;
    while |rest| > max
      invariant Consumed(d, chunks', "", max) && CleanEnd(d, chunks', max)
      invariant d + rest == done + line && NL !in rest
      decreases |rest|
    {
      var piece := rest[..max];
      Cut(d, chunks', piece, max);
      Moved(d, piece, rest, max);
      d := d + piece;
      chunks' := chunks' + [piece];
      rest := rest[max..];
    }
    Reopened(d, chunks', rest, max);
  }

  lemma Moved(d: string, piece: string, rest: string, max: nat)
    requires max <= |rest| && piece == rest[..max]
    ensures d + piece + rest[max..] == d + rest
  {
  }

  lemma JoinNext(ls: seq<string>, k: nat)
    requires k < |ls|
    ensures Join(ls[..k + 1]) == After(Join(ls[..k]), ls[k], k == 0)
    ensures k == 0 ==> Join(ls[..k]) == ""
  {
    assert ls[..k + 1][..k] == ls[..k];
  }

  /** What split_message promises of a text over the limit: non-empty chunks within it that lie
      in the text in order, begin with a kept character, start after a newline or a full
      chunk, and leave out only newlines. */
  ghost predicate GoodSplit(text: string, max: nat, chunks: seq<string>) {
    Fit(chunks, max) && Laid(text, chunks, max) && Kept(Concat(chunks)) == Kept(text)
  }

  /** The whole text is consumed. */
  lemma Finished(text: string, chunks: seq<string>, max: nat)
    requires Consumed(text, chunks, "", max)
    ensures GoodSplit(text, max, chunks)
  {
    assert text[..|text|] == text;
    LaidKeepsCharacters(text, chunks, max);
  }

  lemma {:induction false} FirstKept(s: string)
    requires s != "" && s[0] != NL
    ensures Kept(s) != ""
  {
    if |s| > 1 {
      FirstKept(s[..|s| - 1]);
    }
  }

  /** A text yields no chunk at all exactly when it holds nothing but newlines. */
  lemma NoChunksExactly(text: string, max: nat, chunks: seq<string>)
    requires GoodSplit(text, max, chunks)
    ensures chunks == [] <==> OnlyNewlines(text)
  {
    if chunks != [] {
      var n := |chunks| - 1;
      KeptAppend(Concat(chunks[..n]), chunks[n]);
      FirstKept(chunks[n]);
    }
    if OnlyNewlines(text) {
      KeptNewlines(text);
    }
  }

  /** Two newlines against a limit of one character: the reply is empty. */
  lemma NewlinesVanish(chunks: seq<string>)
    ensures GoodSplit("\n\n", 1, chunks) <==> chunks == []
  {
    assert OnlyNewlines("\n\n");
    if GoodSplit("\n\n", 1, chunks) {
      NoChunksExactly("\n\n", 1, chunks);
    }
    KeptNewlines("\n\n");
    assert Laid("\n\n", [], 1);
  }

  /** split_message; a text over the limit yields no chunk exactly when it is all newlines. */
  method Split(text: string, max: nat) returns (chunks: seq<string>)
    requires max >= 1
    ensures |text| <= max ==> chunks == [text]
    ensures |text| > max ==> GoodSplit(text, max, chunks)
    ensures |text| > max ==> (chunks == [] <==> OnlyNewlines(text))
  {
    if |text| <= max {
      return [text];
    }
    var current;
    chunks, current := Consume(Lines(text), text, max);
    Flushed(text, chunks, current, max);
    if current != "" {
      chunks := chunks + [current];
    }
    Finished(text, chunks, max);
    NoChunksExactly(text, max, chunks);
  }

  /** The loop over the lines. */
  method Consume(ls: seq<string>, ghost text: string, max: nat) returns (chunks: seq<string>, current: string)
    requires max >= 1 && text == Join(ls) && forall k | 0 <= k < |ls| :: NL !in ls[k]
    ensures Consumed(text, chunks, current, max)
  {
    chunks, current := [], "";
    for k := 0 to |ls|
      invariant Consumed(Join(ls[..k]), chunks, current, max)
    {
      JoinNext(ls, k);
      if |ls[k]| > max {
        chunks, current := AddLongLine(Join(ls[..k]), k == 0, chunks, current, ls[k], max);
      } else {
        chunks, current := AddShortLine(Join(ls[..k]), k == 0, chunks, current, ls[k], max);
      }
    }
    assert ls[..|ls|] == ls;
  }
}
