/**
 * The loops that cut a list of lines into chat messages under a size
 * limit: `chunkLines` of `ladder.ts` (lines joined by newlines, greedy),
 * `chunkAndSend` of the Discord ladder and help commands (every line
 * followed by a newline, white-space-only buffers never sent), and the
 * chunking of `myMatchHistory.ts` (every line followed by a newline, the
 * buffer sent whenever the next line would overflow it).
 */
module Chunking {
  import opened Common

  /** The groups of lines one after the other. */
  function Flatten(gs: seq<seq<string>>): seq<string>
  {
    if gs == [] then [] else Flatten(gs[..|gs| - 1]) + gs[|gs| - 1]
  }

  /** Every line followed by a newline, concatenated. */
  function Terminated(lines: seq<string>): string
  {
    if lines == [] then "" else Terminated(lines[..|lines| - 1]) + lines[|lines| - 1] + "\n"
  }

  lemma FlattenSnoc(gs: seq<seq<string>>, g: seq<string>)
    ensures Flatten(gs + [g]) == Flatten(gs) + g
  {
    assert (gs + [g])[..|gs|] == gs;
  }

  lemma TerminatedSnoc(lines: seq<string>, i: nat)
    requires i < |lines|
    ensures Terminated(lines[..i + 1]) == Terminated(lines[..i]) + lines[i] + "\n"
  {
    assert lines[..i + 1][..i] == lines[..i];
  }

  /** The join of one line more: a newline and the line are added. */
  lemma JoinGrows(buf: seq<string>, line: string)
    ensures buf != [] ==> Join(buf + [line], "\n") == Join(buf, "\n") + "\n" + line
    ensures buf == [] ==> Join(buf + [line], "\n") == line
  {
    if buf != [] {
      JoinSnoc(buf, line, "\n");
    } else {
      assert buf + [line] == [line];
    }
  }

  // ---------------------------------------------------------------------
  // ladder.ts: chunkLines

  /** The chunk holding `g` is closed because `next` (with its newline, if any) no longer fits. */
  predicate Overflows(g: seq<string>, next: string, maxLen: int) {
    |Join(g, "\n")| + (if g == [] then 0 else 1) + |next| > maxLen
  }

  /** The closed chunks, the lines of each, and the open buffer of `chunkLines` after some lines. */
  datatype Cut = Cut(chunks: seq<string>, groups: seq<seq<string>>, buf: seq<string>)

  /** One turn of `chunkLines`: the buffer is closed first when the line no longer fits behind it. */
  function CutStep(st: Cut, line: string, maxLen: int): Cut
  {
    if Overflows(st.buf, line, maxLen) then Cut(st.chunks + [Join(st.buf, "\n")], st.groups + [st.buf], [line])
    else Cut(st.chunks, st.groups, st.buf + [line])
  }

  /** The state of `chunkLines` after the lines `p`, one line at a time. */
  function CutAfter(p: seq<string>, maxLen: int): Cut
  {
    if p == [] then Cut([], [], [])
    else CutStep(CutAfter(p[..|p| - 1], maxLen), p[|p| - 1], maxLen)
  }

  /** The chunks `chunkLines(lines, maxLen)` returns: the closed ones and the last buffer, if not empty. */
  function ChunksOfLines(lines: seq<string>, maxLen: int): seq<string>
  {
    var st := CutAfter(lines, maxLen);
    if st.buf == [] then st.chunks else st.chunks + [Join(st.buf, "\n")]
  }

  /** The lines of each chunk of `ChunksOfLines`. */
  function GroupsOfLines(lines: seq<string>, maxLen: int): seq<seq<string>>
  {
    var st := CutAfter(lines, maxLen);
    if st.buf == [] then st.groups else st.groups + [st.buf]
  }

  /** `chunkLines(lines, maxLen)` */
  method ChunkLines(lines: seq<string>, maxLen: int) returns (chunks: seq<string>)
    ensures chunks == ChunksOfLines(lines, maxLen)
  {
    chunks := [];
    var buf: seq<string> := [];
    var curLen := 0;
    var i := 0;
    while i < |lines|
      invariant 0 <= i <= |lines|
      invariant chunks == CutAfter(lines[..i], maxLen).chunks && buf == CutAfter(lines[..i], maxLen).buf
      invariant curLen == |Join(buf, "\n")|
    {
      var line := lines[i];
      assert lines[..i + 1][..i] == lines[..i];
      var addLen := (if |buf| > 0 then 1 else 0) + |line|;
      if curLen + addLen > maxLen {
        chunks := chunks + [Join(buf, "\n")];
        buf := [line];
        curLen := |line|;
      } else {
        JoinGrows(buf, line);
        buf := buf + [line];
        curLen := curLen + addLen;
      }
      i := i + 1;
    }
    assert lines[..i] == lines;
    if |buf| > 0 {
      chunks := chunks + [Join(buf, "\n")];
    }
  }

  /** The closed chunks are their groups joined by newlines. */
  lemma {:induction false} CutJoined(p: seq<string>, maxLen: int)
    ensures var st := CutAfter(p, maxLen);
            && |st.chunks| == |st.groups|
            && (forall j :: 0 <= j < |st.chunks| ==> st.chunks[j] == Join(st.groups[j], "\n"))
  {
    if p != [] {
      var q := p[..|p| - 1];
      CutJoined(q, maxLen);
    }
  }

  /** The groups followed by the buffer are the lines so far; the buffer is empty only before the first line. */
  lemma {:induction false} CutShape(p: seq<string>, maxLen: int)
    ensures var st := CutAfter(p, maxLen);
            && Flatten(st.groups) + st.buf == p
            && (st.buf == [] ==> p == [] && st.groups == [])
  {
    if p != [] {
      var q := p[..|p| - 1];
      assert p == q + [p[|p| - 1]];
      CutShape(q, maxLen);
      var st := CutAfter(q, maxLen);
      FlattenSnoc(st.groups, st.buf);
    }
  }

  /** A closed chunk of two or more lines fits, and so does a buffer of two or more lines. */
  lemma {:induction false} CutFits(p: seq<string>, maxLen: int)
    ensures var st := CutAfter(p, maxLen);
            && (forall j :: 0 <= j < |st.groups| && j < |st.chunks| && |st.groups[j]| >= 2 ==> |st.chunks[j]| <= maxLen)
            && (|st.buf| >= 2 ==> |Join(st.buf, "\n")| <= maxLen)
  {
    if p != [] {
      var q := p[..|p| - 1];
      CutFits(q, maxLen);
      CutJoined(q, maxLen);
      var st := CutAfter(q, maxLen);
      JoinGrows(st.buf, p[|p| - 1]);
    }
  }

  /** The only empty group is the first, closed because the first line alone does not fit. */
  lemma {:induction false} CutEmptyGroup(p: seq<string>, maxLen: int)
    ensures var st := CutAfter(p, maxLen);
            forall j :: 0 <= j < |st.groups| && st.groups[j] == [] ==> j == 0 && |p| > 0 && |p[0]| > maxLen
  {
    if p != [] {
      var q := p[..|p| - 1];
      CutEmptyGroup(q, maxLen);
      CutShape(q, maxLen);
      assert q != [] ==> p[0] == q[0];
    }
  }

  /** The first line starts the first group or the buffer only when it fits. */
  lemma {:induction false} CutFirstFits(p: seq<string>, maxLen: int)
    ensures var st := CutAfter(p, maxLen);
            && (|st.groups| > 0 && st.groups[0] != [] ==> |st.groups[0][0]| <= maxLen)
            && (st.groups == [] && st.buf != [] ==> |st.buf[0]| <= maxLen)
  {
    if p != [] {
      var q := p[..|p| - 1];
      CutFirstFits(q, maxLen);
      var st := CutAfter(q, maxLen);
      assert st.buf != [] ==> (st.buf + [p[|p| - 1]])[0] == st.buf[0];
    }
  }

  /** Group `j` was closed because the first line of group `j + 1`, the next, did not fit behind it. */
  predicate Closed(groups: seq<seq<string>>, j: int, maxLen: int)
    requires 0 < j < |groups|
  {
    groups[j] != [] && Overflows(groups[j - 1], groups[j][0], maxLen)
  }

  /** Each group was closed because the first line of the next did not fit. */
  lemma {:induction false} CutOverflows(p: seq<string>, maxLen: int)
    ensures var st := CutAfter(p, maxLen);
            forall j :: 0 < j <= |st.groups| ==> Closed(st.groups + [st.buf], j, maxLen)
  {
    if p != [] {
      var q := p[..|p| - 1];
      CutOverflows(q, maxLen);
      CutShape(q, maxLen);
      StepOverflows(CutAfter(q, maxLen), p[|p| - 1], maxLen);
    }
  }

  lemma StepOverflows(st: Cut, line: string, maxLen: int)
    requires st.buf == [] ==> st.groups == []
    requires forall j :: 0 < j <= |st.groups| ==> Closed(st.groups + [st.buf], j, maxLen)
    ensures var nx := CutStep(st, line, maxLen);
            forall j :: 0 < j <= |nx.groups| ==> Closed(nx.groups + [nx.buf], j, maxLen)
  {
    var old_gs := st.groups + [st.buf];
    var nx := CutStep(st, line, maxLen);
    var gs := nx.groups + [nx.buf];
    forall j | 0 < j <= |nx.groups| ensures Closed(gs, j, maxLen) {
      if j <= |st.groups| {
        assert Closed(old_gs, j, maxLen);
        assert gs[j - 1] == old_gs[j - 1];
        if j < |st.groups| || nx.groups == st.groups + [st.buf] {
          assert gs[j] == old_gs[j];
        } else {
          assert gs[j] == st.buf + [line] && gs[j][0] == st.buf[0];
        }
      } else {
        assert gs[j] == [line] && gs[j - 1] == st.buf;
      }
    }
  }

  /** In order, every line lands in exactly one chunk, and each chunk is its lines joined by newlines; no lines, no chunks. */
  lemma ChunkLinesShape(lines: seq<string>, maxLen: int)
    ensures var chunks, groups := ChunksOfLines(lines, maxLen), GroupsOfLines(lines, maxLen);
            && |chunks| == |groups|
            && (forall i :: 0 <= i < |chunks| ==> chunks[i] == Join(groups[i], "\n"))
            && Flatten(groups) == lines
            && (chunks == [] <==> lines == [])
  {
    CutJoined(lines, maxLen);
    CutShape(lines, maxLen);
    var st := CutAfter(lines, maxLen);
    if st.buf != [] {
      FlattenSnoc(st.groups, st.buf);
      var c2 := st.chunks + [Join(st.buf, "\n")];
      assert forall i :: 0 <= i < |st.chunks| ==> c2[i] == st.chunks[i];
    }
  }

  /** A chunk of two or more lines fits, and the first chunk holds the first line only if it fits. */
  lemma ChunkLinesSizes(lines: seq<string>, maxLen: int)
    ensures var chunks, groups := ChunksOfLines(lines, maxLen), GroupsOfLines(lines, maxLen);
            && (forall i :: 0 <= i < |groups| && i < |chunks| && |groups[i]| >= 2 ==> |chunks[i]| <= maxLen)
            && (|groups| > 0 && groups[0] != [] ==> |groups[0][0]| <= maxLen)
  {
    CutJoined(lines, maxLen);
    CutFits(lines, maxLen);
    CutFirstFits(lines, maxLen);
  }

  /** An empty chunk can only be the first, when the first line alone is longer than the limit. */
  lemma ChunkLinesEmptyFirst(lines: seq<string>, maxLen: int)
    ensures var groups := GroupsOfLines(lines, maxLen);
            forall i :: 0 <= i < |groups| && groups[i] == [] ==> i == 0 && |lines| > 0 && |lines[0]| > maxLen
  {
    CutEmptyGroup(lines, maxLen);
    var st := CutAfter(lines, maxLen);
    if st.buf != [] {
      var g2 := st.groups + [st.buf];
      forall i | 0 <= i < |g2| && g2[i] == []
        ensures i == 0 && |lines| > 0 && |lines[0]| > maxLen
      {
        assert i < |st.groups| && g2[i] == st.groups[i];
        assert st.groups[i] == [];
        assert 0 <= i < |CutAfter(lines, maxLen).groups| && CutAfter(lines, maxLen).groups[i] == [];
        assert i == 0;
      }
    }
  }

  /** Greedy: a chunk is closed only when the next line with its newline would take it past the limit. */
  lemma ChunkLinesGreedy(lines: seq<string>, maxLen: int)
    ensures var groups := GroupsOfLines(lines, maxLen);
            forall i :: 0 < i < |groups| ==> Closed(groups, i, maxLen)
  {
    CutOverflows(lines, maxLen);
    CutShape(lines, maxLen);
    assert var st := CutAfter(lines, maxLen);
           forall j :: 0 < j <= |st.groups| ==> Closed(st.groups + [st.buf], j, maxLen);
  }

  /** If every line fits, every chunk fits. */
  lemma ChunkLinesFit(lines: seq<string>, maxLen: int)
    requires forall k :: 0 <= k < |lines| ==> |lines[k]| <= maxLen
    ensures forall i :: 0 <= i < |ChunksOfLines(lines, maxLen)| ==> |ChunksOfLines(lines, maxLen)[i]| <= maxLen
  {
    var chunks, groups := ChunksOfLines(lines, maxLen), GroupsOfLines(lines, maxLen);
    ChunkLinesShape(lines, maxLen);
    ChunkLinesSizes(lines, maxLen);
    ChunkLinesEmptyFirst(lines, maxLen);
    forall i | 0 <= i < |chunks| ensures |chunks[i]| <= maxLen {
      if |groups[i]| == 1 {
        InFlatten(groups, i, 0);
        assert chunks[i] == groups[i][0];
      }
    }
  }

  /** Every line of a group is a line of the input. */
  lemma {:induction false} InFlatten(gs: seq<seq<string>>, i: nat, k: nat)
    requires i < |gs| && k < |gs[i]|
    ensures gs[i][k] in Flatten(gs)
  {
    var last := |gs| - 1;
    if i < last {
      InFlatten(gs[..last], i, k);
      assert gs[..last][i] == gs[i];
    } else {
      assert Flatten(gs) == Flatten(gs[..last]) + gs[last];
      assert Flatten(gs)[|Flatten(gs[..last])| + k] == gs[i][k];
    }
  }

  // ---------------------------------------------------------------------
  // The Discord ladder and help commands: chunkAndSend

  /** Discord's message cap of 2000 characters, with a margin. */
  const MessageMax := 1900

  /**
   * `chunkAndSend(lines, send)`, returning what is sent. Each line is added
   * with a newline; before a line that would make the buffer longer than
   * 1900 characters the buffer is flushed, but a flush sends (and clears)
   * it only when it holds something other than white space. What is sent
   * plus the white-space tail that is never sent is every line with its
   * newline, in order.
   */
  method ChunkAndSend(lines: seq<string>) returns (sent: seq<string>, ghost rest: string)
    ensures Concat(sent) + rest == Terminated(lines)
    ensures Blank(rest)
    ensures forall i :: 0 <= i < |sent| ==> !Blank(sent[i])
  {
    sent := [];
    var buf := "";
    var i := 0;
    while i < |lines|
      invariant 0 <= i <= |lines|
      invariant Concat(sent) + buf == Terminated(lines[..i])
      invariant forall j :: 0 <= j < |sent| ==> !Blank(sent[j])
    {
      TerminatedSnoc(lines, i);
      var ln := lines[i];
      if |buf + ln + "\n"| > MessageMax {
        sent, buf := Flush(sent, buf);
      }
      AppendLine(Concat(sent), buf, ln);
      buf := buf + ln + "\n";
      i := i + 1;
    }
    assert lines[..i] == lines;
    sent, buf := Flush(sent, buf);
    rest := buf;
  }

  /** `flush()`: a buffer with something other than white space is sent and cleared. */
  method Flush(sent: seq<string>, buf: string) returns (sent': seq<string>, buf': string)
    ensures Concat(sent') + buf' == Concat(sent) + buf
    ensures !Blank(buf) ==> sent' == sent + [buf] && buf' == ""
    ensures Blank(buf) ==> sent' == sent && buf' == buf
  {
    TrimEmptyIffBlank(buf);
    if |Trim(buf)| > 0 {
      ConcatOne(sent, buf);
      sent', buf' := sent + [buf], "";
    } else {
      sent', buf' := sent, buf;
    }
  }

  /** Sending one more message adds its text. */
  lemma ConcatOne(sent: seq<string>, m: string)
    ensures Concat(sent + [m]) == Concat(sent) + m
  {
    ConcatAppend(sent, [m]);
    assert Concat([m]) == m + Concat([]);
  }

  /** A line and its newline added to the buffer extend what was sent and buffered by the same text. */
  lemma AppendLine(done: string, buf: string, ln: string)
    ensures done + (buf + ln + "\n") == done + buf + ln + "\n"
  {
  }

  // ---------------------------------------------------------------------
  // myMatchHistory.ts

  const HistoryChunkMax := 1800

  /** `(chunk + line + '\n').length > 1800` for the chunk holding the lines `g`. */
  predicate HistoryOverflows(g: seq<string>, line: string) {
    |Terminated(g)| + |line| + 1 > HistoryChunkMax
  }

  /**
   * The send moment of `myMatchHistory.ts`, over the lines of each chunk: a
   * chunk is sent exactly when the next line with its newline would take
   * it past 1800 characters, and a line is added behind the lines before
   * it whenever it fits.
   */
  predicate HistoryGreedy(gs: seq<seq<string>>) {
    && (forall j :: 0 < j < |gs| ==> gs[j] != [] && HistoryOverflows(gs[j - 1], gs[j][0]))
    && (forall j, k :: 0 <= j < |gs| && 0 < k < |gs[j]| ==> !HistoryOverflows(gs[j][..k], gs[j][k]))
  }

  /** `sent` is the lines `lines` cut into the chunks `gs`, each line followed by a newline, greedily. */
  predicate HistoryCutOf(lines: seq<string>, sent: seq<string>, gs: seq<seq<string>>) {
    && |gs| == |sent|
    && (forall j :: 0 <= j < |gs| ==> sent[j] == Terminated(gs[j]))
    && Flatten(gs) == lines
    && HistoryGreedy(gs)
    && (gs != [] ==> gs[|gs| - 1] != [])
  }

  lemma TerminatedPush(g: seq<string>, line: string)
    ensures Terminated(g + [line]) == Terminated(g) + line + "\n"
  {
    assert (g + [line])[..|g|] == g;
  }

  /** After the lines `done`, the chunks sent so far are the groups `gs` and the open chunk holds `cur`, greedily. */
  predicate HistoryOpen(done: seq<string>, sent: seq<string>, gs: seq<seq<string>>, cur: seq<string>) {
    && |gs| == |sent|
    && (forall j :: 0 <= j < |gs| ==> sent[j] == Terminated(gs[j]))
    && Flatten(gs) + cur == done
    && HistoryGreedy(gs + [cur])
  }

  /** Sending the chunk because `line` overflows it, and starting the next with `line`, keeps the cut greedy. */
  lemma OpenClose(done: seq<string>, line: string, sent: seq<string>, gs: seq<seq<string>>, cur: seq<string>)
    requires HistoryOpen(done, sent, gs, cur)
    requires HistoryOverflows(cur, line)
    ensures HistoryOpen(done + [line], sent + [Terminated(cur)], gs + [cur], [line])
  {
    FlattenSnoc(gs, cur);
    var o := gs + [cur];
    var n := o + [[line]];
    forall j | 0 < j < |n| ensures n[j] != [] && HistoryOverflows(n[j - 1], n[j][0]) {
      if j < |o| {
        assert n[j] == o[j] && n[j - 1] == o[j - 1];
      } else {
        assert n[j] == [line] && n[j - 1] == cur;
      }
    }
    forall j, k | 0 <= j < |n| && 0 < k < |n[j]| ensures !HistoryOverflows(n[j][..k], n[j][k]) {
      assert j < |o| && n[j] == o[j];
    }
    var s2 := sent + [Terminated(cur)];
    assert forall j :: 0 <= j < |o| ==> s2[j] == Terminated(o[j]);
  }

  /** Adding `line` behind the chunk it fits in keeps the cut greedy. */
  lemma OpenExtend(done: seq<string>, line: string, sent: seq<string>, gs: seq<seq<string>>, cur: seq<string>)
    requires HistoryOpen(done, sent, gs, cur)
    requires !HistoryOverflows(cur, line)
    ensures HistoryOpen(done + [line], sent, gs, cur + [line])
  {
    var o := gs + [cur];
    var n := gs + [cur + [line]];
    forall j | 0 < j < |n| ensures n[j] != [] && HistoryOverflows(n[j - 1], n[j][0]) {
      assert n[j - 1] == o[j - 1];
      if j < |gs| {
        assert n[j] == o[j];
      } else {
        assert o[j] == cur && cur != [];
        assert n[j][0] == cur[0];
      }
    }
    forall j, k | 0 <= j < |n| && 0 < k < |n[j]| ensures !HistoryOverflows(n[j][..k], n[j][k]) {
      if j < |gs| {
        assert n[j] == o[j];
      } else if k < |cur| {
        assert o[j] == cur && n[j][..k] == cur[..k] && n[j][k] == cur[k];
      } else {
        assert n[j][..k] == cur && n[j][k] == line;
      }
    }
  }

  /** Sending the open chunk at the end completes the greedy cut. */
  lemma OpenDone(lines: seq<string>, sent: seq<string>, gs: seq<seq<string>>, cur: seq<string>)
    requires HistoryOpen(lines, sent, gs, cur) && cur != []
    ensures HistoryCutOf(lines, sent + [Terminated(cur)], gs + [cur])
  {
    FlattenSnoc(gs, cur);
    var s2, g2 := sent + [Terminated(cur)], gs + [cur];
    forall j | 0 <= j < |g2| ensures s2[j] == Terminated(g2[j]) {
      if j < |gs| {
        assert s2[j] == sent[j] && g2[j] == gs[j];
      }
    }
  }

  /** The sent chunks, their lines, and the lines of the open chunk of `myMatchHistory.ts` after some lines. */
  datatype HistoryState = HistoryState(sent: seq<string>, groups: seq<seq<string>>, cur: seq<string>)

  /** One turn of the `myMatchHistory.ts` loop: the chunk is sent first when the line overflows it. */
  function HistoryStep(st: HistoryState, line: string): HistoryState
  {
    if HistoryOverflows(st.cur, line) then HistoryState(st.sent + [Terminated(st.cur)], st.groups + [st.cur], [line])
    else HistoryState(st.sent, st.groups, st.cur + [line])
  }

  /** The state of the `myMatchHistory.ts` loop after the lines `p`, one line at a time. */
  function HistoryAfter(p: seq<string>): HistoryState
  {
    if p == [] then HistoryState([], [], []) else HistoryStep(HistoryAfter(p[..|p| - 1]), p[|p| - 1])
  }

  lemma HistoryAfterSnoc(lines: seq<string>, i: nat)
    requires i < |lines|
    ensures HistoryAfter(lines[..i + 1]) == HistoryStep(HistoryAfter(lines[..i]), lines[i])
  {
    assert lines[..i + 1][..i] == lines[..i];
  }

  /** Every state of the loop is a greedy cut of the lines read so far, with a chunk open once a line is read. */
  lemma {:induction false} HistoryAfterOpen(p: seq<string>)
    ensures var st := HistoryAfter(p);
            HistoryOpen(p, st.sent, st.groups, st.cur) && (st.cur == [] <==> p == [])
  {
    if p != [] {
      var q := p[..|p| - 1];
      HistoryAfterOpen(q);
      var st := HistoryAfter(q);
      assert p == q + [p[|p| - 1]];
      if HistoryOverflows(st.cur, p[|p| - 1]) {
        OpenClose(q, p[|p| - 1], st.sent, st.groups, st.cur);
      } else {
        OpenExtend(q, p[|p| - 1], st.sent, st.groups, st.cur);
      }
    }
  }

  /** What the `myMatchHistory.ts` loop sends: the sent chunks and the open one, if a line was read. */
  function HistorySent(lines: seq<string>): seq<string>
  {
    var st := HistoryAfter(lines);
    if st.cur == [] then st.sent else st.sent + [Terminated(st.cur)]
  }

  /** The lines of each message of `HistorySent`. */
  function HistoryGroups(lines: seq<string>): seq<seq<string>>
  {
    var st := HistoryAfter(lines);
    if st.cur == [] then st.groups else st.groups + [st.cur]
  }

  /** What the loop sends in the end is a greedy cut of all the lines. */
  lemma HistoryAfterCut(lines: seq<string>)
    ensures HistoryCutOf(lines, HistorySent(lines), HistoryGroups(lines))
  {
    HistoryAfterOpen(lines);
    var st := HistoryAfter(lines);
    if st.cur != [] {
      OpenDone(lines, st.sent, st.groups, st.cur);
    }
  }

  /**
   * All lines are sent once, in order; if every line with its newline
   * fits, every message fits; an empty message can only be the first,
   * when the first line alone does not fit; no lines, no messages.
   */
  lemma HistorySentShape(lines: seq<string>)
    ensures var sent := HistorySent(lines);
            && Concat(sent) == Terminated(lines)
            && ((forall k :: 0 <= k < |lines| ==> |lines[k]| + 1 <= HistoryChunkMax)
                ==> forall i :: 0 <= i < |sent| ==> |sent[i]| <= HistoryChunkMax)
            && (forall i :: 0 <= i < |sent| && sent[i] == "" ==> i == 0 && |lines| > 0 && |lines[0]| + 1 > HistoryChunkMax)
            && (sent == [] <==> lines == [])
  {
    var sent, gs := HistorySent(lines), HistoryGroups(lines);
    HistoryAfterCut(lines);
    CutOfConcat(sent, gs);
    CutOfEmpty(lines, sent, gs);
    if forall k :: 0 <= k < |lines| ==> |lines[k]| + 1 <= HistoryChunkMax {
      CutOfFits(lines, sent, gs);
    }
  }

  lemma {:induction false} TerminatedAppend(a: seq<string>, b: seq<string>)
    ensures Terminated(a + b) == Terminated(a) + Terminated(b)
  {
    if b == [] {
      assert a + b == a;
    } else {
      TerminatedAppend(a, b[..|b| - 1]);
      assert (a + b)[..|a + b| - 1] == a + b[..|b| - 1];
    }
  }

  lemma {:induction false} FlattenFront(gs: seq<seq<string>>)
    requires gs != []
    ensures Flatten(gs) == gs[0] + Flatten(gs[1..])
  {
    if |gs| > 1 {
      var n := |gs| - 1;
      FlattenFront(gs[..n]);
      assert gs[..n][1..] == gs[1..][..|gs[1..]| - 1];
      assert gs[..n][0] == gs[0];
    } else {
      assert gs[..0] == [] && gs[1..] == [];
    }
  }

  lemma TerminatedNonEmpty(g: seq<string>)
    ensures g != [] ==> |Terminated(g)| > 0
  {
  }

  /** The messages of a cut, one after the other, are all the lines, each followed by a newline. */
  lemma {:induction false} CutOfConcat(sent: seq<string>, gs: seq<seq<string>>)
    requires |gs| == |sent| && forall j :: 0 <= j < |gs| ==> sent[j] == Terminated(gs[j])
    ensures Concat(sent) == Terminated(Flatten(gs))
  {
    if gs != [] {
      var n := |gs| - 1;
      CutOfConcat(sent[..n], gs[..n]);
      ConcatOne(sent[..n], sent[n]);
      assert sent == sent[..n] + [sent[n]];
      TerminatedAppend(Flatten(gs[..n]), gs[n]);
    }
  }

  /** In a greedy cut, a chunk of two or more lines fits; so if every line with its newline fits, every message fits. */
  lemma CutOfFits(lines: seq<string>, sent: seq<string>, gs: seq<seq<string>>)
    requires HistoryCutOf(lines, sent, gs)
    requires forall k :: 0 <= k < |lines| ==> |lines[k]| + 1 <= HistoryChunkMax
    ensures forall i :: 0 <= i < |sent| ==> |sent[i]| <= HistoryChunkMax
  {
    forall i | 0 <= i < |sent| ensures |sent[i]| <= HistoryChunkMax {
      var g := gs[i];
      if g != [] {
        var k := |g| - 1;
        TerminatedSnoc(g, k);
        assert g[..k + 1] == g;
        if k == 0 {
          InFlatten(gs, i, 0);
        } else {
          assert !HistoryOverflows(gs[i][..k], gs[i][k]);
        }
      }
    }
  }

  /** In a greedy cut, an empty message can only be the first, sent because the first line alone does not fit. */
  lemma CutOfEmpty(lines: seq<string>, sent: seq<string>, gs: seq<seq<string>>)
    requires HistoryCutOf(lines, sent, gs)
    ensures forall i :: 0 <= i < |sent| && sent[i] == "" ==> i == 0 && |lines| > 0 && |lines[0]| + 1 > HistoryChunkMax
    ensures sent == [] <==> lines == []
  {
    forall i | 0 <= i < |sent| && sent[i] == ""
      ensures i == 0 && |lines| > 0 && |lines[0]| + 1 > HistoryChunkMax
    {
      TerminatedNonEmpty(gs[i]);
      assert i == 0 && gs[0] == [] && |gs| > 1;
      assert gs[1] != [] && HistoryOverflows(gs[0], gs[1][0]);
      FlattenFront(gs);
      FlattenFront(gs[1..]);
      assert lines == gs[1] + Flatten(gs[2..]);
    }
    if gs != [] {
      assert Flatten(gs) == Flatten(gs[..|gs| - 1]) + gs[|gs| - 1];
    }
  }

  /**
   * The chunking loop of `myMatchHistory.ts`: each line is added with a
   * newline, and before a line that would take the chunk past 1800
   * characters the chunk is sent (even when empty) and restarted. All
   * lines are sent once, in order; if every line with its newline fits,
   * every message fits; an empty message can only be the first, when the
   * first line alone does not fit; and the messages are the lines cut
   * greedily, a chunk being sent exactly when the next line overflows it.
   */
  method HistoryChunks(lines: seq<string>) returns (sent: seq<string>)
    ensures sent == HistorySent(lines)
    ensures Concat(sent) == Terminated(lines)
    ensures (forall k :: 0 <= k < |lines| ==> |lines[k]| + 1 <= HistoryChunkMax)
            ==> forall i :: 0 <= i < |sent| ==> |sent[i]| <= HistoryChunkMax
    ensures forall i :: 0 <= i < |sent| && sent[i] == "" ==> i == 0 && |lines| > 0 && |lines[0]| + 1 > HistoryChunkMax
    ensures sent == [] <==> lines == []
    ensures exists gs :: HistoryCutOf(lines, sent, gs)
  {
    sent := [];
    var chunk := "";
    var i := 0;
    ghost var st := HistoryState([], [], []);
    while i < |lines|
      invariant 0 <= i <= |lines|
      invariant st == HistoryAfter(lines[..i]) && sent == st.sent && chunk == Terminated(st.cur)
    {
      HistoryAfterSnoc(lines, i);
      var line := lines[i];
      TerminatedPush(st.cur, line);
      TerminatedPush([], line);
      if |chunk + line + "\n"| > HistoryChunkMax {
        sent := sent + [chunk];
        chunk := "";
      }
      chunk := chunk + line + "\n";
      st := HistoryStep(st, line);
      i := i + 1;
    }
    assert lines[..i] == lines;
    HistoryAfterOpen(lines);
    if st.cur != [] {
      TerminatedSnoc(st.cur, |st.cur| - 1);
      assert st.cur[..|st.cur|] == st.cur;
    }
    if chunk != "" {
      sent := sent + [chunk];
    }
    HistorySentShape(lines);
    HistoryAfterCut(lines);
  }

}
