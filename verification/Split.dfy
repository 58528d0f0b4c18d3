/** The message splitter: chunks of bounded length, with code fences closed and reopened. */
module Split {
  import opened Text

  /** Where the next chunk ends. A forced cut closes the block opened at `open` and repeats its fence line. */
  datatype Cut = Plain(end: int) | Forced(end: int, open: int)

  function Max(a: int, b: int): int { if a > b then a else b }

  function Min(a: int, b: int): int { if a < b then a else b }

  predicate IsNewline(c: char) { c == '\n' }

  predicate IsSpaceOrTab(c: char) { c == ' ' || c == '\t' }

  /** The last index in [lo, hi) whose rune satisfies `p`. */
  function FindLast(s: string, lo: int, hi: int, p: char -> bool): (r: int)
    requires 0 <= lo && hi <= |s|
    ensures r == -1 || (lo <= r < hi && p(s[r]))
    ensures forall i :: lo <= i < hi && r < i ==> !p(s[i])
    decreases hi
  {
    if hi <= lo then -1 else if p(s[hi - 1]) then hi - 1 else FindLast(s, lo, hi - 1, p)
  }

  /** The same within the last `window` runes of [start, end); start - 1 when there is none. */
  function LastInWindow(s: string, start: int, end: int, window: nat, p: char -> bool): (r: int)
    requires 0 <= start <= end <= |s|
    ensures start - 1 <= r < end || (r == start - 1 && start == end)
    ensures r >= start ==> p(s[r])
    ensures forall i :: start <= i < end && end - window <= i && r < i ==> !p(s[i])
  {
    var r := FindLast(s, Max(end - window, start), end, p);
    if r < 0 then start - 1 else r
  }

  predicate IsFence(s: string, i: int) {
    0 <= i && i + 2 < |s| && s[i] == '`' && s[i + 1] == '`' && s[i + 2] == '`'
  }

  /** The block left open when the fences of s[i..end) are toggled in order, given the one open before. */
  function Unclosed(s: string, i: int, end: int, open: int): (r: int)
    requires 0 <= i && end <= |s|
    ensures r == open || r == -1 || (i <= r && r + 3 <= end && IsFence(s, r))
    decreases end - i
  {
    if i >= end then open
    else if i + 2 < end && IsFence(s, i) then Unclosed(s, i + 3, end, if open < 0 then i else -1)
    else Unclosed(s, i + 1, end, open)
  }

  /** The index after the first fence at or after `i`, or -1. */
  function NextClosing(s: string, i: int): (r: int)
    requires 0 <= i
    ensures r == -1 || (i + 3 <= r <= |s| && IsFence(s, r - 3))
    ensures forall k :: i <= k && IsFence(s, k) ==> r != -1 && r <= k + 3
    decreases |s| - i
  {
    if i >= |s| then -1 else if IsFence(s, i) then i + 3 else NextClosing(s, i + 1)
  }

  /** The first newline at or after `i`, or -1. */
  function NewlineFrom(s: string, i: int): (r: int)
    requires 0 <= i
    ensures r == -1 || (i <= r < |s| && s[r] == '\n')
    ensures forall k :: i <= k < |s| && (r == -1 || k < r) ==> s[k] != '\n'
    decreases |s| - i
  {
    if i >= |s| then -1 else if s[i] == '\n' then i else NewlineFrom(s, i + 1)
  }

  /** The fence line starting at `open`, trimmed; only the three backticks on a last, unfinished line. */
  function Header(s: string, open: int): (r: string)
    requires IsFence(s, open)
  {
    var end := NewlineFrom(s, open);
    s[open..if end == -1 then open + 3 else TrimEnd(s, open, end, IsSpace)]
  }

  lemma HeaderIsTrimmedLine(s: string, open: int)
    requires IsFence(s, open)
    ensures var end := NewlineFrom(s, open);
      Header(s, open) == TrimSpace(if end == -1 then s[open..open + 3] else s[open..end])
  {
    var end, h := NewlineFrom(s, open), Header(s, open);
    HeaderFitsLine(s, open);
    var stop := if end == -1 then open + 3 else end;
    assert open + |h| <= stop && forall m :: open + |h| <= m < stop ==> IsSpace(s[m]);
    hide *;
    TrimmedLine(s, open, h, stop);
  }

  lemma TrimmedLine(s: string, open: int, h: string, stop: int)
    requires 0 <= open && open + |h| <= stop <= |s| && h == s[open..open + |h|] && IsFence(h, 0)
    requires !IsSpace(h[|h| - 1]) && forall m :: open + |h| <= m < stop ==> IsSpace(s[m])
    ensures TrimSpace(s[open..stop]) == h
  {
    assert !IsSpace('`');
    hide TrimSpace, IsSpace;
    var line := s[open..stop];
    assert line[..|h|] == h;
    assert line[0] == h[0] && line[|h| - 1] == h[|h| - 1];
    assert forall k :: |h| <= k < |line| ==> line[k] == s[open + k];
  }

  /** The end of the fence line as the splitter computes it. */
  function HeaderEnd(s: string, open: int): int
    requires IsFence(s, open)
  {
    var end := NewlineFrom(s, open);
    if end == -1 then open + |Header(s, open)| else end
  }

  function EffectiveLimit(maxLen: int): (r: int)
    requires maxLen >= 1
    ensures 1 <= r <= maxLen
    ensures maxLen >= 10 ==> 5 <= r <= maxLen - 5
    ensures maxLen <= 4 ==> r <= 2
  {
    var wanted := Max(maxLen / 10, 50);
    var buffer := if wanted > maxLen / 2 then maxLen / 2 else wanted;
    Max(maxLen - buffer, maxLen / 2)
  }

  /** What is held back for a closing fence: a tenth of the chunk but at least 50 runes, and never more than a half. */
  lemma BufferIsReserved(maxLen: int)
    requires maxLen >= 1
    ensures maxLen - EffectiveLimit(maxLen)
         == if maxLen < 100 then maxLen / 2 else if maxLen < 500 then 50 else maxLen / 10
  {
  }

  /** No newline to break at within the newline window of (start, end). */
  ghost predicate NoNewline(s: string, start: int, end: int)
    requires 0 <= start <= end <= |s|
  {
    forall i :: start < i < end && end - 200 <= i ==> !IsNewline(s[i])
  }

  /** A newline, else a space or tab, close before `end`; at most `start` when there is none. */
  function BreakBefore(s: string, start: int, end: int): (r: int)
    requires 0 <= start <= end <= |s|
    ensures start - 1 <= r <= end && (start < end ==> r < end)
    ensures r > start ==> IsNewline(s[r]) || NoNewline(s, start, end)
    ensures r <= start ==> NoNewline(s, start, end)
  {
    var newline := LastInWindow(s, start, end, 200, IsNewline);
    if newline <= start then LastInWindow(s, start, end, 100, IsSpaceOrTab) else newline
  }

  /** The first guess: a natural break within the effective limit, else the limit itself. */
  function NaturalEnd(s: string, start: int, end: int): (r: int)
    requires 0 <= start < end <= |s|
    ensures start < r <= end
    ensures (r < end && IsNewline(s[r])) || NoNewline(s, start, end)
  {
    var r := BreakBefore(s, start, end);
    if r <= start then end else r
  }

  /** What the splitter asks of its caller: no fence line (trimmed) may fill a chunk. A limit below 5 never sees a
      fence, as no break looks further than two runes ahead. */
  ghost predicate CanSplit(s: string, maxLen: int) {
    maxLen >= 1 && (maxLen <= 4 || forall i :: IsFence(s, i) ==> |Header(s, i)| <= maxLen - 7)
  }

  /** Where a block that is too long is cut: a newline behind its fence line, else as late as fits. */
  function InnerEnd(s: string, start: int, open: int, maxLen: int): int
    requires maxLen >= 10 && 0 <= start && start + maxLen < |s| && IsFence(s, open)
  {
    var inner := Min(start + maxLen - 5, |s|);
    var better := LastInWindow(s, start, inner, 200, IsNewline);
    if better > HeaderEnd(s, open) then better else inner
  }

  /** The better break is never earlier than the break first found, so the cut makes progress. */
  lemma InnerEndIsLater(s: string, start: int, open: int, maxLen: int, e: int)
    requires maxLen >= 10 && 0 <= start <= open && start + maxLen < |s| && IsFence(s, open)
    requires e == NaturalEnd(s, start, start + EffectiveLimit(maxLen)) && e > HeaderEnd(s, open)
    ensures e <= InnerEnd(s, start, open, maxLen) <= start + maxLen - 5
  {
    var end, inner := start + EffectiveLimit(maxLen), start + maxLen - 5;
    HeaderFitsLine(s, open);
    var better := LastInWindow(s, start, inner, 200, IsNewline);
  }

  /** The cut when the block opened at `open` is not closed before the first guess `e`. */
  function BlockCut(s: string, start: int, e: int, open: int, maxLen: int): (c: Cut)
    requires maxLen >= 5 && 0 <= start <= open && start + maxLen < |s| && IsFence(s, open) && open + 3 <= e
    requires e == NaturalEnd(s, start, start + EffectiveLimit(maxLen))
    ensures c.Plain? ==> start < c.end <= start + maxLen
    ensures c.Forced? ==> c.open == open && start <= c.end <= start + maxLen - 5
    ensures c.Forced? && maxLen >= 10 ==> open + 3 <= c.end
    ensures c.Forced? ==> |Header(s, open)| + 1 < c.end - start || c.end == start + maxLen - 5
  {
    var closing := NextClosing(s, e);
    if closing > 0 && closing - start <= maxLen then Plain(closing)
    else if e > HeaderEnd(s, open) + 20 then
      HeaderFitsLine(s, open);
      InnerEndIsLater(s, start, open, maxLen, e);
      Forced(InnerEnd(s, start, open, maxLen), open)
    else
      var before := BreakBefore(s, start, open);
      if before > start then Plain(before)
      else if open - start > 20 then Plain(open)
      else Forced(Min(start + maxLen - 5, |s|), open)
  }

  /** One iteration's decision for the text from `start` on, which does not fit one chunk. */
  function NextCut(s: string, start: int, maxLen: int): (c: Cut)
    requires maxLen >= 1 && 0 <= start && start + maxLen < |s|
    ensures c.Plain? ==> start < c.end <= start + maxLen
    ensures c.Forced? ==> maxLen >= 5 && IsFence(s, c.open) && start <= c.open && start <= c.end <= start + maxLen - 5
    ensures c.Forced? && maxLen >= 10 ==> c.open + 3 <= c.end
    ensures c.Forced? ==> |Header(s, c.open)| + 1 < c.end - start || c.end == start + maxLen - 5
  {
    var e := NaturalEnd(s, start, start + EffectiveLimit(maxLen));
    var open := Unclosed(s, start, e, -1);
    if open < 0 then Plain(e) else BlockCut(s, start, e, open, maxLen)
  }

  lemma HeaderFitsLine(s: string, open: int)
    requires IsFence(s, open)
    ensures 3 <= |Header(s, open)| && open + |Header(s, open)| <= HeaderEnd(s, open)
    ensures Header(s, open) == s[open..open + |Header(s, open)|] && IsFence(Header(s, open), 0)
    ensures forall m :: 0 <= m < |Header(s, open)| ==> Header(s, open)[m] != '\n'
    ensures !IsSpace(Header(s, open)[|Header(s, open)| - 1])
    ensures forall m :: open + |Header(s, open)| <= m < HeaderEnd(s, open) ==> IsSpace(s[m])
  {
    var end := NewlineFrom(s, open);
    if end != -1 {
      assert s[end] == '\n';
      assert s[open + 2] == '`';
      assert open + 3 <= TrimEnd(s, open, end, IsSpace);
    }
  }

  /** The text after a cut: leading blanks skipped, or the block reopened under its fence line. */
  function Rest(s: string, c: Cut): (r: (string, int))
    requires 0 <= c.end <= |s| && (c.Forced? ==> IsFence(s, c.open))
    ensures 0 <= r.1 <= |r.0|
  {
    match c
    case Plain(end) => (s, SkipBlanks(s, end))
    case Forced(end, open) => (TrimSpace(Header(s, open) + "\n" + s[end..]), 0)
  }

  function SkipBlanks(s: string, i: int): (r: int)
    requires 0 <= i <= |s|
    ensures i <= r <= |s| && (r < |s| ==> !IsBlank(s[r])) && forall k :: i <= k < r ==> IsBlank(s[k])
    decreases |s| - i
  {
    if i < |s| && IsBlank(s[i]) then SkipBlanks(s, i + 1) else i
  }

  function Chunk(s: string, start: int, c: Cut): string
    requires 0 <= start <= c.end <= |s|
  {
    if c.Plain? then s[start..c.end] else TrimRight(s[start..c.end], IsBlank) + "\n```"
  }

  /** Every cut leaves less text, and the text it leaves can be split again. */
  lemma CutMakesProgress(s: string, start: int, maxLen: int)
    requires CanSplit(s, maxLen) && 0 <= start && start + maxLen < |s|
    ensures var (t, i) := Rest(s, NextCut(s, start, maxLen));
      |t| - i < |s| - start && CanSplit(t, maxLen)
  {
    var c := NextCut(s, start, maxLen);
    if c.Forced? {
      HeaderFitsLine(s, c.open);
      ReopenedStaysSplittable(s, c.end, c.open, maxLen);
    }
  }

  /** The rewritten text starts with the fence line, so trimming only shortens it at the end. */
  lemma ReopenedShape(s: string, end: int, open: int)
    requires IsFence(s, open) && 0 <= end <= |s|
    ensures var h := Header(s, open); var u := h + "\n" + s[end..]; var t := TrimSpace(u);
      |h| <= |t| <= |u| && t == u[..|t|]
  {
    HeaderFitsLine(s, open);
    var h := Header(s, open);
    var u := h + "\n" + s[end..];
    assert u[0] == h[0];
    assert TrimStart(u, 0, |u|, IsSpace) == 0 && u[0..] == u;
    assert u[|h| - 1] == h[|h| - 1];
  }

  /** Equal lines have equal fence headers. */
  lemma SameLine(s: string, k: int, t: string, i: int, d: nat)
    requires 0 <= k && k + d < |s| && 0 <= i && i + d < |t|
    requires forall m :: i <= m <= i + d ==> t[m] == s[m - i + k]
    requires IsFence(t, i) && NewlineFrom(t, i) == i + d
    ensures IsFence(s, k) && Header(s, k) == Header(t, i)
  {
    HeaderFitsLine(t, i);
    var n := |Header(t, i)|;
    assert t[i] == s[k] && t[i + 1] == s[k + 1] && t[i + 2] == s[k + 2] && t[i + d] == s[k + d];
    assert d >= 3;
    assert forall m :: k <= m <= k + d ==> s[m] == t[m - k + i];
    TrimEndIs(s, k, k + d, IsSpace, k + n);
    assert Header(s, k) == s[k..k + n] == t[i..i + n];
  }

  /** A fence inside a fence line has the rest of that line as its header. */
  lemma HeaderSuffix(s: string, open: int, i: int)
    requires IsFence(s, open) && IsFence(Header(s, open), i)
    ensures IsFence(s, open + i) && Header(s, open + i) == Header(s, open)[i..]
  {
    HeaderFitsLine(s, open);
    hide IsSpace;
    var h := Header(s, open);
    assert forall m :: 0 <= m < |h| ==> h[m] == s[open + m];
    var end := NewlineFrom(s, open);
    if end != -1 {
      TrimEndIs(s, open + i, end, IsSpace, open + |h|);
    }
  }

  /** A fence inside the repeated fence line keeps a header of the old text. */
  lemma ReopenedLine(s: string, open: int, t: string, i: int)
    requires IsFence(s, open) && IsFence(t, i) && i < |Header(s, open)| < |t|
    requires forall m :: 0 <= m < |Header(s, open)| ==> t[m] == Header(s, open)[m]
    requires t[|Header(s, open)|] == '\n'
    ensures IsFence(s, open + i) && Header(t, i) == Header(s, open + i)
  {
    var h := Header(s, open);
    HeaderFitsLine(s, open);
    assert IsFence(h, i);
    TrimEndIs(t, i, |h|, IsSpace, |h|);
    HeaderSuffix(s, open, i);
  }

  /** A finished fence line behind the repeated one is a line of the old text. */
  lemma ReopenedTail(s: string, end: int, h: string, t: string, i: int)
    requires 0 <= end <= |s| && t <= h + "\n" + s[end..] && |h| < i && IsFence(t, i) && NewlineFrom(t, i) != -1
    ensures IsFence(s, i - |h| - 1 + end) && Header(t, i) == Header(s, i - |h| - 1 + end)
  {
    var u, nl, k := h + "\n" + s[end..], NewlineFrom(t, i), i - |h| - 1 + end;
    assert forall m :: i <= m <= nl ==> t[m] == u[m] == s[m - i + k];
    SameLine(s, k, t, i, nl - i);
  }

  /** A fence of the rewritten text lies in the repeated line or was a fence of the old text. */
  lemma ReopenedFence(s: string, end: int, open: int, i: int)
    requires IsFence(s, open) && 0 <= end <= |s|
    requires IsFence(TrimSpace(Header(s, open) + "\n" + s[end..]), i)
    ensures var t := TrimSpace(Header(s, open) + "\n" + s[end..]);
      Header(t, i) == "```" || (exists k :: IsFence(s, k) && Header(t, i) == Header(s, k))
  {
    var h := Header(s, open);
    var u := h + "\n" + s[end..];
    var t := TrimSpace(u);
    ReopenedShape(s, end, open);
    if NewlineFrom(t, i) == -1 {
      assert t[i..i + 3] == "```";
    } else if |h| < i {
      ReopenedTail(s, end, h, t, i);
    } else {
      ReopenedHead(s, open, s[end..], t, i);
    }
  }

  lemma ReopenedHead(s: string, open: int, rest: string, t: string, i: int)
    requires IsFence(s, open) && IsFence(t, i) && i <= |Header(s, open)| <= |t| && NewlineFrom(t, i) != -1
    requires t <= Header(s, open) + "\n" + rest
    ensures IsFence(s, open + i) && Header(t, i) == Header(s, open + i)
  {
    var h := Header(s, open);
    var u := h + "\n" + rest;
    HeaderFitsLine(s, open);
    assert forall m :: 0 <= m < |t| ==> t[m] == u[m];
    assert forall m :: 0 <= m < |h| ==> u[m] == h[m];
    assert u[|h|] == '\n' && t[NewlineFrom(t, i)] == '\n' && t[i] == '`';
    ReopenedLine(s, open, t, i);
  }

  lemma ReopenedStaysSplittable(s: string, end: int, open: int, maxLen: int)
    requires CanSplit(s, maxLen) && IsFence(s, open) && 0 <= end <= |s|
    ensures CanSplit(TrimSpace(Header(s, open) + "\n" + s[end..]), maxLen)
  {
    var t := TrimSpace(Header(s, open) + "\n" + s[end..]);
    if maxLen > 4 {
      HeaderFitsLine(s, open);
      forall i | IsFence(t, i)
        ensures |Header(t, i)| <= maxLen - 7
      {
        ReopenedFence(s, end, open, i);
      }
    }
  }

  /** The chunks of s[start..], as SplitMessage emits them. */
  function Chunks(s: string, start: int, maxLen: int): seq<string>
    requires CanSplit(s, maxLen) && 0 <= start <= |s|
    decreases |s| - start
  {
    if start >= |s| then []
    else if |s| - start <= maxLen then [s[start..]]
    else
      CutMakesProgress(s, start, maxLen);
      var c := NextCut(s, start, maxLen);
      var (t, i) := Rest(s, c);
      [Chunk(s, start, c)] + Chunks(t, i, maxLen)
  }

  lemma {:induction false} ChunksFit(s: string, start: int, maxLen: int)
    requires CanSplit(s, maxLen) && 0 <= start <= |s|
    ensures forall c :: c in Chunks(s, start, maxLen) ==> 0 < |c| <= maxLen
    decreases |s| - start
  {
    if |s| - start > maxLen {
      CutMakesProgress(s, start, maxLen);
      var (t, i) := Rest(s, NextCut(s, start, maxLen));
      ChunksFit(t, i, maxLen);
    }
  }

  /** Text put into the stripped message at a position of the output. */
  datatype Insertion = Insertion(at: nat, text: string)

  function Insert(s: string, ins: Insertion): string {
    if ins.at <= |s| then s[..ins.at] + ins.text + s[ins.at..] else s
  }

  function InsertAll(s: string, ins: seq<Insertion>): string
    decreases |ins|
  {
    if ins == [] then s else InsertAll(Insert(s, ins[0]), ins[1..])
  }

  /** What a cut inserts when `done` stripped runes are out once its part is emitted: nothing, or one seam. */
  function SeamOf(s: string, c: Cut, done: nat): seq<Insertion>
    requires c.Forced? ==> IsFence(s, c.open)
  {
    if c.Plain? then [] else [Insertion(done, "```" + Strip(Header(s, c.open)))]
  }

  /** The first chunk, and what is left to do. */
  lemma FirstChunk(s: string, start: int, maxLen: int)
    requires CanSplit(s, maxLen) && 0 <= start && start + maxLen < |s|
    ensures var c := NextCut(s, start, maxLen); var (t, i) := Rest(s, c);
      |t| - i < |s| - start && CanSplit(t, maxLen)
      && Chunks(s, start, maxLen) == [Chunk(s, start, c)] + Chunks(t, i, maxLen)
  {
    hide Header, NextCut, Chunk, TrimSpace, SkipBlanks, IsFence;
    CutMakesProgress(s, start, maxLen);
  }

  /** What the forced cuts insert when `done` stripped runes have been emitted: a fence and the fence line. */
  ghost function Seams(s: string, start: int, maxLen: int, done: nat): seq<Insertion>
    requires CanSplit(s, maxLen) && 0 <= start <= |s|
    decreases |s| - start
  {
    if |s| - start <= maxLen then []
    else
      CutMakesProgress(s, start, maxLen);
      var c := NextCut(s, start, maxLen);
      var (t, i) := Rest(s, c);
      SeamOf(s, c, done + |Strip(s[start..c.end])|) + Seams(t, i, maxLen, done + |Strip(Chunk(s, start, c))|)
  }

  lemma StripRest(s: string, end: int)
    requires 0 <= end <= |s|
    ensures Strip(s[SkipBlanks(s, end)..]) == Strip(s[end..])
  {
    var i := SkipBlanks(s, end);
    assert s[end..] == s[end..i] + s[i..];
    StripConcat(s[end..i], s[i..]);
    StripOfSpace(s[end..i]);
  }

  lemma StripReopened(h: string, rest: string)
    ensures Strip(TrimSpace(h + "\n" + rest)) == Strip(h) + Strip(rest)
  {
    StripTrimSpace(h + "\n" + rest);
    StripConcat(h + "\n", rest);
    StripConcat(h, "\n");
  }

  lemma StripChunk(s: string, start: int, c: Cut)
    requires 0 <= start <= c.end <= |s|
    ensures Strip(Chunk(s, start, c)) == Strip(s[start..c.end]) + (if c.Plain? then "" else "```")
  {
    if c.Forced? {
      StripTrimRight(s[start..c.end], IsBlank);
      StripConcat(TrimRight(s[start..c.end], IsBlank), "\n```");
      assert Strip("\n```") == "```" by {
        StripConcat("\n", "```");
        StripConcat("`", "``");
        StripConcat("`", "`");
      }
    }
  }

  lemma {:induction false} StripOneCut(s: string, start: int, c: Cut, before: string)
    requires 0 <= start <= c.end <= |s| && (c.Forced? ==> IsFence(s, c.open))
    ensures var (t, i) := Rest(s, c);
      InsertAll(before + Strip(s[start..]), SeamOf(s, c, |before| + |Strip(s[start..c.end])|))
      == before + Strip(Chunk(s, start, c)) + Strip(t[i..])
  {
    var (t, i) := Rest(s, c);
    var part, rest := Strip(s[start..c.end]), Strip(s[c.end..]);
    var seams := SeamOf(s, c, |before| + |part|);
    if c.Plain? {
      assert t[i..] == s[SkipBlanks(s, c.end)..] && seams == [];
      hide *;
      StripHalves(s, start, c.end);
      StripChunk(s, start, c);
      StripRest(s, c.end);
      Assoc(before, part, rest);
    } else {
      assert t[i..] == TrimSpace(Header(s, c.open) + "\n" + s[c.end..]);
      assert seams == [Insertion(|before| + |part|, "```" + Strip(Header(s, c.open)))];
      hide *;
      StripHalves(s, start, c.end);
      StripChunk(s, start, c);
      StripReopened(Header(s, c.open), s[c.end..]);
      InsertSeam(before, part, rest, "```", Strip(Header(s, c.open)));
    }
  }

  lemma StripHalves(s: string, start: int, end: int)
    requires 0 <= start <= end <= |s|
    ensures Strip(s[start..]) == Strip(s[start..end]) + Strip(s[end..])
  {
    StripConcat(s[start..end], s[end..]);
    assert s[start..] == s[start..end] + s[end..];
  }

  lemma Assoc(a: string, b: string, c: string)
    ensures a + (b + c) == a + b + c
  {
  }

  lemma {:induction false} InsertSeam(before: string, part: string, rest: string, fence: string, h: string)
    ensures InsertAll(before + (part + rest), [Insertion(|before| + |part|, fence + h)])
         == before + (part + fence) + (h + rest)
  {
    Assoc(before, part, rest);
  }

  lemma {:induction false} InsertAllConcat(s: string, a: seq<Insertion>, b: seq<Insertion>)
    ensures InsertAll(s, a + b) == InsertAll(InsertAll(s, a), b)
    decreases |a|
  {
    if a == [] {
      assert a + b == b;
    } else {
      assert (a + b)[0] == a[0] && (a + b)[1..] == a[1..] + b;
      InsertAllConcat(Insert(s, a[0]), a[1..], b);
    }
  }

  /** The first cut, the chunk and the seam it emits, and what is left to do. */
  lemma OneCut(s: string, start: int, maxLen: int, done: nat) returns (c: Cut, t: string, i: int)
    requires CanSplit(s, maxLen) && 0 <= start && start + maxLen < |s|
    ensures c == NextCut(s, start, maxLen) && start <= c.end <= |s| && (c.Forced? ==> IsFence(s, c.open))
    ensures (t, i) == Rest(s, c) && 0 <= i <= |t| && |t| - i < |s| - start && CanSplit(t, maxLen)
    ensures Chunks(s, start, maxLen) == [Chunk(s, start, c)] + Chunks(t, i, maxLen)
    ensures Seams(s, start, maxLen, done)
         == SeamOf(s, c, done + |Strip(s[start..c.end])|) + Seams(t, i, maxLen, done + |Strip(Chunk(s, start, c))|)
  {
    hide Strip, Header, NextCut, SeamOf, Chunk, IsFence, TrimSpace, SkipBlanks;
    CutMakesProgress(s, start, maxLen);
    c := NextCut(s, start, maxLen);
    t, i := Rest(s, c).0, Rest(s, c).1;
  }

  lemma LastChunkAccounts(s: string, start: int, maxLen: int, before: string)
    requires CanSplit(s, maxLen) && 0 <= start <= |s| && |s| - start <= maxLen
    ensures InsertAll(before + Strip(s[start..]), Seams(s, start, maxLen, |before|))
         == before + Strip(Flatten(Chunks(s, start, maxLen)))
  {
    hide Strip, NextCut, Header;
    FlattenCons(s[start..], []);
    assert start == |s| ==> s[start..] == "";
    assert s[start..] + "" == s[start..];
  }

  /** Ignoring white space, the chunks are the message with the seams inserted: nothing else is lost or added. */
  lemma {:induction false} ChunksAccount(s: string, start: int, maxLen: int, before: string)
    requires CanSplit(s, maxLen) && 0 <= start <= |s|
    ensures InsertAll(before + Strip(s[start..]), Seams(s, start, maxLen, |before|))
         == before + Strip(Flatten(Chunks(s, start, maxLen)))
    decreases |s| - start
  {
    hide *;
    if |s| - start <= maxLen {
      LastChunkAccounts(s, start, maxLen, before);
    } else {
      var c, t, i := OneCut(s, start, maxLen, |before|);
      var chunk, after := Chunk(s, start, c), Flatten(Chunks(t, i, maxLen));
      var x, y := SeamOf(s, c, |before| + |Strip(s[start..c.end])|), Seams(t, i, maxLen, |before| + |Strip(chunk)|);
      FlattenCons(chunk, Chunks(t, i, maxLen));
      ChunksAccount(t, i, maxLen, before + Strip(chunk));
      StripOneCut(s, start, c, before);
      InsertAllConcat(before + Strip(s[start..]), x, y);
      StripConcat(chunk, after);
      Assoc(before, Strip(chunk), Strip(after));
    }
  }

  lemma MessageAccounts(s: string, maxLen: int)
    requires CanSplit(s, maxLen)
    ensures InsertAll(Strip(s), Seams(s, 0, maxLen, 0)) == Strip(Flatten(Chunks(s, 0, maxLen)))
  {
    hide *;
    assert s[0..] == s;
    ChunksAccount(s, 0, maxLen, "");
    assert "" + Strip(s) == Strip(s);
    assert "" + Strip(Flatten(Chunks(s, 0, maxLen))) == Strip(Flatten(Chunks(s, 0, maxLen)));
  }

  /** A closing fence followed by a fence line of the message, or by a bare fence. */
  ghost predicate IsSeamOf(s: string, x: Insertion) {
    x.text == "```" + Strip("```") || exists k :: IsFence(s, k) && x.text == "```" + Strip(Header(s, k))
  }

  lemma SeamBeforeCut(s: string, c: Cut, x: Insertion)
    requires 0 <= c.end <= |s| && (c.Forced? ==> IsFence(s, c.open)) && IsSeamOf(Rest(s, c).0, x)
    ensures IsSeamOf(s, x)
  {
    var t := Rest(s, c).0;
    if c.Forced? && x.text != "```" + Strip("```") {
      var m :| IsFence(t, m) && x.text == "```" + Strip(Header(t, m));
      ReopenedFence(s, c.end, c.open, m);
    }
  }

  /** Every seam repeats a fence line of the message. */
  lemma {:induction false} SeamsRepeatFenceLines(s: string, start: int, maxLen: int, done: nat)
    requires CanSplit(s, maxLen) && 0 <= start <= |s|
    ensures forall x :: x in Seams(s, start, maxLen, done) ==> IsSeamOf(s, x)
    decreases |s| - start
  {
    hide *;
    if |s| - start > maxLen {
      var c, t, i := OneCut(s, start, maxLen, done);
      SeamsRepeatFenceLines(t, i, maxLen, done + |Strip(Chunk(s, start, c))|);
      SeamOfIsSeam(s, c, done + |Strip(s[start..c.end])|);
      forall x | IsSeamOf(t, x)
        ensures IsSeamOf(s, x)
      {
        SeamBeforeCut(s, c, x);
      }
    } else {
      NoSeams(s, start, maxLen, done);
    }
  }

  lemma SeamOfIsSeam(s: string, c: Cut, done: nat)
    requires c.Forced? ==> IsFence(s, c.open)
    ensures forall x :: x in SeamOf(s, c, done) ==> IsSeamOf(s, x)
  {
  }

  lemma NoSeams(s: string, start: int, maxLen: int, done: nat)
    requires CanSplit(s, maxLen) && 0 <= start <= |s| && |s| - start <= maxLen
    ensures Seams(s, start, maxLen, done) == []
  {
  }

  /** Chunks with the text between them. */
  function Interleave(chunks: seq<string>, gaps: seq<string>): string {
    if chunks == [] then ""
    else chunks[0] + (if gaps == [] then "" else gaps[0] + Interleave(chunks[1..], gaps[1..]))
  }

  ghost predicate NoFences(s: string) {
    forall i :: !IsFence(s, i)
  }

  /** The blanks skipped behind each chunk of a message without fences. */
  ghost function Gaps(s: string, start: int, maxLen: int): seq<string>
    requires maxLen >= 1 && 0 <= start <= |s| && NoFences(s)
    decreases |s| - start
  {
    if |s| - start <= maxLen then []
    else
      var c := NextCut(s, start, maxLen);
      [s[c.end..SkipBlanks(s, c.end)]] + Gaps(s, SkipBlanks(s, c.end), maxLen)
  }

  lemma {:induction false} GapsAreBlank(s: string, start: int, maxLen: int)
    requires maxLen >= 1 && 0 <= start <= |s| && NoFences(s)
    ensures forall g, k :: g in Gaps(s, start, maxLen) && 0 <= k < |g| ==> IsBlank(g[k])
    decreases |s| - start
  {
    if |s| - start > maxLen {
      var c := NextCut(s, start, maxLen);
      hide NextCut, NoFences, IsBlank;
      GapsAreBlank(s, SkipBlanks(s, c.end), maxLen);
    }
  }

  /** A message without fences is its chunks with only blanks between them, rune for rune. */
  lemma {:induction false} PlainTextIsKept(s: string, start: int, maxLen: int)
    requires maxLen >= 1 && 0 <= start <= |s| && NoFences(s) && CanSplit(s, maxLen)
    ensures Interleave(Chunks(s, start, maxLen), Gaps(s, start, maxLen)) == s[start..]
    decreases |s| - start
  {
    hide *;
    if |s| - start <= maxLen {
      LastChunkIsKept(s, start, maxLen);
    } else {
      var c, i := PlainCut(s, start, maxLen);
      PlainTextIsKept(s, i, maxLen);
      InterleaveCons(s[start..c.end], Chunks(s, i, maxLen), s[c.end..i], Gaps(s, i, maxLen));
      assert s[start..] == s[start..c.end] + (s[c.end..i] + s[i..]);
    }
  }

  lemma LastChunkIsKept(s: string, start: int, maxLen: int)
    requires maxLen >= 1 && 0 <= start <= |s| && NoFences(s) && CanSplit(s, maxLen) && |s| - start <= maxLen
    ensures Interleave(Chunks(s, start, maxLen), Gaps(s, start, maxLen)) == s[start..]
  {
    hide NoFences, CanSplit;
  }

  lemma InterleaveCons(chunk: string, chunks: seq<string>, gap: string, gaps: seq<string>)
    ensures Interleave([chunk] + chunks, [gap] + gaps) == chunk + (gap + Interleave(chunks, gaps))
  {
    assert ([chunk] + chunks)[1..] == chunks && ([gap] + gaps)[1..] == gaps;
  }

  lemma PlainCut(s: string, start: int, maxLen: int) returns (c: Cut, i: int)
    requires maxLen >= 1 && 0 <= start && start + maxLen < |s| && NoFences(s) && CanSplit(s, maxLen)
    ensures start < c.end <= i <= |s| && forall k :: c.end <= k < i ==> IsBlank(s[k])
    ensures Chunks(s, start, maxLen) == [s[start..c.end]] + Chunks(s, i, maxLen)
    ensures Gaps(s, start, maxLen) == [s[c.end..i]] + Gaps(s, i, maxLen)
  {
    hide IsBlank;
    c := NextCut(s, start, maxLen);
    i := SkipBlanks(s, c.end);
  }

  /** One round of the splitting loop; the text is used up when the index reaches its end. */
  ghost function Round(s: string, start: int, maxLen: int): (r: (string, int))
    requires maxLen >= 1 && 0 <= start <= |s|
    ensures 0 <= r.1 <= |r.0|
  {
    if |s| - start <= maxLen then (s, |s|) else Rest(s, NextCut(s, start, maxLen))
  }

  ghost function Rounds(s: string, start: int, maxLen: int, n: nat): (r: (string, int))
    requires maxLen >= 1 && 0 <= start <= |s|
    ensures 0 <= r.1 <= |r.0|
    decreases n
  {
    if n == 0 then (s, start) else var (t, i) := Round(s, start, maxLen); Rounds(t, i, maxLen, n - 1)
  }

  ghost predicate Terminates(s: string, start: int, maxLen: int)
    requires maxLen >= 1 && 0 <= start <= |s|
  {
    exists n: nat :: Rounds(s, start, maxLen, n).1 == |Rounds(s, start, maxLen, n).0|
  }

  lemma {:induction false} SplittableTextEnds(s: string, start: int, maxLen: int)
    requires CanSplit(s, maxLen) && 0 <= start <= |s|
    ensures Terminates(s, start, maxLen)
    decreases |s| - start
  {
    if start == |s| {
      assert Rounds(s, start, maxLen, 0) == (s, start);
    } else {
      if |s| - start > maxLen {
        CutMakesProgress(s, start, maxLen);
      }
      var (t, i) := Round(s, start, maxLen);
      SplittableTextEnds(t, i, maxLen);
      TerminatesNext(s, start, maxLen);
    }
  }

  /** One round decides nothing. */
  lemma TerminatesNext(s: string, start: int, maxLen: int)
    requires maxLen >= 1 && 0 <= start <= |s|
    ensures var (t, i) := Round(s, start, maxLen); Terminates(s, start, maxLen) <==> Terminates(t, i, maxLen)
  {
    var (t, i) := Round(s, start, maxLen);
    if n: nat :| Rounds(s, start, maxLen, n).1 == |Rounds(s, start, maxLen, n).0| {
      if n == 0 {
        assert Rounds(t, i, maxLen, 0) == (t, i) == (s, start);
      } else {
        assert Rounds(t, i, maxLen, n - 1) == Rounds(s, start, maxLen, n);
      }
    }
    if n: nat :| Rounds(t, i, maxLen, n).1 == |Rounds(t, i, maxLen, n).0| {
      assert Rounds(s, start, maxLen, n + 1) == Rounds(t, i, maxLen, n);
    }
  }

  /** From `start` on a block opens that no fence closes within a chunk, and even without the white space at the end
      of the message the rest fills more than a chunk. */
  ghost predicate OpenBlock(s: string, start: int, maxLen: int) {
    && 0 <= start && IsFence(s, start) && TrimEnd(s, 0, |s|, IsSpace) > start + maxLen
    && forall k :: start < k <= start + maxLen - 3 ==> !IsFence(s, k)
  }

  /** What a cut in the middle of such a block leaves: the fence line and the runes behind the cut. */
  ghost function Reopened(s: string, start: int, maxLen: int): string
    requires maxLen >= 5 && OpenBlock(s, start, maxLen)
  {
    Header(s, start) + "\n" + s[start + maxLen - 5..TrimEnd(s, 0, |s|, IsSpace)]
  }

  lemma OpenBlockCut(s: string, start: int, maxLen: int)
    requires maxLen >= 5 && OpenBlock(s, start, maxLen) && |Header(s, start)| >= maxLen - 6
    ensures NextCut(s, start, maxLen) == Forced(start + maxLen - 5, start)
  {
    hide *;
    var e := OpenBlockBreak(s, start, maxLen);
    CutAtOpen(s, start, e, maxLen);
  }

  /** The first break falls behind the three backticks. */
  lemma OpenBlockBreak(s: string, start: int, maxLen: int) returns (e: int)
    requires maxLen >= 5 && OpenBlock(s, start, maxLen)
    ensures |s| > start + maxLen && e == NaturalEnd(s, start, start + EffectiveLimit(maxLen))
    ensures start + 3 <= e <= start + Max(maxLen - 5, 5) && Unclosed(s, start, e, -1) == start
  {
    hide TrimEnd, NaturalEnd;
    var end := start + EffectiveLimit(maxLen);
    e := NaturalEnd(s, start, end);
    BreakIsBlank(s, start, end);
    NoneUnclosed(s, start + 3, e, start);
  }

  lemma BreakIsBlank(s: string, start: int, end: int)
    requires 0 <= start < end <= |s|
    ensures var e := NaturalEnd(s, start, end); e == end || IsNewline(s[e]) || IsSpaceOrTab(s[e])
  {
    hide FindLast;
  }

  lemma CutAtOpen(s: string, start: int, e: int, maxLen: int)
    requires maxLen >= 5 && OpenBlock(s, start, maxLen) && |Header(s, start)| >= maxLen - 6
    requires |s| > start + maxLen && e == NaturalEnd(s, start, start + EffectiveLimit(maxLen))
    requires start + 3 <= e <= start + Max(maxLen - 5, 5) && Unclosed(s, start, e, -1) == start
    ensures NextCut(s, start, maxLen) == Forced(start + maxLen - 5, start)
  {
    hide TrimEnd, Header, NaturalEnd, EffectiveLimit, NextClosing, Unclosed, NewlineFrom;
    HeaderFitsLine(s, start);
  }

  lemma {:induction false} NoneUnclosed(s: string, i: int, end: int, open: int)
    requires 0 <= i && end <= |s| && forall k :: i <= k < end - 2 ==> !IsFence(s, k)
    ensures Unclosed(s, i, end, open) == open
    decreases end - i
  {
    if i < end {
      NoneUnclosed(s, i + 1, end, open);
    }
  }

  /* ---- where the chunks end ---- */

  /** The only fences that start in the chunk's range are those at `open` and `close`. */
  ghost predicate OneBlock(s: string, start: int, maxLen: int, open: int, close: int) {
    && 0 <= start <= open && open + 3 <= close && close + 3 <= start + maxLen
    && forall k :: start <= k <= start + maxLen - 3 ==> (IsFence(s, k) <==> k == open || k == close)
  }

  /** Rune `limit` is not the second or third of the fence at `k`. */
  predicate Misses(limit: int, k: int) {
    limit <= k || limit >= k + 3
  }

  /** A break inside the closing fence leaves the block open. It then goes to the next chunk as a whole, if little of it
      lies in front of the break and there is something to send without it. */
  ghost predicate GoesToNext(s: string, start: int, open: int, e: int)
    requires IsFence(s, open) && 0 <= start <= open
  {
    && e <= HeaderEnd(s, open) + 20
    && (open - start > 20 || exists i :: LineEndNear(s, start, open, i) || BlankNear(s, start, open, i))
  }

  /** Exactly when a block that fits is kept whole: the first break must not fall inside its opening fence, nor inside
      its closing fence unless the block goes to the next chunk. */
  lemma BlockIsKeptExactly(s: string, start: int, maxLen: int, open: int, close: int, e: int)
    requires maxLen >= 1 && 0 <= start && start + maxLen < |s| && OneBlock(s, start, maxLen, open, close)
    requires e == NaturalEnd(s, start, start + EffectiveLimit(maxLen))
    ensures IsFence(s, open)
    ensures var c := NextCut(s, start, maxLen);
      (c.Plain? && (c.end <= open || c.end >= close + 3))
      <==> (Misses(e, open) && (Misses(e, close) || GoesToNext(s, start, open, e)))
  {
    hide *;
    BlockFences(s, start, maxLen, open, close, e);
    if !Misses(e, open) {
      CutInFence(s, start, maxLen, open, close, e);
    } else if Misses(e, close) {
      CutBesideBlock(s, start, maxLen, open, close, e);
    } else {
      OpenAtClosing(s, start, maxLen, open, close, e);
      BreakEnds(s, start, open);
      MovedOrSplit(s, start, open, maxLen, e);
    }
  }

  lemma BlockFences(s: string, start: int, maxLen: int, open: int, close: int, e: int)
    requires OneBlock(s, start, maxLen, open, close)
    ensures IsFence(s, open) && IsFence(s, close) && 0 <= start <= open && open + 3 <= close
    ensures Misses(e, open) <==> e <= open || e >= open + 3
    ensures Misses(e, close) <==> e <= close || e >= close + 3
  {
  }

  /** A block that fits and is cut: with a limit of 10 the first break, behind five runes, is in its closing fence. */
  lemma BlockInReachIsCut()
    ensures var s := "```a```bbbb"; var c := NextCut(s, 0, 10);
      OneBlock(s, 0, 10, 0, 4) && !(c.Plain? && (c.end <= 0 || c.end >= 7))
  {
    hide NextCut, NaturalEnd, HeaderEnd;
    var s := "```a```bbbb";
    BreakEnds(s, 0, 5);
    assert forall i :: !LineEndNear(s, 0, 5, i) && !BlankNear(s, 0, 5, i);
    BlockIsKeptExactly(s, 0, 10, 0, 4, NaturalEnd(s, 0, 5));
  }

  /** A block that fits is kept whole: the chunk is text of the message that ends in front of the block or behind it,
      and right behind it when the block reaches past the effective limit. */
  lemma BlockThatFitsIsKept(s: string, start: int, maxLen: int, open: int, close: int, e: int) returns (end: int)
    requires maxLen >= 1 && CanSplit(s, maxLen) && 0 <= start && start + maxLen < |s|
    requires OneBlock(s, start, maxLen, open, close) && e == NaturalEnd(s, start, start + EffectiveLimit(maxLen))
    requires Misses(e, open) && Misses(e, close)
    ensures start < end <= start + maxLen && Chunks(s, start, maxLen)[0] == s[start..end]
    ensures end <= open || end >= close + 3
    ensures start + EffectiveLimit(maxLen) <= close ==> end <= open || end == close + 3
  {
    hide *;
    CutBesideBlock(s, start, maxLen, open, close, e);
    end := PlainChunk(s, start, maxLen);
  }

  lemma PlainChunk(s: string, start: int, maxLen: int) returns (end: int)
    requires CanSplit(s, maxLen) && 0 <= start && start + maxLen < |s| && NextCut(s, start, maxLen).Plain?
    ensures NextCut(s, start, maxLen) == Plain(end) && start < end <= start + maxLen
    ensures Chunks(s, start, maxLen)[0] == s[start..end]
  {
    hide NextCut, CanSplit, Rest;
    FirstChunk(s, start, maxLen);
    end := NextCut(s, start, maxLen).end;
  }

  lemma CutBesideBlock(s: string, start: int, maxLen: int, open: int, close: int, e: int)
    requires maxLen >= 1 && 0 <= start && start + maxLen < |s| && OneBlock(s, start, maxLen, open, close)
    requires e == NaturalEnd(s, start, start + EffectiveLimit(maxLen)) && Misses(e, open) && Misses(e, close)
    ensures var c := NextCut(s, start, maxLen); c.Plain? && (c.end <= open || c.end >= close + 3)
    ensures var c := NextCut(s, start, maxLen);
      start + EffectiveLimit(maxLen) <= close ==> c.end <= open || c.end == close + 3
  {
    hide *;
    OpenInBlock(s, start, maxLen, open, close, e);
    if open < e <= close {
      FirstClosing(s, start, maxLen, open, close, e);
    }
    CutAtBreak(s, start, maxLen, open, close, e);
  }

  lemma CutInFence(s: string, start: int, maxLen: int, open: int, close: int, e: int)
    requires maxLen >= 1 && 0 <= start && start + maxLen < |s| && OneBlock(s, start, maxLen, open, close)
    requires e == NaturalEnd(s, start, start + EffectiveLimit(maxLen)) && open < e < open + 3
    ensures NextCut(s, start, maxLen) == Plain(e)
  {
    hide NaturalEnd, EffectiveLimit, IsFence, Unclosed;
    NoneUnclosed(s, start, e, -1);
  }

  lemma OpenAtClosing(s: string, start: int, maxLen: int, open: int, close: int, e: int)
    requires maxLen >= 1 && 0 <= start && start + maxLen < |s| && OneBlock(s, start, maxLen, open, close)
    requires e == NaturalEnd(s, start, start + EffectiveLimit(maxLen)) && close < e < close + 3
    ensures open + 3 <= e && maxLen >= 6 && Unclosed(s, start, e, -1) == open
    ensures NextClosing(s, e) == -1 || NextClosing(s, e) - start > maxLen
  {
    hide NaturalEnd, EffectiveLimit, Unclosed, NextClosing;
    UnclosedFrom(s, start, open, e, -1);
    UnclosedAt(s, open, e, -1);
    NoneUnclosed(s, open + 3, e, open);
  }

  /** What becomes of a block left open: split, or moved when something can be sent without it. */
  lemma MovedOrSplit(s: string, start: int, open: int, maxLen: int, e: int)
    requires maxLen >= 5 && 0 <= start <= open && start + maxLen < |s| && IsFence(s, open) && open + 3 <= e
    requires e == NaturalEnd(s, start, start + EffectiveLimit(maxLen))
    requires Unclosed(s, start, e, -1) == open && (NextClosing(s, e) == -1 || NextClosing(s, e) - start > maxLen)
    requires var r := BreakBefore(s, start, open); EndsAtBreak(s, start, open, if r <= start then -1 else r, -1)
    ensures var c := NextCut(s, start, maxLen); c.Plain? ==> c.end <= open
    ensures NextCut(s, start, maxLen).Plain? <==> GoesToNext(s, start, open, e)
  {
    hide NaturalEnd, EffectiveLimit, InnerEnd, BreakBefore, HeaderEnd, NextClosing, Unclosed;
  }

  /** The cut once the first break and the block open there are known. */
  lemma CutAtBreak(s: string, start: int, maxLen: int, open: int, close: int, e: int)
    requires start + maxLen < |s| && OneBlock(s, start, maxLen, open, close)
    requires e == NaturalEnd(s, start, start + EffectiveLimit(maxLen))
    requires Misses(e, open) && Misses(e, close) && Unclosed(s, start, e, -1) == if open < e <= close then open else -1
    requires open < e <= close ==> NextClosing(s, e) == close + 3
    ensures var c := NextCut(s, start, maxLen); c.Plain? && (c.end <= open || c.end >= close + 3)
    ensures var c := NextCut(s, start, maxLen);
      start + EffectiveLimit(maxLen) <= close ==> c.end <= open || c.end == close + 3
  {
    hide NaturalEnd, EffectiveLimit, Header, NextClosing, Unclosed, NewlineFrom, IsFence;
  }

  lemma FirstClosing(s: string, start: int, maxLen: int, open: int, close: int, e: int)
    requires OneBlock(s, start, maxLen, open, close) && open < e <= close && Misses(e, open)
    ensures NextClosing(s, e) == close + 3
  {
    hide NextClosing;
    assert IsFence(s, close);
    assert forall k :: e <= k < close ==> !IsFence(s, k);
  }

  lemma OpenInBlock(s: string, start: int, maxLen: int, open: int, close: int, e: int)
    requires OneBlock(s, start, maxLen, open, close) && start <= e <= start + maxLen <= |s|
    requires Misses(e, open) && Misses(e, close)
    ensures Unclosed(s, start, e, -1) == if open < e <= close then open else -1
  {
    hide Unclosed;
    if e <= open {
      UnclosedFrom(s, start, e, e, -1);
      NoneUnclosed(s, e, e, -1);
    } else {
      assert IsFence(s, open);
      UnclosedFrom(s, start, open, e, -1);
      UnclosedAt(s, open, e, -1);
      if e <= close {
        NoneUnclosed(s, open + 3, e, open);
      } else {
        assert IsFence(s, close);
        UnclosedFrom(s, open + 3, close, e, open);
        UnclosedAt(s, close, e, open);
        NoneUnclosed(s, close + 3, e, -1);
      }
    }
  }

  lemma UnclosedAt(s: string, i: int, end: int, open: int)
    requires IsFence(s, i) && i + 3 <= end <= |s|
    ensures Unclosed(s, i, end, open) == Unclosed(s, i + 3, end, if open < 0 then i else -1)
  {
  }

  lemma {:induction false} UnclosedFrom(s: string, i: int, m: int, end: int, open: int)
    requires 0 <= i <= m <= end <= |s| && forall k :: i <= k < m ==> !IsFence(s, k)
    ensures Unclosed(s, i, end, open) == Unclosed(s, m, end, open)
    decreases m - i
  {
    if i < m {
      UnclosedFrom(s, i + 1, m, end, open);
    }
  }

  /** Rune `i` is a line end in the last 200 runes of (start, hi). */
  predicate LineEndNear(s: string, start: int, hi: int, i: int)
    requires 0 <= start && hi <= |s|
  {
    start < i < hi && hi - 200 <= i && s[i] == '\n'
  }

  /** Rune `i` is a blank or tab in the last 100 runes of (start, hi). */
  predicate BlankNear(s: string, start: int, hi: int, i: int)
    requires 0 <= start && hi <= |s|
  {
    start < i < hi && hi - 100 <= i && (s[i] == ' ' || s[i] == '\t')
  }

  /** `end` is the last line end near `hi`, or without one the last blank, or without one `otherwise`. */
  ghost predicate EndsAtBreak(s: string, start: int, hi: int, end: int, otherwise: int)
    requires 0 <= start && hi <= |s|
  {
    if exists i :: LineEndNear(s, start, hi, i) then
      LineEndNear(s, start, hi, end) && forall i :: LineEndNear(s, start, hi, i) ==> i <= end
    else if exists i :: BlankNear(s, start, hi, i) then
      BlankNear(s, start, hi, end) && forall i :: BlankNear(s, start, hi, i) ==> i <= end
    else end == otherwise
  }

  lemma BreakEnds(s: string, start: int, hi: int)
    requires 0 <= start <= hi <= |s|
    ensures var r := BreakBefore(s, start, hi); EndsAtBreak(s, start, hi, if r <= start then -1 else r, -1)
    ensures start < hi ==> EndsAtBreak(s, start, hi, NaturalEnd(s, start, hi), hi)
  {
    var newline := LastInWindow(s, start, hi, 200, IsNewline);
    var blank := LastInWindow(s, start, hi, 100, IsSpaceOrTab);
    assert newline > start ==> LineEndNear(s, start, hi, newline) by {
      WindowHolds(s, start, hi, 200, IsNewline);
    }
    assert blank > start ==> BlankNear(s, start, hi, blank) by {
      WindowHolds(s, start, hi, 100, IsSpaceOrTab);
    }
    hide LastInWindow;
  }

  lemma WindowHolds(s: string, start: int, hi: int, window: nat, p: char -> bool)
    requires 0 <= start <= hi <= |s|
    ensures var r := LastInWindow(s, start, hi, window, p); r >= start ==> hi - window <= r < hi
  {
    hide FindLast;
  }

  /** Text without fences in reach is cut at its last line end near the effective limit, else at its last blank. */
  lemma PlainTextEndsAtBreak(s: string, start: int, maxLen: int) returns (end: int)
    requires maxLen >= 1 && CanSplit(s, maxLen) && 0 <= start && start + maxLen < |s|
    requires forall k :: start <= k <= start + EffectiveLimit(maxLen) - 3 ==> !IsFence(s, k)
    ensures start < end <= start + maxLen && Chunks(s, start, maxLen)[0] == s[start..end]
    ensures var limit := start + EffectiveLimit(maxLen); EndsAtBreak(s, start, limit, end, limit)
  {
    hide *;
    BreakEnds(s, start, start + EffectiveLimit(maxLen));
    CutWithoutFences(s, start, maxLen);
    end := PlainChunk(s, start, maxLen);
  }

  lemma CutWithoutFences(s: string, start: int, maxLen: int)
    requires maxLen >= 1 && 0 <= start && start + maxLen < |s|
    requires forall k :: start <= k <= start + EffectiveLimit(maxLen) - 3 ==> !IsFence(s, k)
    ensures NextCut(s, start, maxLen) == Plain(NaturalEnd(s, start, start + EffectiveLimit(maxLen)))
  {
    hide NaturalEnd, EffectiveLimit, IsFence, Unclosed;
    NoneUnclosed(s, start, NaturalEnd(s, start, start + EffectiveLimit(maxLen)), -1);
  }

  /** The only fence in the chunk's range is the one at `open`. */
  ghost predicate OneOpen(s: string, start: int, maxLen: int, open: int) {
    && 0 <= start <= open && open + 3 <= start + maxLen
    && forall k :: start <= k <= start + maxLen - 3 ==> (IsFence(s, k) <==> k == open)
  }

  lemma OpenCut(s: string, start: int, maxLen: int, open: int, e: int)
    requires maxLen >= 10 && 0 <= start && start + maxLen < |s| && OneOpen(s, start, maxLen, open)
    requires e == NaturalEnd(s, start, start + EffectiveLimit(maxLen)) && e >= open + 3
    ensures start <= open && IsFence(s, open) && Unclosed(s, start, e, -1) == open
    ensures NextClosing(s, e) == -1 || NextClosing(s, e) - start > maxLen
  {
    hide NaturalEnd, EffectiveLimit, BlockCut, Unclosed, NextClosing;
    UnclosedFrom(s, start, open, e, -1);
    UnclosedAt(s, open, e, -1);
    NoneUnclosed(s, open + 3, e, open);
  }

  /** A block that no fence closes in reach, with more than 20 runes of it in front of the first break, is split inside:
      the chunk is filled up to a line end or to the last rune that leaves room for the closing fence, and the rest
      starts with the block's fence line. */
  lemma LongBlockIsSplit(s: string, start: int, maxLen: int, open: int, e: int) returns (end: int)
    requires maxLen >= 10 && CanSplit(s, maxLen) && 0 <= start && start + maxLen < |s|
    requires OneOpen(s, start, maxLen, open) && IsFence(s, open)
    requires e == NaturalEnd(s, start, start + EffectiveLimit(maxLen)) && e > HeaderEnd(s, open) + 20
    ensures e <= end <= start + maxLen - 5 && (end == start + maxLen - 5 || s[end] == '\n')
    ensures forall i :: HeaderEnd(s, open) < i < start + maxLen - 5 && start + maxLen - 205 <= i && s[i] == '\n' ==>
      i <= end < start + maxLen - 5
    ensures var t := TrimSpace(Header(s, open) + "\n" + s[end..]);
      CanSplit(t, maxLen)
      && Chunks(s, start, maxLen) == [TrimRight(s[start..end], IsBlank) + "\n```"] + Chunks(t, 0, maxLen)
  {
    hide *;
    HeaderFitsLine(s, open);
    end := CutInside(s, start, maxLen, open, e);
    ForcedChunk(s, start, maxLen, end, open);
  }

  lemma CutInside(s: string, start: int, maxLen: int, open: int, e: int) returns (end: int)
    requires maxLen >= 10 && 0 <= start && start + maxLen < |s|
    requires OneOpen(s, start, maxLen, open) && IsFence(s, open)
    requires e == NaturalEnd(s, start, start + EffectiveLimit(maxLen)) && e > HeaderEnd(s, open) + 20 && e >= open + 3
    ensures NextCut(s, start, maxLen) == Forced(end, open)
    ensures e <= end <= start + maxLen - 5 && (end == start + maxLen - 5 || s[end] == '\n')
    ensures forall i :: HeaderEnd(s, open) < i < start + maxLen - 5 && start + maxLen - 205 <= i && s[i] == '\n' ==>
      i <= end < start + maxLen - 5
  {
    hide *;
    OpenCut(s, start, maxLen, open, e);
    InnerEndIsLater(s, start, open, maxLen, e);
    InnerEndIsBreak(s, start, open, maxLen);
    end := InnerEnd(s, start, open, maxLen);
    SplitInside(s, start, open, maxLen, e);
  }

  lemma InnerEndIsBreak(s: string, start: int, open: int, maxLen: int)
    requires maxLen >= 10 && 0 <= start <= open && start + maxLen < |s| && IsFence(s, open)
    ensures var end := InnerEnd(s, start, open, maxLen); end == start + maxLen - 5 || (0 <= end < |s| && s[end] == '\n')
    ensures forall i :: HeaderEnd(s, open) < i < start + maxLen - 5 && start + maxLen - 205 <= i && s[i] == '\n' ==>
      i <= InnerEnd(s, start, open, maxLen) < start + maxLen - 5
  {
    HeaderFitsLine(s, open);
    hide HeaderEnd;
    var better := LastInWindow(s, start, start + maxLen - 5, 200, IsNewline);
    hide LastInWindow;
  }

  lemma SplitInside(s: string, start: int, open: int, maxLen: int, e: int)
    requires maxLen >= 10 && 0 <= start <= open && start + maxLen < |s| && IsFence(s, open)
    requires e == NaturalEnd(s, start, start + EffectiveLimit(maxLen)) && e > HeaderEnd(s, open) + 20
    requires Unclosed(s, start, e, -1) == open && (NextClosing(s, e) == -1 || NextClosing(s, e) - start > maxLen)
    ensures NextCut(s, start, maxLen) == Forced(InnerEnd(s, start, open, maxLen), open)
  {
    hide NaturalEnd, EffectiveLimit, InnerEnd, HeaderEnd, NextClosing, Unclosed;
  }

  lemma ForcedChunk(s: string, start: int, maxLen: int, end: int, open: int)
    requires CanSplit(s, maxLen) && 0 <= start && start + maxLen < |s| && IsFence(s, open)
    requires NextCut(s, start, maxLen) == Forced(end, open)
    ensures start <= end <= |s|
    ensures var t := TrimSpace(Header(s, open) + "\n" + s[end..]);
      CanSplit(t, maxLen)
      && Chunks(s, start, maxLen) == [TrimRight(s[start..end], IsBlank) + "\n```"] + Chunks(t, 0, maxLen)
  {
    hide NextCut, CanSplit, Chunks, Header, TrimSpace, TrimRight, IsFence;
    FirstChunk(s, start, maxLen);
  }

  /** With less of it in front of the first break the block is left to the next chunk, unless it opens within the first
      21 runes and without a break in front of it. */
  lemma LongBlockIsMoved(s: string, start: int, maxLen: int, open: int, e: int)
    requires maxLen >= 10 && 0 <= start && start + maxLen < |s| && OneOpen(s, start, maxLen, open) && IsFence(s, open)
    requires e == NaturalEnd(s, start, start + EffectiveLimit(maxLen)) && open + 3 <= e <= HeaderEnd(s, open) + 20
    ensures var c := NextCut(s, start, maxLen);
      if c.Plain? then c.end <= open && EndsAtBreak(s, start, open, c.end, open)
      else c == Forced(start + maxLen - 5, open) && open - start <= 20 && EndsAtBreak(s, start, open, -1, -1)
  {
    hide *;
    OpenCut(s, start, maxLen, open, e);
    BreakEnds(s, start, open);
    MovedCut(s, start, open, maxLen, e);
  }

  lemma MovedCut(s: string, start: int, open: int, maxLen: int, e: int)
    requires maxLen >= 10 && 0 <= start <= open && start + maxLen < |s| && IsFence(s, open) && open + 3 <= e
    requires e == NaturalEnd(s, start, start + EffectiveLimit(maxLen)) && e <= HeaderEnd(s, open) + 20
    requires Unclosed(s, start, e, -1) == open && (NextClosing(s, e) == -1 || NextClosing(s, e) - start > maxLen)
    requires var r := BreakBefore(s, start, open); EndsAtBreak(s, start, open, if r <= start then -1 else r, -1)
    ensures var c := NextCut(s, start, maxLen);
      if c.Plain? then c.end <= open && EndsAtBreak(s, start, open, c.end, open)
      else c == Forced(start + maxLen - 5, open) && open - start <= 20 && EndsAtBreak(s, start, open, -1, -1)
  {
    hide NaturalEnd, EffectiveLimit, BreakBefore, HeaderEnd, NextClosing, Unclosed;
  }

  /** When the fence line nearly fills a chunk, a round puts back at least as much as it takes. */
  lemma OpenBlockGrows(s: string, start: int, maxLen: int)
    requires maxLen >= 5 && OpenBlock(s, start, maxLen) && |Header(s, start)| >= maxLen - 6
    ensures 0 <= start < |s|
    ensures var t := Reopened(s, start, maxLen);
      Round(s, start, maxLen) == (t, 0) && OpenBlock(t, 0, maxLen) && Header(t, 0) == Header(s, start)
  {
    hide *;
    OpenBlockCut(s, start, maxLen);
    RoundOfCut(s, start, maxLen);
    ReopenedText(s, start, maxLen);
    ReopenedIsOpen(s, start, maxLen);
  }

  lemma RoundOfCut(s: string, start: int, maxLen: int)
    requires maxLen >= 5 && OpenBlock(s, start, maxLen)
    requires start + maxLen < |s| ==> NextCut(s, start, maxLen) == Forced(start + maxLen - 5, start)
    ensures 0 <= start && start + maxLen < |s|
    ensures Round(s, start, maxLen) == (TrimSpace(Header(s, start) + "\n" + s[start + maxLen - 5..]), 0)
  {
    hide NextCut, TrimSpace, Header, TrimEnd;
  }

  /** The runes that such a round keeps end where the white space at the end of the text begins. */
  lemma OpenBlockTail(s: string, start: int, maxLen: int) returns (n: int)
    requires maxLen >= 5 && OpenBlock(s, start, maxLen)
    ensures 0 <= start && start + maxLen < n <= |s| && !IsSpace(s[n - 1]) && forall k :: n <= k < |s| ==> IsSpace(s[k])
    ensures Reopened(s, start, maxLen) == Header(s, start) + "\n" + s[start + maxLen - 5..n]
  {
    hide Header, IsSpace;
    n := TrimEnd(s, 0, |s|, IsSpace);
  }

  lemma ReopenedText(s: string, start: int, maxLen: int)
    requires maxLen >= 5 && OpenBlock(s, start, maxLen)
    ensures TrimSpace(Header(s, start) + "\n" + s[start + maxLen - 5..]) == Reopened(s, start, maxLen)
  {
    HeaderFitsLine(s, start);
    hide *;
    var n := OpenBlockTail(s, start, maxLen);
    TrimJoined(Header(s, start), s, start + maxLen - 5, n);
  }

  lemma TrimJoined(h: string, s: string, from: int, n: int)
    requires IsFence(h, 0) && 0 <= from < n <= |s| && !IsSpace(s[n - 1]) && forall k :: n <= k < |s| ==> IsSpace(s[k])
    ensures TrimSpace(h + "\n" + s[from..]) == h + "\n" + s[from..n]
  {
    assert !IsSpace('`');
    hide TrimSpace, IsSpace;
    var v, r := h + "\n" + s[from..], |h| + 1 + n - from;
    assert v[0] == '`' && v[r - 1] == s[n - 1];
    assert forall k :: r <= k < |v| ==> v[k] == s[k - |h| - 1 + from];
    assert v[..r] == h + "\n" + s[from..n];
  }

  /** A fence line, a line end and more: the line is the first header. */
  lemma JoinedHeader(h: string, w: string)
    requires IsFence(h, 0) && w != "" && !IsSpace(w[|w| - 1])
    requires !IsSpace(h[|h| - 1]) && forall k :: 0 <= k < |h| ==> h[k] != '\n'
    ensures var t := h + "\n" + w;
      IsFence(t, 0) && Header(t, 0) == h && TrimEnd(t, 0, |t|, IsSpace) == |t|
  {
    hide IsSpace;
    var t := h + "\n" + w;
    assert forall k :: 0 <= k < |h| ==> t[k] == h[k];
    assert t[|h|] == '\n' && t[|t| - 1] == w[|w| - 1];
    TrimEndIs(t, 0, |h|, IsSpace, |h|);
    TrimEndIs(t, 0, |t|, IsSpace, |t|);
    assert t[0..|h|] == h;
  }

  lemma ReopenedIsOpen(s: string, start: int, maxLen: int)
    requires maxLen >= 5 && OpenBlock(s, start, maxLen) && |Header(s, start)| >= maxLen - 6
    ensures var t := Reopened(s, start, maxLen); OpenBlock(t, 0, maxLen) && Header(t, 0) == Header(s, start)
  {
    var n := OpenBlockTail(s, start, maxLen);
    hide Header, TrimEnd, IsSpace, Reopened;
    HeaderFitsLine(s, start);
    var h, w := Header(s, start), s[start + maxLen - 5..n];
    assert w[|w| - 1] == s[n - 1];
    JoinedHeader(h, w);
    forall k | 0 < k <= maxLen - 3
      ensures !IsFence(h + "\n" + w, k)
    {
      NoFenceBehind(s, start, maxLen, h, w, k);
    }
  }

  lemma NoFenceBehind(s: string, start: int, maxLen: int, h: string, w: string, k: int)
    requires maxLen >= 5 && 0 <= start && 0 < k <= maxLen - 3
    requires forall i :: start < i <= start + maxLen - 3 ==> !IsFence(s, i)
    requires start + |h| <= |s| && h == s[start..start + |h|] && |h| >= 3 && |h| >= maxLen - 6
    requires start + maxLen - 5 + |w| <= |s| && w == s[start + maxLen - 5..start + maxLen - 5 + |w|]
    ensures !IsFence(h + "\n" + w, k)
  {
    assert !IsFence(s, start + k);
    assert k > |h| ==> !IsFence(s, k - |h| - 1 + start + maxLen - 5);
  }

  lemma {:induction false} OpenBlockNeverEnds(s: string, start: int, maxLen: int, n: nat)
    requires maxLen >= 5 && OpenBlock(s, start, maxLen) && |Header(s, start)| >= maxLen - 6
    ensures var (t, i) := Rounds(s, start, maxLen, n); i < |t|
    decreases n
  {
    hide *;
    OpenBlockGrows(s, start, maxLen);
    RoundsStep(s, start, maxLen, n);
    if n > 0 {
      OpenBlockNeverEnds(Reopened(s, start, maxLen), 0, maxLen, n - 1);
    }
  }

  lemma RoundsStep(s: string, start: int, maxLen: int, n: nat)
    requires maxLen >= 1 && 0 <= start <= |s|
    ensures n == 0 ==> Rounds(s, start, maxLen, n) == (s, start)
    ensures var (t, i) := Round(s, start, maxLen);
      n > 0 ==> Rounds(s, start, maxLen, n) == Rounds(t, i, maxLen, n - 1)
  {
    hide Round;
  }

  lemma OpenBlockDoesNotEnd(s: string, start: int, maxLen: int)
    requires maxLen >= 5 && 0 <= start <= |s|
    ensures OpenBlock(s, start, maxLen) && |Header(s, start)| >= maxLen - 6 ==> !Terminates(s, start, maxLen)
  {
    hide Rounds, Header, TrimEnd;
    if OpenBlock(s, start, maxLen) && |Header(s, start)| >= maxLen - 6 {
      forall n: nat
        ensures var (t, i) := Rounds(s, start, maxLen, n); i < |t|
      {
        hide *;
        OpenBlockNeverEnds(s, start, maxLen, n);
      }
    }
  }

  /** A block with a long fence line keeps the message from ending, however many rounds lead up to it. */
  lemma {:induction false} LongFenceLineBlocks(s: string, start: int, maxLen: int, m: nat)
    requires maxLen >= 5 && 0 <= start <= |s|
    ensures var (t, i) := Rounds(s, start, maxLen, m);
      OpenBlock(t, i, maxLen) && |Header(t, i)| >= maxLen - 6 ==> !Terminates(s, start, maxLen)
    decreases m
  {
    hide *;
    RoundsStep(s, start, maxLen, m);
    if m > 0 {
      var (t, i) := Round(s, start, maxLen);
      LongFenceLineBlocks(t, i, maxLen, m - 1);
      TerminatesNext(s, start, maxLen);
    } else {
      OpenBlockDoesNotEnd(s, start, maxLen);
    }
  }

  /** The limit on the fence line is exact: with the other fence lines within it, an iteration that begins at a block
      too long to be closed in its chunk comes to an end if and only if that block's fence line is within it. */
  lemma FenceLineLimitIsExact(s: string, start: int, maxLen: int)
    requires maxLen >= 5 && OpenBlock(s, start, maxLen)
    requires forall k :: IsFence(s, k) && k != start ==> |Header(s, k)| <= maxLen - 7
    ensures Terminates(s, start, maxLen) <==> |Header(s, start)| <= maxLen - 7
  {
    hide Header, Rounds, TrimEnd;
    if |Header(s, start)| <= maxLen - 7 {
      SplittableTextEnds(s, start, maxLen);
    } else {
      OpenBlockDoesNotEnd(s, start, maxLen);
    }
  }

  method FindLastUnclosedCodeBlockInRange(runes: string, start: int, end: int) returns (r: int)
    requires 0 <= start && end <= |runes|
    ensures r == Unclosed(runes, start, end, -1)
  {
    var inCodeBlock, lastOpenIdx, i := false, -1, start;
    while i < end
      invariant start <= i && (inCodeBlock ==> lastOpenIdx >= 0)
      invariant Unclosed(runes, start, end, -1) == Unclosed(runes, i, end, if inCodeBlock then lastOpenIdx else -1)
      decreases end - i
    {
      if i + 2 < end && runes[i] == '`' && runes[i + 1] == '`' && runes[i + 2] == '`' {
        if !inCodeBlock {
          lastOpenIdx := i;
        }
        inCodeBlock := !inCodeBlock;
        i := i + 2;
      }
      i := i + 1;
    }
    r := if inCodeBlock then lastOpenIdx else -1;
  }

  method FindNextClosingCodeBlockInRange(runes: string, startIdx: int, end: int) returns (r: int)
    requires 0 <= startIdx && end == |runes|
    ensures r == NextClosing(runes, startIdx)
  {
    var i := startIdx;
    while i < end
      invariant startIdx <= i && NextClosing(runes, startIdx) == NextClosing(runes, i)
    {
      if i + 2 < end && runes[i] == '`' && runes[i + 1] == '`' && runes[i + 2] == '`' {
        return i + 3;
      }
      i := i + 1;
    }
    return -1;
  }

  method FindNewlineFrom(runes: string, from: int) returns (r: int)
    requires 0 <= from
    ensures r == NewlineFrom(runes, from)
  {
    var i := from;
    while i < |runes|
      invariant from <= i && NewlineFrom(runes, from) == NewlineFrom(runes, i)
    {
      if runes[i] == '\n' {
        return i;
      }
      i := i + 1;
    }
    return -1;
  }

  method FindLastNewlineInRange(runes: string, start: int, end: int, searchWindow: nat) returns (r: int)
    requires 0 <= start <= end <= |runes|
    ensures r == LastInWindow(runes, start, end, searchWindow, IsNewline)
  {
    var searchStart := Max(end - searchWindow, start);
    var i := end - 1;
    while i >= searchStart
      invariant searchStart - 1 <= i < end
      invariant FindLast(runes, searchStart, end, IsNewline) == FindLast(runes, searchStart, i + 1, IsNewline)
    {
      if runes[i] == '\n' {
        return i;
      }
      i := i - 1;
    }
    return start - 1;
  }

  method FindLastSpaceInRange(runes: string, start: int, end: int, searchWindow: nat) returns (r: int)
    requires 0 <= start <= end <= |runes|
    ensures r == LastInWindow(runes, start, end, searchWindow, IsSpaceOrTab)
  {
    var searchStart := Max(end - searchWindow, start);
    var i := end - 1;
    while i >= searchStart
      invariant searchStart - 1 <= i < end
      invariant FindLast(runes, searchStart, end, IsSpaceOrTab) == FindLast(runes, searchStart, i + 1, IsSpaceOrTab)
    {
      if runes[i] == ' ' || runes[i] == '\t' {
        return i;
      }
      i := i - 1;
    }
    return start - 1;
  }

  /** The block part of the splitting loop: where to cut inside or before a block that is open at `msgEnd`. */
  method FindBlockCut(runes: string, start: int, firstEnd: int, unclosedIdx: int, maxLen: int)
    returns (cut: Cut, header: string)
    requires maxLen >= 5 && 0 <= start <= unclosedIdx && start + maxLen < |runes|
    requires IsFence(runes, unclosedIdx) && unclosedIdx + 3 <= firstEnd
    requires firstEnd == NaturalEnd(runes, start, start + EffectiveLimit(maxLen))
    ensures cut == BlockCut(runes, start, firstEnd, unclosedIdx, maxLen)
    ensures cut.Forced? ==> header == Header(runes, unclosedIdx)
  {
    hide EffectiveLimit, FindLast, LastInWindow, NextClosing, NewlineFrom, TrimEnd, NoNewline, NaturalEnd;
    header := "";
    var closingIdx := FindNextClosingCodeBlockInRange(runes, firstEnd, |runes|);
    if closingIdx > 0 && closingIdx - start <= maxLen {
      return Plain(closingIdx), header;
    }
    var headerEnd := FindNewlineFrom(runes, unclosedIdx);
    HeaderIsTrimmedLine(runes, unclosedIdx);
    if headerEnd == -1 {
      header := TrimSpace(runes[unclosedIdx..unclosedIdx + 3]);
    } else {
      header := TrimSpace(runes[unclosedIdx..headerEnd]);
    }
    var headerEndIdx := unclosedIdx + |header|;
    if headerEnd != -1 {
      headerEndIdx := headerEnd;
    }
    if firstEnd > headerEndIdx + 20 {
      var innerLimit := Min(start + maxLen - 5, |runes|);
      var betterEnd := FindLastNewlineInRange(runes, start, innerLimit, 200);
      return Forced(if betterEnd > headerEndIdx then betterEnd else innerLimit, unclosedIdx), header;
    }
    var newEnd := FindLastNewlineInRange(runes, start, unclosedIdx, 200);
    if newEnd <= start {
      newEnd := FindLastSpaceInRange(runes, start, unclosedIdx, 100);
    }
    if newEnd > start {
      cut := Plain(newEnd);
    } else if unclosedIdx - start > 20 {
      cut := Plain(unclosedIdx);
    } else {
      cut := Forced(Min(start + maxLen - 5, |runes|), unclosedIdx);
    }
  }

  /** The decision part of the splitting loop: where the next chunk ends, and the fence line to repeat. */
  method FindCut(runes: string, start: int, maxLen: int, effectiveLimit: int) returns (cut: Cut, header: string)
    requires maxLen >= 1 && 0 <= start && start + maxLen < |runes|
    requires effectiveLimit == EffectiveLimit(maxLen)
    ensures cut == NextCut(runes, start, maxLen)
    ensures cut.Forced? ==> header == Header(runes, cut.open)
  {
    hide EffectiveLimit, FindLast, LastInWindow, BlockCut, Header, NoNewline;
    header := "";
    var end := start + effectiveLimit;
    var msgEnd := FindLastNewlineInRange(runes, start, end, 200);
    if msgEnd <= start {
      msgEnd := FindLastSpaceInRange(runes, start, end, 100);
    }
    if msgEnd <= start {
      msgEnd := end;
    }
    var unclosedIdx := FindLastUnclosedCodeBlockInRange(runes, start, msgEnd);
    if unclosedIdx >= 0 {
      cut, header := FindBlockCut(runes, start, msgEnd, unclosedIdx, maxLen);
    } else {
      cut := Plain(msgEnd);
    }
  }

  /** What will have been sent once the rest of the text is split as well. */
  ghost function Outcome(messages: seq<string>, s: string, start: int, maxLen: int): seq<string>
    requires CanSplit(s, maxLen) && 0 <= start <= |s|
  {
    messages + Chunks(s, start, maxLen)
  }

  lemma EmitLast(messages: seq<string>, s: string, start: int, maxLen: int, chunk: string)
    requires CanSplit(s, maxLen) && 0 <= start <= |s| <= start + maxLen && chunk == s[start..|s|]
    ensures Outcome(messages, s, start, maxLen) == if start == |s| then messages else messages + [chunk]
  {
    assert s[start..] == s[start..|s|];
  }

  method SkipBlankRunes(runes: string, from: int) returns (start: int)
    requires 0 <= from <= |runes|
    ensures start == SkipBlanks(runes, from)
  {
    start := from;
    while start < |runes| &&
      (runes[start] == ' ' || runes[start] == '\t' || runes[start] == '\n' || runes[start] == '\r')
      invariant from <= start <= |runes| && SkipBlanks(runes, from) == SkipBlanks(runes, start)
    {
      start := start + 1;
    }
  }

  /** One iteration for text that does not fit one chunk. After a forced cut the chunk is closed and the rest put
      behind the repeated fence line. */
  method EmitChunk(messages: seq<string>, runes: string, start: int, maxLen: int, effectiveLimit: int)
    returns (newMessages: seq<string>, newRunes: string, newStart: int)
    requires CanSplit(runes, maxLen) && 0 <= start && start + maxLen < |runes|
    requires effectiveLimit == EffectiveLimit(maxLen)
    ensures 0 <= newStart <= |newRunes| && |newRunes| - newStart < |runes| - start && CanSplit(newRunes, maxLen)
    ensures Outcome(newMessages, newRunes, newStart, maxLen) == Outcome(messages, runes, start, maxLen)
  {
    hide Header, TrimSpace, CanSplit, NextCut, EffectiveLimit, SkipBlanks;
    FirstChunk(runes, start, maxLen);
    var cut, header := FindCut(runes, start, maxLen, effectiveLimit);
    if cut.Forced? {
      var chunk := TrimRight(runes[start..cut.end], IsBlank) + "\n```";
      newMessages := messages + [chunk];
      newRunes := TrimSpace(header + "\n" + runes[cut.end..]);
      newStart := 0;
    } else {
      newMessages := messages + [runes[start..cut.end]];
      newRunes := runes;
      newStart := SkipBlankRunes(runes, cut.end);
    }
  }

  method SplitMessage(content: string, maxLen: int) returns (messages: seq<string>)
    requires maxLen <= 0 || CanSplit(content, maxLen)
    ensures maxLen <= 0 ==> messages == if content == "" then [] else [content]
    ensures maxLen > 0 ==> messages == Chunks(content, 0, maxLen)
  {
    if maxLen <= 0 {
      return if content == "" then [] else [content];
    }
    ghost var all := Chunks(content, 0, maxLen);
    assert Outcome([], content, 0, maxLen) == all;
    var runes, totalLen := content, |content|;
    messages := [];
    var codeBlockBuffer := Max(maxLen / 10, 50);
    if codeBlockBuffer > maxLen / 2 {
      codeBlockBuffer := maxLen / 2;
    }
    var effectiveLimit := Max(maxLen - codeBlockBuffer, maxLen / 2);
    assert effectiveLimit == EffectiveLimit(maxLen);
    hide *;
    var start := 0;
    while start < totalLen
      invariant totalLen == |runes| && 0 <= start <= totalLen && CanSplit(runes, maxLen)
      invariant Outcome(messages, runes, start, maxLen) == all
      decreases totalLen - start
    {
      var remaining := totalLen - start;
      if remaining <= maxLen {
        var chunk := runes[start..totalLen];
        EmitLast(messages, runes, start, maxLen, chunk);
        messages := messages + [chunk];
        return;
      }
      messages, runes, start := EmitChunk(messages, runes, start, maxLen, effectiveLimit);
      totalLen := |runes|;
    }
    EmitLast(messages, runes, start, maxLen, runes[start..]);
  }
}
