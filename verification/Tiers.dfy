/** Tiered summaries: the greedy selection of lines by score within a token budget. */
module Tiers {
  import opened Lists
  import opened Text
  import opened Tokens

  /* ---- lines of a text ---- */

  function SplitLines(text: string): (lines: seq<string>)
    ensures lines != []
  {
    if text == "" then [""]
    else if text[0] == '\n' then [""] + SplitLines(text[1..])
    else
      var rest := SplitLines(text[1..]);
      [[text[0]] + rest[0]] + rest[1..]
  }

  function JoinLines(lines: seq<string>): string {
    if lines == [] then ""
    else if |lines| == 1 then lines[0]
    else lines[0] + "\n" + JoinLines(lines[1..])
  }

  ghost predicate SingleLines(lines: seq<string>) {
    forall i :: 0 <= i < |lines| ==> '\n' !in lines[i]
  }

  lemma {:induction false} SplitGivesSingleLines(text: string)
    ensures SingleLines(SplitLines(text))
  {
    if text != "" {
      SplitGivesSingleLines(text[1..]);
    }
  }

  lemma {:induction false} SplitOneLine(line: string)
    requires '\n' !in line
    ensures SplitLines(line) == [line]
  {
    if line != "" {
      SplitOneLine(line[1..]);
      assert line == [line[0]] + line[1..];
    }
  }

  lemma {:induction false} SplitFirstLine(line: string, text: string)
    requires '\n' !in line
    ensures SplitLines(line + ("\n" + text)) == [line] + SplitLines(text)
  {
    var whole := line + ("\n" + text);
    if line == "" {
      assert whole == "\n" + text;
      assert whole[1..] == text;
    } else {
      SplitFirstLine(line[1..], text);
      assert whole[1..] == line[1..] + ("\n" + text);
      assert line == [line[0]] + line[1..];
    }
  }

  /** Splitting undoes joining. */
  lemma {:induction false} SplitOfJoin(lines: seq<string>)
    requires lines != [] && SingleLines(lines)
    ensures SplitLines(JoinLines(lines)) == lines
  {
    if |lines| == 1 {
      SplitOneLine(lines[0]);
      assert lines == [lines[0]];
    } else {
      assert SingleLines(lines[1..]);
      SplitOfJoin(lines[1..]);
      SplitFirstLine(lines[0], JoinLines(lines[1..]));
      assert lines[0] + "\n" + JoinLines(lines[1..]) == lines[0] + ("\n" + JoinLines(lines[1..]));
    }
  }

  predicate HasText(line: string) {
    TrimSpace(line) != ""
  }

  lemma HasTextMeans(line: string)
    ensures HasText(line) <==> exists k :: 0 <= k < |line| && !IsSpace(line[k])
  {
    hide IsSpace;
    var i := TrimStart(line, 0, |line|, IsSpace);
    if k :| 0 <= k < |line| && !IsSpace(line[k]) {
      assert i <= k && line[i..][k - i] == line[k];
    } else if i < |line| {
      assert !IsSpace(line[i]);
    }
  }

  /** The lines with text on them. */
  function NonBlank(lines: seq<string>): seq<string> {
    if lines == [] then []
    else NonBlank(lines[..|lines| - 1]) + if HasText(lines[|lines| - 1]) then [lines[|lines| - 1]] else []
  }

  ghost predicate AllText(lines: seq<string>) {
    forall i :: 0 <= i < |lines| ==> HasText(lines[i])
  }

  lemma {:induction false} NonBlankHaveText(lines: seq<string>)
    requires SingleLines(lines)
    ensures AllText(NonBlank(lines)) && SingleLines(NonBlank(lines))
  {
    hide HasText;
    if lines != [] {
      NonBlankHaveText(lines[..|lines| - 1]);
    }
  }

  lemma {:induction false} NonBlankOfText(lines: seq<string>)
    requires AllText(lines)
    ensures NonBlank(lines) == lines
  {
    hide HasText;
    if lines != [] {
      NonBlankOfText(lines[..|lines| - 1]);
      assert lines == lines[..|lines| - 1] + [lines[|lines| - 1]];
    }
  }

  /** The non-blank lines of a text. */
  function LinesIn(text: string): seq<string> {
    NonBlank(SplitLines(text))
  }

  lemma BlankTextHasNoLines()
    ensures LinesIn("") == []
  {
    assert SplitLines("") == [""];
    assert NonBlank([""]) == [];
  }

  lemma {:induction false} LinesOfJoin(lines: seq<string>)
    requires SingleLines(lines) && AllText(lines)
    ensures LinesIn(JoinLines(lines)) == lines
  {
    hide NonBlank, SplitLines, HasText;
    if lines == [] {
      BlankTextHasNoLines();
    } else {
      SplitOfJoin(lines);
      NonBlankOfText(lines);
    }
  }

  lemma LinesInAreProper(text: string)
    ensures AllText(LinesIn(text)) && SingleLines(LinesIn(text))
  {
    hide NonBlank, SplitLines, AllText, SingleLines;
    SplitGivesSingleLines(text);
    NonBlankHaveText(SplitLines(text));
  }

  /* ---- scored lines and the sorts ---- */

  datatype Scored = Scored(line: string, score: int, index: nat)

  /** The two calls of the library sort, which is not stable: any sorted permutation will do. */
  datatype Sorts = Sorts(byScore: seq<Scored> -> seq<Scored>, byIndex: seq<Scored> -> seq<Scored>)

  ghost predicate Descending(s: seq<Scored>) {
    forall i, j :: 0 <= i < j < |s| ==> s[i].score >= s[j].score
  }

  ghost predicate Ascending(s: seq<Scored>) {
    forall i, j :: 0 <= i < j < |s| ==> s[i].index <= s[j].index
  }

  ghost predicate GoodSorts(o: Sorts) {
    forall s ::
      (multiset(o.byScore(s)) == multiset(s) && Descending(o.byScore(s))) &&
      (multiset(o.byIndex(s)) == multiset(s) && Ascending(o.byIndex(s)))
  }

  function ScoredFrom(lines: seq<string>, score: string -> int): (s: seq<Scored>)
    ensures |s| == |lines|
    ensures forall i :: 0 <= i < |lines| ==> s[i] == Scored(lines[i], score(lines[i]), i)
  {
    seq(|lines|, i requires 0 <= i < |lines| => Scored(lines[i], score(lines[i]), i))
  }

  ghost predicate Distinct(s: seq<Scored>) {
    forall i, j :: 0 <= i < j < |s| ==> s[i].index != s[j].index
  }

  /** Every entry is one of the scored lines. */
  ghost predicate Entries(s: seq<Scored>, lines: seq<string>, score: string -> int) {
    forall x :: x in s ==> x.index < |lines| && x == Scored(lines[x.index], score(lines[x.index]), x.index)
  }

  lemma ReorderedEntries(s: seq<Scored>, r: seq<Scored>, lines: seq<string>, score: string -> int)
    requires multiset(r) == multiset(s) && Distinct(s) && Entries(s, lines, score)
    ensures Distinct(r) && Entries(r, lines, score) && IndicesOf(r) == IndicesOf(s)
  {
    assert NoDuplicates(s);
    PermutationKeeps(s, r);
    forall i, j | 0 <= i < j < |r| ensures r[i].index != r[j].index {
      assert r[i] in r && r[j] in r;
    }
  }

  function IndicesOf(s: seq<Scored>): set<nat> {
    set x | x in s :: x.index
  }

  function LinesOf(s: seq<Scored>): (r: seq<string>)
    ensures |r| == |s| && forall i :: 0 <= i < |s| ==> r[i] == s[i].line
  {
    seq(|s|, i requires 0 <= i < |s| => s[i].line)
  }

  /** Entries in the order of their indices are the lines at those indices. */
  lemma {:induction false} AscendingEntriesAreKept(r: seq<Scored>, lines: seq<string>, score: string -> int)
    requires Ascending(r) && Distinct(r) && Entries(r, lines, score)
    ensures LinesOf(r) == KeepAt(lines, IndicesOf(r))
    decreases |lines|
  {
    if lines == [] {
    } else {
      var front, n := lines[..|lines| - 1], |lines| - 1;
      if r != [] && r[|r| - 1].index == n {
        var r' := r[..|r| - 1];
        AscendingEntriesAreKept(r', front, score);
        assert r[|r| - 1] in r;
        assert n in IndicesOf(r);
        forall i | 0 <= i < |front| ensures i in IndicesOf(r') <==> i in IndicesOf(r) {
        }
        KeepAtAgree(front, IndicesOf(r'), IndicesOf(r));
        assert LinesOf(r) == LinesOf(r') + [lines[n]];
      } else {
        AscendingEntriesAreKept(r, front, score);
      }
    }
  }

  /* ---- the greedy selection ---- */

  function Cost(u: Alphabet, s: seq<Scored>): nat {
    if s == [] then 0 else Cost(u, s[..|s| - 1]) + Estimate(u, s[|s| - 1].line)
  }

  /** Take each line in turn if it still fits. */
  function Greedy(u: Alphabet, s: seq<Scored>, budget: int): seq<Scored> {
    if s == [] then []
    else
      var taken, next := Greedy(u, s[..|s| - 1], budget), s[|s| - 1];
      if Cost(u, taken) + Estimate(u, next.line) <= budget then taken + [next] else taken
  }

  lemma CostSnoc(u: Alphabet, s: seq<Scored>, x: Scored)
    ensures Cost(u, s + [x]) == Cost(u, s) + Estimate(u, x.line)
  {
    hide Estimate;
    assert (s + [x])[..|s + [x]| - 1] == s;
  }

  lemma GreedyNil(u: Alphabet, budget: int)
    ensures Greedy(u, [], budget) == [] && Cost(u, []) == 0
  {
  }

  lemma GreedySnoc(u: Alphabet, s: seq<Scored>, x: Scored, budget: int)
    ensures var taken := Greedy(u, s, budget);
      Greedy(u, s + [x], budget) == if Cost(u, taken) + Estimate(u, x.line) <= budget then taken + [x] else taken
  {
    hide Estimate, Cost;
    assert (s + [x])[..|s + [x]| - 1] == s;
  }

  lemma {:induction false} GreedyFits(u: Alphabet, s: seq<Scored>, budget: int)
    ensures Greedy(u, s, budget) == [] || Cost(u, Greedy(u, s, budget)) <= budget
  {
    hide *;
    if s == [] {
      GreedyNil(u, budget);
    } else {
      var front, x := s[..|s| - 1], s[|s| - 1];
      assert s == front + [x];
      GreedyFits(u, front, budget);
      GreedySnoc(u, front, x, budget);
      CostSnoc(u, Greedy(u, front, budget), x);
    }
  }

  lemma {:induction false} GreedyTakesFrom(u: Alphabet, s: seq<Scored>, budget: int)
    ensures forall x :: x in Greedy(u, s, budget) ==> x in s
    ensures Distinct(s) ==> Distinct(Greedy(u, s, budget))
  {
    hide Estimate, Cost, Greedy;
    if s == [] {
      GreedyNil(u, budget);
    } else {
      var front, x := s[..|s| - 1], s[|s| - 1];
      assert s == front + [x];
      GreedyTakesFrom(u, front, budget);
      GreedySnoc(u, front, x, budget);
      if Distinct(s) {
        DistinctSnoc(front, Greedy(u, front, budget), x);
      }
    }
  }

  lemma DistinctSnoc(front: seq<Scored>, taken: seq<Scored>, x: Scored)
    requires Distinct(front + [x])
    requires Distinct(front) ==> Distinct(taken)
    requires forall y :: y in taken ==> y in front
    ensures Distinct(front) && Distinct(taken + [x])
  {
    forall i, j | 0 <= i < j < |front| ensures front[i].index != front[j].index {
      assert (front + [x])[i].index != (front + [x])[j].index;
    }
    forall i | 0 <= i < |taken| ensures taken[i].index != x.index {
      assert taken[i] in taken;
      var k :| 0 <= k < |front| && front[k] == taken[i];
      assert (front + [x])[k].index != (front + [x])[|front|].index;
    }
  }

  /** Later entries only add to the selection. */
  lemma {:induction false} GreedyGrows(u: Alphabet, s: seq<Scored>, k: nat, budget: int)
    requires k <= |s|
    ensures Greedy(u, s[..k], budget) <= Greedy(u, s, budget)
    decreases |s|
  {
    hide *;
    if k == |s| {
      assert s[..k] == s;
    } else {
      var front, x := s[..|s| - 1], s[|s| - 1];
      assert s == front + [x];
      assert front[..k] == s[..k];
      GreedyGrows(u, front, k, budget);
      GreedySnoc(u, front, x, budget);
    }
  }

  /** When everything fits, everything is taken. */
  lemma {:induction false} GreedyTakesAll(u: Alphabet, s: seq<Scored>, budget: int)
    requires Cost(u, s) <= budget
    ensures Greedy(u, s, budget) == s
  {
    hide *;
    if s == [] {
      GreedyNil(u, budget);
    } else {
      var front, x := s[..|s| - 1], s[|s| - 1];
      assert s == front + [x];
      CostSnoc(u, front, x);
      GreedyTakesAll(u, front, budget);
      GreedySnoc(u, front, x, budget);
    }
  }

  lemma {:induction false} FittingIsTaken(u: Alphabet, s: seq<Scored>, k: nat, budget: int)
    requires k < |s|
    requires Cost(u, Greedy(u, s[..k], budget)) + Estimate(u, s[k].line) <= budget
    ensures s[k] in Greedy(u, s, budget)
  {
    hide *;
    assert s[..k + 1] == s[..k] + [s[k]];
    GreedySnoc(u, s[..k], s[k], budget);
    GreedyGrows(u, s, k + 1, budget);
    var taken := Greedy(u, s[..k], budget);
    assert (taken + [s[k]])[|taken|] == s[k];
  }

  /** An entry not taken did not fit beside those taken before it. */
  lemma {:induction false} SkippedDidNotFit(u: Alphabet, s: seq<Scored>, k: nat, budget: int)
    requires k < |s| && s[k] !in Greedy(u, s, budget)
    ensures Cost(u, Greedy(u, s[..k], budget)) + Estimate(u, s[k].line) > budget
  {
    hide *;
    if Cost(u, Greedy(u, s[..k], budget)) + Estimate(u, s[k].line) <= budget {
      FittingIsTaken(u, s, k, budget);
    }
  }

  /* ---- costs of kept lines ---- */

  function LinesCost(u: Alphabet, lines: seq<string>): nat {
    if lines == [] then 0 else LinesCost(u, lines[..|lines| - 1]) + Estimate(u, lines[|lines| - 1])
  }

  lemma LinesCostSnoc(u: Alphabet, lines: seq<string>, line: string)
    ensures LinesCost(u, lines + [line]) == LinesCost(u, lines) + Estimate(u, line)
  {
    hide Estimate;
    assert (lines + [line])[..|lines + [line]| - 1] == lines;
  }

  /** The estimates of the lines at the given indices. */
  function CostAt(u: Alphabet, lines: seq<string>, at: set<nat>): nat {
    LinesCost(u, KeepAt(lines, at))
  }

  lemma CostAtIs(u: Alphabet, lines: seq<string>, at: set<nat>)
    requires lines != []
    ensures var front, n := lines[..|lines| - 1], |lines| - 1;
      CostAt(u, lines, at) == CostAt(u, front, at) + if n in at then Estimate(u, lines[n]) else 0
  {
    hide Estimate, LinesCost;
    var front := lines[..|lines| - 1];
    LinesCostSnoc(u, KeepAt(front, at), lines[|lines| - 1]);
    assert KeepAt(front, at) + [] == KeepAt(front, at);
  }

  lemma {:induction false} CostAtAdd(u: Alphabet, lines: seq<string>, at: set<nat>, i: nat)
    requires i !in at && i < |lines|
    ensures CostAt(u, lines, at + {i}) == CostAt(u, lines, at) + Estimate(u, lines[i])
    decreases |lines|
  {
    hide Estimate, CostAt, KeepAt;
    CostAtIs(u, lines, at);
    CostAtIs(u, lines, at + {i});
    var front := lines[..|lines| - 1];
    if i < |lines| - 1 {
      CostAtAdd(u, front, at, i);
      assert front[i] == lines[i];
    } else {
      CostAtAgree(u, front, at, at + {i});
    }
  }

  lemma CostAtAgree(u: Alphabet, lines: seq<string>, at: set<nat>, at': set<nat>)
    requires forall i :: 0 <= i < |lines| ==> (i in at <==> i in at')
    ensures CostAt(u, lines, at) == CostAt(u, lines, at')
  {
    KeepAtAgree(lines, at, at');
  }

  lemma {:induction false} CostAtNone(u: Alphabet, lines: seq<string>)
    ensures CostAt(u, lines, {}) == 0
    decreases |lines|
  {
    if lines == [] {
    } else {
      hide Estimate, CostAt;
      CostAtNone(u, lines[..|lines| - 1]);
      CostAtIs(u, lines, {});
    }
  }

  /** The cost of a selection is the cost of the lines it names. */
  lemma {:induction false} CostOfEntries(u: Alphabet, s: seq<Scored>, lines: seq<string>, score: string -> int)
    requires Distinct(s) && Entries(s, lines, score)
    ensures Cost(u, s) == CostAt(u, lines, IndicesOf(s))
    decreases |s|
  {
    hide Estimate, CostAt;
    if s == [] {
      assert IndicesOf(s) == {};
      CostAtNone(u, lines);
    } else {
      var front, x := s[..|s| - 1], s[|s| - 1];
      assert s == front + [x];
      assert x in s && forall y :: y in front ==> y in s;
      CostOfEntries(u, front, lines, score);
      assert IndicesOf(s) == IndicesOf(front) + {x.index};
      CostAtAdd(u, lines, IndicesOf(front), x.index);
    }
  }

  lemma {:induction false} CostAtMonotone(u: Alphabet, lines: seq<string>, at: set<nat>, at': set<nat>)
    requires at <= at'
    ensures CostAt(u, lines, at) <= CostAt(u, lines, at')
    decreases |lines|
  {
    hide Estimate, CostAt;
    if lines == [] {
      CostAtAgree(u, lines, at, at');
    } else {
      CostAtIs(u, lines, at);
      CostAtIs(u, lines, at');
      CostAtMonotone(u, lines[..|lines| - 1], at, at');
    }
  }

  /* ---- the tier ---- */

  /** What a build of a tier is given besides the text. */
  datatype Setting = Setting(u: Alphabet, score: string -> int, sorts: Sorts)

  function Ranked(e: Setting, lines: seq<string>): seq<Scored> {
    e.sorts.byScore(ScoredFrom(lines, e.score))
  }

  /** The indices of the non-blank lines that are kept. */
  function Chosen(e: Setting, lines: seq<string>, budget: int): set<nat> {
    IndicesOf(Greedy(e.u, Ranked(e, lines), budget))
  }

  function Kept(e: Setting, lines: seq<string>, budget: int): seq<string> {
    KeepAt(lines, Chosen(e, lines, budget))
  }

  function Tier(e: Setting, text: string, budget: int): string {
    JoinLines(Kept(e, LinesIn(text), budget))
  }

  lemma RankedIsProper(e: Setting, lines: seq<string>)
    requires GoodSorts(e.sorts)
    ensures Distinct(Ranked(e, lines)) && Entries(Ranked(e, lines), lines, e.score)
    ensures Descending(Ranked(e, lines))
    ensures forall i :: 0 <= i < |lines| ==> Scored(lines[i], e.score(lines[i]), i) in Ranked(e, lines)
  {
    hide Distinct, Entries, Descending;
    var s := ScoredFrom(lines, e.score);
    ReorderedEntries(s, e.sorts.byScore(s), lines, e.score);
    forall i | 0 <= i < |lines| ensures Scored(lines[i], e.score(lines[i]), i) in e.sorts.byScore(s) {
      assert s[i] in multiset(s);
      assert s[i] in multiset(e.sorts.byScore(s));
    }
  }

  lemma GreedyIsProper(e: Setting, lines: seq<string>, budget: int)
    requires GoodSorts(e.sorts)
    ensures var taken := Greedy(e.u, Ranked(e, lines), budget);
      Distinct(taken) && Entries(taken, lines, e.score)
  {
    hide GoodSorts, Ranked, Greedy;
    RankedIsProper(e, lines);
    GreedyTakesFrom(e.u, Ranked(e, lines), budget);
  }

  /** The estimates of the kept lines sum to at most the budget. */
  lemma KeptFits(e: Setting, lines: seq<string>, budget: int)
    requires GoodSorts(e.sorts)
    ensures Kept(e, lines, budget) == [] || LinesCost(e.u, Kept(e, lines, budget)) <= budget
  {
    hide GoodSorts, Ranked, Greedy, LinesCost, Distinct, Entries, KeepAt, IndicesOf;
    var taken := Greedy(e.u, Ranked(e, lines), budget);
    GreedyIsProper(e, lines, budget);
    GreedyFits(e.u, Ranked(e, lines), budget);
    CostOfEntries(e.u, taken, lines, e.score);
    if taken == [] {
      NothingKept(lines, taken);
    }
  }

  lemma {:induction false} NothingKept(lines: seq<string>, taken: seq<Scored>)
    requires taken == []
    ensures KeepAt(lines, IndicesOf(taken)) == []
  {
    if lines != [] {
      NothingKept(lines[..|lines| - 1], taken);
    }
  }

  /** The kept indices whose lines score at least as high as line d. */
  function Rivals(e: Setting, lines: seq<string>, budget: int, d: nat): set<nat>
    requires d < |lines|
  {
    set i | i in Chosen(e, lines, budget) && i < |lines| && e.score(lines[i]) >= e.score(lines[d])
  }

  /** A dropped line does not fit beside the kept lines that score at least as high, let alone beside all of them. */
  lemma NothingMoreFits(e: Setting, lines: seq<string>, budget: int, d: nat)
    requires GoodSorts(e.sorts) && d < |lines| && d !in Chosen(e, lines, budget)
    ensures CostAt(e.u, lines, Rivals(e, lines, budget, d)) + Estimate(e.u, lines[d]) > budget
    ensures LinesCost(e.u, Kept(e, lines, budget)) + Estimate(e.u, lines[d]) > budget
  {
    hide GoodSorts, Ranked, Greedy, LinesCost, KeepAt, Estimate;
    var ranked := Ranked(e, lines);
    RankedIsProper(e, lines);
    var x := Scored(lines[d], e.score(lines[d]), d);
    var k :| 0 <= k < |ranked| && ranked[k] == x;
    var before := Greedy(e.u, ranked[..k], budget);
    SkippedDidNotFit(e.u, ranked, k, budget);
    BeforeAreRivals(e, lines, budget, d, k);
    CostOfEntries(e.u, before, lines, e.score);
    CostAtMonotone(e.u, lines, IndicesOf(before), Rivals(e, lines, budget, d));
    CostAtMonotone(e.u, lines, Rivals(e, lines, budget, d), Chosen(e, lines, budget));
  }

  lemma BeforeAreRivals(e: Setting, lines: seq<string>, budget: int, d: nat, k: nat)
    requires GoodSorts(e.sorts) && d < |lines|
    requires k < |Ranked(e, lines)| && Ranked(e, lines)[k] == Scored(lines[d], e.score(lines[d]), d)
    ensures var before := Greedy(e.u, Ranked(e, lines)[..k], budget);
      Distinct(before) && Entries(before, lines, e.score) && IndicesOf(before) <= Rivals(e, lines, budget, d)
  {
    hide GoodSorts, Ranked, Greedy;
    var ranked := Ranked(e, lines);
    var before := Greedy(e.u, ranked[..k], budget);
    RankedIsProper(e, lines);
    GreedyTakesFrom(e.u, ranked[..k], budget);
    GreedyGrows(e.u, ranked, k, budget);
    forall i | i in IndicesOf(before) ensures i in Rivals(e, lines, budget, d) {
      var y :| y in before && y.index == i;
      assert y in ranked[..k];
      assert y in Greedy(e.u, ranked, budget);
    }
  }

  /** A tier's lines are a subsequence of the text's, in the order of the text. */
  lemma TierLines(e: Setting, text: string, budget: int)
    ensures LinesIn(Tier(e, text, budget)) == Kept(e, LinesIn(text), budget)
    ensures Subsequence(LinesIn(Tier(e, text, budget)), LinesIn(text))
  {
    hide LinesIn, Chosen, JoinLines, AllText, SingleLines, KeepAt, Subsequence;
    var lines := LinesIn(text);
    LinesInAreProper(text);
    KeepAtIsSubsequence(lines, Chosen(e, lines, budget));
    PartIsProper(Kept(e, lines, budget), lines);
    LinesOfJoin(Kept(e, lines, budget));
  }

  lemma PartIsProper(part: seq<string>, lines: seq<string>)
    requires Subsequence(part, lines) && AllText(lines) && SingleLines(lines)
    ensures AllText(part) && SingleLines(part)
  {
    hide HasText, Subsequence;
    forall i | 0 <= i < |part| ensures part[i] in lines {
      SubsequenceMember(part, lines, part[i]);
    }
  }

  lemma {:induction false} JoinedWeight(u: Alphabet, lines: seq<string>)
    requires GoodAlphabet(u) && lines != []
    ensures Weight(u, JoinLines(lines)) + 3 <= 12 * LinesCost(u, lines) + 8 * |lines|
  {
    hide *;
    EstimateRoundsToNearest(u, lines[0]);
    if |lines| == 1 {
      OneLine(u, lines);
    } else {
      JoinedWeight(u, lines[1..]);
      FirstLine(u, lines);
    }
  }

  lemma OneLine(u: Alphabet, lines: seq<string>)
    requires |lines| == 1
    ensures JoinLines(lines) == lines[0] && LinesCost(u, lines) == Estimate(u, lines[0])
  {
    hide Estimate;
  }

  lemma {:induction false} FirstLine(u: Alphabet, lines: seq<string>)
    requires |lines| > 1 && GoodAlphabet(u)
    ensures Weight(u, JoinLines(lines)) == Weight(u, lines[0]) + 3 + Weight(u, JoinLines(lines[1..]))
    ensures LinesCost(u, lines) == Estimate(u, lines[0]) + LinesCost(u, lines[1..])
  {
    hide LinesCost, Estimate, CjkCount;
    CjkConcat(u, lines[0] + "\n", JoinLines(lines[1..]));
    CjkConcat(u, lines[0], "\n");
    CjkOfNewline(u);
    CostCons(u, lines);
  }

  lemma CjkOfNewline(u: Alphabet)
    requires GoodAlphabet(u)
    ensures CjkCount(u, "\n") == 0
  {
    assert CjkCount(u, "") == 0;
  }

  lemma {:induction false} CostCons(u: Alphabet, lines: seq<string>)
    requires lines != []
    ensures LinesCost(u, lines) == Estimate(u, lines[0]) + LinesCost(u, lines[1..])
    decreases |lines|
  {
    hide Estimate;
    if |lines| > 1 {
      CostCons(u, lines[..|lines| - 1]);
      assert lines[..|lines| - 1][1..] == lines[1..][..|lines[1..]| - 1];
    }
  }

  /** The newlines and the rounding cost at most (8n + 3) / 12 tokens over the budget. */
  lemma TierNearBudget(e: Setting, text: string, budget: nat)
    requires GoodSorts(e.sorts) && GoodAlphabet(e.u)
    ensures Estimate(e.u, Tier(e, text, budget)) <= budget + (8 * |LinesIn(Tier(e, text, budget))| + 3) / 12
  {
    hide *;
    TierLines(e, text, budget);
    var kept := Kept(e, LinesIn(text), budget);
    KeptFits(e, LinesIn(text), budget);
    TierIs(e, text, budget);
    if kept == [] {
      NoLinesNoCost(e.u);
    } else {
      JoinedWeight(e.u, kept);
      EstimateRoundsToNearest(e.u, Tier(e, text, budget));
    }
  }

  lemma TierIs(e: Setting, text: string, budget: int)
    ensures Tier(e, text, budget) == JoinLines(Kept(e, LinesIn(text), budget))
  {
  }

  lemma NoLinesNoCost(u: Alphabet)
    ensures JoinLines([]) == "" && Estimate(u, "") == 0
  {
  }

  /** Building a tier from a tier with no smaller a budget changes nothing. */
  lemma TierIsStable(e: Setting, text: string, budget: int, larger: int)
    requires GoodSorts(e.sorts) && budget <= larger
    ensures Tier(e, Tier(e, text, budget), larger) == Tier(e, text, budget)
  {
    hide *;
    TierLines(e, text, budget);
    var kept := Kept(e, LinesIn(text), budget);
    KeptFits(e, LinesIn(text), budget);
    AllKept(e, kept, larger);
    TierIs(e, Tier(e, text, budget), larger);
    TierIs(e, text, budget);
  }

  lemma {:induction false} AllKept(e: Setting, lines: seq<string>, budget: int)
    requires GoodSorts(e.sorts) && (lines == [] || LinesCost(e.u, lines) <= budget)
    ensures Kept(e, lines, budget) == lines
  {
    hide GoodSorts, Ranked, Greedy, Distinct, Entries, Descending, LinesCost;
    if lines != [] {
      var ranked := Ranked(e, lines);
      RankedIsProper(e, lines);
      CostOfEntries(e.u, ranked, lines, e.score);
      forall i | 0 <= i < |lines| ensures i in IndicesOf(ranked) {
        assert Scored(lines[i], e.score(lines[i]), i) in ranked;
      }
      KeepAtAll(lines, IndicesOf(ranked));
      GreedyTakesAll(e.u, ranked, budget);
    }
  }

  /* ---- the three tiers ---- */

  datatype Budgets = Budgets(l0: int, l1: int, l2: nat)

  datatype Summary = Summary(l0: string, l1: string, l2: string)

  function Generated(e: Setting, summary: string, budgets: Budgets): Summary {
    var l2 := Truncated(e.u, summary, budgets.l2);
    var l1 := Tier(e, l2, budgets.l1);
    Summary(Tier(e, l1, budgets.l0), l1, l2)
  }

  /** Each tier is a thinning of the next, and the fullest one is a prefix of the summary within its budget. */
  lemma TiersNest(e: Setting, summary: string, budgets: Budgets)
    ensures var t := Generated(e, summary, budgets);
      Subsequence(LinesIn(t.l0), LinesIn(t.l1)) && Subsequence(LinesIn(t.l1), LinesIn(t.l2)) && t.l2 <= summary
    ensures Estimate(e.u, Generated(e, summary, budgets).l2) <= budgets.l2
  {
    hide LinesIn, Tier, Subsequence, Truncated, Estimate;
    var l2 := Truncated(e.u, summary, budgets.l2);
    TruncatedFits(e.u, summary, budgets.l2);
    TierLines(e, l2, budgets.l1);
    TierLines(e, Tier(e, l2, budgets.l1), budgets.l0);
  }

  /** With a budget for L0 no smaller than for L1, the two are the same. */
  lemma TiersCollapse(e: Setting, summary: string, budgets: Budgets)
    requires GoodSorts(e.sorts) && budgets.l1 <= budgets.l0
    ensures Generated(e, summary, budgets).l0 == Generated(e, summary, budgets).l1
  {
    hide Tier, Truncated, GoodSorts;
    TierIsStable(e, Truncated(e.u, summary, budgets.l2), budgets.l1, budgets.l0);
  }

  method GenerateTiers(e: Setting, summary: string, budgets: Budgets) returns (t: Summary)
    requires GoodSorts(e.sorts)
    ensures t == Generated(e, summary, budgets)
  {
    hide Tier, Truncated, GoodSorts;
    var l2 := TruncateToTokenBudget(e.u, summary, budgets.l2);
    var l1 := BuildTierFromPriority(e, l2, budgets.l1);
    var l0 := BuildTierFromPriority(e, l1, budgets.l0);
    t := Summary(l0, l1, l2);
  }

  method BuildTierFromPriority(e: Setting, text: string, budget: int) returns (tier: string)
    requires GoodSorts(e.sorts)
    ensures tier == Tier(e, text, budget)
  {
    hide GoodSorts, Greedy, Cost, HasText, Estimate, LinesIn;
    var lines := NonEmptyLines(text);
    if lines == [] {
      assert Kept(e, [], budget) == [] && JoinLines([]) == "";
      return "";
    }
    var scored := ScoreLines(e, lines);
    var ranked := e.sorts.byScore(scored);
    assert ranked == Ranked(e, lines);
    var selected := SelectLines(e.u, ranked, budget);
    var sorted := e.sorts.byIndex(selected);
    Resorted(e, lines, budget);
    tier := JoinLines(LinesOf(sorted));
  }

  /** Sorting the selection by index gives the kept lines in the order of the text. */
  lemma Resorted(e: Setting, lines: seq<string>, budget: int)
    requires GoodSorts(e.sorts)
    ensures LinesOf(e.sorts.byIndex(Greedy(e.u, Ranked(e, lines), budget))) == Kept(e, lines, budget)
  {
    hide Greedy, Ranked, Distinct, Entries, KeepAt, IndicesOf, LinesOf;
    var taken := Greedy(e.u, Ranked(e, lines), budget);
    GreedyIsProper(e, lines, budget);
    ReorderedEntries(taken, e.sorts.byIndex(taken), lines, e.score);
    AscendingEntriesAreKept(e.sorts.byIndex(taken), lines, e.score);
  }

  method NonEmptyLines(text: string) returns (lines: seq<string>)
    ensures lines == LinesIn(text)
  {
    hide HasText, SplitLines;
    var all := SplitLines(text);
    lines := [];
    for i := 0 to |all|
      invariant lines == NonBlank(all[..i])
    {
      assert all[..i + 1][..i] == all[..i];
      if HasText(all[i]) {
        lines := lines + [all[i]];
      }
    }
    assert all[..|all|] == all;
  }

  method ScoreLines(e: Setting, lines: seq<string>) returns (scored: seq<Scored>)
    ensures scored == ScoredFrom(lines, e.score)
  {
    scored := [];
    for i := 0 to |lines|
      invariant |scored| == i
      invariant forall k :: 0 <= k < i ==> scored[k] == Scored(lines[k], e.score(lines[k]), k)
    {
      scored := scored + [Scored(lines[i], e.score(lines[i]), i)];
    }
  }

  method SelectLines(u: Alphabet, ranked: seq<Scored>, budget: int) returns (selected: seq<Scored>)
    ensures selected == Greedy(u, ranked, budget)
  {
    hide *;
    GreedyNil(u, budget);
    selected := [];
    var currentTokens := 0;
    for i := 0 to |ranked|
      invariant selected == Greedy(u, ranked[..i], budget) && currentTokens == Cost(u, selected)
    {
      assert ranked[..i + 1] == ranked[..i] + [ranked[i]];
      GreedySnoc(u, ranked[..i], ranked[i], budget);
      CostSnoc(u, selected, ranked[i]);
      var lineTokens := EstimateTokens(u, ranked[i].line);
      if currentTokens + lineTokens <= budget {
        selected := selected + [ranked[i]];
        currentTokens := currentTokens + lineTokens;
      }
    }
    assert ranked[..|ranked|] == ranked;
  }
}
