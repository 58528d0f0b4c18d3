/** Token estimates and truncation to a token budget. */
module Tokens {

  /** What the code takes from Unicode: which runes count as CJK, and how many bytes a rune takes in UTF-8. */
  datatype Alphabet = Alphabet(isCjk: char -> bool, width: char -> nat)

  /** A line break is not one of the CJK runes. */
  ghost predicate GoodAlphabet(u: Alphabet) {
    !u.isCjk('\n')
  }

  function CjkCount(u: Alphabet, text: string): (n: nat)
    ensures n <= |text|
  {
    if text == "" then 0 else CjkCount(u, text[..|text| - 1]) + if u.isCjk(text[|text| - 1]) then 1 else 0
  }

  /** A quarter token per other rune, two thirds of a token per CJK rune, rounded: in twelfths of a token. */
  function Weight(u: Alphabet, text: string): nat {
    3 * (|text| - CjkCount(u, text)) + 8 * CjkCount(u, text)
  }

  function Estimate(u: Alphabet, text: string): nat {
    (Weight(u, text) + 6) / 12
  }

  /** The estimate is the nearest whole number of tokens, and below the sum exactly when less than half a token is
      over. */
  lemma EstimateRoundsToNearest(u: Alphabet, text: string)
    ensures 12 * Estimate(u, text) <= Weight(u, text) + 6 < 12 * Estimate(u, text) + 12
    ensures 12 * Estimate(u, text) < Weight(u, text) <==> 0 < Weight(u, text) % 12 < 6
  {
    hide Weight;
    var w := Weight(u, text);
    assert w == 12 * (w / 12) + w % 12;
    assert (w + 6) / 12 == if w % 12 < 6 then w / 12 else w / 12 + 1;
  }

  method EstimateTokens(u: Alphabet, text: string) returns (tokens: nat)
    ensures tokens == Estimate(u, text)
  {
    if text == "" {
      return 0;
    }
    var cjkChars, totalChars := 0, 0;
    for i := 0 to |text|
      invariant totalChars == i && cjkChars == CjkCount(u, text[..i])
    {
      assert text[..i + 1][..i] == text[..i];
      totalChars := totalChars + 1;
      if u.isCjk(text[i]) {
        cjkChars := cjkChars + 1;
      }
    }
    assert text[..|text|] == text;
    var asciiChars := totalChars - cjkChars;
    var asciiTokens, cjkTokens := asciiChars as real / 4.0, cjkChars as real / 1.5;
    assert asciiTokens + cjkTokens + 0.5 == (Weight(u, text) + 6) as real / 12.0;
    tokens := (asciiTokens + cjkTokens + 0.5).Floor;
  }

  lemma {:induction false} CjkConcat(u: Alphabet, a: string, b: string)
    ensures CjkCount(u, a + b) == CjkCount(u, a) + CjkCount(u, b)
    decreases |b|
  {
    if b == "" {
      assert a + b == a;
    } else {
      assert (a + b)[..|a + b| - 1] == a + b[..|b| - 1];
      CjkConcat(u, a, b[..|b| - 1]);
    }
  }

  /** A prefix is never estimated higher. */
  lemma PrefixIsNoHeavier(u: Alphabet, text: string, n: nat)
    requires n <= |text|
    ensures Weight(u, text[..n]) <= Weight(u, text) && Estimate(u, text[..n]) <= Estimate(u, text)
  {
    CjkConcat(u, text[..n], text[n..]);
    assert text[..n] + text[n..] == text;
  }

  /* ---- truncation ---- */

  function ByteLength(u: Alphabet, text: string): nat {
    if text == "" then 0 else ByteLength(u, text[..|text| - 1]) + u.width(text[|text| - 1])
  }

  /** The index of the last space or newline, or -1. */
  function LastBreak(text: string): (i: int)
    ensures -1 <= i < |text| && (i >= 0 ==> text[i] == ' ' || text[i] == '\n')
    ensures forall k :: i < k < |text| ==> text[k] != ' ' && text[k] != '\n'
  {
    if text == "" then -1
    else if text[|text| - 1] == ' ' || text[|text| - 1] == '\n' then |text| - 1
    else LastBreak(text[..|text| - 1])
  }

  /** Cut at the last space or newline if it lies in the second half of the bytes. */
  function Recut(u: Alphabet, text: string): (r: string)
    ensures |r| <= |text| && r == text[..|r|]
  {
    var i := LastBreak(text);
    if i >= 0 && ByteLength(u, text[..i]) > ByteLength(u, text) / 2 then text[..i] else text
  }

  lemma QuotientInUnit(n: nat, m: nat)
    ensures m > 0 && n <= m ==> 0.0 <= n as real / m as real <= 1.0
    ensures m > 0 && n < m ==> n as real / m as real < 1.0
    ensures m > 0 && n > 0 ==> n as real / m as real > 0.0
  {
  }

  function Ratio(part: nat, whole: nat): (r: real)
    requires part <= whole
    ensures 0.0 <= r <= 1.0
    ensures part == 0 ==> r == 0.0
  {
    if whole == 0 then 0.0
    else
      QuotientInUnit(part, whole);
      part as real / whole as real
  }

  function CharsPerToken(u: Alphabet, text: string): (r: real)
    ensures 1.5 <= r <= 4.0
  {
    var ratio := Ratio(CjkCount(u, text), |text|);
    if ratio > 0.3 then 1.5 + (1.0 - ratio) * 2.5 else 4.0
  }

  /** The rune allowance for a number of tokens. */
  function Runes(tokens: nat, charsPerToken: real): nat
    requires charsPerToken >= 0.0
  {
    (tokens as real * charsPerToken).Floor
  }

  /** The text up to n runes, or all of it when it is shorter. */
  function Head(text: string, n: nat): (r: string)
    ensures r <= text && |r| <= n
    ensures |r| == if |text| < n then |text| else n
  {
    if n > |text| then text else text[..n]
  }

  /** What one trimming round leaves: at least one rune less, then back to a word boundary. */
  function Shorter(u: Alphabet, text: string, overBy: nat, charsPerToken: real): (r: string)
    requires text != "" && charsPerToken >= 0.0
    ensures |r| < |text| && r <= text
  {
    var trimBy := if Runes(overBy, charsPerToken) > 1 then Runes(overBy, charsPerToken) else 1;
    Recut(u, text[..if |text| > trimBy then |text| - trimBy else 0])
  }

  function Trimmed(u: Alphabet, text: string, maxTokens: nat, charsPerToken: real): string
    requires charsPerToken >= 0.0
    decreases |text|
  {
    if Estimate(u, text) <= maxTokens || text == "" then text
    else Trimmed(u, Shorter(u, text, Estimate(u, text) - maxTokens, charsPerToken), maxTokens, charsPerToken)
  }

  function Truncated(u: Alphabet, text: string, maxTokens: nat): string {
    if Estimate(u, text) <= maxTokens then text
    else
      var cpt := CharsPerToken(u, text);
      Trimmed(u, Recut(u, Head(text, Runes(maxTokens, cpt))), maxTokens, cpt)
  }

  lemma EmptyIsFree(u: Alphabet)
    ensures Estimate(u, "") == 0
  {
  }

  lemma {:induction false} TrimmedFits(u: Alphabet, text: string, maxTokens: nat, charsPerToken: real)
    requires charsPerToken >= 0.0
    ensures Estimate(u, Trimmed(u, text, maxTokens, charsPerToken)) <= maxTokens
    ensures Trimmed(u, text, maxTokens, charsPerToken) <= text
    decreases |text|
  {
    hide Estimate, Shorter;
    EmptyIsFree(u);
    if Estimate(u, text) > maxTokens && text != "" {
      TrimmedFits(u, Shorter(u, text, Estimate(u, text) - maxTokens, charsPerToken), maxTokens, charsPerToken);
    }
  }

  /** The result is a prefix of the text within the budget, and the text itself exactly when that fits. */
  lemma TruncatedFits(u: Alphabet, text: string, maxTokens: nat)
    ensures Estimate(u, Truncated(u, text, maxTokens)) <= maxTokens
    ensures Truncated(u, text, maxTokens) <= text
    ensures Truncated(u, text, maxTokens) == text <==> Estimate(u, text) <= maxTokens
  {
    hide Estimate, Trimmed, Recut, Head, Runes, CharsPerToken;
    if Estimate(u, text) > maxTokens {
      var cpt := CharsPerToken(u, text);
      TrimmedFits(u, Recut(u, Head(text, Runes(maxTokens, cpt))), maxTokens, cpt);
    }
  }

  predicate IsBreak(c: char) {
    c == ' ' || c == '\n'
  }

  /** No break lies in the second half of the text, in bytes. */
  ghost predicate NoLateBreak(u: Alphabet, text: string) {
    forall i :: 0 <= i < |text| && IsBreak(text[i]) ==> 2 * ByteLength(u, text[..i]) <= ByteLength(u, text)
  }

  lemma {:induction false} ByteLengthGrows(u: Alphabet, text: string, n: nat)
    requires n <= |text|
    ensures ByteLength(u, text[..n]) <= ByteLength(u, text)
    decreases |text|
  {
    if n < |text| {
      assert text[..|text| - 1][..n] == text[..n];
      ByteLengthGrows(u, text[..|text| - 1], n);
    } else {
      assert text[..n] == text;
    }
  }

  lemma RecutEnds(u: Alphabet, text: string)
    ensures var r := Recut(u, text); (|r| < |text| && IsBreak(text[|r|])) || (r == text && NoLateBreak(u, text))
  {
    hide LastBreak, ByteLength;
    var last := LastBreak(text);
    if Recut(u, text) == text && !(last >= 0 && ByteLength(u, text[..last]) > ByteLength(u, text) / 2) {
      forall i | 0 <= i < |text| && IsBreak(text[i])
        ensures 2 * ByteLength(u, text[..i]) <= ByteLength(u, text)
      {
        assert text[..last][..i] == text[..i];
        ByteLengthGrows(u, text[..last], i);
      }
    }
  }

  /** A prefix of `text` that ends in front of a break or has none in its second half. */
  ghost predicate EndsAtBreak(u: Alphabet, text: string, r: string) {
    r <= text && ((|r| < |text| && IsBreak(text[|r|])) || NoLateBreak(u, r))
  }

  lemma {:induction false} TrimmedEndsAtBreak(u: Alphabet, whole: string, text: string, maxTokens: nat, cpt: real)
    requires cpt >= 0.0 && EndsAtBreak(u, whole, text)
    ensures EndsAtBreak(u, whole, Trimmed(u, text, maxTokens, cpt))
    decreases |text|
  {
    hide Estimate, Recut, NoLateBreak;
    if Estimate(u, text) > maxTokens && text != "" {
      var trimBy := Runes(Estimate(u, text) - maxTokens, cpt);
      var n := if trimBy > 1 then |text| - trimBy else |text| - 1;
      var kept := text[..if n > 0 then n else 0];
      assert Shorter(u, text, Estimate(u, text) - maxTokens, cpt) == Recut(u, kept);
      RecutEnds(u, kept);
      TrimmedEndsAtBreak(u, whole, Recut(u, kept), maxTokens, cpt);
    }
  }

  /** Text over budget is cut at a break, if one lies in the second half of what is kept otherwise. */
  lemma TruncatedEndsAtBreak(u: Alphabet, text: string, maxTokens: nat)
    requires Estimate(u, text) > maxTokens
    ensures EndsAtBreak(u, text, Truncated(u, text, maxTokens))
  {
    hide Estimate, Recut, NoLateBreak, CharsPerToken, Runes, Trimmed;
    var cpt := CharsPerToken(u, text);
    var head := Head(text, Runes(maxTokens, cpt));
    RecutEnds(u, head);
    TrimmedEndsAtBreak(u, text, Recut(u, head), maxTokens, cpt);
  }

  lemma {:induction false} AllCjk(u: Alphabet, text: string)
    requires forall k :: 0 <= k < |text| ==> u.isCjk(text[k])
    ensures CjkCount(u, text) == |text|
  {
    if text != "" {
      AllCjk(u, text[..|text| - 1]);
    }
  }

  /** CJK text over budget keeps three runes for two tokens. */
  lemma CjkTextKeepsAllowance(u: Alphabet, text: string, maxTokens: nat)
    requires forall k :: 0 <= k < |text| ==> u.isCjk(text[k]) && !IsBreak(text[k])
    requires Estimate(u, text) > maxTokens
    ensures |Truncated(u, text, maxTokens)| == 3 * maxTokens / 2
  {
    hide Trimmed, Recut, LastBreak, CharsPerToken, Runes, CjkCount;
    var n := 3 * maxTokens / 2;
    CjkAllowance(u, text, maxTokens);
    AllCjk(u, text);
    var head := text[..n];
    AllCjk(u, head);
    RecutEnds(u, head);
    assert Recut(u, head) == head;
    NotTrimmed(u, head, maxTokens, CharsPerToken(u, text));
  }

  lemma CjkAllowance(u: Alphabet, text: string, maxTokens: nat)
    requires text != "" && forall k :: 0 <= k < |text| ==> u.isCjk(text[k])
    ensures Runes(maxTokens, CharsPerToken(u, text)) == 3 * maxTokens / 2
  {
    AllCjk(u, text);
    hide CjkCount;
    var all := |text| as real;
    assert all / all == 1.0;
    assert CharsPerToken(u, text) == 1.5;
    HalfFloors(maxTokens);
  }

  lemma HalfFloors(n: nat)
    ensures (n as real * 1.5).Floor == 3 * n / 2
  {
    var q, r := 3 * n / 2, 3 * n % 2;
    assert n as real * 1.5 == q as real + r as real / 2.0;
  }

  lemma NotTrimmed(u: Alphabet, text: string, maxTokens: nat, cpt: real)
    requires cpt >= 0.0 && Estimate(u, text) <= maxTokens
    ensures Trimmed(u, text, maxTokens, cpt) == text
  {
  }

  ghost predicate SingleByte(u: Alphabet, text: string) {
    forall k :: 0 <= k < |text| ==> u.width(text[k]) == 1 && !u.isCjk(text[k])
  }

  lemma {:induction false} SingleByteLength(u: Alphabet, text: string)
    requires SingleByte(u, text)
    ensures ByteLength(u, text) == |text| && CjkCount(u, text) == 0
  {
    if text != "" {
      SingleByteLength(u, text[..|text| - 1]);
    }
  }

  lemma SingleByteAllowance(u: Alphabet, text: string, maxTokens: nat)
    requires SingleByte(u, text)
    ensures Runes(maxTokens, CharsPerToken(u, text)) == 4 * maxTokens
  {
    SingleByteLength(u, text);
    assert CharsPerToken(u, text) == 4.0;
    assert maxTokens as real * 4.0 == (4 * maxTokens) as real;
  }

  lemma SingleByteRecut(u: Alphabet, text: string)
    requires SingleByte(u, text)
    ensures |text| <= 2 * |Recut(u, text)|
    ensures LastBreak(text) == -1 ==> Recut(u, text) == text
  {
    hide LastBreak, ByteLength;
    SingleByteLength(u, text);
    var i := LastBreak(text);
    if i >= 0 {
      SingleByteLength(u, text[..i]);
    }
  }

  lemma SingleByteEstimate(u: Alphabet, text: string)
    requires SingleByte(u, text)
    ensures Estimate(u, text) == (|text| + 2) / 4
  {
    SingleByteLength(u, text);
  }

  /** Text of single-byte runes keeps at least half of what the budget allows, and all of it without breaks. */
  lemma SingleByteTextKeepsHalf(u: Alphabet, text: string, maxTokens: nat)
    requires SingleByte(u, text) && Estimate(u, text) > maxTokens
    ensures 2 * maxTokens <= |Truncated(u, text, maxTokens)| <= 4 * maxTokens
    ensures LastBreak(text) == -1 ==> |Truncated(u, text, maxTokens)| == 4 * maxTokens
  {
    hide LastBreak, Recut, CharsPerToken, Runes, Estimate;
    SingleByteEstimate(u, text);
    SingleByteAllowance(u, text, maxTokens);
    var head := text[..4 * maxTokens];
    SingleByteRecut(u, head);
    SingleByteEstimate(u, Recut(u, head));
  }

  method TruncateToTokenBudget(u: Alphabet, text: string, maxTokens: nat) returns (truncated: string)
    ensures truncated == Truncated(u, text, maxTokens)
  {
    var tokens := EstimateTokens(u, text);
    if tokens <= maxTokens {
      return text;
    }
    var cjkCount := 0;
    for i := 0 to |text|
      invariant cjkCount == CjkCount(u, text[..i])
    {
      assert text[..i + 1][..i] == text[..i];
      if u.isCjk(text[i]) {
        cjkCount := cjkCount + 1;
      }
    }
    assert text[..|text|] == text;
    var cjkRatio := 0.0;
    if |text| > 0 {
      cjkRatio := cjkCount as real / |text| as real;
    }
    assert cjkRatio == Ratio(CjkCount(u, text), |text|);
    var charsPerToken := 4.0;
    if cjkRatio > 0.3 {
      charsPerToken := 1.5 + (1.0 - cjkRatio) * 2.5;
    }
    assert charsPerToken == CharsPerToken(u, text);
    hide *;
    truncated := CutWithin(u, text, maxTokens, charsPerToken);
  }

  /** The first cut and the trimming loop. */
  method CutWithin(u: Alphabet, text: string, maxTokens: nat, charsPerToken: real) returns (truncated: string)
    requires charsPerToken >= 0.0
    ensures truncated == Trimmed(u, Recut(u, Head(text, Runes(maxTokens, charsPerToken))), maxTokens, charsPerToken)
  {
    hide Estimate, Recut, LastBreak, ByteLength;
    var charLimit := Runes(maxTokens, charsPerToken);
    if charLimit > |text| {
      charLimit := |text|;
    }
    assert text[..charLimit] == Head(text, Runes(maxTokens, charsPerToken));
    truncated := CutAtBreak(u, text[..charLimit]);
    var tokens := EstimateTokens(u, truncated);
    while tokens > maxTokens && |truncated| > 0
      invariant tokens == Estimate(u, truncated)
      invariant Trimmed(u, Recut(u, Head(text, Runes(maxTokens, charsPerToken))), maxTokens, charsPerToken) ==
        Trimmed(u, truncated, maxTokens, charsPerToken)
      decreases |truncated|
    {
      truncated := TrimOnce(u, truncated, tokens - maxTokens, charsPerToken);
      tokens := EstimateTokens(u, truncated);
    }
  }

  method TrimOnce(u: Alphabet, text: string, overBy: nat, charsPerToken: real) returns (shorter: string)
    requires text != "" && charsPerToken >= 0.0
    ensures shorter == Shorter(u, text, overBy, charsPerToken)
  {
    var trimBy := Runes(overBy, charsPerToken);
    if trimBy < 1 {
      trimBy := 1;
    }
    var newLen := |text| - trimBy;
    if newLen < 0 {
      newLen := 0;
    }
    shorter := CutAtBreak(u, text[..newLen]);
  }

  /** The word-boundary cut: the later of the last newline and the last space. */
  method CutAtBreak(u: Alphabet, text: string) returns (r: string)
    ensures r == Recut(u, text)
  {
    var lastNewline, lastSpace := LastIndex(text, '\n'), LastIndex(text, ' ');
    var cutPoint := if lastNewline > lastSpace then lastNewline else lastSpace;
    assert cutPoint == LastBreak(text);
    r := text;
    if cutPoint >= 0 && ByteLength(u, text[..cutPoint]) > ByteLength(u, text) / 2 {
      r := text[..cutPoint];
    }
  }

  function LastIndex(text: string, c: char): (i: int)
    ensures -1 <= i < |text| && (i >= 0 ==> text[i] == c) && forall k :: i < k < |text| ==> text[k] != c
  {
    if text == "" then -1 else if text[|text| - 1] == c then |text| - 1 else LastIndex(text[..|text| - 1], c)
  }
}
