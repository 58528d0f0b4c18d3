/** Near-duplicate removal: the earlier of two similar messages goes. */
module Dedup {
  import opened Lists
  import Tokens

  datatype Message = Message(role: string, content: string)

  datatype Outcome = Outcome(messages: seq<Message>, groupsRemoved: nat)

  type Shingles = set<string>

  /* ---- similarity ---- */

  /** Shared shingles over all shingles; nothing is similar to a text too short to have any. */
  function Jaccard(a: Shingles, b: Shingles): (r: real)
    ensures 0.0 <= r <= 1.0
  {
    if a == {} || b == {} then 0.0
    else
      SubsetIsNoLarger(a * b, a + b);
      Tokens.QuotientInUnit(|a * b|, |a + b|);
      |a * b| as real / |a + b| as real
  }

  /** Symmetric; 1 exactly on equal sets, 0 exactly on sets with nothing in common. */
  lemma JaccardMeans(a: Shingles, b: Shingles)
    ensures Jaccard(a, b) == Jaccard(b, a)
    ensures Jaccard(a, b) == 1.0 <==> a == b && a != {}
    ensures Jaccard(a, b) == 0.0 <==> a !! b
  {
    assert a * b == b * a && a + b == b + a;
    if a != {} && b != {} {
      if a == b {
        assert a * b == a && a + b == a;
      } else {
        ProperPart(a * b, a + b);
      }
      assert |a * b| == 0 <==> a !! b by {
        if |a * b| == 0 {
          assert a * b == {};
          assert forall x :: x in a && x in b ==> x in a * b;
        }
      }
    }
  }

  /** Shared parts of three sets: what b shares with a and with c fits into b and what a and c share. */
  lemma SharedParts(a: Shingles, b: Shingles, c: Shingles)
    ensures |a * b| + |b * c| <= |b| + |a * c|
  {
    var x, y := a * b, b * c;
    SubsetIsNoLarger(x + y, b);
    SubsetIsNoLarger(x * y, a * c);
    assert |x| + |y| == |x + y| + |x * y|;
  }

  lemma LargerDenominator(n: real, d: real, d': real)
    requires n >= 0.0 && 0.0 < d <= d'
    ensures n / d' <= n / d
  {
    var q := n / d;
    assert q * d == n && q >= 0.0;
    assert q * d' >= n;
  }

  lemma QuotientIs(n: real, d: real, q: real)
    requires d > 0.0 && q * d == n
    ensures n / d == q
  {
  }

  /** The distance of sets of m and n shingles that differ in p, as twice p over their sizes and p. */
  lemma DistanceIs(m: real, n: real, k: real, p: real)
    requires 0.0 <= k <= m && k <= n && m > 0.0 && p == m + n - 2.0 * k
    ensures 1.0 - k / (m + n - k) == 2.0 * p / (m + n + p)
  {
    var u := m + n - k;
    var f := k / u;
    assert f * u == k;
    assert (1.0 - f) * (m + n + p) == 2.0 * p by {
      assert m + n + p == 2.0 * u;
    }
    QuotientIs(2.0 * p, m + n + p, 1.0 - f);
  }

  lemma FractionDoubles(p: real, q: real, s: real)
    requires 0.0 <= p <= q && s > 0.0
    ensures 2.0 * p / (s + p) <= 2.0 * q / (s + q)
  {
    var f := 2.0 * p / (s + p);
    assert f * (s + p) == 2.0 * p;
    assert 0.0 <= f <= 2.0;
    assert f * (q - p) <= 2.0 * (q - p);
    assert f * (s + q) <= 2.0 * q;
    QuotientAtLeast(2.0 * q, s + q, f);
  }

  lemma QuotientAtLeast(n: real, d: real, q: real)
    requires d > 0.0 && q * d <= n
    ensures q <= n / d
  {
  }

  /** Differences d and e over a common denominator no smaller than their own. */
  lemma SumOfFractions(d: real, e: real, s: real, t: real, w: real)
    requires 0.0 <= d && 0.0 <= e && 0.0 < s <= w && 0.0 < t <= w
    ensures 2.0 * (d + e) / w <= 2.0 * d / s + 2.0 * e / t
  {
    LargerDenominator(2.0 * d, s, w);
    LargerDenominator(2.0 * e, t, w);
    QuotientIs(2.0 * (d + e), w, 2.0 * d / w + 2.0 * e / w);
  }

  lemma RealTriangle(a: real, b: real, c: real, x: real, y: real, z: real)
    requires a > 0.0 && b > 0.0 && c > 0.0 && 0.0 <= x && 0.0 <= y && 0.0 <= z
    requires x <= a && x <= b && y <= b && y <= c && z <= a && z <= c && x + y <= b + z
    ensures 1.0 - z / (a + c - z) <= (1.0 - x / (a + b - x)) + (1.0 - y / (b + c - y))
  {
    var p, d, e := a + c - 2.0 * z, a + b - 2.0 * x, b + c - 2.0 * y;
    DistanceIs(a, c, z, p);
    DistanceIs(a, b, x, d);
    DistanceIs(b, c, y, e);
    FractionDoubles(p, d + e, a + c);
    SumOfFractions(d, e, a + b + d, b + c + e, a + c + (d + e));
  }

  /** The distance 1 - Jaccard obeys the triangle inequality. */
  lemma JaccardTriangle(a: Shingles, b: Shingles, c: Shingles)
    ensures 1.0 - Jaccard(a, c) <= (1.0 - Jaccard(a, b)) + (1.0 - Jaccard(b, c))
  {
    if a != {} && b != {} && c != {} {
      SharedParts(a, b, c);
      SubsetIsNoLarger(a * b, a);
      SubsetIsNoLarger(a * b, b);
      SubsetIsNoLarger(b * c, b);
      SubsetIsNoLarger(b * c, c);
      SubsetIsNoLarger(a * c, a);
      SubsetIsNoLarger(a * c, c);
      assert |a + b| == |a| + |b| - |a * b| && |b + c| == |b| + |c| - |b * c| && |a + c| == |a| + |c| - |a * c|;
      RealTriangle(|a| as real, |b| as real, |c| as real, |a * b| as real, |b * c| as real, |a * c| as real);
    }
  }

  lemma ProperPart(s: set<string>, t: set<string>)
    requires s < t
    ensures |s| < |t|
  {
    assert t == s + (t - s);
    assert t - s != {};
  }

  method JaccardSimilarity(a: Shingles, b: Shingles) returns (r: real)
    ensures r == Jaccard(a, b)
  {
    if |a| == 0 || |b| == 0 {
      return 0.0;
    }
    var smaller, larger := a, b;
    if |b| < |a| {
      smaller, larger := b, a;
    }
    var intersection := CountShared(smaller, larger);
    assert smaller * larger == a * b;
    var union := |a| + |b| - intersection;
    assert union == |a + b|;
    if union == 0 {
      return 0.0;
    }
    r := intersection as real / union as real;
  }

  method CountShared(smaller: Shingles, larger: Shingles) returns (n: nat)
    ensures n == |smaller * larger|
  {
    n := 0;
    var todo := smaller;
    while todo != {}
      invariant todo <= smaller
      invariant n == |(smaller - todo) * larger|
      decreases todo
    {
      var shingle :| shingle in todo;
      ghost var done := (smaller - todo) * larger;
      todo := todo - {shingle};
      if shingle in larger {
        n := n + 1;
        assert (smaller - todo) * larger == done + {shingle};
      } else {
        assert (smaller - todo) * larger == done;
      }
    }
    assert smaller - {} == smaller;
  }

  /* ---- what is dropped ---- */

  predicate Similar(a: Shingles, b: Shingles, threshold: real) {
    Jaccard(a, b) >= threshold
  }

  predicate HasLaterTwin(s: seq<Shingles>, threshold: real, i: nat)
    requires i < |s|
  {
    exists j :: i < j < |s| && Similar(s[i], s[j], threshold)
  }

  function Survivors(s: seq<Shingles>, threshold: real): set<nat> {
    set i | 0 <= i < |s| && !HasLaterTwin(s, threshold, i)
  }

  /** A message stays exactly when it is below the threshold to every later one. */
  lemma SurvivorMeans(s: seq<Shingles>, threshold: real, i: nat)
    requires i < |s|
    ensures i in Survivors(s, threshold) <==> forall j :: i < j < |s| ==> Jaccard(s[i], s[j]) < threshold
  {
    hide Jaccard;
  }

  function ShinglesOf(messages: seq<Message>, shingle: string -> Shingles): (s: seq<Shingles>)
    ensures |s| == |messages| && forall i :: 0 <= i < |s| ==> s[i] == shingle(messages[i].content)
  {
    seq(|messages|, i requires 0 <= i < |messages| => shingle(messages[i].content))
  }

  function Deduplicated(messages: seq<Message>, shingle: string -> Shingles, threshold: real): seq<Message> {
    KeepAt(messages, Survivors(ShinglesOf(messages, shingle), threshold))
  }

  /* ---- what the result guarantees ---- */

  predicate Alike(a: Message, b: Message, shingle: string -> Shingles, threshold: real) {
    Similar(shingle(a.content), shingle(b.content), threshold)
  }

  ghost predicate Apart(s: seq<Message>, shingle: string -> Shingles, threshold: real) {
    forall i, j :: 0 <= i < j < |s| ==> !Alike(s[i], s[j], shingle, threshold)
  }

  /** The messages of a list not alike to a later one. */
  function Unlike(s: seq<Message>, x: Message, shingle: string -> Shingles, threshold: real): (r: seq<Message>)
    ensures forall y :: y in r ==> y in s && !Alike(y, x, shingle, threshold)
  {
    if s == [] then []
    else
      var last := s[|s| - 1];
      Unlike(s[..|s| - 1], x, shingle, threshold) + if Alike(last, x, shingle, threshold) then [] else [last]
  }

  lemma UnlikeSnoc(s: seq<Message>, y: Message, x: Message, shingle: string -> Shingles, threshold: real)
    ensures Unlike([], x, shingle, threshold) == []
    ensures Unlike(s + [y], x, shingle, threshold) ==
      Unlike(s, x, shingle, threshold) + if Alike(y, x, shingle, threshold) then [] else [y]
  {
    hide Alike;
    assert (s + [y])[..|s|] == s;
  }

  /** A new message always stays and drives out exactly the messages it is alike to. */
  lemma {:induction false} DeduplicatedSnoc(messages: seq<Message>, x: Message, shingle: string -> Shingles,
                                            threshold: real)
    ensures Deduplicated(messages + [x], shingle, threshold) ==
      Unlike(Deduplicated(messages, shingle, threshold), x, shingle, threshold) + [x]
  {
    hide Similar, KeepAt, Unlike;
    var s, s' := ShinglesOf(messages, shingle), ShinglesOf(messages + [x], shingle);
    assert s' == s + [shingle(x.content)];
    var at, at' := Survivors(s, threshold), Survivors(s', threshold);
    forall i | 0 <= i < |messages|
      ensures i in at' <==> i in at && !Alike(messages[i], x, shingle, threshold)
    {
      TwinOfExtended(s, shingle(x.content), threshold, i);
    }
    assert !HasLaterTwin(s', threshold, |s|);
    KeepAtStep(messages + [x], |messages|, at');
    assert (messages + [x])[..|messages|] == messages && (messages + [x])[..|messages| + 1] == messages + [x];
    KeepUnlike(messages, x, shingle, threshold, at, at');
  }

  lemma TwinOfExtended(s: seq<Shingles>, x: Shingles, threshold: real, i: nat)
    requires i < |s|
    ensures HasLaterTwin(s + [x], threshold, i) <==> HasLaterTwin(s, threshold, i) || Similar(s[i], x, threshold)
  {
    hide Similar;
    var s' := s + [x];
    assert s'[i] == s[i] && s'[|s|] == x;
    if HasLaterTwin(s, threshold, i) {
      var j :| i < j < |s| && Similar(s[i], s[j], threshold);
      assert s'[j] == s[j];
    }
  }

  lemma {:induction false} KeepUnlike(s: seq<Message>, x: Message, shingle: string -> Shingles, threshold: real,
                                      at: set<nat>, at': set<nat>)
    requires forall i :: 0 <= i < |s| ==> (i in at' <==> i in at && !Alike(s[i], x, shingle, threshold))
    ensures KeepAt(s, at') == Unlike(KeepAt(s, at), x, shingle, threshold)
  {
    hide *;
    if s != [] {
      var front, last := s[..|s| - 1], s[|s| - 1];
      KeepUnlike(front, x, shingle, threshold, at, at');
      KeepAtStep(s, |s| - 1, at);
      KeepAtStep(s, |s| - 1, at');
      assert s[..|s|] == s;
      UnlikeSnoc(KeepAt(front, at), last, x, shingle, threshold);
      assert KeepAt(front, at) + [] == KeepAt(front, at) && KeepAt(front, at') + [] == KeepAt(front, at');
    } else {
      KeepNil(s, x, shingle, threshold, at, at');
    }
  }

  lemma KeepNil(s: seq<Message>, x: Message, shingle: string -> Shingles, threshold: real, at: set<nat>, at': set<nat>)
    requires s == []
    ensures KeepAt(s, at') == Unlike(KeepAt(s, at), x, shingle, threshold)
  {
  }

  /** Survivors are pairwise below the threshold. */
  lemma {:induction false} SurvivorsAreApart(messages: seq<Message>, shingle: string -> Shingles, threshold: real)
    ensures Apart(Deduplicated(messages, shingle, threshold), shingle, threshold)
    decreases |messages|
  {
    if messages == [] {
    } else {
      hide Alike, Unlike, Deduplicated;
      var front, x := messages[..|messages| - 1], messages[|messages| - 1];
      assert messages == front + [x];
      SurvivorsAreApart(front, shingle, threshold);
      DeduplicatedSnoc(front, x, shingle, threshold);
      UnlikeStaysApart(Deduplicated(front, shingle, threshold), x, shingle, threshold);
    }
  }

  lemma {:induction false} UnlikeStaysApart(s: seq<Message>, x: Message, shingle: string -> Shingles, threshold: real)
    requires Apart(s, shingle, threshold)
    ensures Apart(Unlike(s, x, shingle, threshold) + [x], shingle, threshold)
    decreases |s|
  {
    hide Alike, Unlike;
    UnlikeSnoc([], x, x, shingle, threshold);
    if s != [] {
      var front, last := s[..|s| - 1], s[|s| - 1];
      assert s == front + [last];
      UnlikeSnoc(front, last, x, shingle, threshold);
      var kept := Unlike(front, x, shingle, threshold);
      UnlikeStaysApart(front, x, shingle, threshold);
      if !Alike(last, x, shingle, threshold) {
        AppendApart(front, kept, last, x, shingle, threshold);
      } else {
        assert kept + [] == kept;
      }
    }
  }

  lemma AppendApart(front: seq<Message>, kept: seq<Message>, last: Message, x: Message,
                    shingle: string -> Shingles, threshold: real)
    requires Apart(front + [last], shingle, threshold) && Apart(kept + [x], shingle, threshold)
    requires forall y :: y in kept ==> y in front
    requires !Alike(last, x, shingle, threshold)
    ensures Apart(kept + [last] + [x], shingle, threshold)
  {
    hide Alike;
    forall i | 0 <= i < |kept| ensures !Alike(kept[i], last, shingle, threshold) {
      assert kept[i] in kept;
      var k :| 0 <= k < |front| && front[k] == kept[i];
      assert (front + [last])[k] == kept[i] && (front + [last])[|front|] == last;
    }
    forall i | 0 <= i < |kept| ensures !Alike(kept[i], x, shingle, threshold) {
      assert (kept + [x])[i] == kept[i] && (kept + [x])[|kept|] == x;
    }
    forall i, j | 0 <= i < j < |kept| ensures !Alike(kept[i], kept[j], shingle, threshold) {
      assert (kept + [x])[i] == kept[i] && (kept + [x])[j] == kept[j];
    }
  }

  /** A list whose messages are pairwise apart is left alone. */
  lemma {:induction false} ApartIsFixed(s: seq<Message>, shingle: string -> Shingles, threshold: real)
    requires Apart(s, shingle, threshold)
    ensures Deduplicated(s, shingle, threshold) == s
  {
    var sh := ShinglesOf(s, shingle);
    forall i | 0 <= i < |s| ensures !HasLaterTwin(sh, threshold, i) {
      forall j | i < j < |sh| ensures !Similar(sh[i], sh[j], threshold) {
        assert !Alike(s[i], s[j], shingle, threshold);
      }
    }
    KeepAtAll(s, Survivors(sh, threshold));
  }

  /** Order is kept, the last message stays, nothing similar is left over, and a second run changes nothing. */
  lemma DeduplicatedGuarantees(messages: seq<Message>, shingle: string -> Shingles, threshold: real)
    ensures var r := Deduplicated(messages, shingle, threshold);
      Subsequence(r, messages) && Apart(r, shingle, threshold) && Deduplicated(r, shingle, threshold) == r
    ensures messages != [] ==> Deduplicated(messages, shingle, threshold) != []
    ensures messages != [] ==>
      var kept := Deduplicated(messages, shingle, threshold); kept[|kept| - 1] == messages[|messages| - 1]
  {
    hide Apart, Subsequence, Unlike, Survivors, KeepAt;
    SurvivorsAreApart(messages, shingle, threshold);
    ApartIsFixed(Deduplicated(messages, shingle, threshold), shingle, threshold);
    KeepAtIsSubsequence(messages, Survivors(ShinglesOf(messages, shingle), threshold));
    if messages != [] {
      assert messages == messages[..|messages| - 1] + [messages[|messages| - 1]];
      DeduplicatedSnoc(messages[..|messages| - 1], messages[|messages| - 1], shingle, threshold);
    }
  }

  /** A chain of similar messages, each later than the one before. */
  ghost predicate Chain(s: seq<Shingles>, threshold: real, path: seq<nat>) {
    path != [] && (forall k :: 0 <= k < |path| ==> path[k] < |s|) &&
    forall k :: 0 <= k < |path| - 1 ==> path[k] < path[k + 1] && Similar(s[path[k]], s[path[k + 1]], threshold)
  }

  /** Every message reaches a survivor by a chain of similar later messages. */
  lemma {:induction false} DroppedReachSurvivor(s: seq<Shingles>, threshold: real, i: nat) returns (path: seq<nat>)
    requires i < |s|
    ensures Chain(s, threshold, path) && path[0] == i && path[|path| - 1] in Survivors(s, threshold)
    ensures |path| == 1 <==> i in Survivors(s, threshold)
    decreases |s| - i
  {
    hide Similar;
    if HasLaterTwin(s, threshold, i) {
      var j :| i < j < |s| && Similar(s[i], s[j], threshold);
      var rest := DroppedReachSurvivor(s, threshold, j);
      path := [i] + rest;
      forall k | 0 <= k < |path| - 1
        ensures path[k] < path[k + 1] && Similar(s[path[k]], s[path[k + 1]], threshold)
      {
        if k > 0 {
          assert path[k] == rest[k - 1] && path[k + 1] == rest[k];
        }
      }
    } else {
      path := [i];
    }
  }

  predicate NoSurvivorLike(s: seq<Shingles>, threshold: real, i: nat)
    requires i < |s|
  {
    forall j :: 0 <= j < |s| && j in Survivors(s, threshold) ==> !Similar(s[i], s[j], threshold)
  }

  /** The chain can be needed: a dropped message may have nothing similar left in the result. */
  lemma ChainIsNeeded()
    ensures exists s: seq<Shingles>, i: nat :: i < |s| && i !in Survivors(s, 0.3) && NoSurvivorLike(s, 0.3, i)
  {
    var s: seq<Shingles> := [{"a", "b"}, {"b", "c"}, {"c", "d"}];
    assert s[0] * s[1] == {"b"} && s[0] + s[1] == {"a", "b", "c"};
    assert s[1] * s[2] == {"c"} && s[1] + s[2] == {"b", "c", "d"};
    assert s[0] * s[2] == {};
    JaccardMeans(s[0], s[2]);
    assert Similar(s[0], s[1], 0.3) && Similar(s[1], s[2], 0.3) && !Similar(s[0], s[2], 0.3);
    assert HasLaterTwin(s, 0.3, 0) && HasLaterTwin(s, 0.3, 1);
    assert NoSurvivorLike(s, 0.3, 0);
  }

  /* ---- the code ---- */

  function UpTo(n: nat): (r: set<nat>)
    ensures forall i: nat :: i in r <==> i < n
  {
    if n == 0 then {} else UpTo(n - 1) + {n - 1}
  }

  /** How many indices below n are not among the survivors. */
  function DroppedBelow(at: set<nat>, n: nat): nat {
    if n == 0 then 0 else DroppedBelow(at, n - 1) + if n - 1 in at then 0 else 1
  }

  lemma {:induction false} DroppedCount(messages: seq<Message>, at: set<nat>)
    ensures DroppedBelow(at, |messages|) == |messages| - |KeepAt(messages, at)|
  {
    if messages != [] {
      DroppedCount(messages[..|messages| - 1], at);
    }
  }

  method DeduplicateMessages(messages: seq<Message>, shingle: string -> Shingles, threshold: real)
    returns (r: Outcome)
    ensures r.messages == Deduplicated(messages, shingle, threshold)
    ensures r.groupsRemoved == |messages| - |r.messages|
  {
    if |messages| <= 1 {
      return Outcome(messages, 0);
    }
    var shingled := new Shingles[|messages|](_ => {});
    for i := 0 to |messages|
      invariant forall k :: 0 <= k < i ==> shingled[k] == shingle(messages[k].content)
    {
      shingled[i] := shingle(messages[i].content);
    }
    assert shingled[..] == ShinglesOf(messages, shingle);
    r := DropEarlier(messages, shingled[..], threshold);
  }

  /** The shingles are computed by one goroutine per message, finishing in any order. */
  method DeduplicateMessagesParallel(messages: seq<Message>, shingle: string -> Shingles, threshold: real)
    returns (r: Outcome)
    ensures r.messages == Deduplicated(messages, shingle, threshold)
    ensures r.groupsRemoved == |messages| - |r.messages|
  {
    if |messages| <= 1 {
      return Outcome(messages, 0);
    }
    var shingled := new Shingles[|messages|](_ => {});
    var running := UpTo(|messages|);
    while running != {}
      invariant forall k :: 0 <= k < |messages| && k !in running ==> shingled[k] == shingle(messages[k].content)
      invariant forall k :: k in running ==> 0 <= k < |messages|
      decreases running
    {
      var idx :| idx in running;
      shingled[idx] := shingle(messages[idx].content);
      running := running - {idx};
    }
    assert shingled[..] == ShinglesOf(messages, shingle);
    r := DropEarlier(messages, shingled[..], threshold);
  }

  /** Marking and filtering. `dropped[j]` is consulted but never yet set for a later j. */
  method DropEarlier(messages: seq<Message>, shingled: seq<Shingles>, threshold: real) returns (r: Outcome)
    requires |shingled| == |messages|
    ensures r.messages == KeepAt(messages, Survivors(shingled, threshold))
    ensures r.groupsRemoved == |messages| - |r.messages|
  {
    hide Similar, HasLaterTwin, KeepAt;
    var at := Survivors(shingled, threshold);
    var dropped: set<nat> := {};
    var groupsRemoved := 0;
    for i := 0 to |shingled|
      invariant forall k :: k in dropped ==> k < i
      invariant forall k :: 0 <= k < i ==> (k in dropped <==> k !in at)
      invariant groupsRemoved == DroppedBelow(at, i)
    {
      if i in dropped {
        continue;
      }
      var found := FindTwin(shingled, threshold, dropped, i);
      if found {
        dropped := dropped + {i};
        groupsRemoved := groupsRemoved + 1;
      }
    }
    var result := [];
    for i := 0 to |messages|
      invariant result == KeepAt(messages[..i], at)
    {
      KeepAtStep(messages, i, at);
      if i !in dropped {
        result := result + [messages[i]];
      }
    }
    assert messages[..|messages|] == messages;
    DroppedCount(messages, at);
    r := Outcome(result, groupsRemoved);
  }

  method FindTwin(shingled: seq<Shingles>, threshold: real, dropped: set<nat>, i: nat) returns (found: bool)
    requires i < |shingled| && forall k :: k in dropped ==> k < i
    ensures found <==> HasLaterTwin(shingled, threshold, i)
  {
    hide Jaccard;
    found := false;
    for j := i + 1 to |shingled|
      invariant !found && forall k :: i < k < j ==> !Similar(shingled[i], shingled[k], threshold)
    {
      if j in dropped {
        continue;
      }
      var similarity := JaccardSimilarity(shingled[i], shingled[j]);
      if similarity >= threshold {
        return true;
      }
    }
  }
}
