/** Consolidation of episodic memories: decay, prune, and the greedy merge of similar records. */
module Consolidation {
  import opened Lists

  datatype Record = Record(id: string, user: string, content: string, importance: real, accessCount: int,
                           createdAt: int, lastAccessedAt: int)

  type Store = map<string, Record>

  datatype Config = Config(similarity: (string, string) -> real, mergeThreshold: real, decayFactor: real,
                           decayOlderThanDays: int, pruneOlderThanDays: int, pruneImportanceMax: real,
                           pruneAccessCountMax: int)

  const MS_PER_DAY := 86400000
  const FETCH_LIMIT := 1000

  ghost predicate WellKeyed(m: Store) {
    forall id :: id in m ==> m[id].id == id
  }

  function SetImportance(m: Store, id: string, importance: real): Store {
    if id in m then m[id := m[id].(importance := importance)] else m
  }

  /* ---- the merge, record by record ---- */

  /** The store, the ids marked as merged, and the count. */
  datatype Progress = Progress(m: Store, merged: set<string>, count: nat)

  predicate Over(c: Config, r: seq<Record>, i: nat, j: nat)
    requires i < |r| && j < |r|
  {
    c.similarity(r[i].content, r[j].content) > c.mergeThreshold
  }

  function Bumped(newer: Record, older: Record): real {
    var bumped := newer.importance + older.importance * 0.2;
    if bumped > 1.0 then 1.0 else bumped
  }

  /** One comparison: of a similar pair the older goes, and the newer gains a fifth of its importance. */
  function Compare(c: Config, r: seq<Record>, i: nat, j: nat, p: Progress): Progress
    requires i < |r| && j < |r|
  {
    if r[j].id in p.merged || !Over(c, r, i, j) then p
    else
      var (older, newer) := if r[i].createdAt > r[j].createdAt then (r[j], r[i]) else (r[i], r[j]);
      Progress(SetImportance(p.m, newer.id, Bumped(newer, older)) - {older.id}, p.merged + {older.id}, p.count + 1)
  }

  /** Record i compared with those after it, up to k. */
  function Row(c: Config, r: seq<Record>, i: nat, k: nat, p: Progress): Progress
    requires i < |r| && k <= |r|
    decreases k
  {
    if k <= i + 1 then p else Compare(c, r, i, k - 1, Row(c, r, i, k - 1, p))
  }

  function Rows(c: Config, r: seq<Record>, n: nat, p: Progress): Progress
    requires n <= |r|
    decreases n
  {
    if n == 0 then p
    else
      var q := Rows(c, r, n - 1, p);
      if r[n - 1].id in q.merged then q else Row(c, r, n - 1, |r|, q)
  }

  function Merged(c: Config, m: Store, r: seq<Record>): Progress {
    Rows(c, r, |r|, Progress(m, {}, 0))
  }

  /* ---- which records survive ---- */

  /** Whether the row of a record runs: no newer record whose row runs is too similar to it. */
  predicate Alive(c: Config, r: seq<Record>, j: nat)
    requires j < |r|
    decreases j
  {
    forall i :: 0 <= i < j ==> !(Alive(c, r, i) && Outdates(c, r, i, j))
  }

  /** Too similar, and strictly newer. */
  predicate Outdates(c: Config, r: seq<Record>, i: nat, j: nat)
    requires i < |r| && j < |r|
  {
    Over(c, r, i, j) && r[i].createdAt > r[j].createdAt
  }

  /** Whether one of the first n rows takes record j for an older copy. */
  predicate TakenBy(c: Config, r: seq<Record>, n: nat, j: nat)
    requires n <= |r| && j < |r|
  {
    exists i :: 0 <= i < n && i < j && Alive(c, r, i) && Outdates(c, r, i, j)
  }

  /** Whether row i finds record j still unmarked and too similar. */
  predicate Fires(c: Config, r: seq<Record>, i: nat, j: nat)
    requires i < |r| && j < |r|
  {
    i < j && Alive(c, r, i) && Over(c, r, i, j) && !TakenBy(c, r, i, j)
  }

  /** It then takes an older record, or gives way to one made at its own time. */
  predicate Takes(c: Config, r: seq<Record>, i: nat, j: nat)
    requires i < |r| && j < |r|
  {
    Fires(c, r, i, j) && r[i].createdAt > r[j].createdAt
  }

  predicate Ties(c: Config, r: seq<Record>, i: nat, j: nat)
    requires i < |r| && j < |r|
  {
    Fires(c, r, i, j) && r[i].createdAt == r[j].createdAt
  }

  predicate TiesBelow(c: Config, r: seq<Record>, i: nat, k: nat)
    requires i < |r| && k <= |r|
  {
    exists j :: i < j < k && Ties(c, r, i, j)
  }

  /** A record survives when no newer record took it and its row gave way to none. */
  predicate Survives(c: Config, r: seq<Record>, j: nat)
    requires j < |r|
  {
    Alive(c, r, j) && !TiesBelow(c, r, j, |r|)
  }

  /** The importance of record j after the first n rows, none of them its own: bumped by the last that gave way to
      it. */
  function WeightBefore(c: Config, r: seq<Record>, n: nat, j: nat): real
    requires n <= |r| && j < |r|
    decreases n
  {
    if n == 0 then r[j].importance
    else if Ties(c, r, n - 1, j) then Bumped(r[j], r[n - 1])
    else WeightBefore(c, r, n - 1, j)
  }

  /** Its importance after its own row up to k: bumped by the last older record taken. */
  function Weight(c: Config, r: seq<Record>, j: nat, k: nat): real
    requires j < |r| && k <= |r|
    decreases k
  {
    if k <= j + 1 then WeightBefore(c, r, j, j)
    else if Takes(c, r, j, k - 1) then Bumped(r[j], r[k - 1])
    else Weight(c, r, j, k - 1)
  }

  /** The fetched records are in the store, each once. */
  ghost predicate Fresh(m: Store, r: seq<Record>) {
    (forall j :: 0 <= j < |r| ==> r[j].id in m && m[r[j].id] == r[j]) &&
    forall i, j :: 0 <= i < j < |r| ==> r[i].id != r[j].id
  }

  /** Records too similar to each other come newest first, as in every fetch. */
  ghost predicate SimilarByAge(c: Config, r: seq<Record>) {
    forall i, j :: 0 <= i < j < |r| && Over(c, r, i, j) ==> r[i].createdAt >= r[j].createdAt
  }

  /* ---- the invariant of the two loops ---- */

  /** Marked once rows below i and, in row i, columns below k are done. */
  ghost predicate Marked(c: Config, r: seq<Record>, i: nat, k: nat, j: nat)
    requires i <= |r| && k <= |r| && j < |r|
  {
    TakenBy(c, r, i, j) || (j < i && TiesBelow(c, r, j, |r|)) || (j == i && TiesBelow(c, r, j, k))
    || (i < j < k && Alive(c, r, i) && Outdates(c, r, i, j))
  }

  ghost function WeightAt(c: Config, r: seq<Record>, i: nat, k: nat, j: nat): real
    requires i <= |r| && k <= |r| && j < |r|
  {
    if j < i then Weight(c, r, j, |r|)
    else if j == i then Weight(c, r, j, k)
    else WeightBefore(c, r, if j < k then i + 1 else i, j)
  }

  /** How often row i gives way again after it has given way, up to column k. */
  function Again(c: Config, r: seq<Record>, i: nat, k: nat): nat
    requires i < |r| && k <= |r|
    decreases k
  {
    if k <= i + 1 then 0
    else Again(c, r, i, k - 1) + if Ties(c, r, i, k - 1) && TiesBelow(c, r, i, k - 1) then 1 else 0
  }

  function AgainBefore(c: Config, r: seq<Record>, n: nat): nat
    requires n <= |r|
    decreases n
  {
    if n == 0 then 0 else AgainBefore(c, r, n - 1) + Again(c, r, n - 1, |r|)
  }

  ghost predicate MarksAre(c: Config, m: Store, r: seq<Record>, i: nat, k: nat, p: Progress)
    requires i <= |r| && k <= |r|
  {
    (forall j :: 0 <= j < |r| ==> (r[j].id in p.merged <==> Marked(c, r, i, k, j))) && p.merged <= m.Keys
  }

  /** Every mark is counted once, and once more each time a row gives way again. */
  ghost predicate CountIs(c: Config, r: seq<Record>, i: nat, k: nat, p: Progress)
    requires i <= |r| && k <= |r|
  {
    p.count == |p.merged| + AgainBefore(c, r, i) + if i < |r| then Again(c, r, i, k) else 0
  }

  ghost predicate StoreIs(c: Config, m: Store, r: seq<Record>, i: nat, k: nat, p: Progress)
    requires i <= |r| && k <= |r|
  {
    p.m.Keys == m.Keys - p.merged &&
    (forall j :: 0 <= j < |r| && r[j].id in p.m ==> p.m[r[j].id] == r[j].(importance := WeightAt(c, r, i, k, j))) &&
    forall id :: id in p.m && Unfetched(r, id) ==> p.m[id] == m[id]
  }

  ghost predicate Unfetched(r: seq<Record>, id: string) {
    forall j :: 0 <= j < |r| ==> r[j].id != id
  }

  /** The older record goes, the newer one is bumped, and one more merge is counted. */
  ghost function Replaced(p: Progress, newer: Record, older: Record): Progress {
    Progress(SetImportance(p.m, newer.id, Bumped(newer, older)) - {older.id}, p.merged + {older.id}, p.count + 1)
  }

  /** What one comparison does in a row that runs: take the older record, give way to an equally old one, or nothing. */
  lemma CompareFires(c: Config, m: Store, r: seq<Record>, i: nat, k: nat, p: Progress)
    requires Fresh(m, r) && SimilarByAge(c, r) && i < k < |r| && Alive(c, r, i) && MarksAre(c, m, r, i, k, p)
    ensures Takes(c, r, i, k) ==> r[k].id !in p.merged && Compare(c, r, i, k, p) == Replaced(p, r[i], r[k])
    ensures Ties(c, r, i, k) ==> r[k].id !in p.merged && Compare(c, r, i, k, p) == Replaced(p, r[k], r[i])
    ensures !Takes(c, r, i, k) && !Ties(c, r, i, k) ==> Compare(c, r, i, k, p) == p
    ensures r[i].id in p.merged <==> TiesBelow(c, r, i, k)
  {
    hide Over, TakenBy, TiesBelow;
    assert r[k].id in p.merged <==> Marked(c, r, i, k, k);
    assert r[i].id in p.merged <==> Marked(c, r, i, k, i);
    NotTakenBefore(c, r, i);
  }

  /** A row that runs was not taken. */
  lemma NotTakenBefore(c: Config, r: seq<Record>, i: nat)
    requires i < |r|
    ensures Alive(c, r, i) <==> !TakenBy(c, r, i, i)
  {
    hide Outdates;
  }

  lemma MarkedNext(c: Config, r: seq<Record>, i: nat, k: nat, j: nat)
    requires i < k < |r| && j < |r| && Alive(c, r, i) && SimilarByAge(c, r)
    ensures Marked(c, r, i, k + 1, j) <==>
      Marked(c, r, i, k, j) || (j == k && Takes(c, r, i, k)) || (j == i && Ties(c, r, i, k))
  {
    hide Alive, Over;
  }

  lemma {:induction false} MarkOfStep(c: Config, m: Store, r: seq<Record>, i: nat, k: nat, p: Progress)
    requires Fresh(m, r) && SimilarByAge(c, r) && i < k < |r| && Alive(c, r, i)
    requires MarksAre(c, m, r, i, k, p) && CountIs(c, r, i, k, p)
    ensures MarksAre(c, m, r, i, k + 1, Compare(c, r, i, k, p)) && CountIs(c, r, i, k + 1, Compare(c, r, i, k, p))
  {
    hide Alive, Takes, Ties, TiesBelow, Marked, SimilarByAge, Compare;
    CompareFires(c, m, r, i, k, p);
    var q := Compare(c, r, i, k, p);
    forall j | 0 <= j < |r| ensures r[j].id in q.merged <==> Marked(c, r, i, k + 1, j) {
      assert r[j].id in p.merged <==> Marked(c, r, i, k, j);
      MarkedNext(c, r, i, k, j);
    }
  }

  lemma StoreOfStep(c: Config, m: Store, r: seq<Record>, i: nat, k: nat, p: Progress)
    requires Fresh(m, r) && SimilarByAge(c, r) && i < k < |r| && Alive(c, r, i)
    requires MarksAre(c, m, r, i, k, p) && StoreIs(c, m, r, i, k, p)
    ensures StoreIs(c, m, r, i, k + 1, Compare(c, r, i, k, p))
  {
    CompareFires(c, m, r, i, k, p);
    hide Alive, Takes, Ties, TiesBelow, Marked, SimilarByAge, Compare, MarksAre, WeightAt;
    var q := Compare(c, r, i, k, p);
    forall j | 0 <= j < |r|
      ensures r[j].id in q.m ==> q.m[r[j].id] == r[j].(importance := WeightAt(c, r, i, k + 1, j))
    {
      WeightNext(c, r, i, k, j);
    }
  }

  lemma WeightNext(c: Config, r: seq<Record>, i: nat, k: nat, j: nat)
    requires i < k < |r| && j < |r|
    ensures WeightAt(c, r, i, k + 1, j) ==
      if j == i && Takes(c, r, i, k) then Bumped(r[i], r[k])
      else if j == k && Ties(c, r, i, k) then Bumped(r[k], r[i])
      else WeightAt(c, r, i, k, j)
  {
    hide Takes, Ties, Bumped;
  }

  lemma {:induction false} RowKeeps(c: Config, m: Store, r: seq<Record>, i: nat, k: nat, p: Progress)
    requires Fresh(m, r) && SimilarByAge(c, r) && i < |r| && i + 1 <= k <= |r| && Alive(c, r, i)
    requires MarksAre(c, m, r, i, i + 1, p) && StoreIs(c, m, r, i, i + 1, p) && CountIs(c, r, i, i + 1, p)
    ensures MarksAre(c, m, r, i, k, Row(c, r, i, k, p)) && StoreIs(c, m, r, i, k, Row(c, r, i, k, p))
    ensures CountIs(c, r, i, k, Row(c, r, i, k, p))
    decreases k
  {
    hide MarksAre, StoreIs, CountIs, Alive, Compare, SimilarByAge, Fresh;
    if k > i + 1 {
      RowKeeps(c, m, r, i, k - 1, p);
      MarkOfStep(c, m, r, i, k - 1, Row(c, r, i, k - 1, p));
      StoreOfStep(c, m, r, i, k - 1, Row(c, r, i, k - 1, p));
    }
  }

  /** Moving from the end of one row to the start of the next changes no mark and no weight. */
  lemma RowEnds(c: Config, m: Store, r: seq<Record>, i: nat, p: Progress)
    requires i < |r| && Alive(c, r, i)
    requires MarksAre(c, m, r, i, |r|, p) && StoreIs(c, m, r, i, |r|, p) && CountIs(c, r, i, |r|, p)
    ensures MarksAre(c, m, r, i + 1, 0, p) && StoreIs(c, m, r, i + 1, 0, p) && CountIs(c, r, i + 1, 0, p)
  {
    hide Alive, Outdates, Ties, Takes;
    forall j | 0 <= j < |r| ensures Marked(c, r, i, |r|, j) <==> Marked(c, r, i + 1, 0, j) {
    }
  }

  lemma RowStarts(c: Config, m: Store, r: seq<Record>, i: nat, p: Progress)
    requires i < |r|
    requires MarksAre(c, m, r, i, 0, p) && StoreIs(c, m, r, i, 0, p) && CountIs(c, r, i, 0, p)
    ensures MarksAre(c, m, r, i, i + 1, p) && StoreIs(c, m, r, i, i + 1, p) && CountIs(c, r, i, i + 1, p)
    ensures r[i].id in p.merged <==> !Alive(c, r, i)
  {
    hide Alive, Outdates, Ties, Takes, TakenBy;
    NotTakenBefore(c, r, i);
    assert r[i].id in p.merged <==> Marked(c, r, i, 0, i);
    forall j | 0 <= j < |r| ensures Marked(c, r, i, 0, j) <==> Marked(c, r, i, i + 1, j) {
    }
  }

  lemma RowSkipped(c: Config, m: Store, r: seq<Record>, i: nat, p: Progress)
    requires i < |r| && !Alive(c, r, i)
    requires MarksAre(c, m, r, i, 0, p) && StoreIs(c, m, r, i, 0, p) && CountIs(c, r, i, 0, p)
    ensures MarksAre(c, m, r, i + 1, 0, p) && StoreIs(c, m, r, i + 1, 0, p) && CountIs(c, r, i + 1, 0, p)
  {
    NothingFires(c, r, i);
    hide Alive, Outdates, Ties, Takes;
    NothingGained(c, r, i, |r|);
    forall j | 0 <= j < |r| ensures Marked(c, r, i, 0, j) <==> Marked(c, r, i + 1, 0, j) {
    }
  }

  lemma NothingFires(c: Config, r: seq<Record>, i: nat)
    requires i < |r| && !Alive(c, r, i)
    ensures forall j :: 0 <= j < |r| ==> !Takes(c, r, i, j) && !Ties(c, r, i, j)
  {
  }

  lemma {:induction false} NothingGained(c: Config, r: seq<Record>, i: nat, k: nat)
    requires i < |r| && k <= |r|
    requires forall j :: 0 <= j < |r| ==> !Takes(c, r, i, j) && !Ties(c, r, i, j)
    ensures Weight(c, r, i, k) == WeightBefore(c, r, i, i) && Again(c, r, i, k) == 0
    decreases k
  {
    hide Takes, Ties;
    if k > i + 1 {
      NothingGained(c, r, i, k - 1);
    }
  }

  lemma {:induction false} RowsKeep(c: Config, m: Store, r: seq<Record>, n: nat)
    requires Fresh(m, r) && SimilarByAge(c, r) && n <= |r|
    ensures var p := Rows(c, r, n, Progress(m, {}, 0));
      MarksAre(c, m, r, n, 0, p) && StoreIs(c, m, r, n, 0, p) && CountIs(c, r, n, 0, p)
    decreases n
  {
    if n == 0 {
    } else {
      hide MarksAre, StoreIs, CountIs, Alive, Row, SimilarByAge, Fresh;
      RowsKeep(c, m, r, n - 1);
      var q := Rows(c, r, n - 1, Progress(m, {}, 0));
      RowStarts(c, m, r, n - 1, q);
      if Alive(c, r, n - 1) {
        RowKeeps(c, m, r, n - 1, |r|, q);
        RowEnds(c, m, r, n - 1, Row(c, r, n - 1, |r|, q));
      } else {
        RowSkipped(c, m, r, n - 1, q);
      }
    }
  }

  /* ---- what the merge guarantees ---- */

  /** Exactly the survivors stay, each with the weight it gained; nothing else changes; the count is the number deleted
      and the number of times a row gave way again. */
  lemma MergeOutcome(c: Config, m: Store, r: seq<Record>)
    requires Fresh(m, r) && SimilarByAge(c, r)
    ensures var p := Merged(c, m, r);
      (forall j :: 0 <= j < |r| ==> (r[j].id in p.m <==> Survives(c, r, j))) &&
      (forall j :: 0 <= j < |r| && Survives(c, r, j) ==> p.m[r[j].id] == r[j].(importance := Weight(c, r, j, |r|))) &&
      (forall id :: Unfetched(r, id) ==> (id in p.m <==> id in m)) &&
      (forall id :: id in m && Unfetched(r, id) ==> p.m[id] == m[id]) &&
      p.count == |m| - |p.m| + AgainBefore(c, r, |r|)
  {
    hide Survives, Marked, Rows, Weight, Again, SimilarByAge;
    RowsKeep(c, m, r, |r|);
    var p := Rows(c, r, |r|, Progress(m, {}, 0));
    forall j | 0 <= j < |r| ensures r[j].id in p.m <==> Survives(c, r, j) {
      assert r[j].id in p.merged <==> Marked(c, r, |r|, 0, j);
      SurvivesIs(c, r, j);
    }
    MergedAreFetched(c, m, r);
    assert |m.Keys - p.merged| == |m.Keys| - |p.merged|;
    assert |p.m| == |p.m.Keys| && |m| == |m.Keys|;
  }

  lemma SurvivesIs(c: Config, r: seq<Record>, j: nat)
    requires j < |r|
    ensures Survives(c, r, j) <==> !Marked(c, r, |r|, 0, j)
  {
    hide Outdates, Ties;
    NotTakenBefore(c, r, j);
  }

  ghost predicate MarkedAreFetched(r: seq<Record>, p: Progress) {
    forall id :: id in p.merged ==> !Unfetched(r, id)
  }

  lemma {:induction false} RowMarksFetched(c: Config, r: seq<Record>, i: nat, k: nat, p: Progress)
    requires i < |r| && k <= |r| && MarkedAreFetched(r, p)
    ensures MarkedAreFetched(r, Row(c, r, i, k, p))
    decreases k
  {
    hide Over;
    if k > i + 1 {
      RowMarksFetched(c, r, i, k - 1, p);
    }
  }

  lemma {:induction false} RowsMarkFetched(c: Config, m: Store, r: seq<Record>, n: nat)
    requires n <= |r|
    ensures MarkedAreFetched(r, Rows(c, r, n, Progress(m, {}, 0)))
    decreases n
  {
    hide Row;
    if n > 0 {
      RowsMarkFetched(c, m, r, n - 1);
      RowMarksFetched(c, r, n - 1, |r|, Rows(c, r, n - 1, Progress(m, {}, 0)));
    }
  }

  lemma MergedAreFetched(c: Config, m: Store, r: seq<Record>)
    ensures MarkedAreFetched(r, Rows(c, r, |r|, Progress(m, {}, 0)))
  {
    RowsMarkFetched(c, m, r, |r|);
  }

  /** Some row gives way to two records made at its own time. */
  ghost predicate TiesTwice(c: Config, r: seq<Record>) {
    exists i, j, k :: 0 <= i < j < k < |r| && Ties(c, r, i, j) && Ties(c, r, i, k)
  }

  /** The count is the number of deleted records if and only if no row gives way twice; else it is larger. */
  lemma CountIsExact(c: Config, m: Store, r: seq<Record>)
    requires Fresh(m, r) && SimilarByAge(c, r)
    ensures Merged(c, m, r).count >= |m| - |Merged(c, m, r).m|
    ensures Merged(c, m, r).count == |m| - |Merged(c, m, r).m| <==> !TiesTwice(c, r)
  {
    hide Merged, Survives, Weight, TiesTwice, Fresh, SimilarByAge, AgainBefore;
    MergeOutcome(c, m, r);
    AgainMeansTwice(c, r, |r|);
  }

  lemma {:induction false} AgainMeansTwice(c: Config, r: seq<Record>, n: nat)
    requires n <= |r|
    ensures n == |r| ==> (AgainBefore(c, r, n) > 0 <==> TiesTwice(c, r))
    ensures AgainBefore(c, r, n) > 0 <==>
      exists i, j, k :: 0 <= i < j < k < |r| && i < n && Ties(c, r, i, j) && Ties(c, r, i, k)
    decreases n
  {
    hide Ties, Again;
    if n > 0 {
      AgainMeansTwice(c, r, n - 1);
      AgainInRow(c, r, n - 1, |r|);
    }
  }

  lemma {:induction false} AgainInRow(c: Config, r: seq<Record>, i: nat, n: nat)
    requires i < |r| && n <= |r|
    ensures Again(c, r, i, n) > 0 <==> exists j, k :: i < j < k < n && Ties(c, r, i, j) && Ties(c, r, i, k)
    decreases n
  {
    hide Ties;
    if n > i + 1 {
      AgainInRow(c, r, i, n - 1);
    }
  }

  /** Survivors are pairwise at or below the threshold, whatever the creation times. */
  lemma SurvivorsAreApart(c: Config, m: Store, r: seq<Record>)
    requires Fresh(m, r) && SimilarByAge(c, r)
    ensures forall i, j :: 0 <= i < j < |r| && r[i].id in Merged(c, m, r).m && r[j].id in Merged(c, m, r).m ==>
      !Over(c, r, i, j)
  {
    hide Over, Merged, Weight, Again, AgainBefore;
    MergeOutcome(c, m, r);
    forall i, j | 0 <= i < j < |r| && Survives(c, r, i) && Survives(c, r, j) ensures !Over(c, r, i, j) {
      NotTakenBefore(c, r, j);
      assert !TakenBy(c, r, i, j);
      assert !Ties(c, r, i, j);
    }
  }

  /** Some row gives way to a record made at its own time. */
  ghost predicate TiesOnce(c: Config, r: seq<Record>) {
    exists i, j :: 0 <= i < j < |r| && Ties(c, r, i, j)
  }

  /** Every deleted record is above the threshold with a strictly newer survivor if and only if no row gives way to a
      record made at its own time; and then the count is the number deleted. */
  lemma MergeIsSound(c: Config, m: Store, r: seq<Record>)
    requires Fresh(m, r) && SimilarByAge(c, r)
    ensures forall i, j :: 0 <= i < j < |r| && r[i].id in Merged(c, m, r).m && r[j].id in Merged(c, m, r).m ==>
      !Over(c, r, i, j)
    ensures !TiesOnce(c, r) <==>
      forall j :: 0 <= j < |r| && r[j].id !in Merged(c, m, r).m ==> HasNewerTwin(c, r, j, Merged(c, m, r).m)
    ensures !TiesOnce(c, r) ==> Merged(c, m, r).count == |m| - |Merged(c, m, r).m|
  {
    hide Merged, Ties;
    SurvivorsAreApart(c, m, r);
    CountIsExact(c, m, r);
    OutcomeOfSurvival(c, m, r);
    if TiesOnce(c, r) {
      var i, k :| 0 <= i < k < |r| && Ties(c, r, i, k);
      GivesWayToNoNewer(c, m, r, i, k);
    } else {
      forall j | 0 <= j < |r| && r[j].id !in Merged(c, m, r).m ensures HasNewerTwin(c, r, j, Merged(c, m, r).m) {
        TakenHasNewerTwin(c, m, r, j);
      }
    }
  }

  lemma OutcomeOfSurvival(c: Config, m: Store, r: seq<Record>)
    requires Fresh(m, r) && SimilarByAge(c, r)
    ensures forall j :: 0 <= j < |r| ==> (r[j].id in Merged(c, m, r).m <==> Survives(c, r, j))
  {
    hide Merged, Survives, Weight, AgainBefore;
    MergeOutcome(c, m, r);
  }

  /** A record whose row gives way has no strictly newer survivor too similar to it. */
  lemma GivesWayToNoNewer(c: Config, m: Store, r: seq<Record>, i: nat, k: nat)
    requires Fresh(m, r) && SimilarByAge(c, r) && i < k < |r| && Ties(c, r, i, k)
    ensures r[i].id !in Merged(c, m, r).m && !HasNewerTwin(c, r, i, Merged(c, m, r).m)
  {
    hide Merged, Over;
    OutcomeOfSurvival(c, m, r);
    NotTakenBefore(c, r, i);
    assert TiesBelow(c, r, i, |r|);
  }

  lemma TakenHasNewerTwin(c: Config, m: Store, r: seq<Record>, j: nat)
    requires Fresh(m, r) && SimilarByAge(c, r) && !TiesOnce(c, r) && j < |r| && !Survives(c, r, j)
    ensures HasNewerTwin(c, r, j, Merged(c, m, r).m)
  {
    hide Merged, Over, Ties;
    OutcomeOfSurvival(c, m, r);
    var i :| 0 <= i < j && Alive(c, r, i) && Outdates(c, r, i, j);
    assert Survives(c, r, i);
  }

  /** Too similar to a strictly newer record that stays. */
  ghost predicate HasNewerTwin(c: Config, r: seq<Record>, j: nat, m: Store)
    requires j < |r|
  {
    exists i :: 0 <= i < j && r[i].id in m && r[i].createdAt > r[j].createdAt && Over(c, r, i, j)
  }

  /** In terms of the similarities: no two survivors are above the threshold, and a deleted record is, with a newer one
      that survives, unless some row gives way. */
  lemma MergeFollowsThreshold(c: Config, m: Store, r: seq<Record>, j: nat)
    requires Fresh(m, r) && SimilarByAge(c, r) && j < |r|
    ensures var kept := Merged(c, m, r).m;
      r[j].id in kept ==> forall i :: 0 <= i < j && r[i].id in kept ==>
        c.similarity(r[i].content, r[j].content) <= c.mergeThreshold
    ensures var kept := Merged(c, m, r).m;
      r[j].id !in kept && !TiesOnce(c, r) ==> exists i ::
        0 <= i < j && r[i].id in kept && r[i].createdAt > r[j].createdAt
        && c.similarity(r[i].content, r[j].content) > c.mergeThreshold
  {
    MergeIsSound(c, m, r);
    hide Merged, TiesOnce, Fresh, SimilarByAge;
    var kept := Merged(c, m, r).m;
    if r[j].id !in kept && !TiesOnce(c, r) {
      assert HasNewerTwin(c, r, j, kept);
    }
  }

  /** Records too similar to each other were created at different times. */
  ghost predicate SimilarAreDated(c: Config, r: seq<Record>) {
    forall i, j :: 0 <= i < j < |r| && Over(c, r, i, j) ==> r[i].createdAt > r[j].createdAt
  }

  /** Then no row gives way. */
  lemma DatedNeverTie(c: Config, r: seq<Record>)
    requires SimilarAreDated(c, r)
    ensures SimilarByAge(c, r) && !TiesOnce(c, r)
  {
    hide Over;
  }

  lemma TieTakesFirst(c: Config, r: seq<Record>, i: nat, j: nat, p: Progress)
    requires i < j < |r| && Over(c, r, i, j) && r[i].createdAt == r[j].createdAt && r[j].id !in p.merged
    ensures var q := Compare(c, r, i, j, p);
      q.merged == p.merged + {r[i].id} && q.count == p.count + 1 && q.m.Keys == p.m.Keys - {r[i].id}
  {
    hide Over;
  }

  lemma RowsOfThree(c: Config, r: seq<Record>, p: Progress)
    requires |r| == 3
    ensures Row(c, r, 0, 3, p) == Compare(c, r, 0, 2, Compare(c, r, 0, 1, p))
    ensures Row(c, r, 1, 3, p) == Compare(c, r, 1, 2, p) && Row(c, r, 2, 3, p) == p
  {
    hide Compare;
    assert Row(c, r, 0, 2, p) == Compare(c, r, 0, 1, Row(c, r, 0, 1, p));
    assert Row(c, r, 1, 2, p) == p;
  }

  lemma RowNotSkipped(c: Config, r: seq<Record>, n: nat, p: Progress)
    requires 0 < n <= |r| && r[n - 1].id !in Rows(c, r, n - 1, p).merged
    ensures Rows(c, r, n, p) == Row(c, r, n - 1, |r|, Rows(c, r, n - 1, p))
  {
    hide Row;
  }

  /** The smallest case: of three similar records made at the same time two are deleted, but three are counted. */
  lemma TiesAreMiscounted(c: Config, m: Store, r: seq<Record>)
    requires Fresh(m, r) && |r| == 3 && r[0].createdAt == r[1].createdAt == r[2].createdAt
    requires Over(c, r, 0, 1) && Over(c, r, 0, 2) && Over(c, r, 1, 2)
    ensures Merged(c, m, r).count == 3 && Merged(c, m, r).m.Keys == m.Keys - {r[0].id, r[1].id}
    ensures TiesTwice(c, r)
  {
    hide Compare, Row, Rows, Over, Ties;
    var p := Progress(m, {}, 0);
    MergeBegins(c, m, r);
    RowNotSkipped(c, r, 1, p);
    RowsOfThree(c, r, p);
    TieTakesFirst(c, r, 0, 1, p);
    TieTakesFirst(c, r, 0, 2, Compare(c, r, 0, 1, p));
    var q := Rows(c, r, 1, p);
    RowNotSkipped(c, r, 2, p);
    RowsOfThree(c, r, q);
    TieTakesFirst(c, r, 1, 2, q);
    RowNotSkipped(c, r, 3, p);
    RowsOfThree(c, r, Rows(c, r, 2, p));
    FirstRowTies(c, r, 1);
    FirstRowTies(c, r, 2);
  }

  lemma FirstRowTies(c: Config, r: seq<Record>, j: nat)
    requires 0 < j < |r| && Over(c, r, 0, j) && r[0].createdAt == r[j].createdAt
    ensures Ties(c, r, 0, j)
  {
    hide Over;
  }

  /* ---- decay and prune ---- */

  predicate IsStale(user: string, cutoff: int, x: Record) {
    x.user == user && x.lastAccessedAt < cutoff
  }

  predicate IsPrunable(c: Config, user: string, cutoff: int, x: Record) {
    (x.user == user && x.importance < c.pruneImportanceMax) &&
    (x.accessCount <= c.pruneAccessCountMax && x.createdAt < cutoff)
  }

  function Faded(c: Config, importance: real): real {
    AtLeastTenth(Scaled(importance, c.decayFactor))
  }

  function Scaled(x: real, factor: real): real {
    x * factor
  }

  function AtLeastTenth(x: real): real {
    if x < 0.1 then 0.1 else x
  }

  function FadedIf(c: Config, x: Record, stale: bool): Record {
    if stale && x.importance >= 0.1 then x.(importance := Faded(c, x.importance)) else x
  }

  /** The records a decay rewrites. */
  function FadedIds(m: Store, user: string, cutoff: int): set<string> {
    set id | id in m && IsStale(user, cutoff, m[id]) && m[id].importance >= 0.1
  }

  function DecayCutoff(c: Config, now: int): int {
    now - c.decayOlderThanDays * MS_PER_DAY
  }

  function PruneCutoff(c: Config, now: int): int {
    now - c.pruneOlderThanDays * MS_PER_DAY
  }

  function Decayed(c: Config, m: Store, user: string, now: int): Store {
    map id | id in m ::
      FadedIf(c, m[id], IsStale(user, DecayCutoff(c, now), m[id]))
  }

  function Pruned(c: Config, m: Store, user: string, now: int): Store {
    map id | id in m && !IsPrunable(c, user, PruneCutoff(c, now), m[id]) :: m[id]
  }

  /** A fetch for the merge: the user's newest records, newest first, at most the limit. */
  ghost predicate Fetched(m: Store, user: string, r: seq<Record>) {
    Fresh(m, r) && (forall j :: 0 <= j < |r| ==> r[j].user == user) &&
    AgeOrdered(r) &&
    (forall id :: id in m && m[id].user == user && Unfetched(r, id) ==>
      |r| == 1000 && forall j :: 0 <= j < |r| ==> r[j].createdAt >= m[id].createdAt)
  }

  /** One consolidation of a user's memories: decay, prune, merge. */
  ghost predicate Consolidates(c: Config, m: Store, m': Store, user: string, now: int, r: seq<Record>) {
    Fetched(Pruned(c, Decayed(c, m, user, now), user, now), user, r) &&
    m' == Merged(c, Pruned(c, Decayed(c, m, user, now), user, now), r).m
  }

  /** Importances are in [0, 1], and those that reached 0.1 before have not fallen below it. */
  ghost predicate InRange(m: Store) {
    forall id :: id in m ==> 0.0 <= m[id].importance <= 1.0
  }

  ghost predicate Holds(m: Store, m': Store) {
    forall id :: id in m && id in m' && m[id].importance >= 0.1 ==> m'[id].importance >= 0.1
  }

  /** Decay keeps importances from 0.1 to 1 in that interval if and only if its factor is at most 1. */
  lemma DecayStaysInRange(c: Config)
    ensures (forall x: real :: 0.1 <= x <= 1.0 ==> 0.1 <= Faded(c, x) <= 1.0) <==> c.decayFactor <= 1.0
  {
    if c.decayFactor <= 1.0 {
      forall x: real | 0.1 <= x <= 1.0 ensures 0.1 <= Faded(c, x) <= 1.0 {
        FadedInRange(c, x);
      }
    } else {
      assert Faded(c, 1.0) > 1.0;
    }
  }

  lemma FadedInRange(c: Config, x: real)
    requires 0.1 <= x <= 1.0 && c.decayFactor <= 1.0
    ensures 0.1 <= Faded(c, x) <= 1.0
  {
    ScaledDown(x, c.decayFactor);
    hide Scaled;
  }

  lemma ScaledDown(x: real, factor: real)
    requires 0.0 <= x && factor <= 1.0
    ensures Scaled(x, factor) <= x && (factor >= 0.0 ==> Scaled(x, factor) >= 0.0)
  {
  }

  lemma DecayKeepsRange(c: Config, m: Store, user: string, now: int)
    requires c.decayFactor <= 1.0 && InRange(m)
    ensures InRange(Decayed(c, m, user, now)) && Holds(m, Decayed(c, m, user, now))
    ensures Decayed(c, m, user, now).Keys == m.Keys
  {
    hide Faded;
    DecayStaysInRange(c);
  }

  /** A record of importance 0.1 or more is not pruned while the pruning limit is at most 0.1. */
  lemma PruneSpares(c: Config, m: Store, user: string, now: int, id: string)
    requires id in m && m[id].importance >= 0.1 && c.pruneImportanceMax <= 0.1
    ensures id in Pruned(c, m, user, now)
  {
  }

  /** With a factor below 1, a record loses importance exactly when it is the user's, has gone unused for more than the
      set days and stands above 0.1; it keeps the factor's share, at least 0.1, and nothing else of it changes. */
  lemma DecayFadesUnused(c: Config, m: Store, user: string, now: int, id: string)
    requires id in m && 0.0 <= c.decayFactor < 1.0
    ensures var m' := Decayed(c, m, user, now);
      && id in m' && m'[id] == m[id].(importance := m'[id].importance) && m'[id].importance <= m[id].importance
      && (m'[id].importance < m[id].importance <==>
          m[id].user == user && now - m[id].lastAccessedAt > c.decayOlderThanDays * 24 * 60 * 60 * 1000
          && m[id].importance > 0.1)
      && (m'[id].importance < m[id].importance ==>
          m'[id].importance >= 0.1 && m'[id].importance >= m[id].importance * c.decayFactor
          && (m'[id].importance == 0.1 || m'[id].importance == m[id].importance * c.decayFactor))
  {
    var x := m[id].importance;
    assert Decayed(c, m, user, now)[id] == FadedIf(c, m[id], IsStale(user, DecayCutoff(c, now), m[id]));
    if x >= 0.1 {
      FadedFalls(c, x);
      hide Faded;
    }
  }

  lemma FadedFalls(c: Config, x: real)
    requires x >= 0.1 && 0.0 <= c.decayFactor < 1.0
    ensures var y := Faded(c, x); 0.1 <= y <= x && (y < x <==> x > 0.1)
    ensures var y := Faded(c, x); y >= Scaled(x, c.decayFactor) && (y == 0.1 || y == Scaled(x, c.decayFactor))
  {
    StrictlyScaledDown(x, c.decayFactor);
    hide Scaled;
  }

  lemma StrictlyScaledDown(x: real, factor: real)
    requires 0.0 < x && factor < 1.0
    ensures Scaled(x, factor) < x
  {
  }

  /** What n rounds of decay leave of an importance. */
  function FadedTimes(c: Config, x: real, n: nat): real {
    if n == 0 then x else Faded(c, FadedTimes(c, x, n - 1))
  }

  /** The importance times the n-th power of the factor. */
  function ScaledTimes(x: real, factor: real, n: nat): real {
    if n == 0 then x else Scaled(ScaledTimes(x, factor, n - 1), factor)
  }

  /** Importance fades geometrically down to 0.1. */
  lemma {:induction false} FadesGeometrically(c: Config, x: real, n: nat)
    requires x >= 0.1 && 0.0 <= c.decayFactor <= 1.0
    ensures ScaledTimes(x, c.decayFactor, n) >= 0.0
    ensures FadedTimes(c, x, n) == AtLeastTenth(ScaledTimes(x, c.decayFactor, n))
    decreases n
  {
    if n > 0 {
      FadesGeometrically(c, x, n - 1);
      ScaledDown(ScaledTimes(x, c.decayFactor, n - 1), c.decayFactor);
      ScaledDown(0.1, c.decayFactor);
      hide Scaled;
    }
  }

  /** A prune deletes exactly the user's records below the importance limit that were seldom used and are older than the
      set days. */
  lemma PruneDeletesExactly(c: Config, m: Store, user: string, now: int, id: string)
    requires id in m
    ensures id !in Pruned(c, m, user, now) <==>
      m[id].user == user && m[id].importance < c.pruneImportanceMax && m[id].accessCount <= c.pruneAccessCountMax
      && now - m[id].createdAt > c.pruneOlderThanDays * 24 * 60 * 60 * 1000
    ensures id in Pruned(c, m, user, now) ==> Pruned(c, m, user, now)[id] == m[id]
  {
  }

  /** The newer of two merged records gains a fifth of the older one's importance, up to 1. */
  lemma MergeRaises(newer: Record, older: Record)
    requires 0.0 <= newer.importance <= 1.0 && 0.0 <= older.importance
    ensures newer.importance <= Bumped(newer, older) <= 1.0
    ensures Bumped(newer, older) == 1.0 || 5.0 * (Bumped(newer, older) - newer.importance) == older.importance
    ensures newer.importance < 1.0 && older.importance > 0.0 ==> Bumped(newer, older) > newer.importance
  {
  }

  lemma CompareKeepsRange(c: Config, m: Store, r: seq<Record>, i: nat, j: nat, p: Progress)
    requires i < |r| && j < |r| && Fresh(m, r) && InRange(m) && InRange(p.m) && Holds(m, p.m)
    ensures InRange(Compare(c, r, i, j, p).m) && Holds(m, Compare(c, r, i, j, p).m)
  {
    hide Over;
  }

  lemma {:induction false} RowKeepsRange(c: Config, m: Store, r: seq<Record>, i: nat, k: nat, p: Progress)
    requires i < |r| && k <= |r| && Fresh(m, r) && InRange(m) && InRange(p.m) && Holds(m, p.m)
    ensures InRange(Row(c, r, i, k, p).m) && Holds(m, Row(c, r, i, k, p).m)
    decreases k
  {
    hide Compare, InRange, Holds, Fresh;
    if k > i + 1 {
      RowKeepsRange(c, m, r, i, k - 1, p);
      CompareKeepsRange(c, m, r, i, k - 1, Row(c, r, i, k - 1, p));
    }
  }

  lemma {:induction false} RowsKeepRange(c: Config, m: Store, r: seq<Record>, n: nat)
    requires n <= |r| && Fresh(m, r) && InRange(m)
    ensures InRange(Rows(c, r, n, Progress(m, {}, 0)).m) && Holds(m, Rows(c, r, n, Progress(m, {}, 0)).m)
    decreases n
  {
    hide Row, InRange, Fresh;
    if n > 0 {
      RowsKeepRange(c, m, r, n - 1);
      RowKeepsRange(c, m, r, n - 1, |r|, Rows(c, r, n - 1, Progress(m, {}, 0)));
    }
  }

  /** One consolidation, whatever it merges, keeps importances in range and prunes no record of importance 0.1 or
      more. */
  lemma ConsolidationKeepsRange(c: Config, m: Store, m': Store, user: string, now: int, r: seq<Record>)
    requires c.decayFactor <= 1.0 && InRange(m) && Consolidates(c, m, m', user, now, r)
    ensures InRange(m') && Holds(m, m') && m'.Keys <= m.Keys
    ensures forall id :: id in m && m[id].importance >= 0.1 && c.pruneImportanceMax <= 0.1 ==>
      id in Pruned(c, Decayed(c, m, user, now), user, now)
  {
    hide IsStale, IsPrunable, Faded, Rows;
    var decayed := Decayed(c, m, user, now);
    var pruned := Pruned(c, decayed, user, now);
    DecayKeepsRange(c, m, user, now);
    assert InRange(pruned);
    RowsKeepRange(c, pruned, r, |r|);
    RowsOnlyDelete(c, pruned, r, |r|);
    forall id | id in m && m[id].importance >= 0.1 && c.pruneImportanceMax <= 0.1 ensures id in pruned {
      PruneSpares(c, decayed, user, now, id);
    }
  }

  lemma {:induction false} RowsOnlyDelete(c: Config, m: Store, r: seq<Record>, n: nat)
    requires n <= |r|
    ensures Rows(c, r, n, Progress(m, {}, 0)).m.Keys <= m.Keys
    decreases n
  {
    hide Row;
    if n > 0 {
      RowsOnlyDelete(c, m, r, n - 1);
      RowOnlyDeletes(c, r, n - 1, |r|, Rows(c, r, n - 1, Progress(m, {}, 0)));
    }
  }

  lemma {:induction false} RowOnlyDeletes(c: Config, r: seq<Record>, i: nat, k: nat, p: Progress)
    requires i < |r| && k <= |r|
    ensures Row(c, r, i, k, p).m.Keys <= p.m.Keys
    decreases k
  {
    hide Over;
    if k > i + 1 {
      RowOnlyDeletes(c, r, i, k - 1, p);
    }
  }

  /** One consolidation in a run: whose memories, when, and what the merge fetched. */
  datatype Round = Round(user: string, now: int, fetch: seq<Record>)

  ghost predicate Run(c: Config, stores: seq<Store>, rounds: seq<Round>) {
    |stores| == |rounds| + 1 &&
    forall k :: 0 <= k < |rounds| ==>
      Consolidates(c, stores[k], stores[k + 1], rounds[k].user, rounds[k].now, rounds[k].fetch)
  }

  /** Over any number of consolidations an importance that starts in [0.1, 1] stays there as long as the record is
      kept. */
  lemma {:induction false} ImportancesStayInRange(c: Config, stores: seq<Store>, rounds: seq<Round>, k: nat)
    requires c.decayFactor <= 1.0 && Run(c, stores, rounds) && InRange(stores[0]) && k <= |rounds|
    ensures InRange(stores[k]) && Holds(stores[0], stores[k]) && stores[k].Keys <= stores[0].Keys
    decreases k
  {
    hide Consolidates;
    if k > 0 {
      ImportancesStayInRange(c, stores, rounds, k - 1);
      ConsolidationKeepsRange(c, stores[k - 1], stores[k], rounds[k - 1].user, rounds[k - 1].now, rounds[k - 1].fetch);
    }
  }

  ghost predicate YieldsToNewer(c: Config, r: seq<Record>, id: string, m: Store) {
    exists j :: 0 <= j < |r| && r[j].id == id && HasNewerTwin(c, r, j, m)
  }

  /** Such a record only ever leaves the store in a merge: for a newer, similar one that stays, or in a round in which
      some row gives way to a record made at its own time. */
  lemma LeavesOnlyByMerge(c: Config, stores: seq<Store>, rounds: seq<Round>, k: nat, id: string)
    requires c.decayFactor <= 1.0 && c.pruneImportanceMax <= 0.1 && Run(c, stores, rounds) && InRange(stores[0])
    requires k < |rounds| && id in stores[0] && stores[0][id].importance >= 0.1
    requires id in stores[k] && id !in stores[k + 1]
    ensures !Unfetched(rounds[k].fetch, id)
    ensures TiesOnce(c, rounds[k].fetch) || YieldsToNewer(c, rounds[k].fetch, id, stores[k + 1])
  {
    hide *;
    var user, now, r := rounds[k].user, rounds[k].now, rounds[k].fetch;
    RoundOf(c, stores, rounds, k);
    ImportancesStayInRange(c, stores, rounds, k);
    HoldsAt(stores[0], stores[k], id);
    ConsolidationKeepsRange(c, stores[k], stores[k + 1], user, now, r);
    var pruned := Pruned(c, Decayed(c, stores[k], user, now), user, now);
    assert id in pruned;
    GoneByMerge(c, pruned, r, id);
  }

  lemma RoundOf(c: Config, stores: seq<Store>, rounds: seq<Round>, k: nat)
    requires Run(c, stores, rounds) && k < |rounds|
    ensures |stores| == |rounds| + 1
    ensures Consolidates(c, stores[k], stores[k + 1], rounds[k].user, rounds[k].now, rounds[k].fetch)
    ensures var x := rounds[k];
      var pruned := Pruned(c, Decayed(c, stores[k], x.user, x.now), x.user, x.now);
      Fresh(pruned, x.fetch) && SimilarByAge(c, x.fetch) && stores[k + 1] == Merged(c, pruned, x.fetch).m
  {
    hide Merged, Pruned, Decayed, Over;
  }

  lemma HoldsAt(m: Store, m': Store, id: string)
    requires Holds(m, m') && id in m && id in m' && m[id].importance >= 0.1
    ensures m'[id].importance >= 0.1
  {
  }

  lemma GoneByMerge(c: Config, m: Store, r: seq<Record>, id: string)
    requires Fresh(m, r) && SimilarByAge(c, r) && id in m && id !in Merged(c, m, r).m
    ensures !Unfetched(r, id)
    ensures TiesOnce(c, r) || YieldsToNewer(c, r, id, Merged(c, m, r).m)
  {
    hide Merged, HasNewerTwin, TiesOnce, SimilarByAge, Survives, Weight, AgainBefore;
    MergeOutcome(c, m, r);
    MergeIsSound(c, m, r);
    assert !Unfetched(r, id);
    var j :| 0 <= j < |r| && r[j].id == id;
    assert !TiesOnce(c, r) ==> HasNewerTwin(c, r, j, Merged(c, m, r).m);
  }

  /* ---- the code ---- */

  /** The query's ordering by creation time; records made at the same time come in any order. */
  ghost predicate NewestFirst(byAge: seq<Record> -> seq<Record>) {
    forall s :: multiset(byAge(s)) == multiset(s) && AgeOrdered(byAge(s))
  }

  ghost predicate AgeOrdered(r: seq<Record>) {
    forall i, j :: 0 <= i < j < |r| ==> r[i].createdAt >= r[j].createdAt
  }

  ghost predicate Selection(m: Store, p: Record -> bool, records: seq<Record>) {
    Fresh(m, records) && forall id :: id in m ==> (p(m[id]) <==> !Unfetched(records, id))
  }

  lemma UnfetchedSnoc(records: seq<Record>, x: Record)
    ensures forall id :: Unfetched(records + [x], id) <==> Unfetched(records, id) && x.id != id
  {
    forall id ensures Unfetched(records + [x], id) <==> Unfetched(records, id) && x.id != id {
      assert (records + [x])[|records|] == x;
      if Unfetched(records + [x], id) {
        forall j | 0 <= j < |records| ensures records[j].id != id {
          assert (records + [x])[j] == records[j];
        }
      }
    }
  }

  lemma OneMoreFetched(records: seq<Record>, i: nat)
    requires i < |records|
    ensures forall id :: Unfetched(records[..i + 1], id) <==> Unfetched(records[..i], id) && records[i].id != id
  {
    assert records[..i + 1] == records[..i] + [records[i]];
    UnfetchedSnoc(records[..i], records[i]);
  }

  lemma NoneFetched(records: seq<Record>)
    ensures forall id :: Unfetched(records[..0], id)
  {
  }

  /** Rewriting one more record of the fetch. */
  lemma OneMoreFaded(c: Config, m: Store, store: Store, records: seq<Record>, i: nat)
    requires Fresh(m, records) && i < |records| && records[i].importance >= 0.1
    requires store.Keys == m.Keys && WellKeyed(store)
    requires forall id :: id in m ==> store[id] == FadedIf(c, m[id], !Unfetched(records[..i], id))
    ensures var next := SetImportance(store, records[i].id, Faded(c, records[i].importance));
      next.Keys == m.Keys && WellKeyed(next) &&
      forall id :: id in m ==> next[id] == FadedIf(c, m[id], !Unfetched(records[..i + 1], id))
  {
    hide Faded, Unfetched;
    OneMoreFetched(records, i);
    NotYetFetched(m, records, i);
  }

  lemma NotYetFetched(m: Store, records: seq<Record>, i: nat)
    requires Fresh(m, records) && i < |records|
    ensures Unfetched(records[..i], records[i].id)
  {
  }

  lemma ReorderedFetch(m: Store, all: seq<Record>, r: seq<Record>)
    requires Fresh(m, all) && multiset(r) == multiset(all)
    ensures Fresh(m, r) && |r| == |all| && (forall x :: x in r <==> x in all)
    ensures forall id :: Unfetched(r, id) <==> Unfetched(all, id)
  {
    assert NoDuplicates(all);
    PermutationKeeps(all, r);
    forall j | 0 <= j < |r| ensures r[j].id in m && m[r[j].id] == r[j] {
      assert r[j] in r;
      var k :| 0 <= k < |all| && all[k] == r[j];
    }
    forall id ensures Unfetched(r, id) <==> Unfetched(all, id) {
      if !Unfetched(r, id) {
        var j :| 0 <= j < |r| && r[j].id == id;
        assert r[j] in all;
      }
      if !Unfetched(all, id) {
        var j :| 0 <= j < |all| && all[j].id == id;
        assert all[j] in r;
      }
    }
  }

  lemma PrefixIsFetched(r: seq<Record>, k: nat)
    requires k < |r|
    ensures k < FETCH_LIMIT < |r| ==> !Unfetched(r[..FETCH_LIMIT], r[k].id)
  {
    if k < FETCH_LIMIT < |r| {
      assert r[..FETCH_LIMIT][k] == r[k];
    }
  }

  /** The first records of the ordered query are a fetch. */
  lemma FetchFromQuery(m: Store, user: string, all: seq<Record>, r: seq<Record>)
    requires Selection(m, (x: Record) => x.user == user, all) && multiset(r) == multiset(all) && AgeOrdered(r)
    ensures Fetched(m, user, if |r| > FETCH_LIMIT then r[..FETCH_LIMIT] else r)
  {
    ReorderedFetch(m, all, r);
    forall j | 0 <= j < |r| ensures r[j].user == user {
      assert !Unfetched(r, r[j].id);
      assert m[r[j].id] == r[j];
    }
    if |r| > FETCH_LIMIT {
      var f := r[..FETCH_LIMIT];
      forall id | id in m && m[id].user == user && Unfetched(f, id)
        ensures forall j :: 0 <= j < |f| ==> f[j].createdAt >= m[id].createdAt
      {
        assert !Unfetched(r, id);
        var k :| 0 <= k < |r| && r[k].id == id;
        PrefixIsFetched(r, k);
      }
    }
  }

  lemma RowStep(c: Config, r: seq<Record>, i: nat, j: nat, p: Progress)
    requires i < j < |r|
    ensures Row(c, r, i, i + 1, p) == p && Row(c, r, i, j + 1, p) == Compare(c, r, i, j, Row(c, r, i, j, p))
  {
    hide Compare;
  }

  lemma MergeBegins(c: Config, m: Store, r: seq<Record>)
    ensures Rows(c, r, 0, Progress(m, {}, 0)) == Progress(m, {}, 0)
    ensures Merged(c, m, r) == Rows(c, r, |r|, Progress(m, {}, 0))
  {
  }

  lemma RowsStep(c: Config, r: seq<Record>, i: nat, p: Progress)
    requires i < |r|
    ensures var q := Rows(c, r, i, p);
      Rows(c, r, i + 1, p) == (if r[i].id in q.merged then q else Row(c, r, i, |r|, q)) && Row(c, r, i, i + 1, q) == q
  {
  }

  class Consolidator {
    const config: Config
    const byAge: seq<Record> -> seq<Record>
    var store: Store

    ghost predicate Valid()
      reads this
    {
      WellKeyed(store) && NewestFirst(byAge)
    }

    constructor (config: Config, byAge: seq<Record> -> seq<Record>, store: Store)
      requires WellKeyed(store) && NewestFirst(byAge)
      ensures Valid() && this.store == store && this.config == config
    {
      this.config, this.byAge, this.store := config, byAge, store;
    }

    method Consolidate(user: string, now: int) returns (decayed: nat, pruned: nat, merged: nat)
      requires Valid()
      modifies this`store
      ensures Valid()
      ensures exists r :: Consolidates(config, old(store), store, user, now, r)
      ensures decayed == |FadedIds(old(store), user, DecayCutoff(config, now))|
    {
      hide Decayed, Pruned, Merged, Fetched, WellKeyed, NewestFirst;
      decayed := DecayOldMemories(user, now);
      pruned := PruneMemories(user, now);
      ghost var r;
      merged, r := MergeSimilarMemories(user);
      assert Consolidates(config, old(store), store, user, now, r);
    }

    method DecayOldMemories(user: string, now: int) returns (count: nat)
      requires Valid()
      modifies this`store
      ensures Valid() && store == Decayed(config, old(store), user, now)
      ensures count == |FadedIds(old(store), user, DecayCutoff(config, now))|
    {
      hide NewestFirst, Faded, IsStale, Unfetched, DecayCutoff, SetImportance;
      var cutoff := DecayCutoff(config, now);
      var records := Select((x: Record) => IsStale(user, cutoff, x));
      ghost var m := store;
      ghost var faded: set<string> := {};
      NoneFetched(records);
      count := 0;
      for i := 0 to |records|
        invariant count == |faded|
        invariant forall id :: id in faded <==> id in m && m[id].importance >= 0.1 && !Unfetched(records[..i], id)
        invariant WellKeyed(store) && store.Keys == m.Keys
        invariant forall id :: id in m ==> store[id] == FadedIf(config, m[id], !Unfetched(records[..i], id))
      {
        OneMoreFetched(records, i);
        NotYetFetched(m, records, i);
        if records[i].importance < 0.1 {
          continue;
        }
        OneMoreFaded(config, m, store, records, i);
        store := SetImportance(store, records[i].id, Faded(config, records[i].importance));
        faded := faded + {records[i].id};
        count := count + 1;
      }
      assert records[..|records|] == records;
      assert faded == FadedIds(m, user, cutoff);
    }

    method PruneMemories(user: string, now: int) returns (count: nat)
      requires Valid()
      modifies this`store
      ensures Valid() && store == Pruned(config, old(store), user, now)
      ensures count == |old(store)| - |store|
    {
      hide NewestFirst, IsPrunable, Unfetched, PruneCutoff;
      var cutoff := PruneCutoff(config, now);
      var records := Select((x: Record) => IsPrunable(config, user, cutoff, x));
      ghost var m := store;
      NoneFetched(records);
      count := 0;
      for i := 0 to |records|
        invariant count == i && |store| == |m| - i
        invariant forall id :: id in store <==> id in m && Unfetched(records[..i], id)
        invariant forall id :: id in store ==> store[id] == m[id]
      {
        OneMoreFetched(records, i);
        NotYetFetched(m, records, i);
        store := store - {records[i].id};
        count := count + 1;
      }
      assert records[..|records|] == records;
    }

    method MergeSimilarMemories(user: string) returns (count: nat, ghost fetched: seq<Record>)
      requires Valid()
      modifies this`store
      ensures Valid() && Fetched(old(store), user, fetched)
      ensures store == Merged(config, old(store), fetched).m && count == Merged(config, old(store), fetched).count
    {
      hide *;
      var records := GetByUser(user);
      fetched := records;
      ghost var p := Progress(store, {}, 0);
      MergeBegins(config, store, records);
      count := 0;
      var merged: set<string> := {};
      for i := 0 to |records|
        invariant Progress(store, merged, count) == Rows(config, records, i, p)
        invariant Valid()
      {
        RowsStep(config, records, i, p);
        if records[i].id in merged {
          continue;
        }
        ghost var start := Progress(store, merged, count);
        for j := i + 1 to |records|
          invariant Progress(store, merged, count) == Row(config, records, i, j, start)
          invariant Valid()
        {
          RowStep(config, records, i, j, start);
          merged, count := MergePair(records, i, j, merged, count);
        }
      }
    }

    /** The body of the inner loop. */
    method MergePair(records: seq<Record>, i: nat, j: nat, merged: set<string>, count: nat)
      returns (merged': set<string>, count': nat)
      requires Valid() && i < |records| && j < |records|
      modifies this`store
      ensures Valid()
      ensures Progress(store, merged', count') == Compare(config, records, i, j, Progress(old(store), merged, count))
    {
      merged', count' := merged, count;
      if records[j].id in merged {
        return;
      }
      var similarity := config.similarity(records[i].content, records[j].content);
      if similarity > config.mergeThreshold {
        var older, newer := records[i], records[j];
        if older.createdAt > newer.createdAt {
          older, newer := newer, older;
        }
        var bumpedImportance := newer.importance + older.importance * 0.2;
        if bumpedImportance > 1.0 {
          bumpedImportance := 1.0;
        }
        store := SetImportance(store, newer.id, bumpedImportance);
        store := store - {older.id};
        merged' := merged + {older.id};
        count' := count + 1;
      }
    }

    method GetByUser(user: string) returns (records: seq<Record>)
      requires Valid()
      ensures Fetched(store, user, records)
    {
      var all := Select((x: Record) => x.user == user);
      records := byAge(all);
      FetchFromQuery(store, user, all, records);
      if |records| > FETCH_LIMIT {
        records := records[..FETCH_LIMIT];
      }
    }

    /** The records a query selects, in some order. */
    method Select(p: Record -> bool) returns (records: seq<Record>)
      requires Valid()
      ensures Selection(store, p, records)
    {
      records := [];
      var todo := store.Keys;
      while todo != {}
        invariant todo <= store.Keys && Fresh(store, records)
        invariant forall j :: 0 <= j < |records| ==> records[j].id !in todo
        invariant forall id :: id in store && id !in todo ==> (p(store[id]) <==> !Unfetched(records, id))
        decreases todo
      {
        var id :| id in todo;
        todo := todo - {id};
        if p(store[id]) {
          UnfetchedSnoc(records, store[id]);
          records := records + [store[id]];
        }
      }
    }
  }
}
