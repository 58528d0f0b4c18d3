/** Repeated compaction of a session's history: what is summarised and what is lost, with appends while a summary
    is made. */
module Compaction {
  import opened Options
  import opened Transcript
  import TurnLoop

  /** The settings the message range depends on, after defaults are applied. */
  datatype Config = Config(keepRecent: nat, incremental: bool, hasStore: bool)

  ghost predicate GoodConfig(c: Config) {
    c.keepRecent > 0
  }

  /** A compaction is triggered by the token threshold and runs in the background, or forced by a context error. */
  datatype Slot = Background | Forced

  /** The session history, the stored LastMessageIndex, and the history each compaction under way has read. */
  datatype State = State(history: seq<Message>, stored: Option<int>, running: map<Slot, seq<Message>>)

  /** A compaction begins by reading the history and ends, when its summary is made or has failed, by writing back. */
  datatype Event =
    | Append(m: Message)
    | Begin(slot: Slot)
    | End(slot: Slot, readFails: bool, summaryFails: bool, writeFails: bool)

  /** At most one compaction of each kind at a time; a forced one leaves four messages or fewer alone. */
  predicate Enabled(s: State, e: Event) {
    match e
    case Append(_) => true
    case Begin(slot) => slot !in s.running && (slot == Forced ==> |s.history| > 4)
    case End(slot, _, _, _) => slot in s.running
  }

  /** The range of messages that is pre-compressed and summarised. */
  function Range(c: Config, stored: Option<int>, readFails: bool, n: nat): (r: (int, int))
    ensures stored.None? || stored == Some(0) ==> 0 <= r.0 <= r.1 <= n
  {
    if c.incremental && c.hasStore && !readFails && stored.Some? && stored.value < n - c.keepRecent
    then (stored.value, n - c.keepRecent)
    else (0, n)
  }

  /** What becomes of the history: the tail of what was read, or, behind a forced compaction that failed, a half. */
  function Kept(c: Config, history: seq<Message>, before: seq<Message>, e: Event): seq<Message>
    requires e.End?
  {
    if before == [] then history
    else if e.summaryFails then if e.slot == Forced then TurnLoop.HalvedHistory(history) else history
    else if c.keepRecent < |before| then before[|before| - c.keepRecent..] else history
  }

  function Stored(c: Config, stored: Option<int>, before: seq<Message>, e: Event): Option<int>
    requires e.End?
  {
    if before != [] && !e.summaryFails && c.hasStore && !e.writeFails then Some(0) else stored
  }

  function Next(c: Config, s: State, e: Event): State
    requires Enabled(s, e)
  {
    match e
    case Append(m) => s.(history := s.history + [m])
    case Begin(slot) => s.(running := s.running[slot := s.history])
    case End(slot, _, _, _) =>
      var before := s.running[slot];
      State(Kept(c, s.history, before, e), Stored(c, s.stored, before, e), s.running - {slot})
  }

  /** A summary that is made and can be stored resets the stored index; nothing else touches it. */
  lemma SummaryIsStored(c: Config, s: State, e: Event)
    requires Enabled(s, e) && e.End?
    ensures Next(c, s, e).stored == s.stored || Next(c, s, e).stored == Some(0)
    ensures s.stored != Some(0) ==>
      (Next(c, s, e).stored == Some(0) <==> s.running[e.slot] != [] && c.hasStore && !e.summaryFails && !e.writeFails)
  {
  }

  /**
   * All messages ever appended; where in that log each message of the history comes from, and each message a compaction
   * under way has read; and which appended messages went into a summary.
   */
  datatype Ledger = Ledger(log: seq<Message>, origin: seq<nat>, started: map<Slot, seq<nat>>, summarised: set<nat>)

  /** The first entry, and all from the younger half of the middle on. */
  function Halved(origin: seq<nat>): seq<nat> {
    if |origin| <= 4 then origin else [origin[0]] + origin[1 + (|origin| - 2) / 2..]
  }

  /** The rest: the older half of the middle. */
  function Older(origin: seq<nat>): seq<nat> {
    if |origin| <= 4 then [] else origin[1..1 + (|origin| - 2) / 2]
  }

  function KeptOrigin(c: Config, origin: seq<nat>, before: seq<nat>, e: Event): seq<nat>
    requires e.End?
  {
    if before == [] then origin
    else if e.summaryFails then if e.slot == Forced then Halved(origin) else origin
    else if c.keepRecent < |before| then before[|before| - c.keepRecent..] else origin
  }

  /** The messages that go into the summary. */
  function Summed(c: Config, stored: Option<int>, before: seq<nat>, e: Event): seq<nat>
    requires e.End?
  {
    if before == [] || e.summaryFails then []
    else
      var (lo, hi) := Range(c, stored, e.readFails, |before|);
      if 0 <= lo <= hi <= |before| then before[lo..hi] else []
  }

  /** What a compaction under way has read. */
  function Read(l: Ledger, slot: Slot): seq<nat> {
    if slot in l.started then l.started[slot] else []
  }

  function NextLedger(c: Config, s: State, l: Ledger, e: Event): Ledger
    requires Enabled(s, e)
  {
    match e
    case Append(m) => l.(log := l.log + [m], origin := l.origin + [|l.log|])
    case Begin(slot) => l.(started := l.started[slot := l.origin])
    case End(slot, _, _, _) =>
      var before := Read(l, slot);
      Ledger(l.log, KeptOrigin(c, l.origin, before, e), l.started - {slot},
             l.summarised + set i | i in Summed(c, s.stored, before, e))
  }

  /** The message stands for the appended one: emergency compression may have put a note behind its content. */
  ghost predicate Carries(m: Message, appended: Message) {
    m.role == appended.role && m.calls == appended.calls && m.callId == appended.callId && appended.content <= m.content
  }

  /** The messages are the appended ones at the given places, in the order they were appended, each at most once. */
  ghost predicate Holds(messages: seq<Message>, origin: seq<nat>, log: seq<Message>) {
    |origin| == |messages| &&
    (forall k :: 0 <= k < |origin| ==> origin[k] < |log| && Carries(messages[k], log[origin[k]])) &&
    Ascending(origin)
  }

  ghost predicate Inv(s: State, l: Ledger) {
    Holds(s.history, l.origin, l.log) && (s.stored.None? || s.stored == Some(0)) && l.started.Keys == s.running.Keys &&
    (forall slot :: slot in s.running ==> Holds(s.running[slot], l.started[slot], l.log)) &&
    (Forced in s.running ==> |s.running[Forced]| > 4) &&
    forall i :: i in l.summarised ==> i < |l.log|
  }

  lemma HoldsLonger(messages: seq<Message>, origin: seq<nat>, log: seq<Message>, m: Message)
    requires Holds(messages, origin, log)
    ensures Holds(messages, origin, log + [m])
  {
  }

  lemma HoldsAppended(messages: seq<Message>, origin: seq<nat>, log: seq<Message>, m: Message)
    requires Holds(messages, origin, log)
    ensures Holds(messages + [m], origin + [|log|], log + [m])
  {
  }

  lemma HoldsTail(messages: seq<Message>, origin: seq<nat>, log: seq<Message>, n: nat)
    requires Holds(messages, origin, log) && n <= |messages|
    ensures Holds(messages[n..], origin[n..], log)
  {
    hide Carries;
  }

  lemma HoldsHalved(messages: seq<Message>, origin: seq<nat>, log: seq<Message>)
    requires Holds(messages, origin, log)
    ensures Holds(TurnLoop.HalvedHistory(messages), Halved(origin), log)
  {
    if |messages| > 4 {
      var h, o, mid := TurnLoop.HalvedHistory(messages), Halved(origin), (|messages| - 2) / 2;
      assert |h| == |o| == |messages| - mid && o[0] == origin[0];
      forall k | 0 < k < |h| ensures o[k] == origin[k + mid] && h[k] == messages[k + mid] {
      }
      assert Carries(messages[0], log[origin[0]]);
      HeadCarries(messages, log[origin[0]]);
    }
  }

  lemma HeadCarries(messages: seq<Message>, appended: Message)
    requires |messages| > 4 && Carries(messages[0], appended)
    ensures Carries(TurnLoop.HalvedHistory(messages)[0], appended)
  {
  }

  lemma InvStays(c: Config, s: State, l: Ledger, e: Event)
    requires GoodConfig(c) && Inv(s, l) && Enabled(s, e)
    ensures Inv(Next(c, s, e), NextLedger(c, s, l, e))
  {
    hide Holds;
    match e
    case Append(m) =>
      HoldsAppended(s.history, l.origin, l.log, m);
      forall slot | slot in s.running ensures Holds(s.running[slot], l.started[slot], l.log + [m]) {
        HoldsLonger(s.running[slot], l.started[slot], l.log, m);
      }
    case Begin(_) =>
    case End(slot, _, _, _) =>
      EndHolds(c, s, l, e);
      SummedIsKnown(c, s, l, e);
  }

  lemma EndHolds(c: Config, s: State, l: Ledger, e: Event)
    requires GoodConfig(c) && Inv(s, l) && Enabled(s, e) && e.End?
    ensures Holds(Kept(c, s.history, s.running[e.slot], e), KeptOrigin(c, l.origin, l.started[e.slot], e), l.log)
  {
    var before, origin := s.running[e.slot], l.started[e.slot];
    SameLength(before, origin, l.log);
    hide Holds;
    if before != [] && e.summaryFails && e.slot == Forced {
      HoldsHalved(s.history, l.origin, l.log);
    } else if c.keepRecent < |before| {
      HoldsTail(before, origin, l.log, |before| - c.keepRecent);
    }
  }

  lemma SameLength(messages: seq<Message>, origin: seq<nat>, log: seq<Message>)
    requires Holds(messages, origin, log)
    ensures |messages| == |origin| && (messages == [] <==> origin == [])
    ensures forall i :: i in origin ==> i < |log|
  {
  }

  lemma SummedIsKnown(c: Config, s: State, l: Ledger, e: Event)
    requires Inv(s, l) && Enabled(s, e) && e.End?
    ensures forall i :: i in Summed(c, s.stored, l.started[e.slot], e) ==> i < |l.log|
  {
    hide Holds, Range;
    var before := l.started[e.slot];
    SameLength(s.running[e.slot], before, l.log);
    forall i | i in Summed(c, s.stored, before, e) ensures i in before {
    }
  }

  /* ---- what is lost ---- */

  /** Neither in the history nor in a summary. */
  ghost predicate Lost(l: Ledger, i: nat) {
    i < |l.log| && i !in l.origin && i !in l.summarised
  }

  /** Every appended message is still in the history or went into a summary. */
  ghost predicate Covered(l: Ledger) {
    forall i :: !Lost(l, i)
  }

  /** The end of a compaction writes the tail of what it read over the history. */
  predicate WritesBack(c: Config, s: State, e: Event)
    requires Enabled(s, e)
  {
    e.End? && !e.summaryFails && c.keepRecent < |s.running[e.slot]|
  }

  /** A forced compaction without a summary drops the older half of the middle. */
  predicate Halves(s: State, e: Event)
    requires Enabled(s, e)
  {
    e.End? && e.slot == Forced && e.summaryFails && s.running[e.slot] != [] && |s.history| > 4
  }

  /** The event loses a message of the history that is in no summary: one the compaction did not read, when it writes
      back; one of the older half, when it only halves. */
  ghost predicate Loses(c: Config, s: State, l: Ledger, e: Event, i: nat)
    requires Enabled(s, e)
  {
    i in l.origin && i !in l.summarised &&
    ((WritesBack(c, s, e) && i !in Read(l, e.slot)) ||
     (Halves(s, e) && i in Older(l.origin)))
  }

  /** A lost message that a compaction had read before comes back with it. */
  ghost predicate Regains(s: State, l: Ledger, e: Event, i: nat)
    requires Enabled(s, e)
  {
    e.End? && !e.summaryFails && i in Read(l, e.slot)
  }

  /** Exactly so, at every step and for every message. */
  lemma LostExactlyWhen(c: Config, s: State, l: Ledger, e: Event, i: nat)
    requires GoodConfig(c) && Inv(s, l) && Enabled(s, e)
    ensures Lost(NextLedger(c, s, l, e), i) <==> (Lost(l, i) && !Regains(s, l, e, i)) || Loses(c, s, l, e, i)
  {
    match e
    case Append(_) => LostByAppend(c, s, l, e, i);
    case Begin(_) =>
    case End(_, _, _, _) =>
      SameLength(s.running[e.slot], l.started[e.slot], l.log);
      SameLength(s.history, l.origin, l.log);
      if s.running[e.slot] == [] {
        LostByNothing(c, s, l, e, i);
      } else if e.summaryFails {
        LostByFailure(c, s, l, e, i);
      } else {
        LostBySummary(c, s, l, e, i);
      }
  }

  lemma LostByAppend(c: Config, s: State, l: Ledger, e: Event, i: nat)
    requires Inv(s, l) && e.Append?
    ensures Lost(NextLedger(c, s, l, e), i) <==> Lost(l, i)
  {
    var origin := NextLedger(c, s, l, e).origin;
    assert origin[|l.origin|] == |l.log|;
    assert forall x :: x in origin <==> x in l.origin || x == |l.log|;
  }

  lemma LostByNothing(c: Config, s: State, l: Ledger, e: Event, i: nat)
    requires Inv(s, l) && Enabled(s, e) && e.End? && l.started[e.slot] == [] && s.running[e.slot] == []
    ensures Lost(NextLedger(c, s, l, e), i) <==> Lost(l, i)
    ensures !Regains(s, l, e, i) && !Loses(c, s, l, e, i)
  {
    hide Holds;
  }

  lemma HistoryShape(s: State, l: Ledger)
    requires Inv(s, l)
    ensures |s.history| == |l.origin| && Ascending(l.origin) && forall i :: i in l.origin || i in l.summarised ==>
      i < |l.log|
  {
    hide Carries, Ascending;
    SameLength(s.history, l.origin, l.log);
  }

  /** A compaction without a summary adds none, and touches the history only when it was forced. */
  lemma FailureLedger(c: Config, s: State, l: Ledger, e: Event)
    requires Inv(s, l) && Enabled(s, e) && e.End? && e.summaryFails && l.started[e.slot] != []
    ensures var l' := NextLedger(c, s, l, e);
      && l'.log == l.log && l'.summarised == l.summarised
      && l'.origin == if e.slot == Forced then Halved(l.origin) else l.origin
  {
    assert e.slot in l.started;
    hide Inv, Halved, Range;
  }

  lemma LostByFailure(c: Config, s: State, l: Ledger, e: Event, i: nat)
    requires Inv(s, l) && Enabled(s, e) && e.End? && e.summaryFails
    requires l.started[e.slot] != [] && s.running[e.slot] != []
    ensures Lost(NextLedger(c, s, l, e), i) <==> Lost(l, i) || Loses(c, s, l, e, i)
  {
    HistoryShape(s, l);
    FailureLedger(c, s, l, e);
    OlderOfShort(l.origin);
    MiddleGoes(l.origin, i);
    hide Inv, Halved, Older, Ascending, NextLedger;
  }

  ghost predicate Ascending(origin: seq<nat>) {
    forall j, k :: 0 <= j < k < |origin| ==> origin[j] < origin[k]
  }

  lemma ThreeParts(origin: seq<nat>, n: nat)
    requires 1 <= n <= |origin|
    ensures origin == [origin[0]] + origin[1..n] + origin[n..]
  {
  }

  /** Two parts of an ascending list share nothing. */
  lemma PartsAreApart(origin: seq<nat>, n: nat, i: nat)
    requires Ascending(origin) && n <= |origin| && i in origin[..n]
    ensures i !in origin[n..]
  {
    var k :| 0 <= k < n && origin[k] == i;
    forall j | 0 <= j < |origin[n..]| ensures origin[n..][j] != i {
      assert origin[k] < origin[n + j];
    }
  }

  /** The middle of three parts shares nothing with the others. */
  lemma MiddleIsApart(origin: seq<nat>, n: nat, i: nat)
    requires Ascending(origin) && 1 <= n <= |origin| && i in origin[1..n]
    ensures i != origin[0] && i !in origin[n..]
  {
    var k :| 0 <= k < n - 1 && origin[1..n][k] == i;
    assert origin[..n][k + 1] == i && origin[0] < origin[k + 1];
    PartsAreApart(origin, n, i);
  }

  /** Halving keeps exactly what is not in the older half of the middle. */
  lemma MiddleGoes(origin: seq<nat>, i: nat)
    requires Ascending(origin)
    ensures i in Halved(origin) <==> i in origin && i !in Older(origin)
  {
    hide Ascending;
    if |origin| > 4 {
      ThreeParts(origin, 1 + (|origin| - 2) / 2);
      if i in origin[1..1 + (|origin| - 2) / 2] {
        MiddleIsApart(origin, 1 + (|origin| - 2) / 2, i);
      }
    }
  }

  lemma OlderOfShort(origin: seq<nat>)
    ensures |origin| <= 4 ==> Older(origin) == []
    ensures |origin| > 4 ==> origin[1] in Older(origin)
  {
    if |origin| > 4 {
      assert Older(origin)[0] == origin[1];
    }
  }

  lemma LostBySummary(c: Config, s: State, l: Ledger, e: Event, i: nat)
    requires GoodConfig(c) && Inv(s, l) && Enabled(s, e) && e.End? && !e.summaryFails
    requires |s.running[e.slot]| == |l.started[e.slot]| > 0
    ensures Lost(NextLedger(c, s, l, e), i) <==> (Lost(l, i) && !Regains(s, l, e, i)) || Loses(c, s, l, e, i)
  {
    SameLength(s.history, l.origin, l.log);
    hide Holds, Summed;
    TailMeetsRange(c, s.stored, l.started[e.slot], e, i);
  }

  /** The kept tail meets the summarised range, wherever the stored index stands. */
  lemma TailMeetsRange(c: Config, stored: Option<int>, before: seq<nat>, e: Event, i: nat)
    requires GoodConfig(c) && e.End? && !e.summaryFails && before != [] && (stored.None? || stored == Some(0))
    ensures i in before <==>
      i in Summed(c, stored, before, e) || (c.keepRecent < |before| && i in before[|before| - c.keepRecent..])
    ensures c.keepRecent >= |before| ==> Summed(c, stored, before, e) == before
  {
    var n := |before|;
    if c.keepRecent < n {
      assert before == before[..n - c.keepRecent] + before[n - c.keepRecent..];
    }
    assert before[0..n] == before && before[0..if c.keepRecent < n then n - c.keepRecent else n] <= before;
  }

  /* ---- runs ---- */

  /** States and ledgers joined by events. */
  datatype Trace = Trace(states: seq<State>, ledgers: seq<Ledger>, events: seq<Event>)

  ghost predicate Joined(t: Trace) {
    |t.states| == |t.ledgers| == |t.events| + 1
  }

  /** From an empty history, each event possible when it comes. */
  ghost predicate IsTrace(c: Config, t: Trace)
    requires Joined(t)
  {
    t.states[0] == State([], None, map[]) && t.ledgers[0] == Ledger([], [], map[], {}) &&
    forall k :: 0 <= k < |t.events| ==>
      IsStep(c, t.states[k], t.ledgers[k], t.events[k], t.states[k + 1], t.ledgers[k + 1])
  }

  ghost predicate IsStep(c: Config, s: State, l: Ledger, e: Event, s': State, l': Ledger) {
    Enabled(s, e) && s' == Next(c, s, e) && l' == NextLedger(c, s, l, e)
  }

  lemma {:induction false} InvOnTraces(c: Config, t: Trace, k: nat)
    requires GoodConfig(c) && Joined(t) && IsTrace(c, t) && k <= |t.events|
    ensures Inv(t.states[k], t.ledgers[k])
    decreases k
  {
    if k == 0 {
    } else {
      hide Inv, Enabled, Next, NextLedger;
      InvOnTraces(c, t, k - 1);
      assert IsStep(c, t.states[k - 1], t.ledgers[k - 1], t.events[k - 1], t.states[k], t.ledgers[k]);
      InvStays(c, t.states[k - 1], t.ledgers[k - 1], t.events[k - 1]);
    }
  }

  lemma StepOf(c: Config, t: Trace, k: nat)
    requires Joined(t) && IsTrace(c, t) && k < |t.events|
    ensures Enabled(t.states[k], t.events[k]) && t.states[k + 1] == Next(c, t.states[k], t.events[k])
    ensures t.ledgers[k + 1] == NextLedger(c, t.states[k], t.ledgers[k], t.events[k])
  {
    hide Enabled, Next, NextLedger;
    assert IsStep(c, t.states[k], t.ledgers[k], t.events[k], t.states[k + 1], t.ledgers[k + 1]);
  }

  ghost predicate LosesAt(c: Config, t: Trace, k: nat, i: nat)
    requires Joined(t) && IsTrace(c, t) && k < |t.events|
  {
    StepOf(c, t, k);
    Loses(c, t.states[k], t.ledgers[k], t.events[k], i)
  }

  ghost predicate RegainsAt(c: Config, t: Trace, k: nat, i: nat)
    requires Joined(t) && IsTrace(c, t) && k < |t.events|
  {
    StepOf(c, t, k);
    Regains(t.states[k], t.ledgers[k], t.events[k], i)
  }

  /** Event k loses the message and none from then to event n regains it. */
  ghost predicate LostSince(c: Config, t: Trace, k: nat, n: nat, i: nat)
    requires Joined(t) && IsTrace(c, t) && k < n <= |t.events|
  {
    LosesAt(c, t, k, i) && forall j :: k < j < n ==> !RegainsAt(c, t, j, i)
  }

  ghost predicate LostBefore(c: Config, t: Trace, n: nat, i: nat)
    requires Joined(t) && IsTrace(c, t) && n <= |t.events|
  {
    exists k :: 0 <= k < n && LostSince(c, t, k, n, i)
  }

  /** Over every run: a message is lost if and only if some event lost it and none since regained it. */
  lemma {:induction false} LostOnRuns(c: Config, t: Trace, n: nat, i: nat)
    requires GoodConfig(c) && Joined(t) && IsTrace(c, t) && n <= |t.events|
    ensures Lost(t.ledgers[n], i) <==> LostBefore(c, t, n, i)
    decreases n
  {
    if n == 0 {
    } else {
      hide Lost, LostBefore, LosesAt, RegainsAt, IsTrace, GoodConfig;
      LostOnRuns(c, t, n - 1, i);
      LostBeforeNext(c, t, n, i);
      LostAtNext(c, t, n - 1, i);
    }
  }

  lemma LostAtNext(c: Config, t: Trace, k: nat, i: nat)
    requires GoodConfig(c) && Joined(t) && IsTrace(c, t) && k < |t.events|
    ensures Lost(t.ledgers[k + 1], i) <==>
      (Lost(t.ledgers[k], i) && !RegainsAt(c, t, k, i)) || LosesAt(c, t, k, i)
  {
    hide GoodConfig, IsTrace, Lost, Loses, Regains, Inv, Enabled, Next, NextLedger;
    StepOf(c, t, k);
    InvOnTraces(c, t, k);
    LostExactlyWhen(c, t.states[k], t.ledgers[k], t.events[k], i);
  }

  lemma LostBeforeNext(c: Config, t: Trace, n: nat, i: nat)
    requires Joined(t) && IsTrace(c, t) && 0 < n <= |t.events|
    ensures LostBefore(c, t, n, i) <==>
      (LostBefore(c, t, n - 1, i) && !RegainsAt(c, t, n - 1, i)) || LosesAt(c, t, n - 1, i)
  {
    hide LosesAt, RegainsAt, IsTrace;
    if LostBefore(c, t, n - 1, i) && !RegainsAt(c, t, n - 1, i) {
      var k :| 0 <= k < n - 1 && LostSince(c, t, k, n - 1, i);
      assert LostSince(c, t, k, n, i);
    }
    if LosesAt(c, t, n - 1, i) {
      assert LostSince(c, t, n - 1, n, i);
    }
    if LostBefore(c, t, n, i) {
      var k :| 0 <= k < n && LostSince(c, t, k, n, i);
      assert k < n - 1 ==> LostSince(c, t, k, n - 1, i);
    }
  }

  lemma LossIsLost(c: Config, t: Trace, k: nat, i: nat)
    requires GoodConfig(c) && Joined(t) && IsTrace(c, t) && k < |t.events| && LosesAt(c, t, k, i)
    ensures Lost(t.ledgers[k + 1], i)
  {
    hide GoodConfig, IsTrace, Lost, LosesAt, RegainsAt;
    LostOnRuns(c, t, k + 1, i);
    assert LostSince(c, t, k, k + 1, i);
  }

  ghost predicate NeverLoses(c: Config, t: Trace)
    requires Joined(t) && IsTrace(c, t)
  {
    forall k, i :: 0 <= k < |t.events| ==> !LosesAt(c, t, k, i)
  }

  /** Every message ever appended is in the history or in a summary throughout the run, if and only if no event
      loses one. */
  lemma CoverageOfRun(c: Config, t: Trace)
    requires GoodConfig(c) && Joined(t) && IsTrace(c, t)
    ensures (forall n :: 0 <= n <= |t.events| ==> Covered(t.ledgers[n])) <==> NeverLoses(c, t)
  {
    hide GoodConfig, IsTrace, Lost, LosesAt, RegainsAt;
    if NeverLoses(c, t) {
      forall n, i: nat | 0 <= n <= |t.events| ensures !Lost(t.ledgers[n], i) {
        LostOnRuns(c, t, n, i);
      }
    } else {
      var k, i :| 0 <= k < |t.events| && LosesAt(c, t, k, i);
      LossIsLost(c, t, k, i);
      assert !Covered(t.ledgers[k + 1]);
    }
  }

  /* ---- which runs lose what ---- */

  /** Nothing happens between the beginning and the end of a compaction. */
  ghost predicate Undisturbed(events: seq<Event>) {
    forall k :: 0 <= k < |events| && events[k].End? ==> k > 0 && events[k - 1] == Begin(events[k].slot)
  }

  /** With nothing in between and every forced summary written, no appended message is ever lost. */
  lemma SuccessfulRunsLoseNothing(c: Config, t: Trace)
    requires GoodConfig(c) && Joined(t) && IsTrace(c, t) && Undisturbed(t.events)
    requires forall k :: 0 <= k < |t.events| ==>
      !(t.events[k].End? && t.events[k].slot == Forced && t.events[k].summaryFails)
    ensures forall n :: 0 <= n <= |t.events| ==> Covered(t.ledgers[n])
  {
    hide Covered, Inv;
    forall k, i: nat | 0 <= k < |t.events| ensures !LosesAt(c, t, k, i) {
      if t.events[k].End? {
        StepOf(c, t, k - 1);
      }
    }
    hide LosesAt;
    CoverageOfRun(c, t);
  }

  /** While only appends come, a compaction under way has read exactly what stood in the history before them. */
  ghost predicate Grown(l: Ledger, l': Ledger, slot: Slot, n: nat) {
    slot in l'.started && l'.started[slot] == l.origin && l'.summarised == l.summarised && |l'.log| == |l.log| + n &&
    |l'.origin| == |l.origin| + n && l'.origin[..|l.origin|] == l.origin &&
    forall k :: |l.origin| <= k < |l'.origin| ==> l'.origin[k] == |l.log| + k - |l.origin|
  }

  lemma {:induction false} AppendsGrow(c: Config, t: Trace, b: nat, slot: Slot, n: nat)
    requires GoodConfig(c) && Joined(t) && IsTrace(c, t) && b + 1 + n <= |t.events| && t.events[b] == Begin(slot)
    requires forall j :: b < j < b + 1 + n ==> t.events[j].Append?
    ensures Grown(t.ledgers[b], t.ledgers[b + 1 + n], slot, n)
    decreases n
  {
    hide Inv, Enabled, IsTrace;
    StepOf(c, t, b + n);
    if n > 0 {
      AppendsGrow(c, t, b, slot, n - 1);
      OneMoreGrown(t.ledgers[b], t.ledgers[b + n], t.ledgers[b + n + 1], slot, n - 1);
    }
  }

  lemma OneMoreGrown(l: Ledger, grown: Ledger, next: Ledger, slot: Slot, n: nat)
    requires Grown(l, grown, slot, n)
    requires next.started == grown.started && next.summarised == grown.summarised
    requires |next.log| == |grown.log| + 1 && next.origin == grown.origin + [|grown.log|]
    ensures Grown(l, next, slot, n + 1)
  {
  }

  /** A compaction with only appends in between that writes back loses exactly the messages appended in between. */
  lemma AppendedMeanwhileIsLost(c: Config, t: Trace, b: nat, e: nat, slot: Slot, i: nat)
    requires GoodConfig(c) && Joined(t) && IsTrace(c, t) && b < e < |t.events|
    requires t.events[b] == Begin(slot) && t.events[e].End? && t.events[e].slot == slot
    requires forall j :: b < j < e ==> t.events[j].Append?
    requires !t.events[e].summaryFails && c.keepRecent < |t.states[b].history|
    ensures LosesAt(c, t, e, i) <==> |t.ledgers[b].log| <= i < |t.ledgers[e].log|
  {
    hide Inv, Enabled, IsTrace;
    InvOnTraces(c, t, b);
    StepOf(c, t, e);
    var l, l' := t.ledgers[b], t.ledgers[e];
    AppendsGrow(c, t, b, slot, e - b - 1);
    ReadLengths(c, t, b, e, slot);
    HistoryShape(t.states[b], l);
    GrownMeans(l, l', slot, e - b - 1, i);
  }

  lemma ReadLengths(c: Config, t: Trace, b: nat, e: nat, slot: Slot)
    requires GoodConfig(c) && Joined(t) && IsTrace(c, t) && b < e < |t.events|
    requires t.events[e].End? && t.events[e].slot == slot
    requires slot in t.ledgers[e].started && t.ledgers[e].started[slot] == t.ledgers[b].origin
    ensures slot in t.states[e].running
    ensures |t.states[e].running[slot]| == |t.states[b].history|
  {
    hide Carries, Ascending;
    StepOf(c, t, e);
    InvOnTraces(c, t, b);
    InvOnTraces(c, t, e);
  }

  lemma GrownMeans(l: Ledger, l': Ledger, slot: Slot, n: nat, i: nat)
    requires Grown(l, l', slot, n) && (i in l.origin || i in l.summarised ==> i < |l.log|)
    ensures i in l'.origin && i !in l'.summarised && i !in l'.started[slot] <==> |l.log| <= i < |l'.log|
  {
    var k := |l.origin|;
    assert l'.origin == l.origin + l'.origin[k..];
    forall t | 0 <= t < n ensures l'.origin[k..][t] == |l.log| + t {
      assert l'.origin[k..][t] == l'.origin[k + t];
    }
    if |l.log| <= i < |l'.log| {
      assert l'.origin[k..][i - |l.log|] == i;
    }
  }

  /** A first forced compaction whose summary fails loses messages if and only if more than four stand in the
      history. */
  lemma FailedSummaryLoses(c: Config, s: State, l: Ledger, e: Event)
    requires GoodConfig(c) && Inv(s, l) && Enabled(s, e) && Covered(l) && l.summarised == {}
    requires e.End? && e.slot == Forced && e.summaryFails
    ensures Covered(NextLedger(c, s, l, e)) <==> |s.history| <= 4
  {
    hide Lost, NextLedger, Regains, Carries, Ascending;
    assert s.running[Forced] != [];
    hide Inv;
    HistoryShape(s, l);
    OlderOfShort(l.origin);
    if |s.history| > 4 {
      LostExactlyWhen(c, s, l, e, l.origin[1]);
    } else {
      forall i ensures !Lost(NextLedger(c, s, l, e), i) {
        LostExactlyWhen(c, s, l, e, i);
      }
    }
  }

  /** Once a state is stored, what is summarised of a longer history is exactly what is not kept: nothing goes into two
      summaries. */
  lemma SummarisedIsRemoved(c: Config, s: State, l: Ledger, e: Event, i: nat)
    requires GoodConfig(c) && Inv(s, l) && Enabled(s, e) && e.End? && c.incremental && c.hasStore && s.stored.Some?
    requires !e.summaryFails && !e.readFails && |s.running[e.slot]| > c.keepRecent
    requires i in l.started[e.slot] && i !in l.summarised
    ensures i in NextLedger(c, s, l, e).summarised <==> i !in NextLedger(c, s, l, e).origin
  {
    var before := l.started[e.slot];
    SameLength(s.running[e.slot], before, l.log);
    var cut := |before| - c.keepRecent;
    assert Summed(c, s.stored, before, e) == before[..cut];
    assert before == before[..cut] + before[cut..];
    if i in before[..cut] {
      PartsAreApart(before, cut, i);
    }
  }

  /* ---- the code ---- */

  /** What the compactor hands back. */
  datatype Result = Failed | Nothing | Compacted(kept: nat)

  class Agent {
    const config: Config
    var history: seq<Message>
    var lastMessageIndex: Option<int>
    var running: map<Slot, seq<Message>>
    ghost var ledger: Ledger

    ghost function Now(): State
      reads this
    {
      State(history, lastMessageIndex, running)
    }

    ghost predicate Valid()
      reads this
    {
      GoodConfig(config) && Inv(Now(), ledger)
    }

    constructor (keepRecent: int, incremental: bool, hasStore: bool)
      ensures Valid() && Covered(ledger) && history == [] && running == map[]
      ensures config == Config(if keepRecent <= 0 then 10 else keepRecent, incremental, hasStore)
    {
      config := Config(if keepRecent <= 0 then 10 else keepRecent, incremental, hasStore);
      history, lastMessageIndex, running := [], None, map[];
      ledger := Ledger([], [], map[], {});
    }

    method AddMessage(m: Message)
      requires Valid()
      modifies this
      ensures Valid() && Now() == Next(config, old(Now()), Append(m))
      ensures ledger == NextLedger(config, old(Now()), old(ledger), Append(m))
    {
      InvStays(config, Now(), ledger, Append(m));
      ledger := NextLedger(config, Now(), ledger, Append(m));
      history := history + [m];
    }

    /** Reads the history to compact, unless such a compaction is under way or a forced one has too little to do. */
    method BeginCompaction(slot: Slot) returns (begun: bool)
      requires Valid()
      modifies this
      ensures Valid() && begun == Enabled(old(Now()), Begin(slot))
      ensures begun ==> Now() == Next(config, old(Now()), Begin(slot))
      ensures begun ==> ledger == NextLedger(config, old(Now()), old(ledger), Begin(slot))
      ensures !begun ==> Now() == old(Now()) && ledger == old(ledger)
    {
      if slot in running || (slot == Forced && |history| <= 4) {
        return false;
      }
      InvStays(config, Now(), ledger, Begin(slot));
      ledger := NextLedger(config, Now(), ledger, Begin(slot));
      running := running[slot := history];
      begun := true;
    }

    /** The compactor's run over the messages; `outcome` names the store and model failures it meets. */
    method Summarise(messages: seq<Message>, outcome: Event) returns (result: Result, passed: seq<Message>)
      requires outcome.End? && (lastMessageIndex.None? || lastMessageIndex == Some(0))
      modifies this`lastMessageIndex
      ensures var (lo, hi) := Range(config, old(lastMessageIndex), outcome.readFails, |messages|);
        passed == messages[lo..hi]
      ensures lastMessageIndex == Stored(config, old(lastMessageIndex), messages, outcome)
      ensures messages == [] ==> result == Nothing
      ensures messages != [] ==> result == if outcome.summaryFails then Failed else Compacted(config.keepRecent)
    {
      var messagesToCompact := messages;
      if config.incremental && config.hasStore && !outcome.readFails && lastMessageIndex.Some? {
        if lastMessageIndex.value < |messages| - config.keepRecent {
          var keepFrom, keepTo := lastMessageIndex.value, |messages| - config.keepRecent;
          if keepTo > keepFrom {
            messagesToCompact := messages[keepFrom..keepTo];
          }
        }
      }
      passed := [];
      for i := 0 to |messagesToCompact|
        invariant passed == messagesToCompact[..i]
      {
        passed := passed + [messagesToCompact[i]];
      }
      if |messagesToCompact| == 0 {
        return Nothing, passed;
      }
      if outcome.summaryFails {
        return Failed, passed;
      }
      if config.hasStore && !outcome.writeFails {
        lastMessageIndex := Some(0);
      }
      result := Compacted(config.keepRecent);
    }

    /** Runs the compactor on what was read and writes back. */
    method EndCompaction(outcome: Event)
      requires Valid() && outcome.End? && outcome.slot in running
      modifies this
      ensures Valid() && Now() == Next(config, old(Now()), outcome)
      ensures ledger == NextLedger(config, old(Now()), old(ledger), outcome)
    {
      InvStays(config, Now(), ledger, outcome);
      ghost var ledger' := NextLedger(config, Now(), ledger, outcome);
      var before := running[outcome.slot];
      running := running - {outcome.slot};
      hide NextLedger, TurnLoop.HalvedHistory;
      var result, _ := Summarise(before, outcome);
      if result.Failed? && outcome.slot == Forced {
        history := TurnLoop.HalvedHistory(history);
      }
      if result.Compacted? && 0 < result.kept < |before| {
        history := before[|before| - result.kept..];
      }
      ledger := ledger';
    }
  }
}
