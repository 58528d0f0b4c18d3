/** The life of sub-agents: creation under a limit, suspension, dismissal, and task results. */
module Lifecycle {
  import opened Lists

  datatype Status = Active | Suspended | Dismissed

  datatype Agent = Agent(user: string, status: Status, completedTasks: nat, successRate: real, lastActiveAt: int)

  type Agents = map<string, Agent>

  /** The stored agents, and every id handed out so far. */
  datatype State = State(agents: Agents, used: set<string>)

  /** One call, made atomically. `victim` is the agent a full Create dismisses; ids and clock readings come from
      outside. */
  datatype Event =
    | Create(id: string, user: string, now: int, victim: string)
    | Suspend(id: string, now: int)
    | Dismiss(id: string, now: int)
    | Revive(id: string, now: int)
    | Kill(id: string)
    | Record(id: string, success: bool, now: int)
    | Cleanup(cutoff: int)

  function ActiveIds(m: Agents, user: string): set<string> {
    set id | id in m && m[id].user == user && m[id].status == Active
  }

  /** The agent not active for longest among the active ones of a user. */
  predicate IsOldestActive(m: Agents, user: string, id: string) {
    id in ActiveIds(m, user) && forall other :: other in ActiveIds(m, user) ==>
      m[id].lastActiveAt <= m[other].lastActiveAt
  }

  predicate Enabled(max: int, s: State, e: Event) {
    e.Create? ==> e.id !in s.used && (Full(max, s.agents, e.user) ==> IsOldestActive(s.agents, e.user, e.victim))
  }

  /** At the limit, with an agent to dismiss. */
  predicate Full(max: int, m: Agents, user: string) {
    |ActiveIds(m, user)| >= max && ActiveIds(m, user) != {}
  }

  function Marked(m: Agents, id: string, status: Status, now: int): Agents {
    if id in m then m[id := m[id].(status := status, lastActiveAt := now)] else m
  }

  function NextRate(a: Agent, success: bool): real {
    if a.completedTasks == 0 then if success then 1.0 else 0.0
    else if success then a.successRate * 0.8 + 0.2
    else a.successRate * 0.8
  }

  /** The update of a task result. The test for dismissal reads the old task count and the new rate. */
  function Recorded(a: Agent, success: bool, now: int): Agent {
    var rate := NextRate(a, success);
    Agent(a.user, if a.completedTasks >= 5 && rate < 0.2 then Dismissed else a.status, a.completedTasks + 1, rate, now)
  }

  function Next(max: int, m: Agents, e: Event): Agents {
    match e
    case Create(id, user, now, victim) =>
      (if Full(max, m, user) then Marked(m, victim, Dismissed, now) else m)[id := Agent(user, Active, 0, 0.0, now)]
    case Suspend(id, now) => if id in m && m[id].status == Active then Marked(m, id, Suspended, now) else m
    case Dismiss(id, now) => Marked(m, id, Dismissed, now)
    case Revive(id, now) =>
      if id in m && m[id].status == Suspended && |ActiveIds(m, m[id].user)| < max then Marked(m, id, Active, now) else m
    case Kill(id) => m - {id}
    case Record(id, success, now) => if id in m then m[id := Recorded(m[id], success, now)] else m
    case Cleanup(cutoff) => map id | id in m && !(m[id].status == Dismissed && m[id].lastActiveAt < cutoff) :: m[id]
  }

  function Step(max: int, s: State, e: Event): State {
    State(Next(max, s.agents, e), if e.Create? then s.used + {e.id} else s.used)
  }

  function Run(max: int, s: State, events: seq<Event>): State {
    if events == [] then s else Step(max, Run(max, s, events[..|events| - 1]), events[|events| - 1])
  }

  ghost predicate Possible(max: int, s: State, events: seq<Event>) {
    forall k :: 0 <= k < |events| ==> Enabled(max, Run(max, s, events[..k]), events[k])
  }

  lemma PossiblePrefix(max: int, s: State, events: seq<Event>, n: nat)
    requires Possible(max, s, events) && n <= |events|
    ensures Possible(max, s, events[..n])
  {
    forall k | 0 <= k < n ensures Enabled(max, Run(max, s, events[..n][..k]), events[..n][k]) {
      assert events[..n][..k] == events[..k];
    }
  }

  /* ---- the limit on active agents ---- */

  ghost predicate WithinLimit(max: int, m: Agents) {
    forall user :: |ActiveIds(m, user)| <= max
  }

  /** Storing one agent adds its id to its user's active set, or takes it out. */
  lemma ActiveAfterUpdate(m: Agents, id: string, a: Agent, user: string)
    ensures ActiveIds(m[id := a], user) ==
      if a.user == user && a.status == Active then ActiveIds(m, user) + {id} else ActiveIds(m, user) - {id}
  {
  }

  lemma CreateKeepsLimit(max: int, s: State, e: Event, user: string)
    requires max >= 1 && WithinLimit(max, s.agents) && Enabled(max, s, e) && e.Create? && s.agents.Keys <= s.used
    ensures |ActiveIds(Next(max, s.agents, e), user)| <= max
  {
    var m := s.agents;
    var m' := if Full(max, m, e.user) then Marked(m, e.victim, Dismissed, e.now) else m;
    var a := Agent(e.user, Active, 0, 0.0, e.now);
    if Full(max, m, e.user) {
      ActiveAfterUpdate(m, e.victim, m[e.victim].(status := Dismissed, lastActiveAt := e.now), user);
    }
    ActiveAfterUpdate(m', e.id, a, user);
    assert |ActiveIds(m, user)| <= max;
    SubsetIsNoLarger(ActiveIds(m', user), ActiveIds(m, user));
  }

  lemma StepKeepsLimit(max: int, s: State, e: Event)
    requires max >= 1 && WithinLimit(max, s.agents) && Enabled(max, s, e) && s.agents.Keys <= s.used
    ensures WithinLimit(max, Step(max, s, e).agents) && Step(max, s, e).agents.Keys <= Step(max, s, e).used
  {
    hide Enabled;
    forall user ensures |ActiveIds(Next(max, s.agents, e), user)| <= max {
      if e.Create? {
        CreateKeepsLimit(max, s, e, user);
      } else {
        OtherKeepsLimit(max, s.agents, e, user);
      }
    }
  }

  lemma OtherKeepsLimit(max: int, m: Agents, e: Event, user: string)
    requires WithinLimit(max, m) && !e.Create?
    ensures |ActiveIds(Next(max, m, e), user)| <= max
  {
    assert |ActiveIds(m, user)| <= max;
    if e.Revive? && e.id in m {
      ActiveAfterUpdate(m, e.id, m[e.id].(status := Active, lastActiveAt := e.now), user);
    }
    if !e.Revive? || e.id !in m || m[e.id].user != user {
      assert ActiveIds(Next(max, m, e), user) <= ActiveIds(m, user);
      SubsetIsNoLarger(ActiveIds(Next(max, m, e), user), ActiveIds(m, user));
    }
  }

  /** With a limit of at least one, every sequence of calls keeps every user within it. */
  lemma {:induction false} ActiveWithinLimit(max: int, events: seq<Event>)
    requires max >= 1 && Possible(max, State(map[], {}), events)
    ensures var s := Run(max, State(map[], {}), events); WithinLimit(max, s.agents) && s.agents.Keys <= s.used
    decreases |events|
  {
    hide Step, WithinLimit, Enabled;
    if events == [] {
      EmptyIsWithin(max);
    } else {
      var n := |events| - 1;
      PossiblePrefix(max, State(map[], {}), events, n);
      ActiveWithinLimit(max, events[..n]);
      StepKeepsLimit(max, Run(max, State(map[], {}), events[..n]), events[n]);
    }
  }

  lemma EmptyIsWithin(max: int)
    requires max >= 0
    ensures WithinLimit(max, map[])
  {
    forall user ensures |ActiveIds(map[], user)| <= max {
      assert ActiveIds(map[], user) == {};
    }
  }

  /** With a smaller limit the first Create already exceeds it: there is nobody to dismiss, and no error. */
  lemma LimitBelowOneIsExceeded(max: int, id: string, user: string, now: int)
    requires max < 1
    ensures var e := Create(id, user, now, "");
      Possible(max, State(map[], {}), [e]) && !WithinLimit(max, Run(max, State(map[], {}), [e]).agents)
  {
    var s, e := State(map[], {}), Create(id, user, now, "");
    assert ActiveIds(s.agents, user) == {};
    assert Enabled(max, s, e);
    assert [e][..0] == [] && Run(max, s, []) == s;
    var m' := Run(max, s, [e]).agents;
    assert m' == map[id := Agent(user, Active, 0, 0.0, now)];
    assert ActiveIds(m', user) == {id};
    assert |ActiveIds(m', user)| == 1;
  }

  /* ---- dismissal is final ---- */

  ghost predicate GoneForGood(s: State, id: string) {
    id in s.used && (id !in s.agents || s.agents[id].status == Dismissed)
  }

  lemma GoneStaysGone(max: int, s: State, e: Event, id: string)
    requires Enabled(max, s, e) && GoneForGood(s, id)
    ensures GoneForGood(Step(max, s, e), id)
  {
    hide ActiveIds, IsOldestActive;
  }

  /** A dismissed agent is never active or suspended again, whatever is called. */
  lemma {:induction false} DismissedIsFinal(max: int, s: State, events: seq<Event>, id: string)
    requires Possible(max, s, events) && GoneForGood(s, id)
    ensures GoneForGood(Run(max, s, events), id)
    decreases |events|
  {
    hide Step, GoneForGood, Enabled;
    if events != [] {
      var n := |events| - 1;
      PossiblePrefix(max, s, events, n);
      DismissedIsFinal(max, s, events[..n], id);
      GoneStaysGone(max, Run(max, s, events[..n]), events[n], id);
    }
  }

  /* ---- success rates ---- */

  ghost predicate RatesAreFractions(m: Agents) {
    forall id :: id in m ==> 0.0 <= m[id].successRate <= 1.0
  }

  lemma RateIsFraction(a: Agent, success: bool)
    requires 0.0 <= a.successRate <= 1.0
    ensures 0.0 <= NextRate(a, success) <= 1.0
  {
  }

  lemma StepKeepsRates(max: int, m: Agents, e: Event)
    requires RatesAreFractions(m)
    ensures RatesAreFractions(Next(max, m, e))
  {
    hide ActiveIds, Full, NextRate;
    if e.Record? && e.id in m {
      RateIsFraction(m[e.id], e.success);
    }
  }

  /** Over any run every success rate stays in [0, 1]. */
  lemma {:induction false} RatesStayFractions(max: int, s: State, events: seq<Event>)
    requires RatesAreFractions(s.agents)
    ensures RatesAreFractions(Run(max, s, events).agents)
    decreases |events|
  {
    hide Next, RatesAreFractions;
    if events != [] {
      RatesStayFractions(max, s, events[..|events| - 1]);
      StepKeepsRates(max, Run(max, s, events[..|events| - 1]).agents, events[|events| - 1]);
    }
  }

  /** A success raises the rate towards 1 and never dismisses; a failure lowers it towards 0. */
  lemma ResultsMoveRate(a: Agent, now: int)
    requires 0.0 <= a.successRate <= 1.0
    ensures Recorded(a, true, now).status == a.status && Recorded(a, true, now).successRate >= 0.2
    ensures a.successRate < 1.0 ==> a.successRate < Recorded(a, true, now).successRate <= 1.0
    ensures a.successRate > 0.0 ==> 0.0 <= Recorded(a, false, now).successRate < a.successRate
  {
  }

  /** What changes an agent's status, and to what: exactly a suspension while active, a revival while suspended and
      below the limit, a dismissal, the choice as victim of a full Create, and a result at least the sixth that leaves a
      rate below a fifth. */
  lemma StatusChanges(max: int, m: Agents, e: Event, id: string)
    requires id in m && id in Next(max, m, e) && (e.Create? ==> e.id != id)
    ensures var was := m[id].status;
      Next(max, m, e)[id].status == match e
        case Create(_, user, _, victim) =>
          if |ActiveIds(m, user)| >= max && ActiveIds(m, user) != {} && victim == id then Dismissed else was
        case Suspend(other, _) => if other == id && was == Active then Suspended else was
        case Dismiss(other, _) => if other == id then Dismissed else was
        case Revive(other, _) =>
          if other == id && was == Suspended && |ActiveIds(m, m[id].user)| < max then Active else was
        case Record(other, _, _) =>
          if other == id && m[id].completedTasks >= 5 && Next(max, m, e)[id].successRate < 0.2 then Dismissed else was
        case _ => was
  {
    hide ActiveIds, NextRate;
  }

  /** Only a Kill takes an agent away, or a cleanup when it was dismissed before the cutoff. */
  lemma RemovedExactly(max: int, m: Agents, e: Event, id: string)
    requires id in m
    ensures id !in Next(max, m, e) <==>
      (e.Kill? && e.id == id) || (e.Cleanup? && m[id].status == Dismissed && m[id].lastActiveAt < e.cutoff)
  {
    hide ActiveIds, NextRate;
  }

  /** A Create adds the agent as active, and dismisses one other exactly at the limit. */
  lemma CreateAdds(max: int, s: State, e: Event)
    requires Enabled(max, s, e) && e.Create? && s.agents.Keys <= s.used
    ensures var before, after := ActiveIds(s.agents, e.user), ActiveIds(Next(max, s.agents, e), e.user);
      after == (if |before| >= max && before != {} then before - {e.victim} else before) + {e.id} && e.id !in before
      && (|before| >= max && before != {} ==> e.victim in before && forall other :: other in before ==>
            s.agents[e.victim].lastActiveAt <= s.agents[other].lastActiveAt)
  {
  }

  /* ---- failing agents ---- */

  function Successes(events: seq<Event>, id: string): nat {
    if events == [] then 0
    else
      var e := events[|events| - 1];
      Successes(events[..|events| - 1], id) + if e.Record? && e.id == id && e.success then 1 else 0
  }

  function Failures(events: seq<Event>, id: string): nat {
    if events == [] then 0
    else
      var e := events[|events| - 1];
      Failures(events[..|events| - 1], id) + if e.Record? && e.id == id && !e.success then 1 else 0
  }

  ghost predicate NoSuccess(events: seq<Event>, id: string) {
    forall k :: 0 <= k < |events| ==> !(events[k].Record? && events[k].id == id && events[k].success)
  }

  /** Four fifths to the n. */
  function Fading(n: nat): (r: real)
    ensures r > 0.0
  {
    if n == 0 then 1.0 else Fading(n - 1) * 0.8
  }

  lemma FadingValues()
    ensures Fading(7) == 0.2097152 && Fading(8) == 0.16777216
  {
    assert Fading(1) == 0.8 && Fading(2) == 0.64 && Fading(3) == 0.512;
    assert Fading(4) == 0.4096 && Fading(5) == 0.32768;
  }

  lemma {:induction false} FadingFalls(n: nat)
    requires n >= 8
    ensures Fading(n) < 0.2
  {
    if n == 8 {
      FadingValues();
    } else {
      FadingFalls(n - 1);
    }
  }

  /** After n failures and no success: gone, or a rate of at most 0.8 to the n over at least n tasks. */
  ghost predicate FailedSince(s: State, id: string, n: nat) {
    GoneForGood(s, id) || (id in s.used && id in s.agents && (n < 8 &&
      s.agents[id].completedTasks >= n && 0.0 <= s.agents[id].successRate <= Fading(n)))
  }

  lemma FailureCounts(max: int, s: State, e: Event, id: string, n: nat)
    requires FailedSince(s, id, n) && e.Record? && e.id == id && !e.success
    ensures FailedSince(Step(max, s, e), id, n + 1)
  {
    if id in s.agents && s.agents[id].status != Dismissed && n == 7 {
      FadingValues();
    }
  }

  lemma OthersDoNotHelp(max: int, s: State, e: Event, id: string, n: nat)
    requires Enabled(max, s, e) && FailedSince(s, id, n) && !(e.Record? && e.id == id)
    ensures FailedSince(Step(max, s, e), id, n)
  {
    hide ActiveIds, IsOldestActive, Fading;
  }

  lemma {:induction false} FailuresAddUp(max: int, s: State, events: seq<Event>, id: string)
    requires Possible(max, s, events) && NoSuccess(events, id)
    requires id in s.used && id in s.agents && RatesAreFractions(s.agents)
    ensures FailedSince(Run(max, s, events), id, Failures(events, id))
    decreases |events|
  {
    hide Step, Enabled, GoneForGood;
    if events == [] {
      assert Fading(0) == 1.0;
    } else {
      hide FailedSince;
      var n := |events| - 1;
      PossiblePrefix(max, s, events, n);
      FailuresAddUp(max, s, events[..n], id);
      var before := Run(max, s, events[..n]);
      if events[n].Record? && events[n].id == id {
        FailureCounts(max, before, events[n], id, Failures(events[..n], id));
      } else {
        OthersDoNotHelp(max, before, events[n], id, Failures(events[..n], id));
      }
    }
  }

  /** Eight failed results with no success among them leave an agent dismissed, whatever came before or in between. */
  lemma {:induction false} EightFailuresDismiss(max: int, s: State, events: seq<Event>, id: string)
    requires Possible(max, s, events) && NoSuccess(events, id) && Failures(events, id) >= 8
    requires id in s.used && id in s.agents && RatesAreFractions(s.agents)
    ensures GoneForGood(Run(max, s, events), id)
  {
    FailuresAddUp(max, s, events, id);
  }

  /** Seven need not: an agent with a perfect record of any length survives them. */
  lemma {:induction false} SevenMayNotDismiss(max: int, s: State, id: string, now: int, n: nat)
    requires n <= 7 && id in s.agents && s.agents[id].completedTasks > 0 && s.agents[id].successRate == 1.0
    requires s.agents[id].status == Active
    ensures var a := Run(max, s, seq(n, _ => Record(id, false, now))).agents;
      id in a && a[id].status == Active && a[id].completedTasks > 0 && a[id].successRate == Fading(n)
    decreases n
  {
    var events := seq(n, _ => Record(id, false, now));
    if n > 0 {
      SevenMayNotDismiss(max, s, id, now, n - 1);
      assert events[..n - 1] == seq(n - 1, _ => Record(id, false, now));
      FadingAtLeast(n);
    }
  }

  lemma {:induction false} FadingAtLeast(n: nat)
    requires n <= 7
    ensures Fading(n) >= 0.2
    decreases 7 - n
  {
    if n == 7 {
      FadingValues();
    } else {
      FadingAtLeast(n + 1);
    }
  }

  /* ---- succeeding agents ---- */

  ghost predicate NoFailure(events: seq<Event>, id: string) {
    forall k :: 0 <= k < |events| ==> !(events[k].Record? && events[k].id == id && !events[k].success)
  }

  /** n successes and no failure: gone, or a rate of at least 1 - 0.8 to the n. */
  ghost predicate SucceededSince(s: State, id: string, n: nat) {
    id in s.used && (id in s.agents ==> 1.0 - Fading(n) <= s.agents[id].successRate <= 1.0)
  }

  lemma SuccessCounts(max: int, s: State, e: Event, id: string, n: nat)
    requires Enabled(max, s, e) && SucceededSince(s, id, n)
    requires e.Record? && e.id == id ==> e.success
    ensures SucceededSince(Step(max, s, e), id, if e.Record? && e.id == id then n + 1 else n)
  {
    hide ActiveIds, IsOldestActive;
    assert Fading(n + 1) == Fading(n) * 0.8;
  }

  /** Without failures the distance of the rate from 1 shrinks by a fifth with every success, whatever else is
      called. */
  lemma {:induction false} SuccessesAddUp(max: int, s: State, events: seq<Event>, id: string)
    requires Possible(max, s, events) && NoFailure(events, id) && id in s.used && RatesAreFractions(s.agents)
    ensures SucceededSince(Run(max, s, events), id, Successes(events, id))
    decreases |events|
  {
    hide Step, Enabled;
    if events == [] {
      assert Fading(0) == 1.0;
    } else {
      hide SucceededSince, RatesAreFractions;
      var n := |events| - 1;
      PossiblePrefix(max, s, events, n);
      SuccessesAddUp(max, s, events[..n], id);
      SuccessCounts(max, Run(max, s, events[..n]), events[n], id, Successes(events[..n], id));
    }
  }

  /* ---- the code ---- */

  class LifecycleManager {
    const maxActivePerUser: int
    var agents: Agents
    ghost var used: set<string>

    ghost function Now(): State
      reads this
    {
      State(agents, used)
    }

    constructor (maxActivePerUser: int)
      ensures agents == map[] && used == {} && this.maxActivePerUser == maxActivePerUser
    {
      this.maxActivePerUser, agents, used := maxActivePerUser, map[], {};
    }

    method GetActiveSubAgents(user: string) returns (active: seq<string>)
      ensures |active| == |ActiveIds(agents, user)|
      ensures forall id :: id in active <==> id in ActiveIds(agents, user)
    {
      active := [];
      var todo := ActiveIds(agents, user);
      ghost var done: set<string> := {};
      while todo != {}
        invariant forall id :: id in active <==> id in done
        invariant |active| == |done| && done !! todo && done + todo == ActiveIds(agents, user)
        decreases todo
      {
        var id :| id in todo;
        todo, done, active := todo - {id}, done + {id}, active + [id];
      }
    }

    /** A new agent. The id has never been used before. */
    method CreateAgent(id: string, user: string, now: int) returns (ghost e: Event)
      requires id !in used && agents.Keys <= used
      modifies this
      ensures e.Create? && e.id == id && e.user == user && e.now == now && Enabled(maxActivePerUser, old(Now()), e)
      ensures Now() == Step(maxActivePerUser, old(Now()), e)
    {
      hide ActiveIds;
      var active := GetActiveSubAgents(user);
      ghost var victim := "";
      assert active == [] <==> ActiveIds(agents, user) == {};
      if |active| >= maxActivePerUser {
        victim := DismissOldestInactive(active, user, now);
      }
      e := Create(id, user, now, victim);
      agents := agents[id := Agent(user, Active, 0, 0.0, now)];
      used := used + {id};
    }

    /** Despite its name it picks among the active agents. */
    method DismissOldestInactive(active: seq<string>, user: string, now: int) returns (ghost victim: string)
      requires forall id :: id in active <==> id in ActiveIds(agents, user)
      modifies this`agents
      ensures active == [] ==> agents == old(agents)
      ensures active != [] ==> IsOldestActive(old(agents), user, victim)
      ensures active != [] ==> agents == Marked(old(agents), victim, Dismissed, now)
    {
      victim := "";
      if |active| == 0 {
        return;
      }
      forall j | 0 <= j < |active| ensures active[j] in ActiveIds(agents, user) {
        assert active[j] in active;
      }
      var oldest := active[0];
      for k := 1 to |active|
        invariant oldest in active
        invariant forall j :: 0 <= j < k ==> agents[oldest].lastActiveAt <= agents[active[j]].lastActiveAt
      {
        if agents[active[k]].lastActiveAt < agents[oldest].lastActiveAt {
          oldest := active[k];
        }
      }
      victim := oldest;
      var _ := DismissAgent(oldest, now);
    }

    method SuspendAgent(id: string, now: int) returns (ok: bool)
      modifies this`agents
      ensures agents == Next(maxActivePerUser, old(agents), Suspend(id, now))
      ensures ok <==> id in old(agents) && old(agents)[id].status == Active
    {
      if id !in agents || agents[id].status != Active {
        return false;
      }
      agents := agents[id := agents[id].(status := Suspended, lastActiveAt := now)];
      ok := true;
    }

    method DismissAgent(id: string, now: int) returns (ok: bool)
      modifies this`agents
      ensures agents == Next(maxActivePerUser, old(agents), Dismiss(id, now))
      ensures ok <==> id in old(agents)
    {
      if id !in agents {
        return false;
      }
      agents := agents[id := agents[id].(status := Dismissed, lastActiveAt := now)];
      ok := true;
    }

    method ReviveAgent(id: string, now: int) returns (ok: bool)
      modifies this`agents
      ensures agents == Next(maxActivePerUser, old(agents), Revive(id, now))
      ensures ok ==> id in agents && agents[id].status == Active
      ensures !ok ==> agents == old(agents)
    {
      if id !in agents || agents[id].status != Suspended {
        return false;
      }
      var active := GetActiveSubAgents(agents[id].user);
      if |active| >= maxActivePerUser {
        return false;
      }
      agents := agents[id := agents[id].(status := Active, lastActiveAt := now)];
      ok := true;
    }

    method KillAgent(id: string) returns (ok: bool)
      modifies this`agents
      ensures agents == Next(maxActivePerUser, old(agents), Kill(id))
      ensures ok <==> id in old(agents)
    {
      ok := id in agents;
      if ok {
        agents := agents - {id};
      } else {
        assert agents - {id} == agents;
      }
    }

    method RecordTaskResult(id: string, success: bool, now: int)
      modifies this`agents
      ensures agents == Next(maxActivePerUser, old(agents), Record(id, success, now))
    {
      if id !in agents {
        return;
      }
      var agent := agents[id];
      var rate;
      if agent.completedTasks == 0 {
        rate := if success then 1.0 else 0.0;
      } else {
        var alpha := 0.2;
        if success {
          rate := agent.successRate * (1.0 - alpha) + 1.0 * alpha;
        } else {
          rate := agent.successRate * (1.0 - alpha);
        }
      }
      assert rate == NextRate(agent, success);
      var tasks := agent.completedTasks + 1;
      agents := agents[id := agent.(completedTasks := tasks, successRate := rate, lastActiveAt := now)];
      if agent.completedTasks >= 5 && rate < 0.2 {
        var _ := DismissAgent(id, now);
      }
    }
  }

}
