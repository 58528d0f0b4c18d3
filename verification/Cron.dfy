/** The job scheduler: one run loop, API calls interleaved with it, and a clock that never runs backwards. */
module Cron {
  import opened Options
  import opened Lists

  datatype Schedule = At(at: Option<int>) | Every(every: Option<int>) | Expression(expr: string) | Unknown

  datatype Job = Job(enabled: bool, schedule: Schedule, nextRun: Option<int>, lastRun: Option<int>, lastOk: bool,
                     deleteAfterRun: bool)

  /** The first tick of a cron expression after a time; none when the expression is malformed. */
  type Ticks = (string, int) -> Option<int>

  function ComputeNextRun(ticks: Ticks, s: Schedule, now: int): (r: Option<int>)
    ensures s.At? && r.Some? ==> r == s.at && r.value > now
    ensures s.Every? && r.Some? ==> s.every.Some? && r.value == now + s.every.value && r.value > now
  {
    match s
    case At(at) => if at.Some? && at.value > now then at else None
    case Every(every) => if every.None? || every.value <= 0 then None else Some(now + every.value)
    case Expression(expr) => if expr == "" then None else ticks(expr, now)
    case Unknown => None
  }

  datatype Start = Start(id: string, time: int)

  /**
   * The jobs; the ids the loop has found due but not yet started; the job whose handler is running; the clock;
   * every handler start so far; and the schedule of every id ever used.
   */
  datatype State = State(jobs: map<string, Job>, pending: seq<string>, running: Option<string>, clock: int,
                         log: seq<Start>, known: map<string, Schedule>)

  /** Check, Begin and Finish are the loop's steps; Restart is a new process reading the saved jobs. */
  datatype Event =
    | Check(now: int, due: seq<string>)
    | Begin(now: int)
    | Finish(now: int, startTime: int, ok: bool)
    | Add(now: int, id: string, schedule: Schedule)
    | Enable(now: int, id: string, on: bool)
    | Remove(now: int, id: string)
    | Restart(now: int)

  predicate IsDue(j: Job, now: int) {
    j.enabled && j.nextRun.Some? && j.nextRun.value <= now
  }

  /** The due jobs, each once, in any order. */
  ghost predicate ListsDue(jobs: map<string, Job>, now: int, due: seq<string>) {
    NoDuplicates(due) && forall id :: id in due <==> id in jobs && IsDue(jobs[id], now)
  }

  ghost predicate Enabled(s: State, e: Event) {
    e.now >= s.clock &&
    match e
    case Check(now, due) => s.pending == [] && s.running == None && ListsDue(s.jobs, now, due)
    case Begin(_) => s.pending != [] && s.running == None
    case Finish(_, _, _) => s.running.Some?
    case Add(_, id, _) => id !in s.known
    case _ => true
  }

  function Cleared(jobs: map<string, Job>, due: seq<string>): map<string, Job> {
    map id | id in jobs :: if id in due then jobs[id].(nextRun := None) else jobs[id]
  }

  function Recomputed(ticks: Ticks, jobs: map<string, Job>, now: int): map<string, Job> {
    map id | id in jobs ::
      if jobs[id].enabled then jobs[id].(nextRun := ComputeNextRun(ticks, jobs[id].schedule, now)) else jobs[id]
  }

  /** The state update after a handler returns. */
  function Finished(ticks: Ticks, jobs: map<string, Job>, id: string, now: int, startTime: int, ok: bool):
    map<string, Job>
  {
    if id !in jobs then jobs
    else
      var j := jobs[id].(lastRun := Some(startTime), lastOk := ok);
      if j.schedule.At? then
        if j.deleteAfterRun then jobs - {id} else jobs[id := j.(enabled := false, nextRun := None)]
      else jobs[id := j.(nextRun := ComputeNextRun(ticks, j.schedule, now))]
  }

  function Switched(ticks: Ticks, jobs: map<string, Job>, id: string, on: bool, now: int): map<string, Job> {
    if id !in jobs then jobs
    else
      var j := jobs[id].(enabled := on);
      jobs[id := j.(nextRun := if on then ComputeNextRun(ticks, j.schedule, now) else None)]
  }

  function NewJob(ticks: Ticks, schedule: Schedule, now: int): Job {
    Job(true, schedule, ComputeNextRun(ticks, schedule, now), None, false, schedule.At?)
  }

  function Next(ticks: Ticks, s: State, e: Event): State
    requires Enabled(s, e)
  {
    var t := s.(clock := e.now);
    match e
    case Check(_, due) => t.(jobs := Cleared(s.jobs, due), pending := due)
    case Begin(now) =>
      var id := s.pending[0];
      if id in s.jobs then t.(pending := s.pending[1..], running := Some(id), log := s.log + [Start(id, now)])
      else t.(pending := s.pending[1..])
    case Finish(now, startTime, ok) =>
      t.(jobs := Finished(ticks, s.jobs, s.running.value, now, startTime, ok), running := None)
    case Add(now, id, schedule) =>
      t.(jobs := s.jobs[id := NewJob(ticks, schedule, now)], known := s.known[id := schedule])
    case Enable(now, id, on) => t.(jobs := Switched(ticks, s.jobs, id, on, now))
    case Remove(_, id) => t.(jobs := s.jobs - {id})
    case Restart(now) => t.(jobs := Recomputed(ticks, s.jobs, now), pending := [], running := None)
  }

  /* ---- what holds of the ids ---- */

  ghost predicate Shape(s: State) {
    NoDuplicates(s.pending) && (s.running.Some? ==> s.running.value !in s.pending) &&
    (forall id :: id in s.pending ==> id in s.known) &&
    (forall k :: 0 <= k < |s.log| ==> s.log[k].id in s.known) &&
    forall id :: id in s.jobs ==> id in s.known && s.jobs[id].schedule == s.known[id]
  }

  lemma ShapeStays(ticks: Ticks, s: State, e: Event)
    requires Shape(s) && Enabled(s, e)
    ensures Shape(Next(ticks, s, e))
  {
    hide ComputeNextRun, IsDue;
  }

  /* ---- "at" jobs start at most once ---- */

  function Starts(log: seq<Start>, id: string): nat {
    if log == [] then 0 else Starts(log[..|log| - 1], id) + if log[|log| - 1].id == id then 1 else 0
  }

  lemma StartsSnoc(log: seq<Start>, x: Start, id: string)
    ensures Starts(log + [x], id) == Starts(log, id) + if x.id == id then 1 else 0
  {
    assert (log + [x])[..|log|] == log;
  }

  lemma {:induction false} UnknownNeverStarted(log: seq<Start>, id: string)
    requires forall k :: 0 <= k < |log| ==> log[k].id != id
    ensures Starts(log, id) == 0
  {
    if log != [] {
      UnknownNeverStarted(log[..|log| - 1], id);
    }
  }

  /** Once found due, an "at" job's time is past, so that nothing schedules it again. */
  ghost predicate AtInv(s: State, id: string) {
    id in s.known && s.known[id].At? ==>
      var at := s.known[id].at;
      Starts(s.log, id) <= 1 &&
      (Starts(s.log, id) == 1 || id in s.pending ==> at.Some? && s.clock >= at.value) &&
      (Starts(s.log, id) == 1 ==> id !in s.pending) &&
      (id in s.jobs && s.jobs[id].enabled && s.jobs[id].nextRun.Some? ==>
        s.jobs[id].nextRun == at && Starts(s.log, id) == 0 && id !in s.pending)
  }

  lemma AtStep(ticks: Ticks, s: State, e: Event, id: string)
    requires Shape(s) && AtInv(s, id) && Enabled(s, e)
    ensures AtInv(Next(ticks, s, e), id)
  {
    hide Starts, ComputeNextRun;
    if e.Begin? {
      AtBegin(ticks, s, e, id);
    } else if e.Add? && e.id == id {
      UnknownNeverStarted(s.log, id);
    }
  }

  lemma AtBegin(ticks: Ticks, s: State, e: Event, id: string)
    requires Shape(s) && AtInv(s, id) && Enabled(s, e) && e.Begin?
    ensures AtInv(Next(ticks, s, e), id)
  {
    hide Starts, ComputeNextRun;
    assert s.pending == [s.pending[0]] + s.pending[1..];
    StartsSnoc(s.log, Start(s.pending[0], e.now), id);
  }

  /* ---- "every" jobs keep their distance ---- */

  function LastStart(log: seq<Start>, id: string): Option<int> {
    if log == [] then None
    else if log[|log| - 1].id == id then Some(log[|log| - 1].time)
    else LastStart(log[..|log| - 1], id)
  }

  lemma LastStartSnoc(log: seq<Start>, x: Start, id: string)
    ensures LastStart(log + [x], id) == if x.id == id then Some(x.time) else LastStart(log, id)
  {
    assert (log + [x])[..|log|] == log;
  }

  lemma {:induction false} LastStartIsLatest(log: seq<Start>, id: string, gap: int, k: nat)
    requires Spaced(log, id, gap) && gap > 0 && k < |log| && log[k].id == id
    ensures LastStart(log, id).Some? && log[k].time <= LastStart(log, id).value
  {
    var n := |log| - 1;
    if log[n].id == id {
      assert k < n ==> log[n].time - log[k].time >= gap;
    } else {
      LastStartIsLatest(log[..n], id, gap, k);
    }
  }

  lemma {:induction false} UnknownHasNoStart(log: seq<Start>, id: string)
    requires forall k :: 0 <= k < |log| ==> log[k].id != id
    ensures LastStart(log, id) == None && forall gap :: Spaced(log, id, gap)
  {
    if log != [] {
      UnknownHasNoStart(log[..|log| - 1], id);
    }
  }

  /** Any two starts of the job are at least the gap apart. */
  ghost predicate Spaced(log: seq<Start>, id: string, gap: int) {
    forall i, j :: 0 <= i < j < |log| && log[i].id == id && log[j].id == id ==> log[j].time - log[i].time >= gap
  }

  ghost predicate EveryInv(s: State, id: string) {
    id in s.known && s.known[id].Every? && s.known[id].every.Some? && s.known[id].every.value > 0 ==>
      var gap := s.known[id].every.value;
      var last := LastStart(s.log, id);
      Spaced(s.log, id, gap) &&
      (last.Some? ==> last.value <= s.clock) &&
      (last.Some? && id in s.pending ==> s.clock >= last.value + gap) &&
      (last.Some? && id in s.jobs && s.jobs[id].enabled && s.jobs[id].nextRun.Some? && s.running != Some(id) ==>
        s.jobs[id].nextRun.value >= last.value + gap)
  }

  lemma EveryStep(ticks: Ticks, s: State, e: Event, id: string)
    requires Shape(s) && EveryInv(s, id) && Enabled(s, e)
    ensures EveryInv(Next(ticks, s, e), id)
  {
    hide LastStart, Spaced, ComputeNextRun;
    if e.Begin? {
      EveryBegin(ticks, s, e, id);
    } else if e.Add? && e.id == id {
      UnknownHasNoStart(s.log, id);
    }
  }

  lemma EveryBegin(ticks: Ticks, s: State, e: Event, id: string)
    requires Shape(s) && EveryInv(s, id) && Enabled(s, e) && e.Begin?
    ensures EveryInv(Next(ticks, s, e), id)
  {
    hide LastStart, Spaced, ComputeNextRun;
    assert s.pending == [s.pending[0]] + s.pending[1..];
    LastStartSnoc(s.log, Start(s.pending[0], e.now), id);
    if id in s.known && s.known[id].Every? && s.known[id].every.Some? && s.known[id].every.value > 0 {
      StartIsSpaced(s.log, Start(s.pending[0], e.now), id, s.known[id].every.value);
    }
  }

  lemma StartIsSpaced(log: seq<Start>, x: Start, id: string, gap: int)
    requires gap > 0 && Spaced(log, id, gap)
    requires x.id == id && LastStart(log, id).Some? ==> x.time >= LastStart(log, id).value + gap
    ensures Spaced(log + [x], id, gap)
  {
    hide LastStart;
    forall i, j | 0 <= i < j < |log + [x]| && (log + [x])[i].id == id && (log + [x])[j].id == id
      ensures (log + [x])[j].time - (log + [x])[i].time >= gap
    {
      if j == |log| {
        LastStartIsLatest(log, id, gap, i);
      }
    }
  }

  /* ---- runs ---- */

  /** States joined by events, from the start of a process on any saved jobs. */
  ghost predicate Run(ticks: Ticks, states: seq<State>, events: seq<Event>) {
    |states| == |events| + 1 && Fresh(ticks, states[0]) &&
    forall k :: 0 <= k < |events| ==>
      Enabled(states[k], events[k]) && states[k + 1] == Next(ticks, states[k], events[k])
  }

  ghost predicate Fresh(ticks: Ticks, s: State) {
    s.pending == [] && s.running == None && s.log == [] && s.jobs.Keys <= s.known.Keys &&
    (forall id :: id in s.jobs ==> s.jobs[id].schedule == s.known[id]) &&
    forall id :: id in s.jobs && s.jobs[id].enabled ==>
      s.jobs[id].nextRun == ComputeNextRun(ticks, s.jobs[id].schedule, s.clock)
  }

  lemma {:induction false} InvOnRuns(ticks: Ticks, states: seq<State>, events: seq<Event>, k: nat, id: string)
    requires Run(ticks, states, events) && k <= |events|
    ensures Shape(states[k]) && AtInv(states[k], id) && EveryInv(states[k], id)
    decreases k
  {
    if k == 0 {
    } else {
      hide Fresh, Enabled, Next, Shape, AtInv, EveryInv;
      InvOnRuns(ticks, states, events, k - 1, id);
      ShapeStays(ticks, states[k - 1], events[k - 1]);
      AtStep(ticks, states[k - 1], events[k - 1], id);
      EveryStep(ticks, states[k - 1], events[k - 1], id);
    }
  }

  /** Over any run the handler of an "at" job starts at most once, and never before its time. */
  lemma AtStartsOnce(ticks: Ticks, states: seq<State>, events: seq<Event>, k: nat, id: string)
    requires Run(ticks, states, events) && k <= |events| && id in states[k].known && states[k].known[id].At?
    ensures Starts(states[k].log, id) <= 1
    ensures Starts(states[k].log, id) == 1 ==>
      states[k].known[id].at.Some? && states[k].clock >= states[k].known[id].at.value
  {
    hide Starts, Run, Shape, EveryInv;
    InvOnRuns(ticks, states, events, k, id);
  }

  /** Over any run the starts of an "every" job are at least its interval apart. */
  lemma EveryIsSpaced(ticks: Ticks, states: seq<State>, events: seq<Event>, k: nat, id: string)
    requires Run(ticks, states, events) && k <= |events| && id in states[k].known
    requires states[k].known[id].Every? && states[k].known[id].every.Some? && states[k].known[id].every.value > 0
    ensures Spaced(states[k].log, id, states[k].known[id].every.value)
  {
    hide LastStart, Spaced, Run, Shape, AtInv;
    InvOnRuns(ticks, states, events, k, id);
  }

  /* ---- progress ---- */

  predicate HasInterval(j: Job) {
    j.schedule.Every? && j.schedule.every.Some? && j.schedule.every.value > 0
  }

  /** The expression is well formed and has another tick after any time. */
  ghost predicate HasTicks(ticks: Ticks, j: Job) {
    j.schedule.Expression? && j.schedule.expr != "" && forall now :: ticks(j.schedule.expr, now).Some?
  }

  /** An enabled recurring job runs, waits for its turn, or has a next run, at most an interval ahead if it has one. */
  ghost predicate Scheduled(ticks: Ticks, s: State, id: string) {
    id in s.jobs && s.jobs[id].enabled && (HasInterval(s.jobs[id]) || HasTicks(ticks, s.jobs[id])) ==>
      var j := s.jobs[id];
      s.running == Some(id) || id in s.pending ||
      (j.nextRun.Some? && (HasInterval(j) ==> j.nextRun.value <= s.clock + j.schedule.every.value))
  }

  /** Every step keeps that, and a next run newly set is an interval, or the first tick, after the step that set it. */
  lemma ScheduledStep(ticks: Ticks, s: State, e: Event, id: string)
    requires Enabled(s, e) && Scheduled(ticks, s, id)
    ensures Scheduled(ticks, Next(ticks, s, e), id)
    ensures var jobs := Next(ticks, s, e).jobs;
      id in jobs && jobs[id].schedule.Expression? && jobs[id].nextRun.Some? ==>
      (id in s.jobs && jobs[id].nextRun == s.jobs[id].nextRun)
      || jobs[id].nextRun == ticks(jobs[id].schedule.expr, e.now)
    ensures var jobs := Next(ticks, s, e).jobs;
      id in jobs && HasInterval(jobs[id]) && jobs[id].nextRun.Some? ==>
      (id in s.jobs && jobs[id].nextRun == s.jobs[id].nextRun)
      || jobs[id].nextRun.value == e.now + jobs[id].schedule.every.value
  {
  }

  /** Over any run no enabled recurring job is forgotten. */
  lemma {:induction false} RecurringIsScheduled(ticks: Ticks, states: seq<State>, events: seq<Event>, k: nat,
                                                id: string)
    requires Run(ticks, states, events) && k <= |events|
    ensures Scheduled(ticks, states[k], id)
    decreases k
  {
    if k > 0 {
      hide Fresh, Enabled, Next, Scheduled;
      RecurringIsScheduled(ticks, states, events, k - 1, id);
      ScheduledStep(ticks, states[k - 1], events[k - 1], id);
    }
  }

  /** Is the time `at` still to come after the event: newly judged when the event schedules the job, lost when the job
      is found due, switched off or finished. */
  predicate AheadAfter(s: State, e: Event, id: string, at: int, before: bool) {
    match e
    case Add(now, added, _) => if added == id then at > now else before
    case Enable(now, switched, on) => if switched == id then on && at > now else before
    case Restart(now) => at > now
    case Check(_, due) => before && id !in due
    case Finish(_, _, _) => before && s.running != Some(id)
    case _ => before
  }

  /** The time `at` was ahead at the last event that scheduled the job, and the job was not found due since. */
  ghost predicate IsAhead(states: seq<State>, events: seq<Event>, k: nat, id: string, at: int)
    requires |states| == |events| + 1 && k <= |events|
  {
    if k == 0 then at > states[0].clock
    else AheadAfter(states[k - 1], events[k - 1], id, at, IsAhead(states, events, k - 1, id, at))
  }

  lemma AtStays(ticks: Ticks, s: State, e: Event, id: string, at: int, before: bool)
    requires Shape(s) && Enabled(s, e)
    requires id in s.jobs && s.jobs[id].enabled && s.jobs[id].schedule == At(Some(at)) ==>
      s.jobs[id].nextRun == if before then Some(at) else None
    ensures var s' := Next(ticks, s, e);
      id in s'.jobs && s'.jobs[id].enabled && s'.jobs[id].schedule == At(Some(at)) ==>
      s'.jobs[id].nextRun == if AheadAfter(s, e, id, at, before) then Some(at) else None
  {
  }

  /** Over any run an enabled "at" job has its own time as its next run if and only if that is ahead in this sense; else
      it has none. */
  lemma {:induction false} AtIsScheduled(ticks: Ticks, states: seq<State>, events: seq<Event>, k: nat, id: string,
                                         at: int)
    requires Run(ticks, states, events) && k <= |events|
    ensures id in states[k].jobs && states[k].jobs[id].enabled && states[k].jobs[id].schedule == At(Some(at)) ==>
      states[k].jobs[id].nextRun == if IsAhead(states, events, k, id, at) then Some(at) else None
    decreases k
  {
    if k > 0 {
      hide Fresh, Enabled, Next, Shape, AtInv, EveryInv, AheadAfter;
      InvOnRuns(ticks, states, events, k - 1, id);
      AtIsScheduled(ticks, states, events, k - 1, id, at);
      AtStays(ticks, states[k - 1], events[k - 1], id, at, IsAhead(states, events, k - 1, id, at));
    }
  }

  /** Exactly the enabled jobs whose next run has come are found due. */
  lemma DueIsTaken(ticks: Ticks, s: State, now: int, due: seq<string>, id: string)
    requires Enabled(s, Check(now, due))
    ensures var s' := Next(ticks, s, Check(now, due));
      id in s'.pending <==>
      id in s.jobs && s.jobs[id].enabled && s.jobs[id].nextRun.Some? && s.jobs[id].nextRun.value <= now
  {
  }

  /** What finishing leaves: the start and outcome on record, and an "at" job gone when it was marked so, else off. */
  lemma FinishRecords(ticks: Ticks, s: State, e: Event)
    requires Enabled(s, e) && e.Finish? && s.running.value in s.jobs
    ensures var id, jobs := s.running.value, Next(ticks, s, e).jobs;
      && (id !in jobs <==> s.jobs[id].schedule.At? && s.jobs[id].deleteAfterRun)
      && (id in jobs ==> jobs[id].lastRun == Some(e.startTime) && jobs[id].lastOk == e.ok)
      && (id in jobs ==> jobs[id].enabled == (s.jobs[id].enabled && !s.jobs[id].schedule.At?))
  {
  }

  /** Only "at" jobs are marked when they are added; the mark stays, and a job switched off has no next run. */
  lemma MarksStay(ticks: Ticks, s: State, e: Event, id: string)
    requires Enabled(s, e) && id in Next(ticks, s, e).jobs
    ensures var j := Next(ticks, s, e).jobs[id];
      && (e.Add? && e.id == id ==> j.enabled && j.schedule == e.schedule && j.deleteAfterRun == e.schedule.At?)
      && (id in s.jobs && !(e.Add? && e.id == id) ==> j.deleteAfterRun == s.jobs[id].deleteAfterRun)
      && (e.Enable? && e.id == id ==> j.enabled == e.on && (!e.on ==> j.nextRun == None))
  {
    hide ComputeNextRun;
  }

  function Place(ids: seq<string>, id: string): nat
    requires id in ids
  {
    if ids[0] == id then 0 else 1 + Place(ids[1..], id)
  }

  /** Steps of the loop before the job's turn. */
  function StepsAway(s: State, id: string): nat
    requires id in s.pending
  {
    2 * Place(s.pending, id) + if s.running.Some? then 1 else 0
  }

  /** Every step of the loop brings a job found due nearer to its start, or starts it. */
  lemma LoopComesNearer(ticks: Ticks, s: State, e: Event, id: string)
    requires NoDuplicates(s.pending) && Enabled(s, e) && id in s.pending && (e.Begin? || e.Finish?)
    ensures var s' := Next(ticks, s, e);
      if id in s'.pending then StepsAway(s', id) < StepsAway(s, id)
      else id in s.jobs ==> s'.running == Some(id) && s'.log == s.log + [Start(id, e.now)]
  {
    hide ComputeNextRun;
    assert s.pending == [s.pending[0]] + s.pending[1..];
  }

  /** And such a step can always be taken. */
  lemma LoopGoesOn(s: State)
    requires s.pending != []
    ensures exists e :: Enabled(s, e) && (e.Begin? || e.Finish?)
  {
    assert Enabled(s, if s.running == None then Begin(s.clock) else Finish(s.clock, 0, true));
  }

  /** How many of the events from k up to m are steps of the loop. */
  function LoopSteps(events: seq<Event>, k: nat, m: nat): nat
    requires k <= m <= |events|
    decreases m - k
  {
    if k == m then 0 else (if events[k].Begin? || events[k].Finish? then 1 else 0) + LoopSteps(events, k + 1, m)
  }

  ghost predicate StartsAt(states: seq<State>, events: seq<Event>, id: string, j: nat) {
    j < |events| && j + 1 < |states| && states[j + 1].log == states[j].log + [Start(id, events[j].now)]
  }

  /** A job found due is started after at most so many steps of the loop, unless it is removed or the process
      restarts. */
  lemma {:induction false} DueIsStarted(ticks: Ticks, states: seq<State>, events: seq<Event>, k: nat, m: nat,
                                        id: string)
    requires Run(ticks, states, events) && k <= m <= |events| && id in states[k].pending
    requires forall i :: k <= i <= m ==> id in states[i].jobs
    requires forall i :: k <= i < m ==> !events[i].Restart?
    requires LoopSteps(events, k, m) > StepsAway(states[k], id)
    ensures exists j: nat :: k <= j < m && StartsAt(states, events, id, j)
    decreases m - k
  {
    var s, e := states[k], events[k];
    InvOnRuns(ticks, states, events, k, id);
    assert NoDuplicates(s.pending) && Enabled(s, e) && states[k + 1] == Next(ticks, s, e);
    if e.Begin? || e.Finish? {
      LoopComesNearer(ticks, s, e, id);
    }
    hide ComputeNextRun, Place, NoDuplicates, Run, AtInv, EveryInv, Shape;
    if id in states[k + 1].pending {
      assert StepsAway(states[k + 1], id) < LoopSteps(events, k + 1, m);
      DueIsStarted(ticks, states, events, k + 1, m, id);
    } else {
      assert StartsAt(states, events, id, k);
    }
  }

  /* ---- the code ---- */

  class CronService {
    const ticks: Ticks
    var jobs: map<string, Job>

    constructor (ticks: Ticks, saved: map<string, Job>, now: int)
      ensures jobs == Recomputed(ticks, saved, now) && this.ticks == ticks
    {
      this.ticks, jobs := ticks, saved;
      new;
      RecomputeNextRuns(now);
    }

    method RecomputeNextRuns(now: int)
      modifies this`jobs
      ensures jobs == Recomputed(ticks, old(jobs), now)
    {
      hide ComputeNextRun;
      ghost var before := jobs;
      var todo := jobs.Keys;
      while todo != {}
        invariant todo <= before.Keys && jobs.Keys == before.Keys
        invariant forall id :: id in before ==>
          jobs[id] == (if id in todo then before else Recomputed(ticks, before, now))[id]
        decreases todo
      {
        var id :| id in todo;
        todo := todo - {id};
        if jobs[id].enabled {
          jobs := jobs[id := jobs[id].(nextRun := ComputeNextRun(ticks, jobs[id].schedule, now))];
        }
      }
      assert jobs == Recomputed(ticks, before, now);
    }

    /** The locked part of a tick: collects the due jobs and clears their next run. */
    method CheckJobs(now: int) returns (due: seq<string>)
      modifies this`jobs
      ensures ListsDue(old(jobs), now, due) && jobs == Cleared(old(jobs), due)
    {
      due := CollectDue(now);
      ghost var before := jobs;
      for i := 0 to |due|
        invariant jobs == Cleared(before, due[..i])
      {
        assert due[i] in due;
        jobs := jobs[due[i] := jobs[due[i]].(nextRun := None)];
      }
      assert due[..|due|] == due;
    }

    method CollectDue(now: int) returns (due: seq<string>)
      ensures ListsDue(jobs, now, due)
    {
      hide IsDue;
      due := [];
      var todo := jobs.Keys;
      while todo != {}
        invariant todo <= jobs.Keys && NoDuplicates(due)
        invariant forall id :: id in due <==> id in jobs && id !in todo && IsDue(jobs[id], now)
        decreases todo
      {
        var id :| id in todo;
        todo := todo - {id};
        if IsDue(jobs[id], now) {
          due := due + [id];
        }
      }
    }

    /** The copy of the job the handler is called with, if the job still exists. */
    method BeginExecution(id: string) returns (job: Option<Job>)
      ensures job == if id in jobs then Some(jobs[id]) else None
    {
      job := None;
      if id in jobs {
        job := Some(jobs[id]);
      }
    }

    /** The locked part after the handler returned. */
    method FinishExecution(id: string, now: int, startTime: int, ok: bool)
      modifies this`jobs
      ensures jobs == Finished(ticks, old(jobs), id, now, startTime, ok)
    {
      if id !in jobs {
        return;
      }
      var job := jobs[id].(lastRun := Some(startTime), lastOk := ok);
      if job.schedule.At? {
        if job.deleteAfterRun {
          jobs := jobs - {id};
          return;
        }
        job := job.(enabled := false, nextRun := None);
      } else {
        job := job.(nextRun := ComputeNextRun(ticks, job.schedule, now));
      }
      jobs := jobs[id := job];
    }

    /** One-time jobs are marked for deletion after their run. */
    method AddJob(id: string, schedule: Schedule, now: int) returns (job: Job)
      requires id !in jobs
      modifies this`jobs
      ensures jobs == old(jobs)[id := NewJob(ticks, schedule, now)] && job == jobs[id]
    {
      var deleteAfterRun := schedule.At?;
      job := Job(true, schedule, ComputeNextRun(ticks, schedule, now), None, false, deleteAfterRun);
      jobs := jobs[id := job];
    }

    method EnableJob(id: string, on: bool, now: int) returns (job: Option<Job>)
      modifies this`jobs
      ensures jobs == Switched(ticks, old(jobs), id, on, now)
      ensures job == if id in jobs then Some(jobs[id]) else None
    {
      if id !in jobs {
        return None;
      }
      var j := jobs[id].(enabled := on);
      if on {
        j := j.(nextRun := ComputeNextRun(ticks, j.schedule, now));
      } else {
        j := j.(nextRun := None);
      }
      jobs := jobs[id := j];
      job := Some(j);
    }

    method RemoveJob(id: string) returns (removed: bool)
      modifies this`jobs
      ensures jobs == old(jobs) - {id}
      ensures removed <==> id in old(jobs)
    {
      removed := id in jobs;
      jobs := jobs - {id};
    }
  }

}
