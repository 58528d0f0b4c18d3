/** The per-agent task queues as interleaved steps of submitters and worker goroutines. */
module TaskQueue {
  import opened Lists

  /** High and Normal are the lanes of PrioritySessionQueue, Session those of SessionQueue. */
  datatype Kind = High | Normal | Session

  datatype LaneId = LaneId(agent: string, kind: Kind)

  type Task = nat
  type Client = nat
  type Worker = nat

  /** The buffered channel of a lane and its `running` flag; the logs record what it accepted, what is being
      executed and what is finished, in order. */
  datatype Lane = Lane(tasks: seq<Task>, running: bool, accepted: seq<Task>, inHand: seq<Task>, finished: seq<Task>)

  const CAPACITY := 100

  datatype Stage = Entered | Checked | Unlocked

  datatype Submission = Submission(lane: LaneId, task: Task, stage: Stage)

  /** Program points of processQueue. Closing waits for the lock, Holding and Retiring hold it. */
  datatype Point =
    | Starting | Polling | Looking | Peeking | Receiving | Closing | Holding | Retiring | Executing(task: Task)

  datatype Thread = Thread(lane: LaneId, at: Point)

  datatype Holder = Free | Submitter(c: Client) | Owner(w: Worker)

  /** Where a task is: with its submitter, in a lane, with a worker, or completed. */
  datatype Place = With(c: Client) | Queued(lane: LaneId) | Run(w: Worker) | Done

  datatype State = State(
    lanes: map<LaneId, Lane>, lock: Holder, submissions: map<Client, Submission>, workers: map<Worker, Thread>,
    place: map<Task, Place>, completions: map<Task, nat>)

  datatype Event =
    | Enter(c: Client, lane: LaneId, task: Task)   // Submit takes the lock; the lane exists from now on
    | Check(c: Client, w: Worker)                  // start a worker unless one is running
    | Unlock(c: Client)                            // SessionQueue only: unlock before sending
    | Send(c: Client)                              // send to the channel, or complete with "queue full"
    | Step(w: Worker)                              // one step of a worker

  /** Is the event possible? The machine is either a priority queue or a session queue. */
  predicate Enabled(session: bool, s: State, e: Event) {
    match e
    case Enter(c, l, t) =>
      s.lock == Free && c !in s.submissions && t !in s.place && (l.kind == Session <==> session)
    case Check(c, w) =>
      s.lock == Submitter(c) && c in s.submissions && s.submissions[c].stage == Entered && w !in s.workers
    case Unlock(c) =>
      session && s.lock == Submitter(c) && c in s.submissions && s.submissions[c].stage == Checked
    case Send(c) =>
      c in s.submissions && s.submissions[c].lane in s.lanes
      && if session then s.submissions[c].stage == Unlocked
         else s.lock == Submitter(c) && s.submissions[c].stage == Checked
    case Step(w) =>
      w in s.workers && s.workers[w].lane in s.lanes
      && (s.workers[w].at in {Starting, Looking, Closing} ==> s.lock == Free)
  }

  /** What a worker does next: go on to another program point (perhaps taking or releasing the lock), take the
      first task of its lane, finish the one in hand, or clear `running`, unlock and return. */
  datatype Action = Goto(at: Point, lock: Holder) | Take | Finish(task: Task) | Return

  function Decide(s: State, w: Worker): Action
    requires w in s.workers && s.workers[w].lane in s.lanes
  {
    var l := s.workers[w].lane;
    var empty := s.lanes[l].tasks == [];
    match s.workers[w].at
    case Starting => Goto(Polling, s.lock)
    case Polling =>
      if l.kind == Normal then Goto(Looking, s.lock)
      else if !empty then Take
      else Goto(if l.kind == High then Looking else Closing, s.lock)
    case Looking => Goto(Peeking, s.lock)
    case Peeking => Goto(if l.kind == Normal && !empty then Receiving else Closing, s.lock)
    case Receiving => if !empty then Take else Goto(Closing, s.lock)
    case Closing => Goto(Holding, Owner(w))
    case Holding => if empty then Goto(Retiring, s.lock) else Goto(Polling, Free)
    case Retiring => Return
    case Executing(t) => Finish(t)
  }

  function Complete(s: State, t: Task): State {
    s.(place := s.place[t := Done],
       completions := s.completions[t := (if t in s.completions then s.completions[t] else 0) + 1])
  }

  /** The channel takes the task. */
  function Accept(s: State, l: LaneId, t: Task): State
    requires l in s.lanes
  {
    var lane := s.lanes[l];
    s.(lanes := s.lanes[l := lane.(tasks := lane.tasks + [t], accepted := lane.accepted + [t])],
       place := s.place[t := Queued(l)])
  }

  function Perform(s: State, w: Worker, a: Action): State
    requires w in s.workers && s.workers[w].lane in s.lanes && (a.Take? ==> s.lanes[s.workers[w].lane].tasks != [])
  {
    var l := s.workers[w].lane;
    var lane := s.lanes[l];
    match a
    case Goto(at, lock) => s.(workers := s.workers[w := Thread(l, at)], lock := lock)
    case Take =>
      var t := lane.tasks[0];
      s.(lanes := s.lanes[l := lane.(tasks := lane.tasks[1..], inHand := lane.inHand + [t])],
         workers := s.workers[w := Thread(l, Executing(t))], place := s.place[t := Run(w)])
    case Finish(t) =>
      Complete(s.(lanes := s.lanes[l := lane.(finished := lane.finished + lane.inHand, inHand := [])],
                  workers := s.workers[w := Thread(l, Polling)]), t)
    case Return =>
      s.(lanes := s.lanes[l := lane.(running := false)], lock := Free, workers := s.workers - {w})
  }

  function Next(session: bool, s: State, e: Event): State
    requires Enabled(session, s, e)
  {
    match e
    case Enter(c, l, t) =>
      s.(lanes := if l in s.lanes then s.lanes else s.lanes[l := Lane([], false, [], [], [])],
         lock := Submitter(c), submissions := s.submissions[c := Submission(l, t, Entered)],
         place := s.place[t := With(c)])
    case Check(c, w) =>
      var sub := s.submissions[c];
      var checked := s.(submissions := s.submissions[c := sub.(stage := Checked)]);
      if sub.lane !in s.lanes || s.lanes[sub.lane].running then checked
      else checked.(lanes := s.lanes[sub.lane := s.lanes[sub.lane].(running := true)],
                    workers := s.workers[w := Thread(sub.lane, Starting)])
    case Unlock(c) =>
      s.(lock := Free, submissions := s.submissions[c := s.submissions[c].(stage := Unlocked)])
    case Send(c) =>
      var sub := s.submissions[c];
      var lane := s.lanes[sub.lane];
      var left := s.(submissions := s.submissions - {c}, lock := if session then s.lock else Free);
      if |lane.tasks| < CAPACITY then Accept(left, sub.lane, sub.task) else Complete(left, sub.task)
    case Step(w) => Perform(s, w, Decide(s, w))
  }

  const Initial := State(map[], Free, map[], map[], map[], map[])

  /** The state after a sequence of events, when all of them are possible in turn. */
  ghost predicate IsRun(session: bool, events: seq<Event>, s: State) {
    if events == [] then s == Initial
    else
      var e := events[|events| - 1];
      exists before :: IsRun(session, events[..|events| - 1], before) && Enabled(session, before, e)
        && s == Next(session, before, e)
  }

  ghost predicate Reachable(session: bool, s: State) {
    exists events :: IsRun(session, events, s)
  }

  /** A task sent to a lane with room waits behind the others; only a lane of a hundred tasks refuses it. */
  lemma RefusedOnlyWhenFull(session: bool, s: State, e: Event)
    requires Enabled(session, s, e) && e.Send?
    ensures var sub, s' := s.submissions[e.c], Next(session, s, e);
      if |s.lanes[sub.lane].tasks| < 100 then
        s'.lanes[sub.lane].tasks == s.lanes[sub.lane].tasks + [sub.task] && At(s', sub.task, Queued(sub.lane))
        && s'.completions == s.completions
      else At(s', sub.task, Done) && s'.lanes == s.lanes
  {
  }

  ghost predicate NotOverfull(s: State) {
    forall l :: l in s.lanes ==> |s.lanes[l].tasks| <= 100
  }

  lemma {:induction false} LanesAreBounded(session: bool, events: seq<Event>, s: State)
    requires IsRun(session, events, s)
    ensures NotOverfull(s)
    decreases |events|
  {
    if events != [] {
      var e := events[|events| - 1];
      var before :| IsRun(session, events[..|events| - 1], before) && Enabled(session, before, e)
        && s == Next(session, before, e);
      LanesAreBounded(session, events[..|events| - 1], before);
      hide IsRun;
      StaysBounded(session, before, e);
    }
  }

  lemma StaysBounded(session: bool, s: State, e: Event)
    requires NotOverfull(s) && Enabled(session, s, e)
    ensures NotOverfull(Next(session, s, e))
  {
  }

  /* ---- the invariant ---- */

  /** `running` says exactly that the lane has a worker, and it has at most one. */
  ghost predicate OneWorker(s: State) {
    && (forall w :: w in s.workers ==> s.workers[w].lane in s.lanes && s.lanes[s.workers[w].lane].running)
    && (forall v, w :: v in s.workers && w in s.workers && s.workers[v].lane == s.workers[w].lane ==> v == w)
    && (forall l :: l in s.lanes && s.lanes[l].running ==> HasWorker(s, l))
  }

  ghost predicate HasWorker(s: State, l: LaneId) {
    exists w :: w in s.workers && s.workers[w].lane == l
  }

  /** Only workers and running flags matter. */
  lemma SameWorkers(s: State, s': State)
    requires OneWorker(s) && s'.workers == s.workers
    requires forall l :: l in s.lanes ==> l in s'.lanes && s'.lanes[l].running == s.lanes[l].running
    requires forall l :: l in s'.lanes && l !in s.lanes ==> !s'.lanes[l].running
    ensures OneWorker(s')
  {
    forall l | l in s'.lanes && s'.lanes[l].running ensures HasWorker(s', l) {
      assert HasWorker(s, l);
    }
  }

  lemma OneWorkerSend(session: bool, s: State, e: Event)
    requires OneWorker(s) && Enabled(session, s, e) && (e.Enter? || e.Unlock? || e.Send?)
    ensures OneWorker(Next(session, s, e))
  {
    hide OneWorker;
    SameWorkers(s, Next(session, s, e));
  }

  lemma OneWorkerCheck(session: bool, s: State, e: Event)
    requires OneWorker(s) && Enabled(session, s, e) && e.Check?
    ensures OneWorker(Next(session, s, e))
  {
    var s' := Next(session, s, e);
    forall l | l in s'.lanes && s'.lanes[l].running
      ensures HasWorker(s', l)
    {
      if l in s.lanes && s.lanes[l].running {
        assert HasWorker(s, l);
        var w :| w in s.workers && s.workers[w].lane == l;
        assert w in s'.workers && s'.workers[w].lane == l;
      } else {
        assert e.w in s'.workers && s'.workers[e.w].lane == l;
      }
    }
  }

  lemma OneWorkerStep(s: State, w: Worker, a: Action)
    requires OneWorker(s) && w in s.workers && (a.Take? ==> s.lanes[s.workers[w].lane].tasks != [])
    ensures OneWorker(Perform(s, w, a))
  {
    var s' := Perform(s, w, a);
    forall l | l in s'.lanes && s'.lanes[l].running
      ensures HasWorker(s', l)
    {
      assert HasWorker(s, l);
      var v :| v in s.workers && s.workers[v].lane == l;
      assert v in s'.workers && s'.workers[v].lane == l;
    }
  }

  /** The lock is held exactly at the program points between Lock and Unlock. */
  ghost predicate LockHeld(s: State) {
    && (forall w :: w in s.workers ==> (s.lock == Owner(w) <==> s.workers[w].at in {Holding, Retiring}))
    && (forall c :: c in s.submissions ==> (s.lock == Submitter(c) <==> s.submissions[c].stage != Unlocked))
    && (s.lock.Submitter? ==> s.lock.c in s.submissions) && (s.lock.Owner? ==> s.lock.w in s.workers)
  }

  /** Submissions and lanes belong to this kind of queue. */
  ghost predicate Kinds(session: bool, s: State) {
    && (forall c :: c in s.submissions ==> s.submissions[c].lane in s.lanes)
    && (forall c :: c in s.submissions && s.submissions[c].stage == Unlocked ==> session)
    && (forall l :: l in s.lanes ==> (l.kind == Session <==> session))
  }

  lemma KindsStay(session: bool, s: State, e: Event)
    requires Kinds(session, s) && Enabled(session, s, e)
    ensures Kinds(session, Next(session, s, e))
  {
    hide Decide;
  }

  lemma LockHeldSubmit(session: bool, s: State, e: Event)
    requires LockHeld(s) && Kinds(session, s) && Enabled(session, s, e) && !e.Step?
    ensures LockHeld(Next(session, s, e))
  {
  }

  /** What Decide may choose: the lock is taken when Closing, kept for Retiring on an empty lane, released otherwise. */
  ghost predicate Sensible(s: State, w: Worker, a: Action)
    requires w in s.workers && s.workers[w].lane in s.lanes
  {
    var at := s.workers[w].at;
    match a
    case Goto(to, lock) =>
      !at.Executing? && !to.Executing? && at != Retiring
      && (if at == Closing then to == Holding && lock == Owner(w)
          else if at == Holding then
            || (to == Retiring && lock == s.lock && s.lanes[s.workers[w].lane].tasks == [])
            || (to == Polling && lock == Free)
          else to !in {Holding, Retiring} && lock == s.lock)
    case Take => at in {Polling, Receiving} && s.lanes[s.workers[w].lane].tasks != []
    case Finish(t) => at == Executing(t)
    case Return => at == Retiring
  }

  lemma DecideIsSensible(s: State, w: Worker)
    requires w in s.workers && s.workers[w].lane in s.lanes
    ensures Sensible(s, w, Decide(s, w))
  {
  }

  lemma LockHeldStep(s: State, w: Worker, a: Action)
    requires LockHeld(s) && w in s.workers && s.workers[w].lane in s.lanes && Sensible(s, w, a)
    requires s.workers[w].at == Closing ==> s.lock == Free
    ensures LockHeld(Perform(s, w, a))
  {
  }

  /** A task is where its place says, once; it is completed once when its place is Done, and not before. */
  ghost predicate Placed(s: State) {
    && (forall c :: c in s.submissions ==> At(s, s.submissions[c].task, With(c)))
    && (forall w :: w in s.workers && s.workers[w].at.Executing? ==> At(s, s.workers[w].at.task, Run(w)))
    && (forall l, i :: l in s.lanes && 0 <= i < |s.lanes[l].tasks| ==> At(s, s.lanes[l].tasks[i], Queued(l)))
    && (forall l :: l in s.lanes ==> NoDuplicates(s.lanes[l].tasks))
    && (forall t :: t in s.completions ==> At(s, t, Done) && s.completions[t] == 1)
  }

  ghost predicate At(s: State, t: Task, p: Place) {
    t in s.place && s.place[t] == p
  }

  lemma PlacedSubmit(session: bool, s: State, e: Event)
    requires Placed(s) && Enabled(session, s, e) && (e.Check? || e.Unlock?)
    ensures Placed(Next(session, s, e))
  {
    hide NoDuplicates, At;
    assert Next(session, s, e).place == s.place;
    SamePlace(s, Next(session, s, e));
  }

  lemma SamePlace(s: State, s': State)
    requires s.place == s'.place
    ensures forall t, p :: At(s, t, p) <==> At(s', t, p)
  {
  }

  /** Moving one task leaves the others where they are. */
  lemma Moved(s: State, s': State, t: Task, from: Place, to: Place)
    requires At(s, t, from) && s'.place == s.place[t := to]
    ensures forall p :: At(s', t, p) <==> p == to
    ensures forall p :: At(s, t, p) <==> p == from
    ensures forall u, p :: u != t ==> (At(s', u, p) <==> At(s, u, p))
  {
  }

  lemma PlacedEnter(session: bool, s: State, e: Event)
    requires Placed(s) && Enabled(session, s, e) && e.Enter?
    ensures Placed(Next(session, s, e))
  {
    SnocNoDuplicates([], e.task);
    hide NoDuplicates;
  }

  lemma PlacedSend(session: bool, s: State, e: Event)
    requires Placed(s) && Enabled(session, s, e) && e.Send?
    ensures Placed(Next(session, s, e))
  {
    var sub := s.submissions[e.c];
    var left := s.(submissions := s.submissions - {e.c}, lock := if session then s.lock else Free);
    assert Loose(left, sub.task);
    hide Placed, Loose;
    if |s.lanes[sub.lane].tasks| < CAPACITY {
      PlacedAccept(left, sub.lane, sub.task);
    } else {
      PlacedReject(left, sub.task);
    }
  }

  /** The task has left its submitter or worker and is nowhere else. */
  ghost predicate Loose(s: State, t: Task) {
    && Placed(s) && t in s.place && (s.place[t].With? || s.place[t].Run?)
    && (forall c :: c in s.submissions ==> s.submissions[c].task != t)
    && (forall w :: w in s.workers ==> s.workers[w].at != Executing(t))
  }

  lemma PlacedAccept(s: State, l: LaneId, t: Task)
    requires Loose(s, t) && l in s.lanes
    ensures Placed(Accept(s, l, t))
  {
    assert forall i :: 0 <= i < |s.lanes[l].tasks| ==> At(s, s.lanes[l].tasks[i], Queued(l));
    SnocNoDuplicates(s.lanes[l].tasks, t);
    hide NoDuplicates;
  }

  lemma PlacedReject(s: State, t: Task)
    requires Loose(s, t)
    ensures Placed(Complete(s, t))
  {
    hide NoDuplicates;
  }

  lemma SnocNoDuplicates(tasks: seq<Task>, t: Task)
    ensures NoDuplicates(tasks) && t !in tasks ==> NoDuplicates(tasks + [t])
    ensures NoDuplicates(tasks) && tasks != [] ==> NoDuplicates(tasks[1..]) && tasks[0] !in tasks[1..]
    ensures NoDuplicates<Task>([])
  {
  }

  lemma PlacedStep(s: State, w: Worker, a: Action)
    requires Placed(s) && OneWorker(s) && w in s.workers && Sensible(s, w, a)
    ensures Placed(Perform(s, w, a))
  {
    hide NoDuplicates;
    if a.Take? {
      PlacedTake(s, w, a);
    } else if a.Finish? {
      PlacedFinish(s, w, a);
    } else {
      hide At;
      SamePlace(s, Perform(s, w, a));
    }
  }

  lemma PlacedTake(s: State, w: Worker, a: Action)
    requires Placed(s) && OneWorker(s) && w in s.workers && Sensible(s, w, a) && a.Take?
    ensures Placed(Perform(s, w, a))
  {
    var l := s.workers[w].lane;
    var tasks := s.lanes[l].tasks;
    SnocNoDuplicates(tasks, 0);
    assert At(s, tasks[0], Queued(l));
    Moved(s, Perform(s, w, a), tasks[0], Queued(l), Run(w));
    hide NoDuplicates, At;
  }

  lemma PlacedFinish(s: State, w: Worker, a: Action)
    requires Placed(s) && OneWorker(s) && w in s.workers && Sensible(s, w, a) && a.Finish?
    ensures Placed(Perform(s, w, a))
  {
    var l := s.workers[w].lane;
    var lane := s.lanes[l];
    var left := s.(lanes := s.lanes[l := lane.(finished := lane.finished + lane.inHand, inHand := [])],
                   workers := s.workers[w := Thread(l, Polling)]);
    assert At(s, a.task, Run(w));
    HandedBack(s, left, w, a.task);
    PlacedReject(left, a.task);
  }

  lemma HandedBack(s: State, left: State, w: Worker, t: Task)
    requires Placed(s) && At(s, t, Run(w)) && w in s.workers
    requires left.place == s.place && left.submissions == s.submissions && left.completions == s.completions
    requires left.lanes.Keys == s.lanes.Keys && forall l :: l in s.lanes ==> left.lanes[l].tasks == s.lanes[l].tasks
    requires left.workers.Keys == s.workers.Keys && !left.workers[w].at.Executing?
    requires forall v :: v in s.workers && v != w ==> left.workers[v] == s.workers[v]
    ensures Loose(left, t)
  {
    hide NoDuplicates;
    forall v | v in left.workers ensures left.workers[v].at != Executing(t) {
      if v != w && s.workers[v].at.Executing? {
        assert At(s, s.workers[v].at.task, Run(v));
      }
    }
  }

  /** Nothing is lost or overtaken: what a lane accepted is finished, in hand or queued, in that order,
      and the task in hand is the one its worker executes. */
  ghost predicate InOrder(s: State) {
    && (forall l :: l in s.lanes ==> s.lanes[l].accepted == s.lanes[l].finished + s.lanes[l].inHand + s.lanes[l].tasks)
    && (forall l :: l in s.lanes && !s.lanes[l].running ==> s.lanes[l].inHand == [])
    && (forall w :: w in s.workers && s.workers[w].lane in s.lanes ==>
      s.lanes[s.workers[w].lane].inHand == if s.workers[w].at.Executing? then [s.workers[w].at.task] else [])
  }

  lemma InOrderCheck(session: bool, s: State, e: Event)
    requires InOrder(s) && OneWorker(s) && Enabled(session, s, e) && e.Check?
    ensures InOrder(Next(session, s, e))
  {
  }

  lemma InOrderSubmit(session: bool, s: State, e: Event)
    requires InOrder(s) && OneWorker(s) && Enabled(session, s, e) && (e.Enter? || e.Check? || e.Unlock?)
    ensures InOrder(Next(session, s, e))
  {
    if e.Check? {
      InOrderCheck(session, s, e);
    }
  }

  lemma InOrderSend(session: bool, s: State, e: Event)
    requires InOrder(s) && Enabled(session, s, e) && e.Send?
    ensures InOrder(Next(session, s, e))
  {
    var lane, t := s.lanes[s.submissions[e.c].lane], s.submissions[e.c].task;
    assert lane.finished + lane.inHand + lane.tasks + [t] == lane.finished + lane.inHand + (lane.tasks + [t]);
  }

  lemma InOrderTake(s: State, w: Worker, a: Action)
    requires InOrder(s) && OneWorker(s) && w in s.workers && Sensible(s, w, a) && a.Take?
    ensures InOrder(Perform(s, w, a))
  {
    var lane := s.lanes[s.workers[w].lane];
    assert lane.finished + [] + lane.tasks == lane.finished + ([] + [lane.tasks[0]]) + lane.tasks[1..];
  }

  lemma InOrderFinish(s: State, w: Worker, a: Action)
    requires InOrder(s) && OneWorker(s) && w in s.workers && Sensible(s, w, a) && a.Finish?
    ensures InOrder(Perform(s, w, a))
  {
    var lane := s.lanes[s.workers[w].lane];
    assert lane.finished + lane.inHand + lane.tasks == (lane.finished + lane.inHand) + [] + lane.tasks;
  }

  lemma InOrderStep(s: State, w: Worker, a: Action)
    requires InOrder(s) && OneWorker(s) && w in s.workers && Sensible(s, w, a)
    ensures InOrder(Perform(s, w, a))
  {
    if a.Take? {
      InOrderTake(s, w, a);
    } else if a.Finish? {
      InOrderFinish(s, w, a);
    }
  }

  /** Priority queue only: a checked submission finds its lane running, and a worker returns from an empty lane. */
  ghost predicate NotStranded(s: State) {
    && (forall c :: c in s.submissions && s.submissions[c].stage == Checked && s.submissions[c].lane in s.lanes ==>
         s.lanes[s.submissions[c].lane].running)
    && (forall w :: w in s.workers && s.workers[w].at == Retiring && s.workers[w].lane in s.lanes ==>
         s.lanes[s.workers[w].lane].tasks == [])
    && (forall l :: l in s.lanes && s.lanes[l].tasks != [] ==> s.lanes[l].running)
  }

  lemma NotStrandedEnter(s: State, e: Event)
    requires NotStranded(s) && Kinds(false, s) && Enabled(false, s, e) && e.Enter?
    ensures NotStranded(Next(false, s, e))
  {
    hide OneWorker;
  }

  lemma NotStrandedCheck(s: State, e: Event)
    requires NotStranded(s) && OneWorker(s) && LockHeld(s) && Kinds(false, s) && Enabled(false, s, e) && e.Check?
    ensures NotStranded(Next(false, s, e))
  {
  }

  lemma NotStrandedSend(s: State, e: Event)
    requires NotStranded(s) && OneWorker(s) && LockHeld(s) && Kinds(false, s) && Enabled(false, s, e) && e.Send?
    ensures NotStranded(Next(false, s, e))
  {
  }

  lemma NotStrandedSubmit(s: State, e: Event)
    requires NotStranded(s) && OneWorker(s) && LockHeld(s) && Kinds(false, s) && Enabled(false, s, e) && !e.Step?
    ensures NotStranded(Next(false, s, e))
  {
    hide NotStranded, OneWorker, LockHeld, Kinds, Next;
    if e.Enter? {
      NotStrandedEnter(s, e);
    } else if e.Check? {
      NotStrandedCheck(s, e);
    } else {
      NotStrandedSend(s, e);
    }
  }

  lemma NotStrandedGoto(s: State, w: Worker, a: Action)
    requires NotStranded(s) && OneWorker(s) && LockHeld(s) && Kinds(false, s) && w in s.workers && Sensible(s, w, a)
    requires a.Goto?
    ensures NotStranded(Perform(s, w, a))
  {
  }

  lemma NotStrandedStep(s: State, w: Worker, a: Action)
    requires NotStranded(s) && OneWorker(s) && LockHeld(s) && Kinds(false, s) && w in s.workers && Sensible(s, w, a)
    ensures NotStranded(Perform(s, w, a))
  {
    if a.Goto? {
      NotStrandedGoto(s, w, a);
    }
  }

  ghost predicate Inv(session: bool, s: State) {
    OneWorker(s) && LockHeld(s) && Kinds(session, s) && Placed(s) && InOrder(s) && (!session ==> NotStranded(s))
  }

  /** Every step of either queue keeps the invariant. */
  lemma InvStays(session: bool, s: State, e: Event)
    requires Inv(session, s) && Enabled(session, s, e)
    ensures Inv(session, Next(session, s, e))
  {
    hide OneWorker, LockHeld, Placed, InOrder, NotStranded, Decide, Perform, Sensible, Kinds;
    KindsStay(session, s, e);
    match e
    case Step(w) =>
      var a := Decide(s, w);
      DecideIsSensible(s, w);
      OneWorkerStep(s, w, a);
      LockHeldStep(s, w, a);
      PlacedStep(s, w, a);
      InOrderStep(s, w, a);
      if !session {
        NotStrandedStep(s, w, a);
      }
    case _ =>
      if e.Check? {
        OneWorkerCheck(session, s, e);
      } else {
        OneWorkerSend(session, s, e);
      }
      LockHeldSubmit(session, s, e);
      if e.Send? {
        PlacedSend(session, s, e);
        InOrderSend(session, s, e);
      } else {
        if e.Enter? {
          PlacedEnter(session, s, e);
        } else {
          PlacedSubmit(session, s, e);
        }
        InOrderSubmit(session, s, e);
      }
      if !session {
        NotStrandedSubmit(s, e);
      }
  }

  lemma {:induction false} InvOnRuns(session: bool, events: seq<Event>, s: State)
    requires IsRun(session, events, s)
    ensures Inv(session, s)
    decreases |events|
  {
    if events == [] {
    } else {
      hide Inv, Next, Enabled;
      var e := events[|events| - 1];
      var before :| IsRun(session, events[..|events| - 1], before) && Enabled(session, before, e)
        && s == Next(session, before, e);
      InvOnRuns(session, events[..|events| - 1], before);
      InvStays(session, before, e);
    }
  }

  /* ---- what holds in every reachable state ---- */

  /** Tasks of one lane never overlap; a task is completed at most once, and a completed one is nowhere else;
      what is finished, in hand and queued is what the lane accepted, in order. */
  lemma SerialAndOnce(session: bool, s: State)
    requires Reachable(session, s)
    ensures forall v, w :: v in s.workers && w in s.workers && s.workers[v].lane == s.workers[w].lane ==> v == w
    ensures forall t :: t in s.completions ==> s.completions[t] == 1
    ensures forall t, l :: t in s.completions && l in s.lanes ==> t !in s.lanes[l].tasks
    ensures forall t: Task, w :: t in s.completions && w in s.workers ==> s.workers[w].at != Executing(t)
    ensures forall l :: l in s.lanes ==>
      s.lanes[l].accepted == s.lanes[l].finished + s.lanes[l].inHand + s.lanes[l].tasks
    ensures forall w, t: Task :: w in s.workers && s.workers[w].at == Executing(t) ==>
      s.workers[w].lane in s.lanes && s.lanes[s.workers[w].lane].inHand == [t]
  {
    var events :| IsRun(session, events, s);
    InvOnRuns(session, events, s);
    forall t, l | t in s.completions && l in s.lanes
      ensures t !in s.lanes[l].tasks
    {
      forall i | 0 <= i < |s.lanes[l].tasks|
        ensures s.lanes[l].tasks[i] != t
      {
        assert At(s, s.lanes[l].tasks[i], Queued(l)) && At(s, t, Done);
      }
    }
  }

  /** Priority queue: `running` says exactly that one live worker serves the lane, and a lane with tasks has one. */
  lemma NonEmptyLaneIsServed(s: State, l: LaneId)
    requires Reachable(false, s) && l in s.lanes
    ensures s.lanes[l].running <==> HasWorker(s, l)
    ensures s.lanes[l].tasks != [] ==> HasWorker(s, l)
  {
    var events :| IsRun(false, events, s);
    InvOnRuns(false, events, s);
  }

  /** How many of its own steps a worker is away from taking a task when its lane has one. */
  function Distance(kind: Kind, at: Point): nat {
    match at
    case Executing(_) => 0
    case Receiving => 1
    case Peeking => if kind == Normal then 2 else 5
    case Looking => if kind == Normal then 3 else 6
    case Polling => if kind == Normal then 4 else 1
    case Starting => if kind == Normal then 5 else 2
    case Holding => if kind == Normal then 5 else 2
    case Closing => if kind == Normal then 6 else 3
    case Retiring => 0
  }

  /** And it is served: each step of that worker either takes the oldest task or comes nearer to taking it. */
  lemma WorkerTakesOldestTask(s: State, w: Worker)
    requires Reachable(false, s) && Enabled(false, s, Step(w))
    requires !s.workers[w].at.Executing? && s.lanes[s.workers[w].lane].tasks != []
    ensures var l := s.workers[w].lane; var s' := Next(false, s, Step(w));
      w in s'.workers && s'.workers[w].lane == l && l in s'.lanes
      && if s'.workers[w].at.Executing? then
           s'.workers[w].at.task == s.lanes[l].tasks[0] && s'.lanes[l].tasks == s.lanes[l].tasks[1..]
         else
           s'.lanes[l].tasks == s.lanes[l].tasks && s'.workers[w].at != Retiring
           && Distance(l.kind, s'.workers[w].at) < Distance(l.kind, s.workers[w].at)
  {
    var events :| IsRun(false, events, s);
    InvOnRuns(false, events, s);
    hide OneWorker, Placed, InOrder, LockHeld, IsRun;
    StepComesNearer(s, w);
  }

  lemma StepComesNearer(s: State, w: Worker)
    requires w in s.workers && s.workers[w].lane in s.lanes && s.workers[w].lane.kind != Session
    requires !s.workers[w].at.Executing? && s.workers[w].at != Retiring && s.lanes[s.workers[w].lane].tasks != []
    ensures var l := s.workers[w].lane; var s' := Perform(s, w, Decide(s, w));
      w in s'.workers && s'.workers[w].lane == l && l in s'.lanes
      && if s'.workers[w].at.Executing? then
           s'.workers[w].at.task == s.lanes[l].tasks[0] && s'.lanes[l].tasks == s.lanes[l].tasks[1..]
         else
           s'.lanes[l].tasks == s.lanes[l].tasks && s'.workers[w].at != Retiring
           && Distance(l.kind, s'.workers[w].at) < Distance(l.kind, s.workers[w].at)
  {
  }

  /* ---- SessionQueue can strand a task ---- */

  /** A lane with a queued task and no worker. */
  ghost predicate Stranded(s: State, l: LaneId) {
    l in s.lanes && s.lanes[l].tasks != [] && !HasWorker(s, l)
  }

  const STRANDING: seq<Point> := [Starting, Polling, Closing, Holding, Retiring]

  /** The states of a run in which the worker started by Submit returns before Submit sends. */
  function Snapshot(l: LaneId, k: nat): State
    requires k <= 8
  {
    var place := map[7 := With(0)];
    if k == 0 then State(map[l := Lane([], false, [], [], [])], Submitter(0), map[0 := Submission(l, 7, Entered)],
                         map[], place, map[])
    else if k == 1 then State(map[l := Lane([], true, [], [], [])], Submitter(0), map[0 := Submission(l, 7, Checked)],
                              map[1 := Thread(l, Starting)], place, map[])
    else if k <= 6 then State(map[l := Lane([], true, [], [], [])], if k >= 5 then Owner(1) else Free,
                              map[0 := Submission(l, 7, Unlocked)], map[1 := Thread(l, STRANDING[k - 2])], place, map[])
    else if k == 7 then State(map[l := Lane([], false, [], [], [])], Free, map[0 := Submission(l, 7, Unlocked)],
                              map[], place, map[])
    else State(map[l := Lane([7], false, [7], [], [])], Free, map[], map[], map[7 := Queued(l)], map[])
  }

  function Script(l: LaneId): seq<Event> {
    [Enter(0, l, 7), Check(0, 1), Unlock(0), Step(1), Step(1), Step(1), Step(1), Step(1), Send(0)]
  }

  /** Event k of the script leads from one state to the next. */
  ghost predicate ScriptLeads(l: LaneId, k: nat)
    requires k <= 8
  {
    var before, e := if k == 0 then Initial else Snapshot(l, k - 1), Script(l)[k];
    Enabled(true, before, e) && Next(true, before, e) == Snapshot(l, k)
  }

  lemma SubmitterLeads(l: LaneId, k: nat)
    requires l.kind == Session && k <= 2
    ensures ScriptLeads(l, k)
  {
  }

  lemma WorkerLeads(l: LaneId, k: nat)
    requires l.kind == Session && 3 <= k <= 7
    ensures ScriptLeads(l, k)
  {
    if k == 7 {
      assert Snapshot(l, 6).workers - {1} == map[];
    }
  }

  lemma SendLeads(l: LaneId)
    requires l.kind == Session
    ensures ScriptLeads(l, 8)
  {
    var before, after := Snapshot(l, 7), Next(true, Snapshot(l, 7), Send(0));
    assert before.submissions - {0} == map[];
    assert after.lanes[l] == Lane([7], false, [7], [], []);
    assert after.lanes == map[l := Lane([7], false, [7], [], [])];
    assert after.place == map[7 := Queued(l)];
  }

  lemma ScriptStep(l: LaneId, k: nat)
    requires l.kind == Session && k <= 8
    ensures ScriptLeads(l, k)
  {
    hide *;
    if k <= 2 {
      SubmitterLeads(l, k);
    } else if k <= 7 {
      WorkerLeads(l, k);
    } else {
      SendLeads(l);
    }
  }

  lemma {:induction false} ScriptRuns(l: LaneId, k: nat)
    requires l.kind == Session && k <= 8
    ensures IsRun(true, Script(l)[..k + 1], Snapshot(l, k))
  {
    hide Enabled, Next, Snapshot;
    ScriptStep(l, k);
    assert Script(l)[..k + 1] == Script(l)[..k] + [Script(l)[k]];
    if k == 0 {
      RunSnoc(true, [], Initial, Script(l)[0]);
    } else {
      ScriptRuns(l, k - 1);
      RunSnoc(true, Script(l)[..k], Snapshot(l, k - 1), Script(l)[k]);
    }
  }

  lemma RunSnoc(session: bool, events: seq<Event>, s: State, e: Event)
    requires IsRun(session, events, s) && Enabled(session, s, e)
    ensures IsRun(session, events + [e], Next(session, s, e))
  {
    hide Enabled, Next;
    var all := events + [e];
    assert all[..|all| - 1] == events && all[|all| - 1] == e;
  }

  /** Submit starts a worker, unlocks, and sends only after that worker has found the channel empty and returned. */
  lemma SessionQueueStrands(agent: string)
    ensures exists s :: Reachable(true, s) && Stranded(s, LaneId(agent, Session))
  {
    var l := LaneId(agent, Session);
    ScriptRuns(l, 8);
    assert Stranded(Snapshot(l, 8), l);
  }

  /** The two ways a lane is left behind: a task is sent to it after its worker has cleared `running`, or that worker
      clears `running` over a task sent since it found the lane empty. */
  ghost predicate Strands(session: bool, s: State, e: Event, l: LaneId)
    requires Enabled(session, s, e) && l in s.lanes
  {
    (e.Send? && s.submissions[e.c].lane == l && !s.lanes[l].running)
    || (e.Step? && s.workers[e.w].lane == l && s.workers[e.w].at == Retiring && s.lanes[l].tasks != [])
  }

  /** The one way it is taken up again: the next Submit to it finds `running` cleared. */
  ghost predicate Rescues(session: bool, s: State, e: Event, l: LaneId)
    requires Enabled(session, s, e)
  {
    e.Check? && s.submissions[e.c].lane == l
  }

  /** After the event the lane is stranded if and only if it was and no Submit took it up, or the event stranded it. */
  ghost predicate StrandedFollows(session: bool, s: State, e: Event, l: LaneId)
    requires Enabled(session, s, e) && l in s.lanes
  {
    l in Next(session, s, e).lanes &&
    (Stranded(Next(session, s, e), l) <==>
      (Stranded(s, l) && !Rescues(session, s, e, l)) || Strands(session, s, e, l))
  }

  /** What leaves the lane's tasks and its worker alone leaves the lane as it was. */
  lemma SameStranded(s: State, s': State, l: LaneId)
    requires HasWorker(s', l) <==> HasWorker(s, l)
    requires l in s.lanes && l in s'.lanes && s'.lanes[l].tasks == s.lanes[l].tasks
    ensures Stranded(s', l) <==> Stranded(s, l)
  {
  }

  lemma StrandedBySubmit(session: bool, s: State, e: Event, l: LaneId)
    requires Enabled(session, s, e) && (e.Enter? || e.Unlock?) && l in s.lanes
    ensures StrandedFollows(session, s, e, l)
  {
    SameStranded(s, Next(session, s, e), l);
  }

  lemma StrandedByCheck(session: bool, s: State, e: Event, l: LaneId)
    requires OneWorker(s) && Kinds(session, s) && Enabled(session, s, e) && e.Check? && l in s.lanes
    ensures StrandedFollows(session, s, e, l)
  {
    var s' := Next(session, s, e);
    if s.submissions[e.c].lane == l {
      if !s.lanes[l].running {
        assert e.w in s'.workers && s'.workers[e.w].lane == l;
      }
    } else {
      OtherStaysServed(s, s', l, e.w);
      SameStranded(s, s', l);
    }
  }

  /** A lane is served as before when the one worker that came or moved on is not its own. */
  lemma OtherStaysServed(s: State, s': State, l: LaneId, w: Worker)
    requires forall v :: v != w ==> (v in s.workers <==> v in s'.workers)
    requires forall v :: v != w && v in s.workers ==> s'.workers[v] == s.workers[v]
    requires (w in s.workers ==> s.workers[w].lane != l) && (w in s'.workers ==> s'.workers[w].lane != l)
    ensures HasWorker(s', l) <==> HasWorker(s, l)
  {
    if HasWorker(s, l) {
      var v :| v in s.workers && s.workers[v].lane == l;
      assert v in s'.workers && s'.workers[v].lane == l;
    }
  }

  lemma StrandedBySend(session: bool, s: State, e: Event, l: LaneId)
    requires OneWorker(s) && Enabled(session, s, e) && e.Send? && l in s.lanes
    ensures StrandedFollows(session, s, e, l)
  {
  }

  lemma StrandedByStep(session: bool, s: State, w: Worker, l: LaneId)
    requires OneWorker(s) && Enabled(session, s, Step(w)) && l in s.lanes
    ensures StrandedFollows(session, s, Step(w), l)
  {
    hide OneWorker;
    var s', a := Perform(s, w, Decide(s, w)), Decide(s, w);
    DecideIsSensible(s, w);
    if s.workers[w].lane != l {
      OtherStaysServed(s, s', l, w);
      SameStranded(s, s', l);
    } else {
      assert HasWorker(s, l);
      if a.Return? {
        LastWorkerReturns(s, s', w, l);
      } else {
        assert w in s'.workers && s'.workers[w].lane == l;
      }
    }
  }

  lemma LastWorkerReturns(s: State, s': State, w: Worker, l: LaneId)
    requires OneWorker(s) && w in s.workers && s.workers[w].lane == l && s'.workers == s.workers - {w}
    ensures !HasWorker(s', l)
  {
  }

  lemma StrandedNext(session: bool, s: State, e: Event, l: LaneId)
    requires Reachable(session, s) && Enabled(session, s, e) && l in s.lanes
    ensures StrandedFollows(session, s, e, l)
  {
    var events :| IsRun(session, events, s);
    InvOnRuns(session, events, s);
    hide OneWorker, Kinds, Placed, InOrder, LockHeld, IsRun, StrandedFollows, Next, NotStranded;
    match e
    case Step(w) => StrandedByStep(session, s, w, l);
    case Check(_, _) => StrandedByCheck(session, s, e, l);
    case Send(_) => StrandedBySend(session, s, e, l);
    case _ => StrandedBySubmit(session, s, e, l);
  }

  /** Exactly these events strand a lane that is not stranded, in every reachable state of either queue. */
  lemma StrandedExactlyWhen(session: bool, s: State, e: Event, l: LaneId)
    requires Reachable(session, s) && Enabled(session, s, e) && l in s.lanes && !Stranded(s, l)
    ensures Stranded(Next(session, s, e), l) <==> Strands(session, s, e, l)
  {
    hide Next, Strands, Stranded, Enabled, Reachable;
    StrandedNext(session, s, e, l);
  }

  /** And exactly the next Submit to the lane ends it. */
  lemma RescuedExactlyWhen(session: bool, s: State, e: Event, l: LaneId)
    requires Reachable(session, s) && Enabled(session, s, e) && Stranded(s, l)
    ensures !Stranded(Next(session, s, e), l) <==> Rescues(session, s, e, l)
  {
    hide Next, Reachable;
    StrandedNext(session, s, e, l);
  }

  /** A run with its states. */
  ghost predicate IsTrace(session: bool, states: seq<State>, events: seq<Event>) {
    |states| == |events| + 1 && states[0] == Initial &&
    forall k :: 0 <= k < |events| ==>
      Enabled(session, states[k], events[k]) && states[k + 1] == Next(session, states[k], events[k])
  }

  lemma {:induction false} TraceIsRun(session: bool, states: seq<State>, events: seq<Event>, n: nat)
    requires IsTrace(session, states, events) && n <= |events|
    ensures IsRun(session, events[..n], states[n])
  {
    hide Enabled, Next;
    if n > 0 {
      TraceIsRun(session, states, events, n - 1);
      assert events[..n] == events[..n - 1] + [events[n - 1]];
      RunSnoc(session, events[..n - 1], states[n - 1], events[n - 1]);
    }
  }

  /** Event k strands the lane and no Submit takes it up again before event n. */
  ghost predicate LeftBehind(session: bool, states: seq<State>, events: seq<Event>, l: LaneId, k: nat, n: nat)
    requires IsTrace(session, states, events) && k < n <= |events|
  {
    l in states[k].lanes && Strands(session, states[k], events[k], l) &&
    forall j :: k < j < n ==> !Rescues(session, states[j], events[j], l)
  }

  ghost predicate IsLeftBehind(session: bool, states: seq<State>, events: seq<Event>, l: LaneId, n: nat)
    requires IsTrace(session, states, events) && n <= |events|
  {
    exists k :: 0 <= k < n && LeftBehind(session, states, events, l, k, n)
  }

  /** Over every run of either queue: a lane is stranded if and only if some event left it behind and no Submit to it
      came since. */
  lemma {:induction false} StrandedOnRuns(session: bool, states: seq<State>, events: seq<Event>, l: LaneId, n: nat)
    requires IsTrace(session, states, events) && n <= |events|
    ensures Stranded(states[n], l) <==> IsLeftBehind(session, states, events, l, n)
    decreases n
  {
    if n == 0 {
    } else {
      hide Strands, Rescues, Enabled, Next, LeftBehind, Stranded, IsRun;
      hide IsLeftBehind;
      StrandedOnRuns(session, states, events, l, n - 1);
      TraceIsRun(session, states, events, n - 1);
      LeftBehindNext(session, states, events, l, n);
      if l in states[n - 1].lanes {
        StrandedNext(session, states[n - 1], events[n - 1], l);
      } else {
        UnknownLane(session, states[n - 1], events[n - 1], l);
      }
    }
  }

  lemma LeftBehindNext(session: bool, states: seq<State>, events: seq<Event>, l: LaneId, n: nat)
    requires IsTrace(session, states, events) && 0 < n <= |events|
    ensures var s, e := states[n - 1], events[n - 1];
      IsLeftBehind(session, states, events, l, n) <==>
        (IsLeftBehind(session, states, events, l, n - 1) && !Rescues(session, s, e, l))
        || (l in s.lanes && Strands(session, s, e, l))
  {
    hide Strands, Rescues, Enabled, Next, LeftBehind;
    StrandingStands(session, states, events, l, n);
    if IsLeftBehind(session, states, events, l, n - 1) && !Rescues(session, states[n - 1], events[n - 1], l) {
      var k :| 0 <= k < n - 1 && LeftBehind(session, states, events, l, k, n - 1);
      assert LeftBehind(session, states, events, l, k, n);
    }
    if IsLeftBehind(session, states, events, l, n) {
      var k :| 0 <= k < n && LeftBehind(session, states, events, l, k, n);
      assert k < n - 1 ==> LeftBehind(session, states, events, l, k, n - 1);
    }
  }

  lemma StrandingStands(session: bool, states: seq<State>, events: seq<Event>, l: LaneId, n: nat)
    requires IsTrace(session, states, events) && 0 < n <= |events|
    ensures forall k :: 0 <= k < n - 1 ==>
      (LeftBehind(session, states, events, l, k, n) <==>
       LeftBehind(session, states, events, l, k, n - 1) && !Rescues(session, states[n - 1], events[n - 1], l))
    ensures LeftBehind(session, states, events, l, n - 1, n) <==>
      l in states[n - 1].lanes && Strands(session, states[n - 1], events[n - 1], l)
  {
    hide Strands, Rescues, Enabled, Next;
  }

  /** A lane that does not exist yet is created empty. */
  lemma UnknownLane(session: bool, s: State, e: Event, l: LaneId)
    requires Reachable(session, s) && Enabled(session, s, e) && l !in s.lanes
    ensures !Stranded(s, l) && !Stranded(Next(session, s, e), l)
  {
    hide Decide, IsRun;
  }
}
