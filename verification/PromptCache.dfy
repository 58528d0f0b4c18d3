/** The cached system prompt and the file watch that keeps it honest. */
module PromptCache {
  import opened Options

  type Path = string

  /** A file (or skill root directory): its content and modification time. */
  datatype File = File(content: string, mtime: nat)

  type Files = map<Path, File>

  /** One change of the file system. */
  datatype Change = Idle | Write(path: Path, content: string) | Remove(path: Path)

  /** The file system over time: instant t + 1 comes out of instant t by change t, stamped by a growing clock. */
  datatype World = World(initial: Files, changes: nat -> Change, clock: nat -> nat)

  ghost predicate GoodWorld(w: World) {
    && 1 <= w.clock(0) && (forall p :: p in w.initial ==> 0 < w.initial[p].mtime <= w.clock(0))
    && (forall t: nat :: w.clock(t) < w.clock(t + 1))
  }

  /** The files at an instant; a write at instant t leaves the stamp clock(t + 1), later than all before. */
  function At(w: World, t: nat): Files {
    if t == 0 then w.initial
    else
      match w.changes(t - 1)
      case Idle => At(w, t - 1)
      case Write(p, c) => At(w, t - 1)[p := File(c, w.clock(t))]
      case Remove(p) => At(w, t - 1) - {p}
  }

  lemma {:induction false} StampsAreOld(w: World, t: nat, p: Path)
    requires GoodWorld(w) && p in At(w, t)
    ensures 0 < At(w, t)[p].mtime <= w.clock(t)
  {
    if t > 0 {
      if p in At(w, t - 1) {
        StampsAreOld(w, t - 1, p);
      }
      var u := t - 1;
      assert w.clock(u) < w.clock(u + 1);
    }
  }

  /** Between two instants a file either is untouched or carries a stamp later than everything seen before. */
  lemma {:induction false} TouchedIsNewer(w: World, t: nat, u: nat, p: Path)
    requires GoodWorld(w) && t <= u && p in At(w, u)
    ensures (p in At(w, t) && At(w, t)[p] == At(w, u)[p]) || At(w, u)[p].mtime > w.clock(t)
    decreases u
  {
    if t < u {
      var v := u - 1;
      assert w.clock(v) < w.clock(v + 1);
      ClockGrows(w, t, v);
      if p in At(w, v) {
        TouchedIsNewer(w, t, v, p);
      }
    }
  }

  lemma {:induction false} ClockGrows(w: World, t: nat, u: nat)
    requires GoodWorld(w) && t <= u
    ensures w.clock(t) <= w.clock(u)
    decreases u
  {
    if t < u {
      var v := u - 1;
      assert w.clock(v) < w.clock(v + 1);
      ClockGrows(w, t, v);
    }
  }

  /** The watched paths: bootstrap and memory files, skill roots, and everything below a skill root. */
  datatype Layout = Layout(sources: seq<Path>, roots: seq<Path>, isSkill: Path -> bool)

  function Watched(l: Layout): seq<Path> {
    l.sources + l.roots
  }

  /** The paths whose content enters the prompt. */
  predicate Tracked(l: Layout, p: Path) {
    p in l.sources || l.isSkill(p)
  }

  function SkillFiles(l: Layout, files: Files): set<Path> {
    set p | p in files && l.isSkill(p)
  }

  function Contents(l: Layout, files: Files): map<Path, string> {
    map p | p in files && Tracked(l, p) :: files[p].content
  }

  datatype Baseline = Baseline(existed: map<Path, bool>, skillFiles: map<Path, nat>, maxMtime: nat)

  /** When the baseline was taken and the prompt built: every stat falls in [first, mid], every read in [mid, last],
      each at an instant of its own; a skill file that no walk lists counts as looked for at the walk. */
  datatype Window = Window(first: nat, mid: nat, last: nat, statAt: Path -> nat, skillStatAt: Path -> nat,
                           readAt: Path -> nat, seen: map<Path, string>)

  /** What the stat of a watched path at instant t leaves in the baseline. */
  ghost predicate SawWatched(w: World, existed: map<Path, bool>, maxMtime: nat, p: Path, t: nat) {
    p in existed && existed[p] == (p in At(w, t)) && (existed[p] ==> At(w, t)[p].mtime <= maxMtime)
  }

  /** What the stat of a skill file at instant t leaves in the baseline. */
  ghost predicate SawSkill(w: World, skillFiles: map<Path, nat>, p: Path, t: nat) {
    (p in skillFiles <==> p in At(w, t)) && (p in skillFiles ==> skillFiles[p] == At(w, t)[p].mtime)
  }

  /** What reading a file at instant t contributes to the prompt. */
  ghost predicate SawContent(w: World, seen: map<Path, string>, p: Path, t: nat) {
    (p in seen <==> p in At(w, t)) && (p in seen ==> seen[p] == At(w, t)[p].content)
  }

  /** The baseline is what the stats of the window saw. */
  ghost predicate IsBaseline(w: World, l: Layout, b: Baseline, win: Window) {
    && (forall p :: p in Watched(l) ==>
        win.first <= win.statAt(p) <= win.mid && SawWatched(w, b.existed, b.maxMtime, p, win.statAt(p)))
    && (forall p :: l.isSkill(p) ==>
        win.first <= win.skillStatAt(p) <= win.mid && SawSkill(w, b.skillFiles, p, win.skillStatAt(p)))
    && (forall p :: p in b.skillFiles ==> l.isSkill(p))
    && 1 <= b.maxMtime <= w.clock(win.mid)
  }

  /** The prompt is rendered from one read of every tracked file. */
  ghost predicate IsBuild(w: World, l: Layout, render: map<Path, string> -> string, prompt: string, win: Window) {
    && (forall p :: Tracked(l, p) ==>
        win.mid <= win.readAt(p) <= win.last && SawContent(w, win.seen, p, win.readAt(p)))
    && (forall p :: p in win.seen ==> Tracked(l, p))
    && prompt == render(win.seen)
  }

  /** What the cache knows. Nothing is said about the changes that fall into the window. */
  ghost predicate Recorded(w: World, l: Layout, render: map<Path, string> -> string, prompt: string, b: Baseline,
                           win: Window)
  {
    && GoodWorld(w) && win.first <= win.mid <= win.last
    && IsBaseline(w, l, b, win) && IsBuild(w, l, render, prompt, win)
  }

  /** The check: a watched path appeared, vanished or is newer, or the skill tree differs from its snapshot. */
  ghost predicate Changed(l: Layout, files: Files, b: Baseline)
    requires forall p :: p in Watched(l) ==> p in b.existed
  {
    || (exists p :: p in Watched(l) && FileChangedSince(files, b, p))
    || (exists p :: p in b.skillFiles && (p !in files || files[p].mtime != b.skillFiles[p]))
    || (exists p :: p in SkillFiles(l, files) && p !in b.skillFiles)
  }

  predicate FileChangedSince(files: Files, b: Baseline, p: Path)
    requires p in b.existed
  {
    b.existed[p] != (p in files) || (p in files && files[p].mtime > b.maxMtime)
  }

  /** The file was read as it is now. */
  ghost predicate ReadAsNow(w: World, readAt: nat, now: nat, p: Path) {
    && (p in At(w, readAt) <==> p in At(w, now))
    && (p in At(w, now) ==> At(w, readAt)[p] == At(w, now)[p])
  }

  /** The file was missing when it was stat'ed and there when it was read. */
  ghost predicate Appeared(w: World, statAt: nat, readAt: nat, p: Path) {
    p !in At(w, statAt) && p in At(w, readAt)
  }

  /** No tracked file appeared between its stat and its read. */
  ghost predicate NoneAppeared(w: World, l: Layout, win: Window) {
    && (forall p :: p in l.sources ==> !Appeared(w, win.statAt(p), win.readAt(p), p))
    && (forall p :: l.isSkill(p) ==> !Appeared(w, win.skillStatAt(p), win.readAt(p), p))
  }

  /** The file was read as it is now if and only if it did not appear between its stat and its read; one that did is
      gone now. */
  ghost predicate FreshExactly(w: World, statAt: nat, readAt: nat, now: nat, p: Path) {
    && (ReadAsNow(w, readAt, now, p) <==> !Appeared(w, statAt, readAt, p))
    && (Appeared(w, statAt, readAt, p) ==> p !in At(w, now))
  }

  /** A source file that the check finds unchanged. */
  lemma SourceIsFreshExactly(w: World, b: Baseline, statAt: nat, mid: nat, readAt: nat, now: nat, p: Path)
    requires GoodWorld(w) && SawWatched(w, b.existed, b.maxMtime, p, statAt) && b.maxMtime <= w.clock(mid)
    requires mid <= readAt <= now && !FileChangedSince(At(w, now), b, p)
    ensures FreshExactly(w, statAt, readAt, now, p)
  {
    hide At;
    if p in At(w, now) {
      TouchedIsNewer(w, readAt, now, p);
      ClockGrows(w, mid, readAt);
    }
  }

  /** A skill file that the check finds unchanged. */
  lemma SkillIsFreshExactly(w: World, skillFiles: map<Path, nat>, statAt: nat, readAt: nat, now: nat, p: Path)
    requires GoodWorld(w) && SawSkill(w, skillFiles, p, statAt) && statAt <= readAt <= now
    requires SawSkill(w, skillFiles, p, now)
    ensures FreshExactly(w, statAt, readAt, now, p)
  {
    hide At;
    if p in At(w, now) {
      StampsAreOld(w, statAt, p);
      ClockGrows(w, statAt, readAt);
      TouchedIsNewer(w, readAt, now, p);
    }
  }

  /** After a silent check. */
  lemma {:induction false} TrackedIsFreshExactly(w: World, l: Layout, render: map<Path, string> -> string,
                                                 prompt: string, b: Baseline, win: Window, now: nat, p: Path)
    requires Recorded(w, l, render, prompt, b, win) && win.last <= now && !Changed(l, At(w, now), b)
    ensures p in l.sources ==> FreshExactly(w, win.statAt(p), win.readAt(p), now, p)
    ensures l.isSkill(p) ==> FreshExactly(w, win.skillStatAt(p), win.readAt(p), now, p)
  {
    hide At, SawWatched, ReadAsNow, Appeared, FreshExactly;
    if p in l.sources {
      assert p in Watched(l) && Tracked(l, p);
      SourceIsFreshExactly(w, b, win.statAt(p), win.mid, win.readAt(p), now, p);
    }
    if l.isSkill(p) {
      assert Tracked(l, p) && (p in SkillFiles(l, At(w, now)) <==> p in At(w, now));
      SkillIsFreshExactly(w, b.skillFiles, win.skillStatAt(p), win.readAt(p), now, p);
    }
  }

  ghost predicate AllReadAsNow(w: World, l: Layout, readAt: Path -> nat, now: nat) {
    forall p :: Tracked(l, p) ==> ReadAsNow(w, readAt(p), now, p)
  }

  /** What was read is what is there now, if every file was read as it is now and no file read is gone. */
  lemma SeenIsCurrent(w: World, l: Layout, render: map<Path, string> -> string, prompt: string, b: Baseline,
                      win: Window, now: nat)
    requires Recorded(w, l, render, prompt, b, win)
    ensures prompt == render(win.seen)
    ensures AllReadAsNow(w, l, win.readAt, now) ==> win.seen == Contents(l, At(w, now))
    ensures (exists p :: Gone(w, l, win.readAt, now, p)) ==> win.seen != Contents(l, At(w, now))
  {
    hide At, IsBaseline;
    var current := Contents(l, At(w, now));
    if AllReadAsNow(w, l, win.readAt, now) {
      forall p
        ensures p in win.seen <==> p in current
        ensures p in win.seen ==> win.seen[p] == current[p]
      {
        assert Tracked(l, p) ==> ReadAsNow(w, win.readAt(p), now, p);
      }
    }
    forall p | Gone(w, l, win.readAt, now, p)
      ensures p in win.seen && p !in current
    {
    }
  }

  /** A tracked file that was there when it was read and is there no more. */
  ghost predicate Gone(w: World, l: Layout, readAt: Path -> nat, now: nat, p: Path) {
    Tracked(l, p) && p in At(w, readAt(p)) && p !in At(w, now)
  }

  /** Either no tracked file appeared and all were read as they are now, or one appeared and is gone. */
  lemma {:induction false} FreshOrGone(w: World, l: Layout, render: map<Path, string> -> string, prompt: string,
                                       b: Baseline, win: Window, now: nat)
    requires Recorded(w, l, render, prompt, b, win) && win.last <= now && !Changed(l, At(w, now), b)
    ensures NoneAppeared(w, l, win) <==> AllReadAsNow(w, l, win.readAt, now)
    ensures !NoneAppeared(w, l, win) ==> exists p :: Gone(w, l, win.readAt, now, p)
  {
    hide Recorded, Changed, At, ReadAsNow;
    forall p
      ensures p in l.sources ==> FreshExactly(w, win.statAt(p), win.readAt(p), now, p)
      ensures l.isSkill(p) ==> FreshExactly(w, win.skillStatAt(p), win.readAt(p), now, p)
    {
      hide *;
      TrackedIsFreshExactly(w, l, render, prompt, b, win, now, p);
    }
    if p :| p in l.sources && Appeared(w, win.statAt(p), win.readAt(p), p) {
      assert Tracked(l, p) && Gone(w, l, win.readAt, now, p);
    } else if p :| l.isSkill(p) && Appeared(w, win.skillStatAt(p), win.readAt(p), p) {
      assert Tracked(l, p) && Gone(w, l, win.readAt, now, p);
    }
  }

  ghost predicate Injective(render: map<Path, string> -> string) {
    forall x, y :: render(x) == render(y) ==> x == y
  }

  /** Coherence, exactly: when the check finds nothing, every tracked file was read as it is now if and only if none
      appeared between its stat and its read. Then the cached prompt is what a build from the current files gives,
      and only then if the rendering tells all contents apart. */
  lemma {:induction false} UnchangedIsFreshExactly(w: World, l: Layout, render: map<Path, string> -> string,
                                                   prompt: string, b: Baseline, win: Window, now: nat)
    requires Recorded(w, l, render, prompt, b, win) && win.last <= now && !Changed(l, At(w, now), b)
    ensures AllReadAsNow(w, l, win.readAt, now) <==> NoneAppeared(w, l, win)
    ensures win.seen == Contents(l, At(w, now)) <==> NoneAppeared(w, l, win)
    ensures NoneAppeared(w, l, win) ==> prompt == render(Contents(l, At(w, now)))
    ensures Injective(render) ==> (prompt == render(Contents(l, At(w, now))) <==> NoneAppeared(w, l, win))
  {
    hide Recorded, Changed, At, AllReadAsNow, NoneAppeared, Gone, Contents;
    FreshOrGone(w, l, render, prompt, b, win, now);
    SeenIsCurrent(w, l, render, prompt, b, win, now);
  }

  /** No tracked file is created from the first instant to the last. */
  ghost predicate NothingCreated(w: World, l: Layout, first: nat, last: nat) {
    forall t: nat, u: nat, p :: first <= t <= u <= last && Tracked(l, p) && p in At(w, u) ==> p in At(w, t)
  }

  /** Coherence while no tracked file is created during the window; edits and removals may fall anywhere in it. */
  lemma {:induction false} UnchangedIsFresh(w: World, l: Layout, render: map<Path, string> -> string, prompt: string,
                                            b: Baseline, win: Window, now: nat)
    requires Recorded(w, l, render, prompt, b, win) && win.last <= now && !Changed(l, At(w, now), b)
    requires NothingCreated(w, l, win.first, win.last)
    ensures prompt == render(Contents(l, At(w, now)))
  {
    UnchangedIsFreshExactly(w, l, render, prompt, b, win, now);
    hide At, Changed;
    forall p | p in l.sources
      ensures !Appeared(w, win.statAt(p), win.readAt(p), p)
    {
      assert p in Watched(l) && Tracked(l, p);
    }
    assert forall p :: l.isSkill(p) ==> Tracked(l, p);
  }

  predicate Touches(c: Change, p: Path) {
    !c.Idle? && c.path == p
  }

  lemma {:induction false} UntouchedStays(w: World, t: nat, u: nat, p: Path)
    requires t <= u && forall v: nat :: t <= v < u ==> !Touches(w.changes(v), p)
    ensures p in At(w, t) <==> p in At(w, u)
    ensures p in At(w, t) ==> At(w, t)[p] == At(w, u)[p]
    decreases u
  {
    if t < u {
      UntouchedStays(w, t, u - 1, p);
      assert !Touches(w.changes(u - 1), p);
    }
  }

  /** And no false alarm: while no watched path has been touched since the window began, the check stays silent. */
  lemma UntouchedIsUnchanged(w: World, l: Layout, render: map<Path, string> -> string, prompt: string, b: Baseline,
                             win: Window, now: nat)
    requires Recorded(w, l, render, prompt, b, win) && win.last <= now
    requires forall p, t: nat :: (p in Watched(l) || l.isSkill(p)) && win.first <= t < now ==>
      !Touches(w.changes(t), p)
    ensures !Changed(l, At(w, now), b)
  {
    hide At, Touches, IsBuild;
    forall p | p in Watched(l)
      ensures !FileChangedSince(At(w, now), b, p)
    {
      UntouchedStays(w, win.statAt(p), now, p);
    }
    forall p | l.isSkill(p)
      ensures SawSkill(w, b.skillFiles, p, now)
    {
      UntouchedStays(w, win.skillStatAt(p), now, p);
    }
    assert forall p :: p in SkillFiles(l, At(w, now)) ==> l.isSkill(p);
  }

  /** A file there at its stat and missing when its turn to be read came is always noticed. */
  lemma VanishedMeanwhile(w: World, b: Baseline, statAt: nat, mid: nat, gone: nat, now: nat, p: Path)
    requires GoodWorld(w) && SawWatched(w, b.existed, b.maxMtime, p, statAt) && b.maxMtime <= w.clock(mid)
    requires p in At(w, statAt) && mid <= gone <= now && p !in At(w, gone)
    ensures FileChangedSince(At(w, now), b, p)
  {
    hide At;
    if p in At(w, now) {
      TouchedIsNewer(w, gone, now, p);
      ClockGrows(w, mid, gone);
    }
  }

  function OneFileWorld(initial: Files, first: Change, second: Change): World {
    World(initial, t => if t == 0 then first else if t == 1 then second else Idle, t => t + 1)
  }

  /** The exception is real: created between its stat and its read and gone again, a file stays in the cached prompt
      and the check does not notice. */
  lemma CreatedDuringBuildGoesUnnoticed(p: Path, text: string, render: map<Path, string> -> string)
    ensures var l := Layout([p], [], _ => false);
      var w := OneFileWorld(map[], Write(p, text), Remove(p));
      var b, win := Baseline(map[p := false], map[], 1), Window(0, 0, 1, _ => 0, _ => 0, _ => 1, map[p := text]);
      Recorded(w, l, render, render(win.seen), b, win) && !Changed(l, At(w, 2), b) && !NoneAppeared(w, l, win)
      && Contents(l, At(w, 2)) == map[]
  {
    var w := OneFileWorld(map[], Write(p, text), Remove(p));
    assert At(w, 1) == map[p := File(text, 2)];
    assert At(w, 2) == map[];
    assert Appeared(w, 0, 1, p);
  }

  /** Why the baseline comes first: read at instant 0, rewritten, and only then stat'ed, a file is stale unnoticed. */
  lemma BaselineAfterBuildGoesStale(p: Path, stale: string, text: string)
    ensures var l := Layout([p], [], _ => false);
      var w := OneFileWorld(map[p := File(stale, 1)], Write(p, text), Idle);
      var b := Baseline(map[p := true], map[], 2);
      GoodWorld(w) && SawWatched(w, b.existed, b.maxMtime, p, 1) && !Changed(l, At(w, 2), b)
      && SawContent(w, map[p := stale], p, 0) && Contents(l, At(w, 2)) == map[p := text]
  {
    var w := OneFileWorld(map[p := File(stale, 1)], Write(p, text), Idle);
    assert At(w, 1) == map[p := File(text, 2)];
    assert At(w, 2) == map[p := File(text, 2)];
  }

  /** Consecutive file-system accesses happen at instants that never go back, all by the horizon. */
  ghost predicate Schedule(sched: nat -> nat, horizon: nat) {
    && (forall i: nat, j: nat :: i <= j ==> sched(i) <= sched(j))
    && (forall i: nat :: sched(i) <= horizon)
  }

  /** The instants of the accesses made, and one instant for every other path. */
  function Instants(at: map<Path, nat>, other: nat): Path -> nat {
    p => if p in at then at[p] else other
  }

  /** Every watched path of `at` was stat'ed between the two instants. */
  ghost predicate WatchedStats(w: World, existed: map<Path, bool>, maxMtime: nat, at: map<Path, nat>, first: nat,
                               mid: nat)
  {
    forall p :: p in at ==> first <= at[p] <= mid && SawWatched(w, existed, maxMtime, p, at[p])
  }

  /** Every skill file of `at` was stat'ed between the two instants, and no other is in the snapshot. */
  ghost predicate SkillStats(w: World, skillFiles: map<Path, nat>, at: map<Path, nat>, first: nat, mid: nat) {
    && (forall p :: p in at ==> first <= at[p] <= mid && SawSkill(w, skillFiles, p, at[p]))
    && (forall p :: p in skillFiles ==> p in at)
  }

  lemma OneMoreSkill(w: World, skillFiles: map<Path, nat>, at: map<Path, nat>, first: nat, p: Path, t: nat, mid: nat)
    requires SkillStats(w, skillFiles, at, first, t) && p !in at && first <= t <= mid
    ensures var more := if p in At(w, t) then skillFiles[p := At(w, t)[p].mtime] else skillFiles;
      SkillStats(w, more, at[p := t], first, mid)
  {
    hide At;
  }

  /** Every file of `at` was read between the two instants, and no other was seen. */
  ghost predicate Reads(w: World, seen: map<Path, string>, at: map<Path, nat>, mid: nat, last: nat) {
    && (forall p :: p in at ==> mid <= at[p] <= last && SawContent(w, seen, p, at[p]))
    && (forall p :: p in seen ==> p in at)
  }

  class ContextBuilder {
    const world: World
    const layout: Layout
    const render: map<Path, string> -> string

    var cachedSystemPrompt: string
    var cachedAt: nat
    var existedAtCache: Option<map<Path, bool>>
    var skillFilesAtCache: Option<map<Path, nat>>
    ghost var window: Window

    /** A cached prompt comes with the baseline and the window it was built in. */
    ghost predicate Valid()
      reads this
    {
      cachedSystemPrompt != "" ==>
        cachedAt > 0 && existedAtCache.Some? && skillFilesAtCache.Some?
        && Recorded(world, layout, render, cachedSystemPrompt, Cached(), window)
    }

    ghost function Cached(): Baseline
      requires existedAtCache.Some? && skillFilesAtCache.Some?
      reads this
    {
      Baseline(existedAtCache.value, skillFilesAtCache.value, cachedAt)
    }

    constructor (world: World, layout: Layout, render: map<Path, string> -> string)
      requires GoodWorld(world)
      ensures Valid() && cachedSystemPrompt == ""
      ensures this.world == world && this.layout == layout && this.render == render
    {
      this.world, this.layout, this.render := world, layout, render;
      cachedSystemPrompt, cachedAt, existedAtCache, skillFilesAtCache := "", 0, None, None;
      window := Window(0, 0, 0, _ => 0, _ => 0, _ => 0, map[]);
    }

    method InvalidateCache()
      modifies this
      ensures Valid() && cachedSystemPrompt == ""
    {
      cachedSystemPrompt, cachedAt, existedAtCache, skillFilesAtCache := "", 0, None, None;
    }

    /** The check, all of it at one instant. */
    method SourceFilesChangedLocked(now: nat) returns (changed: bool)
      requires Valid()
      ensures cachedSystemPrompt != "" ==> (changed <==> Changed(layout, At(world, now), Cached()))
      ensures cachedSystemPrompt != "" && window.last <= now && !changed && NoneAppeared(world, layout, window) ==>
        cachedSystemPrompt == render(Contents(layout, At(world, now)))
    {
      if cachedAt == 0 || existedAtCache.None? || skillFilesAtCache.None? {
        return true;
      }
      ghost var silent := cachedSystemPrompt != "" && window.last <= now;
      var b := Baseline(existedAtCache.value, skillFilesAtCache.value, cachedAt);
      changed := AnyWatchedChanged(b, now);
      if !changed {
        changed := SkillFilesChangedSince(b.skillFiles, now);
      }
      if silent && !changed {
        UnchangedIsFreshExactly(world, layout, render, cachedSystemPrompt, b, window, now);
      }
    }

    method AnyWatchedChanged(b: Baseline, now: nat) returns (changed: bool)
      ensures (forall p :: p in Watched(layout) ==> p in b.existed) ==>
        (changed <==> exists p :: p in Watched(layout) && FileChangedSince(At(world, now), b, p))
    {
      var files, paths := At(world, now), Watched(layout);
      for i := 0 to |paths|
        invariant forall k :: 0 <= k < i ==> paths[k] in b.existed ==> !FileChangedSince(files, b, paths[k])
      {
        var p := paths[i];
        var existedBefore, existsNow := p in b.existed && b.existed[p], p in files;
        if existedBefore != existsNow || (existsNow && files[p].mtime > b.maxMtime) {
          assert p in Watched(layout);
          return true;
        }
      }
      changed := false;
    }

    method SkillFilesChangedSince(filesAtCache: map<Path, nat>, now: nat) returns (changed: bool)
      ensures var files := At(world, now);
        changed <==>
        (exists p :: p in filesAtCache && (p !in files || files[p].mtime != filesAtCache[p]))
        || (exists p :: p in SkillFiles(layout, files) && p !in filesAtCache)
    {
      var files := At(world, now);
      var todo := filesAtCache.Keys;
      while todo != {}
        invariant todo <= filesAtCache.Keys
        invariant forall p :: p in filesAtCache && p !in todo ==> p in files && files[p].mtime == filesAtCache[p]
        decreases todo
      {
        var p :| p in todo;
        if p !in files || files[p].mtime != filesAtCache[p] {
          return true;
        }
        todo := todo - {p};
      }
      todo := SkillFiles(layout, files);
      while todo != {}
        invariant todo <= SkillFiles(layout, files)
        invariant forall p :: p in SkillFiles(layout, files) && p !in todo ==> p in filesAtCache
        decreases todo
      {
        var p :| p in todo;
        if p !in filesAtCache {
          return true;
        }
        todo := todo - {p};
      }
      changed := false;
    }

    /** Stats every watched path; access i happens at sched(i). */
    method StatWatched(sched: nat -> nat, ghost horizon: nat)
      returns (existed: map<Path, bool>, maxMtime: nat, k: nat, ghost at: map<Path, nat>)
      requires GoodWorld(world) && Schedule(sched, horizon)
      ensures maxMtime <= world.clock(sched(k))
      ensures WatchedStats(world, existed, maxMtime, at, sched(0), sched(k))
      ensures forall p :: p in Watched(layout) ==> p in at
    {
      var paths := Watched(layout);
      existed, maxMtime, k, at := map[], 0, 0, map[];
      while k < |paths|
        invariant k <= |paths| && maxMtime <= world.clock(sched(k))
        invariant WatchedStats(world, existed, maxMtime, at, sched(0), sched(k))
        invariant forall i :: 0 <= i < k ==> paths[i] in at
      {
        var p, t := paths[k], sched(k);
        var files := At(world, t);
        existed := existed[p := p in files];
        at := at[p := t];
        if p in files {
          StampsAreOld(world, t, p);
          if files[p].mtime > maxMtime {
            maxMtime := files[p].mtime;
          }
        }
        ClockGrows(world, t, sched(k + 1));
        k := k + 1;
        hide At;
      }
    }

    /** Lists the skill files at access `k` and stats them one by one from access k + 1 on; one that vanished in
        between is left out. */
    method StatSkills(sched: nat -> nat, k: nat, oldMax: nat, ghost horizon: nat)
      returns (skillFiles: map<Path, nat>, maxMtime: nat, next: nat, ghost at: map<Path, nat>)
      requires GoodWorld(world) && Schedule(sched, horizon) && oldMax <= world.clock(sched(k))
      ensures next > k && oldMax <= maxMtime <= world.clock(sched(next))
      ensures forall p :: p in at <==> p in SkillFiles(layout, At(world, sched(k)))
      ensures SkillStats(world, skillFiles, at, sched(k), sched(next))
    {
      skillFiles, maxMtime, at := map[], oldMax, map[];
      var listed := SkillFiles(layout, At(world, sched(k)));
      var todo := listed;
      next := k + 1;
      ClockGrows(world, sched(k), sched(next));
      while todo != {}
        invariant next > k && todo <= listed && oldMax <= maxMtime <= world.clock(sched(next))
        invariant forall p :: p in at <==> p in listed && p !in todo
        invariant SkillStats(world, skillFiles, at, sched(k), sched(next))
        decreases todo
      {
        hide At, SkillFiles, SkillStats;
        var p :| p in todo;
        todo := todo - {p};
        var t := sched(next);
        OneMoreSkill(world, skillFiles, at, sched(k), p, t, sched(next + 1));
        var files := At(world, t);
        at := at[p := t];
        if p in files {
          StampsAreOld(world, t, p);
          skillFiles := skillFiles[p := files[p].mtime];
          if files[p].mtime > maxMtime {
            maxMtime := files[p].mtime;
          }
        }
        ClockGrows(world, t, sched(next + 1));
        next := next + 1;
      }
    }

    /** The baseline: existence flags, skill snapshot and the latest stamp seen, never zero. */
    method BuildCacheBaseline(sched: nat -> nat, ghost horizon: nat)
      returns (b: Baseline, k: nat, ghost statAt: Path -> nat, ghost skillStatAt: Path -> nat)
      requires GoodWorld(world) && Schedule(sched, horizon)
      ensures forall last, readAt, seen ::
        IsBaseline(world, layout, b, Window(sched(0), sched(k), last, statAt, skillStatAt, readAt, seen))
    {
      var existed, skillFiles, maxMtime, watched;
      ghost var at, skillAt;
      existed, maxMtime, watched, at := StatWatched(sched, horizon);
      skillFiles, maxMtime, k, skillAt := StatSkills(sched, watched, maxMtime, horizon);
      if maxMtime == 0 {
        maxMtime := 1;
      }
      ClockGrows(world, 0, sched(k));
      b := Baseline(existed, skillFiles, maxMtime);
      statAt, skillStatAt := Instants(at, 0), Instants(skillAt, sched(watched));
      hide At, GoodWorld;
      forall p | p in Watched(layout)
        ensures sched(0) <= statAt(p) <= sched(k) && SawWatched(world, existed, maxMtime, p, statAt(p))
      {
      }
      forall p | layout.isSkill(p)
        ensures sched(0) <= skillStatAt(p) <= sched(k) && SawSkill(world, skillFiles, p, skillStatAt(p))
      {
        assert p in SkillFiles(layout, At(world, sched(watched))) <==> p in At(world, sched(watched));
      }
      forall p | p in skillFiles
        ensures layout.isSkill(p)
      {
        assert p in SkillFiles(layout, At(world, sched(watched)));
      }
    }

    /** Lists the skill files at access `k` and reads them and the sources one by one from access k + 1 on. */
    method BuildSystemPrompt(sched: nat -> nat, k: nat, ghost horizon: nat)
      returns (prompt: string, ghost readAt: Path -> nat, ghost contents: map<Path, string>)
      requires GoodWorld(world) && Schedule(sched, horizon)
      ensures forall first, statAt, skillStatAt ::
        IsBuild(world, layout, render, prompt,
                Window(first, sched(k), horizon, statAt, skillStatAt, readAt, contents))
    {
      var seen: map<Path, string>, i := map[], k + 1;
      ghost var at: map<Path, nat> := map[];
      var listed := (set p | p in layout.sources) + SkillFiles(layout, At(world, sched(k)));
      var todo := listed;
      while todo != {}
        invariant k < i && todo <= listed
        invariant forall p :: p in at <==> p in listed && p !in todo
        invariant Reads(world, seen, at, sched(k), horizon)
        decreases todo
      {
        hide At, SkillFiles;
        var p :| p in todo;
        todo := todo - {p};
        var files := At(world, sched(i));
        at := at[p := sched(i)];
        if p in files {
          seen := seen[p := files[p].content];
        }
        i := i + 1;
      }
      prompt := render(seen);
      readAt, contents := Instants(at, sched(k)), seen;
      hide At;
      forall p | Tracked(layout, p)
        ensures sched(k) <= readAt(p) <= horizon && SawContent(world, seen, p, readAt(p))
      {
        assert p in SkillFiles(layout, At(world, sched(k))) <==> p in At(world, sched(k)) && layout.isSkill(p);
      }
      forall p | p in seen
        ensures Tracked(layout, p)
      {
        assert p in listed;
      }
    }

    /** The cached prompt when the check is silent at the first or the second look, else a new one: its file
        accesses happen at sched(0), sched(1), ..., all by `horizon`. */
    method BuildSystemPromptWithCache(firstLook: nat, secondLook: nat, sched: nat -> nat, ghost horizon: nat)
      returns (prompt: string)
      requires Valid() && GoodWorld(world) && Schedule(sched, horizon)
      requires firstLook <= secondLook <= sched(0)
      requires cachedSystemPrompt != "" ==> window.last <= firstLook
      modifies this
      ensures Valid() && prompt == cachedSystemPrompt
      ensures old(cachedSystemPrompt != "" && !Changed(layout, At(world, firstLook), Cached())) ==>
        prompt == old(cachedSystemPrompt) && window == old(window)
        && (NoneAppeared(world, layout, window) ==> prompt == render(Contents(layout, At(world, firstLook))))
      ensures old(cachedSystemPrompt != "" && Changed(layout, At(world, firstLook), Cached())
                  && !Changed(layout, At(world, secondLook), Cached())) ==>
        prompt == old(cachedSystemPrompt) && window == old(window)
        && (NoneAppeared(world, layout, window) ==> prompt == render(Contents(layout, At(world, secondLook))))
      ensures old(cachedSystemPrompt == "" || (Changed(layout, At(world, firstLook), Cached())
                  && Changed(layout, At(world, secondLook), Cached()))) ==>
        window.first == sched(0) && window.last == horizon && existedAtCache.Some? && skillFilesAtCache.Some?
        && Recorded(world, layout, render, prompt, Cached(), window)
    {
      if cachedSystemPrompt != "" {
        var changed := SourceFilesChangedLocked(firstLook);
        if !changed {
          return cachedSystemPrompt;
        }
        changed := SourceFilesChangedLocked(secondLook);
        if !changed {
          return cachedSystemPrompt;
        }
      }
      var baseline, k;
      ghost var statAt, skillStatAt, readAt, seen;
      baseline, k, statAt, skillStatAt := BuildCacheBaseline(sched, horizon);
      prompt, readAt, seen := BuildSystemPrompt(sched, k, horizon);
      cachedSystemPrompt := prompt;
      cachedAt := baseline.maxMtime;
      existedAtCache := Some(baseline.existed);
      skillFilesAtCache := Some(baseline.skillFiles);
      window := Window(sched(0), sched(k), horizon, statAt, skillStatAt, readAt, seen);
    }
  }
}
