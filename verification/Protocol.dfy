/**
 The thread and task protocol as a step system. One step is one segment of code between two
 awaits on the single event loop, so a step is atomic and every interleaving of segments is a
 sequence of steps. Everything the launcher, the PR service, the users and the clock may do is
 a choice of step.
 */
module Protocol {
  import opened Domain
  import opened TaskTable

  // Where a delivered task's handler stands. Finished: the handler returned but its worker has
  // not resumed yet, so the row still says RUNNING. Doomed: asyncio-cancelled, never runs again.
  datatype Phase =
    | Spawned | Analyzing | Coding | Deploying | Deployed(sha: Sha, patch: Patch)
    | Finished | Doomed

  // One entry of the queue's table of in-process handlers; `cids` is the snapshot it was given.
  datatype Run = Run(worker: nat, cids: seq<nat>, beatAt: nat, phase: Phase, parent: Sha)

  // Stalled: CI or the merge failed, the PR stays open for a human. Gone: it never got to a PR,
  // or died with its process.
  datatype FlowPhase = Opening | AwaitCi | Merging | Landed | Stalled | Gone | Resuming | Reopening

  // An in-process approval flow; `sha` is the preview it was started for.
  datatype Flow = Flow(thread: nat, sha: Sha, phase: FlowPhase)
  {
    predicate Live() { !phase.Landed? && !phase.Stalled? && !phase.Gone? }
  }

  // `lateMs` bounds how late a heartbeat may fire.
  datatype Config = Config(maxInflight: nat, leaseMs: nat, lateMs: nat, maxAttempts: nat, mainSha: Sha)

  datatype World = World(
    cfg: Config, clock: nat, threads: seq<Thread>, tasks: seq<Task>,
    patches: map<Sha, seq<Patch>>, live: map<nat, Run>, flows: seq<Flow>)

  function Initial(cfg: Config): World
  {
    World(cfg, 0, [], [], map[], map[], [])
  }

  // ---- primitive updates ----------------------------------------------------------

  function WithThread(w: World, t: nat, th: Thread): World
    requires t < |w.threads|
  {
    w.(threads := w.threads[t := th])
  }

  function SetStatus(w: World, t: nat, s: ThreadStatus): World
    requires t < |w.threads|
  {
    WithThread(w, t, w.threads[t].(status := s, history := w.threads[t].history + [s]))
  }

  function AddComment(w: World, t: nat, c: Comment): World
    requires t < |w.threads|
  {
    WithThread(w, t, w.threads[t].(comments := w.threads[t].comments + [c]))
  }

  function Narrate(w: World, t: nat): World
    requires t < |w.threads|
  {
    AddComment(w, t, NARRATION)
  }

  function SetRow(w: World, i: nat, r: Task): World
    requires i < |w.tasks|
  {
    w.(tasks := w.tasks[i := r])
  }

  function SetPhase(w: World, i: nat, p: Phase): World
    requires i in w.live
  {
    w.(live := w.live[i := w.live[i].(phase := p)])
  }

  function DropRun(w: World, i: nat): World
  {
    w.(live := w.live - {i})
  }

  function AddTask(w: World, t: nat, cids: seq<nat>): World
  {
    w.(tasks := w.tasks + [NewTask(t, cids, w.cfg.maxAttempts, w.clock)])
  }

  function AddIteration(w: World, t: nat, it: Iteration): World
    requires t < |w.threads|
  {
    WithThread(w, t, w.threads[t].(iterations := w.threads[t].iterations + [it], preview := Some(it.sha)))
  }

  // ---- submitting, pending asks, drains ---------------------------------------------

  function Submit(w: World, t: nat, cids: seq<nat>): World
    requires t < |w.threads| && cids != []
  {
    var existing := ActiveTask(w.tasks, t);
    if existing.Some? && w.tasks[existing.value].cids != [] && w.tasks[existing.value].Key() == cids[|cids| - 1]
    then w  // duplicate trigger for the same newest comment
    else AddTask(SetStatus(w, t, Triggered), t, cids)
  }

  predicate Pending(th: Thread, rows: seq<Task>, t: nat, c: nat)
  {
    IsAsk(th, c) && !Addressed(th, c) && !Covered(rows, t, c)
  }

  function PendingIds(th: Thread, rows: seq<Task>, t: nat, n: nat): (r: seq<nat>)
    ensures forall c: nat :: c in r <==> c < n && Pending(th, rows, t, c)
    ensures NoDup(r) && Ascending(r)
  {
    if n == 0 then []
    else
      var older := PendingIds(th, rows, t, n - 1);
      assert forall i :: 0 <= i < |older| ==> older[i] in older;
      older + (if Pending(th, rows, t, n - 1) then [n - 1] else [])
  }

  function DrainPending(w: World, t: nat): World
    requires t < |w.threads|
  {
    var th := w.threads[t];
    if Closed(th.status) || th.status.Failed? then w
    else
      var pending := PendingIds(th, w.tasks, t, |th.comments|);
      if pending == [] then w else Submit(Narrate(w, t), t, pending)
  }

  // ---- comments ------------------------------------------------------------------------

  // Tombstone the row; asyncio-cancel the handler, which does nothing to one that returned.
  function CancelTask(w: World, i: nat): World
    requires i < |w.tasks|
  {
    var w1 := SetRow(w, i, CancelRow(w.tasks[i]));
    if i in w.live && !w.live[i].phase.Finished? then SetPhase(w1, i, Doomed) else w1
  }

  function OnComment(w: World, t: nat, c: nat): World
    requires t < |w.threads| && c < |w.threads[t].comments|
  {
    var th := w.threads[t];
    if !th.comments[c].mentions then w
    else if Closed(th.status) then Narrate(w, t)
    else
      match (if InFlight(th.status) then ActiveTask(w.tasks, t) else None)
      case None => Submit(w, t, [c])
      case Some(i) =>
        if w.tasks[i].state.Queued? then
          Narrate(SetRow(w, i, CoalesceRow(w.tasks[i], c)), t)
        else if Interruptible(th.status) then
          Submit(Narrate(CancelTask(w, i), t), t, Dedup(w.tasks[i].cids + [c]))
        else
          Narrate(w, t)
  }

  function Post(w: World, t: nat, mentions: bool, cap: Option<Sha>): World
    requires t < |w.threads|
  {
    if Closed(w.threads[t].status) then w
    else OnComment(AddComment(w, t, Comment(false, mentions, cap)), t, |w.threads[t].comments|)
  }

  predicate Known(th: Thread, s: Sha)
  {
    exists k :: 0 <= k < |th.iterations| && th.iterations[k].sha == s
  }

  // The thread whose iteration deployed the sha, if any, among the first n.
  function OwnerOf(threads: seq<Thread>, s: Sha, n: nat): (r: Option<nat>)
    requires n <= |threads|
    ensures r.Some? ==> r.value < n && Known(threads[r.value], s)
    ensures r.None? ==> forall t :: 0 <= t < n ==> !Known(threads[t], s)
  {
    if n == 0 then None
    else if Known(threads[n - 1], s) then Some(n - 1)
    else OwnerOf(threads, s, n - 1)
  }

  function OpenThread(w: World, mentions: bool, cap: Option<Sha>): World
  {
    var base := if cap.Some? then cap.value else w.cfg.mainSha;
    var owner := OwnerOf(w.threads, base, |w.threads|);
    if owner.Some? && Closed(w.threads[owner.value].status) then w  // stale preview
    else
      var created := Thread(base, Open, [Open], [], [], None, None);
      Post(w.(threads := w.threads + [created]), |w.threads|, mentions, cap)
  }

  // ---- explicit cancel, approval, replay -------------------------------------------------

  predicate CanCancel(w: World, t: nat, who: Permission)
    requires t < |w.threads|
  {
    CanComment(who) && InFlight(w.threads[t].status) && ActiveTask(w.tasks, t).Some?
  }

  function CancelRun(w: World, t: nat, who: Permission): World
    requires t < |w.threads|
  {
    if !CanCancel(w, t, who) then w
    else
      var back := if w.threads[t].iterations != [] then PreviewReady else Open;
      SetStatus(Narrate(CancelTask(w, ActiveTask(w.tasks, t).value), t), t, back)
  }

  predicate CanApproveNow(w: World, t: nat, who: Permission, reviewed: Option<Sha>)
    requires t < |w.threads|
  {
    CanApprove(who) && reviewed.Some? && reviewed == w.threads[t].preview && w.threads[t].status.PreviewReady?
  }

  function Approve(w: World, t: nat, who: Permission, reviewed: Option<Sha>): World
    requires t < |w.threads|
  {
    if !CanApproveNow(w, t, who, reviewed) then w
    else
      var w1 := SetStatus(w, t, PrOpen);
      w1.(flows := w1.flows + [Flow(t, reviewed.value, Opening)])
  }

  function Replay(w: World, i: nat): World
    requires i < |w.tasks| && w.tasks[i].thread < |w.threads|
  {
    if !w.tasks[i].state.Dlq? then w
    else
      var t := w.tasks[i].thread;
      SetStatus(Narrate(SetRow(w, i, ReplayRow(w.tasks[i])), t), t, Triggered)
  }

  // ---- delivery ------------------------------------------------------------------------------

  function Claim(w: World, worker: nat): World
  {
    match OldestQueued(w.tasks, |w.tasks|)
    case None => w
    case Some(i) =>
      var w1 := SetRow(w, i, ClaimRow(w.tasks[i], worker, w.cfg.leaseMs, w.clock));
      w1.(live := w1.live[i := Run(worker, w.tasks[i].cids, w.clock, Spawned, 0)])
  }

  function Beat(w: World, i: nat): World
    requires i < |w.tasks| && i in w.live
  {
    var run := w.live[i];
    if w.tasks[i].state.Running? && w.tasks[i].claimedBy == Some(run.worker) then
      var w1 := SetRow(w, i, BeatRow(w.tasks[i], run.worker, w.cfg.leaseMs, w.clock));
      w1.(live := w1.live[i := run.(beatAt := w.clock)])
    else w
  }

  // How a failed, expired or dead-lettered attempt is surfaced on its thread.
  function Surface(w: World, t: nat, answer: TaskState): World
    requires t < |w.threads|
  {
    SetStatus(Narrate(w, t), t, if answer.Queued? then Triggered else Failed)
  }

  function FailTask(w: World, i: nat): World
    requires i < |w.tasks| && w.tasks[i].thread < |w.threads|
  {
    Surface(SetRow(w, i, FailRow(w.tasks[i])), w.tasks[i].thread, FailState(w.tasks[i]))
  }

  ghost predicate ThreadsResolve(w: World, ids: seq<nat>)
  {
    forall i :: i in ids ==> i < |w.tasks| && w.tasks[i].thread < |w.threads|
  }

  function ReapAll(w: World, ids: seq<nat>): World
    requires ThreadsResolve(w, ids)
    decreases |ids|
  {
    if ids == [] then w
    else
      assert ids[0] in ids && forall i :: i in ids[1..] ==> i in ids;
      ReapAll(FailTask(w, ids[0]), ids[1..])
  }

  // ---- one task's handler ----------------------------------------------------------------------

  function Tip(th: Thread): Sha
  {
    if th.preview.Some? then th.preview.value else th.base
  }

  // The newest captured sha among the first n comments that are user comments of the task.
  function LatestCapture(th: Thread, cids: seq<nat>, n: nat): Option<Sha>
    requires n <= |th.comments|
  {
    if n == 0 then None
    else if n - 1 in cids && !th.comments[n - 1].system && th.comments[n - 1].cap.Some?
    then th.comments[n - 1].cap
    else LatestCapture(th, cids, n - 1)
  }

  function ResolveParent(th: Thread, cids: seq<nat>): Sha
  {
    var cap := LatestCapture(th, cids, |th.comments|);
    if cap.Some? && Known(th, cap.value) then cap.value else Tip(th)
  }

  function StartRun(w: World, i: nat): World
    requires i < |w.tasks| && i in w.live && w.tasks[i].thread < |w.threads| && w.live[i].cids != []
  {
    var t := w.tasks[i].thread;
    var th := w.threads[t];
    var run := w.live[i];
    if Addressed(th, run.cids[|run.cids| - 1]) then
      // Redelivery of applied work: repair the status, do not redo it.
      var w1 := if InFlight(th.status) then SetStatus(w, t, PreviewReady) else w;
      DrainPending(SetPhase(w1, i, Finished), t)
    else
      var parent := ResolveParent(th, run.cids);
      var w1 := if parent != Tip(th) then Narrate(w, t) else w;
      var w2 := w1.(live := w1.live[i := run.(phase := Phase.Analyzing, parent := parent)]);
      SetStatus(w2, t, ThreadStatus.Analyzing)
  }

  function Lineage(patches: map<Sha, seq<Patch>>, s: Sha): seq<Patch>
  {
    if s in patches then patches[s] else []
  }

  function Deploy(w: World, i: nat, sha: Sha, patch: Patch): World
    requires i in w.live
  {
    var w1 := w.(patches := w.patches[sha := Lineage(w.patches, w.live[i].parent) + [patch]]);
    SetPhase(w1, i, Deployed(sha, patch))
  }

  function Record(w: World, i: nat): World
    requires i < |w.tasks| && i in w.live && w.tasks[i].thread < |w.threads| && w.live[i].phase.Deployed?
  {
    var t := w.tasks[i].thread;
    var run := w.live[i];
    var w1 := AddIteration(w, t, Iteration(run.phase.sha, run.parent, run.cids, run.phase.patch));
    var w2 := SetStatus(Narrate(w1, t), t, PreviewReady);
    DrainPending(SetPhase(w2, i, Finished), t)
  }

  function Unwind(w: World, i: nat): World
    requires i < |w.tasks| && i in w.live
  {
    var row := w.tasks[i];
    DropRun(SetRow(w, i, if w.live[i].phase.Finished? then CompleteRow(row) else CancelRow(row)), i)
  }

  // ---- the PR flow --------------------------------------------------------------------------------

  function SetFlow(w: World, f: nat, p: FlowPhase): World
    requires f < |w.flows|
  {
    w.(flows := w.flows[f := w.flows[f].(phase := p)])
  }

  function FlowOpened(w: World, f: nat, url: nat): World
    requires f < |w.flows| && w.flows[f].thread < |w.threads|
  {
    var t := w.flows[f].thread;
    SetFlow(Narrate(WithThread(w, t, w.threads[t].(prUrl := Some(url))), t), f, AwaitCi)
  }

  function FlowOpenFailed(w: World, f: nat): World
    requires f < |w.flows| && w.flows[f].thread < |w.threads|
  {
    var t := w.flows[f].thread;
    var w1 := SetFlow(w, f, Gone);
    if w.flows[f].phase.Reopening? then w1
    else
      var w2 := Narrate(w1, t);
      if w2.threads[t].status.PrOpen? then SetStatus(w2, t, PreviewReady) else w2
  }

  function FlowLands(w: World, f: nat): World
    requires f < |w.flows| && w.flows[f].thread < |w.threads|
  {
    var t := w.flows[f].thread;
    SetStatus(Narrate(SetStatus(Narrate(SetFlow(w, f, Landed), t), t, Merged), t), t, ThreadStatus.Done)
  }

  function FlowResumes(w: World, f: nat): World
    requires f < |w.flows| && w.flows[f].thread < |w.threads|
  {
    var t := w.flows[f].thread;
    match w.threads[t].status
    case PrOpen =>
      if w.threads[t].prUrl.Some? then SetFlow(Narrate(w, t), f, AwaitCi) else SetFlow(w, f, Reopening)
    case Merged => SetFlow(SetStatus(Narrate(w, t), t, ThreadStatus.Done), f, Landed)
    case _ => SetFlow(w, f, Gone)
  }

  // ---- crash and boot sweep -------------------------------------------------------------------------

  function Kill(f: Flow): Flow
  {
    if f.Live() then f.(phase := Gone) else f
  }

  function RecoverThread(w: World, t: nat): World
    requires t < |w.threads|
  {
    var th := w.threads[t];
    if th.status.PrOpen? || th.status.Merged? then w.(flows := w.flows + [Flow(t, Tip(th), Resuming)])
    else if Closed(th.status) || th.status.Failed? then w
    else if ActiveTask(w.tasks, t).Some? then w
    else DrainPending(w, t)
  }

  function RecoverUpTo(w: World, n: nat): (r: World)
    requires n <= |w.threads|
    ensures |r.threads| == |w.threads|
  {
    if n == 0 then w else RecoverThread(RecoverUpTo(w, n - 1), n - 1)
  }

  // The process dies at an await point and boots again: rows survive, handlers and flows do not.
  function Restart(w: World): World
  {
    var dead := w.(live := map[], flows := seq(|w.flows|, f requires 0 <= f < |w.flows| => Kill(w.flows[f])));
    RecoverUpTo(dead, |dead.threads|)
  }

  // ---- steps ------------------------------------------------------------------------------------------

  datatype Step =
    | DoOpen(mentions: bool, cap: Option<Sha>)
    | DoPost(thread: nat, mentions: bool, cap: Option<Sha>)
    | DoCancelRun(thread: nat, who: Permission)
    | DoApprove(thread: nat, who: Permission, reviewed: Option<Sha>)
    | DoReplay(task: nat)
    | DoClaim(worker: nat)
    | DoBeat(task: nat)
    | DoTick(now: nat)
    | DoStart(task: nat)
    | DoCode(task: nat)
    | DoPush(task: nat)
    | DoDeploy(task: nat, sha: Sha, patch: Patch)
    | DoRecord(task: nat)
    | DoUnwind(task: nat)
    | DoFail(task: nat)
    | DoVanish(task: nat)
    | DoReap
    | DoFlowOpened(flow: nat, url: nat)
    | DoFlowOpenFailed(flow: nat)
    | DoFlowCi(flow: nat)
    | DoFlowBroke(flow: nat)
    | DoFlowLands(flow: nat)
    | DoFlowResumes(flow: nat)
    | DoRestart

  // Heartbeats fire every max(lease / 3, 0.5 s); in thirds of a millisecond.
  function BeatThirds(leaseMs: nat): nat
  {
    if leaseMs >= 1500 then leaseMs else 1500
  }

  // Every live handler whose row is still running has beaten recently enough at time `now`.
  predicate Timely(w: World, now: nat)
  {
    forall i :: i in w.live && i < |w.tasks| && w.tasks[i].state.Running? ==>
      3 * now <= 3 * w.live[i].beatAt + BeatThirds(w.cfg.leaseMs) + 3 * w.cfg.lateMs
  }

  // A beat that is late by the allowed amount still lands inside the lease, to the millisecond.
  predicate ConfigOk(cfg: Config)
  {
    cfg.maxAttempts >= 1 && BeatThirds(cfg.leaseMs) + 3 * cfg.lateMs < 3 * (cfg.leaseMs + 1)
  }

  predicate WorkerFree(w: World, worker: nat)
  {
    worker < w.cfg.maxInflight && forall i :: i in w.live ==> w.live[i].worker != worker
  }

  // A sha generator never repeats itself: not a preview, not the base of any thread.
  predicate FreshSha(w: World, s: Sha)
  {
    s !in w.patches && s != w.cfg.mainSha && forall t :: 0 <= t < |w.threads| ==> w.threads[t].base != s && !Known(w.threads[t], s)
  }

  predicate HandlerAt(w: World, i: nat)
  {
    i in w.live && i < |w.tasks| && w.tasks[i].thread < |w.threads| && w.live[i].cids != []
  }

  predicate FlowAt(w: World, f: nat)
  {
    f < |w.flows| && w.flows[f].thread < |w.threads|
  }

  predicate Unfinished(p: Phase) { !p.Finished? && !p.Doomed? }

  predicate Started(p: Phase) { p.Analyzing? || p.Coding? || p.Deploying? || p.Deployed? }

  ghost predicate Enabled(w: World, s: Step)
  {
    match s
    case DoOpen(_, _) => true
    case DoPost(t, _, _) => t < |w.threads|
    case DoCancelRun(t, _) => t < |w.threads|
    case DoApprove(t, _, _) => t < |w.threads|
    case DoReplay(i) => i < |w.tasks| && w.tasks[i].thread < |w.threads|
    case DoClaim(k) => WorkerFree(w, k)
    case DoBeat(i) => HandlerAt(w, i)
    case DoTick(now) => w.clock <= now && Timely(w, now)
    case DoStart(i) => HandlerAt(w, i) && w.live[i].phase.Spawned?
    case DoCode(i) => HandlerAt(w, i) && w.live[i].phase.Analyzing?
    case DoPush(i) => HandlerAt(w, i) && w.live[i].phase.Coding?
    case DoDeploy(i, s, _) => HandlerAt(w, i) && w.live[i].phase.Deploying? && FreshSha(w, s)
    case DoRecord(i) => HandlerAt(w, i) && w.live[i].phase.Deployed?
    case DoUnwind(i) => HandlerAt(w, i) && !Unfinished(w.live[i].phase)
    case DoFail(i) => HandlerAt(w, i) && Unfinished(w.live[i].phase)
    case DoVanish(i) => HandlerAt(w, i) && Started(w.live[i].phase)
    case DoReap => ThreadsResolve(w, ExpiredIds(w.tasks, w.clock, |w.tasks|))
    case DoFlowOpened(f, _) => FlowAt(w, f) && (w.flows[f].phase.Opening? || w.flows[f].phase.Reopening?)
    case DoFlowOpenFailed(f) => FlowAt(w, f) && (w.flows[f].phase.Opening? || w.flows[f].phase.Reopening?)
    case DoFlowCi(f) => FlowAt(w, f) && w.flows[f].phase.AwaitCi?
    case DoFlowBroke(f) => FlowAt(w, f) && (w.flows[f].phase.AwaitCi? || w.flows[f].phase.Merging?)
    case DoFlowLands(f) => FlowAt(w, f) && w.flows[f].phase.Merging?
    case DoFlowResumes(f) => FlowAt(w, f) && w.flows[f].phase.Resuming?
    case DoRestart => true
  }

  ghost function Next(w: World, s: Step): World
    requires Enabled(w, s)
  {
    match s
    case DoOpen(mentions, cap) => OpenThread(w, mentions, cap)
    case DoPost(t, mentions, cap) => Post(w, t, mentions, cap)
    case DoCancelRun(t, who) => CancelRun(w, t, who)
    case DoApprove(t, who, reviewed) => Approve(w, t, who, reviewed)
    case DoReplay(i) => Replay(w, i)
    case DoClaim(k) => Claim(w, k)
    case DoBeat(i) => Beat(w, i)
    case DoTick(now) => w.(clock := now)
    case DoStart(i) => StartRun(w, i)
    case DoCode(i) => SetStatus(SetPhase(w, i, Phase.Coding), w.tasks[i].thread, ThreadStatus.Coding)
    case DoPush(i) => SetStatus(SetPhase(w, i, Phase.Deploying), w.tasks[i].thread, ThreadStatus.Deploying)
    case DoDeploy(i, s, patch) => Deploy(w, i, s, patch)
    case DoRecord(i) => Record(w, i)
    case DoUnwind(i) => Unwind(w, i)
    case DoFail(i) => FailTask(DropRun(w, i), i)
    case DoVanish(i) => DropRun(w, i)
    case DoReap => ReapAll(w, ExpiredIds(w.tasks, w.clock, |w.tasks|))
    case DoFlowOpened(f, url) => FlowOpened(w, f, url)
    case DoFlowOpenFailed(f) => FlowOpenFailed(w, f)
    case DoFlowCi(f) => SetFlow(Narrate(w, w.flows[f].thread), f, Merging)
    case DoFlowBroke(f) => SetFlow(Narrate(w, w.flows[f].thread), f, Stalled)
    case DoFlowLands(f) => FlowLands(w, f)
    case DoFlowResumes(f) => FlowResumes(w, f)
    case DoRestart => Restart(w)
  }

  // ---- runs ---------------------------------------------------------------------------------------------

  ghost predicate IsRun(w: World, steps: seq<Step>)
    decreases |steps|
  {
    steps == [] || (Enabled(w, steps[0]) && IsRun(Next(w, steps[0]), steps[1..]))
  }

  ghost function Exec(w: World, steps: seq<Step>): World
    requires IsRun(w, steps)
    decreases |steps|
  {
    if steps == [] then w else Exec(Next(w, steps[0]), steps[1..])
  }
}
