/**
 The components as they run: repositories, queue and runner update their tables in place, one
 method per segment between awaits. Each method is proved to do exactly what the step system
 says its segment does, so everything proved of runs holds of them.
 */
module Runtime {
  import opened Domain
  import opened TaskTable
  import opened Protocol
  import opened Safety
  import opened Leases

  // ---- threads, comments and iterations ----------------------------------------------------

  class ThreadRepo {
    var rows: seq<Thread>

    constructor ()
      ensures rows == []
    {
      rows := [];
    }

    method Create(base: Sha) returns (t: nat)
      modifies this
      ensures t == |old(rows)| && rows == old(rows) + [Thread(base, Open, [Open], [], [], None, None)]
    {
      t := |rows|;
      rows := rows + [Thread(base, Open, [Open], [], [], None, None)];
    }

    method Append(t: nat, c: Comment)
      requires t < |rows|
      modifies this
      ensures rows == old(rows)[t := old(rows[t]).(comments := old(rows[t]).comments + [c])]
    {
      rows := rows[t := rows[t].(comments := rows[t].comments + [c])];
    }

    method SetStatus(t: nat, s: ThreadStatus)
      requires t < |rows|
      modifies this
      ensures rows == old(rows)[t := old(rows[t]).(status := s, history := old(rows[t]).history + [s])]
    {
      rows := rows[t := rows[t].(status := s, history := rows[t].history + [s])];
    }

    // Compare-and-swap: one-shot transitions must not fire twice.
    method Transition(t: nat, from: ThreadStatus, to: ThreadStatus) returns (moved: bool)
      requires t < |rows|
      modifies this
      ensures moved == (old(rows[t]).status == from)
      ensures moved ==> rows == old(rows)[t := old(rows[t]).(status := to, history := old(rows[t]).history + [to])]
      ensures !moved ==> rows == old(rows)
    {
      moved := rows[t].status == from;
      if moved {
        SetStatus(t, to);
      }
    }

    method AddIteration(t: nat, it: Iteration)
      requires t < |rows|
      modifies this
      ensures rows == old(rows)[t := old(rows[t]).(iterations := old(rows[t]).iterations + [it], preview := Some(it.sha))]
    {
      rows := rows[t := rows[t].(iterations := rows[t].iterations + [it])];
      rows := rows[t := rows[t].(preview := Some(it.sha))];
    }

    method SetPrUrl(t: nat, url: nat)
      requires t < |rows|
      modifies this
      ensures rows == old(rows)[t := old(rows[t]).(prUrl := Some(url))]
    {
      rows := rows[t := rows[t].(prUrl := Some(url))];
    }

    method AddressedIds(t: nat) returns (out: set<nat>)
      requires t < |rows|
      ensures forall c :: c in out <==> Addressed(rows[t], c)
    {
      out := {};
      var its := rows[t].iterations;
      for k := 0 to |its|
        invariant forall c :: c in out <==> exists m :: 0 <= m < k && c in its[m].cids
      {
        out := out + set c | c in its[k].cids;
      }
    }

    method ThreadForPreviewSha(s: Sha) returns (r: Option<nat>)
      ensures r == OwnerOf(rows, s, |rows|)
    {
      var n := |rows|;
      while n > 0
        invariant 0 <= n <= |rows|
        invariant OwnerOf(rows, s, |rows|) == OwnerOf(rows, s, n)
      {
        n := n - 1;
        if Known(rows[n], s) {
          return Some(n);
        }
      }
      return None;
    }
  }

  // ---- preview patches -------------------------------------------------------------------------

  class PatchRepo {
    var patches: map<Sha, seq<Patch>>

    constructor ()
      ensures patches == map[]
    {
      patches := map[];
    }

    method Get(s: Sha) returns (r: Option<seq<Patch>>)
      ensures r == if s in patches && patches[s] != [] then Some(patches[s]) else None
    {
      r := if s in patches && patches[s] != [] then Some(patches[s]) else None;
    }

    // One row per position; (sha, position) is the primary key, so the sha must be new.
    method Put(s: Sha, ps: seq<Patch>)
      requires s !in patches && ps != []
      modifies this
      ensures patches == old(patches)[s := ps]
    {
      for k := 0 to |ps|
        invariant patches == if k == 0 then old(patches) else old(patches)[s := ps[..k]]
      {
        assert ps[..k + 1] == ps[..k] + [ps[k]];
        patches := patches[s := (if k == 0 then [] else patches[s]) + [ps[k]]];
      }
      assert ps[..|ps|] == ps;
    }
  }

  // ---- the queue --------------------------------------------------------------------------------

  class AgentTaskQueue {
    const tasks: TaskRepo
    const leaseMs: nat
    var running: map<nat, Run>

    constructor (tasks: TaskRepo, leaseMs: nat)
      ensures this.tasks == tasks && this.leaseMs == leaseMs && running == map[]
    {
      this.tasks, this.leaseMs, running := tasks, leaseMs, map[];
    }

    // Queued: tombstoned. Running: the handler is cancelled too, unless it has returned.
    method Cancel(i: nat)
      requires i < |tasks.rows|
      modifies this, tasks
      ensures tasks.rows == old(tasks.rows)[i := CancelRow(old(tasks.rows[i]))]
      ensures running == if i in old(running) && !old(running)[i].phase.Finished?
                         then old(running)[i := old(running)[i].(phase := Doomed)] else old(running)
    {
      tasks.Cancel(i);
      if i in running && !running[i].phase.Finished? {
        running := running[i := running[i].(phase := Doomed)];
      }
    }
  }

  // ---- the runner --------------------------------------------------------------------------------

  class AgentRunner {
    const cfg: Config
    const threads: ThreadRepo
    const patches: PatchRepo
    const queue: AgentTaskQueue
    var flows: seq<Flow>

    constructor (cfg: Config, threads: ThreadRepo, patches: PatchRepo, queue: AgentTaskQueue)
      requires queue.leaseMs == cfg.leaseMs
      ensures this.cfg == cfg && this.threads == threads && this.patches == patches && this.queue == queue
      ensures Wired() && flows == []
    {
      this.cfg, this.threads, this.patches, this.queue := cfg, threads, patches, queue;
      flows := [];
    }

    predicate Wired()
    {
      queue.leaseMs == cfg.leaseMs
    }

    // All tables and in-process state at time `now`.
    ghost function World(now: nat): World
      reads this, threads, patches, queue, queue.tasks
    {
      Protocol.World(cfg, now, threads.rows, queue.tasks.rows, patches.patches, queue.running, flows)
    }

    method System(t: nat)
      requires t < |threads.rows|
      modifies threads
      ensures threads.rows == Narrate(old(World(0)), t).threads
      ensures |threads.rows| == old(|threads.rows|)
    {
      threads.Append(t, NARRATION);
    }

    // ---- submissions and drains

    method Submit(t: nat, cids: seq<nat>, now: nat)
      requires t < |threads.rows| && cids != []
      modifies threads, queue.tasks
      ensures World(now) == Protocol.Submit(old(World(now)), t, cids)
    {
      var existing := queue.tasks.ActiveForThread(t);
      if existing.Some? && queue.tasks.rows[existing.value].cids != []
         && queue.tasks.rows[existing.value].Key() == cids[|cids| - 1] {
        return;
      }
      threads.SetStatus(t, Triggered);
      queue.tasks.Enqueue(t, cids, cfg.maxAttempts, now);
    }

    method PendingCommentIds(t: nat) returns (out: seq<nat>)
      requires t < |threads.rows|
      ensures out == PendingIds(threads.rows[t], queue.tasks.rows, t, |threads.rows[t].comments|)
    {
      var th := threads.rows[t];
      var addressed := threads.AddressedIds(t);
      var covered := queue.tasks.CoveredCommentIds(t);
      out := [];
      for k := 0 to |th.comments|
        invariant out == PendingIds(th, queue.tasks.rows, t, k)
      {
        if !th.comments[k].system && th.comments[k].mentions && k !in addressed && k !in covered {
          out := out + [k];
        }
      }
    }

    method DrainPending(t: nat, now: nat)
      requires t < |threads.rows|
      modifies threads, queue.tasks
      ensures World(now) == Protocol.DrainPending(old(World(now)), t)
    {
      var status := threads.rows[t].status;
      if Closed(status) || status.Failed? {
        return;
      }
      var pending := PendingCommentIds(t);
      if pending != [] {
        System(t);
        Submit(t, pending, now);
      }
    }

    // ---- comments

    method OnComment(t: nat, c: nat, now: nat)
      requires t < |threads.rows| && c < |threads.rows[t].comments|
      modifies threads, queue, queue.tasks
      ensures World(now) == Protocol.OnComment(old(World(now)), t, c)
    {
      var th := threads.rows[t];
      if !th.comments[c].mentions {
        return;
      }
      if Closed(th.status) {
        System(t);
        return;
      }
      var task := queue.tasks.ActiveForThread(t);
      if task.Some? && !InFlight(th.status) {
        task := None;
      }
      if task.None? {
        Submit(t, [c], now);
        return;
      }
      var i := task.value;
      if queue.tasks.rows[i].state.Queued? {
        var hit := queue.tasks.CoalesceComment(i, c);
        System(t);
      } else if Interruptible(th.status) {
        var combined := Dedup(queue.tasks.rows[i].cids + [c]);
        assert c in queue.tasks.rows[i].cids + [c];
        queue.Cancel(i);
        System(t);
        Submit(t, combined, now);
      } else {
        System(t);
      }
    }

    // A comment on an existing thread; a closed thread rejects it.
    method PostComment(t: nat, mentions: bool, cap: Option<Sha>, now: nat) returns (accepted: bool)
      requires t < |threads.rows|
      modifies threads, queue, queue.tasks
      ensures accepted == !Closed(old(threads.rows[t]).status)
      ensures World(now) == Protocol.Post(old(World(now)), t, mentions, cap)
    {
      accepted := !Closed(threads.rows[t].status);
      if accepted {
        var c := |threads.rows[t].comments|;
        threads.Append(t, Comment(false, mentions, cap));
        OnComment(t, c, now);
      }
    }

    // A comment that opens a thread; a stale preview rejects it.
    method OpenThread(mentions: bool, cap: Option<Sha>, now: nat)
      modifies threads, queue, queue.tasks
      ensures World(now) == Protocol.OpenThread(old(World(now)), mentions, cap)
    {
      var base := if cap.Some? then cap.value else cfg.mainSha;
      var owner := threads.ThreadForPreviewSha(base);
      if owner.Some? && Closed(threads.rows[owner.value].status) {
        return;
      }
      var t := threads.Create(base);
      var accepted := PostComment(t, mentions, cap, now);
    }

    // ---- cancel, approve, replay

    method CancelRun(t: nat, who: Permission, now: nat) returns (ok: bool)
      requires t < |threads.rows|
      modifies threads, queue, queue.tasks
      ensures ok == CanCancel(old(World(now)), t, who)
      ensures World(now) == Protocol.CancelRun(old(World(now)), t, who)
    {
      if !CanComment(who) {
        return false;
      }
      var task := queue.tasks.ActiveForThread(t);
      if task.None? || !InFlight(threads.rows[t].status) {
        return false;
      }
      queue.Cancel(task.value);
      var back := if threads.rows[t].iterations != [] then PreviewReady else Open;
      System(t);
      threads.SetStatus(t, back);
      return true;
    }

    method Approve(t: nat, who: Permission, reviewed: Option<Sha>, now: nat) returns (ok: bool)
      requires t < |threads.rows|
      modifies this, threads
      ensures ok == CanApproveNow(old(World(now)), t, who, reviewed)
      ensures World(now) == Protocol.Approve(old(World(now)), t, who, reviewed)
    {
      if !CanApprove(who) {
        return false;
      }
      if reviewed.None? || reviewed != threads.rows[t].preview {
        return false;
      }
      ok := threads.Transition(t, PreviewReady, PrOpen);
      if ok {
        flows := flows + [Flow(t, reviewed.value, Opening)];
      }
    }

    method RequeueFromDlq(i: nat, now: nat) returns (ok: bool)
      requires i < |queue.tasks.rows| && queue.tasks.rows[i].thread < |threads.rows|
      modifies threads, queue.tasks
      ensures ok == old(queue.tasks.rows[i]).state.Dlq?
      ensures World(now) == Replay(old(World(now)), i)
    {
      var t := queue.tasks.rows[i].thread;
      ok := queue.tasks.RequeueFromDlq(i);
      if ok {
        System(t);
        threads.SetStatus(t, Triggered);
      }
    }

    // ---- delivery

    method Claim(worker: nat, now: nat) returns (r: Option<nat>)
      requires Wired()
      modifies queue, queue.tasks
      ensures World(now) == Protocol.Claim(old(World(now)), worker)
    {
      r := queue.tasks.ClaimNext(worker, queue.leaseMs, now);
      if r.Some? {
        var row := queue.tasks.rows[r.value];
        queue.running := queue.running[r.value := Run(worker, row.cids, now, Spawned, 0)];
      }
    }

    method Heartbeat(i: nat, now: nat) returns (hit: bool)
      requires Wired() && i < |queue.tasks.rows| && i in queue.running
      modifies queue, queue.tasks
      ensures World(now) == Beat(old(World(now)), i)
    {
      var run := queue.running[i];
      hit := queue.tasks.Heartbeat(i, run.worker, queue.leaseMs, now);
      if hit {
        queue.running := queue.running[i := run.(beatAt := now)];
      }
    }

    // Retry, dead letter and orphan outcomes, surfaced on the thread.
    method OnTaskOutcome(t: nat, answer: TaskState)
      requires t < |threads.rows|
      modifies threads
      ensures threads.rows == SurfaceOn(old(threads.rows), t, answer)
      ensures |threads.rows| == old(|threads.rows|)
    {
      System(t);
      threads.SetStatus(t, if answer.Queued? then Triggered else ThreadStatus.Failed);
    }

    // A raised exception or a passed deadline, with its worker's unwinding.
    method FailRun(i: nat, now: nat)
      requires i < |queue.tasks.rows| && queue.tasks.rows[i].thread < |threads.rows|
      modifies threads, queue, queue.tasks
      ensures World(now) == FailTask(DropRun(old(World(now)), i), i)
    {
      var t := queue.tasks.rows[i].thread;
      var answer := queue.tasks.Fail(i);
      OnTaskOutcome(t, answer);
      queue.running := queue.running - {i};
    }

    method UnwindRun(i: nat, now: nat)
      requires i < |queue.tasks.rows| && i in queue.running && !Unfinished(queue.running[i].phase)
      modifies queue, queue.tasks
      ensures World(now) == Unwind(old(World(now)), i)
    {
      if queue.running[i].phase.Finished? {
        var hit := queue.tasks.Complete(i);
      } else {
        queue.tasks.Cancel(i);
      }
      queue.running := queue.running - {i};
    }

    method SurfaceEach(out: seq<(nat, TaskState)>)
      requires ThreadsKnown(queue.tasks.rows, |threads.rows|, out)
      modifies threads
      ensures threads.rows == Surfaced(old(threads.rows), queue.tasks.rows, out)
    {
      assert out[0..] == out;
      for k := 0 to |out|
        invariant |threads.rows| == old(|threads.rows|) && ThreadsKnown(queue.tasks.rows, |threads.rows|, out[k..])
        invariant Surfaced(threads.rows, queue.tasks.rows, out[k..]) == Surfaced(old(threads.rows), queue.tasks.rows, out)
      {
        assert out[k..][0] == out[k] && out[k..][1..] == out[k + 1..];
        ghost var before := threads.rows;
        assert Surfaced(before, queue.tasks.rows, out[k..]) ==
          Surfaced(SurfaceOn(before, queue.tasks.rows[out[k].0].thread, out[k].1), queue.tasks.rows, out[k + 1..]);
        OnTaskOutcome(queue.tasks.rows[out[k].0].thread, out[k].1);
      }
    }

    // The janitor: fail every expired row, then surface each.
    method Sweep(now: nat)
      requires ThreadsResolve(World(now), ExpiredIds(queue.tasks.rows, now, |queue.tasks.rows|))
      modifies threads, queue.tasks
      ensures World(now) == ReapAll(old(World(now)), ExpiredIds(old(queue.tasks.rows), now, |old(queue.tasks.rows)|))
    {
      ghost var w := World(now);
      var out := queue.tasks.ReapExpired(now);
      SweptWorld(w, queue.tasks.rows, out);
      SurfaceEach(out);
    }

    // ---- one task's handler

    method ResolveParentSha(t: nat, cids: seq<nat>) returns (s: Sha)
      requires t < |threads.rows|
      modifies threads
      ensures s == ResolveParent(old(threads.rows[t]), cids)
      ensures threads.rows ==
        if s == Tip(old(threads.rows[t])) then old(threads.rows) else Narrate(old(World(0)), t).threads
    {
      var th := threads.rows[t];
      var tip := Tip(th);
      var k := |th.comments|;
      while k > 0
        invariant 0 <= k <= |th.comments| && threads.rows == old(threads.rows)
        invariant LatestCapture(th, cids, |th.comments|) == LatestCapture(th, cids, k)
      {
        k := k - 1;
        var c := th.comments[k];
        if k in cids && !c.system && c.cap.Some? {
          if Known(th, c.cap.value) && c.cap.value != tip {
            System(t);
            return c.cap.value;
          }
          return tip;
        }
      }
      return tip;
    }

    // The handler up to its first await.
    method Start(i: nat, now: nat)
      requires i < |queue.tasks.rows| && i in queue.running && queue.running[i].cids != []
      requires queue.tasks.rows[i].thread < |threads.rows|
      modifies threads, queue, queue.tasks
      ensures World(now) == StartRun(old(World(now)), i)
    {
      var t := queue.tasks.rows[i].thread;
      var run := queue.running[i];
      if Addressed(threads.rows[t], run.cids[|run.cids| - 1]) {
        if InFlight(threads.rows[t].status) {
          threads.SetStatus(t, PreviewReady);
        }
        queue.running := queue.running[i := run.(phase := Finished)];
        DrainPending(t, now);
      } else {
        var parent := ResolveParentSha(t, run.cids);
        queue.running := queue.running[i := run.(phase := Phase.Analyzing, parent := parent)];
        threads.SetStatus(t, ThreadStatus.Analyzing);
      }
    }

    // The launcher or the deploy stage reports its next phase.
    method Progress(i: nat, phase: Phase, now: nat)
      requires i < |queue.tasks.rows| && i in queue.running && queue.tasks.rows[i].thread < |threads.rows|
      requires phase.Coding? || phase.Deploying?
      modifies threads, queue
      ensures World(now) == SetStatus(SetPhase(old(World(now)), i, phase), old(queue.tasks.rows[i].thread),
                                      if phase.Coding? then ThreadStatus.Coding else ThreadStatus.Deploying)
    {
      queue.running := queue.running[i := queue.running[i].(phase := phase)];
      threads.SetStatus(queue.tasks.rows[i].thread, if phase.Coding? then ThreadStatus.Coding else ThreadStatus.Deploying);
    }

    // Register the parent's patches and the new one under a fresh sha.
    method Deploy(i: nat, sha: Sha, patch: Patch, now: nat)
      requires i in queue.running && sha !in patches.patches
      modifies patches, queue
      ensures World(now) == Protocol.Deploy(old(World(now)), i, sha, patch)
    {
      var run := queue.running[i];
      var above := patches.Get(run.parent);
      patches.Put(sha, (if above.Some? then above.value else []) + [patch]);
      queue.running := queue.running[i := run.(phase := Deployed(sha, patch))];
    }

    method RecordIteration(i: nat, now: nat)
      requires i < |queue.tasks.rows| && i in queue.running && queue.running[i].phase.Deployed?
      requires queue.tasks.rows[i].thread < |threads.rows|
      modifies threads, queue, queue.tasks
      ensures World(now) == Record(old(World(now)), i)
    {
      var t := queue.tasks.rows[i].thread;
      var run := queue.running[i];
      threads.AddIteration(t, Iteration(run.phase.sha, run.parent, run.cids, run.phase.patch));
      System(t);
      threads.SetStatus(t, PreviewReady);
      queue.running := queue.running[i := run.(phase := Finished)];
      DrainPending(t, now);
    }

    // ---- the PR flow

    method PrOpened(f: nat, url: nat, now: nat)
      requires f < |flows| && flows[f].thread < |threads.rows|
      modifies this, threads
      ensures World(now) == FlowOpened(old(World(now)), f, url)
    {
      var t := flows[f].thread;
      threads.SetPrUrl(t, url);
      System(t);
      flows := flows[f := flows[f].(phase := AwaitCi)];
    }

    // open_pr raised: back to the preview, unless the thread moved on.
    method PrOpenFailed(f: nat, now: nat)
      requires f < |flows| && flows[f].thread < |threads.rows| && flows[f].phase.Opening?
      modifies this, threads
      ensures World(now) == FlowOpenFailed(old(World(now)), f)
    {
      var t := flows[f].thread;
      System(t);
      var moved := threads.Transition(t, PrOpen, PreviewReady);
      flows := flows[f := flows[f].(phase := Gone)];
    }

    // A resumed flow's open_pr raised: nothing catches it, so only the flow ends.
    method ReopenFailed(f: nat, now: nat)
      requires f < |flows| && flows[f].thread < |threads.rows| && flows[f].phase.Reopening?
      modifies this
      ensures World(now) == FlowOpenFailed(old(World(now)), f)
    {
      flows := flows[f := flows[f].(phase := Gone)];
    }

    method CiPassed(f: nat, now: nat)
      requires f < |flows| && flows[f].thread < |threads.rows|
      modifies this, threads
      ensures World(now) == SetFlow(Narrate(old(World(now)), old(flows[f].thread)), f, Merging)
    {
      System(flows[f].thread);
      flows := flows[f := flows[f].(phase := Merging)];
    }

    // CI or the merge raised: the PR stays open for a human.
    method MergeFailed(f: nat, now: nat)
      requires f < |flows| && flows[f].thread < |threads.rows|
      modifies this, threads
      ensures World(now) == SetFlow(Narrate(old(World(now)), old(flows[f].thread)), f, Stalled)
    {
      System(flows[f].thread);
      flows := flows[f := flows[f].(phase := Stalled)];
    }

    // merge_pr returned: MERGED, then DONE.
    method PrMerged(f: nat, now: nat)
      requires f < |flows| && flows[f].thread < |threads.rows|
      modifies this, threads
      ensures World(now) == FlowLands(old(World(now)), f)
    {
      var t := flows[f].thread;
      System(t);
      threads.SetStatus(t, Merged);
      System(t);
      threads.SetStatus(t, ThreadStatus.Done);
      flows := flows[f := flows[f].(phase := FlowPhase.Landed)];
    }

    // Boot recovery of a flow that died with its process.
    method ResumePrFlow(f: nat, now: nat)
      requires f < |flows| && flows[f].thread < |threads.rows|
      modifies this, threads
      ensures World(now) == FlowResumes(old(World(now)), f)
    {
      var t := flows[f].thread;
      if threads.rows[t].status.PrOpen? {
        if threads.rows[t].prUrl.Some? {
          System(t);
          flows := flows[f := flows[f].(phase := AwaitCi)];
        } else {
          flows := flows[f := flows[f].(phase := Reopening)];
        }
      } else if threads.rows[t].status.Merged? {
        System(t);
        threads.SetStatus(t, ThreadStatus.Done);
        flows := flows[f := flows[f].(phase := FlowPhase.Landed)];
      } else {
        flows := flows[f := flows[f].(phase := Gone)];
      }
    }

    // ---- boot sweep

    method RecoverOne(t: nat, now: nat)
      requires t < |threads.rows|
      modifies this, threads, queue.tasks
      ensures World(now) == RecoverThread(old(World(now)), t)
    {
      var th := threads.rows[t];
      if th.status.PrOpen? || th.status.Merged? {
        flows := flows + [Flow(t, Tip(th), Resuming)];
        return;
      }
      if Closed(th.status) || th.status.Failed? {
        return;
      }
      var active := queue.tasks.ActiveForThread(t);
      if active.None? {
        DrainPending(t, now);
      }
    }

    method Recover(now: nat)
      modifies this, threads, queue.tasks
      ensures World(now) == RecoverUpTo(old(World(now)), |old(threads.rows)|)
    {
      ghost var w := World(now);
      var n := |threads.rows|;
      for t := 0 to n
        invariant |threads.rows| == n && World(now) == RecoverUpTo(w, t)
      {
        RecoverOne(t, now);
      }
    }
  }

  // ---- the sweep, one row at a time ------------------------------------------------------------

  ghost predicate ThreadsKnown(rows: seq<Task>, n: nat, out: seq<(nat, TaskState)>)
  {
    forall k :: 0 <= k < |out| ==> out[k].0 < |rows| && rows[out[k].0].thread < n
  }

  function SurfaceOn(ths: seq<Thread>, t: nat, answer: TaskState): seq<Thread>
    requires t < |ths|
  {
    var s := if answer.Queued? then Triggered else ThreadStatus.Failed;
    ths[t := ths[t].(comments := ths[t].comments + [NARRATION], status := s, history := ths[t].history + [s])]
  }

  // The threads after each reported outcome has been surfaced, in order.
  ghost function Surfaced(ths: seq<Thread>, rows: seq<Task>, out: seq<(nat, TaskState)>): seq<Thread>
    requires ThreadsKnown(rows, |ths|, out)
    decreases |out|
  {
    if out == [] then ths else Surfaced(SurfaceOn(ths, rows[out[0].0].thread, out[0].1), rows, out[1..])
  }

  lemma FailTaskParts(w: World, i: nat)
    requires i < |w.tasks| && w.tasks[i].thread < |w.threads|
    ensures FailTask(w, i).threads == SurfaceOn(w.threads, w.tasks[i].thread, FailState(w.tasks[i]))
    ensures FailTask(w, i) == w.(threads := FailTask(w, i).threads, tasks := w.tasks[i := FailRow(w.tasks[i])])
  {
  }

  lemma {:induction false} ReapAllFrame(w: World, ids: seq<nat>)
    requires ThreadsResolve(w, ids)
    ensures ReapAll(w, ids) == w.(threads := ReapAll(w, ids).threads, tasks := ReapAll(w, ids).tasks)
    decreases |ids|
  {
    if ids != [] {
      assert ids[0] in ids && forall i :: i in ids[1..] ==> i in ids;
      FailTaskParts(w, ids[0]);
      ReapAllFrame(FailTask(w, ids[0]), ids[1..]);
    }
  }

  // Outcomes reported after the sweep are those each row's failure had.
  ghost predicate Reports(tasks: seq<Task>, rows: seq<Task>, ids: seq<nat>, out: seq<(nat, TaskState)>)
  {
    && |rows| == |tasks| && |out| == |ids|
    && (forall i :: 0 <= i < |rows| ==> rows[i].thread == tasks[i].thread)
    && (forall k :: 0 <= k < |ids| ==> ids[k] < |tasks| && out[k].0 == ids[k] && out[k].1 == FailState(tasks[ids[k]]))
  }

  lemma ReportsRest(tasks: seq<Task>, rows: seq<Task>, ids: seq<nat>, out: seq<(nat, TaskState)>)
    requires Reports(tasks, rows, ids, out) && ids != []
    ensures Reports(tasks[ids[0] := FailRow(tasks[ids[0]])], rows, ids[1..], out[1..])
  {
    assert forall k :: 0 <= k < |ids[1..]| ==> ids[1..][k] == ids[k + 1] && out[1..][k] == out[k + 1];
  }

  lemma {:induction false} SurfacedIsReapAll(w: World, ids: seq<nat>, rows: seq<Task>, out: seq<(nat, TaskState)>)
    requires ThreadsResolve(w, ids) && Reports(w.tasks, rows, ids, out)
    ensures ThreadsKnown(rows, |w.threads|, out)
    ensures ReapAll(w, ids).threads == Surfaced(w.threads, rows, out)
    decreases |ids|
  {
    forall k | 0 <= k < |out|
      ensures out[k].0 < |rows| && rows[out[k].0].thread < |w.threads|
    {
      assert ids[k] in ids;
    }
    if ids != [] {
      assert ids[0] in ids && forall i :: i in ids[1..] ==> i in ids;
      FailTaskParts(w, ids[0]);
      ReportsRest(w.tasks, rows, ids, out);
      SurfacedIsReapAll(FailTask(w, ids[0]), ids[1..], rows, out[1..]);
    }
  }

  // The rows a sweep leaves and the outcomes it reports determine the world after it.
  lemma SweptWorld(w: World, rows: seq<Task>, out: seq<(nat, TaskState)>)
    requires ThreadsResolve(w, ExpiredIds(w.tasks, w.clock, |w.tasks|)) && SweptAt(w.tasks, rows, w.clock)
    requires |out| == |ExpiredIds(w.tasks, w.clock, |w.tasks|)|
    requires forall k :: 0 <= k < |out| ==>
      out[k].0 == ExpiredIds(w.tasks, w.clock, |w.tasks|)[k] && out[k].0 < |rows| && out[k].1 == rows[out[k].0].state
    ensures ThreadsKnown(rows, |w.threads|, out)
    ensures ReapAll(w, ExpiredIds(w.tasks, w.clock, |w.tasks|)) ==
      w.(tasks := rows, threads := Surfaced(w.threads, rows, out))
  {
    var ids := ExpiredIds(w.tasks, w.clock, |w.tasks|);
    ReapAllRows(w, ids);
    ReapAllFrame(w, ids);
    assert rows == ReapAll(w, ids).tasks;
    SurfacedIsReapAll(w, ids, rows, out);
  }
}
