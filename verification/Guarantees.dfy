/**
 What users are promised, for crash-free runs with guarded replays: one writer per thread, the
 shipped sha is the approved one, one PR flow, and comments never stop committed work.
 */
module Guarantees {
  import opened Domain
  import opened TaskTable
  import opened Protocol
  import opened Safety
  import opened Journal
  import opened Evolution
  import opened Conservation
  import opened Lifecycle

  lemma InitialIsCalm(cfg: Config, steps: seq<Step>)
    requires ConfigOk(cfg) && CalmRun(Initial(cfg), steps)
    ensures IsRun(Initial(cfg), steps) && Safe(Exec(Initial(cfg), steps)) && Calm(Exec(Initial(cfg), steps))
  {
    RunCalm(Initial(cfg), steps);
  }

  // ---- one writer -----------------------------------------------------------------------

  // At most one task of a thread is queued or running and unrecorded; it exists exactly while
  // the thread is in flight, and it is the task the queue calls active.
  lemma OneWriterPerThread(cfg: Config, steps: seq<Step>, t: nat, i: nat, j: nat)
    requires ConfigOk(cfg) && CalmRun(Initial(cfg), steps) && IsRun(Initial(cfg), steps)
    requires t < |Exec(Initial(cfg), steps).threads|
    ensures
      var w := Exec(Initial(cfg), steps);
      && (Outstanding(w, t, i) && Outstanding(w, t, j) ==> i == j)
      && (InFlight(w.threads[t].status) <==> exists k: nat :: Outstanding(w, t, k))
      && (Outstanding(w, t, i) ==> ActiveTask(w.tasks, t) == Some(i))
  {
    InitialIsCalm(cfg, steps);
    var w := Exec(Initial(cfg), steps);
    assert CalmAt(w, t);
    if InFlight(w.threads[t].status) {
      var k := TheOutstanding(w, t);
    }
  }

  // No iteration lands on a closed thread.
  lemma NoIterationOnClosedThread(w: World, i: nat)
    requires Safe(w) && Calm(w) && Enabled(w, DoRecord(i))
    ensures w.threads[w.tasks[i].thread].status.Deploying?
  {
    LiveIsOutstanding(w, i);
  }

  // ---- approval -----------------------------------------------------------------------------

  // Flows keep their thread and sha.
  ghost predicate SameFlows(a: seq<Flow>, b: seq<Flow>)
  {
    |a| <= |b| && forall f :: 0 <= f < |a| ==> b[f].thread == a[f].thread && b[f].sha == a[f].sha
  }

  predicate IsApprovalOf(s: Step, f: Flow)
  {
    s.DoApprove? && s.thread == f.thread && s.reviewed == Some(f.sha) && s.who.Approver?
  }

  lemma DrainKeepsFlows(w: World, t: nat)
    requires t < |w.threads|
    ensures DrainPending(w, t).flows == w.flows
  {
  }

  lemma StartKeepsFlows(w: World, i: nat)
    requires HandlerAt(w, i)
    ensures StartRun(w, i).flows == w.flows
  {
    hide DrainPending;
    var t := w.tasks[i].thread;
    DrainKeepsFlows(SetPhase(if InFlight(w.threads[t].status) then SetStatus(w, t, PreviewReady) else w, i, Finished), t);
  }

  lemma RecordKeepsFlows(w: World, i: nat)
    requires HandlerAt(w, i) && w.live[i].phase.Deployed?
    ensures Record(w, i).flows == w.flows
  {
    hide DrainPending;
    DrainKeepsFlows(Recorded(w, i), w.tasks[i].thread);
  }

  lemma PostKeepsFlows(w: World, t: nat, mentions: bool, cap: Option<Sha>)
    requires t < |w.threads|
    ensures Post(w, t, mentions, cap).flows == w.flows
  {
  }

  lemma OpenKeepsFlows(w: World, mentions: bool, cap: Option<Sha>)
    ensures OpenThread(w, mentions, cap).flows == w.flows
  {
    hide Post;
    var base := if cap.Some? then cap.value else w.cfg.mainSha;
    PostKeepsFlows(w.(threads := w.threads + [Thread(base, Open, [Open], [], [], None, None)]), |w.threads|, mentions, cap);
  }

  lemma {:induction false} ReapKeepsFlows(w: World, ids: seq<nat>)
    requires ThreadsResolve(w, ids)
    ensures ReapAll(w, ids).flows == w.flows
    decreases |ids|
  {
    if ids != [] {
      assert ids[0] in ids && forall i :: i in ids[1..] ==> i in ids;
      ReapKeepsFlows(FailTask(w, ids[0]), ids[1..]);
    }
  }

  lemma OtherStepsKeepFlows(w: World, s: Step)
    requires Enabled(w, s) && !IsFlowStep(s) && !s.DoRestart?
    ensures Next(w, s).flows == w.flows
  {
    hide OpenThread, Post, StartRun, Record, ReapAll;
    if s.DoOpen? {
      OpenKeepsFlows(w, s.mentions, s.cap);
    } else if s.DoPost? {
      PostKeepsFlows(w, s.thread, s.mentions, s.cap);
    } else if s.DoStart? {
      StartKeepsFlows(w, s.task);
    } else if s.DoRecord? {
      RecordKeepsFlows(w, s.task);
    } else if s.DoReap? {
      ReapKeepsFlows(w, ExpiredIds(w.tasks, w.clock, |w.tasks|));
    }
  }

  lemma FlowEndsKeepFlows(w: World, f: nat)
    requires FlowAt(w, f)
    ensures FlowLands(w, f).flows == SetFlow(w, f, FlowPhase.Landed).flows
    ensures FlowOpenFailed(w, f).flows == SetFlow(w, f, Gone).flows
  {
  }

  lemma FlowMovesKeepFlows(w: World, s: Step)
    requires Enabled(w, s) && IsFlowStep(s) && !s.DoApprove?
    ensures SameFlows(w.flows, Next(w, s).flows) && |Next(w, s).flows| == |w.flows|
  {
    hide FlowLands, FlowOpenFailed;
    FlowEndsKeepFlows(w, s.flow);
  }

  // Flows keep their thread and sha; only an approval by an approver starts one.
  lemma FlowsComeFromApprovals(w: World, s: Step)
    requires Enabled(w, s) && !s.DoRestart?
    ensures SameFlows(w.flows, Next(w, s).flows)
    ensures forall f :: |w.flows| <= f < |Next(w, s).flows| ==>
      IsApprovalOf(s, Next(w, s).flows[f]) && w.threads[s.thread].preview == Some(Next(w, s).flows[f].sha)
  {
    if !IsFlowStep(s) {
      OtherStepsKeepFlows(w, s);
    } else if !s.DoApprove? {
      FlowMovesKeepFlows(w, s);
    }
  }

  lemma {:induction false} FlowWasApproved(w: World, steps: seq<Step>, f: nat)
    requires Safe(w) && Calm(w) && CalmRun(w, steps) && IsRun(w, steps) && f < |Exec(w, steps).flows|
    ensures f < |w.flows| ==> Exec(w, steps).flows[f].thread == w.flows[f].thread && Exec(w, steps).flows[f].sha == w.flows[f].sha
    ensures f >= |w.flows| ==> exists k :: 0 <= k < |steps| && IsApprovalOf(steps[k], Exec(w, steps).flows[f])
    decreases |steps|
  {
    if steps != [] {
      var v := Next(w, steps[0]);
      FlowsComeFromApprovals(w, steps[0]);
      StepCalm(w, steps[0]);
      StepKeeps(w, steps[0]);
      FlowWasApproved(v, steps[1..], f);
      if |w.flows| <= f < |v.flows| {
        assert IsApprovalOf(steps[0], Exec(w, steps).flows[f]);
      } else if f >= |v.flows| {
        var k :| 0 <= k < |steps[1..]| && IsApprovalOf(steps[1..][k], Exec(w, steps).flows[f]);
        assert IsApprovalOf(steps[k + 1], Exec(w, steps).flows[f]);
      }
    }
  }

  // The sha a thread is DONE with was named by an approver, and that approval's flow merged it.
  lemma ShippedShaWasApproved(cfg: Config, steps: seq<Step>, t: nat)
    requires ConfigOk(cfg) && CalmRun(Initial(cfg), steps) && IsRun(Initial(cfg), steps)
    requires t < |Exec(Initial(cfg), steps).threads| && Exec(Initial(cfg), steps).threads[t].status.Done?
    ensures
      var w := Exec(Initial(cfg), steps);
      && w.threads[t].preview.Some?
      && (exists f: nat :: HasFlow(w, t, f) && w.flows[f].phase.Landed? && Some(w.flows[f].sha) == w.threads[t].preview)
      && (exists k :: 0 <= k < |steps| && steps[k].DoApprove? && steps[k].thread == t
            && steps[k].reviewed == w.threads[t].preview && steps[k].who.Approver?)
  {
    InitialIsCalm(cfg, steps);
    var w := Exec(Initial(cfg), steps);
    assert CalmAt(w, t);
    var f: nat :| HasFlow(w, t, f);
    FlowWasApproved(Initial(cfg), steps, f);
    var k :| 0 <= k < |steps| && IsApprovalOf(steps[k], w.flows[f]);
    assert steps[k].reviewed == w.threads[t].preview;
  }

  // At most one flow of a thread is live; MERGED is recorded only once a merge has returned, and
  // DONE only right after MERGED.
  lemma SinglePrFlow(cfg: Config, steps: seq<Step>, t: nat, f: nat, g: nat, k: nat)
    requires ConfigOk(cfg) && CalmRun(Initial(cfg), steps) && IsRun(Initial(cfg), steps)
    requires t < |Exec(Initial(cfg), steps).threads|
    ensures
      var w := Exec(Initial(cfg), steps);
      var h := w.threads[t].history;
      && (HasFlow(w, t, f) && HasFlow(w, t, g) ==> f == g)
      && (HasFlow(w, t, f) && w.flows[f].Live() ==>
            w.threads[t].status.PrOpen? && w.threads[t].preview == Some(w.flows[f].sha))
      && (k < |h| && h[k].Merged? ==> exists m: nat :: HasFlow(w, t, m) && w.flows[m].phase.Landed?)
      && (k < |h| && h[k].Done? ==> k > 0 && h[k - 1].Merged?)
  {
    InitialIsCalm(cfg, steps);
    assert CalmAt(Exec(Initial(cfg), steps), t);
  }

  // A failed open returns the thread to its preview with no flow left.
  lemma FailedOpenReverts(w: World, f: nat)
    requires Safe(w) && Calm(w) && Enabled(w, DoFlowOpenFailed(f))
    ensures
      var t := w.flows[f].thread;
      var v := Next(w, DoFlowOpenFailed(f));
      && v.threads[t].status.PreviewReady? && v.threads[t].preview == Some(w.flows[f].sha)
      && forall g: nat :: !HasFlow(v, t, g)
  {
    var t := w.flows[f].thread;
    assert CalmAt(w, t) && HasFlow(w, t, f);
    FlowOpenFailedCalm(w, f);
    var v := Next(w, DoFlowOpenFailed(f));
    assert CalmAt(v, t);
    assert v.threads[t].status.PreviewReady?;
  }

  // However many approvals race, the first starts the flow and the rest change nothing.
  lemma RacingApprovals(w: World, t: nat, who: Permission, reviewed: Option<Sha>, others: seq<(Permission, Option<Sha>)>)
    requires t < |w.threads| && CanApproveNow(w, t, who, reviewed)
    ensures ApproveEach(Approve(w, t, who, reviewed), t, others) == Approve(w, t, who, reviewed)
    ensures |Approve(w, t, who, reviewed).flows| == |w.flows| + 1
  {
    ClosedIgnoresApprovals(Approve(w, t, who, reviewed), t, others);
  }

  ghost function ApproveEach(w: World, t: nat, others: seq<(Permission, Option<Sha>)>): World
    requires t < |w.threads|
    decreases |others|
  {
    if others == [] then w else ApproveEach(Approve(w, t, others[0].0, others[0].1), t, others[1..])
  }

  lemma {:induction false} ClosedIgnoresApprovals(w: World, t: nat, others: seq<(Permission, Option<Sha>)>)
    requires t < |w.threads| && !w.threads[t].status.PreviewReady?
    ensures ApproveEach(w, t, others) == w
    decreases |others|
  {
    if others != [] {
      ClosedIgnoresApprovals(w, t, others[1..]);
    }
  }

  // ---- replay -----------------------------------------------------------------------------------

  // A replay keeps the promises exactly when its guard holds.
  lemma ReplayIffGuard(w: World, i: nat)
    requires Safe(w) && Calm(w) && i < |w.tasks| && w.tasks[i].state.Dlq? && w.tasks[i].thread < |w.threads|
    ensures Calm(Replay(w, i)) <==> ReplayGuard(w, i)
  {
    var t := w.tasks[i].thread;
    var v := Replay(w, i);
    assert CalmAt(w, t);
    if ReplayGuard(w, i) {
      ReplayCalm(w, i);
      AsideIsCalm(w, v, t);
    } else {
      assert !CalmAt(v, t) by { ReplayOutsideGuard(w, i); }
    }
  }

  lemma ReplayOutsideGuard(w: World, i: nat)
    requires Safe(w) && i < |w.tasks| && w.tasks[i].state.Dlq? && w.tasks[i].thread < |w.threads|
    requires CalmAt(w, w.tasks[i].thread) && !ReplayGuard(w, i)
    ensures !CalmAt(Replay(w, i), w.tasks[i].thread)
  {
    var t := w.tasks[i].thread;
    var v := Replay(w, i);
    assert i !in w.live by {
      forall k | k in w.live ensures k < |w.tasks| && !w.tasks[k].state.Dlq? { assert LiveOk(w, k); }
    }
    assert Outstanding(v, t, i);
    if InFlight(w.threads[t].status) {
      var j: nat :| Outstanding(w, t, j);
      assert Outstanding(v, t, j) && j != i;
    } else if Closed(w.threads[t].status) {
      var f: nat :| HasFlow(w, t, f);
      assert HasFlow(v, t, f) && !v.threads[t].status.PrOpen? && !v.threads[t].status.Done?;
    } else {
      var j: nat :| i < j && j < |w.tasks| && w.tasks[j].thread == t && w.tasks[j].state.Running?;
      assert ActiveIn(v.tasks, t, j);
    }
  }

  // ---- commitment cutoff ----------------------------------------------------------------------------

  predicate Committed(p: Phase) { p.Coding? || p.Deploying? || p.Deployed? }

  // A comment past the closed check, with every submission resolved.
  function Commented(w: World, t: nat, mentions: bool, cap: Option<Sha>): World
    requires t < |w.threads|
  {
    var u := AddComment(w, t, Comment(false, mentions, cap));
    var c := |w.threads[t].comments|;
    if !mentions then u
    else
      match (if InFlight(w.threads[t].status) then ActiveTask(w.tasks, t) else None)
      case None => AddTask(SetStatus(u, t, Triggered), t, [c])
      case Some(i) =>
        if w.tasks[i].state.Queued? then Narrate(SetRow(u, i, CoalesceRow(u.tasks[i], c)), t)
        else if Interruptible(w.threads[t].status) then
          AddTask(SetStatus(Narrate(CancelTask(u, i), t), t, Triggered), t, w.tasks[i].cids + [c])
        else Narrate(u, t)
  }

  lemma PostIsCommented(w: World, t: nat, mentions: bool, cap: Option<Sha>)
    requires Safe(w) && t < |w.threads| && !Closed(w.threads[t].status)
    ensures Post(w, t, mentions, cap) == Commented(w, t, mentions, cap)
  {
    var u := AddComment(w, t, Comment(false, mentions, cap));
    var c := |w.threads[t].comments|;
    ThreadsOnly(w, u);
    LogTopIsUncovered(w, t);
    if mentions {
      var active := if InFlight(w.threads[t].status) then ActiveTask(w.tasks, t) else None;
      if active.None? {
        SubmitAlwaysSubmits(u, t, [c]);
      } else if !w.tasks[active.value].state.Queued? && Interruptible(w.threads[t].status) {
        InterruptDoes(u, t, active.value, c);
      }
    }
  }

  // What a comment does to handlers and rows: nothing, or it dooms the interruptible active task.
  lemma CommentTouches(w: World, t: nat, mentions: bool, cap: Option<Sha>)
    requires t < |w.threads|
    ensures
      var v := Commented(w, t, mentions, cap);
      var th := w.threads[t];
      var hit := mentions && Interruptible(th.status) && ActiveTask(w.tasks, t).Some?
        && !w.tasks[ActiveTask(w.tasks, t).value].state.Queued?;
      && v.live == (if hit then CancelTask(w, ActiveTask(w.tasks, t).value).live else w.live)
      && |w.tasks| <= |v.tasks|
      && forall k: nat :: k < |w.tasks| && w.tasks[k].state.Running? && !(hit && k == ActiveTask(w.tasks, t).value) ==>
           v.tasks[k] == w.tasks[k]
  {
  }

  lemma LiveRowRuns(w: World, i: nat)
    requires Safe(w) && HandlerAt(w, i) && Unfinished(w.live[i].phase)
    ensures w.tasks[i].state.Running?
  {
    assert LiveOk(w, i);
  }

  // A comment on any thread leaves a committed handler running on the same asks; before the
  // cutoff an @agent comment on its thread stops it, and no other comment does.
  lemma CommentsRespectTheCutoff(w: World, i: nat, t: nat, mentions: bool, cap: Option<Sha>)
    requires Safe(w) && Calm(w) && HandlerAt(w, i) && Unfinished(w.live[i].phase) && t < |w.threads|
    ensures
      var v := Post(w, t, mentions, cap);
      && i in v.live && i < |v.tasks|
      && (Committed(w.live[i].phase) ==> v.live[i] == w.live[i] && v.tasks[i] == w.tasks[i])
      && (v.live[i].phase.Doomed? <==> mentions && t == w.tasks[i].thread && !Committed(w.live[i].phase))
  {
    hide Safe, Commented;
    LiveIsOutstanding(w, i);
    LiveRowRuns(w, i);
    CommentTouches(w, t, mentions, cap);
    if !Closed(w.threads[t].status) { PostIsCommented(w, t, mentions, cap); }
    assert CalmAt(w, t);
    if InFlight(w.threads[t].status) {
      var o := TheOutstanding(w, t);
      assert t == w.tasks[i].thread ==> o == i;
    }
  }

  // The snapshot a handler works from is its row, for as long as it runs.
  lemma SnapshotIsRow(w: World, i: nat)
    requires Safe(w) && i in w.live
    ensures i < |w.tasks| && w.live[i].cids == w.tasks[i].cids
  {
    assert LiveOk(w, i);
  }
}
