/**
 What a user or a handler sees an operation leave behind, case by case: a comment, an explicit
 cancel, an approval, a recorded iteration, a redelivery, and each segment of the PR flow.
 */
module Effects {
  import opened Domain
  import opened TaskTable
  import opened Protocol
  import opened Safety
  import opened Journal
  import opened Evolution
  import opened Conservation
  import opened Lifecycle
  import opened Guarantees
  import opened PreviewLineage

  // Everything of a thread but its log, its status and its history.
  predicate SameRecord(a: Thread, b: Thread)
  {
    a.base == b.base && a.iterations == b.iterations && a.preview == b.preview && a.prUrl == b.prUrl
  }

  ghost predicate OthersSame(w: World, v: World, t: nat)
  {
    |v.threads| == |w.threads| && forall s :: 0 <= s < |w.threads| && s != t ==> v.threads[s] == w.threads[s]
  }

  // The statuses of a thread that is over, one by one.
  predicate Over(s: ThreadStatus) { s.PrOpen? || s.Merged? || s.Done? || s.Cancelled? }

  // The statuses of a thread the agent works for, one by one.
  predicate AtWork(s: ThreadStatus) { s.Triggered? || s.Analyzing? || s.Coding? || s.Deploying? }

  // ---- comments -----------------------------------------------------------------------------

  // A thread with a PR, or dropped, takes no comment at all.
  lemma ClosedTakesNoComment(w: World, t: nat, mentions: bool, cap: Option<Sha>)
    requires t < |w.threads|
    requires Over(w.threads[t].status)
    ensures Post(w, t, mentions, cap) == w
  {
  }

  // A comment that does not mention the agent joins the log and does nothing else.
  lemma PlainCommentOnlyJoinsTheLog(w: World, t: nat, cap: Option<Sha>)
    requires t < |w.threads|
    requires !Over(w.threads[t].status)
    ensures
      var th := w.threads[t];
      Post(w, t, false, cap) ==
        w.(threads := w.threads[t := th.(comments := th.comments + [Comment(false, false, cap)])])
  {
  }

  // An ask on a thread nobody works for becomes a task at once; FAILED threads are retried so.
  lemma AskStartsTask(w: World, t: nat, cap: Option<Sha>)
    requires Safe(w) && t < |w.threads|
    requires !Over(w.threads[t].status) && !AtWork(w.threads[t].status)
    ensures
      var th := w.threads[t];
      var v := Post(w, t, true, cap);
      && v.tasks == w.tasks + [Task(t, [|th.comments|], Queued, 0, w.cfg.maxAttempts, None, 0, w.clock)]
      && v.threads[t].status.Triggered? && v.threads[t].history == th.history + [Triggered]
      && v.threads[t].comments == th.comments + [Comment(false, true, cap)]
      && v.live == w.live && SameRecord(th, v.threads[t]) && OthersSame(w, v, t)
  {
    PostIsCommented(w, t, true, cap);
  }

  // An ask on a thread at work joins a task that waits, replaces one that has not begun coding by
  // the combination, and leaves a committed one alone.
  lemma AskJoinsWork(w: World, t: nat, i: nat, cap: Option<Sha>)
    requires Safe(w) && t < |w.threads| && ActiveTask(w.tasks, t) == Some(i)
    requires AtWork(w.threads[t].status)
    ensures
      var th := w.threads[t];
      var v := Post(w, t, true, cap);
      var row := w.tasks[i];
      var c := |th.comments|;
      && i < |w.tasks|
      && v.threads[t].comments == th.comments + [Comment(false, true, cap), NARRATION]
      && SameRecord(th, v.threads[t]) && OthersSame(w, v, t)
      && (row.state.Queued? ==> v.tasks == w.tasks[i := row.(cids := row.cids + [c])])
      && (row.state.Running? && (th.status.Triggered? || th.status.Analyzing?) ==>
            v.tasks == w.tasks[i := row.(state := TaskState.Cancelled)]
              + [Task(t, row.cids + [c], Queued, 0, w.cfg.maxAttempts, None, 0, w.clock)])
      && (row.state.Running? && (th.status.Coding? || th.status.Deploying?) ==> v.tasks == w.tasks)
  {
    PostIsCommented(w, t, true, cap);
    hide Safe, Post;
    CommentedOnWork(w, t, i, cap);
  }

  lemma CommentedOnWork(w: World, t: nat, i: nat, cap: Option<Sha>)
    requires t < |w.threads| && ActiveTask(w.tasks, t) == Some(i) && AtWork(w.threads[t].status)
    ensures
      var th := w.threads[t];
      var v := Commented(w, t, true, cap);
      var row := w.tasks[i];
      var c := |th.comments|;
      && i < |w.tasks|
      && v.threads[t].comments == th.comments + [Comment(false, true, cap), NARRATION]
      && SameRecord(th, v.threads[t]) && OthersSame(w, v, t)
      && (row.state.Queued? ==> v.tasks == w.tasks[i := row.(cids := row.cids + [c])])
      && (row.state.Running? && (th.status.Triggered? || th.status.Analyzing?) ==>
            v.tasks == w.tasks[i := row.(state := TaskState.Cancelled)]
              + [Task(t, row.cids + [c], Queued, 0, w.cfg.maxAttempts, None, 0, w.clock)])
      && (row.state.Running? && (th.status.Coding? || th.status.Deploying?) ==> v.tasks == w.tasks)
  {
    var th := w.threads[t];
    assert th.comments + [Comment(false, true, cap)] + [NARRATION] == th.comments + [Comment(false, true, cap), NARRATION];
  }

  // The sha is a preview, and only of threads that are over.
  ghost predicate StalePreview(threads: seq<Thread>, s: Sha)
  {
    && (exists t :: 0 <= t < |threads| && Known(threads[t], s))
    && (forall t :: 0 <= t < |threads| && Known(threads[t], s) ==> Over(threads[t].status))
  }

  // A comment from a stale preview opens nothing.
  lemma StalePreviewIsRejected(w: World, mentions: bool, cap: Option<Sha>)
    requires StalePreview(w.threads, if cap.Some? then cap.value else w.cfg.mainSha)
    ensures OpenThread(w, mentions, cap) == w
  {
  }

  function Opened(w: World, base: Sha): World
  {
    w.(threads := w.threads + [Thread(base, Open, [Open], [], [], None, None)])
  }

  lemma PostedOnOpened(w: World, base: Sha, mentions: bool, cap: Option<Sha>)
    requires Safe(w)
    ensures
      var n := |w.threads|;
      var v := Post(Opened(w, base), n, mentions, cap);
      && |v.threads| == n + 1 && v.threads[..n] == w.threads
      && v.threads[n].base == base && v.threads[n].comments == [Comment(false, mentions, cap)]
      && v.threads[n].status == if mentions then Triggered else Open
  {
    var u, n := Opened(w, base), |w.threads|;
    ThreadsOnly(w, u);
    hide Safe, Post;
    if mentions {
      AskStartsTask(u, n, cap);
    } else {
      PlainCommentOnlyJoinsTheLog(u, n, cap);
    }
    assert [] + [Comment(false, mentions, cap)] == [Comment(false, mentions, cap)];
    var v := Post(u, n, mentions, cap);
    assert forall s :: 0 <= s < n ==> v.threads[s] == u.threads[s] == w.threads[s];
  }

  // A thread opens on the captured sha, or on the main sha without one; its first comment is the
  // one posted, and the agent is summoned exactly if that comment asks for it.
  lemma OpensOnTheCapturedSha(w: World, mentions: bool, cap: Option<Sha>)
    requires Safe(w)
    requires
      var base := if cap.Some? then cap.value else w.cfg.mainSha;
      forall t :: 0 <= t < |w.threads| && Known(w.threads[t], base) ==> !Over(w.threads[t].status)
    ensures
      var n := |w.threads|;
      var v := OpenThread(w, mentions, cap);
      && |v.threads| == n + 1 && v.threads[..n] == w.threads
      && v.threads[n].base == (if cap.Some? then cap.value else w.cfg.mainSha)
      && v.threads[n].comments == [Comment(false, mentions, cap)]
      && v.threads[n].status == if mentions then Triggered else Open
  {
    hide Safe, Post;
    PostedOnOpened(w, if cap.Some? then cap.value else w.cfg.mainSha, mentions, cap);
  }

  // ---- explicit cancel --------------------------------------------------------------------------

  // A cancelled run leaves the last preview current, or an open discussion if there is none.
  lemma CancelRunReturnsToLastPreview(w: World, t: nat, who: Permission, i: nat)
    requires t < |w.threads| && !who.View? && ActiveTask(w.tasks, t) == Some(i)
    requires AtWork(w.threads[t].status)
    ensures
      var th := w.threads[t];
      var v := CancelRun(w, t, who);
      var back := if th.iterations == [] then Open else PreviewReady;
      && v.threads[t].status == back && v.threads[t].history == th.history + [back]
      && v.threads[t].comments == th.comments + [NARRATION]
      && SameRecord(th, v.threads[t]) && OthersSame(w, v, t)
      && i < |w.tasks| && v.tasks == w.tasks[i := w.tasks[i].(state := TaskState.Cancelled)]
      && v.flows == w.flows && v.patches == w.patches
  {
  }

  // Nobody else's cancel does anything: a viewer's, or one with nothing in flight.
  lemma CancelRunNeedsARun(w: World, t: nat, who: Permission)
    requires t < |w.threads|
    requires who.View? || ActiveTask(w.tasks, t).None? || !AtWork(w.threads[t].status)
    ensures CancelRun(w, t, who) == w
  {
  }

  // In every run: the preview a cancelled run leaves current can be approved at once.
  lemma CancelledPreviewCanBeApproved(cfg: Config, steps: seq<Step>, t: nat, who: Permission, i: nat)
    requires ConfigOk(cfg) && IsRun(Initial(cfg), steps) && t < |Exec(Initial(cfg), steps).threads|
    requires
      var w := Exec(Initial(cfg), steps);
      && !who.View? && ActiveTask(w.tasks, t) == Some(i) && w.threads[t].iterations != []
      && AtWork(w.threads[t].status)
    ensures
      var w := Exec(Initial(cfg), steps);
      var its := w.threads[t].iterations;
      var sha := its[|its| - 1].sha;
      var v := Approve(CancelRun(w, t, who), t, Approver, Some(sha));
      v.threads[t].status.PrOpen? && v.flows == w.flows + [Flow(t, sha, Opening)]
  {
    hide Approve, CancelRun, TreeOk, BranchOk, ShasApart, ActiveTask;
    RunKeepsLineage(Initial(cfg), steps);
    var w := Exec(Initial(cfg), steps);
    TipCanBeApproved(w, t, who, i);
  }

  lemma TipCanBeApproved(w: World, t: nat, who: Permission, i: nat)
    requires t < |w.threads| && TreeOk(w.threads[t], w.patches) && w.threads[t].iterations != []
    requires !who.View? && ActiveTask(w.tasks, t) == Some(i) && AtWork(w.threads[t].status)
    ensures
      var its := w.threads[t].iterations;
      var sha := its[|its| - 1].sha;
      var v := Approve(CancelRun(w, t, who), t, Approver, Some(sha));
      v.threads[t].status.PrOpen? && v.flows == w.flows + [Flow(t, sha, Opening)]
  {
    CancelRunReturnsToLastPreview(w, t, who, i);
  }

  // ---- approval ------------------------------------------------------------------------------------

  // An approval takes effect exactly when an approver names the current preview of a thread that
  // is at that preview.
  lemma ApprovalTakesEffectIff(w: World, t: nat, who: Permission, reviewed: Option<Sha>)
    requires t < |w.threads|
    ensures
      var th := w.threads[t];
      var v := Approve(w, t, who, reviewed);
      if who.Approver? && reviewed.Some? && th.preview == reviewed && th.status.PreviewReady? then
        && v.threads[t] == th.(status := PrOpen, history := th.history + [PrOpen])
        && v.flows == w.flows + [Flow(t, reviewed.value, Opening)]
        && OthersSame(w, v, t) && v.tasks == w.tasks && v.live == w.live
      else v == w
  {
  }

  // ---- recorded and redelivered work ---------------------------------------------------------------

  // What a drain does: nothing to a thread that is over or FAILED, or has nothing pending; otherwise
  // one queued task takes every pending ask.
  ghost predicate Drained(w: World, v: World, t: nat)
    requires t < |w.threads| && t < |v.threads|
  {
    var before, after := w.threads[t], v.threads[t];
    && SameRecord(before, after) && OthersSame(w, v, t) && v.live == w.live && v.flows == w.flows
    && (if Over(before.status) || before.status.Failed? || forall c: nat :: !Pending(before, w.tasks, t, c) then
          after == before && v.tasks == w.tasks
        else
          && after.status.Triggered? && after.history == before.history + [Triggered]
          && |v.tasks| == |w.tasks| + 1 && v.tasks[..|w.tasks|] == w.tasks
          && v.tasks[|w.tasks|].thread == t && v.tasks[|w.tasks|].state.Queued?
          && forall c: nat :: c in v.tasks[|w.tasks|].cids <==> Pending(before, w.tasks, t, c))
  }

  lemma DrainOutcome(w: World, t: nat)
    requires t < |w.threads|
    ensures |DrainPending(w, t).threads| == |w.threads| && Drained(w, DrainPending(w, t), t)
  {
    var th := w.threads[t];
    var pending := PendingIds(th, w.tasks, t, |th.comments|);
    if pending != [] {
      assert pending[0] in pending && pending[|pending| - 1] in pending;
      SubmitAlwaysSubmits(Narrate(w, t), t, pending);
    } else {
      assert forall c: nat :: Pending(th, w.tasks, t, c) ==> c in pending;
    }
  }

  // A recorded iteration is the handler's: its sha becomes the preview, the thread goes to
  // PREVIEW_READY, and only then are waiting asks drained.
  lemma RecordShowsThePreview(w: World, i: nat)
    requires HandlerAt(w, i) && w.live[i].phase.Deployed?
    ensures
      var t := w.tasks[i].thread;
      var run := w.live[i];
      var th := w.threads[t];
      var it := Iteration(run.phase.sha, run.parent, run.cids, run.phase.patch);
      var shown := th.(iterations := th.iterations + [it], preview := Some(it.sha), comments := th.comments + [NARRATION],
                       status := PreviewReady, history := th.history + [PreviewReady]);
      Drained(w.(threads := w.threads[t := shown], live := w.live[i := run.(phase := Finished)]), Record(w, i), t)
  {
    var t := w.tasks[i].thread;
    DrainOutcome(Recorded(w, i), t);
    assert Recorded(w, i).threads == w.threads[t := Recorded(w, i).threads[t]];
  }

  // Work that is already applied is not redone: no iteration, the status repaired, asks drained.
  lemma RedeliveryOnlyRepairs(w: World, i: nat)
    requires HandlerAt(w, i) && Addressed(w.threads[w.tasks[i].thread], w.live[i].cids[|w.live[i].cids| - 1])
    ensures
      var t := w.tasks[i].thread;
      var th := w.threads[t];
      var repaired := if AtWork(th.status) then th.(status := PreviewReady, history := th.history + [PreviewReady]) else th;
      var u := w.(threads := w.threads[t := repaired], live := w.live[i := w.live[i].(phase := Finished)]);
      && |StartRun(w, i).threads| == |w.threads|
      && Drained(u, StartRun(w, i), t)
  {
    hide DrainPending;
    var t := w.tasks[i].thread;
    var th := w.threads[t];
    var u := SetPhase(if InFlight(th.status) then SetStatus(w, t, PreviewReady) else w, i, Finished);
    DrainOutcome(u, t);
    assert u.threads == w.threads[t := u.threads[t]];
  }

  // Work that is not: the thread goes to ANALYZING, the handler is given the base its asks resolve
  // to, and the thread is told when that is not its newest sha.
  lemma StartBeginsWork(w: World, i: nat)
    requires LineageOk(w) && HandlerAt(w, i)
    requires !Addressed(w.threads[w.tasks[i].thread], w.live[i].cids[|w.live[i].cids| - 1])
    ensures
      var t := w.tasks[i].thread;
      var th := w.threads[t];
      var v := StartRun(w, i);
      var parent := ResolveParent(th, w.live[i].cids);
      var newest := if th.iterations == [] then th.base else th.iterations[|th.iterations| - 1].sha;
      && v.live == w.live[i := w.live[i].(phase := Phase.Analyzing, parent := parent)]
      && OthersSame(w, v, t) && v.tasks == w.tasks && v.flows == w.flows
      && v.threads[t] == th.(status := ThreadStatus.Analyzing, history := th.history + [ThreadStatus.Analyzing],
                             comments := if parent == newest then th.comments else th.comments + [NARRATION])
  {
    assert TreeOk(w.threads[w.tasks[i].thread], w.patches);
  }

  // A beat of a handler that owns its row renews the lease in full.
  lemma BeatRenews(w: World, i: nat)
    requires Safe(w) && HandlerAt(w, i) && Unfinished(w.live[i].phase)
    ensures
      var v := Beat(w, i);
      && v.tasks == w.tasks[i := w.tasks[i].(lease := w.clock + w.cfg.leaseMs)]
      && v.live == w.live[i := w.live[i].(beatAt := w.clock)]
  {
    assert LiveOk(w, i);
  }

  // ---- the PR flow -----------------------------------------------------------------------------------

  // The flow moved on; its thread only gained narrations.
  ghost predicate FlowTold(w: World, v: World, f: nat, p: FlowPhase)
    requires FlowAt(w, f)
  {
    var t := w.flows[f].thread;
    && v.flows == w.flows[f := w.flows[f].(phase := p)] && OthersSame(w, v, t)
    && v.threads[t] == w.threads[t].(comments := w.threads[t].comments + [NARRATION])
    && v.tasks == w.tasks && v.live == w.live
  }

  // Opening records the PR it was given and changes no status; CI, and a failure of CI or of the
  // merge, record nothing.
  lemma FlowTells(w: World, f: nat, url: nat)
    requires FlowAt(w, f)
    ensures
      var t := w.flows[f].thread;
      var th := w.threads[t];
      var v := FlowOpened(w, f, url);
      && v.threads[t] == th.(prUrl := Some(url), comments := th.comments + [NARRATION])
      && v.flows == w.flows[f := w.flows[f].(phase := AwaitCi)] && OthersSame(w, v, t)
    ensures w.flows[f].phase.AwaitCi? ==> FlowTold(w, Next(w, DoFlowCi(f)), f, Merging)
    ensures w.flows[f].phase.AwaitCi? || w.flows[f].phase.Merging? ==> FlowTold(w, Next(w, DoFlowBroke(f)), f, Stalled)
  {
  }

  // A first open that fails goes back to the preview unless the thread moved on; a reopening that
  // fails after a restart leaves the thread as it is. Either way the flow is gone.
  lemma FailedOpenOutcome(w: World, f: nat)
    requires Enabled(w, DoFlowOpenFailed(f))
    ensures
      var t := w.flows[f].thread;
      var th := w.threads[t];
      var v := Next(w, DoFlowOpenFailed(f));
      && v.flows == w.flows[f := w.flows[f].(phase := Gone)] && OthersSame(w, v, t)
      && v.tasks == w.tasks && v.live == w.live
      && (w.flows[f].phase.Opening? && th.status.PrOpen? ==>
            v.threads[t] == th.(comments := th.comments + [NARRATION], status := PreviewReady,
                                history := th.history + [PreviewReady]))
      && (w.flows[f].phase.Opening? && !th.status.PrOpen? ==>
            v.threads[t] == th.(comments := th.comments + [NARRATION]))
      && (w.flows[f].phase.Reopening? ==> v.threads[t] == th)
  {
  }

  // Landing ends at DONE, by way of MERGED.
  lemma LandingIsDone(w: World, f: nat)
    requires FlowAt(w, f)
    ensures
      var t := w.flows[f].thread;
      var th, after := w.threads[t], FlowLands(w, f).threads[t];
      && after.status.Done? && after.history == th.history + [Merged, ThreadStatus.Done] && SameRecord(th, after)
      && FlowLands(w, f).flows == w.flows[f := w.flows[f].(phase := FlowPhase.Landed)]
      && OthersSame(w, FlowLands(w, f), t)
  {
    var h := w.threads[w.flows[f].thread].history;
    assert h + [Merged] + [ThreadStatus.Done] == h + [Merged, ThreadStatus.Done];
  }
}
