/**
 What a process finds after a crash: PR flows resume from the status they had reached, no thread
 is left with work nobody does, and in every run, crashes and any replay included, a thread's
 history tells how it came to be where it is.
 */
module Recovery {
  import opened Domain
  import opened TaskTable
  import opened Protocol
  import opened Safety
  import opened Journal

  // ---- the history of every run -----------------------------------------------------------

  // It starts at OPEN and ends at the status, never rests at MERGED, and has DONE only after it.
  ghost predicate Chronicled(th: Thread)
  {
    var h := th.history;
    && h != [] && h[0].Open? && h[|h| - 1] == th.status && !th.status.Merged?
    && (forall k :: 0 <= k < |h| && h[k].Done? ==> k > 0 && h[k - 1].Merged?)
  }

  ghost predicate AllChronicled(threads: seq<Thread>)
  {
    forall t :: 0 <= t < |threads| ==> Chronicled(threads[t])
  }

  lemma StatusChronicled(w: World, t: nat, s: ThreadStatus)
    requires AllChronicled(w.threads) && t < |w.threads| && !s.Done? && !s.Merged?
    ensures AllChronicled(SetStatus(w, t, s).threads)
  {
    assert Chronicled(w.threads[t]);
  }

  lemma LogChronicled(w: World, t: nat, c: Comment)
    requires AllChronicled(w.threads) && t < |w.threads|
    ensures AllChronicled(AddComment(w, t, c).threads)
  {
    assert Chronicled(w.threads[t]);
  }

  lemma SubmitChronicled(w: World, t: nat, cids: seq<nat>)
    requires AllChronicled(w.threads) && t < |w.threads| && cids != []
    ensures AllChronicled(Submit(w, t, cids).threads)
  {
    hide AllChronicled, ActiveTask;
    StatusChronicled(w, t, Triggered);
  }

  lemma DrainChronicled(w: World, t: nat)
    requires AllChronicled(w.threads) && t < |w.threads|
    ensures AllChronicled(DrainPending(w, t).threads)
  {
    hide AllChronicled, Submit;
    var pending := PendingIds(w.threads[t], w.tasks, t, |w.threads[t].comments|);
    LogChronicled(w, t, NARRATION);
    if pending != [] { SubmitChronicled(Narrate(w, t), t, pending); }
  }

  // ---- comments and cancels

  lemma OnCommentChronicled(w: World, t: nat, c: nat)
    requires AllChronicled(w.threads) && t < |w.threads| && c < |w.threads[t].comments|
    ensures AllChronicled(OnComment(w, t, c).threads)
  {
    hide AllChronicled, Submit;
    LogChronicled(w, t, NARRATION);
    SubmitChronicled(w, t, [c]);
    var active := ActiveTask(w.tasks, t);
    if active.Some? {
      var i := active.value;
      LogChronicled(SetRow(w, i, CoalesceRow(w.tasks[i], c)), t, NARRATION);
      var cancelled := CancelTask(w, i);
      LogChronicled(cancelled, t, NARRATION);
      var combined := Dedup(w.tasks[i].cids + [c]);
      assert c in w.tasks[i].cids + [c];
      SubmitChronicled(Narrate(cancelled, t), t, combined);
    }
  }

  lemma PostChronicled(w: World, t: nat, mentions: bool, cap: Option<Sha>)
    requires AllChronicled(w.threads) && t < |w.threads|
    ensures AllChronicled(Post(w, t, mentions, cap).threads)
  {
    hide AllChronicled, OnComment;
    LogChronicled(w, t, Comment(false, mentions, cap));
    OnCommentChronicled(AddComment(w, t, Comment(false, mentions, cap)), t, |w.threads[t].comments|);
  }

  lemma OpenChronicled(w: World, mentions: bool, cap: Option<Sha>)
    requires AllChronicled(w.threads)
    ensures AllChronicled(OpenThread(w, mentions, cap).threads)
  {
    hide Post;
    var base := if cap.Some? then cap.value else w.cfg.mainSha;
    PostChronicled(w.(threads := w.threads + [Thread(base, Open, [Open], [], [], None, None)]), |w.threads|, mentions, cap);
  }

  lemma CancelRunChronicled(w: World, t: nat, who: Permission)
    requires AllChronicled(w.threads) && t < |w.threads|
    ensures AllChronicled(CancelRun(w, t, who).threads)
  {
    hide AllChronicled;
    if CanCancel(w, t, who) {
      var u := CancelTask(w, ActiveTask(w.tasks, t).value);
      LogChronicled(u, t, NARRATION);
      StatusChronicled(Narrate(u, t), t, if w.threads[t].iterations != [] then PreviewReady else Open);
    }
  }

  // ---- delivery

  lemma FailTaskChronicled(w: World, i: nat)
    requires AllChronicled(w.threads) && i < |w.tasks| && w.tasks[i].thread < |w.threads|
    ensures AllChronicled(FailTask(w, i).threads)
  {
    hide AllChronicled;
    var t := w.tasks[i].thread;
    var u := SetRow(w, i, FailRow(w.tasks[i]));
    LogChronicled(u, t, NARRATION);
    StatusChronicled(Narrate(u, t), t, if FailState(w.tasks[i]).Queued? then Triggered else ThreadStatus.Failed);
  }

  lemma {:induction false} ReapChronicled(w: World, ids: seq<nat>)
    requires AllChronicled(w.threads) && ThreadsResolve(w, ids)
    ensures AllChronicled(ReapAll(w, ids).threads)
    decreases |ids|
  {
    hide AllChronicled;
    if ids != [] {
      assert ids[0] in ids && forall i :: i in ids[1..] ==> i in ids;
      FailTaskChronicled(w, ids[0]);
      ReapChronicled(FailTask(w, ids[0]), ids[1..]);
    }
  }

  lemma StartChronicled(w: World, i: nat)
    requires AllChronicled(w.threads) && HandlerAt(w, i)
    ensures AllChronicled(StartRun(w, i).threads)
  {
    hide AllChronicled, DrainPending, ResolveParent;
    var t := w.tasks[i].thread;
    var th := w.threads[t];
    if Addressed(th, w.live[i].cids[|w.live[i].cids| - 1]) {
      StatusChronicled(w, t, PreviewReady);
      DrainChronicled(SetPhase(if InFlight(th.status) then SetStatus(w, t, PreviewReady) else w, i, Finished), t);
    } else {
      LogChronicled(w, t, NARRATION);
      StatusChronicled(w, t, ThreadStatus.Analyzing);
      StatusChronicled(Narrate(w, t), t, ThreadStatus.Analyzing);
    }
  }

  lemma IterationChronicled(w: World, t: nat, it: Iteration)
    requires AllChronicled(w.threads) && t < |w.threads|
    ensures AllChronicled(AddIteration(w, t, it).threads)
  {
    assert Chronicled(w.threads[t]);
  }

  lemma RecordChronicled(w: World, i: nat)
    requires AllChronicled(w.threads) && HandlerAt(w, i) && w.live[i].phase.Deployed?
    ensures AllChronicled(Record(w, i).threads)
  {
    hide AllChronicled, DrainPending;
    var t := w.tasks[i].thread;
    var run := w.live[i];
    var it := Iteration(run.phase.sha, run.parent, run.cids, run.phase.patch);
    IterationChronicled(w, t, it);
    LogChronicled(AddIteration(w, t, it), t, NARRATION);
    StatusChronicled(Narrate(AddIteration(w, t, it), t), t, PreviewReady);
    DrainChronicled(Recorded(w, i), t);
  }

  // ---- the PR flow and recovery

  lemma LandsChronicled(w: World, f: nat)
    requires AllChronicled(w.threads) && FlowAt(w, f)
    ensures AllChronicled(FlowLands(w, f).threads)
  {
    var t := w.flows[f].thread;
    var h, g := w.threads[t].history, FlowLands(w, f).threads[t].history;
    assert Chronicled(w.threads[t]);
    assert g == h + [Merged, ThreadStatus.Done];
    assert Chronicled(FlowLands(w, f).threads[t]);
  }

  lemma FlowChronicled(w: World, s: Step)
    requires AllChronicled(w.threads) && Enabled(w, s) && IsFlowStep(s) && !s.DoApprove?
    ensures AllChronicled(Next(w, s).threads)
  {
    var f := s.flow;
    var t := w.flows[f].thread;
    assert Chronicled(w.threads[t]);
    hide AllChronicled, FlowLands;
    LogChronicled(w, t, NARRATION);
    if s.DoFlowOpened? {
      PrUrlChronicled(w, t, s.url);
      LogChronicled(WithThread(w, t, w.threads[t].(prUrl := Some(s.url))), t, NARRATION);
    } else if s.DoFlowOpenFailed? {
      StatusChronicled(Narrate(w, t), t, PreviewReady);
    } else if s.DoFlowLands? {
      LandsChronicled(w, f);
    }
  }

  lemma PrUrlChronicled(w: World, t: nat, url: nat)
    requires AllChronicled(w.threads) && t < |w.threads|
    ensures AllChronicled(WithThread(w, t, w.threads[t].(prUrl := Some(url))).threads)
  {
    assert Chronicled(w.threads[t]);
  }

  lemma {:induction false} RecoverChronicled(w: World, n: nat)
    requires AllChronicled(w.threads) && n <= |w.threads|
    ensures AllChronicled(RecoverUpTo(w, n).threads)
  {
    hide AllChronicled, DrainPending;
    if n > 0 {
      RecoverChronicled(w, n - 1);
      DrainChronicled(RecoverUpTo(w, n - 1), n - 1);
    }
  }

  lemma HandlerStepChronicled(w: World, s: Step)
    requires AllChronicled(w.threads) && Enabled(w, s)
    requires s.DoStart? || s.DoCode? || s.DoPush? || s.DoRecord? || s.DoFail?
    ensures AllChronicled(Next(w, s).threads)
  {
    hide AllChronicled, StartRun, Record, FailTask;
    if s.DoStart? {
      StartChronicled(w, s.task);
    } else if s.DoRecord? {
      RecordChronicled(w, s.task);
    } else if s.DoFail? {
      FailTaskChronicled(DropRun(w, s.task), s.task);
    } else {
      StatusChronicled(w, w.tasks[s.task].thread, if s.DoCode? then ThreadStatus.Coding else ThreadStatus.Deploying);
    }
  }

  lemma UserStepChronicled(w: World, s: Step)
    requires AllChronicled(w.threads) && Enabled(w, s) && (IsUserStep(s) || s.DoApprove?)
    ensures AllChronicled(Next(w, s).threads)
  {
    hide AllChronicled, OpenThread, Post, CancelRun;
    if s.DoOpen? {
      OpenChronicled(w, s.mentions, s.cap);
    } else if s.DoPost? {
      PostChronicled(w, s.thread, s.mentions, s.cap);
    } else if s.DoCancelRun? {
      CancelRunChronicled(w, s.thread, s.who);
    } else if s.DoReplay? {
      var t := w.tasks[s.task].thread;
      LogChronicled(w, t, NARRATION);
      StatusChronicled(Narrate(w, t), t, Triggered);
    } else {
      StatusChronicled(w, s.thread, PrOpen);
    }
  }

  lemma StepChronicled(w: World, s: Step)
    requires AllChronicled(w.threads) && Enabled(w, s)
    ensures AllChronicled(Next(w, s).threads)
  {
    hide AllChronicled, ReapAll, RecoverUpTo;
    if IsUserStep(s) || s.DoApprove? {
      UserStepChronicled(w, s);
    } else if s.DoStart? || s.DoCode? || s.DoPush? || s.DoRecord? || s.DoFail? {
      HandlerStepChronicled(w, s);
    } else if IsFlowStep(s) {
      FlowChronicled(w, s);
    } else if s.DoReap? {
      ReapChronicled(w, ExpiredIds(w.tasks, w.clock, |w.tasks|));
    } else if s.DoRestart? {
      RecoverChronicled(Crashed(w), |w.threads|);
    }
  }

  lemma {:induction false} RunChronicled(w: World, steps: seq<Step>)
    requires AllChronicled(w.threads) && IsRun(w, steps)
    ensures AllChronicled(Exec(w, steps).threads)
    decreases |steps|
  {
    hide AllChronicled;
    if steps != [] {
      StepChronicled(w, steps[0]);
      RunChronicled(Next(w, steps[0]), steps[1..]);
    }
  }

  // In every run, crashes and any replay included: a history starts at OPEN and ends at the
  // status, and every DONE in it comes right after MERGED.
  lemma DoneComesFromMerged(cfg: Config, steps: seq<Step>, t: nat, k: nat)
    requires IsRun(Initial(cfg), steps) && t < |Exec(Initial(cfg), steps).threads|
    ensures
      var th := Exec(Initial(cfg), steps).threads[t];
      && th.history != [] && th.history[0].Open? && th.history[|th.history| - 1] == th.status
      && !th.status.Merged?
      && (k < |th.history| && th.history[k].Done? ==> k > 0 && th.history[k - 1].Merged?)
  {
    RunChronicled(Initial(cfg), steps);
    assert Chronicled(Exec(Initial(cfg), steps).threads[t]);
  }

  // ---- a resumed flow ---------------------------------------------------------------------------

  // Resuming continues from where the crash left the thread: a recorded PR goes on to CI, an
  // unrecorded one is opened again, a merged one is rolled out, and anything else is left alone.
  lemma ResumeContinues(w: World, f: nat)
    requires Enabled(w, DoFlowResumes(f))
    ensures
      var t := w.flows[f].thread;
      var th := w.threads[t];
      var v := Next(w, DoFlowResumes(f));
      var after := v.threads[t];
      && |v.threads| == |w.threads| && (forall s :: 0 <= s < |w.threads| && s != t ==> v.threads[s] == w.threads[s])
      && v.tasks == w.tasks && v.live == w.live && v.flows == w.flows[f := w.flows[f].(phase := v.flows[f].phase)]
      && (th.status.PrOpen? && th.prUrl.Some? ==>
            v.flows[f].phase.AwaitCi? && after == th.(comments := th.comments + [NARRATION]))
      && (th.status.PrOpen? && th.prUrl.None? ==> v.flows[f].phase.Reopening? && after == th)
      && (th.status.Merged? ==>
            && v.flows[f].phase.Landed? && after.status.Done? && after.history == th.history + [ThreadStatus.Done]
            && after.iterations == th.iterations && after.preview == th.preview && after.prUrl == th.prUrl)
      && (!th.status.PrOpen? && !th.status.Merged? ==> v.flows[f].phase.Gone? && after == th)
  {
  }

  // ---- the boot sweep ------------------------------------------------------------------------------

  predicate Frozen(th: Thread) { th.status.PrOpen? || th.status.Merged? }

  // After n threads: later threads and frozen ones are untouched, and exactly the frozen ones among
  // the first n have one resuming flow each.
  ghost predicate SweptUpTo(w: World, v: World, n: nat)
    requires n <= |w.threads|
  {
    && |v.threads| == |w.threads| && v.live == w.live && w.flows <= v.flows
    && (forall t :: 0 <= t < |w.threads| && (n <= t || Frozen(w.threads[t])) ==> v.threads[t] == w.threads[t])
    && (forall t :: 0 <= t < n && !Frozen(w.threads[t]) ==> !Frozen(v.threads[t]))
    && (forall f :: |w.flows| <= f < |v.flows| ==>
          v.flows[f].phase.Resuming? && v.flows[f].thread < n && Frozen(w.threads[v.flows[f].thread]))
    && (forall f, g :: |w.flows| <= f < g < |v.flows| ==> v.flows[f].thread != v.flows[g].thread)
    && (forall t :: 0 <= t < n && Frozen(w.threads[t]) ==> exists f :: |w.flows| <= f < |v.flows| && v.flows[f].thread == t)
  }

  lemma DrainTouchesOne(w: World, t: nat)
    requires t < |w.threads| && !Frozen(w.threads[t])
    ensures
      var v := DrainPending(w, t);
      && |v.threads| == |w.threads| && v.live == w.live && v.flows == w.flows
      && (forall s :: 0 <= s < |w.threads| && s != t ==> v.threads[s] == w.threads[s]) && !Frozen(v.threads[t])
  {
  }

  lemma {:induction false} RecoverSweeps(w: World, n: nat)
    requires n <= |w.threads|
    ensures SweptUpTo(w, RecoverUpTo(w, n), n)
  {
    hide RecoverThread;
    if n > 0 {
      RecoverSweeps(w, n - 1);
      SweepOne(w, RecoverUpTo(w, n - 1), n - 1);
    }
  }

  lemma SweepOne(w: World, u: World, t: nat)
    requires t < |w.threads| && SweptUpTo(w, u, t)
    ensures SweptUpTo(w, RecoverThread(u, t), t + 1)
  {
    hide DrainPending;
    assert u.threads[t] == w.threads[t];
    var v := RecoverThread(u, t);
    if Frozen(w.threads[t]) {
      assert v.flows[|u.flows|].thread == t;
      forall s | 0 <= s < t && Frozen(w.threads[s])
        ensures exists f :: |w.flows| <= f < |v.flows| && v.flows[f].thread == s
      {
        var f :| |w.flows| <= f < |u.flows| && u.flows[f].thread == s;
        assert v.flows[f].thread == s;
      }
    } else {
      DrainTouchesOne(u, t);
    }
  }

  predicate LiveFlowOf(w: World, t: nat, f: nat)
  {
    f < |w.flows| && w.flows[f].thread == t && w.flows[f].Live()
  }

  // After a restart no handler is live, a thread at PR_OPEN or MERGED is as the crash left it with
  // exactly one flow resuming it, and no other thread has a live flow.
  lemma RestartResumesFlows(w: World, t: nat)
    requires t < |w.threads|
    ensures
      var v := Restart(w);
      && v.live == map[] && |v.threads| == |w.threads|
      && (Frozen(w.threads[t]) ==>
            && v.threads[t] == w.threads[t]
            && (exists f: nat :: LiveFlowOf(v, t, f) && v.flows[f].phase.Resuming?)
            && (forall f: nat, g: nat :: LiveFlowOf(v, t, f) && LiveFlowOf(v, t, g) ==> f == g))
      && (!Frozen(w.threads[t]) ==> forall f: nat :: !LiveFlowOf(v, t, f))
  {
    var dead, v := Crashed(w), Restart(w);
    RecoverSweeps(dead, |w.threads|);
    hide RecoverUpTo;
    if Frozen(w.threads[t]) {
      var f :| |dead.flows| <= f < |v.flows| && v.flows[f].thread == t;
      assert LiveFlowOf(v, t, f) && v.flows[f].phase.Resuming?;
    }
    assert forall f :: 0 <= f < |w.flows| ==> v.flows[f] == dead.flows[f] && !dead.flows[f].Live();
  }

  // ---- no ask is left with nobody to pick it up --------------------------------------------------------

  // The thread is over, FAILED, or has an active task; otherwise nothing of it is pending.
  ghost predicate Tended(w: World, t: nat)
    requires t < |w.threads|
  {
    var s := w.threads[t].status;
    || s.PrOpen? || s.Merged? || s.Done? || s.Cancelled? || s.Failed?
    || (exists i: nat :: ActiveIn(w.tasks, t, i))
    || (forall c: nat :: !Pending(w.threads[t], w.tasks, t, c))
  }

  ghost predicate OnlyAdds(a: seq<Task>, b: seq<Task>, t: nat)
  {
    a <= b && forall i :: |a| <= i < |b| ==> b[i].thread == t
  }

  lemma RecoverThreadAdds(w: World, t: nat)
    requires t < |w.threads|
    ensures OnlyAdds(w.tasks, RecoverThread(w, t).tasks, t)
    ensures |RecoverThread(w, t).threads| == |w.threads|
    ensures forall s :: 0 <= s < |w.threads| && s != t ==> RecoverThread(w, t).threads[s] == w.threads[s]
  {
  }

  lemma TendedElsewhere(w: World, v: World, s: nat, t: nat)
    requires s < |w.threads| && s < |v.threads| && s != t && Tended(w, s)
    requires v.threads[s] == w.threads[s] && OnlyAdds(w.tasks, v.tasks, t)
    ensures Tended(v, s)
  {
    assert forall i: nat :: ActiveIn(w.tasks, s, i) ==> ActiveIn(v.tasks, s, i);
    assert forall c: nat, i: nat :: CoveredBy(v.tasks, s, c, i) <==> CoveredBy(w.tasks, s, c, i);
    assert forall c: nat :: Covered(v.tasks, s, c) <==> Covered(w.tasks, s, c);
    assert forall c: nat :: Pending(v.threads[s], v.tasks, s, c) <==> Pending(w.threads[s], w.tasks, s, c);
    if i: nat :| ActiveIn(w.tasks, s, i) { assert ActiveIn(v.tasks, s, i); }
  }

  lemma RecoverTends(w: World, t: nat)
    requires t < |w.threads|
    ensures |RecoverThread(w, t).threads| == |w.threads| && Tended(RecoverThread(w, t), t)
  {
    var th := w.threads[t];
    var active := ActiveTask(w.tasks, t);
    if !Closed(th.status) && !th.status.Failed? && active.None? {
      var pending := PendingIds(th, w.tasks, t, |th.comments|);
      if pending == [] {
        assert forall c: nat :: Pending(th, w.tasks, t, c) ==> c in pending;
      } else {
        assert ActiveIn(RecoverThread(w, t).tasks, t, |w.tasks|);
      }
    } else if active.Some? {
      assert ActiveIn(w.tasks, t, active.value);
    }
  }

  lemma {:induction false} SweepTends(w: World, n: nat, t: nat)
    requires n <= |w.threads| && t < n
    ensures Tended(RecoverUpTo(w, n), t)
  {
    hide RecoverThread, Tended;
    var u := RecoverUpTo(w, n - 1);
    if t == n - 1 {
      RecoverTends(u, t);
    } else {
      SweepTends(w, n - 1, t);
      RecoverThreadAdds(u, n - 1);
      TendedElsewhere(u, RecoverThread(u, n - 1), t, n - 1);
    }
  }

  // After a restart every ask that is waiting is on a thread with a task to come back from it, or
  // on one that is over or FAILED.
  lemma RestartTendsEveryThread(w: World, t: nat)
    requires t < |w.threads|
    ensures |Restart(w).threads| == |w.threads| && Tended(Restart(w), t)
  {
    SweepTends(Crashed(w), |w.threads|, t);
  }
}
