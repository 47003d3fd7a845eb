/**
 The commitment cutoff over every step: in crash-free runs with guarded replays a thread's status
 names the phase of its one live handler, and once that handler is coding nothing but its own end
 or an explicit cancel_run stops it.
 */
module Cutoff {
  import opened Domain
  import opened TaskTable
  import opened Protocol
  import opened Safety
  import opened Lifecycle
  import opened Guarantees
  import opened Leases
  import opened PreviewLineage

  // The thread's status names the phase of its one live handler.
  lemma StatusTracksHandler(w: World, i: nat, k: nat)
    requires Safe(w) && Calm(w) && HandlerAt(w, i) && Unfinished(w.live[i].phase)
    ensures
      var s := w.threads[w.tasks[i].thread].status;
      && (s.Triggered? <==> w.live[i].phase.Spawned?)
      && (s.Analyzing? <==> w.live[i].phase.Analyzing?)
      && (s.Coding? <==> w.live[i].phase.Coding?)
      && (s.Deploying? <==> w.live[i].phase.Deploying? || w.live[i].phase.Deployed?)
    ensures HandlerAt(w, k) && Unfinished(w.live[k].phase) && w.tasks[k].thread == w.tasks[i].thread ==> k == i
  {
    LiveIsOutstanding(w, i);
    if HandlerAt(w, k) && Unfinished(w.live[k].phase) && w.tasks[k].thread == w.tasks[i].thread {
      LiveIsOutstanding(w, k);
    }
  }

  // ---- what stops a committed handler ----------------------------------------------------

  // The handler is still at work on the same asks, or has recorded its iteration and returned.
  predicate CarriesOn(live: map<nat, Run>, run: Run, i: nat)
  {
    i in live && live[i].cids == run.cids && (Committed(live[i].phase) || live[i].phase.Finished?)
  }

  // Its own failure, deadline or disappearance, or a cancel_run on its thread.
  predicate MayStop(w: World, s: Step, i: nat)
    requires i < |w.tasks|
  {
    s == DoFail(i) || s == DoVanish(i) || (s.DoCancelRun? && s.thread == w.tasks[i].thread)
  }

  lemma OpenLive(w: World, mentions: bool, cap: Option<Sha>)
    requires Safe(w)
    ensures OpenThread(w, mentions, cap).live == w.live
  {
    var base := if cap.Some? then cap.value else w.cfg.mainSha;
    var v := w.(threads := w.threads + [Thread(base, Open, [Open], [], [], None, None)]);
    ThreadsOnly(w, v);
    PostIsCommented(v, |w.threads|, mentions, cap);
    CommentTouches(v, |w.threads|, mentions, cap);
  }

  lemma CancelRunLive(w: World, t: nat, who: Permission, i: nat)
    requires t < |w.threads| && HandlerAt(w, i) && w.tasks[i].thread != t
    ensures i in CancelRun(w, t, who).live && CancelRun(w, t, who).live[i] == w.live[i]
  {
  }

  lemma ClaimLive(w: World, worker: nat, i: nat)
    requires Safe(w) && WorkerFree(w, worker) && HandlerAt(w, i)
    ensures i in Claim(w, worker).live && Claim(w, worker).live[i] == w.live[i]
  {
    var next := OldestQueued(w.tasks, |w.tasks|);
    if next.Some? { ClaimFindsNoHandler(w, worker); }
  }

  // A step of some handler's own segment.
  predicate HandlerStep(s: Step)
  {
    s.DoBeat? || s.DoStart? || s.DoCode? || s.DoPush? || s.DoDeploy? || s.DoRecord? || s.DoUnwind? || s.DoFail? || s.DoVanish?
  }

  lemma HandlerStepLive(w: World, s: Step, i: nat)
    requires Enabled(w, s) && HandlerStep(s) && HandlerAt(w, i) && s.task != i
    ensures i in Next(w, s).live && Next(w, s).live[i] == w.live[i]
  {
    if s.DoStart? {
      StartLive(w, s.task);
    } else if s.DoRecord? {
      RecordLive(w, s.task);
    }
  }

  lemma OwnStepLive(w: World, s: Step)
    requires Enabled(w, s) && HandlerStep(s) && !s.DoFail? && !s.DoVanish? && Committed(w.live[s.task].phase)
    ensures CarriesOn(Next(w, s).live, w.live[s.task], s.task)
  {
    if s.DoRecord? { RecordLive(w, s.task); }
  }

  // A committed handler carries on with its asks through every step of the system except these.
  lemma CommittedStopsOnlyBy(w: World, s: Step, i: nat)
    requires Safe(w) && Calm(w) && Enabled(w, s) && CalmStep(w, s)
    requires HandlerAt(w, i) && Committed(w.live[i].phase) && !MayStop(w, s, i)
    ensures CarriesOn(Next(w, s).live, w.live[i], i)
  {
    if HandlerStep(s) {
      if s.task == i { OwnStepLive(w, s); } else { HandlerStepLive(w, s, i); }
    } else if s.DoPost? {
      CommentsRespectTheCutoff(w, i, s.thread, s.mentions, s.cap);
    } else if s.DoCancelRun? {
      CancelRunLive(w, s.thread, s.who, i);
    } else if s.DoClaim? {
      ClaimLive(w, s.worker, i);
    } else {
      SystemStepLive(w, s);
    }
  }

  lemma SystemStepLive(w: World, s: Step)
    requires Safe(w) && Enabled(w, s) && (s.DoOpen? || s.DoReap? || s.DoReplay? || s.DoTick? || IsFlowStep(s))
    ensures Next(w, s).live == w.live
  {
    if s.DoOpen? {
      OpenLive(w, s.mentions, s.cap);
    } else if s.DoReap? {
      ReapLive(w, ExpiredIds(w.tasks, w.clock, |w.tasks|));
    } else if IsFlowStep(s) {
      FlowLive(w, s);
    }
  }
}
