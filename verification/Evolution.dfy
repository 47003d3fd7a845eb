/**
 What a step does to the thread table: apart from a user's comment and the iteration row of a
 finished handler, every step only narrates, moves statuses and records PR links.
 */
module Evolution {
  import opened Domain
  import opened TaskTable
  import opened Protocol
  import opened Safety
  import opened Journal

  ghost predicate ThreadNarrated(a: Thread, b: Thread)
  {
    && a.base == b.base && a.preview == b.preview && a.iterations == b.iterations
    && a.comments <= b.comments && a.history <= b.history
    && forall c :: |a.comments| <= c < |b.comments| ==> b.comments[c].system
  }

  ghost predicate Narrated(a: seq<Thread>, b: seq<Thread>)
  {
    |a| == |b| && forall t :: 0 <= t < |a| ==> ThreadNarrated(a[t], b[t])
  }

  ghost predicate SameStore(w: World, v: World)
  {
    v.cfg == w.cfg && v.clock == w.clock && v.patches == w.patches
  }

  ghost predicate Tells(w: World, v: World)
  {
    Narrated(w.threads, v.threads) && SameStore(w, v)
  }

  lemma TellsTransitive(u: World, v: World, w: World)
    requires Tells(u, v) && Tells(v, w)
    ensures Tells(u, w)
  {
    forall t | 0 <= t < |u.threads|
      ensures ThreadNarrated(u.threads[t], w.threads[t])
    {
      assert ThreadNarrated(u.threads[t], v.threads[t]) && ThreadNarrated(v.threads[t], w.threads[t]);
      forall c | |u.threads[t].comments| <= c < |w.threads[t].comments|
        ensures w.threads[t].comments[c].system
      {
        if c < |v.threads[t].comments| {
          assert v.threads[t].comments[c] == w.threads[t].comments[c];
        }
      }
    }
  }

  lemma AsksUnchanged(a: seq<Thread>, b: seq<Thread>, t: nat, c: nat)
    requires Narrated(a, b) && t < |a|
    ensures IsAsk(a[t], c) <==> IsAsk(b[t], c)
  {
    assert ThreadNarrated(a[t], b[t]);
    if c < |a[t].comments| { assert a[t].comments[c] == b[t].comments[c]; }
  }

  lemma SubmitTells(w: World, t: nat, cids: seq<nat>)
    requires t < |w.threads| && cids != []
    ensures Tells(w, Submit(w, t, cids))
  {
  }

  lemma DrainTells(w: World, t: nat)
    requires t < |w.threads|
    ensures Tells(w, DrainPending(w, t))
  {
    var th := w.threads[t];
    var pending := PendingIds(th, w.tasks, t, |th.comments|);
    if pending != [] {
      SubmitTells(Narrate(w, t), t, pending);
      TellsTransitive(w, Narrate(w, t), Submit(Narrate(w, t), t, pending));
    }
  }

  lemma NarrateTells(w: World, v: World, t: nat)
    requires Tells(w, v) && t < |v.threads|
    ensures Tells(w, Narrate(v, t))
  {
    TellsTransitive(w, v, Narrate(v, t));
  }

  lemma SetStatusTells(w: World, v: World, t: nat, s: ThreadStatus)
    requires Tells(w, v) && t < |v.threads|
    ensures Tells(w, SetStatus(v, t, s))
  {
    TellsTransitive(w, v, SetStatus(v, t, s));
  }

  lemma CommentOnActiveTells(w: World, t: nat, c: nat, i: nat)
    requires t < |w.threads| && c < |w.threads[t].comments| && i < |w.tasks|
    ensures Tells(w, Narrate(SetRow(w, i, CoalesceRow(w.tasks[i], c)), t))
    ensures Tells(w, Submit(Narrate(CancelTask(w, i), t), t, Dedup(w.tasks[i].cids + [c])))
  {
    NarrateTells(w, SetRow(w, i, CoalesceRow(w.tasks[i], c)), t);
    NarrateTells(w, CancelTask(w, i), t);
    var u := Narrate(CancelTask(w, i), t);
    var cids := Dedup(w.tasks[i].cids + [c]);
    assert c in w.tasks[i].cids + [c];
    SubmitTells(u, t, cids);
    TellsTransitive(w, u, Submit(u, t, cids));
  }

  lemma OnCommentTells(w: World, t: nat, c: nat)
    requires t < |w.threads| && c < |w.threads[t].comments|
    ensures Tells(w, OnComment(w, t, c))
  {
    SubmitTells(w, t, [c]);
    NarrateTells(w, w, t);
    var active := if InFlight(w.threads[t].status) then ActiveTask(w.tasks, t) else None;
    if active.Some? {
      CommentOnActiveTells(w, t, c, active.value);
    }
  }

  lemma StartTells(w: World, i: nat)
    requires HandlerAt(w, i)
    ensures Tells(w, StartRun(w, i))
  {
    var t := w.tasks[i].thread;
    var w1 := SetPhase(if InFlight(w.threads[t].status) then SetStatus(w, t, PreviewReady) else w, i, Finished);
    DrainTells(w1, t);
    TellsTransitive(w, w1, DrainPending(w1, t));
  }

  lemma {:induction false} ReapTells(w: World, ids: seq<nat>)
    requires ThreadsResolve(w, ids)
    ensures Tells(w, ReapAll(w, ids))
    decreases |ids|
  {
    if ids != [] {
      assert ids[0] in ids && forall i :: i in ids[1..] ==> i in ids;
      FailTells(w, ids[0]);
      ReapTells(FailTask(w, ids[0]), ids[1..]);
      TellsTransitive(w, FailTask(w, ids[0]), ReapAll(w, ids));
    }
  }

  lemma RecoverThreadTells(w: World, t: nat)
    requires t < |w.threads|
    ensures Tells(w, RecoverThread(w, t))
  {
    DrainTells(w, t);
  }

  lemma {:induction false} RecoverTells(w: World, n: nat)
    requires n <= |w.threads|
    ensures Tells(w, RecoverUpTo(w, n))
  {
    hide RecoverThread;
    if n > 0 {
      RecoverTells(w, n - 1);
      var v := RecoverUpTo(w, n - 1);
      RecoverThreadTells(v, n - 1);
      TellsTransitive(w, v, RecoverThread(v, n - 1));
    }
  }

  lemma FlowLandsTells(w: World, f: nat)
    requires FlowAt(w, f)
    ensures Tells(w, FlowLands(w, f))
  {
    var t := w.flows[f].thread;
    var w1 := SetFlow(w, f, FlowPhase.Landed);
    NarrateTells(w, w1, t);
    SetStatusTells(w, Narrate(w1, t), t, Merged);
    var w2 := SetStatus(Narrate(w1, t), t, Merged);
    NarrateTells(w, w2, t);
    SetStatusTells(w, Narrate(w2, t), t, ThreadStatus.Done);
  }

  lemma FlowOpenTells(w: World, f: nat, url: nat)
    requires FlowAt(w, f)
    ensures Tells(w, FlowOpened(w, f, url)) && Tells(w, FlowOpenFailed(w, f))
  {
    var t := w.flows[f].thread;
    NarrateTells(w, WithThread(w, t, w.threads[t].(prUrl := Some(url))), t);
    NarrateTells(w, SetFlow(w, f, Gone), t);
    SetStatusTells(w, Narrate(SetFlow(w, f, Gone), t), t, PreviewReady);
  }

  lemma FlowResumesTells(w: World, f: nat)
    requires FlowAt(w, f)
    ensures Tells(w, FlowResumes(w, f))
  {
    var t := w.flows[f].thread;
    NarrateTells(w, w, t);
    SetStatusTells(w, Narrate(w, t), t, ThreadStatus.Done);
  }

  lemma FlowStepTells(w: World, s: Step)
    requires Enabled(w, s) && IsFlowStep(s)
    ensures Tells(w, Next(w, s))
  {
    match s
    case DoApprove(t, _, _) => SetStatusTells(w, w, t, PrOpen);
    case DoFlowOpened(f, url) => FlowOpenTells(w, f, url);
    case DoFlowOpenFailed(f) => FlowOpenTells(w, f, 0);
    case DoFlowLands(f) => FlowLandsTells(w, f);
    case DoFlowResumes(f) => FlowResumesTells(w, f);
    case DoFlowCi(f) => NarrateTells(w, w, w.flows[f].thread);
    case DoFlowBroke(f) => NarrateTells(w, w, w.flows[f].thread);
  }

  lemma FailTells(w: World, i: nat)
    requires i < |w.tasks| && w.tasks[i].thread < |w.threads|
    ensures Tells(w, FailTask(w, i))
  {
    NarrateTells(w, SetRow(w, i, FailRow(w.tasks[i])), w.tasks[i].thread);
    var v := Narrate(SetRow(w, i, FailRow(w.tasks[i])), w.tasks[i].thread);
    SetStatusTells(w, v, w.tasks[i].thread, if FailState(w.tasks[i]).Queued? then Triggered else ThreadStatus.Failed);
  }

  lemma RowStepTells(w: World, s: Step)
    requires Enabled(w, s)
    requires s.DoCancelRun? || s.DoReplay? || s.DoClaim? || s.DoBeat? || s.DoCode? || s.DoPush? || s.DoUnwind? || s.DoFail? || s.DoVanish?
    ensures Tells(w, Next(w, s))
  {
    match s
    case DoCancelRun(t, who) =>
      if CanCancel(w, t, who) {
        var v := CancelTask(w, ActiveTask(w.tasks, t).value);
        NarrateTells(w, v, t);
        SetStatusTells(w, Narrate(v, t), t, if w.threads[t].iterations != [] then PreviewReady else Open);
      }
    case DoReplay(i) =>
      var v := SetRow(w, i, ReplayRow(w.tasks[i]));
      NarrateTells(w, v, w.tasks[i].thread);
      SetStatusTells(w, Narrate(v, w.tasks[i].thread), w.tasks[i].thread, Triggered);
    case DoFail(i) => FailTells(DropRun(w, i), i);
    case DoClaim(_) =>
    case DoBeat(_) =>
    case DoCode(i) => SetStatusTells(w, SetPhase(w, i, Phase.Coding), w.tasks[i].thread, ThreadStatus.Coding);
    case DoPush(i) => SetStatusTells(w, SetPhase(w, i, Phase.Deploying), w.tasks[i].thread, ThreadStatus.Deploying);
    case DoUnwind(_) =>
    case DoVanish(_) =>
  }

  // The steps that write something a user or a handler produced.
  predicate Writes(s: Step)
  {
    s.DoOpen? || s.DoPost? || s.DoRecord? || s.DoDeploy? || s.DoTick?
  }

  lemma StepTells(w: World, s: Step)
    requires Enabled(w, s) && !Writes(s)
    ensures Tells(w, Next(w, s))
  {
    if s.DoStart? {
      StartTells(w, s.task);
    } else if s.DoReap? {
      ReapTells(w, ExpiredIds(w.tasks, w.clock, |w.tasks|));
    } else if s.DoRestart? {
      RecoverTells(Crashed(w), |w.threads|);
    } else if IsFlowStep(s) {
      FlowStepTells(w, s);
    } else {
      RowStepTells(w, s);
    }
  }

  // A handler that records writes one iteration row; the rest of its segment only narrates.
  lemma RecordTells(w: World, i: nat)
    requires HandlerAt(w, i) && w.live[i].phase.Deployed?
    ensures Tells(RowLands(w, i), Record(w, i))
  {
    var t := w.tasks[i].thread;
    var v := Recorded(w, i);
    assert Tells(RowLands(w, i), v);
    DrainTells(v, t);
    TellsTransitive(RowLands(w, i), v, DrainPending(v, t));
  }

  // A comment adds one entry to its thread's log; the rest of the segment only narrates.
  lemma PostTells(w: World, t: nat, mentions: bool, cap: Option<Sha>)
    requires t < |w.threads|
    ensures Closed(w.threads[t].status) ==> Post(w, t, mentions, cap) == w
    ensures !Closed(w.threads[t].status) ==>
      Tells(AddComment(w, t, Comment(false, mentions, cap)), Post(w, t, mentions, cap))
  {
    if !Closed(w.threads[t].status) {
      OnCommentTells(AddComment(w, t, Comment(false, mentions, cap)), t, |w.threads[t].comments|);
    }
  }
}
