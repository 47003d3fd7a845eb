/**
 No stranded ask: without cancel_run, a thread at rest has no @agent comment that no task has
 covered, so when a PR opens every ask is in some iteration or sits in the dead-letter queue.
 With cancel_run, exactly when that can fail.
 */
module Asks {
  import opened Domain
  import opened TaskTable
  import opened Protocol
  import opened Safety
  import opened Journal
  import opened Evolution
  import opened Conservation
  import opened Lifecycle
  import opened Guarantees

  predicate AtRest(s: ThreadStatus) { !InFlight(s) && !s.Failed? }

  ghost predicate AllCovered(th: Thread, rows: seq<Task>, t: nat)
  {
    forall c: nat :: IsAsk(th, c) ==> Covered(rows, t, c)
  }

  ghost predicate Answered(w: World)
  {
    forall t: nat :: t < |w.threads| && AtRest(w.threads[t].status) ==> AllCovered(w.threads[t], w.tasks, t)
  }

  // A thread comes to rest only from rest.
  ghost predicate RestsFromRest(w: World, v: World)
  {
    |v.threads| == |w.threads|
    && forall t: nat :: t < |w.threads| && AtRest(v.threads[t].status) ==> AtRest(w.threads[t].status)
  }

  lemma CoveredPersists(a: seq<Task>, b: seq<Task>, t: nat, c: nat)
    requires RowsGrow(a, b) && Covered(a, t, c)
    ensures Covered(b, t, c)
  {
    var i :| 0 <= i < |a| && CoveredBy(a, t, c, i);
    assert CoveredBy(b, t, c, i);
  }

  lemma RestKeepsAnswered(w: World, v: World)
    requires Answered(w) && RestsFromRest(w, v) && Narrated(w.threads, v.threads) && RowsGrow(w.tasks, v.tasks)
    ensures Answered(v)
  {
    forall t: nat, c: nat | t < |v.threads| && AtRest(v.threads[t].status) && IsAsk(v.threads[t], c)
      ensures Covered(v.tasks, t, c)
    {
      AsksUnchanged(w.threads, v.threads, t, c);
      CoveredPersists(w.tasks, v.tasks, t, c);
    }
  }

  // A drain leaves no uncovered ask on a thread that stays at rest.
  lemma DrainAnswers(u: World, t: nat)
    requires Safe(u) && t < |u.threads| && !Closed(u.threads[t].status)
    ensures AtRest(DrainPending(u, t).threads[t].status) ==> AllCovered(u.threads[t], u.tasks, t)
    ensures DrainPending(u, t).threads[t].status == u.threads[t].status || DrainPending(u, t).threads[t].status.Triggered?
  {
    var th := u.threads[t];
    var pending := PendingIds(th, u.tasks, t, |th.comments|);
    if pending == [] {
      forall c: nat | IsAsk(th, c)
        ensures Covered(u.tasks, t, c)
      {
        assert c !in pending;
        if Addressed(th, c) {
          var k: nat :| k < |th.iterations| && c in th.iterations[k].cids;
          assert HasSource(u.tasks, t, th.iterations[k].cids);
          var j: nat :| SourceOf(u.tasks, t, th.iterations[k].cids, j);
          assert CoveredBy(u.tasks, t, c, j);
        }
      }
    } else {
      assert pending[|pending| - 1] in pending;
      SubmitAlwaysSubmits(Narrate(u, t), t, pending);
    }
  }

  // A handler that returns through a drain.
  lemma ReturnKeepsAnswered(w: World, u: World, t: nat)
    requires Answered(w) && Safe(u) && t < |u.threads| && u.threads[t].status.PreviewReady?
    requires |u.threads| == |w.threads| && u.tasks == w.tasks
    requires forall s: nat :: s < |w.threads| && s != t ==> u.threads[s] == w.threads[s]
    ensures Answered(DrainPending(u, t))
  {
    var v := DrainPending(u, t);
    DrainAnswers(u, t);
    DrainTells(u, t);
    DrainDoes(u, t);
    RowsOnlyGrow(u.tasks, DrainOps(u, t));
    DrainCalmAside(u, t);
    forall s: nat, c: nat | s < |v.threads| && AtRest(v.threads[s].status) && IsAsk(v.threads[s], c)
      ensures Covered(v.tasks, s, c)
    {
      AsksUnchanged(u.threads, v.threads, s, c);
      assert s != t ==> v.threads[s] == w.threads[s];
      CoveredPersists(u.tasks, v.tasks, s, c);
    }
  }

  lemma DrainCalmAside(u: World, t: nat)
    requires t < |u.threads|
    ensures |DrainPending(u, t).threads| == |u.threads|
    ensures forall s: nat :: s < |u.threads| && s != t ==> DrainPending(u, t).threads[s] == u.threads[s]
  {
  }

  lemma PostKeepsAnswered(w: World, t: nat, mentions: bool, cap: Option<Sha>)
    requires Safe(w) && Calm(w) && Answered(w) && t < |w.threads|
    ensures Answered(Post(w, t, mentions, cap))
  {
    if !Closed(w.threads[t].status) {
      PostIsCommented(w, t, mentions, cap);
      CommentedAnswered(w, t, mentions, cap);
    }
  }

  lemma CommentedAnswered(w: World, t: nat, mentions: bool, cap: Option<Sha>)
    requires Safe(w) && Calm(w) && Answered(w) && t < |w.threads| && !Closed(w.threads[t].status)
    ensures Answered(Commented(w, t, mentions, cap))
  {
    var v := Commented(w, t, mentions, cap);
    assert CalmAt(w, t);
    if InFlight(w.threads[t].status) { var o := TheOutstanding(w, t); }
    CommentedGrows(w, t, mentions, cap);
    forall s: nat, c: nat | s < |v.threads| && AtRest(v.threads[s].status) && IsAsk(v.threads[s], c)
      ensures Covered(v.tasks, s, c)
    {
      if s == t {
        assert !mentions && AtRest(w.threads[t].status);
        assert c < |w.threads[t].comments|;
        assert IsAsk(w.threads[t], c);
      }
      CoveredPersists(w.tasks, v.tasks, s, c);
    }
  }

  lemma CommentedGrows(w: World, t: nat, mentions: bool, cap: Option<Sha>)
    requires Safe(w) && t < |w.threads| && !Closed(w.threads[t].status)
    ensures RowsGrow(w.tasks, Commented(w, t, mentions, cap).tasks)
  {
    PostIsCommented(w, t, mentions, cap);
    PostDoes(w, t, mentions, cap);
    RowsOnlyGrow(w.tasks, PostOps(w, t, mentions));
  }

  lemma OpenKeepsAnswered(w: World, mentions: bool, cap: Option<Sha>)
    requires Safe(w) && Calm(w) && Answered(w)
    ensures Answered(OpenThread(w, mentions, cap))
  {
    var base := if cap.Some? then cap.value else w.cfg.mainSha;
    var t := |w.threads|;
    var u := w.(threads := w.threads + [Thread(base, Open, [Open], [], [], None, None)]);
    ThreadsOnly(w, u);
    forall i: nat
      ensures !ActiveIn(u.tasks, t, i)
    {
      if i < |u.tasks| { assert RowOk(w.cfg, w.clock, w.threads, w.tasks[i]); }
    }
    assert CalmAt(u, t);
    AsideIsCalm(w, u, t);
    forall s: nat, c: nat | s < |u.threads| && AtRest(u.threads[s].status) && IsAsk(u.threads[s], c)
      ensures Covered(u.tasks, s, c)
    {
      assert s < t && IsAsk(w.threads[s], c);
    }
    PostKeepsAnswered(u, t, mentions, cap);
  }

  lemma StartKeepsAnswered(w: World, i: nat)
    requires Safe(w) && Calm(w) && Answered(w) && Enabled(w, DoStart(i))
    ensures Answered(StartRun(w, i))
  {
    var t := w.tasks[i].thread;
    assert InFlight(w.threads[t].status) by { LiveIsOutstanding(w, i); }
    hide Safe, Calm, Answered, DrainPending;
    StartRunIs(w, i);
    if Addressed(w.threads[t], w.live[i].cids[|w.live[i].cids| - 1]) {
      RepairedKeeps(w, i);
      ReturnKeepsAnswered(w, Repaired(w, i), t);
    } else {
      AnalyzeKeepsAnswered(w, i);
    }
  }

  lemma AnalyzeKeepsAnswered(w: World, i: nat)
    requires Answered(w) && HandlerAt(w, i) && InFlight(w.threads[w.tasks[i].thread].status)
    requires !Addressed(w.threads[w.tasks[i].thread], w.live[i].cids[|w.live[i].cids| - 1])
    ensures Answered(StartRun(w, i))
  {
    StartTells(w, i);
    assert RestsFromRest(w, StartRun(w, i));
    RestKeepsAnswered(w, StartRun(w, i));
  }

  lemma RepairedKeeps(w: World, i: nat)
    requires Safe(w) && HandlerAt(w, i) && w.live[i].phase.Spawned?
    requires Addressed(w.threads[w.tasks[i].thread], w.live[i].cids[|w.live[i].cids| - 1])
    ensures Safe(Repaired(w, i))
  {
    var run := w.live[i].(phase := Finished);
    assert LiveOk(w, i);
    AddressedIsApplied(w, i);
    PhaseKeeps(w, i, run);
    ThreadsOnly(w.(live := w.live[i := run]), Repaired(w, i));
  }

  lemma RecordKeepsAnswered(w: World, i: nat)
    requires Safe(w) && Answered(w) && Enabled(w, DoRecord(i))
    ensures Answered(Record(w, i))
  {
    var u := Recorded(w, i);
    RowLandsKeeps(w, i);
    ThreadsOnly(RowLands(w, i), u);
    ReturnKeepsAnswered(w, u, w.tasks[i].thread);
  }

  // ---- steps that bring no busy thread to rest ------------------------------------------------

  lemma {:induction false} ReapRests(w: World, ids: seq<nat>)
    requires ThreadsResolve(w, ids)
    ensures RestsFromRest(w, ReapAll(w, ids))
    decreases |ids|
  {
    if ids != [] {
      assert ids[0] in ids && forall i :: i in ids[1..] ==> i in ids;
      ReapRests(FailTask(w, ids[0]), ids[1..]);
      assert RestsFromRest(w, FailTask(w, ids[0]));
    }
  }

  lemma FlowLandsRests(w: World, f: nat)
    requires FlowAt(w, f) && AtRest(w.threads[w.flows[f].thread].status)
    ensures RestsFromRest(w, FlowLands(w, f)) && RestsFromRest(w, FlowOpenFailed(w, f))
  {
  }

  lemma FlowTellsRest(w: World, f: nat, url: nat, p: FlowPhase)
    requires FlowAt(w, f)
    ensures RestsFromRest(w, FlowOpened(w, f, url)) && RestsFromRest(w, SetFlow(Narrate(w, w.flows[f].thread), f, p))
  {
  }

  lemma FlowMovesAtRest(w: World, s: Step)
    requires Enabled(w, s) && IsFlowStep(s) && !s.DoApprove? && !s.DoFlowResumes?
    requires AtRest(w.threads[w.flows[s.flow].thread].status)
    ensures RestsFromRest(w, Next(w, s))
  {
    match s
    case DoFlowOpened(f, url) => FlowTellsRest(w, f, url, AwaitCi);
    case DoFlowOpenFailed(f) => FlowLandsRests(w, f);
    case DoFlowLands(f) => FlowLandsRests(w, f);
    case DoFlowCi(f) => FlowTellsRest(w, f, 0, Merging);
    case DoFlowBroke(f) => FlowTellsRest(w, f, 0, Stalled);
  }

  lemma FlowStepRests(w: World, s: Step)
    requires Safe(w) && Calm(w) && Enabled(w, s) && IsFlowStep(s) && !s.DoApprove?
    ensures RestsFromRest(w, Next(w, s))
  {
    var f := s.flow;
    assert CalmAt(w, w.flows[f].thread) && HasFlow(w, w.flows[f].thread, f);
    FlowMovesAtRest(w, s);
  }

  lemma RowStepRests(w: World, s: Step)
    requires Enabled(w, s)
    requires s.DoApprove? || s.DoReplay? || s.DoClaim? || s.DoBeat? || s.DoTick? || s.DoCode? || s.DoPush? || s.DoDeploy?
      || s.DoUnwind? || s.DoFail? || s.DoVanish?
    ensures RestsFromRest(w, Next(w, s)) && (s.DoTick? || s.DoDeploy? ==> Next(w, s).threads == w.threads)
  {
  }

  lemma RestingStep(w: World, s: Step)
    requires Safe(w) && Calm(w) && Enabled(w, s) && CalmStep(w, s)
    requires !s.DoCancelRun? && !s.DoOpen? && !s.DoPost? && !s.DoStart? && !s.DoRecord?
    ensures RestsFromRest(w, Next(w, s)) && Narrated(w.threads, Next(w, s).threads)
  {
    hide Safe, Calm, RestsFromRest;
    if s.DoReap? {
      ReapRests(w, ExpiredIds(w.tasks, w.clock, |w.tasks|));
      StepTells(w, s);
    } else if IsFlowStep(s) && !s.DoApprove? {
      FlowStepRests(w, s);
      StepTells(w, s);
    } else {
      RowStepRests(w, s);
      if !s.DoTick? && !s.DoDeploy? { StepTells(w, s); }
    }
  }

  lemma StepKeepsAnswered(w: World, s: Step)
    requires Safe(w) && Calm(w) && Answered(w) && Enabled(w, s) && CalmStep(w, s) && !s.DoCancelRun?
    ensures Answered(Next(w, s))
  {
    if s.DoOpen? {
      OpenKeepsAnswered(w, s.mentions, s.cap);
    } else if s.DoPost? {
      PostKeepsAnswered(w, s.thread, s.mentions, s.cap);
    } else if s.DoStart? {
      StartKeepsAnswered(w, s.task);
    } else if s.DoRecord? {
      RecordKeepsAnswered(w, s.task);
    } else {
      RestingStep(w, s);
      StepDoes(w, s);
      RowsOnlyGrow(w.tasks, OpsOf(w, s));
      RestKeepsAnswered(w, Next(w, s));
    }
  }

  ghost predicate NoCancelRun(steps: seq<Step>)
  {
    forall k :: 0 <= k < |steps| ==> !steps[k].DoCancelRun?
  }

  lemma {:induction false} RunKeepsAnswered(w: World, steps: seq<Step>)
    requires Safe(w) && Calm(w) && Answered(w) && CalmRun(w, steps) && IsRun(w, steps) && NoCancelRun(steps)
    ensures Answered(Exec(w, steps))
    decreases |steps|
  {
    if steps != [] {
      StepKeepsAnswered(w, steps[0]);
      StepCalm(w, steps[0]);
      StepKeeps(w, steps[0]);
      RunKeepsAnswered(Next(w, steps[0]), steps[1..]);
    }
  }

  // A thread in PREVIEW_READY or OPEN, or past its approval, has no pending ask.
  lemma NoStrandedAsk(cfg: Config, steps: seq<Step>, t: nat, c: nat)
    requires ConfigOk(cfg) && CalmRun(Initial(cfg), steps) && IsRun(Initial(cfg), steps) && NoCancelRun(steps)
    requires t < |Exec(Initial(cfg), steps).threads|
    ensures
      var w := Exec(Initial(cfg), steps);
      AtRest(w.threads[t].status) ==> !Pending(w.threads[t], w.tasks, t, c)
  {
    InitialIsCalm(cfg, steps);
    RunKeepsAnswered(Initial(cfg), steps);
  }

  lemma {:induction false} NothingDropped(w: World, steps: seq<Step>, t: nat, c: nat)
    requires Safe(w) && IsRun(w, steps) && NoCancelRun(steps) && !Lost(w.tasks, t, c)
    ensures !Lost(Exec(w, steps).tasks, t, c)
    decreases |steps|
  {
    if steps != [] {
      StepDoes(w, steps[0]);
      StepKeeps(w, steps[0]);
      forall k: nat | k < |OpsOf(w, steps[0])|
        ensures !OpsOf(w, steps[0])[k].Stopped?
      {
        if OpsOf(w, steps[0])[k].Stopped? { OnlyCancelRunDrops(w, steps[0], k); }
      }
      WithoutStopsNothingDrops(w.tasks, OpsOf(w, steps[0]), t, c);
      OpsConserve(w.tasks, OpsOf(w, steps[0]), t, c);
      NothingDropped(Next(w, steps[0]), steps[1..], t, c);
    }
  }

  lemma {:induction false} WithoutStopsNothingDrops(rows: seq<Task>, ops: seq<Op>, t: nat, c: nat)
    requires Legal(rows, ops) && forall k :: 0 <= k < |ops| ==> !ops[k].Stopped?
    ensures !Dropped(rows, ops, t, c)
    decreases |ops|
  {
    if ops != [] {
      WithoutStopsNothingDrops(ApplyOp(rows, ops[0]), ops[1..], t, c);
    }
  }

  // When a PR opens, every ask of the thread is in an iteration or in a dead-lettered task.
  lemma PrOpensWithEveryAskPlaced(cfg: Config, steps: seq<Step>, t: nat, c: nat)
    requires ConfigOk(cfg) && CalmRun(Initial(cfg), steps) && IsRun(Initial(cfg), steps) && NoCancelRun(steps)
    requires t < |Exec(Initial(cfg), steps).threads| && IsAsk(Exec(Initial(cfg), steps).threads[t], c)
    requires AtRest(Exec(Initial(cfg), steps).threads[t].status)
    ensures
      var w := Exec(Initial(cfg), steps);
      Addressed(w.threads[t], c) || exists i: nat :: Holds(w.tasks, t, c, i) && w.tasks[i].state.Dlq?
  {
    InitialIsCalm(cfg, steps);
    RunKeepsAnswered(Initial(cfg), steps);
    NothingDropped(Initial(cfg), steps, t, c);
    var w := Exec(Initial(cfg), steps);
    var i: nat :| Holds(w.tasks, t, c, i);
    assert CalmAt(w, t);
    assert !Outstanding(w, t, i);
    if w.tasks[i].state.Running? {
      assert LiveOk(w, i);
    }
    if !w.tasks[i].state.Dlq? {
      assert Applied(w.threads[t], w.tasks[i].cids);
      var k :| 0 <= k < |w.threads[t].iterations| && Within(w.tasks[i].cids, w.threads[t].iterations[k].cids);
      assert c in w.threads[t].iterations[k].cids;
    }
  }

  // cancel_run leaves an ask pending on a thread at rest exactly when the drain has something to
  // pick up at the call.
  lemma CancelRunStrandsIff(w: World, t: nat, who: Permission)
    requires t < |w.threads| && CanCancel(w, t, who)
    ensures
      var v := CancelRun(w, t, who);
      && AtRest(v.threads[t].status)
      && ((exists c: nat :: Pending(v.threads[t], v.tasks, t, c)) <==>
            PendingIds(w.threads[t], w.tasks, t, |w.threads[t].comments|) != [])
  {
    var v := CancelRun(w, t, who);
    var th := w.threads[t];
    var waiting := PendingIds(th, w.tasks, t, |th.comments|);
    assert forall c: nat, i: nat :: CoveredBy(v.tasks, t, c, i) <==> CoveredBy(w.tasks, t, c, i);
    assert forall c: nat :: Covered(v.tasks, t, c) <==> Covered(w.tasks, t, c);
    assert v.threads[t].iterations == th.iterations && v.threads[t].comments == th.comments + [NARRATION];
    assert forall c: nat :: Pending(v.threads[t], v.tasks, t, c) <==> Pending(th, w.tasks, t, c);
    if waiting != [] {
      assert waiting[0] in waiting;
    } else {
      assert forall c: nat :: Pending(th, w.tasks, t, c) ==> c in waiting;
    }
  }

  // Whatever was pending, a drain puts it in a new queued task: nothing stays stranded past it.
  lemma DrainTakesEveryPendingAsk(w: World, t: nat, c: nat)
    requires t < |w.threads| && !Closed(w.threads[t].status) && !w.threads[t].status.Failed?
    requires Pending(w.threads[t], w.tasks, t, c)
    ensures
      var v := DrainPending(w, t);
      && |v.tasks| == |w.tasks| + 1 && v.threads[t].status.Triggered?
      && v.tasks[|w.tasks|].state.Queued? && Holds(v.tasks, t, c, |w.tasks|)
      && forall d: nat :: !Pending(v.threads[t], v.tasks, t, d)
  {
    var th := w.threads[t];
    var pending := PendingIds(th, w.tasks, t, |th.comments|);
    assert c in pending && pending[|pending| - 1] in pending;
    SubmitAlwaysSubmits(Narrate(w, t), t, pending);
    var v := DrainPending(w, t);
    assert v.tasks == w.tasks + [NewTask(t, pending, w.cfg.maxAttempts, w.clock)];
    assert v.threads[t].comments == th.comments + [NARRATION] && v.threads[t].iterations == th.iterations;
    forall d: nat | IsAsk(th, d) && !Addressed(th, d)
      ensures Covered(v.tasks, t, d)
    {
      if Covered(w.tasks, t, d) {
        var i :| 0 <= i < |w.tasks| && CoveredBy(w.tasks, t, d, i);
        assert CoveredBy(v.tasks, t, d, i);
      } else {
        assert d in pending && CoveredBy(v.tasks, t, d, |w.tasks|);
      }
    }
  }
}
