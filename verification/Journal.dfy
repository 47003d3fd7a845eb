/**
 What a step does to the task table, as a list of guarded operations. Every property of the
 table over whole runs (the delivery ledger, conservation of asks, no resurrection, quiescence)
 is then a property of these nine operations.
 */
module Journal {
  import opened Domain
  import opened TaskTable
  import opened Protocol
  import opened Safety

  datatype Op =
    | Claimed(i: nat, worker: nat, leaseMs: nat, now: nat)
    | Beaten(i: nat, worker: nat, leaseMs: nat, now: nat)
    | Completed(i: nat)
    | Failed(i: nat)
    | Replayed(i: nat)
    | Stopped(i: nat)                                  // cancel_run
    | Coalesced(i: nat, c: nat)
    | Interrupted(i: nat, c: nat, max: nat, now: nat)  // cancel, combine, resubmit
    | Submitted(t: nat, cids: seq<nat>, max: nat, now: nat)

  // The guard each operation finds satisfied.
  ghost predicate OpOk(rows: seq<Task>, op: Op)
  {
    match op
    case Claimed(i, _, _, _) => i < |rows| && rows[i].state.Queued?
    case Beaten(i, _, _, _) => i < |rows|
    case Completed(i) => i < |rows| && rows[i].state.Running?
    case Failed(i) => i < |rows| && rows[i].state.Running?
    case Replayed(i) => i < |rows| && rows[i].state.Dlq?
    case Stopped(i) => i < |rows| && IsActive(rows[i])
    case Coalesced(i, c) => i < |rows| && rows[i].state.Queued? && !Covered(rows, rows[i].thread, c)
    case Interrupted(i, c, _, _) => i < |rows| && rows[i].state.Running? && !Covered(rows, rows[i].thread, c)
    case Submitted(t, cids, _, _) => cids != [] && NoDup(cids) && forall c :: c in cids ==> !Covered(rows, t, c)
  }

  function ApplyOp(rows: seq<Task>, op: Op): seq<Task>
    requires !op.Submitted? ==> op.i < |rows|
  {
    match op
    case Claimed(i, worker, leaseMs, now) => rows[i := ClaimRow(rows[i], worker, leaseMs, now)]
    case Beaten(i, worker, leaseMs, now) => rows[i := BeatRow(rows[i], worker, leaseMs, now)]
    case Completed(i) => rows[i := CompleteRow(rows[i])]
    case Failed(i) => rows[i := FailRow(rows[i])]
    case Replayed(i) => rows[i := ReplayRow(rows[i])]
    case Stopped(i) => rows[i := CancelRow(rows[i])]
    case Coalesced(i, c) => rows[i := CoalesceRow(rows[i], c)]
    case Interrupted(i, c, max, now) =>
      rows[i := CancelRow(rows[i])] + [NewTask(rows[i].thread, rows[i].cids + [c], max, now)]
    case Submitted(t, cids, max, now) => rows + [NewTask(t, cids, max, now)]
  }

  ghost predicate Legal(rows: seq<Task>, ops: seq<Op>)
    decreases |ops|
  {
    ops == [] || (OpOk(rows, ops[0]) && Legal(ApplyOp(rows, ops[0]), ops[1..]))
  }

  ghost function Apply(rows: seq<Task>, ops: seq<Op>): seq<Task>
    requires Legal(rows, ops)
    decreases |ops|
  {
    if ops == [] then rows else Apply(ApplyOp(rows, ops[0]), ops[1..])
  }

  lemma {:induction false} ApplyConcat(rows: seq<Task>, a: seq<Op>, b: seq<Op>)
    requires Legal(rows, a) && Legal(Apply(rows, a), b)
    ensures Legal(rows, a + b) && Apply(rows, a + b) == Apply(Apply(rows, a), b)
    decreases |a|
  {
    if a == [] {
      assert a + b == b;
    } else {
      ApplyConcat(ApplyOp(rows, a[0]), a[1..], b);
      assert (a + b)[1..] == a[1..] + b;
    }
  }

  // ---- the operations of each step --------------------------------------------------------

  ghost function CommentOps(w: World, t: nat, c: nat): seq<Op>
    requires t < |w.threads|
  {
    match (if InFlight(w.threads[t].status) then ActiveTask(w.tasks, t) else None)
    case None => [Submitted(t, [c], w.cfg.maxAttempts, w.clock)]
    case Some(i) =>
      if w.tasks[i].state.Queued? then [Coalesced(i, c)]
      else if Interruptible(w.threads[t].status) then [Interrupted(i, c, w.cfg.maxAttempts, w.clock)]
      else []
  }

  ghost function PostOps(w: World, t: nat, mentions: bool): seq<Op>
    requires t < |w.threads|
  {
    if Closed(w.threads[t].status) || !mentions then [] else CommentOps(w, t, |w.threads[t].comments|)
  }

  ghost function DrainOps(w: World, t: nat): seq<Op>
    requires t < |w.threads|
  {
    var th := w.threads[t];
    var pending := PendingIds(th, w.tasks, t, |th.comments|);
    if Closed(th.status) || th.status.Failed? || pending == [] then []
    else [Submitted(t, pending, w.cfg.maxAttempts, w.clock)]
  }

  ghost function RecoverThreadOps(w: World, t: nat): seq<Op>
    requires t < |w.threads|
  {
    if ActiveTask(w.tasks, t).Some? then [] else DrainOps(w, t)
  }

  ghost function RecoverOps(w: World, n: nat): seq<Op>
    requires n <= |w.threads|
  {
    if n == 0 then []
    else
      RecoverOps(w, n - 1) + RecoverThreadOps(RecoverUpTo(w, n - 1), n - 1)
  }

  ghost function ReapOps(ids: seq<nat>): seq<Op>
  {
    seq(|ids|, k requires 0 <= k < |ids| => Op.Failed(ids[k]))
  }

  ghost function OpsOf(w: World, s: Step): seq<Op>
    requires Enabled(w, s)
  {
    match s
    case DoOpen(mentions, cap) =>
      var base := if cap.Some? then cap.value else w.cfg.mainSha;
      var owner := OwnerOf(w.threads, base, |w.threads|);
      if owner.Some? && Closed(w.threads[owner.value].status) then []
      else PostOps(w.(threads := w.threads + [Thread(base, Open, [Open], [], [], None, None)]), |w.threads|, mentions)
    case DoPost(t, mentions, _) => PostOps(w, t, mentions)
    case DoCancelRun(t, who) => if CanCancel(w, t, who) then [Stopped(ActiveTask(w.tasks, t).value)] else []
    case DoReplay(i) => if w.tasks[i].state.Dlq? then [Replayed(i)] else []
    case DoClaim(k) =>
      var q := OldestQueued(w.tasks, |w.tasks|);
      if q.Some? then [Claimed(q.value, k, w.cfg.leaseMs, w.clock)] else []
    case DoBeat(i) => [Beaten(i, w.live[i].worker, w.cfg.leaseMs, w.clock)]
    case DoStart(i) =>
      var t := w.tasks[i].thread;
      if Addressed(w.threads[t], w.live[i].cids[|w.live[i].cids| - 1])
      then DrainOps(if InFlight(w.threads[t].status) then SetStatus(w, t, PreviewReady) else w, t)
      else []
    case DoRecord(i) => DrainOps(Recorded(w, i), w.tasks[i].thread)
    case DoUnwind(i) => if w.live[i].phase.Finished? && w.tasks[i].state.Running? then [Completed(i)] else []
    case DoFail(i) => [Op.Failed(i)]
    case DoReap => ReapOps(ExpiredIds(w.tasks, w.clock, |w.tasks|))
    case DoRestart => RecoverOps(Crashed(w), |w.threads|)
    case _ => []
  }

  // The world between the iteration row and the drain that follows it.
  function Recorded(w: World, i: nat): World
    requires HandlerAt(w, i) && w.live[i].phase.Deployed?
  {
    var t := w.tasks[i].thread;
    SetPhase(SetStatus(Narrate(AddIteration(w, t,
      Iteration(w.live[i].phase.sha, w.live[i].parent, w.live[i].cids, w.live[i].phase.patch)), t), t, PreviewReady), i, Finished)
  }

  function Crashed(w: World): World
  {
    w.(live := map[], flows := seq(|w.flows|, f requires 0 <= f < |w.flows| => Kill(w.flows[f])))
  }

  // ---- and they are what the step does ------------------------------------------------------

  lemma ApplyOne(rows: seq<Task>, op: Op)
    requires OpOk(rows, op)
    ensures Legal(rows, [op]) && Apply(rows, [op]) == ApplyOp(rows, op)
  {
    assert [op][1..] == [];
  }

  // The duplicate guard of a submission is never met: the newest comment is uncovered.
  lemma SubmitAlwaysSubmits(w: World, t: nat, cids: seq<nat>)
    requires t < |w.threads| && cids != [] && !Covered(w.tasks, t, cids[|cids| - 1])
    ensures Submit(w, t, cids) == AddTask(SetStatus(w, t, Triggered), t, cids)
  {
    var existing := ActiveTask(w.tasks, t);
    if existing.Some? {
      assert !CoveredBy(w.tasks, t, cids[|cids| - 1], existing.value);
    }
  }

  lemma DrainDoes(w: World, t: nat)
    requires t < |w.threads|
    ensures Legal(w.tasks, DrainOps(w, t))
    ensures DrainPending(w, t).tasks == Apply(w.tasks, DrainOps(w, t))
  {
    var th := w.threads[t];
    var pending := PendingIds(th, w.tasks, t, |th.comments|);
    if !(Closed(th.status) || th.status.Failed? || pending == []) {
      assert pending[|pending| - 1] in pending;
      assert forall c :: c in pending ==> Pending(th, w.tasks, t, c);
      SubmitAlwaysSubmits(Narrate(w, t), t, pending);
      ApplyOne(w.tasks, Submitted(t, pending, w.cfg.maxAttempts, w.clock));
    }
  }

  lemma InterruptDoes(w: World, t: nat, i: nat, c: nat)
    requires Safe(w) && t < |w.threads| && ActiveIn(w.tasks, t, i)
    requires IsAsk(w.threads[t], c) && !Covered(w.tasks, t, c)
    ensures Submit(Narrate(CancelTask(w, i), t), t, Dedup(w.tasks[i].cids + [c]))
         == AddTask(SetStatus(Narrate(CancelTask(w, i), t), t, Triggered), t, w.tasks[i].cids + [c])
  {
    InterruptKeeps(w, t, i, c);
    var u := Narrate(CancelTask(w, i), t);
    assert forall k: nat :: CoveredBy(u.tasks, t, c, k) ==> CoveredBy(w.tasks, t, c, k);
    SubmitAlwaysSubmits(u, t, w.tasks[i].cids + [c]);
  }

  lemma CommentDoes(v: World, t: nat, c: nat)
    requires Safe(v) && t < |v.threads| && !Closed(v.threads[t].status)
    requires IsAsk(v.threads[t], c) && !Covered(v.tasks, t, c)
    ensures Legal(v.tasks, CommentOps(v, t, c))
    ensures OnComment(v, t, c).tasks == Apply(v.tasks, CommentOps(v, t, c))
  {
    hide Safe;
    var active := if InFlight(v.threads[t].status) then ActiveTask(v.tasks, t) else None;
    if active.None? {
      SubmitAlwaysSubmits(v, t, [c]);
      ApplyOne(v.tasks, Submitted(t, [c], v.cfg.maxAttempts, v.clock));
    } else if v.tasks[active.value].state.Queued? {
      ApplyOne(v.tasks, Coalesced(active.value, c));
    } else if Interruptible(v.threads[t].status) {
      InterruptDoes(v, t, active.value, c);
      ApplyOne(v.tasks, Interrupted(active.value, c, v.cfg.maxAttempts, v.clock));
    }
  }

  lemma PostDoes(w: World, t: nat, mentions: bool, cap: Option<Sha>)
    requires Safe(w) && t < |w.threads|
    ensures Legal(w.tasks, PostOps(w, t, mentions))
    ensures Post(w, t, mentions, cap).tasks == Apply(w.tasks, PostOps(w, t, mentions))
  {
    var th := w.threads[t];
    if !Closed(th.status) && mentions {
      var c := |th.comments|;
      var v := AddComment(w, t, Comment(false, mentions, cap));
      ThreadsOnly(w, v);
      LogTopIsUncovered(w, t);
      CommentDoes(v, t, c);
    }
  }

  lemma OpenDoes(w: World, mentions: bool, cap: Option<Sha>)
    requires Safe(w)
    ensures Legal(w.tasks, OpsOf(w, DoOpen(mentions, cap)))
    ensures OpenThread(w, mentions, cap).tasks == Apply(w.tasks, OpsOf(w, DoOpen(mentions, cap)))
  {
    var base := if cap.Some? then cap.value else w.cfg.mainSha;
    var v := w.(threads := w.threads + [Thread(base, Open, [Open], [], [], None, None)]);
    ThreadsOnly(w, v);
    PostDoes(v, |w.threads|, mentions, cap);
  }

  lemma {:induction false} ReapDoes(w: World, ids: seq<nat>)
    requires Overdue(w, ids) && ThreadsResolve(w, ids)
    ensures Legal(w.tasks, ReapOps(ids))
    ensures ReapAll(w, ids).tasks == Apply(w.tasks, ReapOps(ids))
    decreases |ids|
  {
    if ids != [] {
      assert ids[0] in ids;
      assert forall i :: i in ids[1..] ==> i in ids && i != ids[0];
      ReapDoes(FailTask(w, ids[0]), ids[1..]);
      assert ReapOps(ids)[1..] == ReapOps(ids[1..]);
    }
  }

  lemma RecoverThreadDoes(w: World, t: nat)
    requires t < |w.threads|
    ensures Legal(w.tasks, RecoverThreadOps(w, t))
    ensures RecoverThread(w, t).tasks == Apply(w.tasks, RecoverThreadOps(w, t))
  {
    DrainDoes(w, t);
  }

  lemma {:induction false} RecoverDoes(w: World, n: nat)
    requires n <= |w.threads|
    ensures Legal(w.tasks, RecoverOps(w, n))
    ensures RecoverUpTo(w, n).tasks == Apply(w.tasks, RecoverOps(w, n))
  {
    hide RecoverThread, RecoverThreadOps;
    if n > 0 {
      RecoverDoes(w, n - 1);
      var v := RecoverUpTo(w, n - 1);
      RecoverThreadDoes(v, n - 1);
      ApplyConcat(w.tasks, RecoverOps(w, n - 1), RecoverThreadOps(v, n - 1));
    }
  }

  lemma RowStepDoes(w: World, s: Step)
    requires Safe(w) && Enabled(w, s)
    requires s.DoCancelRun? || s.DoReplay? || s.DoClaim? || s.DoBeat? || s.DoUnwind? || s.DoFail?
    ensures Legal(w.tasks, OpsOf(w, s))
    ensures Next(w, s).tasks == Apply(w.tasks, OpsOf(w, s))
  {
    if s.DoUnwind? || s.DoFail? { assert LiveOk(w, s.task); }
    if |OpsOf(w, s)| == 1 { ApplyOne(w.tasks, OpsOf(w, s)[0]); }
  }

  lemma HandlerStepDoes(w: World, s: Step)
    requires Safe(w) && Enabled(w, s) && (s.DoStart? || s.DoRecord?)
    ensures Legal(w.tasks, OpsOf(w, s))
    ensures Next(w, s).tasks == Apply(w.tasks, OpsOf(w, s))
  {
    hide Safe, DrainPending;
    var i := s.task;
    var t := w.tasks[i].thread;
    if s.DoRecord? {
      DrainDoes(Recorded(w, i), t);
    } else {
      var w1 := if InFlight(w.threads[t].status) then SetStatus(w, t, PreviewReady) else w;
      DrainDoes(SetPhase(w1, i, Finished), t);
    }
  }

  lemma FlowStepDoes(w: World, s: Step)
    requires Enabled(w, s) && IsFlowStep(s)
    ensures Next(w, s).tasks == w.tasks && OpsOf(w, s) == []
  {
  }

  lemma StillStepDoes(w: World, s: Step)
    requires Enabled(w, s)
    requires IsFlowStep(s) || s.DoTick? || s.DoCode? || s.DoPush? || s.DoDeploy? || s.DoVanish?
    ensures Next(w, s).tasks == w.tasks && OpsOf(w, s) == []
  {
    if IsFlowStep(s) { FlowStepDoes(w, s); }
  }

  lemma SweepStepDoes(w: World, s: Step)
    requires Safe(w) && Enabled(w, s) && (s.DoReap? || s.DoRestart?)
    ensures Legal(w.tasks, OpsOf(w, s))
    ensures Next(w, s).tasks == Apply(w.tasks, OpsOf(w, s))
  {
    if s.DoReap? {
      ReapDoes(w, ExpiredIds(w.tasks, w.clock, |w.tasks|));
    } else {
      RecoverDoes(Crashed(w), |w.threads|);
    }
  }

  lemma CommentStepDoes(w: World, s: Step)
    requires Safe(w) && Enabled(w, s) && (s.DoOpen? || s.DoPost?)
    ensures Legal(w.tasks, OpsOf(w, s))
    ensures Next(w, s).tasks == Apply(w.tasks, OpsOf(w, s))
  {
    if s.DoOpen? {
      OpenDoes(w, s.mentions, s.cap);
    } else {
      PostDoes(w, s.thread, s.mentions, s.cap);
    }
  }

  // A step's effect on the task table is exactly its operations, each meeting its guard.
  lemma StepDoes(w: World, s: Step)
    requires Safe(w) && Enabled(w, s)
    ensures Legal(w.tasks, OpsOf(w, s))
    ensures Next(w, s).tasks == Apply(w.tasks, OpsOf(w, s))
  {
    if s.DoOpen? || s.DoPost? {
      CommentStepDoes(w, s);
    } else if s.DoStart? || s.DoRecord? {
      HandlerStepDoes(w, s);
    } else if s.DoReap? || s.DoRestart? {
      SweepStepDoes(w, s);
    } else if s.DoCancelRun? || s.DoReplay? || s.DoClaim? || s.DoBeat? || s.DoUnwind? || s.DoFail? {
      RowStepDoes(w, s);
    } else {
      StillStepDoes(w, s);
    }
  }
}
