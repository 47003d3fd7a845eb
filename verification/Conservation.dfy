/**
 Asks and deliveries over whole runs, crashes and unrestricted replays included: the delivery
 ledger balances, no ask is lost or doubled, no cancelled ask comes back, and the effect of a
 task happens once.
 */
module Conservation {
  import opened Domain
  import opened TaskTable
  import opened Protocol
  import opened Safety
  import opened Journal
  import opened Evolution

  // Everything a run does to the task table.
  ghost function RunOps(w: World, steps: seq<Step>): seq<Op>
    requires IsRun(w, steps)
    decreases |steps|
  {
    if steps == [] then [] else OpsOf(w, steps[0]) + RunOps(Next(w, steps[0]), steps[1..])
  }

  lemma {:induction false} RunDoes(w: World, steps: seq<Step>)
    requires Safe(w) && IsRun(w, steps)
    ensures Legal(w.tasks, RunOps(w, steps))
    ensures Exec(w, steps).tasks == Apply(w.tasks, RunOps(w, steps))
    decreases |steps|
  {
    if steps != [] {
      StepDoes(w, steps[0]);
      StepKeeps(w, steps[0]);
      RunDoes(Next(w, steps[0]), steps[1..]);
      ApplyConcat(w.tasks, OpsOf(w, steps[0]), RunOps(Next(w, steps[0]), steps[1..]));
    }
  }

  // ---- delivery ledger ------------------------------------------------------------------

  function Claims(ops: seq<Op>, i: nat): nat
  {
    if ops == [] then 0 else (if ops[0].Claimed? && ops[0].i == i then 1 else 0) + Claims(ops[1..], i)
  }

  function Replays(ops: seq<Op>, i: nat): nat
  {
    if ops == [] then 0 else (if ops[0].Replayed? && ops[0].i == i then 1 else 0) + Replays(ops[1..], i)
  }

  ghost predicate Ledgered(rows: seq<Task>, max: nat)
  {
    forall i :: 0 <= i < |rows| ==> LedgerOk(rows[i]) && rows[i].maxAttempts == max
  }

  predicate Submits(op: Op, max: nat)
  {
    (op.Submitted? || op.Interrupted?) ==> op.max == max
  }

  function AttemptsOf(rows: seq<Task>, i: nat): nat
  {
    if i < |rows| then rows[i].attempts else 0
  }

  lemma OpLedger(rows: seq<Task>, op: Op, i: nat, max: nat)
    requires 1 <= max && Ledgered(rows, max) && OpOk(rows, op) && Submits(op, max)
    ensures Ledgered(ApplyOp(rows, op), max)
    ensures AttemptsOf(ApplyOp(rows, op), i) + max * Replays([op], i) == AttemptsOf(rows, i) + Claims([op], i)
  {
    assert [op][1..] == [];
  }

  lemma {:induction false} LedgerBalances(rows: seq<Task>, ops: seq<Op>, i: nat, max: nat)
    requires 1 <= max && Ledgered(rows, max) && Legal(rows, ops)
    requires forall k :: 0 <= k < |ops| ==> Submits(ops[k], max)
    ensures Ledgered(Apply(rows, ops), max)
    ensures AttemptsOf(Apply(rows, ops), i) + max * Replays(ops, i) == AttemptsOf(rows, i) + Claims(ops, i)
    decreases |ops|
  {
    if ops != [] {
      OpLedger(rows, ops[0], i, max);
      LedgerBalances(ApplyOp(rows, ops[0]), ops[1..], i, max);
      assert [ops[0]][1..] == [];
      var head, tail := Replays([ops[0]], i), Replays(ops[1..], i);
      assert Replays(ops, i) == head + tail && max * (head + tail) == max * head + max * tail;
    }
  }

  lemma RecoverSubmits(w: World, n: nat)
    requires n <= |w.threads|
    ensures forall k :: 0 <= k < |RecoverOps(w, n)| ==> Submits(RecoverOps(w, n)[k], w.cfg.maxAttempts)
  {
    hide RecoverThread;
    if n > 0 {
      RecoverTells(w, n - 1);
      RecoverSubmits(w, n - 1);
    }
  }

  lemma StepSubmits(w: World, s: Step)
    requires Enabled(w, s)
    ensures forall k :: 0 <= k < |OpsOf(w, s)| ==> Submits(OpsOf(w, s)[k], w.cfg.maxAttempts)
  {
    if s.DoRestart? { RecoverSubmits(Crashed(w), |w.threads|); }
  }

  lemma ConfigFixed(w: World, s: Step)
    requires Enabled(w, s)
    ensures Next(w, s).cfg == w.cfg
  {
    if !Writes(s) {
      StepTells(w, s);
    } else if s.DoRecord? {
      RecordTells(w, s.task);
    } else if s.DoPost? {
      PostTells(w, s.thread, s.mentions, s.cap);
    } else if s.DoOpen? {
      var base := if s.cap.Some? then s.cap.value else w.cfg.mainSha;
      PostTells(w.(threads := w.threads + [Thread(base, Open, [Open], [], [], None, None)]), |w.threads|, s.mentions, s.cap);
    }
  }

  lemma {:induction false} RunSubmits(w: World, steps: seq<Step>)
    requires IsRun(w, steps)
    ensures forall k :: 0 <= k < |RunOps(w, steps)| ==> Submits(RunOps(w, steps)[k], w.cfg.maxAttempts)
    decreases |steps|
  {
    if steps != [] {
      StepSubmits(w, steps[0]);
      ConfigFixed(w, steps[0]);
      RunSubmits(Next(w, steps[0]), steps[1..]);
    }
  }

  // For every task in every run: total claims = current attempts + max_attempts per replay.
  lemma DeliveryLedger(cfg: Config, steps: seq<Step>, i: nat)
    requires ConfigOk(cfg) && IsRun(Initial(cfg), steps)
    ensures i < |Exec(Initial(cfg), steps).tasks| ==>
      Claims(RunOps(Initial(cfg), steps), i) ==
        Exec(Initial(cfg), steps).tasks[i].attempts + cfg.maxAttempts * Replays(RunOps(Initial(cfg), steps), i)
    ensures forall r :: r in Exec(Initial(cfg), steps).tasks ==> LedgerOk(r) && r.maxAttempts == cfg.maxAttempts
  {
    var w := Initial(cfg);
    RunDoes(w, steps);
    RunSubmits(w, steps);
    LedgerBalances(w.tasks, RunOps(w, steps), i, cfg.maxAttempts);
  }

  // ---- conservation of asks -----------------------------------------------------------------

  ghost predicate InHand(rows: seq<Task>, t: nat, c: nat)
  {
    exists i: nat :: Holds(rows, t, c, i)
  }

  // Covered once, and no task that could still address it holds it.
  ghost predicate Lost(rows: seq<Task>, t: nat, c: nat)
  {
    Covered(rows, t, c) && !InHand(rows, t, c)
  }

  ghost predicate DropsNow(rows: seq<Task>, op: Op, t: nat, c: nat)
  {
    op.Stopped? && Holds(rows, t, c, op.i)
  }

  // Some cancel_run along the way stopped the task that held the comment.
  ghost predicate Dropped(rows: seq<Task>, ops: seq<Op>, t: nat, c: nat)
    requires Legal(rows, ops)
    decreases |ops|
  {
    ops != [] && (DropsNow(rows, ops[0], t, c) || Dropped(ApplyOp(rows, ops[0]), ops[1..], t, c))
  }

  predicate OneRow(op: Op)
  {
    !op.Submitted? && !op.Interrupted?
  }

  lemma RowOpConserves(rows: seq<Task>, op: Op, t: nat, c: nat)
    requires Disjoint(rows) && OpOk(rows, op) && OneRow(op)
    ensures Lost(ApplyOp(rows, op), t, c) <==> Lost(rows, t, c) || DropsNow(rows, op, t, c)
    ensures forall i: nat :: Lost(rows, t, c) && CoveredBy(ApplyOp(rows, op), t, c, i) ==> CoveredBy(rows, t, c, i)
  {
    var after := ApplyOp(rows, op);
    var i := op.i;
    var fresh' := op.Coalesced? && rows[i].thread == t && op.c == c;
    assert forall k: nat :: k != i ==> CoveredBy(after, t, c, k) == CoveredBy(rows, t, c, k) && Holds(after, t, c, k) == Holds(rows, t, c, k);
    assert CoveredBy(after, t, c, i) <==> CoveredBy(rows, t, c, i) || fresh';
    assert Holds(after, t, c, i) <==> (Holds(rows, t, c, i) && !DropsNow(rows, op, t, c)) || fresh';
    if DropsNow(rows, op, t, c) {
      assert forall k: nat :: Holds(after, t, c, k) ==> k != i && Holds(rows, t, c, k);
      assert CoveredBy(after, t, c, i);
    } else if fresh' {
      assert Holds(after, t, c, i);
      assert !Covered(rows, t, c);
    } else {
      assert forall k: nat :: CoveredBy(after, t, c, k) == CoveredBy(rows, t, c, k);
      assert forall k: nat :: Holds(after, t, c, k) == Holds(rows, t, c, k);
    }
  }

  lemma NewRowConserves(rows: seq<Task>, op: Op, t: nat, c: nat)
    requires Disjoint(rows) && OpOk(rows, op) && !OneRow(op)
    ensures Lost(ApplyOp(rows, op), t, c) <==> Lost(rows, t, c)
    ensures forall i: nat :: Lost(rows, t, c) && CoveredBy(ApplyOp(rows, op), t, c, i) ==> CoveredBy(rows, t, c, i)
  {
    var after := ApplyOp(rows, op);
    var n := |rows|;
    var added := after[n].thread == t && c in after[n].cids;
    assert forall k: nat :: k < n ==> CoveredBy(after, t, c, k) == CoveredBy(rows, t, c, k);
    if added {
      assert Holds(after, t, c, n);
      if Covered(rows, t, c) {
        assert op.Interrupted? && Holds(rows, t, c, op.i);
      }
    } else {
      assert forall k: nat :: CoveredBy(after, t, c, k) == CoveredBy(rows, t, c, k);
      assert forall k: nat :: Holds(after, t, c, k) ==> Holds(rows, t, c, k);
      assert forall k: nat :: Holds(rows, t, c, k) ==> Holds(after, t, c, k);
    }
  }

  lemma OpDisjoint(rows: seq<Task>, op: Op)
    requires Disjoint(rows) && OpOk(rows, op)
    ensures Disjoint(ApplyOp(rows, op))
  {
    var after := ApplyOp(rows, op);
    var n := |rows|;
    forall t: nat, c: nat, i: nat, j: nat | Holds(after, t, c, i) && Holds(after, t, c, j)
      ensures i == j
    {
      if op.Coalesced? && op.c == c && rows[op.i].thread == t {
        assert !CoveredBy(rows, t, c, i) && !CoveredBy(rows, t, c, j);
      } else if OneRow(op) {
        assert Holds(rows, t, c, i) && Holds(rows, t, c, j);
      } else {
        assert op.Interrupted? && rows[op.i].thread == t && c in rows[op.i].cids ==> Holds(rows, t, c, op.i);
        assert i < n ==> Holds(rows, t, c, i) && CoveredBy(rows, t, c, i);
        assert j < n ==> Holds(rows, t, c, j) && CoveredBy(rows, t, c, j);
      }
    }
  }

  lemma {:induction false} OpsConserve(rows: seq<Task>, ops: seq<Op>, t: nat, c: nat)
    requires Disjoint(rows) && Legal(rows, ops)
    ensures Lost(Apply(rows, ops), t, c) <==> Lost(rows, t, c) || Dropped(rows, ops, t, c)
    ensures forall i: nat :: Lost(rows, t, c) && CoveredBy(Apply(rows, ops), t, c, i) ==> CoveredBy(rows, t, c, i)
    decreases |ops|
  {
    if ops != [] {
      OpDisjoint(rows, ops[0]);
      if OneRow(ops[0]) { RowOpConserves(rows, ops[0], t, c); } else { NewRowConserves(rows, ops[0], t, c); }
      OpsConserve(ApplyOp(rows, ops[0]), ops[1..], t, c);
    }
  }

  // In every run each ask is in exactly one place: no task has covered it yet, exactly one task
  // that is not cancelled holds it, or cancel_run stopped the task that held it.
  lemma ConservationOfAsks(cfg: Config, steps: seq<Step>, t: nat, c: nat)
    requires ConfigOk(cfg) && IsRun(Initial(cfg), steps)
    ensures
      var rows := Exec(Initial(cfg), steps).tasks;
      var ops := RunOps(Initial(cfg), steps);
      && Legal([], ops)
      && (!Covered(rows, t, c) || InHand(rows, t, c) || Dropped([], ops, t, c))
      && (InHand(rows, t, c) ==> Covered(rows, t, c) && !Dropped([], ops, t, c))
      && (Dropped([], ops, t, c) ==> Covered(rows, t, c))
      && (forall i: nat, j: nat :: Holds(rows, t, c, i) && Holds(rows, t, c, j) ==> i == j)
      && (forall r :: r in rows ==> NoDup(r.cids))
  {
    var w := Initial(cfg);
    RunKeeps(w, steps);
    RunDoes(w, steps);
    OpsConserve(w.tasks, RunOps(w, steps), t, c);
    var f := Exec(w, steps);
    forall r | r in f.tasks
      ensures NoDup(r.cids)
    {
      assert RowOk(f.cfg, f.clock, f.threads, r);
    }
    if InHand(f.tasks, t, c) {
      var i: nat :| Holds(f.tasks, t, c, i);
      assert CoveredBy(f.tasks, t, c, i);
    }
  }

  // Only cancel_run drops asks.
  lemma OnlyCancelRunDrops(w: World, s: Step, k: nat)
    requires Enabled(w, s) && k < |OpsOf(w, s)| && OpsOf(w, s)[k].Stopped?
    ensures s.DoCancelRun? && CanCancel(w, s.thread, s.who) && !s.who.View?
    ensures OpsOf(w, s) == [Stopped(ActiveTask(w.tasks, s.thread).value)]
  {
    if s.DoRestart? { RecoverNeverStops(Crashed(w), |w.threads|, k); }
  }

  lemma RecoverNeverStops(w: World, n: nat, k: nat)
    requires n <= |w.threads| && k < |RecoverOps(w, n)|
    ensures !RecoverOps(w, n)[k].Stopped?
  {
    hide RecoverThread;
    if k < |RecoverOps(w, n - 1)| { RecoverNeverStops(w, n - 1, k); }
  }

  // ---- no resurrection -----------------------------------------------------------------------

  lemma {:induction false} RowsOnlyGrow(rows: seq<Task>, ops: seq<Op>)
    requires Legal(rows, ops)
    ensures RowsGrow(rows, Apply(rows, ops))
    decreases |ops|
  {
    if ops != [] {
      RowsOnlyGrow(ApplyOp(rows, ops[0]), ops[1..]);
    }
  }

  // A comment of a task stopped by cancel_run is in no task created afterwards, whatever
  // comments, interrupts, drains, replays and restarts follow; the stopped row stays cancelled.
  lemma NoResurrection(w: World, t: nat, who: Permission, later: seq<Step>, c: nat, i: nat)
    requires Safe(w) && t < |w.threads| && CanCancel(w, t, who) && IsRun(CancelRun(w, t, who), later)
    requires c in w.tasks[ActiveTask(w.tasks, t).value].cids
    ensures
      var rows := Exec(CancelRun(w, t, who), later).tasks;
      && |w.tasks| <= |rows| && rows[ActiveTask(w.tasks, t).value].state.Cancelled?
      && (CoveredBy(rows, t, c, i) ==> i < |w.tasks| && CoveredBy(w.tasks, t, c, i) && rows[i].state.Cancelled?)
  {
    var a := ActiveTask(w.tasks, t).value;
    var v := CancelRun(w, t, who);
    CancelRunKeeps(w, t, who);
    assert Holds(w.tasks, t, c, a) && CoveredBy(v.tasks, t, c, a);
    assert v.tasks == ApplyOp(w.tasks, Stopped(a));
    RowOpConserves(w.tasks, Stopped(a), t, c);
    RunDoes(v, later);
    OpsConserve(v.tasks, RunOps(v, later), t, c);
    RowsOnlyGrow(v.tasks, RunOps(v, later));
    forall k: nat | CoveredBy(v.tasks, t, c, k)
      ensures v.tasks[k].state.Cancelled?
    {
      assert !Holds(v.tasks, t, c, k);
    }
  }

  // Cancelled is absorbing and coverage only grows, over every run.
  lemma CoverageOnlyGrows(w: World, steps: seq<Step>)
    requires Safe(w) && IsRun(w, steps)
    ensures RowsGrow(w.tasks, Exec(w, steps).tasks)
    ensures forall t: nat, c: nat :: Covered(w.tasks, t, c) ==> Covered(Exec(w, steps).tasks, t, c)
  {
    RunDoes(w, steps);
    RowsOnlyGrow(w.tasks, RunOps(w, steps));
    forall t: nat, c: nat | Covered(w.tasks, t, c)
      ensures Covered(Exec(w, steps).tasks, t, c)
    {
      var i :| 0 <= i < |w.tasks| && CoveredBy(w.tasks, t, c, i);
      assert CoveredBy(Exec(w, steps).tasks, t, c, i);
    }
  }

  // ---- exactly-once effect --------------------------------------------------------------------

  function IterationKey(it: Iteration): nat
    requires it.cids != []
  {
    it.cids[|it.cids| - 1]
  }

  // The key of an iteration occurs in no earlier iteration of its thread.
  ghost predicate EffectOnce(th: Thread)
  {
    && (forall k :: 0 <= k < |th.iterations| ==> th.iterations[k].cids != [])
    && (forall k, m :: 0 <= k < m < |th.iterations| ==> IterationKey(th.iterations[m]) !in th.iterations[k].cids)
  }

  ghost predicate AllOnce(threads: seq<Thread>)
  {
    forall t :: 0 <= t < |threads| ==> EffectOnce(threads[t])
  }

  lemma OnceUnlessWritten(a: seq<Thread>, b: seq<Thread>)
    requires AllOnce(a) && |a| <= |b|
    requires forall t :: 0 <= t < |a| ==> b[t].iterations == a[t].iterations
    requires forall t :: |a| <= t < |b| ==> b[t].iterations == []
    ensures AllOnce(b)
  {
    forall t | 0 <= t < |b|
      ensures EffectOnce(b[t])
    {
      if t < |a| { assert EffectOnce(a[t]); }
    }
  }

  lemma LandingOnce(w: World, i: nat)
    requires Safe(w) && HandlerAt(w, i) && w.live[i].phase.Deployed? && AllOnce(w.threads)
    ensures AllOnce(RowLands(w, i).threads)
  {
    var v := RowLands(w, i);
    assert LiveOk(w, i);
    forall t | 0 <= t < |v.threads|
      ensures EffectOnce(v.threads[t])
    {
      assert EffectOnce(w.threads[t]);
    }
  }

  lemma RecordOnce(w: World, i: nat)
    requires Safe(w) && HandlerAt(w, i) && w.live[i].phase.Deployed? && AllOnce(w.threads)
    ensures AllOnce(Record(w, i).threads)
  {
    hide Safe, AllOnce;
    var v := RowLands(w, i);
    LandingOnce(w, i);
    RecordTells(w, i);
    assert forall t :: 0 <= t < |v.threads| ==> ThreadNarrated(v.threads[t], Record(w, i).threads[t]);
    OnceUnlessWritten(v.threads, Record(w, i).threads);
  }

  lemma PostOnce(w: World, t: nat, mentions: bool, cap: Option<Sha>)
    requires t < |w.threads| && AllOnce(w.threads)
    ensures AllOnce(Post(w, t, mentions, cap).threads)
  {
    PostTells(w, t, mentions, cap);
    var v := Post(w, t, mentions, cap);
    if v != w {
      var u := AddComment(w, t, Comment(false, mentions, cap));
      OnceUnlessWritten(w.threads, u.threads);
      assert forall s :: 0 <= s < |u.threads| ==> ThreadNarrated(u.threads[s], v.threads[s]);
      OnceUnlessWritten(u.threads, v.threads);
    }
  }

  lemma StepOnce(w: World, s: Step)
    requires Safe(w) && Enabled(w, s) && AllOnce(w.threads)
    ensures AllOnce(Next(w, s).threads)
  {
    hide Safe, AllOnce;
    if s.DoRecord? {
      RecordOnce(w, s.task);
    } else if s.DoPost? {
      PostOnce(w, s.thread, s.mentions, s.cap);
    } else if s.DoOpen? {
      var base := if s.cap.Some? then s.cap.value else w.cfg.mainSha;
      var v := w.(threads := w.threads + [Thread(base, Open, [Open], [], [], None, None)]);
      OnceUnlessWritten(w.threads, v.threads);
      PostOnce(v, |w.threads|, s.mentions, s.cap);
    } else if !Writes(s) {
      StepTells(w, s);
      assert forall t :: 0 <= t < |w.threads| ==> ThreadNarrated(w.threads[t], Next(w, s).threads[t]);
      OnceUnlessWritten(w.threads, Next(w, s).threads);
    }
  }

  // Over every run with retries, deadlines, vanished workers, reaps, replays, coalescing and
  // restarts: the key of every iteration occurs in no earlier iteration of the thread.
  lemma {:induction false} ExactlyOnceEffect(w: World, steps: seq<Step>)
    requires Safe(w) && IsRun(w, steps) && AllOnce(w.threads)
    ensures AllOnce(Exec(w, steps).threads)
    decreases |steps|
  {
    if steps != [] {
      StepOnce(w, steps[0]);
      StepKeeps(w, steps[0]);
      ExactlyOnceEffect(Next(w, steps[0]), steps[1..]);
    }
  }

  lemma NoTwoIterationsShareAKey(cfg: Config, steps: seq<Step>, t: nat, k: nat, m: nat)
    requires ConfigOk(cfg) && IsRun(Initial(cfg), steps)
    requires t < |Exec(Initial(cfg), steps).threads|
    requires k < |Exec(Initial(cfg), steps).threads[t].iterations|
    requires m < |Exec(Initial(cfg), steps).threads[t].iterations| && k != m
    ensures
      var its := Exec(Initial(cfg), steps).threads[t].iterations;
      its[k].cids != [] && its[m].cids != [] && IterationKey(its[k]) != IterationKey(its[m])
  {
    ExactlyOnceEffect(Initial(cfg), steps);
    assert EffectOnce(Exec(Initial(cfg), steps).threads[t]);
  }

  // Every comment of a task that is DONE is in one recorded iteration.
  lemma DoneMeansRecorded(cfg: Config, steps: seq<Step>, i: nat)
    requires ConfigOk(cfg) && IsRun(Initial(cfg), steps)
    requires i < |Exec(Initial(cfg), steps).tasks| && Exec(Initial(cfg), steps).tasks[i].state.Done?
    ensures
      var f := Exec(Initial(cfg), steps);
      f.tasks[i].thread < |f.threads| && Applied(f.threads[f.tasks[i].thread], f.tasks[i].cids)
  {
    RunKeeps(Initial(cfg), steps);
    var f := Exec(Initial(cfg), steps);
    assert RowOk(f.cfg, f.clock, f.threads, f.tasks[i]);
  }
}
