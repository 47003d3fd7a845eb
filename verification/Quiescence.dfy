/**
 Quiescence: with no new comment and no replay, every effective transition of the task table
 spends a measure over remaining attempts, and a drain pays for its new task with an ask that
 was waiting. So only finitely many transitions remain, restarts included.
 */
module Quiescence {
  import opened Domain
  import opened TaskTable
  import opened Protocol
  import opened Safety
  import opened Journal
  import opened Evolution
  import opened Conservation

  // What a row can still spend.
  function Weight(r: Task): nat
  {
    var left := if r.attempts <= r.maxAttempts then r.maxAttempts - r.attempts else 0;
    if r.state.Queued? then 2 * left + 1 else if r.state.Running? then 2 * left + 2 else 0
  }

  function Total(rows: seq<Task>): nat
  {
    if rows == [] then 0 else Total(rows[..|rows| - 1]) + Weight(rows[|rows| - 1])
  }

  lemma {:induction false} TotalOfUpdate(rows: seq<Task>, i: nat, r: Task)
    requires i < |rows|
    ensures Total(rows[i := r]) + Weight(rows[i]) == Total(rows) + Weight(r)
  {
    var n := |rows| - 1;
    if i < n {
      TotalOfUpdate(rows[..n], i, r);
      assert rows[i := r][..n] == rows[..n][i := r];
    } else {
      assert rows[i := r][..n] == rows[..n];
    }
  }

  lemma TotalOfAppend(rows: seq<Task>, r: Task)
    ensures Total(rows + [r]) == Total(rows) + Weight(r)
  {
    assert (rows + [r])[..|rows|] == rows;
  }

  // All asks, as (thread, comment) pairs.
  function AsksOf(threads: seq<Thread>): set<(nat, nat)>
  {
    set t: nat, c: nat | t < |threads| && c < |threads[t].comments| && IsAsk(threads[t], c) :: (t, c)
  }

  function Waiting(asks: set<(nat, nat)>, rows: seq<Task>): set<(nat, nat)>
  {
    set x | x in asks && !Covered(rows, x.0, x.1)
  }

  // What one ask that no task covers is worth: a whole task's budget and one more.
  function Price(max: nat): nat
  {
    2 * max + 2
  }

  function Measure(asks: set<(nat, nat)>, rows: seq<Task>, max: nat): nat
  {
    Total(rows) + Price(max) * |Waiting(asks, rows)|
  }

  predicate Effective(op: Op) { !op.Beaten? }

  // Not a comment, not a replay.
  predicate SystemOp(op: Op) { !op.Replayed? && !op.Coalesced? && !op.Interrupted? }

  ghost predicate SubmitsAsk(asks: set<(nat, nat)>, op: Op)
  {
    op.Submitted? ==> op.cids != [] && (op.t, op.cids[0]) in asks
  }

  lemma RowOpSpends(asks: set<(nat, nat)>, rows: seq<Task>, op: Op, max: nat)
    requires Ledgered(rows, max) && OpOk(rows, op) && SystemOp(op) && !op.Submitted?
    ensures Measure(asks, ApplyOp(rows, op), max) + (if Effective(op) then 1 else 0) <= Measure(asks, rows, max)
  {
    var after := ApplyOp(rows, op);
    TotalOfUpdate(rows, op.i, after[op.i]);
    assert forall t: nat, c: nat, i: nat :: CoveredBy(after, t, c, i) <==> CoveredBy(rows, t, c, i);
    forall x | x in asks
      ensures Covered(after, x.0, x.1) <==> Covered(rows, x.0, x.1)
    {
      if Covered(rows, x.0, x.1) {
        var i :| 0 <= i < |rows| && CoveredBy(rows, x.0, x.1, i);
        assert CoveredBy(after, x.0, x.1, i);
      }
    }
    assert Waiting(asks, after) == Waiting(asks, rows);
  }

  lemma SubmitSpends(asks: set<(nat, nat)>, rows: seq<Task>, op: Op, max: nat)
    requires OpOk(rows, op) && op.Submitted? && Submits(op, max) && SubmitsAsk(asks, op)
    ensures Measure(asks, ApplyOp(rows, op), max) + 1 <= Measure(asks, rows, max)
  {
    var after := ApplyOp(rows, op);
    var x := (op.t, op.cids[0]);
    TotalOfAppend(rows, after[|rows|]);
    assert CoveredBy(after, op.t, op.cids[0], |rows|);
    forall y | y in asks && Covered(rows, y.0, y.1)
      ensures Covered(after, y.0, y.1)
    {
      var i :| 0 <= i < |rows| && CoveredBy(rows, y.0, y.1, i);
      assert CoveredBy(after, y.0, y.1, i);
    }
    assert op.cids[0] in op.cids && x in Waiting(asks, rows);
    assert Waiting(asks, after) <= Waiting(asks, rows) - {x};
    SubsetIsSmaller(Waiting(asks, after), Waiting(asks, rows) - {x});
    var n, m := |Waiting(asks, after)|, |Waiting(asks, rows)|;
    assert n + 1 <= m;
    assert Price(max) * (n + 1) <= Price(max) * m;
    assert Price(max) * (n + 1) == Price(max) * n + Price(max);
  }

  lemma {:induction false} SubsetIsSmaller(a: set<(nat, nat)>, b: set<(nat, nat)>)
    requires a <= b
    ensures |a| <= |b|
  {
    if a != {} {
      var x :| x in a;
      SubsetIsSmaller(a - {x}, b - {x});
    }
  }

  function EffectiveCount(ops: seq<Op>): nat
  {
    if ops == [] then 0 else (if Effective(ops[0]) then 1 else 0) + EffectiveCount(ops[1..])
  }

  lemma {:induction false} EffectiveCountConcat(a: seq<Op>, b: seq<Op>)
    ensures EffectiveCount(a + b) == EffectiveCount(a) + EffectiveCount(b)
  {
    if a == [] {
      assert a + b == b;
    } else {
      EffectiveCountConcat(a[1..], b);
      assert (a + b)[1..] == a[1..] + b;
    }
  }

  lemma {:induction false} OpsSpend(asks: set<(nat, nat)>, rows: seq<Task>, ops: seq<Op>, max: nat)
    requires 1 <= max && Ledgered(rows, max) && Legal(rows, ops)
    requires forall k :: 0 <= k < |ops| ==> SystemOp(ops[k]) && Submits(ops[k], max) && SubmitsAsk(asks, ops[k])
    ensures Measure(asks, Apply(rows, ops), max) + EffectiveCount(ops) <= Measure(asks, rows, max)
    decreases |ops|
  {
    if ops != [] {
      OpLedger(rows, ops[0], 0, max);
      if ops[0].Submitted? { SubmitSpends(asks, rows, ops[0], max); } else { RowOpSpends(asks, rows, ops[0], max); }
      OpsSpend(asks, ApplyOp(rows, ops[0]), ops[1..], max);
    }
  }

  // ---- quiet steps ------------------------------------------------------------------------

  predicate Quiet(s: Step) { !s.DoOpen? && !s.DoPost? && !s.DoReplay? }

  ghost predicate GoodOps(w: World, ops: seq<Op>)
  {
    forall k :: 0 <= k < |ops| ==>
      SystemOp(ops[k]) && Submits(ops[k], w.cfg.maxAttempts) && SubmitsAsk(AsksOf(w.threads), ops[k])
  }

  lemma SameAsks(a: seq<Thread>, b: seq<Thread>)
    requires Narrated(a, b)
    ensures AsksOf(a) == AsksOf(b)
  {
    forall t: nat, c: nat | t < |a|
      ensures IsAsk(a[t], c) <==> IsAsk(b[t], c)
    {
      AsksUnchanged(a, b, t, c);
    }
  }

  lemma DrainOpsGood(w: World, t: nat)
    requires t < |w.threads|
    ensures GoodOps(w, DrainOps(w, t))
  {
    var th := w.threads[t];
    var pending := PendingIds(th, w.tasks, t, |th.comments|);
    if pending != [] {
      assert pending[0] in pending;
      assert Pending(th, w.tasks, t, pending[0]);
    }
  }

  lemma {:induction false} RecoverOpsGood(w: World, n: nat)
    requires n <= |w.threads|
    ensures GoodOps(w, RecoverOps(w, n))
  {
    hide RecoverThread, PendingIds, Total, Waiting;
    if n > 0 {
      RecoverOpsGood(w, n - 1);
      RecoverTells(w, n - 1);
      SameAsks(w.threads, RecoverUpTo(w, n - 1).threads);
      DrainOpsGood(RecoverUpTo(w, n - 1), n - 1);
    }
  }

  lemma QuietOpsGood(w: World, s: Step)
    requires Enabled(w, s) && Quiet(s)
    ensures GoodOps(w, OpsOf(w, s))
  {
    if s.DoRestart? {
      RecoverOpsGood(Crashed(w), |w.threads|);
    } else if s.DoRecord? {
      var t := w.tasks[s.task].thread;
      DrainOpsGood(Recorded(w, s.task), t);
      RecordedSameAsks(w, s.task);
    } else if s.DoStart? {
      var t := w.tasks[s.task].thread;
      var u := if InFlight(w.threads[t].status) then SetStatus(w, t, PreviewReady) else w;
      DrainOpsGood(u, t);
      assert Narrated(w.threads, u.threads);
      SameAsks(w.threads, u.threads);
    }
  }

  lemma RecordedSameAsks(w: World, i: nat)
    requires HandlerAt(w, i) && w.live[i].phase.Deployed?
    ensures AsksOf(Recorded(w, i).threads) == AsksOf(w.threads)
  {
    var u := RowLands(w, i);
    assert forall t: nat, c: nat :: t < |w.threads| ==> (IsAsk(w.threads[t], c) <==> IsAsk(u.threads[t], c));
    assert AsksOf(w.threads) == AsksOf(u.threads);
    assert Narrated(u.threads, Recorded(w, i).threads);
    SameAsks(u.threads, Recorded(w, i).threads);
  }

  lemma QuietSameAsks(w: World, s: Step)
    requires Enabled(w, s) && Quiet(s)
    ensures AsksOf(Next(w, s).threads) == AsksOf(w.threads) && Next(w, s).cfg == w.cfg
  {
    ConfigFixed(w, s);
    if s.DoRecord? {
      RecordTells(w, s.task);
      var u := RowLands(w, s.task);
      assert forall t: nat, c: nat :: t < |w.threads| ==> (IsAsk(w.threads[t], c) <==> IsAsk(u.threads[t], c));
      assert AsksOf(w.threads) == AsksOf(u.threads);
      SameAsks(u.threads, Next(w, s).threads);
    } else if !Writes(s) {
      StepTells(w, s);
      SameAsks(w.threads, Next(w, s).threads);
    }
  }

  ghost function WorldMeasure(w: World): nat
  {
    Measure(AsksOf(w.threads), w.tasks, w.cfg.maxAttempts)
  }

  lemma QuietStepSpends(w: World, s: Step)
    requires Safe(w) && Enabled(w, s) && Quiet(s)
    ensures WorldMeasure(Next(w, s)) + EffectiveCount(OpsOf(w, s)) <= WorldMeasure(w)
  {
    StepDoes(w, s);
    QuietOpsGood(w, s);
    QuietSameAsks(w, s);
    assert Ledgered(w.tasks, w.cfg.maxAttempts) by {
      forall i | 0 <= i < |w.tasks| ensures LedgerOk(w.tasks[i]) && w.tasks[i].maxAttempts == w.cfg.maxAttempts {
        assert RowOk(w.cfg, w.clock, w.threads, w.tasks[i]);
      }
    }
    OpsSpend(AsksOf(w.threads), w.tasks, OpsOf(w, s), w.cfg.maxAttempts);
  }

  // From any reachable world, any quiet run makes at most WorldMeasure(w) effective transitions.
  lemma {:induction false} OnlyFinitelyManyTransitions(w: World, steps: seq<Step>)
    requires Safe(w) && IsRun(w, steps) && forall k :: 0 <= k < |steps| ==> Quiet(steps[k])
    ensures EffectiveCount(RunOps(w, steps)) + WorldMeasure(Exec(w, steps)) <= WorldMeasure(w)
    decreases |steps|
  {
    if steps != [] {
      QuietStepSpends(w, steps[0]);
      StepKeeps(w, steps[0]);
      OnlyFinitelyManyTransitions(Next(w, steps[0]), steps[1..]);
      EffectiveCountConcat(OpsOf(w, steps[0]), RunOps(Next(w, steps[0]), steps[1..]));
    }
  }
}
