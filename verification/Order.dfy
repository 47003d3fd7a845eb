/**
 Asks keep the order they were posted in. In every run each task lists its comments in log order,
 so its idempotency key is the newest comment it addresses, and so is the key of its iteration.
 */
module Order {
  import opened Domain
  import opened TaskTable
  import opened Protocol
  import opened Safety
  import opened Journal
  import opened Conservation

  ghost predicate RowsAscend(rows: seq<Task>)
  {
    forall i :: 0 <= i < |rows| ==> Ascending(rows[i].cids)
  }

  // The operation adds comments to the table only in log order.
  ghost predicate AddsInOrder(rows: seq<Task>, op: Op)
    requires OpOk(rows, op)
  {
    match op
    case Submitted(_, cids, _, _) => Ascending(cids)
    case Coalesced(i, c) => forall d :: d in rows[i].cids ==> d < c
    case Interrupted(i, c, _, _) => forall d :: d in rows[i].cids ==> d < c
    case _ => true
  }

  lemma AppendAscends(s: seq<nat>, c: nat)
    requires Ascending(s) && forall d :: d in s ==> d < c
    ensures Ascending(s + [c])
  {
    forall i, j | 0 <= i < j < |s + [c]|
      ensures (s + [c])[i] < (s + [c])[j]
    {
      assert s[i] in s;
    }
  }

  lemma OpAscends(rows: seq<Task>, op: Op)
    requires RowsAscend(rows) && OpOk(rows, op) && AddsInOrder(rows, op)
    ensures RowsAscend(ApplyOp(rows, op))
  {
    if op.Coalesced? || op.Interrupted? { AppendAscends(rows[op.i].cids, op.c); }
  }

  // Neither coalesced nor combined, and what it submits is in order.
  predicate PlainOp(op: Op)
  {
    !op.Coalesced? && !op.Interrupted? && (op.Submitted? ==> Ascending(op.cids))
  }

  lemma {:induction false} PlainOpsAscend(rows: seq<Task>, ops: seq<Op>)
    requires RowsAscend(rows) && Legal(rows, ops) && forall k :: 0 <= k < |ops| ==> PlainOp(ops[k])
    ensures RowsAscend(Apply(rows, ops))
    decreases |ops|
  {
    if ops != [] {
      OpAscends(rows, ops[0]);
      PlainOpsAscend(ApplyOp(rows, ops[0]), ops[1..]);
    }
  }

  lemma {:induction false} RecoverOpsPlain(w: World, n: nat)
    requires n <= |w.threads|
    ensures forall k :: 0 <= k < |RecoverOps(w, n)| ==> PlainOp(RecoverOps(w, n)[k])
  {
    hide RecoverThread;
    if n > 0 { RecoverOpsPlain(w, n - 1); }
  }

  lemma StepOpsPlain(w: World, s: Step)
    requires Enabled(w, s) && !s.DoPost? && !s.DoOpen?
    ensures forall k :: 0 <= k < |OpsOf(w, s)| ==> PlainOp(OpsOf(w, s)[k])
  {
    if s.DoRestart? { RecoverOpsPlain(Crashed(w), |w.threads|); }
  }

  // A new comment is newer than every comment any task of its thread has.
  lemma PostAscends(w: World, t: nat, mentions: bool, cap: Option<Sha>)
    requires Safe(w) && t < |w.threads| && RowsAscend(w.tasks)
    ensures RowsAscend(Post(w, t, mentions, cap).tasks)
  {
    PostDoes(w, t, mentions, cap);
    var ops := PostOps(w, t, mentions);
    if ops != [] {
      var active := ActiveTask(w.tasks, t);
      if active.Some? { assert RowOk(w.cfg, w.clock, w.threads, w.tasks[active.value]); }
      ApplyOne(w.tasks, ops[0]);
      assert ops == [ops[0]];
      OpAscends(w.tasks, ops[0]);
    }
  }

  lemma StepAscends(w: World, s: Step)
    requires Safe(w) && Enabled(w, s) && RowsAscend(w.tasks)
    ensures RowsAscend(Next(w, s).tasks)
  {
    hide Safe, RowsAscend;
    if s.DoPost? {
      PostAscends(w, s.thread, s.mentions, s.cap);
    } else if s.DoOpen? {
      OpenAscends(w, s.mentions, s.cap);
    } else {
      StepDoes(w, s);
      StepOpsPlain(w, s);
      PlainOpsAscend(w.tasks, OpsOf(w, s));
    }
  }

  lemma OpenAscends(w: World, mentions: bool, cap: Option<Sha>)
    requires Safe(w) && RowsAscend(w.tasks)
    ensures RowsAscend(OpenThread(w, mentions, cap).tasks)
  {
    var base := if cap.Some? then cap.value else w.cfg.mainSha;
    var v := w.(threads := w.threads + [Thread(base, Open, [Open], [], [], None, None)]);
    ThreadsOnly(w, v);
    PostAscends(v, |w.threads|, mentions, cap);
  }

  lemma {:induction false} RunAscends(w: World, steps: seq<Step>)
    requires Safe(w) && RowsAscend(w.tasks) && IsRun(w, steps)
    ensures RowsAscend(Exec(w, steps).tasks)
    decreases |steps|
  {
    if steps != [] {
      StepAscends(w, steps[0]);
      StepKeeps(w, steps[0]);
      RunAscends(Next(w, steps[0]), steps[1..]);
    }
  }

  // In every run, every task lists its comments in log order and its key is the newest of them.
  lemma TaskKeyIsNewest(cfg: Config, steps: seq<Step>, i: nat, c: nat)
    requires ConfigOk(cfg) && IsRun(Initial(cfg), steps) && i < |Exec(Initial(cfg), steps).tasks|
    ensures
      var row := Exec(Initial(cfg), steps).tasks[i];
      && row.cids != [] && Ascending(row.cids)
      && row.Key() in row.cids && (c in row.cids ==> c <= row.Key())
  {
    RunKeeps(Initial(cfg), steps);
    RunAscends(Initial(cfg), steps);
    var w := Exec(Initial(cfg), steps);
    assert RowOk(w.cfg, w.clock, w.threads, w.tasks[i]);
  }

  // And every iteration's key is the newest comment it addresses.
  lemma IterationKeyIsNewest(cfg: Config, steps: seq<Step>, t: nat, k: nat, c: nat)
    requires ConfigOk(cfg) && IsRun(Initial(cfg), steps) && t < |Exec(Initial(cfg), steps).threads|
    requires k < |Exec(Initial(cfg), steps).threads[t].iterations|
    ensures
      var it := Exec(Initial(cfg), steps).threads[t].iterations[k];
      && it.cids != [] && Ascending(it.cids)
      && IterationKey(it) in it.cids && (c in it.cids ==> c <= IterationKey(it))
  {
    RunKeeps(Initial(cfg), steps);
    RunAscends(Initial(cfg), steps);
    ExactlyOnceEffect(Initial(cfg), steps);
    var w := Exec(Initial(cfg), steps);
    var it := w.threads[t].iterations[k];
    assert EffectOnce(w.threads[t]);
    var j: nat :| SourceOf(w.tasks, t, it.cids, j);
    assert it.cids <= w.tasks[j].cids && Ascending(w.tasks[j].cids);
  }
}
