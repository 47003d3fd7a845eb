/**
 What every step keeps in every run, crashes and unrestricted replays included: which task
 holds which ask, what an iteration was made from, and where each live handler stands.
 */
module Safety {
  import opened Domain
  import opened TaskTable
  import opened Protocol

  // ---- the invariant ----------------------------------------------------------------

  predicate LedgerOk(r: Task)
  {
    && 1 <= r.maxAttempts && r.attempts <= r.maxAttempts
    && (r.state.Queued? ==> r.attempts < r.maxAttempts)
    && (r.state.Running? ==> 1 <= r.attempts)
    && (r.state.Dlq? ==> r.attempts == r.maxAttempts)
  }

  predicate AllAsks(th: Thread, cids: seq<nat>)
  {
    forall c :: c in cids ==> IsAsk(th, c)
  }

  ghost predicate RowOk(cfg: Config, clock: nat, threads: seq<Thread>, r: Task)
  {
    && r.thread < |threads|
    && r.cids != [] && NoDup(r.cids) && AllAsks(threads[r.thread], r.cids)
    && LedgerOk(r) && r.maxAttempts == cfg.maxAttempts && r.createdAt <= clock
  }

  ghost predicate RowsOk(cfg: Config, clock: nat, threads: seq<Thread>, rows: seq<Task>)
  {
    SortedByCreation(rows) && forall i :: 0 <= i < |rows| ==> RowOk(cfg, clock, threads, rows[i])
  }

  // A task that is not cancelled holds the comment.
  predicate Holds(rows: seq<Task>, t: nat, c: nat, i: nat)
  {
    CoveredBy(rows, t, c, i) && !rows[i].state.Cancelled?
  }

  // No comment is held by two tasks.
  ghost predicate Disjoint(rows: seq<Task>)
  {
    forall t: nat, c: nat, i: nat, j: nat :: Holds(rows, t, c, i) && Holds(rows, t, c, j) ==> i == j
  }

  // The key of a task that is not cancelled is in no other task, cancelled ones included.
  ghost predicate KeysOwn(rows: seq<Task>)
  {
    forall i: nat, j: nat | i < |rows| && !rows[i].state.Cancelled? && rows[i].cids != [] ::
      CoveredBy(rows, rows[i].thread, rows[i].Key(), j) ==> i == j
  }

  predicate SourceOf(rows: seq<Task>, t: nat, cids: seq<nat>, j: nat)
  {
    j < |rows| && rows[j].thread == t && cids <= rows[j].cids
  }

  ghost predicate HasSource(rows: seq<Task>, t: nat, cids: seq<nat>)
  {
    exists j: nat :: SourceOf(rows, t, cids, j)
  }

  // Every iteration addresses what one task of its thread asked when that task was delivered.
  ghost predicate Sourced(threads: seq<Thread>, rows: seq<Task>)
  {
    forall t: nat, k: nat :: t < |threads| && k < |threads[t].iterations| ==>
      HasSource(rows, t, threads[t].iterations[k].cids)
  }

  // One iteration addresses all of the comments.
  predicate Applied(th: Thread, cids: seq<nat>)
  {
    exists k :: 0 <= k < |th.iterations| && Within(cids, th.iterations[k].cids)
  }

  ghost predicate DoneApplied(threads: seq<Thread>, rows: seq<Task>)
  {
    forall i :: 0 <= i < |rows| && rows[i].state.Done? && rows[i].thread < |threads| ==>
      Applied(threads[rows[i].thread], rows[i].cids)
  }

  ghost predicate LiveOk(w: World, i: nat)
    requires i in w.live
  {
    var run := w.live[i];
    && i < |w.tasks| && w.tasks[i].thread < |w.threads| && w.tasks[i].cids != []
    && run.cids == w.tasks[i].cids && run.worker < w.cfg.maxInflight
    && (Unfinished(run.phase) ==> w.tasks[i].state.Running?)
    && (run.phase.Doomed? ==> w.tasks[i].state.Cancelled?)
    && (run.phase.Finished? ==> w.tasks[i].state.Running? || w.tasks[i].state.Cancelled?)
    && (w.tasks[i].state.Running? ==>
          w.tasks[i].claimedBy == Some(run.worker)
          && w.tasks[i].lease == run.beatAt + w.cfg.leaseMs && w.clock <= w.tasks[i].lease)
    && (Started(run.phase) ==> !Addressed(w.threads[w.tasks[i].thread], w.tasks[i].Key()))
    && (run.phase.Finished? ==> Applied(w.threads[w.tasks[i].thread], w.tasks[i].cids))
  }

  ghost predicate LivesOk(w: World)
  {
    && (forall i :: i in w.live ==> LiveOk(w, i))
    && (forall i, j :: i in w.live && j in w.live && w.live[i].worker == w.live[j].worker ==> i == j)
  }

  ghost predicate Safe(w: World)
  {
    && ConfigOk(w.cfg)
    && RowsOk(w.cfg, w.clock, w.threads, w.tasks)
    && Disjoint(w.tasks) && KeysOwn(w.tasks)
    && Sourced(w.threads, w.tasks) && DoneApplied(w.threads, w.tasks)
    && LivesOk(w)
    && (forall f :: 0 <= f < |w.flows| ==> w.flows[f].thread < |w.threads|)
  }

  // ---- primitive updates keep it ------------------------------------------------------

  // Threads only gain comments, and new threads have no iterations.
  ghost predicate LogsGrow(a: seq<Thread>, b: seq<Thread>)
  {
    && |a| <= |b|
    && (forall t :: 0 <= t < |a| ==> a[t].comments <= b[t].comments && a[t].iterations == b[t].iterations)
    && (forall t :: |a| <= t < |b| ==> b[t].iterations == [])
  }

  lemma ThreadsOnly(w: World, v: World)
    requires Safe(w) && LogsGrow(w.threads, v.threads)
    requires v.cfg == w.cfg && v.clock == w.clock && v.tasks == w.tasks && v.live == w.live
    requires forall f :: 0 <= f < |v.flows| ==> v.flows[f].thread < |v.threads|
    ensures Safe(v)
  {
    forall i | 0 <= i < |v.tasks|
      ensures RowOk(v.cfg, v.clock, v.threads, v.tasks[i])
    {
      assert RowOk(w.cfg, w.clock, w.threads, w.tasks[i]);
    }
    forall i | i in v.live
      ensures LiveOk(v, i)
    {
      assert LiveOk(w, i);
    }
  }

  // Rows are only appended, and a row only gains comments.
  ghost predicate RowsGrow(a: seq<Task>, b: seq<Task>)
  {
    && |a| <= |b|
    && forall i :: 0 <= i < |a| ==>
         a[i].thread == b[i].thread && a[i].cids <= b[i].cids && (a[i].state.Cancelled? ==> b[i].state.Cancelled?)
  }

  lemma SourcesPersist(threads: seq<Thread>, a: seq<Task>, b: seq<Task>)
    requires Sourced(threads, a) && RowsGrow(a, b)
    ensures Sourced(threads, b)
  {
    forall t: nat, k: nat | t < |threads| && k < |threads[t].iterations|
      ensures HasSource(b, t, threads[t].iterations[k].cids)
    {
      assert HasSource(a, t, threads[t].iterations[k].cids);
      var j: nat :| SourceOf(a, t, threads[t].iterations[k].cids, j);
      assert SourceOf(b, t, threads[t].iterations[k].cids, j);
    }
  }

  // One row changes its delivery state but not what it asks.
  ghost predicate SameAsk(a: Task, b: Task)
  {
    && a.thread == b.thread && a.cids == b.cids && a.maxAttempts == b.maxAttempts
    && a.createdAt == b.createdAt && (a.state.Cancelled? ==> b.state.Cancelled?)
  }

  lemma RowOnly(w: World, v: World, i: nat, r: Task)
    requires Safe(w) && i < |w.tasks| && SameAsk(w.tasks[i], r) && LedgerOk(r)
    requires v.tasks == w.tasks[i := r]
    requires r.state.Done? ==> Applied(w.threads[r.thread], r.cids)
    requires v.cfg == w.cfg && v.clock == w.clock && v.threads == w.threads && v.flows == w.flows
    requires LivesOk(v)
    ensures Safe(v)
  {
    forall k | 0 <= k < |v.tasks|
      ensures RowOk(v.cfg, v.clock, v.threads, v.tasks[k])
    {
      assert RowOk(w.cfg, w.clock, w.threads, w.tasks[k]);
    }
    assert forall t: nat, c: nat, k: nat :: Holds(v.tasks, t, c, k) ==> Holds(w.tasks, t, c, k);
    assert forall t: nat, c: nat, k: nat :: CoveredBy(v.tasks, t, c, k) ==> CoveredBy(w.tasks, t, c, k);
    forall a: nat, b: nat | a < |v.tasks| && !v.tasks[a].state.Cancelled? && v.tasks[a].cids != []
      && CoveredBy(v.tasks, v.tasks[a].thread, v.tasks[a].Key(), b)
      ensures a == b
    {
      assert CoveredBy(w.tasks, w.tasks[a].thread, w.tasks[a].Key(), b);
    }
    SourcesPersist(w.threads, w.tasks, v.tasks);
  }

  // A comment no task holds.
  ghost predicate Unheld(rows: seq<Task>, t: nat, c: nat)
  {
    forall i: nat :: !Holds(rows, t, c, i)
  }

  lemma AddedKeepsKeys(rows: seq<Task>, r: Task)
    requires Disjoint(rows) && KeysOwn(rows) && r.cids != []
    requires forall c :: c in r.cids ==> Unheld(rows, r.thread, c)
    requires !Covered(rows, r.thread, r.Key())
    ensures Disjoint(rows + [r]) && KeysOwn(rows + [r])
  {
    var after, n := rows + [r], |rows|;
    assert forall s: nat, c: nat, i: nat :: Holds(after, s, c, i) ==> Holds(rows, s, c, i) || (i == n && s == r.thread && c in r.cids);
    assert forall s: nat, c: nat, i: nat :: i < n ==> CoveredBy(after, s, c, i) == CoveredBy(rows, s, c, i);
    forall i: nat, j: nat | i < |after| && !after[i].state.Cancelled? && after[i].cids != []
      && CoveredBy(after, after[i].thread, after[i].Key(), j)
      ensures i == j
    {
      assert i < n && rows[i].thread == r.thread ==> Holds(rows, r.thread, rows[i].Key(), i);
    }
  }

  lemma AddTaskKeeps(w: World, t: nat, cids: seq<nat>)
    requires Safe(w) && t < |w.threads|
    requires cids != [] && NoDup(cids) && AllAsks(w.threads[t], cids)
    requires forall c :: c in cids ==> Unheld(w.tasks, t, c)
    requires !Covered(w.tasks, t, cids[|cids| - 1])
    ensures Safe(AddTask(w, t, cids))
  {
    var v := AddTask(w, t, cids);
    var n := |w.tasks|;
    forall i | 0 <= i < |v.tasks|
      ensures RowOk(v.cfg, v.clock, v.threads, v.tasks[i])
    {
      if i < n { assert RowOk(w.cfg, w.clock, w.threads, w.tasks[i]); }
    }
    AddedKeepsKeys(w.tasks, v.tasks[n]);
    SourcesPersist(w.threads, w.tasks, v.tasks);
    forall i | i in v.live
      ensures LiveOk(v, i)
    {
      assert LiveOk(w, i);
    }
  }

  lemma CoalesceKeepsKeys(rows: seq<Task>, i: nat, c: nat)
    requires i < |rows| && rows[i].state.Queued? && !Covered(rows, rows[i].thread, c)
    requires Disjoint(rows) && KeysOwn(rows)
    ensures Disjoint(rows[i := CoalesceRow(rows[i], c)]) && KeysOwn(rows[i := CoalesceRow(rows[i], c)])
  {
    var after := rows[i := CoalesceRow(rows[i], c)];
    var t := rows[i].thread;
    assert forall k: nat :: !CoveredBy(rows, t, c, k);
    assert forall s: nat, d: nat, k: nat :: CoveredBy(after, s, d, k) <==> CoveredBy(rows, s, d, k) || (s == t && d == c && k == i);
    assert forall s: nat, d: nat, k: nat :: Holds(after, s, d, k) ==> Holds(rows, s, d, k) || (s == t && d == c && k == i);
    forall a: nat, b: nat | a < |after| && !after[a].state.Cancelled? && after[a].cids != []
      && CoveredBy(after, after[a].thread, after[a].Key(), b)
      ensures a == b
    {
      if a != i { assert CoveredBy(rows, rows[a].thread, rows[a].Key(), a); }
    }
  }

  lemma CoalesceKeeps(w: World, i: nat, c: nat)
    requires Safe(w) && i < |w.tasks| && w.tasks[i].state.Queued?
    requires IsAsk(w.threads[w.tasks[i].thread], c) && !Covered(w.tasks, w.tasks[i].thread, c)
    ensures Safe(SetRow(w, i, CoalesceRow(w.tasks[i], c)))
  {
    var v := SetRow(w, i, CoalesceRow(w.tasks[i], c));
    var t := w.tasks[i].thread;
    assert !CoveredBy(w.tasks, t, c, i);
    forall k | 0 <= k < |v.tasks|
      ensures RowOk(v.cfg, v.clock, v.threads, v.tasks[k])
    {
      assert RowOk(w.cfg, w.clock, w.threads, w.tasks[k]);
    }
    CoalesceKeepsKeys(w.tasks, i, c);
    SourcesPersist(w.threads, w.tasks, v.tasks);
    forall k | k in v.live
      ensures LiveOk(v, k)
    {
      assert LiveOk(w, k);
    }
  }

  // ---- composite updates ---------------------------------------------------------------

  lemma SubmitKeeps(w: World, t: nat, cids: seq<nat>)
    requires Safe(w) && t < |w.threads|
    requires cids != [] && NoDup(cids) && AllAsks(w.threads[t], cids)
    requires forall c :: c in cids ==> Unheld(w.tasks, t, c)
    requires !Covered(w.tasks, t, cids[|cids| - 1])
    ensures Safe(Submit(w, t, cids))
  {
    var v := SetStatus(w, t, Triggered);
    ThreadsOnly(w, v);
    AddTaskKeeps(v, t, cids);
  }

  lemma DrainKeeps(w: World, t: nat)
    requires Safe(w) && t < |w.threads|
    ensures Safe(DrainPending(w, t))
  {
    var th := w.threads[t];
    var pending := PendingIds(th, w.tasks, t, |th.comments|);
    if pending != [] {
      var v := Narrate(w, t);
      ThreadsOnly(w, v);
      forall c | c in pending
        ensures Unheld(v.tasks, t, c) && IsAsk(v.threads[t], c) && !Covered(v.tasks, t, c)
      {
        assert Pending(th, w.tasks, t, c);
      }
      SubmitKeeps(v, t, pending);
    }
  }

  lemma CancelTaskKeeps(w: World, i: nat)
    requires Safe(w) && i < |w.tasks|
    ensures Safe(CancelTask(w, i))
  {
    var v := CancelTask(w, i);
    assert RowOk(w.cfg, w.clock, w.threads, w.tasks[i]);
    forall k | k in v.live
      ensures LiveOk(v, k)
    {
      assert LiveOk(w, k);
    }
    RowOnly(w, v, i, CancelRow(w.tasks[i]));
  }

  // The rows of a thread cover only comments already in its log.
  lemma LogTopIsUncovered(w: World, t: nat)
    requires Safe(w) && t < |w.threads|
    ensures !Covered(w.tasks, t, |w.threads[t].comments|)
  {
    forall i: nat | i < |w.tasks|
      ensures !CoveredBy(w.tasks, t, |w.threads[t].comments|, i)
    {
      assert RowOk(w.cfg, w.clock, w.threads, w.tasks[i]);
    }
  }

  lemma InterruptKeeps(w: World, t: nat, i: nat, c: nat)
    requires Safe(w) && t < |w.threads| && ActiveIn(w.tasks, t, i)
    requires IsAsk(w.threads[t], c) && !Covered(w.tasks, t, c)
    ensures Dedup(w.tasks[i].cids + [c]) == w.tasks[i].cids + [c]
    ensures Safe(Submit(Narrate(CancelTask(w, i), t), t, Dedup(w.tasks[i].cids + [c])))
  {
    var cids := w.tasks[i].cids + [c];
    assert RowOk(w.cfg, w.clock, w.threads, w.tasks[i]);
    assert !CoveredBy(w.tasks, t, c, i);
    DedupOfDistinct(cids);
    CancelTaskKeeps(w, i);
    var u := CancelTask(w, i);
    var v := Narrate(u, t);
    ThreadsOnly(u, v);
    forall d | d in cids
      ensures Unheld(v.tasks, t, d)
    {
      forall k: nat
        ensures !Holds(v.tasks, t, d, k)
      {
        if Holds(v.tasks, t, d, k) {
          assert Holds(w.tasks, t, d, k);
          assert d in w.tasks[i].cids ==> Holds(w.tasks, t, d, i);
        }
      }
    }
    assert forall k: nat :: CoveredBy(v.tasks, t, c, k) ==> CoveredBy(w.tasks, t, c, k);
    SubmitKeeps(v, t, cids);
  }

  lemma PostedKeeps(v: World, t: nat, c: nat)
    requires Safe(v) && t < |v.threads| && !Closed(v.threads[t].status)
    requires IsAsk(v.threads[t], c) && !Covered(v.tasks, t, c)
    ensures Safe(OnComment(v, t, c))
  {
    var active := if InFlight(v.threads[t].status) then ActiveTask(v.tasks, t) else None;
    if active.None? {
      SubmitKeeps(v, t, [c]);
    } else {
      var i := active.value;
      if v.tasks[i].state.Queued? {
        CoalesceKeeps(v, i, c);
        var u := SetRow(v, i, CoalesceRow(v.tasks[i], c));
        ThreadsOnly(u, Narrate(u, t));
      } else if Interruptible(v.threads[t].status) {
        InterruptKeeps(v, t, i, c);
      } else {
        ThreadsOnly(v, Narrate(v, t));
      }
    }
  }

  lemma PostKeeps(w: World, t: nat, mentions: bool, cap: Option<Sha>)
    requires Safe(w) && t < |w.threads|
    ensures Safe(Post(w, t, mentions, cap))
  {
    if !Closed(w.threads[t].status) {
      var c := |w.threads[t].comments|;
      var v := AddComment(w, t, Comment(false, mentions, cap));
      ThreadsOnly(w, v);
      LogTopIsUncovered(w, t);
      if mentions { PostedKeeps(v, t, c); }
    }
  }

  lemma OpenThreadKeeps(w: World, mentions: bool, cap: Option<Sha>)
    requires Safe(w)
    ensures Safe(OpenThread(w, mentions, cap))
  {
    var base := if cap.Some? then cap.value else w.cfg.mainSha;
    var v := w.(threads := w.threads + [Thread(base, Open, [Open], [], [], None, None)]);
    ThreadsOnly(w, v);
    PostKeeps(v, |w.threads|, mentions, cap);
  }

  lemma CancelRunKeeps(w: World, t: nat, who: Permission)
    requires Safe(w) && t < |w.threads|
    ensures Safe(CancelRun(w, t, who))
  {
    if CanCancel(w, t, who) {
      var v := CancelTask(w, ActiveTask(w.tasks, t).value);
      CancelTaskKeeps(w, ActiveTask(w.tasks, t).value);
      ThreadsOnly(v, CancelRun(w, t, who));
    }
  }

  lemma ReplayKeeps(w: World, i: nat)
    requires Safe(w) && i < |w.tasks| && w.tasks[i].thread < |w.threads|
    ensures Safe(Replay(w, i))
  {
    if w.tasks[i].state.Dlq? {
      assert RowOk(w.cfg, w.clock, w.threads, w.tasks[i]);
      var v := SetRow(w, i, ReplayRow(w.tasks[i]));
      forall k | k in v.live
        ensures LiveOk(v, k)
      {
        assert LiveOk(w, k);
      }
      RowOnly(w, v, i, ReplayRow(w.tasks[i]));
      ThreadsOnly(v, Replay(w, i));
    }
  }

  lemma ClaimKeeps(w: World, worker: nat)
    requires Safe(w) && WorkerFree(w, worker)
    ensures Safe(Claim(w, worker))
  {
    var q := OldestQueued(w.tasks, |w.tasks|);
    if q.Some? {
      var i := q.value;
      var v := Claim(w, worker);
      assert RowOk(w.cfg, w.clock, w.threads, w.tasks[i]);
      forall k | k in v.live
        ensures LiveOk(v, k)
      {
        if k != i { assert LiveOk(w, k); }
      }
      RowOnly(w, v, i, ClaimRow(w.tasks[i], worker, w.cfg.leaseMs, w.clock));
    }
  }

  lemma BeatKeeps(w: World, i: nat)
    requires Safe(w) && HandlerAt(w, i)
    ensures Safe(Beat(w, i))
  {
    var v := Beat(w, i);
    assert RowOk(w.cfg, w.clock, w.threads, w.tasks[i]);
    if v != w {
      forall k | k in v.live
        ensures LiveOk(v, k)
      {
        assert LiveOk(w, k);
      }
      RowOnly(w, v, i, BeatRow(w.tasks[i], w.live[i].worker, w.cfg.leaseMs, w.clock));
    }
  }

  lemma TickKeeps(w: World, now: nat)
    requires Safe(w) && w.clock <= now && Timely(w, now)
    ensures Safe(w.(clock := now))
  {
    var v := w.(clock := now);
    forall k | k in v.live
      ensures LiveOk(v, k)
    {
      assert LiveOk(w, k);
    }
    forall k | 0 <= k < |v.tasks|
      ensures RowOk(v.cfg, v.clock, v.threads, v.tasks[k])
    {
      assert RowOk(w.cfg, w.clock, w.threads, w.tasks[k]);
    }
  }

  // A handler moves between phases that make the same demands.
  lemma PhaseKeeps(w: World, i: nat, run: Run)
    requires Safe(w) && HandlerAt(w, i) && Unfinished(w.live[i].phase)
    requires run.cids == w.live[i].cids && run.worker == w.live[i].worker && run.beatAt == w.live[i].beatAt
    requires Unfinished(run.phase) || run.phase.Finished?
    requires Started(run.phase) ==> !Addressed(w.threads[w.tasks[i].thread], run.cids[|run.cids| - 1])
    requires run.phase.Finished? ==> Applied(w.threads[w.tasks[i].thread], run.cids)
    ensures Safe(w.(live := w.live[i := run]))
  {
    var v := w.(live := w.live[i := run]);
    forall k | k in v.live
      ensures LiveOk(v, k)
    {
      assert LiveOk(w, k);
    }
  }

  // Redelivery of applied work: the iteration that has the key has every comment of the task.
  lemma AddressedIsApplied(w: World, i: nat)
    requires Safe(w) && i < |w.tasks| && w.tasks[i].state.Running? && w.tasks[i].thread < |w.threads|
    requires w.tasks[i].cids != [] && Addressed(w.threads[w.tasks[i].thread], w.tasks[i].Key())
    ensures Applied(w.threads[w.tasks[i].thread], w.tasks[i].cids)
  {
    var row := w.tasks[i];
    var th := w.threads[row.thread];
    var k: nat :| k < |th.iterations| && row.Key() in th.iterations[k].cids;
    var part := th.iterations[k].cids;
    assert HasSource(w.tasks, row.thread, part);
    var j: nat :| SourceOf(w.tasks, row.thread, part, j);
    assert CoveredBy(w.tasks, row.thread, row.Key(), j);
    assert RowOk(w.cfg, w.clock, w.threads, row);
    assert part <= row.cids;
    var m :| 0 <= m < |part| && part[m] == row.cids[|row.cids| - 1];
    assert part == row.cids;
  }

  lemma RedeliveryKeeps(w: World, i: nat)
    requires Safe(w) && HandlerAt(w, i) && w.live[i].phase.Spawned?
    requires Addressed(w.threads[w.tasks[i].thread], w.live[i].cids[|w.live[i].cids| - 1])
    ensures Safe(StartRun(w, i))
  {
    var t := w.tasks[i].thread;
    var run := w.live[i].(phase := Finished);
    AddressedIsApplied(w, i);
    PhaseKeeps(w, i, run);
    var v := w.(live := w.live[i := run]);
    SetStatusKeeps(v, t, PreviewReady);
    var u := if InFlight(w.threads[t].status) then SetStatus(v, t, PreviewReady) else v;
    DrainKeeps(u, t);
    assert StartRun(w, i) == DrainPending(u, t);
  }

  lemma StartKeeps(w: World, i: nat)
    requires Safe(w) && HandlerAt(w, i) && w.live[i].phase.Spawned?
    ensures Safe(StartRun(w, i))
  {
    var th := w.threads[w.tasks[i].thread];
    var run := w.live[i];
    if Addressed(th, run.cids[|run.cids| - 1]) {
      RedeliveryKeeps(w, i);
    } else {
      assert LiveOk(w, i);
      var started := run.(phase := Phase.Analyzing, parent := ResolveParent(th, run.cids));
      PhaseKeeps(w, i, started);
      ThreadsOnly(w.(live := w.live[i := started]), StartRun(w, i));
    }
  }

  // The iteration row lands and its handler returns.
  function RowLands(w: World, i: nat): World
    requires HandlerAt(w, i) && w.live[i].phase.Deployed?
  {
    var run := w.live[i];
    var it := Iteration(run.phase.sha, run.parent, run.cids, run.phase.patch);
    SetPhase(AddIteration(w, w.tasks[i].thread, it), i, Finished)
  }

  lemma RowLandsApplied(w: World, i: nat, t: nat, cids: seq<nat>)
    requires HandlerAt(w, i) && w.live[i].phase.Deployed? && t < |w.threads|
    requires Applied(w.threads[t], cids) || (t == w.tasks[i].thread && cids == w.live[i].cids)
    ensures Applied(RowLands(w, i).threads[t], cids)
  {
    var v := RowLands(w, i);
    if Applied(w.threads[t], cids) {
      var k :| 0 <= k < |w.threads[t].iterations| && Within(cids, w.threads[t].iterations[k].cids);
      assert v.threads[t].iterations[k] == w.threads[t].iterations[k];
    } else {
      assert Within(cids, v.threads[t].iterations[|w.threads[t].iterations|].cids);
    }
  }

  // The landing row holds no other task's key.
  lemma StillUnaddressed(w: World, i: nat, k: nat)
    requires Safe(w) && HandlerAt(w, i) && w.live[i].phase.Deployed?
    requires k in w.live && k != i && Started(w.live[k].phase)
    ensures k < |w.tasks| && w.tasks[k].cids != []
    ensures w.tasks[k].thread < |w.threads| && !Addressed(RowLands(w, i).threads[w.tasks[k].thread], w.tasks[k].Key())
  {
    assert LiveOk(w, k) && LiveOk(w, i);
    var row := w.tasks[k];
    assert !CoveredBy(w.tasks, row.thread, row.Key(), i);
    var its, was := RowLands(w, i).threads[row.thread].iterations, w.threads[row.thread].iterations;
    forall m | 0 <= m < |its|
      ensures row.Key() !in its[m].cids
    {
      if m < |was| { assert its[m] == was[m]; }
    }
  }

  lemma RowLandsLives(w: World, i: nat)
    requires Safe(w) && HandlerAt(w, i) && w.live[i].phase.Deployed?
    ensures LivesOk(RowLands(w, i))
  {
    var v := RowLands(w, i);
    var t := w.tasks[i].thread;
    forall k | k in v.live
      ensures LiveOk(v, k)
    {
      assert LiveOk(w, k) && LiveOk(w, i);
      var row := w.tasks[k];
      if v.live[k].phase.Finished? {
        RowLandsApplied(w, i, row.thread, row.cids);
      }
      if Started(v.live[k].phase) { StillUnaddressed(w, i, k); }
    }
  }

  lemma RowLandsKeeps(w: World, i: nat)
    requires Safe(w) && HandlerAt(w, i) && w.live[i].phase.Deployed?
    ensures Safe(RowLands(w, i))
  {
    var v := RowLands(w, i);
    var t := w.tasks[i].thread;
    RowLandsLives(w, i);
    assert LiveOk(w, i);
    forall k | 0 <= k < |v.tasks|
      ensures RowOk(v.cfg, v.clock, v.threads, v.tasks[k])
      ensures v.tasks[k].state.Done? ==> Applied(v.threads[v.tasks[k].thread], v.tasks[k].cids)
    {
      assert RowOk(w.cfg, w.clock, w.threads, w.tasks[k]);
      if v.tasks[k].state.Done? {
        RowLandsApplied(w, i, w.tasks[k].thread, w.tasks[k].cids);
      }
    }
    assert SourceOf(w.tasks, t, w.live[i].cids, i);
    forall s: nat, k: nat | s < |v.threads| && k < |v.threads[s].iterations|
      ensures HasSource(v.tasks, s, v.threads[s].iterations[k].cids)
    {
      if s != t || k < |w.threads[t].iterations| {
        assert v.threads[s].iterations[k] == w.threads[s].iterations[k];
        assert HasSource(w.tasks, s, w.threads[s].iterations[k].cids);
      }
    }
  }

  lemma RecordKeeps(w: World, i: nat)
    requires Safe(w) && HandlerAt(w, i) && w.live[i].phase.Deployed?
    ensures Safe(Record(w, i))
  {
    var t := w.tasks[i].thread;
    var run := w.live[i];
    var w1 := AddIteration(w, t, Iteration(run.phase.sha, run.parent, run.cids, run.phase.patch));
    var w3 := SetPhase(SetStatus(Narrate(w1, t), t, PreviewReady), i, Finished);
    RowLandsKeeps(w, i);
    ThreadsOnly(RowLands(w, i), w3);
    DrainKeeps(w3, t);
  }

  lemma DropRunKeeps(w: World, i: nat)
    requires Safe(w)
    ensures Safe(DropRun(w, i))
  {
    var v := DropRun(w, i);
    forall k | k in v.live
      ensures LiveOk(v, k)
    {
      assert LiveOk(w, k);
    }
  }

  lemma UnwindKeeps(w: World, i: nat)
    requires Safe(w) && HandlerAt(w, i) && !Unfinished(w.live[i].phase)
    ensures Safe(Unwind(w, i))
  {
    DropRunKeeps(w, i);
    assert LiveOk(w, i) && RowOk(w.cfg, w.clock, w.threads, w.tasks[i]);
    var v := Unwind(w, i);
    forall k | k in v.live
      ensures LiveOk(v, k)
    {
      assert LiveOk(w, k);
    }
    RowOnly(DropRun(w, i), v, i, v.tasks[i]);
  }

  lemma FailTaskKeeps(w: World, i: nat)
    requires Safe(w) && i < |w.tasks| && i !in w.live && w.tasks[i].thread < |w.threads|
    ensures Safe(FailTask(w, i))
  {
    assert RowOk(w.cfg, w.clock, w.threads, w.tasks[i]);
    var v := SetRow(w, i, FailRow(w.tasks[i]));
    forall k | k in v.live
      ensures LiveOk(v, k)
    {
      assert LiveOk(w, k);
    }
    RowOnly(w, v, i, FailRow(w.tasks[i]));
    ThreadsOnly(v, FailTask(w, i));
  }

  // The janitor never reclaims a row whose handler is alive.
  lemma ReapSparesTheLiving(w: World, i: nat)
    requires Safe(w) && i in w.live
    ensures i < |w.tasks| && !Expired(w.tasks[i], w.clock)
  {
    assert LiveOk(w, i);
  }

  // Ids of a sweep still to be surfaced: running, behind the clock, each named once.
  ghost predicate Overdue(w: World, ids: seq<nat>)
  {
    NoDup(ids) && forall i :: i in ids ==> i < |w.tasks| && Expired(w.tasks[i], w.clock)
  }

  lemma {:induction false} ReapAllKeeps(w: World, ids: seq<nat>)
    requires Safe(w) && Overdue(w, ids) && ThreadsResolve(w, ids)
    ensures Safe(ReapAll(w, ids))
    decreases |ids|
  {
    if ids != [] {
      assert ids[0] in ids;
      if ids[0] in w.live { ReapSparesTheLiving(w, ids[0]); }
      FailTaskKeeps(w, ids[0]);
      assert forall i :: i in ids[1..] ==> i in ids && i != ids[0];
      ReapAllKeeps(FailTask(w, ids[0]), ids[1..]);
    }
  }

  lemma RecoverThreadKeeps(w: World, t: nat)
    requires Safe(w) && t < |w.threads|
    ensures Safe(RecoverThread(w, t))
  {
    DrainKeeps(w, t);
    var th := w.threads[t];
    if th.status.PrOpen? || th.status.Merged? {
      ThreadsOnly(w, RecoverThread(w, t));
    }
  }

  lemma {:induction false} RecoverKeeps(w: World, n: nat)
    requires Safe(w) && n <= |w.threads|
    ensures Safe(RecoverUpTo(w, n))
  {
    hide Safe, RecoverThread;
    if n > 0 {
      RecoverKeeps(w, n - 1);
      var u := RecoverUpTo(w, n - 1);
      RecoverThreadKeeps(u, n - 1);
      assert RecoverUpTo(w, n) == RecoverThread(u, n - 1);
    }
  }

  lemma RestartKeeps(w: World)
    requires Safe(w)
    ensures Safe(Restart(w))
  {
    var dead := w.(live := map[], flows := seq(|w.flows|, f requires 0 <= f < |w.flows| => Kill(w.flows[f])));
    RecoverKeeps(dead, |dead.threads|);
  }

  lemma HandlerStepKeeps(w: World, s: Step)
    requires Safe(w) && Enabled(w, s) && (s.DoCode? || s.DoPush? || s.DoDeploy?)
    ensures Safe(Next(w, s))
  {
    var i := s.task;
    assert LiveOk(w, i);
    var p := if s.DoCode? then Phase.Coding else if s.DoPush? then Phase.Deploying else Deployed(s.sha, s.patch);
    PhaseKeeps(w, i, w.live[i].(phase := p));
    var u := SetPhase(w, i, p);
    if s.DoDeploy? {
      ThreadsOnly(u, Next(w, s));
    } else {
      SetStatusKeeps(u, w.tasks[i].thread, if s.DoCode? then ThreadStatus.Coding else ThreadStatus.Deploying);
    }
  }

  predicate IsFlowStep(s: Step)
  {
    s.DoApprove? || s.DoFlowOpened? || s.DoFlowOpenFailed? || s.DoFlowCi? || s.DoFlowBroke?
    || s.DoFlowLands? || s.DoFlowResumes?
  }

  lemma NarrateKeeps(w: World, t: nat)
    requires Safe(w) && t < |w.threads|
    ensures Safe(Narrate(w, t))
  {
    ThreadsOnly(w, Narrate(w, t));
  }

  lemma SetStatusKeeps(w: World, t: nat, s: ThreadStatus)
    requires Safe(w) && t < |w.threads|
    ensures Safe(SetStatus(w, t, s))
  {
    ThreadsOnly(w, SetStatus(w, t, s));
  }

  lemma SetFlowKeeps(w: World, f: nat, p: FlowPhase)
    requires Safe(w) && f < |w.flows|
    ensures Safe(SetFlow(w, f, p))
  {
    ThreadsOnly(w, SetFlow(w, f, p));
  }

  lemma FlowLandsKeeps(w: World, f: nat)
    requires Safe(w) && FlowAt(w, f)
    ensures Safe(FlowLands(w, f))
  {
    var t := w.flows[f].thread;
    SetFlowKeeps(w, f, Landed);
    var w1 := SetFlow(w, f, Landed);
    NarrateKeeps(w1, t);
    SetStatusKeeps(Narrate(w1, t), t, Merged);
    var w2 := SetStatus(Narrate(w1, t), t, Merged);
    NarrateKeeps(w2, t);
    SetStatusKeeps(Narrate(w2, t), t, ThreadStatus.Done);
  }

  lemma FlowOpenStepsKeep(w: World, f: nat, url: nat)
    requires Safe(w) && FlowAt(w, f)
    ensures Safe(FlowOpened(w, f, url)) && Safe(FlowOpenFailed(w, f))
  {
    var t := w.flows[f].thread;
    var w1 := WithThread(w, t, w.threads[t].(prUrl := Some(url)));
    ThreadsOnly(w, w1);
    NarrateKeeps(w1, t);
    SetFlowKeeps(Narrate(w1, t), f, AwaitCi);
    SetFlowKeeps(w, f, Gone);
    var w2 := SetFlow(w, f, Gone);
    NarrateKeeps(w2, t);
    SetStatusKeeps(Narrate(w2, t), t, PreviewReady);
  }

  lemma FlowResumesKeeps(w: World, f: nat)
    requires Safe(w) && FlowAt(w, f)
    ensures Safe(FlowResumes(w, f))
  {
    var t := w.flows[f].thread;
    NarrateKeeps(w, t);
    SetFlowKeeps(Narrate(w, t), f, AwaitCi);
    SetFlowKeeps(w, f, Reopening);
    SetFlowKeeps(w, f, Gone);
    SetStatusKeeps(Narrate(w, t), t, ThreadStatus.Done);
    SetFlowKeeps(SetStatus(Narrate(w, t), t, ThreadStatus.Done), f, Landed);
  }

  lemma ApproveKeeps(w: World, t: nat, who: Permission, reviewed: Option<Sha>)
    requires Safe(w) && t < |w.threads|
    ensures Safe(Approve(w, t, who, reviewed))
  {
    ThreadsOnly(w, Approve(w, t, who, reviewed));
  }

  lemma FlowStepKeeps(w: World, s: Step)
    requires Safe(w) && Enabled(w, s) && IsFlowStep(s)
    ensures Safe(Next(w, s))
  {
    match s
    case DoApprove(t, who, reviewed) => ApproveKeeps(w, t, who, reviewed);
    case DoFlowOpened(f, url) => FlowOpenStepsKeep(w, f, url);
    case DoFlowOpenFailed(f) => FlowOpenStepsKeep(w, f, 0);
    case DoFlowLands(f) => FlowLandsKeeps(w, f);
    case DoFlowResumes(f) => FlowResumesKeeps(w, f);
    case DoFlowCi(f) =>
      NarrateKeeps(w, w.flows[f].thread);
      SetFlowKeeps(Narrate(w, w.flows[f].thread), f, Merging);
    case DoFlowBroke(f) =>
      NarrateKeeps(w, w.flows[f].thread);
      SetFlowKeeps(Narrate(w, w.flows[f].thread), f, Stalled);
  }

  predicate IsUserStep(s: Step)
  {
    s.DoOpen? || s.DoPost? || s.DoCancelRun? || s.DoReplay?
  }

  lemma UserStepKeeps(w: World, s: Step)
    requires Safe(w) && Enabled(w, s) && IsUserStep(s)
    ensures Safe(Next(w, s))
  {
    match s
    case DoOpen(mentions, cap) => OpenThreadKeeps(w, mentions, cap);
    case DoPost(t, mentions, cap) => PostKeeps(w, t, mentions, cap);
    case DoCancelRun(t, who) => CancelRunKeeps(w, t, who);
    case DoReplay(i) => ReplayKeeps(w, i);
  }

  lemma QueueStepKeeps(w: World, s: Step)
    requires Safe(w) && Enabled(w, s) && !IsUserStep(s) && !IsFlowStep(s) && !s.DoCode? && !s.DoPush? && !s.DoDeploy?
    ensures Safe(Next(w, s))
  {
    match s
    case DoClaim(k) => ClaimKeeps(w, k);
    case DoBeat(i) => BeatKeeps(w, i);
    case DoTick(now) => TickKeeps(w, now);
    case DoStart(i) => StartKeeps(w, i);
    case DoRecord(i) => RecordKeeps(w, i);
    case DoUnwind(i) => UnwindKeeps(w, i);
    case DoFail(i) =>
      DropRunKeeps(w, i);
      FailTaskKeeps(DropRun(w, i), i);
    case DoVanish(i) => DropRunKeeps(w, i);
    case DoReap => ReapAllKeeps(w, ExpiredIds(w.tasks, w.clock, |w.tasks|));
    case DoRestart => RestartKeeps(w);
  }

  lemma StepKeeps(w: World, s: Step)
    requires Safe(w) && Enabled(w, s)
    ensures Safe(Next(w, s))
  {
    if IsUserStep(s) {
      UserStepKeeps(w, s);
    } else if IsFlowStep(s) {
      FlowStepKeeps(w, s);
    } else if s.DoCode? || s.DoPush? || s.DoDeploy? {
      HandlerStepKeeps(w, s);
    } else {
      QueueStepKeeps(w, s);
    }
  }

  lemma {:induction false} RunKeeps(w: World, steps: seq<Step>)
    requires Safe(w) && IsRun(w, steps)
    ensures Safe(Exec(w, steps))
    decreases |steps|
  {
    if steps != [] {
      StepKeeps(w, steps[0]);
      RunKeeps(Next(w, steps[0]), steps[1..]);
    }
  }
}
