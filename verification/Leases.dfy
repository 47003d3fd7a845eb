/**
 Lease mutual exclusion. The step system lets the clock advance only while every heartbeat is at
 most `lateMs` late; that is the only premise. In every run the janitor then never reclaims a
 row whose handler is alive, and live handlers never exceed the worker pool.
 */
module Leases {
  import opened Domain
  import opened TaskTable
  import opened Protocol
  import opened Safety

  // ---- one sweep ------------------------------------------------------------------------

  lemma {:induction false} ReapAllRows(w: World, ids: seq<nat>)
    requires Overdue(w, ids) && ThreadsResolve(w, ids)
    ensures |ReapAll(w, ids).tasks| == |w.tasks|
    ensures forall k :: 0 <= k < |w.tasks| ==>
      ReapAll(w, ids).tasks[k] == if k in ids then FailRow(w.tasks[k]) else w.tasks[k]
    ensures ReapAll(w, ids).live == w.live
    decreases |ids|
  {
    if ids != [] {
      assert ids[0] in ids;
      assert forall i :: i in ids[1..] ==> i in ids && i != ids[0];
      ReapAllRows(FailTask(w, ids[0]), ids[1..]);
      assert ids == [ids[0]] + ids[1..];
    }
  }

  // The janitor's step sweeps the whole table once and leaves live handlers and their rows alone.
  lemma SweepSparesTheLiving(w: World)
    requires Safe(w) && Enabled(w, DoReap)
    ensures SweptAt(w.tasks, Next(w, DoReap).tasks, w.clock)
    ensures Next(w, DoReap).live == w.live
    ensures forall i :: i in w.live ==> i < |w.tasks| && Next(w, DoReap).tasks[i] == w.tasks[i]
  {
    ReapAllRows(w, ExpiredIds(w.tasks, w.clock, |w.tasks|));
    forall i | i in w.live
      ensures i < |w.tasks| && Next(w, DoReap).tasks[i] == w.tasks[i]
    {
      ReapSparesTheLiving(w, i);
    }
  }

  // A claim never replaces a live handler: the claimed row has none.
  lemma ClaimFindsNoHandler(w: World, worker: nat)
    requires Safe(w) && WorkerFree(w, worker) && OldestQueued(w.tasks, |w.tasks|).Some?
    ensures OldestQueued(w.tasks, |w.tasks|).value !in w.live
    ensures Claim(w, worker).live.Keys == w.live.Keys + {OldestQueued(w.tasks, |w.tasks|).value}
  {
    forall k | k in w.live
      ensures k < |w.tasks| && !w.tasks[k].state.Queued?
    {
      assert LiveOk(w, k);
    }
  }

  // `fail` answers before its compare-and-swap. A handler that raises or runs out of time still
  // owns its row, so the answer surfaced on the thread is the row's new state.
  lemma FailAnswersTruly(w: World, i: nat)
    requires Safe(w) && Enabled(w, DoFail(i))
    ensures Next(w, DoFail(i)).tasks[i].state == FailState(w.tasks[i])
    ensures Next(w, DoFail(i)).threads[w.tasks[i].thread].status ==
      if Next(w, DoFail(i)).tasks[i].state.Dlq? then ThreadStatus.Failed else Triggered
  {
    assert LiveOk(w, i);
  }

  // ---- the pool bound ----------------------------------------------------------------------

  lemma {:induction false} DistinctWorkersFit(live: map<nat, Run>, keys: set<nat>, n: nat)
    requires keys <= live.Keys
    requires forall i :: i in keys ==> live[i].worker < n
    requires forall i, j :: i in keys && j in keys && live[i].worker == live[j].worker ==> i == j
    ensures |keys| <= n
  {
    if n == 0 {
      assert keys == {};
    } else {
      var last := set i | i in keys && live[i].worker == n - 1;
      if last == {} {
        assert forall i :: i in keys ==> i !in last;
        DistinctWorkersFit(live, keys, n - 1);
      } else {
        var i :| i in last;
        assert last == {i};
        DistinctWorkersFit(live, keys - {i}, n - 1);
      }
    }
  }

  // No live handler's row is behind the clock, so the janitor has no claim on it.
  predicate LivingHoldLeases(w: World)
  {
    forall i :: i in w.live ==> i < |w.tasks| && !Expired(w.tasks[i], w.clock)
  }

  // In every run live handlers hold their leases, and the pool is never exceeded.
  lemma LeaseMutualExclusion(cfg: Config, steps: seq<Step>)
    requires ConfigOk(cfg) && IsRun(Initial(cfg), steps)
    ensures LivingHoldLeases(Exec(Initial(cfg), steps))
    ensures |Exec(Initial(cfg), steps).live| <= Exec(Initial(cfg), steps).cfg.maxInflight
  {
    RunKeeps(Initial(cfg), steps);
    var w := Exec(Initial(cfg), steps);
    forall i | i in w.live
      ensures i < |w.tasks| && !Expired(w.tasks[i], w.clock) && w.live[i].worker < w.cfg.maxInflight
    {
      assert LiveOk(w, i);
    }
    DistinctWorkersFit(w.live, w.live.Keys, w.cfg.maxInflight);
    assert |w.live| == |w.live.Keys|;
  }

  // ---- how long a lease must be ---------------------------------------------------------------

  // Some lateness is tolerable exactly when the lease is at least the half-second floor of the
  // heartbeat interval.
  lemma LeaseFitsHeartbeatIff(leaseMs: nat, max: nat, inflight: nat, main: Sha)
    requires max >= 1
    ensures (exists late: nat :: ConfigOk(Config(inflight, leaseMs, late, max, main))) <==> leaseMs >= 500
  {
    if leaseMs >= 500 {
      assert ConfigOk(Config(inflight, leaseMs, 0, max, main));
    }
  }
}
