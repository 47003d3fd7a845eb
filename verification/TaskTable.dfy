/**
 The durable task table. Every transition is a compare-and-swap on a row's current state:
 the row functions are the guarded updates, TaskRepo applies them in place.
 */
module TaskTable {
  import opened Domain

  predicate IsActive(r: Task) { r.state.Queued? || r.state.Running? }

  predicate ActiveIn(rows: seq<Task>, t: nat, i: nat)
  {
    i < |rows| && rows[i].thread == t && IsActive(rows[i])
  }

  predicate CoveredBy(rows: seq<Task>, t: nat, c: nat, i: nat)
  {
    i < |rows| && rows[i].thread == t && c in rows[i].cids
  }

  // Some task, in any state, has covered the comment.
  predicate Covered(rows: seq<Task>, t: nat, c: nat)
  {
    exists i :: 0 <= i < |rows| && CoveredBy(rows, t, c, i)
  }

  // ---- guarded row updates ----------------------------------------------------

  function NewTask(t: nat, cids: seq<nat>, maxAttempts: nat, now: nat): Task
  {
    Task(t, cids, Queued, 0, maxAttempts, None, 0, now)
  }

  function CoalesceRow(r: Task, c: nat): Task
  {
    if r.state.Queued? then r.(cids := r.cids + [c]) else r
  }

  function ClaimRow(r: Task, worker: nat, leaseMs: nat, now: nat): Task
  {
    if r.state.Queued?
    then r.(state := Running, claimedBy := Some(worker), attempts := r.attempts + 1, lease := now + leaseMs)
    else r
  }

  function BeatRow(r: Task, worker: nat, leaseMs: nat, now: nat): Task
  {
    if r.state.Running? && r.claimedBy == Some(worker) then r.(lease := now + leaseMs) else r
  }

  function CompleteRow(r: Task): Task
  {
    if r.state.Running? then r.(state := TaskState.Done) else r
  }

  function CancelRow(r: Task): Task
  {
    if IsActive(r) then r.(state := TaskState.Cancelled) else r
  }

  // What `fail` answers. It is computed before the compare-and-swap.
  function FailState(r: Task): TaskState
  {
    if r.attempts >= r.maxAttempts then Dlq else Queued
  }

  function FailRow(r: Task): Task
  {
    if r.state.Running? then r.(state := FailState(r), claimedBy := None, lease := 0) else r
  }

  function ReplayRow(r: Task): Task
  {
    if r.state.Dlq? then r.(state := Queued, attempts := 0, claimedBy := None, lease := 0) else r
  }

  predicate Expired(r: Task, now: nat) { r.state.Running? && r.lease < now }

  function ReapRow(r: Task, now: nat): Task
  {
    if Expired(r, now) then FailRow(r) else r
  }

  function ExpiredIds(rows: seq<Task>, now: nat, n: nat): (ids: seq<nat>)
    requires n <= |rows|
    ensures forall k :: 0 <= k < |ids| ==> ids[k] < n && Expired(rows[ids[k]], now)
    ensures forall i :: 0 <= i < n && Expired(rows[i], now) ==> i in ids
    ensures NoDup(ids)
  {
    if n == 0 then []
    else ExpiredIds(rows, now, n - 1) + (if Expired(rows[n - 1], now) then [n - 1] else [])
  }

  // ---- ordered queries ----------------------------------------------------------

  // ORDER BY created_at, rowid
  predicate Before(rows: seq<Task>, i: nat, j: nat)
    requires i < |rows| && j < |rows|
  {
    rows[i].createdAt < rows[j].createdAt || (rows[i].createdAt == rows[j].createdAt && i <= j)
  }

  // The newest active row of thread t among the first n.
  function NewestActive(rows: seq<Task>, t: nat, n: nat): (r: Option<nat>)
    requires n <= |rows|
    ensures r.Some? ==> r.value < n && ActiveIn(rows, t, r.value)
    ensures r.Some? ==> forall j :: 0 <= j < n && ActiveIn(rows, t, j) ==> Before(rows, j, r.value)
    ensures r.None? ==> forall j :: 0 <= j < n ==> !ActiveIn(rows, t, j)
  {
    if n == 0 then None
    else
      var p := NewestActive(rows, t, n - 1);
      if ActiveIn(rows, t, n - 1) && (p.None? || rows[p.value].createdAt <= rows[n - 1].createdAt)
      then Some(n - 1) else p
  }

  function ActiveTask(rows: seq<Task>, t: nat): Option<nat>
  {
    NewestActive(rows, t, |rows|)
  }

  // The queued row first in line among the first n.
  function OldestQueued(rows: seq<Task>, n: nat): (r: Option<nat>)
    requires n <= |rows|
    ensures r.Some? ==> r.value < n && rows[r.value].state.Queued?
    ensures r.Some? ==> forall j :: 0 <= j < n && rows[j].state.Queued? ==> Before(rows, r.value, j)
    ensures r.None? ==> forall j :: 0 <= j < n ==> !rows[j].state.Queued?
  {
    if n == 0 then None
    else
      var p := OldestQueued(rows, n - 1);
      if rows[n - 1].state.Queued? && (p.None? || rows[n - 1].createdAt < rows[p.value].createdAt)
      then Some(n - 1) else p
  }

  predicate SortedByCreation(rows: seq<Task>)
  {
    forall i, j :: 0 <= i <= j < |rows| ==> rows[i].createdAt <= rows[j].createdAt
  }

  // With a monotone clock the newest active row is the one with the largest rowid.
  lemma ActiveTaskIs(rows: seq<Task>, t: nat, i: nat)
    requires SortedByCreation(rows) && ActiveIn(rows, t, i)
    requires forall j :: 0 <= j < |rows| && ActiveIn(rows, t, j) ==> j <= i
    ensures ActiveTask(rows, t) == Some(i)
  {
    var r := ActiveTask(rows, t);
    assert Before(rows, i, r.value);
  }

  // ---- what a sweep does ----------------------------------------------------------

  ghost predicate SweptAt(rows: seq<Task>, after: seq<Task>, now: nat)
  {
    |after| == |rows| && forall i :: 0 <= i < |rows| ==> after[i] == ReapRow(rows[i], now)
  }

  // One pass leaves no running row behind the clock and touches only rows that were behind it.
  lemma SweepIsComplete(rows: seq<Task>, after: seq<Task>, now: nat)
    requires SweptAt(rows, after, now)
    ensures forall i :: 0 <= i < |after| ==> !(after[i].state.Running? && after[i].lease < now)
    ensures forall i :: 0 <= i < |rows| && after[i] != rows[i] ==>
      rows[i].state.Running? && rows[i].lease < now && (after[i].state.Queued? || after[i].state.Dlq?)
    ensures forall i :: 0 <= i < |rows| ==>
      after[i].cids == rows[i].cids && after[i].attempts == rows[i].attempts
  {
    forall i | 0 <= i < |rows|
      ensures !(after[i].state.Running? && after[i].lease < now)
      ensures after[i] != rows[i] ==>
        rows[i].state.Running? && rows[i].lease < now && (after[i].state.Queued? || after[i].state.Dlq?)
      ensures after[i].cids == rows[i].cids && after[i].attempts == rows[i].attempts
    {
      assert after[i] == ReapRow(rows[i], now);
    }
  }

  // ---- the repository -------------------------------------------------------------

  class TaskRepo {
    var rows: seq<Task>

    constructor ()
      ensures rows == []
    {
      rows := [];
    }

    method Enqueue(t: nat, cids: seq<nat>, maxAttempts: nat, now: nat)
      modifies this
      ensures rows == old(rows) + [NewTask(t, cids, maxAttempts, now)]
    {
      rows := rows + [Task(t, cids, Queued, 0, maxAttempts, None, 0, now)];
    }

    method ActiveForThread(t: nat) returns (r: Option<nat>)
      ensures r == ActiveTask(rows, t)
    {
      r := None;
      var n := 0;
      while n < |rows|
        invariant 0 <= n <= |rows|
        invariant r == NewestActive(rows, t, n)
      {
        if rows[n].thread == t && (rows[n].state.Queued? || rows[n].state.Running?) {
          if r.None? || rows[r.value].createdAt <= rows[n].createdAt {
            r := Some(n);
          }
        }
        n := n + 1;
      }
    }

    method CoalesceComment(i: nat, c: nat) returns (hit: bool)
      requires i < |rows|
      modifies this
      ensures hit == old(rows[i].state.Queued?)
      ensures rows == old(rows)[i := CoalesceRow(old(rows[i]), c)]
    {
      hit := rows[i].state.Queued?;
      if hit {
        rows := rows[i := rows[i].(cids := rows[i].cids + [c])];
      }
    }

    // Claim the queued row first in line. A second process could win the row between the
    // query and the update; within one event loop the first update always lands.
    method ClaimNext(worker: nat, leaseMs: nat, now: nat) returns (r: Option<nat>)
      modifies this
      ensures r == OldestQueued(old(rows), |old(rows)|)
      ensures rows == if r.None? then old(rows)
                      else old(rows)[r.value := ClaimRow(old(rows)[r.value], worker, leaseMs, now)]
    {
      r := None;
      var n := 0;
      while n < |rows|
        invariant 0 <= n <= |rows|
        invariant rows == old(rows)
        invariant r == OldestQueued(rows, n)
      {
        if rows[n].state.Queued? && (r.None? || rows[n].createdAt < rows[r.value].createdAt) {
          r := Some(n);
        }
        n := n + 1;
      }
      if r.Some? {
        var row := rows[r.value];
        rows := rows[r.value := row.(state := Running, claimedBy := Some(worker),
                                     attempts := row.attempts + 1, lease := now + leaseMs)];
      }
    }

    method Heartbeat(i: nat, worker: nat, leaseMs: nat, now: nat) returns (hit: bool)
      requires i < |rows|
      modifies this
      ensures hit == old(rows[i].state.Running? && rows[i].claimedBy == Some(worker))
      ensures rows == old(rows)[i := BeatRow(old(rows[i]), worker, leaseMs, now)]
    {
      hit := rows[i].state.Running? && rows[i].claimedBy == Some(worker);
      if hit {
        rows := rows[i := rows[i].(lease := now + leaseMs)];
      }
    }

    method Complete(i: nat) returns (hit: bool)
      requires i < |rows|
      modifies this
      ensures hit == old(rows[i].state.Running?)
      ensures rows == old(rows)[i := CompleteRow(old(rows[i]))]
    {
      hit := rows[i].state.Running?;
      if hit {
        rows := rows[i := rows[i].(state := TaskState.Done)];
      }
    }

    method Cancel(i: nat)
      requires i < |rows|
      modifies this
      ensures rows == old(rows)[i := CancelRow(old(rows[i]))]
    {
      if rows[i].state.Queued? || rows[i].state.Running? {
        rows := rows[i := rows[i].(state := TaskState.Cancelled)];
      }
    }

    method Fail(i: nat) returns (answer: TaskState)
      requires i < |rows|
      modifies this
      ensures answer == FailState(old(rows[i]))
      ensures rows == old(rows)[i := FailRow(old(rows[i]))]
    {
      var row := rows[i];
      answer := if row.attempts >= row.maxAttempts then Dlq else Queued;
      if row.state.Running? {
        rows := rows[i := row.(state := answer, claimedBy := None, lease := 0)];
      }
    }

    // Janitor sweep: collect the expired rows, then fail each; report each with its new state.
    method ReapExpired(now: nat) returns (out: seq<(nat, TaskState)>)
      modifies this
      ensures SweptAt(old(rows), rows, now)
      ensures |out| == |ExpiredIds(old(rows), now, |old(rows)|)|
      ensures forall k :: 0 <= k < |out| ==>
        out[k].0 == ExpiredIds(old(rows), now, |old(rows)|)[k]
        && out[k].0 < |rows| && out[k].1 == rows[out[k].0].state
    {
      ghost var was := rows;
      var ids := ExpiredIds(rows, now, |rows|);
      out := [];
      for k := 0 to |ids|
        invariant |rows| == |was| && |out| == k
        invariant forall i :: 0 <= i < |was| ==>
          rows[i] == if i in ids[..k] then FailRow(was[i]) else was[i]
        invariant forall m :: 0 <= m < k ==> out[m].0 == ids[m] && out[m].1 == FailState(was[ids[m]])
      {
        assert ids[..k + 1] == ids[..k] + [ids[k]];
        var answer := Fail(ids[k]);
        out := out + [(ids[k], answer)];
      }
      assert ids[..|ids|] == ids;
    }

    method RequeueFromDlq(i: nat) returns (hit: bool)
      requires i < |rows|
      modifies this
      ensures hit == old(rows[i].state.Dlq?)
      ensures rows == old(rows)[i := ReplayRow(old(rows[i]))]
    {
      hit := rows[i].state.Dlq?;
      if hit {
        rows := rows[i := rows[i].(state := Queued, attempts := 0, claimedBy := None, lease := 0)];
      }
    }

    method CoveredCommentIds(t: nat) returns (out: set<nat>)
      ensures forall c :: c in out <==> Covered(rows, t, c)
    {
      out := {};
      var n := 0;
      while n < |rows|
        invariant 0 <= n <= |rows|
        invariant forall c :: c in out ==> Covered(rows[..n], t, c)
        invariant forall c, i :: 0 <= i < n && CoveredBy(rows, t, c, i) ==> c in out
      {
        var more := if rows[n].thread == t then set c | c in rows[n].cids else {};
        forall c | c in out + more
          ensures Covered(rows[..n + 1], t, c)
        {
          if c in more {
            assert CoveredBy(rows[..n + 1], t, c, n);
          } else {
            var i :| 0 <= i < n && CoveredBy(rows[..n], t, c, i);
            assert CoveredBy(rows[..n + 1], t, c, i);
          }
        }
        out := out + more;
        n := n + 1;
      }
      assert rows[..n] == rows;
    }
  }
}
