/**
 Crash-free runs in which a dead-lettered task is replayed only under ReplayGuard: one writer
 per thread, statuses that track the handler, and at most one approval flow whose sha is the
 thread's preview from the moment it is approved.
 */
module Lifecycle {
  import opened Domain
  import opened TaskTable
  import opened Protocol
  import opened Safety
  import opened Journal

  // ---- the invariant --------------------------------------------------------------------

  // Work still to be recorded. A RUNNING row whose handler has returned only lingers.
  predicate Outstanding(w: World, t: nat, i: nat)
  {
    ActiveIn(w.tasks, t, i) && !(w.tasks[i].state.Running? && i in w.live && w.live[i].phase.Finished?)
  }

  predicate Tracks(w: World, i: nat, s: ThreadStatus)
  {
    i < |w.tasks| &&
    if w.tasks[i].state.Queued? then s.Triggered?
    else if i in w.live then
      match w.live[i].phase
      case Spawned => s.Triggered?
      case Analyzing => s.Analyzing?
      case Coding => s.Coding?
      case Deploying => s.Deploying?
      case Deployed(_, _) => s.Deploying?
      case _ => true
    else InFlight(s)
  }

  ghost predicate OneWriter(w: World, t: nat)
    requires t < |w.threads|
  {
    var s := w.threads[t].status;
    && (forall i: nat :: Outstanding(w, t, i) ==> InFlight(s) && Tracks(w, i, s))
    && (InFlight(s) ==> exists i: nat :: Outstanding(w, t, i))
    && (forall i: nat, j: nat :: Outstanding(w, t, i) && ActiveIn(w.tasks, t, j) ==> j <= i)
  }

  // A flow of the thread that may still have, or has, a PR.
  predicate HasFlow(w: World, t: nat, f: nat)
  {
    f < |w.flows| && w.flows[f].thread == t && !w.flows[f].phase.Gone?
  }

  ghost predicate OneFlow(w: World, t: nat)
    requires t < |w.threads|
  {
    var th := w.threads[t];
    && (forall f: nat :: HasFlow(w, t, f) ==>
          th.preview == Some(w.flows[f].sha)
          && (if w.flows[f].phase.Landed? then th.status.Done? else th.status.PrOpen?)
          && !w.flows[f].phase.Resuming? && !w.flows[f].phase.Reopening?)
    && (forall f: nat, g: nat :: HasFlow(w, t, f) && HasFlow(w, t, g) ==> f == g)
    && (Closed(th.status) ==> exists f: nat :: HasFlow(w, t, f))
  }

  ghost predicate HistoryOk(w: World, t: nat)
    requires t < |w.threads|
  {
    var h := w.threads[t].history;
    && (forall k :: 0 <= k < |h| && h[k].Merged? ==> exists f: nat :: HasFlow(w, t, f) && w.flows[f].phase.Landed?)
    && (forall k :: 0 <= k < |h| && h[k].Done? ==> k > 0 && h[k - 1].Merged?)
  }

  ghost predicate CalmAt(w: World, t: nat)
    requires t < |w.threads|
  {
    OneWriter(w, t) && OneFlow(w, t) && HistoryOk(w, t)
  }

  ghost predicate Calm(w: World)
  {
    forall t: nat :: t < |w.threads| ==> CalmAt(w, t)
  }

  // ---- threads a step does not concern ----------------------------------------------------

  // v is w as far as every thread but t can see.
  ghost predicate Aside(w: World, v: World, t: nat)
  {
    && |w.threads| <= |v.threads| && |w.tasks| <= |v.tasks| && |w.flows| <= |v.flows|
    && (forall s :: 0 <= s < |w.threads| && s != t ==> v.threads[s] == w.threads[s])
    && (|v.threads| > |w.threads| ==> t == |w.threads| && |v.threads| == t + 1)
    && (forall i :: 0 <= i < |w.tasks| ==> v.tasks[i].thread == w.tasks[i].thread)
    && (forall i :: |w.tasks| <= i < |v.tasks| ==> v.tasks[i].thread == t)
    && (forall i :: 0 <= i < |w.tasks| && w.tasks[i].thread != t ==>
          v.tasks[i] == w.tasks[i] && (i in v.live <==> i in w.live)
          && (i in w.live ==> v.live[i].phase == w.live[i].phase))
    && (forall f :: 0 <= f < |w.flows| ==>
          v.flows[f].thread == w.flows[f].thread && (w.flows[f].thread != t ==> v.flows[f] == w.flows[f]))
    && (forall f :: |w.flows| <= f < |v.flows| ==> v.flows[f].thread == t)
  }

  // The thread has the same work, flows and status in both; rows may have stopped lingering.
  ghost predicate SameWork(w: World, v: World, t: nat)
    requires t < |w.threads| && t < |v.threads|
  {
    && v.threads[t].status == w.threads[t].status && v.threads[t].preview == w.threads[t].preview
    && v.threads[t].history == w.threads[t].history
    && (forall i: nat :: Outstanding(v, t, i) <==> Outstanding(w, t, i))
    && (forall i: nat :: ActiveIn(v.tasks, t, i) ==> ActiveIn(w.tasks, t, i))
    && (forall i: nat :: Outstanding(v, t, i) && Tracks(w, i, w.threads[t].status) ==> Tracks(v, i, w.threads[t].status))
    && (forall f: nat :: HasFlow(w, t, f) <==> HasFlow(v, t, f))
    && (forall f: nat :: HasFlow(w, t, f) ==> SameKind(w.flows[f], v.flows[f]))
  }

  // The flow may move on, short of landing.
  predicate SameKind(a: Flow, b: Flow)
  {
    && a.sha == b.sha && (a.phase.Landed? <==> b.phase.Landed?)
    && (b.phase.Resuming? ==> a.phase.Resuming?) && (b.phase.Reopening? ==> a.phase.Reopening?)
  }

  lemma SameWorkIsCalm(w: World, v: World, t: nat)
    requires t < |w.threads| && t < |v.threads| && CalmAt(w, t) && SameWork(w, v, t)
    ensures CalmAt(v, t)
  {
    if InFlight(w.threads[t].status) {
      var i: nat :| Outstanding(w, t, i);
      assert Outstanding(v, t, i);
    }
    if Closed(w.threads[t].status) {
      var f: nat :| HasFlow(w, t, f);
      assert HasFlow(v, t, f);
    }
    var h := v.threads[t].history;
    forall k | 0 <= k < |h| && h[k].Merged?
      ensures exists f: nat :: HasFlow(v, t, f) && v.flows[f].phase.Landed?
    {
      var f: nat :| HasFlow(w, t, f) && w.flows[f].phase.Landed?;
      assert HasFlow(v, t, f);
    }
  }

  lemma AsideIsCalm(w: World, v: World, t: nat)
    requires Calm(w) && Aside(w, v, t) && t < |v.threads| && CalmAt(v, t)
    ensures Calm(v)
  {
    forall s: nat | s < |v.threads| && s != t
      ensures CalmAt(v, s)
    {
      assert forall i: nat :: ActiveIn(v.tasks, s, i) <==> ActiveIn(w.tasks, s, i);
      assert forall i: nat :: Outstanding(v, s, i) <==> Outstanding(w, s, i);
      assert SameWork(w, v, s);
      SameWorkIsCalm(w, v, s);
    }
  }

  // ---- a thread ends a step settled, or busy with one task ------------------------------------

  // New history entries are neither MERGED nor DONE.
  ghost predicate PlainHistory(a: seq<ThreadStatus>, b: seq<ThreadStatus>)
  {
    a <= b && forall k :: |a| <= k < |b| ==> !b[k].Merged? && !b[k].Done?
  }

  // Not closed, and the same flows as before.
  ghost predicate StaysOpen(w: World, v: World, t: nat)
    requires t < |w.threads| && t < |v.threads|
  {
    && !Closed(w.threads[t].status) && PlainHistory(w.threads[t].history, v.threads[t].history)
    && (forall f: nat :: HasFlow(v, t, f) ==> HasFlow(w, t, f))
  }

  lemma OpenHasNoFlow(w: World, v: World, t: nat)
    requires t < |w.threads| && t < |v.threads| && OneFlow(w, t) && HistoryOk(w, t) && StaysOpen(w, v, t)
    requires !Closed(v.threads[t].status)
    ensures OneFlow(v, t) && HistoryOk(v, t)
  {
    assert forall f: nat :: !HasFlow(w, t, f);
    var h, g := w.threads[t].history, v.threads[t].history;
    forall k | 0 <= k < |g|
      ensures !g[k].Merged? && !g[k].Done?
    {
      if k < |h| {
        assert g[k] == h[k] && !h[k].Merged?;
        assert k > 0 ==> !h[k - 1].Merged?;
      }
    }
  }

  lemma Settled(w: World, v: World, t: nat)
    requires t < |w.threads| && t < |v.threads| && OneFlow(w, t) && HistoryOk(w, t) && StaysOpen(w, v, t)
    requires !Closed(v.threads[t].status) && !InFlight(v.threads[t].status)
    requires forall i: nat :: !Outstanding(v, t, i)
    ensures CalmAt(v, t)
  {
    OpenHasNoFlow(w, v, t);
  }

  lemma Busy(w: World, v: World, t: nat, i: nat)
    requires t < |w.threads| && t < |v.threads| && OneFlow(w, t) && HistoryOk(w, t) && StaysOpen(w, v, t)
    requires InFlight(v.threads[t].status) && Outstanding(v, t, i) && Tracks(v, i, v.threads[t].status)
    requires forall j: nat :: Outstanding(v, t, j) ==> j == i
    requires forall j: nat :: ActiveIn(v.tasks, t, j) ==> j <= i
    ensures CalmAt(v, t)
  {
    OpenHasNoFlow(w, v, t);
  }

  // The only outstanding task of a thread in flight is its active task.
  lemma TheOutstanding(w: World, t: nat) returns (i: nat)
    requires Safe(w) && t < |w.threads| && CalmAt(w, t) && InFlight(w.threads[t].status)
    ensures Outstanding(w, t, i) && ActiveTask(w.tasks, t) == Some(i)
    ensures forall j: nat :: Outstanding(w, t, j) ==> j == i
    ensures forall j: nat :: ActiveIn(w.tasks, t, j) ==> j <= i
  {
    i :| Outstanding(w, t, i);
    ActiveTaskIs(w.tasks, t, i);
  }

  // ---- submissions -------------------------------------------------------------------------

  // A thread that is open, with nothing outstanding and no flow, takes a new task.
  ghost predicate Vacant(w: World, t: nat)
    requires t < |w.threads|
  {
    && OneFlow(w, t) && HistoryOk(w, t) && !Closed(w.threads[t].status)
    && forall i: nat :: !Outstanding(w, t, i)
  }

  lemma SubmitBusies(w: World, t: nat, cids: seq<nat>)
    requires LivesOk(w) && t < |w.threads| && Vacant(w, t)
    requires cids != [] && !Covered(w.tasks, t, cids[|cids| - 1])
    ensures CalmAt(Submit(w, t, cids), t) && Aside(w, Submit(w, t, cids), t)
  {
    SubmitAlwaysSubmits(w, t, cids);
    var v := Submit(w, t, cids);
    var n := |w.tasks|;
    assert v.tasks[n] == NewTask(t, cids, w.cfg.maxAttempts, w.clock);
    forall k | k in w.live
      ensures k < n
    {
      assert LiveOk(w, k);
    }
    forall j: nat | Outstanding(v, t, j)
      ensures j == n
    {
      if j < n { assert Outstanding(w, t, j); }
    }
    Busy(w, v, t, n);
  }

  lemma AsideTransitive(u: World, v: World, w: World, t: nat)
    requires Aside(u, v, t) && Aside(v, w, t)
    ensures Aside(u, w, t)
  {
  }

  lemma ThreadIsAside(w: World, v: World, t: nat)
    requires t < |w.threads| == |v.threads| && v == w.(threads := w.threads[t := v.threads[t]])
    ensures Aside(w, v, t)
  {
  }

  lemma TaskIsAside(w: World, v: World, i: nat)
    requires i < |w.tasks| == |v.tasks| && v.tasks[i].thread == w.tasks[i].thread
    requires v == w.(tasks := w.tasks[i := v.tasks[i]], live := v.live)
    requires forall k :: k != i ==> (k in v.live <==> k in w.live) && (k in w.live ==> v.live[k] == w.live[k])
    ensures Aside(w, v, w.tasks[i].thread)
  {
  }

  lemma AddTaskIsAside(w: World, t: nat, cids: seq<nat>)
    requires t < |w.threads|
    ensures Aside(w, AddTask(w, t, cids), t)
  {
  }

  lemma NarrateIsAside(w: World, t: nat)
    requires t < |w.threads|
    ensures Aside(w, Narrate(w, t), t) && (OneFlow(w, t) <==> OneFlow(Narrate(w, t), t))
    ensures HistoryOk(w, t) <==> HistoryOk(Narrate(w, t), t)
    ensures OneWriter(w, t) <==> OneWriter(Narrate(w, t), t)
  {
    var v := Narrate(w, t);
    assert forall i: nat :: Outstanding(v, t, i) <==> Outstanding(w, t, i);
    assert forall f: nat :: HasFlow(v, t, f) <==> HasFlow(w, t, f);
  }

  lemma DrainCalm(w: World, t: nat)
    requires LivesOk(w) && t < |w.threads| && CalmAt(w, t) && !InFlight(w.threads[t].status)
    ensures CalmAt(DrainPending(w, t), t) && Aside(w, DrainPending(w, t), t)
  {
    var th := w.threads[t];
    var pending := PendingIds(th, w.tasks, t, |th.comments|);
    if !(Closed(th.status) || th.status.Failed? || pending == []) {
      assert pending[|pending| - 1] in pending;
      var v := Narrate(w, t);
      NarrateIsAside(w, t);
      assert forall i: nat :: Outstanding(v, t, i) ==> Outstanding(w, t, i);
      assert LivesOk(v) by {
        forall k | k in v.live ensures LiveOk(v, k) { assert LiveOk(w, k); }
      }
      SubmitBusies(v, t, pending);
      AsideTransitive(w, v, DrainPending(w, t), t);
    }
  }

  // ---- comments --------------------------------------------------------------------------------

  // A comment before the cutoff: the active task is cancelled and its asks move to a new one.
  lemma InterruptCalm(w: World, t: nat, i: nat, c: nat)
    requires Safe(w) && t < |w.threads| && CalmAt(w, t) && InFlight(w.threads[t].status)
    requires ActiveTask(w.tasks, t) == Some(i) && IsAsk(w.threads[t], c) && !Covered(w.tasks, t, c)
    ensures
      var v := Submit(Narrate(CancelTask(w, i), t), t, Dedup(w.tasks[i].cids + [c]));
      CalmAt(v, t) && Aside(w, v, t)
  {
    var o := TheOutstanding(w, t);
    InterruptDoes(w, t, i, c);
    InterruptedCalm(w, t, i, w.tasks[i].cids + [c]);
    InterruptedIsAside(w, t, i, w.tasks[i].cids + [c]);
  }

  function Interrupted(w: World, t: nat, i: nat, cids: seq<nat>): World
    requires t < |w.threads| && i < |w.tasks|
  {
    AddTask(SetStatus(Narrate(CancelTask(w, i), t), t, Triggered), t, cids)
  }

  lemma InterruptedIsAside(w: World, t: nat, i: nat, cids: seq<nat>)
    requires t < |w.threads| && ActiveIn(w.tasks, t, i)
    ensures Aside(w, Interrupted(w, t, i, cids), t)
  {
    var u := CancelTask(w, i);
    var v := SetStatus(Narrate(u, t), t, Triggered);
    TaskIsAside(w, u, i);
    ThreadIsAside(u, v, t);
    AsideTransitive(w, u, v, t);
    AddTaskIsAside(v, t, cids);
    AsideTransitive(w, v, AddTask(v, t, cids), t);
  }

  lemma InterruptedCalm(w: World, t: nat, i: nat, cids: seq<nat>)
    requires LivesOk(w) && t < |w.threads| && CalmAt(w, t) && InFlight(w.threads[t].status)
    requires ActiveIn(w.tasks, t, i) && forall j: nat :: Outstanding(w, t, j) ==> j == i
    ensures CalmAt(Interrupted(w, t, i, cids), t)
  {
    var v := Interrupted(w, t, i, cids);
    var n := |w.tasks|;
    forall k | k in w.live
      ensures k < n
    {
      assert LiveOk(w, k);
    }
    assert v.tasks[n].state.Queued? && v.tasks[i].state.Cancelled?;
    forall j: nat | Outstanding(v, t, j)
      ensures j == n
    {
      if j < n { assert Outstanding(w, t, j); }
    }
    Busy(w, v, t, n);
  }

  lemma CoalesceCalm(w: World, t: nat, i: nat, c: nat)
    requires Safe(w) && t < |w.threads| && CalmAt(w, t) && ActiveIn(w.tasks, t, i) && w.tasks[i].state.Queued?
    ensures
      var v := Narrate(SetRow(w, i, CoalesceRow(w.tasks[i], c)), t);
      CalmAt(v, t) && Aside(w, v, t)
  {
    var v := SetRow(w, i, CoalesceRow(w.tasks[i], c));
    assert forall j: nat :: Outstanding(v, t, j) <==> Outstanding(w, t, j);
    SameWorkIsCalm(w, v, t);
    NarrateIsAside(v, t);
    AsideTransitive(w, v, Narrate(v, t), t);
  }

  lemma OnCommentCalm(w: World, t: nat, c: nat)
    requires Safe(w) && t < |w.threads| && CalmAt(w, t) && !Closed(w.threads[t].status)
    requires c < |w.threads[t].comments| && !w.threads[t].comments[c].system && !Covered(w.tasks, t, c)
    ensures CalmAt(OnComment(w, t, c), t) && Aside(w, OnComment(w, t, c), t)
  {
    if w.threads[t].comments[c].mentions {
      if InFlight(w.threads[t].status) {
        var i := TheOutstanding(w, t);
        NarrateIsAside(w, t);
        if w.tasks[i].state.Queued? {
          CoalesceCalm(w, t, i, c);
        } else if Interruptible(w.threads[t].status) {
          InterruptCalm(w, t, i, c);
        }
      } else {
        SubmitBusies(w, t, [c]);
      }
    }
  }

  lemma LogGrowsCalm(w: World, t: nat, c: Comment)
    requires t < |w.threads| && CalmAt(w, t)
    ensures CalmAt(AddComment(w, t, c), t)
  {
    var u := AddComment(w, t, c);
    assert forall i: nat :: Outstanding(u, t, i) <==> Outstanding(w, t, i);
    SameWorkIsCalm(w, u, t);
  }

  lemma PostCalm(w: World, t: nat, mentions: bool, cap: Option<Sha>)
    requires Safe(w) && t < |w.threads| && CalmAt(w, t)
    ensures CalmAt(Post(w, t, mentions, cap), t) && Aside(w, Post(w, t, mentions, cap), t)
  {
    if !Closed(w.threads[t].status) {
      var u := AddComment(w, t, Comment(false, mentions, cap));
      ThreadsOnly(w, u);
      LogTopIsUncovered(w, t);
      ThreadIsAside(w, u, t);
      LogGrowsCalm(w, t, Comment(false, mentions, cap));
      OnCommentCalm(u, t, |w.threads[t].comments|);
      AsideTransitive(w, u, Post(w, t, mentions, cap), t);
    }
  }

  lemma OpenCalm(w: World, mentions: bool, cap: Option<Sha>)
    requires Safe(w) && Calm(w)
    ensures Calm(OpenThread(w, mentions, cap))
  {
    var v := OpenThread(w, mentions, cap);
    if v != w {
      var base := if cap.Some? then cap.value else w.cfg.mainSha;
      var t := |w.threads|;
      var u := w.(threads := w.threads + [Thread(base, Open, [Open], [], [], None, None)]);
      ThreadsOnly(w, u);
      forall i: nat
        ensures !ActiveIn(u.tasks, t, i)
      {
        if i < |u.tasks| { assert RowOk(w.cfg, w.clock, w.threads, w.tasks[i]); }
      }
      assert CalmAt(u, t);
      PostCalm(u, t, mentions, cap);
      AsideTransitive(w, u, v, t);
      AsideIsCalm(w, v, t);
    }
  }

  // ---- cancel, approve, replay --------------------------------------------------------------------

  lemma CancelRunIsAside(w: World, t: nat, who: Permission)
    requires t < |w.threads| && CanCancel(w, t, who)
    ensures Aside(w, CancelRun(w, t, who), t)
  {
    var i := ActiveTask(w.tasks, t).value;
    var u := CancelTask(w, i);
    TaskIsAside(w, u, i);
    ThreadIsAside(u, CancelRun(w, t, who), t);
    AsideTransitive(w, u, CancelRun(w, t, who), t);
  }

  lemma CancelledIsOver(w: World, v: World, t: nat, i: nat)
    requires i < |w.tasks| && v.tasks == w.tasks[i := CancelRow(w.tasks[i])]
    requires forall k :: k in w.live && k != i ==> k in v.live && v.live[k] == w.live[k]
    requires forall j: nat :: Outstanding(w, t, j) ==> j == i
    ensures forall j: nat :: !Outstanding(v, t, j)
  {
    forall j: nat
      ensures !Outstanding(v, t, j)
    {
      if Outstanding(v, t, j) { assert j != i && Outstanding(w, t, j); }
    }
  }

  lemma CancelRunCalm(w: World, t: nat, who: Permission)
    requires Safe(w) && t < |w.threads| && CalmAt(w, t)
    ensures CalmAt(CancelRun(w, t, who), t) && Aside(w, CancelRun(w, t, who), t)
  {
    if CanCancel(w, t, who) {
      var i := TheOutstanding(w, t);
      var v := CancelRun(w, t, who);
      CancelRunIsAside(w, t, who);
      CancelledIsOver(w, v, t, i);
      Settled(w, v, t);
    }
  }

  lemma ApproveCalm(w: World, t: nat, who: Permission, reviewed: Option<Sha>)
    requires Safe(w) && t < |w.threads| && CalmAt(w, t)
    ensures CalmAt(Approve(w, t, who, reviewed), t) && Aside(w, Approve(w, t, who, reviewed), t)
  {
    var v := Approve(w, t, who, reviewed);
    if CanApproveNow(w, t, who, reviewed) {
      var n := |w.flows|;
      assert forall f: nat :: !HasFlow(w, t, f);
      assert HasFlow(v, t, n) && forall f: nat :: HasFlow(v, t, f) ==> f == n;
      assert forall i: nat :: Outstanding(v, t, i) <==> Outstanding(w, t, i);
      var h, g := w.threads[t].history, v.threads[t].history;
      forall k | 0 <= k < |g|
        ensures !g[k].Merged? && !g[k].Done?
      {
        if k < |h| {
          assert g[k] == h[k] && !h[k].Merged?;
          assert k > 0 ==> !h[k - 1].Merged?;
        }
      }
    }
  }

  // When a dead-lettered task may be put back: nothing in flight, not closed, and no newer row
  // of the thread still RUNNING.
  ghost predicate ReplayGuard(w: World, i: nat)
    requires i < |w.tasks| && w.tasks[i].thread < |w.threads|
  {
    var t := w.tasks[i].thread;
    && !InFlight(w.threads[t].status) && !Closed(w.threads[t].status)
    && forall j: nat :: i < j && j < |w.tasks| && w.tasks[j].thread == t ==> !w.tasks[j].state.Running?
  }

  lemma ReplayCalm(w: World, i: nat)
    requires Safe(w) && i < |w.tasks| && w.tasks[i].thread < |w.threads| && CalmAt(w, w.tasks[i].thread)
    requires w.tasks[i].state.Dlq? ==> ReplayGuard(w, i)
    ensures CalmAt(Replay(w, i), w.tasks[i].thread) && Aside(w, Replay(w, i), w.tasks[i].thread)
  {
    if w.tasks[i].state.Dlq? {
      var t := w.tasks[i].thread;
      var v := Replay(w, i);
      forall j: nat | ActiveIn(v.tasks, t, j)
        ensures j <= i && (Outstanding(v, t, j) ==> j == i)
      {
        if j != i { assert ActiveIn(w.tasks, t, j) && !Outstanding(w, t, j); }
      }
      Busy(w, v, t, i);
    }
  }

  // ---- delivery ---------------------------------------------------------------------------------------

  // Steps that leave the thread's outstanding work, status and flows as they are.
  lemma QuietCalm(w: World, v: World, t: nat)
    requires Calm(w) && t < |w.threads| && Aside(w, v, t) && v.threads == w.threads && v.flows == w.flows
    requires forall i: nat :: Outstanding(v, t, i) <==> Outstanding(w, t, i)
    requires forall i: nat :: ActiveIn(v.tasks, t, i) ==> ActiveIn(w.tasks, t, i)
    requires forall i: nat :: Outstanding(v, t, i) && Tracks(w, i, w.threads[t].status) ==> Tracks(v, i, w.threads[t].status)
    ensures Calm(v)
  {
    SameWorkIsCalm(w, v, t);
    AsideIsCalm(w, v, t);
  }

  lemma QueuedIsNotLive(w: World, i: nat)
    requires LivesOk(w) && i < |w.tasks| && w.tasks[i].state.Queued?
    ensures i !in w.live
  {
    forall k | k in w.live
      ensures k < |w.tasks| && !w.tasks[k].state.Queued?
    {
      assert LiveOk(w, k);
    }
  }

  // A queued row starts running with a handler that has not begun.
  lemma DeliveryIsQuiet(w: World, v: World, i: nat)
    requires i < |w.tasks| == |v.tasks| && v.tasks == w.tasks[i := v.tasks[i]] && v.tasks[i].thread == w.tasks[i].thread
    requires w.tasks[i].state.Queued? && i !in w.live && v.tasks[i].state.Running?
    requires i in v.live && v.live == w.live[i := v.live[i]] && v.live[i].phase.Spawned?
    ensures
      var t := w.tasks[i].thread;
      && (forall k: nat :: Outstanding(v, t, k) <==> Outstanding(w, t, k))
      && (forall k: nat :: ActiveIn(v.tasks, t, k) ==> ActiveIn(w.tasks, t, k))
      && (forall k: nat, s: ThreadStatus :: Tracks(w, k, s) ==> Tracks(v, k, s))
  {
  }

  lemma ClaimCalm(w: World, worker: nat)
    requires Safe(w) && Calm(w) && WorkerFree(w, worker)
    ensures Calm(Claim(w, worker))
  {
    var q := OldestQueued(w.tasks, |w.tasks|);
    if q.Some? {
      var i := q.value;
      var t := w.tasks[i].thread;
      var v := Claim(w, worker);
      assert RowOk(w.cfg, w.clock, w.threads, w.tasks[i]);
      QueuedIsNotLive(w, i);
      assert v.tasks == w.tasks[i := v.tasks[i]] && v.tasks[i].state.Running? && v.live[i].phase.Spawned?;
      TaskIsAside(w, v, i);
      DeliveryIsQuiet(w, v, i);
      QuietCalm(w, v, t);
    }
  }

  lemma BeatCalm(w: World, i: nat)
    requires Calm(w) && HandlerAt(w, i)
    ensures Calm(Beat(w, i))
  {
    var t := w.tasks[i].thread;
    var v := Beat(w, i);
    assert forall k: nat :: Outstanding(v, t, k) <==> Outstanding(w, t, k);
    QuietCalm(w, v, t);
  }

  lemma DeployCalm(w: World, i: nat, sha: Sha, patch: Patch)
    requires Calm(w) && HandlerAt(w, i) && w.live[i].phase.Deploying?
    ensures Calm(Deploy(w, i, sha, patch))
  {
    var t := w.tasks[i].thread;
    var v := Deploy(w, i, sha, patch);
    assert forall k: nat :: Outstanding(v, t, k) <==> Outstanding(w, t, k);
    QuietCalm(w, v, t);
  }

  lemma VanishCalm(w: World, i: nat)
    requires Calm(w) && HandlerAt(w, i) && Started(w.live[i].phase)
    ensures Calm(DropRun(w, i))
  {
    var t := w.tasks[i].thread;
    var v := DropRun(w, i);
    assert forall k: nat :: Outstanding(v, t, k) <==> Outstanding(w, t, k);
    QuietCalm(w, v, t);
  }

  lemma UnwindCalm(w: World, i: nat)
    requires Safe(w) && Calm(w) && HandlerAt(w, i) && !Unfinished(w.live[i].phase)
    ensures Calm(Unwind(w, i))
  {
    var t := w.tasks[i].thread;
    var v := Unwind(w, i);
    assert LiveOk(w, i);
    TaskIsAside(w, v, i);
    assert forall k: nat :: Outstanding(v, t, k) <==> Outstanding(w, t, k);
    QuietCalm(w, v, t);
  }

  // A live handler that has not finished is its thread's outstanding work.
  lemma LiveIsOutstanding(w: World, i: nat)
    requires Safe(w) && Calm(w) && HandlerAt(w, i) && Unfinished(w.live[i].phase)
    ensures
      var t := w.tasks[i].thread;
      && CalmAt(w, t) && Outstanding(w, t, i) && InFlight(w.threads[t].status) && Tracks(w, i, w.threads[t].status)
      && (forall j: nat :: Outstanding(w, t, j) ==> j == i)
      && (forall j: nat :: ActiveIn(w.tasks, t, j) ==> j <= i)
  {
    assert LiveOk(w, i);
    assert CalmAt(w, w.tasks[i].thread);
    assert Outstanding(w, w.tasks[i].thread, i);
  }

  lemma PhaseCalm(w: World, v: World, i: nat, p: Phase, parent: Sha, s: ThreadStatus)
    requires Safe(w) && Calm(w) && HandlerAt(w, i) && Unfinished(w.live[i].phase) && Unfinished(p)
    requires Aside(w, v, w.tasks[i].thread) && v.tasks == w.tasks && v.flows == w.flows
    requires v.live == w.live[i := w.live[i].(phase := p, parent := parent)]
    requires InFlight(s) && v.threads[w.tasks[i].thread].status == s && Tracks(v, i, s)
    requires v.threads[w.tasks[i].thread].history == w.threads[w.tasks[i].thread].history + [s]
    ensures Calm(v)
  {
    var t := w.tasks[i].thread;
    LiveIsOutstanding(w, i);
    assert forall k: nat :: Outstanding(v, t, k) <==> Outstanding(w, t, k);
    Busy(w, v, t, i);
    AsideIsCalm(w, v, t);
  }

  // Redelivery of applied work repairs the status.
  function Repaired(w: World, i: nat): World
    requires HandlerAt(w, i)
  {
    SetPhase(SetStatus(w, w.tasks[i].thread, PreviewReady), i, Finished)
  }

  lemma RepairedLives(w: World, i: nat)
    requires Safe(w) && HandlerAt(w, i) && w.live[i].phase.Spawned?
    requires Addressed(w.threads[w.tasks[i].thread], w.live[i].cids[|w.live[i].cids| - 1])
    ensures LivesOk(Repaired(w, i))
  {
    var u := Repaired(w, i);
    assert LiveOk(w, i);
    AddressedIsApplied(w, i);
    forall k | k in u.live
      ensures LiveOk(u, k)
    {
      assert LiveOk(w, k);
    }
  }

  lemma RepairCalm(w: World, i: nat)
    requires Safe(w) && Calm(w) && HandlerAt(w, i) && w.live[i].phase.Spawned?
    requires Addressed(w.threads[w.tasks[i].thread], w.live[i].cids[|w.live[i].cids| - 1])
    ensures Calm(DrainPending(Repaired(w, i), w.tasks[i].thread))
  {
    var t := w.tasks[i].thread;
    var u := Repaired(w, i);
    assert Aside(w, u, t);
    FinishCalm(w, u, i);
    RepairedLives(w, i);
    DrainCalm(u, t);
    AsideTransitive(w, u, DrainPending(u, t), t);
    AsideIsCalm(w, DrainPending(u, t), t);
  }

  lemma AnalyzeCalm(w: World, x: World, i: nat, parent: Sha)
    requires Safe(w) && Calm(w) && HandlerAt(w, i) && w.live[i].phase.Spawned?
    requires x == w || x == Narrate(w, w.tasks[i].thread)
    ensures Calm(SetStatus(x.(live := x.live[i := w.live[i].(phase := Phase.Analyzing, parent := parent)]),
                           w.tasks[i].thread, ThreadStatus.Analyzing))
  {
    var t := w.tasks[i].thread;
    NarrateIsAside(w, t);
    LiveIsOutstanding(w, i);
    var run := w.live[i].(phase := Phase.Analyzing, parent := parent);
    var v := SetStatus(x.(live := x.live[i := run]), t, ThreadStatus.Analyzing);
    PhaseCalm(w, v, i, Phase.Analyzing, parent, ThreadStatus.Analyzing);
  }

  lemma StartRunIs(w: World, i: nat)
    requires HandlerAt(w, i) && InFlight(w.threads[w.tasks[i].thread].status)
    ensures
      var t := w.tasks[i].thread;
      var parent := ResolveParent(w.threads[t], w.live[i].cids);
      var x := if parent != Tip(w.threads[t]) then Narrate(w, t) else w;
      StartRun(w, i) ==
        if Addressed(w.threads[t], w.live[i].cids[|w.live[i].cids| - 1]) then DrainPending(Repaired(w, i), t)
        else SetStatus(x.(live := x.live[i := w.live[i].(phase := Phase.Analyzing, parent := parent)]), t, ThreadStatus.Analyzing)
  {
  }

  lemma StartCalm(w: World, i: nat)
    requires Safe(w) && Calm(w) && HandlerAt(w, i) && w.live[i].phase.Spawned?
    ensures Calm(StartRun(w, i))
  {
    var t := w.tasks[i].thread;
    assert InFlight(w.threads[t].status) by { LiveIsOutstanding(w, i); }
    StartRunIs(w, i);
    if Addressed(w.threads[t], w.live[i].cids[|w.live[i].cids| - 1]) {
      RepairCalm(w, i);
    } else {
      var parent := ResolveParent(w.threads[t], w.live[i].cids);
      AnalyzeCalm(w, if parent != Tip(w.threads[t]) then Narrate(w, t) else w, i, parent);
    }
  }

  // The handler returns and the thread is at its preview.
  lemma FinishCalm(w: World, u: World, i: nat)
    requires Safe(w) && Calm(w) && HandlerAt(w, i) && Unfinished(w.live[i].phase)
    requires Aside(w, u, w.tasks[i].thread) && u.tasks == w.tasks && u.flows == w.flows
    requires u.live == w.live[i := w.live[i].(phase := Finished)]
    requires u.threads[w.tasks[i].thread].status.PreviewReady?
    requires u.threads[w.tasks[i].thread].history == w.threads[w.tasks[i].thread].history + [PreviewReady]
    ensures CalmAt(u, w.tasks[i].thread)
  {
    var t := w.tasks[i].thread;
    LiveIsOutstanding(w, i);
    assert LiveOk(w, i);
    forall k: nat
      ensures !Outstanding(u, t, k)
    {
      if Outstanding(u, t, k) { assert k != i && Outstanding(w, t, k); }
    }
    Settled(w, u, t);
  }

  lemma RecordedIsAside(w: World, i: nat)
    requires HandlerAt(w, i) && w.live[i].phase.Deployed?
    ensures Aside(w, Recorded(w, i), w.tasks[i].thread)
  {
    var u := Recorded(w, i);
    var x := w.(threads := u.threads);
    ThreadIsAside(w, x, w.tasks[i].thread);
    TaskIsAside(x, u, i);
    AsideTransitive(w, x, u, w.tasks[i].thread);
  }

  lemma RecordCalm(w: World, i: nat)
    requires Safe(w) && Calm(w) && HandlerAt(w, i) && w.live[i].phase.Deployed?
    ensures Calm(Record(w, i))
  {
    var t := w.tasks[i].thread;
    var u := Recorded(w, i);
    RecordedIsAside(w, i);
    FinishCalm(w, u, i);
    RowLandsKeeps(w, i);
    ThreadsOnly(RowLands(w, i), u);
    DrainCalm(u, t);
    AsideTransitive(w, u, Record(w, i), t);
    AsideIsCalm(w, Record(w, i), t);
  }

  // A failed attempt of outstanding work: back in line, or dead-lettered and FAILED.
  lemma FailCalm(w: World, i: nat)
    requires i < |w.tasks| && w.tasks[i].thread < |w.threads| && i !in w.live && w.tasks[i].state.Running?
    requires CalmAt(w, w.tasks[i].thread)
    ensures CalmAt(FailTask(w, i), w.tasks[i].thread) && Aside(w, FailTask(w, i), w.tasks[i].thread)
  {
    var t := w.tasks[i].thread;
    var v := FailTask(w, i);
    assert Outstanding(w, t, i);
    if FailState(w.tasks[i]).Queued? {
      assert forall k: nat :: Outstanding(v, t, k) <==> Outstanding(w, t, k);
      assert forall k: nat :: ActiveIn(v.tasks, t, k) ==> ActiveIn(w.tasks, t, k);
      Busy(w, v, t, i);
    } else {
      forall k: nat
        ensures !Outstanding(v, t, k)
      {
        if Outstanding(v, t, k) { assert Outstanding(w, t, k) && Outstanding(w, t, i); }
      }
      Settled(w, v, t);
    }
  }

  lemma FailStepCalm(w: World, i: nat)
    requires Safe(w) && Calm(w) && HandlerAt(w, i) && Unfinished(w.live[i].phase)
    ensures Calm(FailTask(DropRun(w, i), i))
  {
    var t := w.tasks[i].thread;
    var u := DropRun(w, i);
    assert LiveOk(w, i);
    assert forall k: nat :: Outstanding(u, t, k) <==> Outstanding(w, t, k);
    QuietCalm(w, u, t);
    FailCalm(u, i);
    AsideIsCalm(u, FailTask(u, i), t);
  }

  lemma {:induction false} ReapCalm(w: World, ids: seq<nat>)
    requires Safe(w) && Calm(w) && Overdue(w, ids) && ThreadsResolve(w, ids)
    ensures Calm(ReapAll(w, ids))
    decreases |ids|
  {
    if ids != [] {
      assert ids[0] in ids;
      if ids[0] in w.live { ReapSparesTheLiving(w, ids[0]); }
      FailCalm(w, ids[0]);
      AsideIsCalm(w, FailTask(w, ids[0]), w.tasks[ids[0]].thread);
      FailTaskKeeps(w, ids[0]);
      assert forall i :: i in ids[1..] ==> i in ids && i != ids[0];
      ReapCalm(FailTask(w, ids[0]), ids[1..]);
    }
  }

  // ---- the PR flow ---------------------------------------------------------------------------------------

  // The flow moves on without landing; the status stays PR_OPEN.
  lemma FlowMovesCalm(w: World, v: World, f: nat, p: FlowPhase)
    requires Calm(w) && FlowAt(w, f) && w.flows[f].Live() && (p.AwaitCi? || p.Merging? || p.Stalled?)
    requires v.flows == w.flows[f := w.flows[f].(phase := p)] && v.tasks == w.tasks && v.live == w.live
    requires Aside(w, v, w.flows[f].thread)
    requires v.threads[w.flows[f].thread].status == w.threads[w.flows[f].thread].status
    requires v.threads[w.flows[f].thread].preview == w.threads[w.flows[f].thread].preview
    requires v.threads[w.flows[f].thread].history == w.threads[w.flows[f].thread].history
    ensures Calm(v)
  {
    var t := w.flows[f].thread;
    assert forall i: nat :: Outstanding(v, t, i) <==> Outstanding(w, t, i);
    assert forall g: nat :: HasFlow(w, t, g) <==> HasFlow(v, t, g);
    SameWorkIsCalm(w, v, t);
    AsideIsCalm(w, v, t);
  }

  lemma FlowTellsCalm(w: World, f: nat, p: FlowPhase)
    requires Calm(w) && FlowAt(w, f) && w.flows[f].Live() && (p.Merging? || p.Stalled?)
    ensures Calm(SetFlow(Narrate(w, w.flows[f].thread), f, p))
  {
    FlowMovesCalm(w, SetFlow(Narrate(w, w.flows[f].thread), f, p), f, p);
  }

  lemma FlowOpenFailedCalm(w: World, f: nat)
    requires Calm(w) && FlowAt(w, f) && w.flows[f].phase.Opening?
    ensures Calm(FlowOpenFailed(w, f))
  {
    var t := w.flows[f].thread;
    var v := FlowOpenFailed(w, f);
    assert CalmAt(w, t) && HasFlow(w, t, f);
    assert forall i: nat :: Outstanding(v, t, i) <==> Outstanding(w, t, i);
    forall g: nat
      ensures !HasFlow(v, t, g)
    {
      if HasFlow(v, t, g) { assert g != f && HasFlow(w, t, g); }
    }
    var h, k' := w.threads[t].history, v.threads[t].history;
    assert forall k :: 0 <= k < |h| ==> !h[k].Merged?;
    forall k | 0 <= k < |k'|
      ensures !k'[k].Merged? && !k'[k].Done?
    {
      if k < |h| {
        assert k'[k] == h[k];
        assert k > 0 ==> !h[k - 1].Merged?;
      }
    }
    AsideIsCalm(w, v, t);
  }

  lemma FlowLandsCalm(w: World, f: nat)
    requires Calm(w) && FlowAt(w, f) && w.flows[f].phase.Merging?
    ensures Calm(FlowLands(w, f))
  {
    var t := w.flows[f].thread;
    var v := FlowLands(w, f);
    assert CalmAt(w, t) && HasFlow(w, t, f) && HasFlow(v, t, f);
    assert forall i: nat :: Outstanding(v, t, i) <==> Outstanding(w, t, i);
    assert forall g: nat :: HasFlow(v, t, g) <==> HasFlow(w, t, g);
    var h := w.threads[t].history;
    assert v.threads[t].history == h + [Merged, ThreadStatus.Done];
    AsideIsCalm(w, v, t);
  }

  lemma FlowOpenedCalm(w: World, f: nat, url: nat)
    requires Calm(w) && FlowAt(w, f) && w.flows[f].phase.Opening?
    ensures Calm(FlowOpened(w, f, url))
  {
    FlowMovesCalm(w, FlowOpened(w, f, url), f, AwaitCi);
  }

  // ---- every step, every run -------------------------------------------------------------------------------

  ghost predicate CalmStep(w: World, s: Step)
    requires Enabled(w, s)
  {
    !s.DoRestart? && (s.DoReplay? && w.tasks[s.task].state.Dlq? ==> ReplayGuard(w, s.task))
  }

  ghost predicate CalmRun(w: World, steps: seq<Step>)
    decreases |steps|
  {
    steps == [] || (Enabled(w, steps[0]) && CalmStep(w, steps[0]) && CalmRun(Next(w, steps[0]), steps[1..]))
  }

  lemma UserStepCalm(w: World, s: Step)
    requires Safe(w) && Calm(w) && Enabled(w, s) && CalmStep(w, s)
    requires s.DoOpen? || s.DoPost? || s.DoCancelRun? || s.DoApprove? || s.DoReplay?
    ensures Calm(Next(w, s))
  {
    match s
    case DoOpen(mentions, cap) => OpenCalm(w, mentions, cap);
    case DoPost(t, mentions, cap) =>
      PostCalm(w, t, mentions, cap);
      AsideIsCalm(w, Post(w, t, mentions, cap), t);
    case DoCancelRun(t, who) =>
      CancelRunCalm(w, t, who);
      AsideIsCalm(w, CancelRun(w, t, who), t);
    case DoApprove(t, who, reviewed) =>
      ApproveCalm(w, t, who, reviewed);
      AsideIsCalm(w, Approve(w, t, who, reviewed), t);
    case DoReplay(i) =>
      ReplayCalm(w, i);
      AsideIsCalm(w, Replay(w, i), w.tasks[i].thread);
  }

  lemma HandlerStepCalm(w: World, s: Step)
    requires Safe(w) && Calm(w) && Enabled(w, s)
    requires s.DoClaim? || s.DoBeat? || s.DoTick? || s.DoStart? || s.DoCode? || s.DoPush? || s.DoDeploy?
      || s.DoRecord? || s.DoUnwind? || s.DoFail? || s.DoVanish? || s.DoReap?
    ensures Calm(Next(w, s))
  {
    match s
    case DoClaim(k) => ClaimCalm(w, k);
    case DoBeat(i) => BeatCalm(w, i);
    case DoTick(now) => TickCalm(w, now);
    case DoStart(i) => StartCalm(w, i);
    case DoCode(i) => CodeCalm(w, i);
    case DoPush(i) => PushCalm(w, i);
    case DoDeploy(i, sha, patch) => DeployCalm(w, i, sha, patch);
    case DoRecord(i) => RecordCalm(w, i);
    case DoUnwind(i) => UnwindCalm(w, i);
    case DoFail(i) => FailStepCalm(w, i);
    case DoVanish(i) => VanishCalm(w, i);
    case DoReap => ReapCalm(w, ExpiredIds(w.tasks, w.clock, |w.tasks|));
  }

  lemma CodeCalm(w: World, i: nat)
    requires Safe(w) && Calm(w) && HandlerAt(w, i) && w.live[i].phase.Analyzing?
    ensures Calm(SetStatus(SetPhase(w, i, Phase.Coding), w.tasks[i].thread, ThreadStatus.Coding))
  {
    var v := SetStatus(SetPhase(w, i, Phase.Coding), w.tasks[i].thread, ThreadStatus.Coding);
    LiveIsOutstanding(w, i);
    PhaseCalm(w, v, i, Phase.Coding, w.live[i].parent, ThreadStatus.Coding);
  }

  lemma PushCalm(w: World, i: nat)
    requires Safe(w) && Calm(w) && HandlerAt(w, i) && w.live[i].phase.Coding?
    ensures Calm(SetStatus(SetPhase(w, i, Phase.Deploying), w.tasks[i].thread, ThreadStatus.Deploying))
  {
    var v := SetStatus(SetPhase(w, i, Phase.Deploying), w.tasks[i].thread, ThreadStatus.Deploying);
    LiveIsOutstanding(w, i);
    PhaseCalm(w, v, i, Phase.Deploying, w.live[i].parent, ThreadStatus.Deploying);
  }

  lemma TickCalm(w: World, now: nat)
    requires Calm(w)
    ensures Calm(w.(clock := now))
  {
    var v := w.(clock := now);
    forall t: nat | t < |v.threads|
      ensures CalmAt(v, t)
    {
      assert forall i: nat :: Outstanding(v, t, i) <==> Outstanding(w, t, i);
      SameWorkIsCalm(w, v, t);
    }
  }

  lemma NeverResuming(w: World, f: nat)
    requires Calm(w) && FlowAt(w, f)
    ensures !w.flows[f].phase.Resuming? && !w.flows[f].phase.Reopening?
  {
    assert CalmAt(w, w.flows[f].thread);
    assert w.flows[f].phase.Gone? || HasFlow(w, w.flows[f].thread, f);
  }

  lemma FlowStepCalm(w: World, s: Step)
    requires Safe(w) && Calm(w) && Enabled(w, s) && IsFlowStep(s) && !s.DoApprove?
    ensures Calm(Next(w, s))
  {
    NeverResuming(w, s.flow);
    match s
    case DoFlowOpened(f, url) => FlowOpenedCalm(w, f, url);
    case DoFlowOpenFailed(f) => FlowOpenFailedCalm(w, f);
    case DoFlowCi(f) => FlowTellsCalm(w, f, Merging);
    case DoFlowBroke(f) => FlowTellsCalm(w, f, Stalled);
    case DoFlowLands(f) => FlowLandsCalm(w, f);
    case DoFlowResumes(f) =>
  }

  lemma StepCalm(w: World, s: Step)
    requires Safe(w) && Calm(w) && Enabled(w, s) && CalmStep(w, s)
    ensures Calm(Next(w, s))
  {
    if s.DoOpen? || s.DoPost? || s.DoCancelRun? || s.DoApprove? || s.DoReplay? {
      UserStepCalm(w, s);
    } else if IsFlowStep(s) {
      FlowStepCalm(w, s);
    } else {
      HandlerStepCalm(w, s);
    }
  }

  lemma {:induction false} RunCalm(w: World, steps: seq<Step>)
    requires Safe(w) && Calm(w) && CalmRun(w, steps)
    ensures IsRun(w, steps) && Safe(Exec(w, steps)) && Calm(Exec(w, steps))
    decreases |steps|
  {
    if steps != [] {
      StepCalm(w, steps[0]);
      StepKeeps(w, steps[0]);
      RunCalm(Next(w, steps[0]), steps[1..]);
    }
  }
}
