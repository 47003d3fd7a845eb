/**
 Each fix builds on the right one: in crash-free runs with guarded replays an iteration branches
 off the preview its task captured, and off the iteration before it when the task captured none.
 */
module Branching {
  import opened Domain
  import opened TaskTable
  import opened Protocol
  import opened Safety
  import opened Journal
  import opened Evolution
  import opened Conservation
  import opened Lifecycle
  import opened Guarantees
  import opened PreviewLineage

  // ---- which sha an iteration made after n others branches off -------------------------------

  // The newest capture among the comments was made on one of the first n previews.
  ghost predicate PicksPreview(th: Thread, cids: seq<nat>, n: nat, c: nat)
    requires n <= |th.iterations|
  {
    NewestCapture(th, cids, c) && PreviewAmong(th.iterations, n, th.comments[c].cap.value)
  }

  function NewestOf(th: Thread, n: nat): Sha
    requires n <= |th.iterations|
  {
    if n == 0 then th.base else th.iterations[n - 1].sha
  }

  ghost predicate BranchesOff(th: Thread, cids: seq<nat>, n: nat, parent: Sha)
    requires n <= |th.iterations|
  {
    && (forall c: nat :: PicksPreview(th, cids, n, c) ==> parent == th.comments[c].cap.value)
    && ((forall c: nat :: !PicksPreview(th, cids, n, c)) ==> parent == NewestOf(th, n))
  }

  lemma ResolvedBranchesOff(th: Thread, patches: map<Sha, seq<Patch>>, cids: seq<nat>)
    requires TreeOk(th, patches)
    ensures BranchesOff(th, cids, |th.iterations|, ResolveParent(th, cids))
  {
    var n := |th.iterations|;
    forall c: nat | PicksPreview(th, cids, n, c)
      ensures ResolveParent(th, cids) == th.comments[c].cap.value
    {
      BaseResolution(th, patches, cids, c);
    }
    if forall c: nat :: !PicksPreview(th, cids, n, c) {
      LatestCaptureIsNewest(th, cids, |th.comments|);
      hide TreeOk, ResolveParent, LatestCapture, PreviewAmong;
      if LatestCapture(th, cids, |th.comments|).Some? {
        var c: nat :| c < |th.comments| && Captures(th, cids, c)
          && forall d: nat :: c < d < |th.comments| ==> !Captures(th, cids, d);
        assert NewestCapture(th, cids, c) && !PicksPreview(th, cids, n, c);
        BaseResolution(th, patches, cids, c);
      } else {
        BaseResolution(th, patches, cids, 0);
      }
    }
  }

  // Later comments and later iterations do not change what an iteration should have branched off.
  ghost predicate Extends(a: Thread, b: Thread)
  {
    a.base == b.base && a.iterations <= b.iterations && a.comments <= b.comments
  }

  lemma BranchesOffPersists(a: Thread, b: Thread, cids: seq<nat>, n: nat, parent: Sha)
    requires Extends(a, b) && n <= |a.iterations| && BranchesOff(a, cids, n, parent)
    requires forall c :: c in cids ==> c < |a.comments|
    ensures BranchesOff(b, cids, n, parent)
  {
    assert forall c: nat :: Captures(a, cids, c) <==> Captures(b, cids, c);
    assert forall c: nat :: NewestCapture(a, cids, c) <==> NewestCapture(b, cids, c);
    forall c: nat
      ensures PicksPreview(a, cids, n, c) <==> PicksPreview(b, cids, n, c)
    {
      if NewestCapture(a, cids, c) {
        assert a.comments[c] == b.comments[c];
        assert forall s :: PreviewAmong(a.iterations, n, s) <==> PreviewAmong(b.iterations, n, s);
      }
    }
    assert NewestOf(a, n) == NewestOf(b, n);
  }

  // ---- the invariant ----------------------------------------------------------------------------

  ghost predicate IterationsBranch(th: Thread)
  {
    forall k :: 0 <= k < |th.iterations| ==>
      && (forall c :: c in th.iterations[k].cids ==> c < |th.comments|)
      && BranchesOff(th, th.iterations[k].cids, k, th.iterations[k].parent)
  }

  ghost predicate HandlerBranches(w: World, i: nat)
    requires i in w.live
  {
    var run := w.live[i];
    Started(run.phase) ==>
      i < |w.tasks| && w.tasks[i].thread < |w.threads| &&
      var th := w.threads[w.tasks[i].thread];
      (forall c :: c in run.cids ==> c < |th.comments|) && BranchesOff(th, run.cids, |th.iterations|, run.parent)
  }

  ghost predicate BranchesOk(w: World)
  {
    && (forall t :: 0 <= t < |w.threads| ==> IterationsBranch(w.threads[t]))
    && (forall i :: i in w.live ==> HandlerBranches(w, i))
  }

  // Handlers at work in b were at work in a, off the same parent and for the same asks.
  ghost predicate SameWorkers(a: map<nat, Run>, b: map<nat, Run>)
  {
    forall i :: i in b && Started(b[i].phase) ==>
      i in a && Started(a[i].phase) && a[i].parent == b[i].parent && a[i].cids == b[i].cids
  }

  lemma IterationsPersist(a: Thread, b: Thread)
    requires IterationsBranch(a) && Extends(a, b) && a.iterations == b.iterations
    ensures IterationsBranch(b)
  {
    forall k | 0 <= k < |b.iterations|
      ensures (forall c :: c in b.iterations[k].cids ==> c < |b.comments|)
        && BranchesOff(b, b.iterations[k].cids, k, b.iterations[k].parent)
    {
      BranchesOffPersists(a, b, a.iterations[k].cids, k, a.iterations[k].parent);
    }
  }

  ghost predicate ThreadsExtend(a: seq<Thread>, b: seq<Thread>)
  {
    && |a| <= |b|
    && (forall t :: 0 <= t < |a| ==> Extends(a[t], b[t]) && a[t].iterations == b[t].iterations)
    && (forall t :: |a| <= t < |b| ==> b[t].iterations == [])
  }

  lemma SameWorkersKeep(w: World, v: World)
    requires BranchesOk(w) && ThreadsExtend(w.threads, v.threads)
    requires SameWorkers(w.live, v.live) && RowsGrow(w.tasks, v.tasks)
    ensures BranchesOk(v)
  {
    forall t | 0 <= t < |v.threads|
      ensures IterationsBranch(v.threads[t])
    {
      if t < |w.threads| { IterationsPersist(w.threads[t], v.threads[t]); }
    }
    forall i | i in v.live
      ensures HandlerBranches(v, i)
    {
      if Started(v.live[i].phase) {
        assert HandlerBranches(w, i);
        var t := w.tasks[i].thread;
        BranchesOffPersists(w.threads[t], v.threads[t], w.live[i].cids, |w.threads[t].iterations|, w.live[i].parent);
      }
    }
  }

  lemma TellsExtends(w: World, v: World)
    requires Tells(w, v)
    ensures ThreadsExtend(w.threads, v.threads)
  {
    forall t | 0 <= t < |w.threads|
      ensures Extends(w.threads[t], v.threads[t]) && w.threads[t].iterations == v.threads[t].iterations
    {
      assert ThreadNarrated(w.threads[t], v.threads[t]);
    }
  }

  // ---- steps ----------------------------------------------------------------------------------------

  lemma PostKeepsBranches(w: World, t: nat, mentions: bool, cap: Option<Sha>)
    requires Safe(w) && BranchesOk(w) && t < |w.threads|
    ensures BranchesOk(Post(w, t, mentions, cap))
  {
    if !Closed(w.threads[t].status) {
      hide BranchesOk, Post;
      PostExtends(w, t, mentions, cap);
      PostWorkers(w, t, mentions, cap);
      PostDoes(w, t, mentions, cap);
      RowsOnlyGrow(w.tasks, PostOps(w, t, mentions));
      SameWorkersKeep(w, Post(w, t, mentions, cap));
    }
  }

  lemma PostExtends(w: World, t: nat, mentions: bool, cap: Option<Sha>)
    requires t < |w.threads| && !Closed(w.threads[t].status)
    ensures ThreadsExtend(w.threads, Post(w, t, mentions, cap).threads)
  {
    hide Post;
    var u := AddComment(w, t, Comment(false, mentions, cap));
    PostTells(w, t, mentions, cap);
    TellsExtends(u, Post(w, t, mentions, cap));
  }

  lemma PostWorkers(w: World, t: nat, mentions: bool, cap: Option<Sha>)
    requires Safe(w) && t < |w.threads| && !Closed(w.threads[t].status)
    ensures SameWorkers(w.live, Post(w, t, mentions, cap).live)
  {
    hide Post, Safe, Commented;
    PostIsCommented(w, t, mentions, cap);
    CommentTouches(w, t, mentions, cap);
    CancelLiveKeeps(w, t);
  }

  lemma OpenKeepsBranches(w: World, mentions: bool, cap: Option<Sha>)
    requires Safe(w) && BranchesOk(w)
    ensures BranchesOk(OpenThread(w, mentions, cap))
  {
    var base := if cap.Some? then cap.value else w.cfg.mainSha;
    var v := w.(threads := w.threads + [Thread(base, Open, [Open], [], [], None, None)]);
    ThreadsOnly(w, v);
    SameWorkersKeep(w, v);
    PostKeepsBranches(v, |w.threads|, mentions, cap);
  }

  // A handler starts off what its asks resolve to.
  lemma StartKeepsBranches(w: World, i: nat)
    requires Safe(w) && LineageOk(w) && BranchesOk(w) && Enabled(w, DoStart(i))
    ensures BranchesOk(StartRun(w, i))
  {
    var t := w.tasks[i].thread;
    var v := StartRun(w, i);
    var u := w.(live := w.live[i := StartedRun(w, i)]);
    StartedBranches(w, i);
    StartLive(w, i);
    hide Safe, BranchesOk, LineageOk, StartRun, StartedRun;
    StartTells(w, i);
    TellsExtends(w, v);
    StepRowsGrow(w, DoStart(i));
    SameWorkersKeep(u, v);
  }

  lemma StartedBranches(w: World, i: nat)
    requires Safe(w) && LineageOk(w) && BranchesOk(w) && HandlerAt(w, i) && w.live[i].phase.Spawned?
    ensures BranchesOk(w.(live := w.live[i := StartedRun(w, i)]))
  {
    var u := w.(live := w.live[i := StartedRun(w, i)]);
    var th := w.threads[w.tasks[i].thread];
    assert TreeOk(th, w.patches);
    ResolvedBranchesOff(th, w.patches, w.live[i].cids);
    SnapshotIsLogged(w, i);
    hide Safe, LineageOk, ResolveParent;
    forall k | k in u.live
      ensures HandlerBranches(u, k)
    {
      assert HandlerBranches(w, k);
    }
  }

  lemma SnapshotIsLogged(w: World, i: nat)
    requires Safe(w) && i in w.live
    ensures i < |w.tasks| && w.tasks[i].thread < |w.threads|
    ensures forall c :: c in w.live[i].cids ==> c < |w.threads[w.tasks[i].thread].comments|
  {
    assert LiveOk(w, i) && RowOk(w.cfg, w.clock, w.threads, w.tasks[i]);
  }

  lemma DeployKeepsBranches(w: World, i: nat, s: Sha, patch: Patch)
    requires Safe(w) && BranchesOk(w) && Enabled(w, DoDeploy(i, s, patch))
    ensures BranchesOk(Deploy(w, i, s, patch))
  {
    SameWorkersKeep(w, Deploy(w, i, s, patch));
  }

  // The recording handler is its thread's only one at work, so no other loses its tip.
  lemma LandingKeepsHandlers(w: World, i: nat, k: nat)
    requires Safe(w) && Calm(w) && BranchesOk(w) && Enabled(w, DoRecord(i)) && k in RowLands(w, i).live
    ensures HandlerBranches(RowLands(w, i), k)
  {
    if k != i && Started(w.live[k].phase) {
      assert HandlerBranches(w, k);
      assert LiveOk(w, k);
      LiveIsOutstanding(w, i);
      LiveIsOutstanding(w, k);
      assert w.tasks[k].thread != w.tasks[i].thread;
    }
  }

  lemma LandingBranches(w: World, i: nat)
    requires Safe(w) && BranchesOk(w) && Enabled(w, DoRecord(i))
    ensures IterationsBranch(RowLands(w, i).threads[w.tasks[i].thread])
  {
    var t := w.tasks[i].thread;
    var a, b := w.threads[t], RowLands(w, i).threads[t];
    var n := |a.iterations|;
    assert HandlerBranches(w, i);
    BranchesOffPersists(a, b, w.live[i].cids, n, w.live[i].parent);
    forall k | 0 <= k < |b.iterations|
      ensures (forall c :: c in b.iterations[k].cids ==> c < |b.comments|)
        && BranchesOff(b, b.iterations[k].cids, k, b.iterations[k].parent)
    {
      if k < n { BranchesOffPersists(a, b, a.iterations[k].cids, k, a.iterations[k].parent); }
    }
  }

  lemma RecordKeepsBranches(w: World, i: nat)
    requires Safe(w) && Calm(w) && BranchesOk(w) && Enabled(w, DoRecord(i))
    ensures BranchesOk(Record(w, i))
  {
    hide Safe, Calm, HandlerBranches, IterationsBranch;
    var u, v := RowLands(w, i), Record(w, i);
    LandingBranches(w, i);
    forall k | k in u.live
      ensures HandlerBranches(u, k)
    {
      LandingKeepsHandlers(w, i, k);
    }
    assert BranchesOk(u);
    RecordTells(w, i);
    TellsExtends(u, v);
    RecordLive(w, i);
    StepRowsGrow(w, DoRecord(i));
    SameWorkersKeep(u, v);
  }

  lemma StepKeepsBranches(w: World, s: Step)
    requires Safe(w) && Calm(w) && LineageOk(w) && BranchesOk(w) && Enabled(w, s)
    ensures BranchesOk(Next(w, s))
  {
    hide Safe, Calm, LineageOk, BranchesOk;
    if s.DoOpen? {
      OpenKeepsBranches(w, s.mentions, s.cap);
    } else if s.DoPost? {
      PostKeepsBranches(w, s.thread, s.mentions, s.cap);
    } else if s.DoStart? {
      StartKeepsBranches(w, s.task);
    } else if s.DoDeploy? {
      DeployKeepsBranches(w, s.task, s.sha, s.patch);
    } else if s.DoRecord? {
      RecordKeepsBranches(w, s.task);
    } else if s.DoTick? {
      SameWorkersKeep(w, Next(w, s));
    } else {
      StepTells(w, s);
      TellsExtends(w, Next(w, s));
      StepBranchesNothing(w, s);
      StepRowsGrow(w, s);
      SameWorkersKeep(w, Next(w, s));
    }
  }

  lemma {:induction false} RunKeepsBranches(w: World, steps: seq<Step>)
    requires Safe(w) && Calm(w) && LineageOk(w) && BranchesOk(w) && CalmRun(w, steps) && IsRun(w, steps)
    ensures BranchesOk(Exec(w, steps))
    decreases |steps|
  {
    hide Safe, Calm, LineageOk, BranchesOk;
    if steps != [] {
      StepKeepsBranches(w, steps[0]);
      StepKeepsLineage(w, steps[0]);
      StepCalm(w, steps[0]);
      StepKeeps(w, steps[0]);
      RunKeepsBranches(Next(w, steps[0]), steps[1..]);
    }
  }

  lemma PicksIsStored(th: Thread, patches: map<Sha, seq<Patch>>, k: nat, c: nat)
    requires TreeOk(th, patches) && k < |th.iterations|
    ensures PicksPreview(th, th.iterations[k].cids, k, c) ==> th.comments[c].cap.value in patches
  {
    if PicksPreview(th, th.iterations[k].cids, k, c) {
      var m :| 0 <= m < k && th.iterations[m].sha == th.comments[c].cap.value;
      assert NodeOk(th, patches, m);
    }
  }

  lemma ParentOf(th: Thread, k: nat, c: nat)
    requires IterationsBranch(th) && k < |th.iterations|
    ensures (forall d: nat :: !PicksPreview(th, th.iterations[k].cids, k, d)) ==>
      th.iterations[k].parent == if k == 0 then th.base else th.iterations[k - 1].sha
    ensures PicksPreview(th, th.iterations[k].cids, k, c) ==> th.iterations[k].parent == th.comments[c].cap.value
  {
  }

  // ---- what each fix builds on ----------------------------------------------------------------------

  // An iteration whose asks picked no preview stores what the iteration before it stored, or the
  // base's patches if it is the first, and its own patch; one whose asks picked a preview stores
  // that preview's patches and its own.
  lemma FixBuildsOn(cfg: Config, steps: seq<Step>, t: nat, k: nat, c: nat)
    requires ConfigOk(cfg) && CalmRun(Initial(cfg), steps) && IsRun(Initial(cfg), steps)
    requires t < |Exec(Initial(cfg), steps).threads| && k < |Exec(Initial(cfg), steps).threads[t].iterations|
    ensures
      var w := Exec(Initial(cfg), steps);
      var th := w.threads[t];
      var it := th.iterations[k];
      && it.sha in w.patches
      && ((forall d: nat :: !PicksPreview(th, it.cids, k, d)) ==>
            if k == 0 then
              && it.parent == th.base
              && w.patches[it.sha] == (if th.base in w.patches then w.patches[th.base] else []) + [it.patch]
            else
              var previous := th.iterations[k - 1].sha;
              && it.parent == previous && previous in w.patches
              && w.patches[it.sha] == w.patches[previous] + [it.patch])
      && (PicksPreview(th, it.cids, k, c) ==>
            var picked := th.comments[c].cap.value;
            && it.parent == picked && picked in w.patches
            && w.patches[it.sha] == w.patches[picked] + [it.patch])
  {
    InitialIsCalm(cfg, steps);
    RunKeepsLineage(Initial(cfg), steps);
    RunKeepsBranches(Initial(cfg), steps);
    var w := Exec(Initial(cfg), steps);
    var th := w.threads[t];
    hide BranchesOff;
    assert IterationsBranch(th) && TreeOk(th, w.patches);
    PicksIsStored(th, w.patches, k, c);
    assert NodeOk(th, w.patches, k);
    if k > 0 { assert NodeOk(th, w.patches, k - 1); }
    ParentOf(th, k, c);
  }
}
