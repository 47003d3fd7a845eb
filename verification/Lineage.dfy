/**
 Preview lineage: the incremental patch store agrees with a fold over the tree of iterations
 rooted at the thread's base sha, forks off older previews included, in every run.
 */
module PreviewLineage {
  import opened Domain
  import opened TaskTable
  import opened Protocol
  import opened Safety
  import opened Journal
  import opened Evolution
  import opened Conservation
  import opened Guarantees

  // ---- which sha an iteration branches off ----------------------------------------------------

  predicate Captures(th: Thread, cids: seq<nat>, c: nat)
  {
    c < |th.comments| && c in cids && !th.comments[c].system && th.comments[c].cap.Some?
  }

  lemma {:induction false} LatestCaptureIsNewest(th: Thread, cids: seq<nat>, n: nat)
    requires n <= |th.comments|
    ensures LatestCapture(th, cids, n).None? ==> forall c: nat :: c < n ==> !Captures(th, cids, c)
    ensures LatestCapture(th, cids, n).Some? ==>
      exists c: nat :: c < n && Captures(th, cids, c) && th.comments[c].cap == LatestCapture(th, cids, n)
        && forall d: nat :: c < d < n ==> !Captures(th, cids, d)
  {
    if n > 0 {
      if Captures(th, cids, n - 1) {
        assert th.comments[n - 1].cap == LatestCapture(th, cids, n);
      } else {
        LatestCaptureIsNewest(th, cids, n - 1);
        if LatestCapture(th, cids, n).Some? {
          var c: nat :| c < n - 1 && Captures(th, cids, c) && th.comments[c].cap == LatestCapture(th, cids, n - 1)
            && forall d: nat :: c < d < n - 1 ==> !Captures(th, cids, d);
          assert forall d: nat :: c < d < n ==> !Captures(th, cids, d);
        }
      }
    }
  }

  ghost predicate NewestCapture(th: Thread, cids: seq<nat>, c: nat)
  {
    Captures(th, cids, c) && forall d: nat :: c < d ==> !Captures(th, cids, d)
  }

  // One of the thread's first n iterations deployed the sha.
  predicate PreviewAmong(its: seq<Iteration>, n: nat, s: Sha)
    requires n <= |its|
  {
    exists k :: 0 <= k < n && its[k].sha == s
  }

  lemma CaptureDecides(th: Thread, cids: seq<nat>, c: nat)
    ensures (forall d: nat :: !Captures(th, cids, d)) ==> ResolveParent(th, cids) == Tip(th)
    ensures NewestCapture(th, cids, c) ==>
      ResolveParent(th, cids) == if Known(th, th.comments[c].cap.value) then th.comments[c].cap.value else Tip(th)
  {
    LatestCaptureIsNewest(th, cids, |th.comments|);
    if NewestCapture(th, cids, c) {
      var e: nat :| Captures(th, cids, e) && th.comments[e].cap == LatestCapture(th, cids, |th.comments|)
        && forall d: nat :: e < d < |th.comments| ==> !Captures(th, cids, d);
      assert !(c < e) && !(e < c);
    }
  }

  predicate InTree(th: Thread, s: Sha) { s == th.base || Known(th, s) }

  // ---- the invariant ----------------------------------------------------------------------------

  ghost predicate NodeOk(th: Thread, patches: map<Sha, seq<Patch>>, k: nat)
    requires k < |th.iterations|
  {
    var it := th.iterations[k];
    && it.sha != th.base && it.sha in patches && patches[it.sha] == Lineage(patches, it.parent) + [it.patch]
    && (it.parent == th.base || exists m :: 0 <= m < k && th.iterations[m].sha == it.parent)
    && (forall m :: 0 <= m < k ==> th.iterations[m].sha != it.sha)
  }

  ghost predicate TreeOk(th: Thread, patches: map<Sha, seq<Patch>>)
  {
    && (forall k :: 0 <= k < |th.iterations| ==> NodeOk(th, patches, k))
    && th.preview == if th.iterations == [] then None else Some(th.iterations[|th.iterations| - 1].sha)
  }

  // A started handler branches off a node of its thread's tree; what it deployed is not in it yet.
  ghost predicate BranchOk(w: World, i: nat)
    requires i in w.live
  {
    var run := w.live[i];
    i < |w.tasks| && w.tasks[i].thread < |w.threads| &&
    var th := w.threads[w.tasks[i].thread];
    && (Started(run.phase) ==> InTree(th, run.parent))
    && (run.phase.Deployed? ==>
          !InTree(th, run.phase.sha) && run.phase.sha in w.patches
          && w.patches[run.phase.sha] == Lineage(w.patches, run.parent) + [run.phase.patch])
  }

  // Two handlers never deploy the same sha.
  ghost predicate ShasApart(live: map<nat, Run>)
  {
    forall i, j | i in live && j in live && live[i].phase.Deployed? && live[j].phase.Deployed? ::
      live[i].phase.sha == live[j].phase.sha ==> i == j
  }

  ghost predicate LineageOk(w: World)
  {
    && (forall t :: 0 <= t < |w.threads| ==> TreeOk(w.threads[t], w.patches))
    && (forall i :: i in w.live ==> BranchOk(w, i))
    && ShasApart(w.live)
  }

  // ---- frames -------------------------------------------------------------------------------------

  ghost predicate SameTree(a: Thread, b: Thread)
  {
    a.base == b.base && a.preview == b.preview && a.iterations == b.iterations
  }

  // Handlers only leave, or move without starting, branching or deploying.
  ghost predicate NoNewBranch(a: map<nat, Run>, b: map<nat, Run>)
  {
    forall i :: i in b && Started(b[i].phase) ==>
      && i in a && Started(a[i].phase) && a[i].parent == b[i].parent && a[i].cids == b[i].cids
      && (b[i].phase.Deployed? ==> a[i].phase == b[i].phase)
  }

  lemma SameTreesKeep(w: World, v: World)
    requires LineageOk(w) && v.patches == w.patches && |w.threads| <= |v.threads|
    requires forall t :: 0 <= t < |w.threads| ==> SameTree(w.threads[t], v.threads[t])
    requires forall t :: |w.threads| <= t < |v.threads| ==> v.threads[t].iterations == [] && v.threads[t].preview.None?
    requires NoNewBranch(w.live, v.live) && RowsGrow(w.tasks, v.tasks) && LivesOk(v)
    ensures LineageOk(v)
  {
    forall t | 0 <= t < |v.threads|
      ensures TreeOk(v.threads[t], v.patches)
    {
      if t < |w.threads| {
        assert TreeOk(w.threads[t], w.patches);
        forall k | 0 <= k < |v.threads[t].iterations|
          ensures NodeOk(v.threads[t], v.patches, k)
        {
          assert NodeOk(w.threads[t], w.patches, k);
        }
      }
    }
    forall i | i in v.live
      ensures BranchOk(v, i)
    {
      assert LiveOk(v, i);
      if Started(v.live[i].phase) {
        assert BranchOk(w, i) && SameTree(w.threads[w.tasks[i].thread], v.threads[w.tasks[i].thread]);
      }
    }
  }

  lemma PostKeepsLineage(w: World, t: nat, mentions: bool, cap: Option<Sha>)
    requires Safe(w) && LineageOk(w) && t < |w.threads|
    ensures LineageOk(Post(w, t, mentions, cap))
  {
    var v := Post(w, t, mentions, cap);
    PostTells(w, t, mentions, cap);
    PostKeeps(w, t, mentions, cap);
    if !Closed(w.threads[t].status) {
      PostIsCommented(w, t, mentions, cap);
      CommentTouches(w, t, mentions, cap);
      PostDoes(w, t, mentions, cap);
      RowsOnlyGrow(w.tasks, PostOps(w, t, mentions));
      var u := AddComment(w, t, Comment(false, mentions, cap));
      forall s | 0 <= s < |w.threads|
        ensures SameTree(w.threads[s], v.threads[s])
      {
        assert ThreadNarrated(u.threads[s], v.threads[s]);
      }
      CancelLiveKeeps(w, t);
      SameTreesKeep(w, v);
    }
  }

  lemma CancelLiveKeeps(w: World, t: nat)
    ensures NoNewBranch(w.live, w.live)
    ensures ActiveTask(w.tasks, t).Some? ==> NoNewBranch(w.live, CancelTask(w, ActiveTask(w.tasks, t).value).live)
  {
  }

  lemma OpenKeepsLineage(w: World, mentions: bool, cap: Option<Sha>)
    requires Safe(w) && LineageOk(w)
    ensures LineageOk(OpenThread(w, mentions, cap))
  {
    var base := if cap.Some? then cap.value else w.cfg.mainSha;
    var v := w.(threads := w.threads + [Thread(base, Open, [Open], [], [], None, None)]);
    ThreadsOnly(w, v);
    SameTreesKeep(w, v);
    PostKeepsLineage(v, |w.threads|, mentions, cap);
  }

  lemma {:induction false} RecoverHasNoHandlers(w: World, n: nat)
    requires n <= |w.threads| && w.live == map[]
    ensures RecoverUpTo(w, n).live == map[]
  {
    if n > 0 { RecoverHasNoHandlers(w, n - 1); }
  }

  lemma {:induction false} ReapLive(w: World, ids: seq<nat>)
    requires ThreadsResolve(w, ids)
    ensures ReapAll(w, ids).live == w.live
    decreases |ids|
  {
    if ids != [] {
      assert ids[0] in ids && forall i :: i in ids[1..] ==> i in ids;
      ReapLive(FailTask(w, ids[0]), ids[1..]);
    }
  }

  lemma CancelRunBranchesNothing(w: World, t: nat, who: Permission)
    requires t < |w.threads|
    ensures NoNewBranch(w.live, CancelRun(w, t, who).live)
  {
    if CanCancel(w, t, who) { CancelLiveKeeps(w, t); }
  }

  lemma RowStepBranchesNothing(w: World, s: Step)
    requires Enabled(w, s) && !Writes(s) && !s.DoStart? && !s.DoReap? && !s.DoRestart? && !IsFlowStep(s)
    ensures NoNewBranch(w.live, Next(w, s).live)
  {
    hide CancelRun, FailTask;
    if s.DoCancelRun? {
      CancelRunBranchesNothing(w, s.thread, s.who);
    } else if s.DoFail? {
      ReapLive(DropRun(w, s.task), [s.task]);
    }
  }

  lemma StepBranchesNothing(w: World, s: Step)
    requires Enabled(w, s) && !Writes(s) && !s.DoStart?
    ensures NoNewBranch(w.live, Next(w, s).live)
  {
    hide ReapAll, RecoverUpTo, FlowOpened, FlowOpenFailed, FlowLands, FlowResumes, CancelRun, Replay, Claim, FailTask;
    if s.DoReap? {
      ReapLive(w, ExpiredIds(w.tasks, w.clock, |w.tasks|));
    } else if s.DoRestart? {
      RecoverHasNoHandlers(Crashed(w), |w.threads|);
    } else if IsFlowStep(s) {
      FlowLive(w, s);
    } else {
      RowStepBranchesNothing(w, s);
    }
  }

  lemma FlowLive(w: World, s: Step)
    requires Enabled(w, s) && IsFlowStep(s)
    ensures Next(w, s).live == w.live
  {
  }

  lemma QuietStepKeepsLineage(w: World, s: Step)
    requires Safe(w) && LineageOk(w) && Enabled(w, s) && !Writes(s) && !s.DoStart?
    ensures LineageOk(Next(w, s))
  {
    var v := Next(w, s);
    StepTells(w, s);
    StepKeeps(w, s);
    StepDoes(w, s);
    RowsOnlyGrow(w.tasks, OpsOf(w, s));
    StepBranchesNothing(w, s);
    forall t | 0 <= t < |w.threads|
      ensures SameTree(w.threads[t], v.threads[t])
    {
      assert ThreadNarrated(w.threads[t], v.threads[t]);
    }
    SameTreesKeep(w, v);
  }

  // ---- start, deploy, record ----------------------------------------------------------------------------

  // The newest captured sha of the task's user comments if one of the thread's iterations
  // deployed it; otherwise the newest iteration, or the base of a thread that has none.
  lemma BaseResolution(th: Thread, patches: map<Sha, seq<Patch>>, cids: seq<nat>, c: nat)
    requires TreeOk(th, patches)
    ensures (forall d: nat :: !Captures(th, cids, d)) ==>
      ResolveParent(th, cids) == if th.iterations == [] then th.base else th.iterations[|th.iterations| - 1].sha
    ensures NewestCapture(th, cids, c) && !PreviewAmong(th.iterations, |th.iterations|, th.comments[c].cap.value) ==>
      ResolveParent(th, cids) == if th.iterations == [] then th.base else th.iterations[|th.iterations| - 1].sha
    ensures NewestCapture(th, cids, c) && PreviewAmong(th.iterations, |th.iterations|, th.comments[c].cap.value) ==>
      ResolveParent(th, cids) == th.comments[c].cap.value
  {
    CaptureDecides(th, cids, c);
  }

  lemma ParentIsInTree(th: Thread, patches: map<Sha, seq<Patch>>, cids: seq<nat>)
    requires TreeOk(th, patches)
    ensures InTree(th, ResolveParent(th, cids))
  {
    if th.iterations != [] {
      assert th.iterations[|th.iterations| - 1].sha == Tip(th);
    }
  }

  lemma StepRowsGrow(w: World, s: Step)
    requires Safe(w) && Enabled(w, s)
    ensures RowsGrow(w.tasks, Next(w, s).tasks)
  {
    StepDoes(w, s);
    RowsOnlyGrow(w.tasks, OpsOf(w, s));
  }

  lemma TellsSameTrees(w: World, v: World)
    requires Tells(w, v)
    ensures forall s :: 0 <= s < |w.threads| ==> SameTree(w.threads[s], v.threads[s])
  {
    forall s | 0 <= s < |w.threads|
      ensures SameTree(w.threads[s], v.threads[s])
    {
      assert ThreadNarrated(w.threads[s], v.threads[s]);
    }
  }

  // The handler table after the start segment.
  function StartedRun(w: World, i: nat): Run
    requires HandlerAt(w, i)
  {
    var th := w.threads[w.tasks[i].thread];
    var run := w.live[i];
    if Addressed(th, run.cids[|run.cids| - 1]) then run.(phase := Finished)
    else run.(phase := Phase.Analyzing, parent := ResolveParent(th, run.cids))
  }

  lemma StartLive(w: World, i: nat)
    requires HandlerAt(w, i)
    ensures StartRun(w, i).live == w.live[i := StartedRun(w, i)]
  {
  }

  lemma StartKeepsLineage(w: World, i: nat)
    requires Safe(w) && LineageOk(w) && Enabled(w, DoStart(i))
    ensures LineageOk(Next(w, DoStart(i)))
  {
    var v := Next(w, DoStart(i));
    StepKeeps(w, DoStart(i));
    StepTells(w, DoStart(i));
    StepRowsGrow(w, DoStart(i));
    StartLive(w, i);
    TellsSameTrees(w, v);
    StartedIsInTree(w, v, i);
  }

  lemma StartedIsInTree(w: World, v: World, i: nat)
    requires Safe(w) && LineageOk(w) && HandlerAt(w, i) && w.live[i].phase.Spawned?
    requires v.live == w.live[i := StartedRun(w, i)] && LivesOk(v) && RowsGrow(w.tasks, v.tasks)
    requires v.patches == w.patches && |v.threads| == |w.threads|
    requires forall s :: 0 <= s < |w.threads| ==> SameTree(w.threads[s], v.threads[s])
    ensures LineageOk(v)
  {
    hide Safe, TreeOk;
    var u := w.(live := v.live);
    ParentIsInTree(w.threads[w.tasks[i].thread], w.patches, w.live[i].cids);
    forall k | k in u.live
      ensures BranchOk(u, k)
    {
      assert BranchOk(w, k);
    }
    SameTreesKeep(u, v);
  }

  // Every sha a thread's tree mentions keeps its patches when a fresh sha is stored.
  lemma StoreKeepsTree(w: World, th: Thread, s: Sha, ps: seq<Patch>)
    requires TreeOk(th, w.patches) && s !in w.patches && s != th.base
    ensures TreeOk(th, w.patches[s := ps])
    ensures forall p :: InTree(th, p) ==> Lineage(w.patches[s := ps], p) == Lineage(w.patches, p)
  {
    forall p | InTree(th, p)
      ensures p != s
    {
      if p != th.base {
        var k :| 0 <= k < |th.iterations| && th.iterations[k].sha == p;
        assert NodeOk(th, w.patches, k);
      }
    }
    var after := w.patches[s := ps];
    forall k | 0 <= k < |th.iterations|
      ensures NodeOk(th, after, k)
    {
      assert NodeOk(th, w.patches, k);
      assert InTree(th, th.iterations[k].parent) && InTree(th, th.iterations[k].sha);
    }
  }

  lemma DeployedAreStored(w: World)
    requires LineageOk(w)
    ensures forall k :: k in w.live && w.live[k].phase.Deployed? ==> w.live[k].phase.sha in w.patches
  {
    forall k | k in w.live && w.live[k].phase.Deployed?
      ensures w.live[k].phase.sha in w.patches
    {
      assert BranchOk(w, k);
    }
  }

  lemma DeployKeepsBranch(w: World, i: nat, s: Sha, patch: Patch, k: nat)
    requires LineageOk(w) && Enabled(w, DoDeploy(i, s, patch)) && k in w.live
    ensures BranchOk(Deploy(w, i, s, patch), k)
  {
    assert BranchOk(w, i) && BranchOk(w, k);
    var th := w.threads[w.tasks[k].thread];
    assert TreeOk(th, w.patches);
    StoreKeepsTree(w, th, s, Lineage(w.patches, w.live[i].parent) + [patch]);
  }

  lemma DeployKeepsLineage(w: World, i: nat, s: Sha, patch: Patch)
    requires Safe(w) && LineageOk(w) && Enabled(w, DoDeploy(i, s, patch))
    ensures LineageOk(Deploy(w, i, s, patch))
  {
    hide Safe, TreeOk, BranchOk;
    var v := Deploy(w, i, s, patch);
    forall t | 0 <= t < |v.threads|
      ensures TreeOk(v.threads[t], v.patches)
    {
      StoreKeepsTree(w, w.threads[t], s, Lineage(w.patches, w.live[i].parent) + [patch]);
    }
    forall k | k in v.live
      ensures BranchOk(v, k)
    {
      DeployKeepsBranch(w, i, s, patch, k);
    }
    DeployedAreStored(w);
    DeployKeepsShasApart(w, i, s, patch);
  }

  lemma DeployKeepsShasApart(w: World, i: nat, s: Sha, patch: Patch)
    requires i in w.live && ShasApart(w.live)
    requires forall k :: k in w.live && w.live[k].phase.Deployed? ==> w.live[k].phase.sha != s
    ensures ShasApart(Deploy(w, i, s, patch).live)
  {
  }

  // The iteration row joins the tree as a leaf.
  lemma RowLandsInTree(w: World, i: nat)
    requires LineageOk(w) && HandlerAt(w, i) && w.live[i].phase.Deployed?
    ensures LineageOk(RowLands(w, i))
  {
    var v := RowLands(w, i);
    var t := w.tasks[i].thread;
    var n := |w.threads[t].iterations|;
    assert BranchOk(w, i);
    forall s | 0 <= s < |v.threads|
      ensures TreeOk(v.threads[s], v.patches)
    {
      assert TreeOk(w.threads[s], w.patches);
      forall k | 0 <= k < |v.threads[s].iterations|
        ensures NodeOk(v.threads[s], v.patches, k)
      {
        if s != t || k < n {
          assert NodeOk(w.threads[s], w.patches, k);
          assert v.threads[s].iterations[..k] == w.threads[s].iterations[..k];
        } else if w.live[i].parent != w.threads[t].base {
          var m :| 0 <= m < n && w.threads[t].iterations[m].sha == w.live[i].parent;
          assert v.threads[t].iterations[m].sha == w.live[i].parent;
        }
      }
    }
    forall k | k in v.live
      ensures BranchOk(v, k)
    {
      assert BranchOk(w, k);
      var s := w.tasks[k].thread;
      if Started(v.live[k].phase) && w.live[k].parent != w.threads[s].base {
        var m :| 0 <= m < |w.threads[s].iterations| && w.threads[s].iterations[m].sha == w.live[k].parent;
        assert v.threads[s].iterations[m].sha == w.live[k].parent;
      }
    }
  }

  lemma RecordLive(w: World, i: nat)
    requires HandlerAt(w, i) && w.live[i].phase.Deployed?
    ensures Record(w, i).live == RowLands(w, i).live
  {
  }

  lemma RecordKeepsLineage(w: World, i: nat)
    requires Safe(w) && LineageOk(w) && Enabled(w, DoRecord(i))
    ensures LineageOk(Next(w, DoRecord(i)))
  {
    var u, v := RowLands(w, i), Next(w, DoRecord(i));
    RowLandsInTree(w, i);
    RecordTells(w, i);
    StepKeeps(w, DoRecord(i));
    StepRowsGrow(w, DoRecord(i));
    RecordLive(w, i);
    TellsSameTrees(u, v);
    assert u.tasks == w.tasks;
    SameTreesKeep(u, v);
  }

  lemma StepKeepsLineage(w: World, s: Step)
    requires Safe(w) && LineageOk(w) && Enabled(w, s)
    ensures LineageOk(Next(w, s))
  {
    if s.DoOpen? {
      OpenKeepsLineage(w, s.mentions, s.cap);
    } else if s.DoPost? {
      PostKeepsLineage(w, s.thread, s.mentions, s.cap);
    } else if s.DoStart? {
      StartKeepsLineage(w, s.task);
    } else if s.DoDeploy? {
      DeployKeepsLineage(w, s.task, s.sha, s.patch);
    } else if s.DoRecord? {
      RecordKeepsLineage(w, s.task);
    } else if s.DoTick? {
      StepKeeps(w, s);
      SameTreesKeep(w, Next(w, s));
    } else {
      QuietStepKeepsLineage(w, s);
    }
  }

  lemma {:induction false} RunKeepsLineage(w: World, steps: seq<Step>)
    requires Safe(w) && LineageOk(w) && IsRun(w, steps)
    ensures LineageOk(Exec(w, steps))
    decreases |steps|
  {
    if steps != [] {
      StepKeepsLineage(w, steps[0]);
      StepKeeps(w, steps[0]);
      RunKeepsLineage(Next(w, steps[0]), steps[1..]);
    }
  }

  // ---- the tree, folded -------------------------------------------------------------------------------------

  // The first iteration that deployed the sha, among the first n.
  function NodeOf(its: seq<Iteration>, s: Sha, n: nat): (r: Option<nat>)
    requires n <= |its|
    ensures r.Some? ==> r.value < n && its[r.value].sha == s
    ensures r.None? ==> forall k :: 0 <= k < n ==> its[k].sha != s
  {
    if n == 0 then None
    else
      var r := NodeOf(its, s, n - 1);
      if r.Some? then r else if its[n - 1].sha == s then Some(n - 1) else None
  }

  // From the root's child down to node k.
  function PathTo(its: seq<Iteration>, k: nat): seq<nat>
    requires k < |its|
    decreases k
  {
    var up := NodeOf(its, its[k].parent, k);
    (if up.Some? then PathTo(its, up.value) else []) + [k]
  }

  ghost predicate IsRootPath(th: Thread, path: seq<nat>, k: nat)
  {
    && path != [] && path[|path| - 1] == k
    && (forall j :: 0 <= j < |path| ==> path[j] < |th.iterations|)
    && th.iterations[path[0]].parent == th.base
    && (forall j :: 0 <= j < |path| - 1 ==>
          path[j] < path[j + 1] && th.iterations[path[j + 1]].parent == th.iterations[path[j]].sha)
  }

  function PatchesAlong(its: seq<Iteration>, path: seq<nat>): seq<Patch>
    requires forall j :: 0 <= j < |path| ==> path[j] < |its|
  {
    seq(|path|, j requires 0 <= j < |path| => its[path[j]].patch)
  }

  lemma {:induction false} PathIsRootPath(th: Thread, patches: map<Sha, seq<Patch>>, k: nat)
    requires TreeOk(th, patches) && k < |th.iterations|
    ensures IsRootPath(th, PathTo(th.iterations, k), k)
    decreases k
  {
    assert NodeOk(th, patches, k);
    var up := NodeOf(th.iterations, th.iterations[k].parent, k);
    if up.Some? {
      PathIsRootPath(th, patches, up.value);
    }
  }

  lemma {:induction false} StoreIsFold(th: Thread, patches: map<Sha, seq<Patch>>, k: nat)
    requires TreeOk(th, patches) && k < |th.iterations|
    ensures IsRootPath(th, PathTo(th.iterations, k), k)
    ensures th.iterations[k].sha in patches
    ensures patches[th.iterations[k].sha] == Lineage(patches, th.base) + PatchesAlong(th.iterations, PathTo(th.iterations, k))
    decreases k
  {
    PathIsRootPath(th, patches, k);
    assert NodeOk(th, patches, k);
    var its := th.iterations;
    var up := NodeOf(its, its[k].parent, k);
    var root := Lineage(patches, th.base);
    if up.Some? {
      StoreIsFold(th, patches, up.value);
      var above := PathTo(its, up.value);
      assert PatchesAlong(its, above + [k]) == PatchesAlong(its, above) + [its[k].patch];
      assert root + PatchesAlong(its, above) + [its[k].patch] == root + (PatchesAlong(its, above) + [its[k].patch]);
    } else {
      assert PatchesAlong(its, [k]) == [its[k].patch];
    }
  }

  // In every run, every preview's stored patches are the base's patches followed by the patches
  // on its root-to-node path; a fork drops the superseded branch.
  lemma PreviewAgreement(cfg: Config, steps: seq<Step>, t: nat, k: nat)
    requires ConfigOk(cfg) && IsRun(Initial(cfg), steps)
    requires t < |Exec(Initial(cfg), steps).threads| && k < |Exec(Initial(cfg), steps).threads[t].iterations|
    ensures
      var w := Exec(Initial(cfg), steps);
      var th := w.threads[t];
      && IsRootPath(th, PathTo(th.iterations, k), k)
      && th.iterations[k].sha in w.patches
      && w.patches[th.iterations[k].sha] == Lineage(w.patches, th.base) + PatchesAlong(th.iterations, PathTo(th.iterations, k))
  {
    RunKeepsLineage(Initial(cfg), steps);
    var w := Exec(Initial(cfg), steps);
    StoreIsFold(w.threads[t], w.patches, k);
  }

  // ---- what is rendered ---------------------------------------------------------------------------------------

  function JoinCss(sep: string, ps: seq<Patch>): string
  {
    if ps == [] then "" else if |ps| == 1 then ps[0].css else JoinCss(sep, ps[..|ps| - 1]) + sep + ps[|ps| - 1].css
  }

  // Patches are rendered oldest first, each once, with the separator between any two.
  lemma {:induction false} JoinedInOrder(sep: string, p: Patch, a: seq<Patch>, b: seq<Patch>)
    ensures JoinCss(sep, []) == "" && JoinCss(sep, [p]) == p.css
    ensures a != [] && b != [] ==> JoinCss(sep, a + b) == JoinCss(sep, a) + sep + JoinCss(sep, b)
    decreases |b|
  {
    if a != [] && b != [] {
      var rest, last := b[..|b| - 1], b[|b| - 1];
      assert (a + b)[..|a + b| - 1] == a + rest;
      if rest == [] {
        assert a + rest == a;
      } else {
        JoinedInOrder(sep, p, a, rest);
      }
    }
  }

  // The live preview of a thread: None is the 404.
  function LivePreview(w: World, t: nat): Option<string>
    requires t < |w.threads|
  {
    var p := w.threads[t].preview;
    if p.Some? && p.value in w.patches && w.patches[p.value] != [] then Some(JoinCss("\n", w.patches[p.value])) else None
  }

  // The css body of the file a PR commits.
  function PatchFileBody(w: World, t: nat): string
    requires t < |w.threads|
  {
    JoinCss("\n\n", if w.threads[t].preview.Some? then Lineage(w.patches, w.threads[t].preview.value) else [])
  }

  // Both render the path to the newest iteration: what is approved is what is committed.
  lemma RenderedIsTipPath(cfg: Config, steps: seq<Step>, t: nat)
    requires ConfigOk(cfg) && IsRun(Initial(cfg), steps)
    requires t < |Exec(Initial(cfg), steps).threads|
    ensures
      var w := Exec(Initial(cfg), steps);
      var th := w.threads[t];
      && (th.iterations == [] ==> LivePreview(w, t) == None)
      && (th.iterations != [] ==>
            var k := |th.iterations| - 1;
            IsRootPath(th, PathTo(th.iterations, k), k) &&
            var shown := Lineage(w.patches, th.base) + PatchesAlong(th.iterations, PathTo(th.iterations, k));
            && th.preview == Some(th.iterations[k].sha)
            && LivePreview(w, t) == Some(JoinCss("\n", shown)) && PatchFileBody(w, t) == JoinCss("\n\n", shown))
  {
    RunKeepsLineage(Initial(cfg), steps);
    var w := Exec(Initial(cfg), steps);
    var th := w.threads[t];
    assert TreeOk(th, w.patches);
    if th.iterations != [] {
      StoreIsFold(th, w.patches, |th.iterations| - 1);
    }
  }
}
