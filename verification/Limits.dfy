/**
 Where the promises end: concrete runs in which a premise is dropped and its promise fails. The
 exact condition of each is proved elsewhere and named in the comment.
 */
module Limits {
  import opened Domain
  import opened TaskTable
  import opened Protocol
  import opened Lifecycle
  import opened Asks
  import opened Leases
  import E = Events

  const ASK := Comment(false, true, None)

  lemma OneMore(w: World, s: Step, rest: seq<Step>)
    requires Enabled(w, s) && IsRun(Next(w, s), rest)
    ensures IsRun(w, [s] + rest) && Exec(w, [s] + rest) == Exec(Next(w, s), rest)
  {
    assert ([s] + rest)[1..] == rest;
  }

  lemma OneThread(a: seq<Thread>, b: seq<Thread>)
    requires |a| == |b| == 1 && a[0] == b[0]
    ensures a == b
  {
  }

  // ---- one ask, submitted and claimed -----------------------------------------------------

  function Submitted(cfg: Config): World
  {
    World(cfg, 0, [Thread(cfg.mainSha, Triggered, [Open, Triggered], [ASK], [], None, None)],
          [NewTask(0, [0], cfg.maxAttempts, 0)], map[], map[], [])
  }

  function Delivered(cfg: Config): World
  {
    var row := Task(0, [0], Running, 1, cfg.maxAttempts, Some(0), cfg.leaseMs, 0);
    Submitted(cfg).(tasks := [row], live := map[0 := Run(0, [0], 0, Spawned, 0)])
  }

  const OPEN := DoOpen(true, None)

  lemma SubmittedIsNext(cfg: Config)
    ensures Enabled(Initial(cfg), OPEN) && Next(Initial(cfg), OPEN) == Submitted(cfg)
  {
    var th := Thread(cfg.mainSha, Open, [Open], [], [], None, None);
    var w := Initial(cfg).(threads := [th]);
    var u := AddComment(w, 0, ASK);
    assert Initial(cfg).threads + [th] == [th] && [] + [ASK] == [ASK];
    assert Post(w, 0, true, None) == Submit(u, 0, [0]);
    assert [Open] + [Triggered] == [Open, Triggered];
    OneThread(Submit(u, 0, [0]).threads, Submitted(cfg).threads);
  }

  lemma DeliveredIsNext(cfg: Config)
    requires cfg.maxInflight > 0
    ensures Enabled(Submitted(cfg), DoClaim(0)) && Next(Submitted(cfg), DoClaim(0)) == Delivered(cfg)
  {
    assert OldestQueued(Submitted(cfg).tasks, 1) == Some(0);
  }

  lemma FromDelivery(cfg: Config, rest: seq<Step>)
    requires cfg.maxInflight > 0 && IsRun(Delivered(cfg), rest)
    ensures IsRun(Initial(cfg), [OPEN] + ([DoClaim(0)] + rest))
    ensures Exec(Initial(cfg), [OPEN] + ([DoClaim(0)] + rest)) == Exec(Delivered(cfg), rest)
  {
    DeliveredIsNext(cfg);
    OneMore(Submitted(cfg), DoClaim(0), rest);
    SubmittedIsNext(cfg);
    OneMore(Initial(cfg), OPEN, [DoClaim(0)] + rest);
  }

  // ---- a replay outside its guard (Guarantees.ReplayIffGuard) --------------------------------

  const ONE_ATTEMPT := Config(1, 3000, 0, 1, 0)

  // The only attempt fails, the user asks again, and a human replays the dead letter.
  const REPLAY_BESIDE_RETRY := [DoFail(0)] + ([DoPost(0, true, None)] + ([DoReplay(0)] + []))

  function Dead(): World
  {
    Delivered(ONE_ATTEMPT).(
      tasks := [Task(0, [0], Dlq, 1, 1, None, 0, 0)], live := map[],
      threads := [Thread(0, ThreadStatus.Failed, [Open, Triggered, ThreadStatus.Failed], [ASK, NARRATION], [], None, None)])
  }

  function AskedAgain(): World
  {
    Dead().(
      tasks := Dead().tasks + [NewTask(0, [2], 1, 0)],
      threads := [Thread(0, Triggered, [Open, Triggered, ThreadStatus.Failed, Triggered], [ASK, NARRATION, ASK], [], None, None)])
  }

  lemma DeadIsNext()
    ensures Enabled(Delivered(ONE_ATTEMPT), DoFail(0)) && Next(Delivered(ONE_ATTEMPT), DoFail(0)) == Dead()
  {
    var v := Next(Delivered(ONE_ATTEMPT), DoFail(0));
    assert [ASK] + [NARRATION] == [ASK, NARRATION];
    assert [Open, Triggered] + [ThreadStatus.Failed] == [Open, Triggered, ThreadStatus.Failed];
    OneThread(v.threads, Dead().threads);
    assert v.tasks == Dead().tasks && v.live == map[];
  }

  lemma AskedAgainIsNext()
    ensures Enabled(Dead(), DoPost(0, true, None)) && Next(Dead(), DoPost(0, true, None)) == AskedAgain()
  {
    var u := AddComment(Dead(), 0, ASK);
    assert u.tasks[..1] == u.tasks && ActiveTask(u.tasks, 0).None?;
    assert [ASK, NARRATION] + [ASK] == [ASK, NARRATION, ASK];
    assert Post(Dead(), 0, true, None) == Submit(u, 0, [2]);
    assert [Open, Triggered, ThreadStatus.Failed] + [Triggered] == [Open, Triggered, ThreadStatus.Failed, Triggered];
    OneThread(Submit(u, 0, [2]).threads, AskedAgain().threads);
  }

  lemma UnguardedReplayMakesTwoWriters()
    ensures ConfigOk(ONE_ATTEMPT)
    ensures
      var steps := [OPEN] + ([DoClaim(0)] + REPLAY_BESIDE_RETRY);
      && IsRun(Initial(ONE_ATTEMPT), steps)
      && Outstanding(Exec(Initial(ONE_ATTEMPT), steps), 0, 0) && Outstanding(Exec(Initial(ONE_ATTEMPT), steps), 0, 1)
  {
    OneMore(AskedAgain(), DoReplay(0), []);
    AskedAgainIsNext();
    OneMore(Dead(), DoPost(0, true, None), [DoReplay(0)] + []);
    DeadIsNext();
    OneMore(Delivered(ONE_ATTEMPT), DoFail(0), [DoPost(0, true, None)] + ([DoReplay(0)] + []));
    FromDelivery(ONE_ATTEMPT, REPLAY_BESIDE_RETRY);
  }

  // ---- an ask behind a cancelled run (Asks.CancelRunStrandsIff) --------------------------------

  const DEFAULTS := Config(1, 30000, 0, 3, 0)

  // The handler is coding, a second ask is stored for the drain, and the run is cancelled.
  const CANCEL_OVER_WAITING_ASK :=
    [DoStart(0)] + ([DoCode(0)] + ([DoPost(0, true, None)] + ([DoCancelRun(0, CommentOnly)] + [])))

  function At(status: ThreadStatus, history: seq<ThreadStatus>, comments: seq<Comment>, phase: Phase): World
  {
    Delivered(DEFAULTS).(
      live := map[0 := Run(0, [0], 0, phase, 0)],
      threads := [Thread(0, status, history, comments, [], None, None)])
  }

  function Reasoning(): World
  {
    At(ThreadStatus.Analyzing, [Open, Triggered, ThreadStatus.Analyzing], [ASK], Phase.Analyzing)
  }

  function Writing(comments: seq<Comment>): World
  {
    At(ThreadStatus.Coding, [Open, Triggered, ThreadStatus.Analyzing, ThreadStatus.Coding], comments, Phase.Coding)
  }

  lemma ReasoningIsNext()
    ensures Enabled(Delivered(DEFAULTS), DoStart(0)) && Next(Delivered(DEFAULTS), DoStart(0)) == Reasoning()
  {
    var th := Delivered(DEFAULTS).threads[0];
    assert LatestCapture(th, [0], 1) == LatestCapture(th, [0], 0);
    assert !Addressed(th, 0);
    assert [Open, Triggered] + [ThreadStatus.Analyzing] == [Open, Triggered, ThreadStatus.Analyzing];
    OneThread(Next(Delivered(DEFAULTS), DoStart(0)).threads, Reasoning().threads);
    assert Next(Delivered(DEFAULTS), DoStart(0)).live == Reasoning().live;
  }

  lemma WritingIsNext()
    ensures Enabled(Reasoning(), DoCode(0)) && Next(Reasoning(), DoCode(0)) == Writing([ASK])
  {
    assert [Open, Triggered, ThreadStatus.Analyzing] + [ThreadStatus.Coding]
        == [Open, Triggered, ThreadStatus.Analyzing, ThreadStatus.Coding];
    OneThread(Next(Reasoning(), DoCode(0)).threads, Writing([ASK]).threads);
    assert Next(Reasoning(), DoCode(0)).live == Writing([ASK]).live;
  }

  lemma WaitingIsNext()
    ensures Enabled(Writing([ASK]), DoPost(0, true, None))
    ensures Next(Writing([ASK]), DoPost(0, true, None)) == Writing([ASK, ASK, NARRATION])
  {
    var u := AddComment(Writing([ASK]), 0, ASK);
    assert ActiveTask(u.tasks, 0) == Some(0);
    assert OnComment(u, 0, 1) == Narrate(u, 0);
    assert ([ASK] + [ASK]) + [NARRATION] == [ASK, ASK, NARRATION];
    OneThread(Narrate(u, 0).threads, Writing([ASK, ASK, NARRATION]).threads);
  }

  lemma StrandedIsNext()
    ensures Enabled(Writing([ASK, ASK, NARRATION]), DoCancelRun(0, CommentOnly))
    ensures
      var v := Next(Writing([ASK, ASK, NARRATION]), DoCancelRun(0, CommentOnly));
      |v.threads| == 1 && v.threads[0].status.Open? && Pending(v.threads[0], v.tasks, 0, 1) && !ActiveTask(v.tasks, 0).Some?
  {
    var w := Writing([ASK, ASK, NARRATION]);
    assert ActiveTask(w.tasks, 0) == Some(0);
    var v := Next(w, DoCancelRun(0, CommentOnly));
    assert v.tasks == [w.tasks[0].(state := TaskState.Cancelled)];
    assert v.threads[0].comments == [ASK, ASK, NARRATION, NARRATION];
  }

  lemma CancelRunStrandsWaitingAsk()
    ensures ConfigOk(DEFAULTS)
    ensures
      var steps := [OPEN] + ([DoClaim(0)] + CANCEL_OVER_WAITING_ASK);
      && IsRun(Initial(DEFAULTS), steps)
      && var v := Exec(Initial(DEFAULTS), steps);
      && |v.threads| == 1 && v.threads[0].status.Open? && Pending(v.threads[0], v.tasks, 0, 1) && !ActiveTask(v.tasks, 0).Some?
  {
    hide Next, Enabled, Pending, ActiveTask;
    StrandedIsNext();
    OneMore(Writing([ASK, ASK, NARRATION]), DoCancelRun(0, CommentOnly), []);
    WaitingIsNext();
    OneMore(Writing([ASK]), DoPost(0, true, None), [DoCancelRun(0, CommentOnly)] + []);
    WritingIsNext();
    OneMore(Reasoning(), DoCode(0), [DoPost(0, true, None)] + ([DoCancelRun(0, CommentOnly)] + []));
    ReasoningIsNext();
    OneMore(Delivered(DEFAULTS), DoStart(0), [DoCode(0)] + ([DoPost(0, true, None)] + ([DoCancelRun(0, CommentOnly)] + [])));
    FromDelivery(DEFAULTS, CANCEL_OVER_WAITING_ASK);
  }

  // ---- heartbeats that can miss the lease ---------------------------------------------------------

  // In all runs live handlers hold their leases, exactly when a beat as late as it may be still
  // lands in time.
  lemma LeasesHoldIff(cfg: Config)
    requires cfg.maxAttempts >= 1 && cfg.maxInflight >= 1
    ensures (forall steps :: IsRun(Initial(cfg), steps) ==> LivingHoldLeases(Exec(Initial(cfg), steps))) <==> ConfigOk(cfg)
  {
    if ConfigOk(cfg) {
      forall steps | IsRun(Initial(cfg), steps)
        ensures LivingHoldLeases(Exec(Initial(cfg), steps))
      {
        LeaseMutualExclusion(cfg, steps);
      }
    } else {
      var w := Delivered(cfg);
      var tick := DoTick(cfg.leaseMs + 1);
      OneMore(w, tick, []);
      FromDelivery(cfg, [tick] + []);
      assert Expired(Next(w, tick).tasks[0], cfg.leaseMs + 1) && 0 in Next(w, tick).live;
    }
  }

  const SHORT_LEASE := Config(2, 300, 0, 3, 0)

  const REAP_UNDER_HANDLER := [DoTick(301)] + ([DoReap] + [])

  lemma TickIsNext()
    ensures Enabled(Delivered(SHORT_LEASE), DoTick(301))
    ensures Next(Delivered(SHORT_LEASE), DoTick(301)) == Delivered(SHORT_LEASE).(clock := 301)
  {
  }

  lemma ReclaimedIsNext()
    ensures Enabled(Delivered(SHORT_LEASE).(clock := 301), DoReap)
    ensures
      var v := Next(Delivered(SHORT_LEASE).(clock := 301), DoReap);
      |v.tasks| == 1 && 0 in v.live && Unfinished(v.live[0].phase) && v.tasks[0].state.Queued? && WorkerFree(v, 1)
  {
    var u := Delivered(SHORT_LEASE).(clock := 301);
    assert ExpiredIds(u.tasks, 301, 1) == [0];
    assert ReapAll(u, [0]) == FailTask(u, 0);
  }

  // A 0.3 s lease: every heartbeat is punctual, and the janitor still requeues the row of a live
  // handler, for another worker to claim.
  lemma ShortLeaseReclaimsLiveHandler()
    ensures
      var steps := [OPEN] + ([DoClaim(0)] + REAP_UNDER_HANDLER);
      && IsRun(Initial(SHORT_LEASE), steps)
      && var v := Exec(Initial(SHORT_LEASE), steps);
      && |v.tasks| == 1 && 0 in v.live && Unfinished(v.live[0].phase) && v.tasks[0].state.Queued? && WorkerFree(v, 1)
  {
    hide Next, Enabled, WorkerFree;
    var w := Delivered(SHORT_LEASE);
    TickIsNext();
    ReclaimedIsNext();
    OneMore(w.(clock := 301), DoReap, []);
    OneMore(w, DoTick(301), [DoReap] + []);
    FromDelivery(SHORT_LEASE, REAP_UNDER_HANDLER);
  }

  // ---- event replays that skip silently (Events.LosslessIff) ------------------------------

  const NEWS := E.Payload(None)

  // With no history the ring is always empty, so a client at id 0 misses what was published.
  lemma EmptyRingSkipsSilently()
    ensures
      var y := E.Subscribed([NEWS], 0, Some(0), None);
      && E.CanRun(y, [E.Begin, E.SendMissed])
      && var v := E.RunMoves(y, [E.Begin, E.SendMissed]);
      && v.stream.phase.Tailing? && v.stream.out == [E.Retry] && E.Cursor(v) == 1
  {
    var y := E.Subscribed([NEWS], 0, Some(0), None);
    var y1 := E.Step(y, E.Begin);
    assert [E.Begin, E.SendMissed][1..] == [E.SendMissed] && [E.SendMissed][1..] == [];
    assert E.Step(y1, E.SendMissed).stream.out == [E.Retry];
  }

  // A client from an earlier process, ahead of this one's ids, gets no reset.
  lemma StaleClientGetsNoReset()
    ensures
      var y := E.Subscribed([NEWS], 500, Some(7), None);
      && E.CanRun(y, [E.Begin, E.SendMissed])
      && var v := E.RunMoves(y, [E.Begin, E.SendMissed]);
      && v.stream.phase.Tailing? && v.stream.out == [E.Retry] && E.Cursor(v) == 1
  {
    var y := E.Subscribed([NEWS], 500, Some(7), None);
    assert E.ReplayFrom(E.Ring([NEWS], 500), 7) == Some([]) by {
      E.ReplayIsLogSuffix([NEWS], 500, 7);
      assert E.Slice([NEWS], 1, 1) == [];
    }
    var y1 := E.Step(y, E.Begin);
    assert [E.Begin, E.SendMissed][1..] == [E.SendMissed] && [E.SendMissed][1..] == [];
    assert E.Step(y1, E.SendMissed).stream.out == [E.Retry];
  }
}
