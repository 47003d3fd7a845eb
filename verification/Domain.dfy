/**
 Entities and state sets shared by every component: threads, comments, iterations, tasks.

 Rows of an append-only table are named by their position: a thread id is an index into the
 thread table, a task id is a rowid, and a comment id is an index into its thread's log.
 That is the freshness of generated ids, stated once in the representation.
 */
module Domain {

  datatype Option<+T> = None | Some(value: T)

  // A deployment sha. A capture without a sha, or with an empty one, is None.
  type Sha = nat

  datatype Patch = Patch(css: string, summary: string)

  datatype Permission = View | CommentOnly | Approver

  predicate CanComment(p: Permission) { p.CommentOnly? || p.Approver? }

  predicate CanApprove(p: Permission) { p.Approver? }

  datatype ThreadStatus =
    | Open | Triggered | Analyzing | Coding | Deploying | PreviewReady
    | PrOpen | Merged | Done | Failed | Cancelled

  predicate Interruptible(s: ThreadStatus) { s.Triggered? || s.Analyzing? }

  predicate InFlight(s: ThreadStatus) { s.Triggered? || s.Analyzing? || s.Coding? || s.Deploying? }

  predicate Closed(s: ThreadStatus) { s.PrOpen? || s.Merged? || s.Done? || s.Cancelled? }

  // `mentions` is whether the text mentions @agent; `cap` is the sha of the capture bundle.
  datatype Comment = Comment(system: bool, mentions: bool, cap: Option<Sha>)

  // The agent's own narration. Its text can contain "@agent", so it is taken to mention it:
  // only the system flag keeps a narration out of the agent's bookkeeping.
  const NARRATION := Comment(true, true, None)

  // `patch` is carried whole (the table keeps its summary) so that lineage can be stated.
  datatype Iteration = Iteration(sha: Sha, parent: Sha, cids: seq<nat>, patch: Patch)

  datatype Thread = Thread(
    base: Sha, status: ThreadStatus, history: seq<ThreadStatus>, comments: seq<Comment>,
    iterations: seq<Iteration>, preview: Option<Sha>, prUrl: Option<nat>)

  // An @agent comment written by a user.
  predicate IsAsk(th: Thread, c: nat)
  {
    c < |th.comments| && !th.comments[c].system && th.comments[c].mentions
  }

  predicate Addressed(th: Thread, c: nat)
  {
    exists k :: 0 <= k < |th.iterations| && c in th.iterations[k].cids
  }

  datatype TaskState = Queued | Running | Cancelled | Done | Dlq

  datatype Task = Task(
    thread: nat, cids: seq<nat>, state: TaskState, attempts: nat, maxAttempts: nat,
    claimedBy: Option<nat>, lease: nat, createdAt: nat)
  {
    // A task is identified by the newest comment it addresses.
    function Key(): nat
      requires cids != []
    {
      cids[|cids| - 1]
    }
  }

  predicate NoDup(s: seq<nat>)
  {
    forall i, j :: 0 <= i < j < |s| ==> s[i] != s[j]
  }

  // In log order, oldest comment first.
  predicate Ascending(s: seq<nat>)
  {
    forall i, j :: 0 <= i < j < |s| ==> s[i] < s[j]
  }

  predicate Within(a: seq<nat>, b: seq<nat>)
  {
    forall c :: c in a ==> c in b
  }

  // First occurrences, in order (list(dict.fromkeys(s))).
  function Dedup(s: seq<nat>): (r: seq<nat>)
    ensures NoDup(r) && Within(r, s) && Within(s, r)
  {
    if s == [] then []
    else
      var init := Dedup(s[..|s| - 1]);
      var last := s[|s| - 1];
      if last in init then init else init + [last]
  }

  lemma {:induction false} DedupOfDistinct(s: seq<nat>)
    requires NoDup(s)
    ensures Dedup(s) == s
  {
    if s != [] {
      var init := s[..|s| - 1];
      DedupOfDistinct(init);
      assert s == init + [s[|s| - 1]];
    }
  }
}
