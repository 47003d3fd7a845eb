/**
 The sliding-window rate limiter. A queue per key holds only the acceptances that can still
 matter; it answers as if every past acceptance of the key were counted, and no closed window of
 the configured length ever holds more than `maxEvents` acceptances of one key.
 */
module RateLimiter {

  type UserId = nat

  datatype Call = Call(key: UserId, now: real)

  // ---- specification: count all past acceptances ---------------------------------------

  function CountRecent(s: seq<real>, now: real, window: real): nat
  {
    if s == [] then 0
    else CountRecent(s[..|s| - 1], now, window) + (if now - s[|s| - 1] <= window then 1 else 0)
  }

  // The acceptance times of a key after the calls.
  function Accepted(calls: seq<Call>, key: UserId, max: nat, window: real): seq<real>
  {
    if calls == [] then []
    else
      var before := Accepted(calls[..|calls| - 1], key, max, window);
      var c := calls[|calls| - 1];
      if c.key == key && CountRecent(before, c.now, window) < max then before + [c.now] else before
  }

  ghost predicate Monotone(calls: seq<Call>)
  {
    forall i, j :: 0 <= i <= j < |calls| ==> calls[i].now <= calls[j].now
  }

  ghost predicate Ascending(s: seq<real>)
  {
    forall i, j :: 0 <= i <= j < |s| ==> s[i] <= s[j]
  }

  // Any max + 1 consecutive acceptances span more than a window.
  ghost predicate Spread(s: seq<real>, max: nat, window: real)
  {
    forall i :: 0 <= i && i + max < |s| ==> s[i + max] - s[i] > window
  }

  lemma {:induction false} CountOfSplit(s: seq<real>, m: nat, now: real, window: real)
    requires m <= |s|
    requires forall i :: 0 <= i < m ==> now - s[i] > window
    requires forall i :: m <= i < |s| ==> now - s[i] <= window
    ensures CountRecent(s, now, window) == |s| - m
  {
    if s != [] {
      CountOfSplit(s[..|s| - 1], if m == |s| then m - 1 else m, now, window);
    }
  }

  // Among ascending times, the recent ones are a suffix.
  lemma {:induction false} RecentIsSuffix(s: seq<real>, now: real, window: real) returns (m: nat)
    requires Ascending(s)
    ensures m <= |s| && CountRecent(s, now, window) == |s| - m
    ensures forall i :: 0 <= i < m ==> now - s[i] > window
    ensures forall i :: m <= i < |s| ==> now - s[i] <= window
  {
    if s == [] {
      m := 0;
    } else {
      var n := |s| - 1;
      if now - s[n] > window {
        assert forall i :: 0 <= i < |s| ==> s[i] <= s[n];
        m := |s|;
      } else {
        m := RecentIsSuffix(s[..n], now, window);
      }
      CountOfSplit(s, m, now, window);
    }
  }

  lemma AcceptKeepsSpread(s: seq<real>, now: real, max: nat, window: real)
    requires Ascending(s) && Spread(s, max, window) && CountRecent(s, now, window) < max
    requires s != [] ==> s[|s| - 1] <= now
    ensures Ascending(s + [now]) && Spread(s + [now], max, window)
  {
    var m := RecentIsSuffix(s, now, window);
  }

  lemma {:induction false} AcceptedSpreads(calls: seq<Call>, key: UserId, max: nat, window: real)
    requires Monotone(calls)
    ensures Ascending(Accepted(calls, key, max, window)) && Spread(Accepted(calls, key, max, window), max, window)
    ensures calls == [] ==> Accepted(calls, key, max, window) == []
    ensures calls != [] && Accepted(calls, key, max, window) != [] ==>
      Accepted(calls, key, max, window)[|Accepted(calls, key, max, window)| - 1] <= calls[|calls| - 1].now
  {
    if calls != [] {
      var n := |calls| - 1;
      AcceptedSpreads(calls[..n], key, max, window);
      var before := Accepted(calls[..n], key, max, window);
      if calls[n].key == key && CountRecent(before, calls[n].now, window) < max {
        AcceptKeepsSpread(before, calls[n].now, max, window);
      }
    }
  }

  function CountIn(s: seq<real>, lo: real, hi: real): nat
  {
    if s == [] then 0 else CountIn(s[..|s| - 1], lo, hi) + (if lo <= s[|s| - 1] <= hi then 1 else 0)
  }

  // In ascending times, those inside an interval form a contiguous block.
  lemma {:induction false} CountInBlock(s: seq<real>, lo: real, hi: real) returns (a: nat)
    requires Ascending(s)
    ensures a + CountIn(s, lo, hi) <= |s|
    ensures forall i :: a <= i < a + CountIn(s, lo, hi) ==> lo <= s[i] <= hi
    ensures forall i :: 0 <= i < |s| && lo <= s[i] <= hi ==> a <= i < a + CountIn(s, lo, hi)
  {
    if s == [] {
      a := 0;
    } else {
      var n := |s| - 1;
      a := CountInBlock(s[..n], lo, hi);
      if lo <= s[n] <= hi {
        if CountIn(s[..n], lo, hi) == 0 {
          a := n;
        } else {
          assert a < n && lo <= s[..n][a];
          forall i | a <= i <= n
            ensures lo <= s[i] <= hi
          {
            assert s[a] <= s[i] <= s[n];
          }
          assert lo <= s[..n][n - 1] <= hi;
        }
      }
    }
  }

  lemma BlockFits(s: seq<real>, a: nat, n: nat, max: nat, lo: real, window: real)
    requires Spread(s, max, window) && a + n <= |s|
    requires forall i :: a <= i < a + n ==> lo <= s[i] <= lo + window
    ensures n <= max
  {
    if a + max < |s| {
      assert s[a + max] - s[a] > window;
    }
  }

  // For any calls under a monotone clock, every closed window holds at most `max` acceptances.
  lemma RateBound(calls: seq<Call>, key: UserId, max: nat, window: real, start: real)
    requires Monotone(calls)
    ensures CountIn(Accepted(calls, key, max, window), start, start + window) <= max
  {
    var s := Accepted(calls, key, max, window);
    AcceptedSpreads(calls, key, max, window);
    var a := CountInBlock(s, start, start + window);
    BlockFits(s, a, CountIn(s, start, start + window), max, start, window);
  }

  lemma {:induction false} RecentIsWindow(s: seq<real>, now: real, window: real)
    requires forall i :: 0 <= i < |s| ==> s[i] <= now
    ensures CountRecent(s, now, window) == CountIn(s, now - window, now)
  {
    if s != [] { RecentIsWindow(s[..|s| - 1], now, window); }
  }

  // A call is turned away exactly when the closed window that ends now already holds `max`.
  lemma AcceptedUnlessWindowFull(calls: seq<Call>, key: UserId, now: real, max: nat, window: real)
    requires Monotone(calls) && (calls != [] ==> calls[|calls| - 1].now <= now)
    ensures
      var before := Accepted(calls, key, max, window);
      Accepted(calls + [Call(key, now)], key, max, window) ==
        if CountIn(before, now - window, now) < max then before + [now] else before
  {
    var before := Accepted(calls, key, max, window);
    AcceptedSpreads(calls, key, max, window);
    forall i | 0 <= i < |before|
      ensures before[i] <= now
    {
      assert before[i] <= before[|before| - 1];
    }
    RecentIsWindow(before, now, window);
    AcceptedStep(calls, key, now, key, max, window);
  }

  // ---- the limiter ---------------------------------------------------------------------------

  // q is `all` without a prefix of times that are stale at `now`.
  ghost predicate IsFresh(q: seq<real>, all: seq<real>, now: real, window: real)
  {
    && |q| <= |all| && q == all[|all| - |q|..]
    && forall i :: 0 <= i < |all| - |q| ==> now - all[i] > window
  }

  lemma StaysFresh(q: seq<real>, all: seq<real>, now: real, later: real, window: real)
    requires IsFresh(q, all, now, window) && (all == [] || now <= later)
    ensures IsFresh(q, all, later, window)
  {
  }

  lemma AppendFresh(q: seq<real>, all: seq<real>, now: real, window: real)
    requires IsFresh(q, all, now, window)
    ensures IsFresh(q + [now], all + [now], now, window)
  {
  }

  lemma AcceptedStep(calls: seq<Call>, key: UserId, now: real, k: UserId, max: nat, window: real)
    ensures Accepted(calls + [Call(key, now)], k, max, window) ==
      if k == key && CountRecent(Accepted(calls, k, max, window), now, window) < max
      then Accepted(calls, k, max, window) + [now] else Accepted(calls, k, max, window)
    ensures calls == [] ==> Accepted(calls, k, max, window) == []
  {
    assert (calls + [Call(key, now)])[..|calls|] == calls;
  }

  function QueueOf(events: map<UserId, seq<real>>, key: UserId): seq<real>
  {
    if key in events then events[key] else []
  }

  ghost predicate KeyOk(events: map<UserId, seq<real>>, calls: seq<Call>, clock: real, max: nat, window: real, key: UserId)
  {
    IsFresh(QueueOf(events, key), Accepted(calls, key, max, window), clock, window)
  }

  // Every queue is the acceptances of its key less a stale prefix.
  ghost predicate Consistent(events: map<UserId, seq<real>>, calls: seq<Call>, clock: real, max: nat, window: real)
  {
    && Monotone(calls) && (calls != [] ==> calls[|calls| - 1].now == clock)
    && forall key :: KeyOk(events, calls, clock, max, window, key)
  }

  lemma MonotoneAppend(calls: seq<Call>, c: Call)
    requires Monotone(calls) && (calls != [] ==> calls[|calls| - 1].now <= c.now)
    ensures Monotone(calls + [c])
  {
    forall i, j | 0 <= i <= j < |calls| + 1
      ensures (calls + [c])[i].now <= (calls + [c])[j].now
    {
      if j == |calls| && i < j { assert calls[i].now <= calls[|calls| - 1].now; }
    }
  }

  function QueueAfter(q: seq<real>, c: Call, max: nat): seq<real>
  {
    if |q| < max then q + [c.now] else q
  }

  lemma OtherKeyStaysFresh(q: seq<real>, calls: seq<Call>, clock: real, max: nat, window: real, c: Call, k: UserId)
    requires IsFresh(q, Accepted(calls, k, max, window), clock, window) && k != c.key
    requires calls != [] ==> clock <= c.now
    ensures IsFresh(q, Accepted(calls + [c], k, max, window), c.now, window)
  {
    AcceptedStep(calls, c.key, c.now, k, max, window);
    StaysFresh(q, Accepted(calls, k, max, window), clock, c.now, window);
  }

  lemma CalledKeyStaysFresh(q: seq<real>, calls: seq<Call>, max: nat, window: real, c: Call)
    requires IsFresh(q, Accepted(calls, c.key, max, window), c.now, window)
    requires |q| == CountRecent(Accepted(calls, c.key, max, window), c.now, window)
    ensures IsFresh(QueueAfter(q, c, max), Accepted(calls + [c], c.key, max, window), c.now, window)
  {
    AcceptedStep(calls, c.key, c.now, c.key, max, window);
    AppendFresh(q, Accepted(calls, c.key, max, window), c.now, window);
  }

  lemma KeyStaysOk(events: map<UserId, seq<real>>, calls: seq<Call>, clock: real, max: nat, window: real,
                   c: Call, q: seq<real>, k: UserId)
    requires KeyOk(events, calls, clock, max, window, k) && (calls != [] ==> clock <= c.now)
    requires IsFresh(q, Accepted(calls, c.key, max, window), c.now, window)
    requires |q| == CountRecent(Accepted(calls, c.key, max, window), c.now, window)
    ensures KeyOk(events[c.key := QueueAfter(q, c, max)], calls + [c], c.now, max, window, k)
  {
    var after := events[c.key := QueueAfter(q, c, max)];
    assert QueueOf(after, k) == if k == c.key then QueueAfter(q, c, max) else QueueOf(events, k);
    if k == c.key {
      CalledKeyStaysFresh(q, calls, max, window, c);
    } else {
      OtherKeyStaysFresh(QueueOf(events, k), calls, clock, max, window, c, k);
    }
  }

  lemma AllowKeepsConsistent(events: map<UserId, seq<real>>, calls: seq<Call>, clock: real, max: nat, window: real,
                             c: Call, q: seq<real>)
    requires Consistent(events, calls, clock, max, window) && (calls != [] ==> clock <= c.now)
    requires IsFresh(q, Accepted(calls, c.key, max, window), c.now, window)
    requires |q| == CountRecent(Accepted(calls, c.key, max, window), c.now, window)
    ensures Consistent(events[c.key := QueueAfter(q, c, max)], calls + [c], c.now, max, window)
  {
    MonotoneAppend(calls, c);
    var after := events[c.key := QueueAfter(q, c, max)];
    forall k
      ensures KeyOk(after, calls + [c], c.now, max, window, k)
    {
      KeyStaysOk(events, calls, clock, max, window, c, q, k);
    }
  }

  class SlidingWindowRateLimiter {
    const maxEvents: nat
    const windowS: real
    var events: map<UserId, seq<real>>
    ghost var calls: seq<Call>
    ghost var clock: real

    ghost predicate Valid()
      reads this
    {
      Consistent(events, calls, clock, maxEvents, windowS)
    }

    constructor (maxEvents: nat, windowS: real)
      ensures Valid() && calls == [] && this.maxEvents == maxEvents && this.windowS == windowS
    {
      this.maxEvents, this.windowS := maxEvents, windowS;
      events, calls := map[], [];
    }

    // Pop the stale times off the head.
    method Prune(key: UserId, now: real) returns (q: seq<real>)
      requires Valid() && (calls != [] ==> clock <= now)
      ensures IsFresh(q, Accepted(calls, key, maxEvents, windowS), now, windowS)
      ensures |q| == CountRecent(Accepted(calls, key, maxEvents, windowS), now, windowS)
    {
      ghost var all := Accepted(calls, key, maxEvents, windowS);
      AcceptedSpreads(calls, key, maxEvents, windowS);
      q := QueueOf(events, key);
      assert KeyOk(events, calls, clock, maxEvents, windowS, key);
      StaysFresh(q, all, clock, now, windowS);
      while q != [] && now - q[0] > windowS
        invariant IsFresh(q, all, now, windowS)
        decreases |q|
      {
        q := q[1..];
      }
      RestIsRecent(q, all, now, windowS);
    }

    method Allow(key: UserId, now: real) returns (ok: bool)
      requires Valid() && (calls != [] ==> clock <= now)
      modifies this
      ensures Valid() && calls == old(calls) + [Call(key, now)] && clock == now
      ensures ok <==> CountRecent(Accepted(old(calls), key, maxEvents, windowS), now, windowS) < maxEvents
      ensures Accepted(calls, key, maxEvents, windowS) ==
        if ok then Accepted(old(calls), key, maxEvents, windowS) + [now] else Accepted(old(calls), key, maxEvents, windowS)
    {
      var q := Prune(key, now);
      AllowKeepsConsistent(events, calls, clock, maxEvents, windowS, Call(key, now), q);
      AcceptedStep(calls, key, now, key, maxEvents, windowS);
      calls := calls + [Call(key, now)];
      clock := now;
      if |q| >= maxEvents {
        events := events[key := q];
        return false;
      }
      events := events[key := q + [now]];
      return true;
    }
  }

  // Once the head is not stale, the queue is exactly the recent acceptances.
  lemma RestIsRecent(q: seq<real>, all: seq<real>, now: real, window: real)
    requires IsFresh(q, all, now, window) && Ascending(all) && (q == [] || now - q[0] <= window)
    ensures CountRecent(all, now, window) == |q|
  {
    var m := |all| - |q|;
    forall i | m <= i < |all|
      ensures now - all[i] <= window
    {
      assert all[m] <= all[i];
    }
    CountOfSplit(all, m, now, window);
  }
}
