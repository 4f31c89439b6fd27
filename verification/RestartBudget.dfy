/** The sliding window of restarts a supervisor grants. */
module RestartBudget {

  datatype Limits = Limits(maxRestarts: int, window: real)

  /** The restarts still inside the window at time `now`. */
  function Prune(times: seq<real>, now: real, window: real): seq<real> {
    if times == [] then []
    else (if now - times[0] < window then [times[0]] else []) + Prune(times[1..], now, window)
  }

  predicate Grants(lim: Limits, times: seq<real>, now: real) {
    |Prune(times, now, lim.window)| < lim.maxRestarts
  }

  /** `_allow_restart`: the list it leaves behind. */
  function AfterCrash(lim: Limits, times: seq<real>, now: real): seq<real> {
    Prune(times, now, lim.window) + if Grants(lim, times, now) then [now] else []
  }

  // ---------- what pruning keeps ----------

  /** The positions of the times that are less than a window old. */
  ghost function Recent(times: seq<real>, now: real, window: real): set<nat> {
    set i: nat | i < |times| && now - times[i] < window
  }

  ghost predicate Subsequence(a: seq<real>, b: seq<real>) {
    a == [] || (b != [] && (if a[0] == b[0] then Subsequence(a[1..], b[1..]) else Subsequence(a, b[1..])))
  }

  /** Pruning keeps every time that is less than a window old, as often as it was there, no other, and the order. */
  lemma PruneKeeps(ts: seq<real>, now: real, window: real, t: real)
    ensures multiset(Prune(ts, now, window))[t] == if now - t < window then multiset(ts)[t] else 0
    ensures Subsequence(Prune(ts, now, window), ts)
  {
    PruneKeepsTimes(ts, now, window, t);
    PruneKeepsOrder(ts, now, window);
  }

  lemma {:induction false} PruneKeepsTimes(ts: seq<real>, now: real, window: real, t: real)
    ensures multiset(Prune(ts, now, window))[t] == if now - t < window then multiset(ts)[t] else 0
  {
    if ts != [] {
      PruneKeepsTimes(ts[1..], now, window, t);
      assert ts == [ts[0]] + ts[1..];
    }
  }

  lemma {:induction false} PruneKeepsOrder(ts: seq<real>, now: real, window: real)
    ensures Subsequence(Prune(ts, now, window), ts)
  {
    if ts != [] {
      PruneKeepsOrder(ts[1..], now, window);
      var p := Prune(ts[1..], now, window);
      if now - ts[0] < window {
        assert ([ts[0]] + p)[1..] == p;
      } else {
        assert [] + p == p;
        PruneKeepsTimes(ts[1..], now, window, ts[0]);
        assert p != [] ==> p[0] in multiset(p);
      }
    }
  }

  lemma {:induction false} PruneCounts(ts: seq<real>, now: real, window: real)
    ensures |Prune(ts, now, window)| == |Recent(ts, now, window)|
  {
    if ts != [] {
      var last := |ts| - 1;
      assert ts == ts[..last] + [ts[last]];
      PruneConcat(ts[..last], [ts[last]], now, window);
      PruneCounts(ts[..last], now, window);
      var front := Recent(ts[..last], now, window);
      assert Recent(ts, now, window) == if now - ts[last] < window then front + {last} else front;
    }
  }

  /** A restart is granted exactly while fewer than `maxRestarts` of the recorded ones are less than a window old. */
  lemma GrantsIffRoom(lim: Limits, times: seq<real>, now: real)
    ensures Grants(lim, times, now) <==> |Recent(times, now, lim.window)| < lim.maxRestarts
  {
    PruneCounts(times, now, lim.window);
  }

  // ---------- whole histories ----------

  /** The list kept and the full history of grants after crashes at the times `crashes`. */
  datatype Ledger = Ledger(kept: seq<real>, history: seq<real>)

  function Replay(lim: Limits, crashes: seq<real>): Ledger {
    if crashes == [] then Ledger([], [])
    else
      var before, now := Replay(lim, crashes[..|crashes| - 1]), crashes[|crashes| - 1];
      Ledger(AfterCrash(lim, before.kept, now),
             before.history + if Grants(lim, before.kept, now) then [now] else [])
  }

  ghost predicate NonDecreasing(ts: seq<real>) {
    forall i, j :: 0 <= i <= j < |ts| ==> ts[i] <= ts[j]
  }

  lemma {:induction false} PruneConcat(a: seq<real>, b: seq<real>, now: real, window: real)
    ensures Prune(a + b, now, window) == Prune(a, now, window) + Prune(b, now, window)
  {
    if a == [] {
      assert a + b == b;
    } else {
      assert (a + b)[1..] == a[1..] + b;
      PruneConcat(a[1..], b, now, window);
    }
  }

  /** Forgetting what left the window earlier does not change what is in it later. */
  lemma {:induction false} PruneTwice(ts: seq<real>, earlier: real, now: real, window: real)
    requires earlier <= now
    ensures Prune(Prune(ts, earlier, window), now, window) == Prune(ts, now, window)
  {
    if ts != [] {
      PruneTwice(ts[1..], earlier, now, window);
      var head := if earlier - ts[0] < window then [ts[0]] else [];
      PruneConcat(head, Prune(ts[1..], earlier, window), now, window);
      assert Prune([ts[0]], now, window) == if now - ts[0] < window then [ts[0]] else [];
    }
  }

  /** Pruning as it goes keeps exactly the full history filtered to the window, at every later moment. What that
      filter keeps is said by `PruneKeeps`. */
  lemma {:induction false} KeptIsHistoryInWindow(lim: Limits, crashes: seq<real>, now: real)
    requires NonDecreasing(crashes + [now])
    ensures var l := Replay(lim, crashes); Prune(l.kept, now, lim.window) == Prune(l.history, now, lim.window)
  {
    if crashes != [] {
      var front, last := crashes[..|crashes| - 1], crashes[|crashes| - 1];
      assert (crashes + [now])[|crashes| - 1] == last && (crashes + [now])[|crashes|] == now;
      assert forall i, j :: 0 <= i <= j < |front + [last]| ==>
               (front + [last])[i] == (crashes + [now])[i] && (front + [last])[j] == (crashes + [now])[j];
      KeptIsHistoryInWindow(lim, front, last);
      var before := Replay(lim, front);
      var grant := if Grants(lim, before.kept, last) then [last] else [];
      PruneConcat(Prune(before.kept, last, lim.window), grant, now, lim.window);
      PruneConcat(before.history, grant, now, lim.window);
      PruneTwice(before.history, last, now, lim.window);
    }
  }

  /** A crash is denied exactly when at least `maxRestarts` of all grants so far are less than a window old. */
  lemma DeniedIffWindowFull(lim: Limits, crashes: seq<real>, now: real)
    requires NonDecreasing(crashes + [now])
    ensures var l := Replay(lim, crashes);
            !Grants(lim, l.kept, now) <==> |Recent(l.history, now, lim.window)| >= lim.maxRestarts
  {
    KeptIsHistoryInWindow(lim, crashes, now);
    PruneCounts(Replay(lim, crashes).history, now, lim.window);
  }

  /** A crash that comes at least a window after every grant is granted, if the supervisor grants any at all. */
  lemma QuietWindowGrants(lim: Limits, crashes: seq<real>, now: real)
    requires NonDecreasing(crashes + [now]) && lim.maxRestarts > 0
    requires var h := Replay(lim, crashes).history; forall i :: 0 <= i < |h| ==> now - h[i] >= lim.window
    ensures Grants(lim, Replay(lim, crashes).kept, now)
  {
    DeniedIffWindowFull(lim, crashes, now);
    assert Recent(Replay(lim, crashes).history, now, lim.window) == {};
  }

  function CountIn(ts: seq<real>, lo: real, hi: real): nat {
    if ts == [] then 0 else (if lo <= ts[0] < hi then 1 else 0) + CountIn(ts[1..], lo, hi)
  }

  lemma {:induction false} CountInConcat(a: seq<real>, b: seq<real>, lo: real, hi: real)
    ensures CountIn(a + b, lo, hi) == CountIn(a, lo, hi) + CountIn(b, lo, hi)
  {
    if a == [] {
      assert a + b == b;
    } else {
      assert (a + b)[1..] == a[1..] + b;
      CountInConcat(a[1..], b, lo, hi);
    }
  }

  lemma {:induction false} CountInWithinPrune(ts: seq<real>, lo: real, now: real, window: real)
    requires now < lo + window
    ensures CountIn(ts, lo, lo + window) <= |Prune(ts, now, window)|
  {
    if ts != [] {
      CountInWithinPrune(ts[1..], lo, now, window);
    }
  }

  lemma NonDecreasingFront(crashes: seq<real>)
    requires NonDecreasing(crashes) && crashes != []
    ensures NonDecreasing(crashes[..|crashes| - 1])
  {
  }

  /** No interval of the window's length, wherever it lies, ever contains more than `maxRestarts` grants. */
  lemma {:induction false} AnyWindowHoldsAtMostMax(lim: Limits, crashes: seq<real>, lo: real)
    requires NonDecreasing(crashes)
    ensures CountIn(Replay(lim, crashes).history, lo, lo + lim.window) <= if lim.maxRestarts > 0 then lim.maxRestarts
            else 0
  {
    if crashes != [] {
      var front, now := crashes[..|crashes| - 1], crashes[|crashes| - 1];
      NonDecreasingFront(crashes);
      AnyWindowHoldsAtMostMax(lim, front, lo);
      var before := Replay(lim, front);
      var grant := if Grants(lim, before.kept, now) then [now] else [];
      CountInConcat(before.history, grant, lo, lo + lim.window);
      if grant != [] && lo <= now < lo + lim.window {
        assert front + [now] == crashes;
        KeptIsHistoryInWindow(lim, front, now);
        CountInWithinPrune(before.history, lo, now, lim.window);
      }
    }
  }

  // ---------- crashes inside one window ----------

  ghost predicate AllWithin(ts: seq<real>, now: real, window: real) {
    forall i :: 0 <= i < |ts| ==> now - ts[i] < window
  }

  /** As long as nothing has left the window, the budget is simply used up. */
  lemma {:induction false} NothingPruned(ts: seq<real>, now: real, window: real)
    requires AllWithin(ts, now, window)
    ensures Prune(ts, now, window) == ts
  {
    if ts != [] {
      assert forall i :: 0 <= i < |ts[1..]| ==> ts[1..][i] == ts[i + 1];
      NothingPruned(ts[1..], now, window);
    }
  }
}
