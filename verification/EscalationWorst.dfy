/** The escalation bound is exact: for every tree there is a run of crashes that reaches it. */
module EscalationWorst {
  import opened RestartBudget
  import opened Supervision
  import opened Escalation

  // ---------- putting runs together ----------

  lemma {:induction false} StormConcat(t: Tree, l: Live, a: seq<Hit>, b: seq<Hit>)
    requires Storm(t, l, a) && Storm(t, After(t, l, a), b)
    ensures Storm(t, l, a + b) && After(t, l, a + b) == After(t, After(t, l, a), b)
    decreases |a|
  {
    if a == [] {
      assert a + b == b;
    } else {
      assert (a + b)[1..] == a[1..] + b;
      StormConcat(t, Crash(t, l, a[0].path, a[0].now).live, a[1..], b);
    }
  }

  /** Before its last crash a tree has not given up. */
  lemma {:induction false} FrontIsQuiet(t: Tree, l: Live, hits: seq<Hit>)
    requires Storm(t, l, hits) && hits != []
    ensures Storm(t, l, hits[..|hits| - 1]) && !After(t, l, hits[..|hits| - 1]).Gone?
    decreases |hits|
  {
    if |hits| > 1 {
      FrontIsQuiet(t, Crash(t, l, hits[0].path, hits[0].now).live, hits[1..]);
      assert hits[..|hits| - 1][1..] == hits[1..][..|hits[1..]| - 1];
    }
  }

  /** The same crashes seen from the supervisor of child `i`. */
  function Lift(i: nat, hits: seq<Hit>): (r: seq<Hit>)
    ensures |r| == |hits| && forall k :: 0 <= k < |r| ==> r[k] == Hit([i] + hits[k].path, hits[k].now)
  {
    seq(|hits|, k requires 0 <= k < |hits| => Hit([i] + hits[k].path, hits[k].now))
  }

  ghost predicate AllAt(hits: seq<Hit>, now: real) {
    forall k :: 0 <= k < |hits| ==> hits[k].now == now
  }

  lemma LiftStep(t: Tree, l: Live, i: nat, hit: Hit)
    requires t.Node? && l.Boss? && i < |t.kids| && i < |l.kids| && CanCrash(t.kids[i], l.kids[i], hit.path)
    ensures CanCrash(t, l, [i] + hit.path)
    ensures var o := Crash(t.kids[i], l.kids[i], hit.path, hit.now);
            Crash(t, l, [i] + hit.path, hit.now)
            == if o.up then KidCrashed(t, l, i, hit.now) else Outcome(l.(kids := l.kids[i := o.live]), false)
  {
    var p := [i] + hit.path;
    assert p[0] == i && p[1..] == hit.path;
  }

  lemma {:induction false} LiftQuiet(t: Tree, l: Live, i: nat, hits: seq<Hit>)
    requires t.Node? && l.Boss? && i < |t.kids| && i < |l.kids|
    requires Storm(t.kids[i], l.kids[i], hits) && !After(t.kids[i], l.kids[i], hits).Gone?
    ensures Storm(t, l, Lift(i, hits))
    ensures After(t, l, Lift(i, hits)) == l.(kids := l.kids[i := After(t.kids[i], l.kids[i], hits)])
    decreases |hits|
  {
    if hits == [] {
      assert l.kids[i := l.kids[i]] == l.kids;
    } else {
      LiftStep(t, l, i, hits[0]);
      var o := Crash(t.kids[i], l.kids[i], hits[0].path, hits[0].now);
      assert hits[1..] == [] || !o.live.Gone?;
      var l1 := l.(kids := l.kids[i := o.live]);
      LiftQuiet(t, l1, i, hits[1..]);
      assert Lift(i, hits)[1..] == Lift(i, hits[1..]);
      var last := After(t.kids[i], l.kids[i], hits);
      assert l1.kids[i := last] == l.kids[i := last];
    }
  }

  lemma KidCrashIgnoresKid(t: Tree, l: Live, i: nat, x: Live, now: real)
    requires t.Node? && l.Boss? && i < |t.kids| && i < |l.kids|
    ensures KidCrashed(t, l.(kids := l.kids[i := x]), i, now) == KidCrashed(t, l, i, now)
  {
    var ls := l.kids[i := x];
    assert ls[i := Gone] == l.kids[i := Gone];
    assert RestartKids(t.strategy, t.kids, ls, i) == RestartKids(t.strategy, t.kids, l.kids, i);
    assert forall k :: 0 <= k < |ls| && k != i ==> ls[k] == l.kids[k];
  }

  /** A whole life of child `i` ends in its supervisor handling one crash of it. */
  lemma {:induction false} LiftLife(t: Tree, l: Live, i: nat, hits: seq<Hit>, now: real)
    requires t.Node? && l.Boss? && i < |t.kids| && i < |l.kids| && !l.kids[i].Gone? && AllAt(hits, now)
    requires Storm(t.kids[i], l.kids[i], hits) && After(t.kids[i], l.kids[i], hits).Gone?
    ensures Storm(t, l, Lift(i, hits)) && After(t, l, Lift(i, hits)) == KidCrashed(t, l, i, now).live
    decreases |hits|
  {
    LiftStep(t, l, i, hits[0]);
    var o := Crash(t.kids[i], l.kids[i], hits[0].path, hits[0].now);
    assert Lift(i, hits)[1..] == Lift(i, hits[1..]);
    if o.up {
      assert hits[1..] == [];
    } else {
      LiftLife(t, l.(kids := l.kids[i := o.live]), i, hits[1..], now);
      KidCrashIgnoresKid(t, l, i, o.live, now);
    }
  }

  // ---------- the worst life of a tree ----------

  /** A run of crashes, all at time `now`, that takes a fresh tree all the way to its bound. */
  ghost predicate WorstLife(t: Tree, hits: seq<Hit>, now: real) {
    Storm(t, Fresh(t), hits) && After(t, Fresh(t), hits).Gone? && |hits| == Bound(t) && AllAt(hits, now)
  }

  ghost predicate WorstLives(ts: seq<Tree>, lives: seq<seq<Hit>>, now: real) {
    |lives| == |ts| && forall i :: 0 <= i < |ts| ==> WorstLife(ts[i], lives[i], now)
  }

  /** Every supervisor in the tree has children and a window that is open at all. */
  ghost predicate WellBuilt(t: Tree) {
    t.Node? ==> t.kids != [] && t.limits.window > 0.0 && forall i :: 0 <= i < |t.kids| ==> WellBuilt(t.kids[i])
  }

  // ---------- group strategies ----------

  /** Children `k` and later each spend all but their last crash; nobody fails yet. */
  lemma {:induction false} WearOut(t: Tree, times: seq<real>, k: nat, lives: seq<seq<Hit>>, now: real)
    returns (hits: seq<Hit>, l: Live)
    requires t.Node? && k <= |t.kids| && WorstLives(t.kids, lives, now)
    ensures var l0 := Boss(times, FreshAll(t.kids)); Storm(t, l0, hits) && After(t, l0, hits) == l && AllAt(hits, now)
    ensures l.Boss? && l.times == times && |l.kids| == |t.kids|
    ensures forall i :: 0 <= i < k ==> l.kids[i] == Fresh(t.kids[i])
    ensures |hits| == SumBound(t.kids[k..]) - (|t.kids| - k)
    decreases |t.kids| - k
  {
    if k == |t.kids| {
      hits, l := [], Boss(times, FreshAll(t.kids));
    } else {
      var hits1, l1 := WearOut(t, times, k + 1, lives, now);
      var life := lives[k];
      assert WorstLife(t.kids[k], life, now);
      FrontIsQuiet(t.kids[k], Fresh(t.kids[k]), life);
      var front := life[..|life| - 1];
      LiftQuiet(t, l1, k, front);
      StormConcat(t, Boss(times, FreshAll(t.kids)), hits1, Lift(k, front));
      hits := hits1 + Lift(k, front);
      l := After(t, l1, Lift(k, front));
      assert t.kids[k..][0] == t.kids[k] && t.kids[k..][1..] == t.kids[k + 1..];
    }
  }

  /** One round of a group: everybody worn out, then the first child fails. */
  lemma GroupRound(t: Tree, times: seq<real>, lives: seq<seq<Hit>>, now: real) returns (hits: seq<Hit>)
    requires t.Node? && t.kids != [] && !t.strategy.OneForOne? && WorstLives(t.kids, lives, now)
    requires t.limits.window > 0.0 && forall i :: 0 <= i < |times| ==> times[i] == now
    ensures var l0 := Boss(times, FreshAll(t.kids));
            && Storm(t, l0, hits) && AllAt(hits, now)
            && |hits| == Refill(t.strategy, t.kids)
            && After(t, l0, hits) == if |times| < Budget(t.limits) then Boss(times + [now], FreshAll(t.kids)) else Gone
  {
    var l0 := Boss(times, FreshAll(t.kids));
    var worn, l := WearOut(t, times, 1, lives, now);
    assert WorstLife(t.kids[0], lives[0], now);
    FreshIsSound(t.kids[0], now);
    LiftLife(t, l, 0, lives[0], now);
    StormConcat(t, l0, worn, Lift(0, lives[0]));
    hits := worn + Lift(0, lives[0]);
    WindowedGrant(t.limits, times, now, now);
    assert RestartKids(t.strategy, t.kids, l.kids, 0) == FreshAll(t.kids);
  }

  lemma SameProduct(a: nat, a': nat, b: nat, b': nat)
    requires a == a' && b == b'
    ensures a * b == a' * b'
  {
  }

  lemma MulStep(a: nat, b: nat)
    ensures (a + 1) * b == a * b + b
  {
  }

  lemma {:induction false} GroupLife(t: Tree, times: seq<real>, lives: seq<seq<Hit>>, now: real)
      returns (hits: seq<Hit>)
    requires t.Node? && t.kids != [] && !t.strategy.OneForOne? && WorstLives(t.kids, lives, now)
    requires t.limits.window > 0.0 && |times| <= Budget(t.limits) && forall i :: 0 <= i < |times| ==> times[i] == now
    ensures var l0 := Boss(times, FreshAll(t.kids)); Storm(t, l0, hits) && After(t, l0, hits).Gone? && AllAt(hits, now)
    ensures |hits| == (Budget(t.limits) - |times| + 1) * Refill(t.strategy, t.kids)
    decreases Budget(t.limits) - |times|
  {
    hits := GroupRound(t, times, lives, now);
    MulStep(Budget(t.limits) - |times|, Refill(t.strategy, t.kids));
    if |times| < Budget(t.limits) {
      var more := GroupLife(t, times + [now], lives, now);
      StormConcat(t, Boss(times, FreshAll(t.kids)), hits, more);
      hits := hits + more;
    }
  }

  // ---------- one for one ----------

  lemma {:induction false} LargestChild(ts: seq<Tree>) returns (j: nat)
    requires ts != []
    ensures j < |ts| && Bound(ts[j]) == MaxBound(ts)
  {
    if |ts| == 1 || Bound(ts[0]) >= MaxBound(ts[1..]) {
      j := 0;
    } else {
      j := LargestChild(ts[1..]);
      j := j + 1;
    }
  }

  /** Spends the whole budget on child `j`, one life per restart. */
  lemma {:induction false} BurnBudget(t: Tree, times: seq<real>, j: nat, life: seq<Hit>, now: real)
    returns (hits: seq<Hit>, times': seq<real>)
    requires t.Node? && t.strategy.OneForOne? && j < |t.kids| && WorstLife(t.kids[j], life, now)
    requires t.limits.window > 0.0 && |times| <= Budget(t.limits) && forall i :: 0 <= i < |times| ==> times[i] == now
    ensures var l0 := Boss(times, FreshAll(t.kids));
            Storm(t, l0, hits) && After(t, l0, hits) == Boss(times', FreshAll(t.kids)) && AllAt(hits, now)
    ensures |times'| == Budget(t.limits) && forall i :: 0 <= i < |times'| ==> times'[i] == now
    ensures |hits| == (Budget(t.limits) - |times|) * Bound(t.kids[j])
    decreases Budget(t.limits) - |times|
  {
    if |times| == Budget(t.limits) {
      hits, times' := [], times;
    } else {
      var l0 := Boss(times, FreshAll(t.kids));
      FreshIsSound(t.kids[j], now);
      LiftLife(t, l0, j, life, now);
      WindowedGrant(t.limits, times, now, now);
      assert RestartKids(t.strategy, t.kids, l0.kids, j) == FreshAll(t.kids);
      var more;
      more, times' := BurnBudget(t, times + [now], j, life, now);
      StormConcat(t, l0, Lift(j, life), more);
      hits := Lift(j, life) + more;
      MulStep(Budget(t.limits) - |times| - 1, Bound(t.kids[j]));
    }
  }

  lemma {:induction false} SumBoundSnoc(ts: seq<Tree>, k: nat)
    requires k < |ts|
    ensures SumBound(ts[..k + 1]) == SumBound(ts[..k]) + Bound(ts[k])
    decreases |ts|
  {
    if k == 0 {
      assert ts[..1][1..] == [] && ts[..0] == [];
    } else {
      assert ts[..k + 1][1..] == ts[1..][..k] && ts[..k][1..] == ts[1..][..k - 1];
      SumBoundSnoc(ts[1..], k - 1);
    }
  }

  lemma DiscardOne(t: Tree, l: Live, i: nat, alive: nat, life: seq<Hit>, now: real)
    requires t.Node? && t.strategy.OneForOne? && l.Boss? && i < |t.kids| == |l.kids| && WorstLife(t.kids[i], life, now)
    requires l.kids[i] == Fresh(t.kids[i]) && alive < |l.kids| && alive != i && !l.kids[alive].Gone?
    requires t.limits.window > 0.0 && |l.times| == Budget(t.limits)
    requires forall k :: 0 <= k < |l.times| ==> l.times[k] == now
    ensures Storm(t, l, Lift(i, life)) && After(t, l, Lift(i, life)) == Boss(l.times, l.kids[i := Gone])
  {
    FreshIsSound(t.kids[i], now);
    LiftLife(t, l, i, life, now);
    WindowedGrant(t.limits, l.times, now, now);
  }

  /** With no budget left the first `k` children live once more and are discarded. */
  lemma {:induction false} DiscardChildren(t: Tree, times: seq<real>, k: nat, lives: seq<seq<Hit>>, now: real)
    returns (hits: seq<Hit>, l: Live)
    requires t.Node? && t.strategy.OneForOne? && k < |t.kids| && WorstLives(t.kids, lives, now)
    requires t.limits.window > 0.0 && |times| == Budget(t.limits) && forall i :: 0 <= i < |times| ==> times[i] == now
    ensures var l0 := Boss(times, FreshAll(t.kids)); Storm(t, l0, hits) && After(t, l0, hits) == l && AllAt(hits, now)
    ensures l.Boss? && l.times == times && |l.kids| == |t.kids|
    ensures forall i :: 0 <= i < |t.kids| ==> l.kids[i] == if i < k then Gone else Fresh(t.kids[i])
    ensures |hits| == SumBound(t.kids[..k])
    decreases k
  {
    if k == 0 {
      hits, l := [], Boss(times, FreshAll(t.kids));
    } else {
      var hits1, l1 := DiscardChildren(t, times, k - 1, lives, now);
      assert WorstLife(t.kids[k - 1], lives[k - 1], now);
      FreshIsSound(t.kids[k], now);
      DiscardOne(t, l1, k - 1, k, lives[k - 1], now);
      StormConcat(t, Boss(times, FreshAll(t.kids)), hits1, Lift(k - 1, lives[k - 1]));
      hits := hits1 + Lift(k - 1, lives[k - 1]);
      l := Boss(times, l1.kids[k - 1 := Gone]);
      SumBoundSnoc(t.kids, k - 1);
    }
  }

  lemma LastChildEndsIt(t: Tree, l: Live, life: seq<Hit>, now: real)
    requires t.Node? && t.strategy.OneForOne? && t.kids != [] && l.Boss? && |l.kids| == |t.kids|
    requires var n := |t.kids| - 1;
             WorstLife(t.kids[n], life, now) && forall i :: 0 <= i <= n ==>
                 l.kids[i] == if i < n then Gone else Fresh(t.kids[n])
    requires t.limits.window > 0.0 && |l.times| == Budget(t.limits)
    requires forall i :: 0 <= i < |l.times| ==> l.times[i] == now
    ensures Storm(t, l, Lift(|t.kids| - 1, life)) && After(t, l, Lift(|t.kids| - 1, life)).Gone?
  {
    var n := |t.kids| - 1;
    FreshIsSound(t.kids[n], now);
    LiftLife(t, l, n, life, now);
    WindowedGrant(t.limits, l.times, now, now);
  }

  /** With no budget left every child lives once more, and the last one takes the supervisor along. */
  lemma {:induction false} DiscardAll(t: Tree, times: seq<real>, lives: seq<seq<Hit>>, now: real)
      returns (hits: seq<Hit>)
    requires t.Node? && t.kids != [] && t.strategy.OneForOne? && WorstLives(t.kids, lives, now)
    requires t.limits.window > 0.0 && |times| == Budget(t.limits) && forall i :: 0 <= i < |times| ==> times[i] == now
    ensures var l0 := Boss(times, FreshAll(t.kids)); Storm(t, l0, hits) && After(t, l0, hits).Gone? && AllAt(hits, now)
    ensures |hits| == SumBound(t.kids)
  {
    var n := |t.kids| - 1;
    assert WorstLife(t.kids[n], lives[n], now);
    var dropped, l := DiscardChildren(t, times, n, lives, now);
    LastChildEndsIt(t, l, lives[n], now);
    StormConcat(t, Boss(times, FreshAll(t.kids)), dropped, Lift(n, lives[n]));
    hits := dropped + Lift(n, lives[n]);
    SumBoundSnoc(t.kids, n);
    assert t.kids[..n + 1] == t.kids;
  }

  lemma {:induction false} LoneLife(t: Tree, lives: seq<seq<Hit>>, now: real) returns (hits: seq<Hit>)
    requires t.Node? && t.kids != [] && t.strategy.OneForOne? && WorstLives(t.kids, lives, now) && t.limits.window > 0.0
    ensures Storm(t, Fresh(t), hits) && After(t, Fresh(t), hits).Gone? && AllAt(hits, now)
    ensures |hits| == Budget(t.limits) * MaxBound(t.kids) + SumBound(t.kids)
  {
    var j := LargestChild(t.kids);
    assert WorstLife(t.kids[j], lives[j], now);
    var none: seq<real> := [];
    var l0 := Fresh(t);
    assert l0 == Boss(none, FreshAll(t.kids));
    var burnt, times := BurnBudget(t, none, j, lives[j], now);
    SameProduct(Budget(t.limits) - |none|, Budget(t.limits), Bound(t.kids[j]), MaxBound(t.kids));
    var rest := DiscardAll(t, times, lives, now);
    StormConcat(t, l0, burnt, rest);
    hits := burnt + rest;
  }

  // ---------- every tree ----------

  lemma {:induction false} WorstCase(t: Tree, now: real) returns (hits: seq<Hit>)
    requires WellBuilt(t)
    ensures WorstLife(t, hits, now)
    decreases t, 1
  {
    if t.Actor? {
      hits := [Hit([], now)];
    } else {
      var lives := WorstCases(t.kids, now);
      if t.strategy.OneForOne? {
        hits := LoneLife(t, lives, now);
      } else {
        hits := GroupLife(t, [], lives, now);
        MulStep(Budget(t.limits), Refill(t.strategy, t.kids));
      }
    }
  }

  lemma {:induction false} WorstCases(ts: seq<Tree>, now: real) returns (lives: seq<seq<Hit>>)
    requires forall i :: 0 <= i < |ts| ==> WellBuilt(ts[i])
    ensures WorstLives(ts, lives, now)
    decreases ts, 0
  {
    if ts == [] {
      lives := [];
    } else {
      assert WellBuilt(ts[0]);
      var first := WorstCase(ts[0], now);
      assert forall i :: 0 <= i < |ts[1..]| ==> ts[1..][i] == ts[i + 1];
      var more := WorstCases(ts[1..], now);
      lives := [first] + more;
      assert forall i :: 1 <= i < |ts| ==> ts[i] == ts[1..][i - 1] && lives[i] == more[i - 1];
    }
  }

  // ---------- chains ----------

  /** A chain of single-child supervisors over one actor, outermost first. */
  function Chain(links: seq<(Strategy, Limits)>): Tree {
    if links == [] then Actor else Node(links[0].0, links[0].1, [Chain(links[1..])])
  }

  function Product(links: seq<(Strategy, Limits)>): nat {
    if links == [] then 1 else (Budget(links[0].1) + 1) * Product(links[1..])
  }

  /** On a chain the bound is the product of `max_restarts + 1`, under whatever strategies. */
  lemma {:induction false} ChainBound(links: seq<(Strategy, Limits)>)
    ensures Bound(Chain(links)) == Product(links)
  {
    if links != [] {
      var kid := Chain(links[1..]);
      ChainBound(links[1..]);
      assert SumBound([kid]) == Bound(kid) && MaxBound([kid]) == Bound(kid);
      assert Refill(links[0].0, [kid]) == Bound(kid) && Slack(links[0].0, [kid]) == 0;
      MulStep(Budget(links[0].1), Bound(kid));
    }
  }
}
