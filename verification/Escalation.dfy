/** Supervision trees: how many crashes a tree absorbs before its root gives up. */
module Escalation {
  import opened RestartBudget
  import opened Supervision

  /** What `build` describes: actors, and supervisors over what they spawn. */
  datatype Tree = Actor | Node(strategy: Strategy, limits: Limits, kids: seq<Tree>)

  /** A running tree; a discarded child leaves a `Gone` slot. */
  datatype Live = Gone | Worker | Boss(times: seq<real>, kids: seq<Live>)

  /** A freshly built tree: every supervisor in it starts with its whole budget. */
  function Fresh(t: Tree): Live {
    match t
    case Actor => Worker
    case Node(_, _, kids) => Boss([], FreshAll(kids))
  }

  function FreshAll(ts: seq<Tree>): (ls: seq<Live>)
    ensures |ls| == |ts| && forall i :: 0 <= i < |ts| ==> ls[i] == Fresh(ts[i])
  {
    if ts == [] then [] else [Fresh(ts[0])] + FreshAll(ts[1..])
  }

  // ---------- one crash ----------

  /** The way from the root down to an actor. */
  type Path = seq<nat>

  predicate CanCrash(t: Tree, l: Live, p: Path)
    decreases |p|
  {
    match t
    case Actor => l.Worker? && p == []
    case Node(_, _, kids) =>
      l.Boss? && p != [] && p[0] < |kids| && p[0] < |l.kids| && CanCrash(kids[p[0]], l.kids[p[0]], p[1..])
  }

  /** The tree afterwards, and whether it crashed as a whole towards its own supervisor. */
  datatype Outcome = Outcome(live: Live, up: bool)

  function Crash(t: Tree, l: Live, p: Path, now: real): (o: Outcome)
    requires CanCrash(t, l, p)
    ensures o.up <==> o.live.Gone?
    decreases |p|
  {
    match t
    case Actor => Outcome(Gone, true)
    case Node(_, _, kids) =>
      var o := Crash(kids[p[0]], l.kids[p[0]], p[1..], now);
      if o.up then KidCrashed(t, l, p[0], now) else Outcome(l.(kids := l.kids[p[0] := o.live]), false)
  }

  /** A supervisor handling the crash of its child `i`: the decision of `Supervision.HandleCrash`. */
  function KidCrashed(t: Tree, l: Live, i: nat, now: real): (o: Outcome)
    requires t.Node? && l.Boss? && i < |l.kids|
    ensures o.up <==> o.live.Gone?
  {
    var times := AfterCrash(t.limits, l.times, now);
    if Grants(t.limits, l.times, now) then Outcome(Boss(times, RestartKids(t.strategy, t.kids, l.kids, i)), false)
    else if t.strategy.OneForOne? && exists k :: 0 <= k < |l.kids| && k != i && !l.kids[k].Gone? then
      Outcome(Boss(times, l.kids[i := Gone]), false)
    else Outcome(Gone, true)
  }

  function RestartKids(strategy: Strategy, ts: seq<Tree>, ls: seq<Live>, i: nat): (r: seq<Live>)
    ensures |r| == |ls|
    ensures forall k :: 0 <= k < |r| ==>
              r[k] == if k < |ts| && InRestartSet(strategy, i, k) then Fresh(ts[k]) else ls[k]
  {
    seq(|ls|, k requires 0 <= k < |ls| => if k < |ts| && InRestartSet(strategy, i, k) then Fresh(ts[k]) else ls[k])
  }

  // ---------- the bound ----------

  function Budget(limits: Limits): nat {
    if limits.maxRestarts > 0 then limits.maxRestarts else 0
  }

  /** The largest number of actor crashes the tree can go through until it gives up itself: one full life
      of every child, and one `Refill` more for every restart granted. */
  function Bound(t: Tree): (b: nat)
    ensures b >= 1
    decreases t, 0
  {
    match t
    case Actor => 1
    case Node(strategy, limits, kids) =>
      if kids == [] then 1
      else Budget(limits) * Refill(strategy, kids) + SumBound(kids) - Slack(strategy, kids)
  }

  /** What one restart can bring back: the largest child, or everything the group restart resets. */
  function Refill(strategy: Strategy, kids: seq<Tree>): (b: nat)
    decreases kids, 1
  {
    if strategy.OneForOne? then MaxBound(kids) else SumBound(kids) - Slack(strategy, kids)
  }

  /** Under a group strategy the first child to fail ends the round for the others one crash early. */
  function Slack(strategy: Strategy, kids: seq<Tree>): (b: nat)
    ensures kids != [] ==> b < |kids|
  {
    if strategy.OneForOne? || kids == [] then 0 else |kids| - 1
  }

  function SumBound(ts: seq<Tree>): (b: nat)
    ensures b >= |ts|
    decreases ts, 0
  {
    if ts == [] then 0 else Bound(ts[0]) + SumBound(ts[1..])
  }

  function MaxBound(ts: seq<Tree>): (b: nat)
    ensures forall i :: 0 <= i < |ts| ==> Bound(ts[i]) <= b
    decreases ts, 0
  {
    if ts == [] then 0
    else
      var m := MaxBound(ts[1..]);
      if Bound(ts[0]) >= m then Bound(ts[0]) else m
  }

  // ---------- what is left of it in a running tree ----------

  function Energy(t: Tree, l: Live): int
    decreases t
  {
    match t
    case Actor => if l.Worker? then 1 else 0
    case Node(strategy, limits, kids) =>
      if !l.Boss? then 0
      else if kids == [] then 1
      else (Budget(limits) - |l.times|) * Refill(strategy, kids) + EnergySum(kids, l.kids) - Slack(strategy, kids)
  }

  function EnergySum(ts: seq<Tree>, ls: seq<Live>): int
    decreases ts
  {
    if ts == [] || ls == [] then 0 else Energy(ts[0], ls[0]) + EnergySum(ts[1..], ls[1..])
  }

  /** The shape of every tree that grows out of a fresh one, crashes being no earlier than `start`. */
  ghost predicate Sound(t: Tree, l: Live, start: real)
    decreases t
  {
    match t
    case Actor => !l.Boss?
    case Node(strategy, limits, kids) =>
      match l
      case Gone => true
      case Worker => false
      case Boss(times, ls) =>
        && |ls| == |kids| && |times| <= Budget(limits)
        && (forall i :: 0 <= i < |times| ==> start <= times[i])
        && (forall i :: 0 <= i < |kids| ==> Sound(kids[i], ls[i], start))
        && (if strategy.OneForOne? then kids == [] || exists i :: 0 <= i < |ls| && !ls[i].Gone?
            else forall i :: 0 <= i < |ls| ==> !ls[i].Gone?)
  }

  /** `now` is within the restart window of every supervisor, counted from `start`. */
  ghost predicate Windowed(t: Tree, start: real, now: real) {
    t.Node? ==> now - start < t.limits.window && forall i :: 0 <= i < |t.kids| ==> Windowed(t.kids[i], start, now)
  }

  lemma {:induction false} FreshIsSound(t: Tree, start: real)
    ensures Sound(t, Fresh(t), start) && !Fresh(t).Gone?
  {
    if t.Node? {
      forall i | 0 <= i < |t.kids|
        ensures Sound(t.kids[i], Fresh(t.kids[i]), start) && !Fresh(t.kids[i]).Gone?
      {
        FreshIsSound(t.kids[i], start);
      }
      assert t.kids != [] ==> !FreshAll(t.kids)[0].Gone?;
    }
  }

  lemma {:induction false} FreshEnergy(t: Tree)
    ensures Energy(t, Fresh(t)) == Bound(t)
    decreases t, 1
  {
    if t.Node? {
      FreshEnergySum(t.kids);
    }
  }

  lemma {:induction false} FreshEnergySum(ts: seq<Tree>)
    ensures EnergySum(ts, FreshAll(ts)) == SumBound(ts)
    decreases ts, 0
  {
    if ts != [] {
      FreshEnergy(ts[0]);
      FreshEnergySum(ts[1..]);
      assert FreshAll(ts)[1..] == FreshAll(ts[1..]);
    }
  }

  lemma {:induction false} EnergySumUpdate(ts: seq<Tree>, ls: seq<Live>, i: nat, l: Live)
    requires |ts| == |ls| && i < |ts|
    ensures EnergySum(ts, ls[i := l]) == EnergySum(ts, ls) - Energy(ts[i], ls[i]) + Energy(ts[i], l)
    decreases |ts|
  {
    if i == 0 {
      assert ls[i := l][1..] == ls[1..];
    } else {
      assert ls[i := l][1..] == ls[1..][i - 1 := l];
      EnergySumUpdate(ts[1..], ls[1..], i - 1, l);
    }
  }

  /** With the restart times as they are, a supervisor's energy changes by what its child's does. */
  lemma EnergyUpdate(t: Tree, l: Live, i: nat, kid: Live)
    requires t.Node? && l.Boss? && i < |l.kids| == |t.kids|
    ensures Energy(t, l.(kids := l.kids[i := kid]))
            == Energy(t, l) - Energy(t.kids[i], l.kids[i]) + Energy(t.kids[i], kid)
  {
    EnergySumUpdate(t.kids, l.kids, i, kid);
  }

  /** What is not gone has at least one crash left in it, what is gone has none. */
  lemma {:induction false} EnergyPositive(t: Tree, l: Live, start: real)
    requires Sound(t, l, start)
    ensures if l.Gone? then Energy(t, l) == 0 else Energy(t, l) >= 1
    decreases t, 1
  {
    if t.Node? && l.Boss? && t.kids != [] {
      EnergySumBounds(t.kids, l.kids, start);
      MulNonNegative(Budget(t.limits) - |l.times|, Refill(t.strategy, t.kids));
    }
  }

  lemma MulNonNegative(a: nat, b: nat)
    ensures a * b >= 0
  {
  }

  lemma {:induction false} EnergySumBounds(ts: seq<Tree>, ls: seq<Live>, start: real)
    requires |ts| == |ls| && forall i :: 0 <= i < |ts| ==> Sound(ts[i], ls[i], start)
    ensures EnergySum(ts, ls) >= 0
    ensures (exists i :: 0 <= i < |ls| && !ls[i].Gone?) ==> EnergySum(ts, ls) >= 1
    ensures (forall i :: 0 <= i < |ls| ==> !ls[i].Gone?) ==> EnergySum(ts, ls) >= |ts|
    decreases ts, 0
  {
    if ts != [] {
      assert Sound(ts[0], ls[0], start);
      EnergyPositive(ts[0], ls[0], start);
      assert forall i :: 0 <= i < |ts[1..]| ==> ts[1..][i] == ts[i + 1] && ls[1..][i] == ls[i + 1];
      EnergySumBounds(ts[1..], ls[1..], start);
      if i :| 0 <= i < |ls| && !ls[i].Gone? {
        if i > 0 {
          assert !ls[1..][i - 1].Gone?;
        }
      }
    }
  }

  lemma {:induction false} RestartSum(ts: seq<Tree>, ls: seq<Live>, r: seq<Live>, start: real)
    requires |ts| == |ls| == |r| && forall k :: 0 <= k < |ts| ==> Sound(ts[k], ls[k], start) && !ls[k].Gone?
    requires forall k :: 0 <= k < |ts| ==> r[k] == Fresh(ts[k]) || r[k] == ls[k]
    ensures EnergySum(ts, r) + |ts| <= EnergySum(ts, ls) + SumBound(ts)
    decreases |ts|
  {
    if ts != [] {
      assert Sound(ts[0], ls[0], start);
      EnergyPositive(ts[0], ls[0], start);
      FreshEnergy(ts[0]);
      assert forall i :: 0 <= i < |ts[1..]| ==>
               ts[1..][i] == ts[i + 1] && ls[1..][i] == ls[i + 1] && r[1..][i] == r[i + 1];
      RestartSum(ts[1..], ls[1..], r[1..], start);
    }
  }

  /** Inside one window a supervisor grants a restart exactly while it has used less than its budget. */
  lemma WindowedGrant(limits: Limits, times: seq<real>, start: real, now: real)
    requires now - start < limits.window && forall i :: 0 <= i < |times| ==> start <= times[i]
    ensures Grants(limits, times, now) <==> |times| < Budget(limits)
    ensures AfterCrash(limits, times, now) == times + if |times| < Budget(limits) then [now] else []
  {
    NothingPruned(times, now, limits.window);
  }

  // ---------- every crash costs ----------

  lemma LessByOne(a: nat, b: nat)
    requires a >= 1
    ensures (a - 1) * b == a * b - b
  {
  }

  /** A granted restart brings back at most its refill, less the crash that caused it. */
  lemma RestartRefills(t: Tree, l: Live, i: nat, start: real)
    requires t.Node? && l.Boss? && Sound(t, l, start) && i < |l.kids| && !l.kids[i].Gone?
    ensures var r := RestartKids(t.strategy, t.kids, l.kids, i);
            EnergySum(t.kids, r) <= EnergySum(t.kids, l.kids) + Refill(t.strategy, t.kids) - 1
  {
    var r := RestartKids(t.strategy, t.kids, l.kids, i);
    if t.strategy.OneForOne? {
      assert r == l.kids[i := Fresh(t.kids[i])];
      EnergySumUpdate(t.kids, l.kids, i, Fresh(t.kids[i]));
      FreshEnergy(t.kids[i]);
      assert Sound(t.kids[i], l.kids[i], start);
      EnergyPositive(t.kids[i], l.kids[i], start);
    } else {
      RestartSum(t.kids, l.kids, r, start);
    }
  }

  /** A granted restart refills less than the budget it takes. */
  lemma RestartSpends(t: Tree, l: Live, i: nat, start: real, now: real)
    requires t.Node? && l.Boss? && Sound(t, l, start) && Windowed(t, start, now) && start <= now
    requires i < |l.kids| && !l.kids[i].Gone? && Grants(t.limits, l.times, now)
    ensures var l' := KidCrashed(t, l, i, now).live;
            l'.Boss? && Sound(t, l', start) && Energy(t, l') <= Energy(t, l) - 1
  {
    WindowedGrant(t.limits, l.times, start, now);
    RestartIsSound(t, l, i, start, now);
    LessByOne(Budget(t.limits) - |l.times|, Refill(t.strategy, t.kids));
    RestartRefills(t, l, i, start);
  }

  lemma {:induction false} RestartIsSound(t: Tree, l: Live, i: nat, start: real, now: real)
    requires t.Node? && l.Boss? && Sound(t, l, start) && Windowed(t, start, now) && start <= now
    requires i < |l.kids| && Grants(t.limits, l.times, now)
    ensures Sound(t, KidCrashed(t, l, i, now).live, start)
  {
    WindowedGrant(t.limits, l.times, start, now);
    var l' := KidCrashed(t, l, i, now).live;
    forall k | 0 <= k < |t.kids|
      ensures Sound(t.kids[k], l'.kids[k], start) && (l.kids[k].Gone? || !l'.kids[k].Gone?) && !Fresh(t.kids[k]).Gone?
    {
      FreshIsSound(t.kids[k], start);
    }
    assert !l'.kids[i].Gone?;
  }

  /** A denial costs the child, or the whole group. */
  lemma {:induction false} DenialSpends(t: Tree, l: Live, i: nat, start: real, now: real)
    requires t.Node? && l.Boss? && Sound(t, l, start) && Windowed(t, start, now)
    requires i < |l.kids| && !l.kids[i].Gone? && !Grants(t.limits, l.times, now) && !KidCrashed(t, l, i, now).up
    ensures var l' := KidCrashed(t, l, i, now).live;
            l'.Boss? && Sound(t, l', start) && Energy(t, l') <= Energy(t, l) - 1
  {
    WindowedGrant(t.limits, l.times, start, now);
    assert KidCrashed(t, l, i, now).live == l.(kids := l.kids[i := Gone]);
    var k :| 0 <= k < |l.kids| && k != i && !l.kids[k].Gone?;
    DiscardIsSound(t, l, i, k, start);
    EnergyUpdate(t, l, i, Gone);
    assert Sound(t.kids[i], l.kids[i], start);
    EnergyPositive(t.kids[i], l.kids[i], start);
  }

  lemma DiscardIsSound(t: Tree, l: Live, i: nat, k: nat, start: real)
    requires t.Node? && t.strategy.OneForOne? && l.Boss? && Sound(t, l, start) && i < |l.kids|
    requires k < |l.kids| && k != i && !l.kids[k].Gone?
    ensures Sound(t, l.(kids := l.kids[i := Gone]), start)
  {
    var ls := l.kids[i := Gone];
    forall j | 0 <= j < |t.kids|
      ensures Sound(t.kids[j], ls[j], start)
    {
      assert j != i ==> ls[j] == l.kids[j];
    }
    assert !ls[k].Gone?;
  }

  lemma QuietSpends(t: Tree, l: Live, i: nat, kid: Live, start: real)
    requires t.Node? && l.Boss? && Sound(t, l, start) && i < |l.kids| && !kid.Gone?
    requires Sound(t.kids[i], kid, start) && Energy(t.kids[i], kid) <= Energy(t.kids[i], l.kids[i]) - 1
    ensures var l' := l.(kids := l.kids[i := kid]); Sound(t, l', start) && Energy(t, l') <= Energy(t, l) - 1
  {
    EnergyUpdate(t, l, i, kid);
    QuietIsSound(t, l, i, kid, start);
  }

  lemma QuietIsSound(t: Tree, l: Live, i: nat, kid: Live, start: real)
    requires t.Node? && l.Boss? && Sound(t, l, start) && i < |l.kids| && !kid.Gone? && Sound(t.kids[i], kid, start)
    ensures Sound(t, l.(kids := l.kids[i := kid]), start)
  {
    var ls := l.kids[i := kid];
    forall k | 0 <= k < |t.kids|
      ensures Sound(t.kids[k], ls[k], start)
    {
      assert k != i ==> ls[k] == l.kids[k];
    }
    assert !ls[i].Gone?;
  }

  /** Every crash inside the window takes at least one unit, wherever in the tree it happens. */
  lemma {:induction false} CrashSpends(t: Tree, l: Live, p: Path, start: real, now: real)
    requires Sound(t, l, start) && CanCrash(t, l, p) && Windowed(t, start, now) && start <= now
    ensures var o := Crash(t, l, p, now);
            Sound(t, o.live, start) && Energy(t, o.live) <= Energy(t, l) - 1
    decreases |p|
  {
    var o := Crash(t, l, p, now);
    EnergyPositive(t, l, start);
    if t.Node? {
      var i := p[0];
      assert Sound(t.kids[i], l.kids[i], start);
      CrashSpends(t.kids[i], l.kids[i], p[1..], start, now);
      var below := Crash(t.kids[i], l.kids[i], p[1..], now);
      if !below.up {
        QuietSpends(t, l, i, below.live, start);
      } else if Grants(t.limits, l.times, now) {
        RestartSpends(t, l, i, start, now);
      } else if !o.up {
        DenialSpends(t, l, i, start, now);
      }
    }
  }

  // ---------- runs ----------

  datatype Hit = Hit(path: Path, now: real)

  /** A run of crashes; it ends when the tree as a whole gives up. */
  predicate Storm(t: Tree, l: Live, hits: seq<Hit>)
    decreases |hits|
  {
    hits == [] || (CanCrash(t, l, hits[0].path) && Storm(t, Crash(t, l, hits[0].path, hits[0].now).live, hits[1..]))
  }

  function After(t: Tree, l: Live, hits: seq<Hit>): Live
    requires Storm(t, l, hits)
    decreases |hits|
  {
    if hits == [] then l else After(t, Crash(t, l, hits[0].path, hits[0].now).live, hits[1..])
  }

  lemma {:induction false} StormSpends(t: Tree, l: Live, hits: seq<Hit>, start: real)
    requires Sound(t, l, start) && Storm(t, l, hits)
    requires forall i :: 0 <= i < |hits| ==> start <= hits[i].now && Windowed(t, start, hits[i].now)
    ensures |hits| <= Energy(t, l)
    decreases |hits|
  {
    EnergyPositive(t, l, start);
    if hits != [] {
      CrashSpends(t, l, hits[0].path, start, hits[0].now);
      StormSpends(t, Crash(t, l, hits[0].path, hits[0].now).live, hits[1..], start);
    }
  }

  /** With all crashes inside one restart window, no tree outlives its bound, whatever crashes when. */
  lemma EscalationBound(t: Tree, hits: seq<Hit>, start: real)
    requires Storm(t, Fresh(t), hits)
    requires forall i :: 0 <= i < |hits| ==> start <= hits[i].now && Windowed(t, start, hits[i].now)
    ensures |hits| <= Bound(t)
  {
    FreshIsSound(t, start);
    FreshEnergy(t);
    StormSpends(t, Fresh(t), hits, start);
  }
}
