/** Whom a granted restart of a supervision group tells about. */
module GroupSweeps {
  import opened Monitors
  import opened MonitorCauses
  import Supervision

  /** The siblings from position `k` on that a crash at `i` tears down. */
  function Sweeps(strategy: Supervision.Strategy, n: string, children: seq<Supervision.Child>, i: nat,
      k: nat): seq<Step>
    requires k <= |children|
    decreases |children| - k
  {
    if k == |children| then []
    else (if k != i && Supervision.InRestartSet(strategy, i, k) then [SweptByGroup(n, children[k].name)] else [])
         + Sweeps(strategy, n, children, i, k + 1)
  }

  /** The children from position `k` on that come back. */
  function Respawns(strategy: Supervision.Strategy, n: string, children: seq<Supervision.Child>, i: nat,
      k: nat): seq<Step>
    requires k <= |children|
    decreases |children| - k
  {
    if k == |children| then []
    else (if Supervision.InRestartSet(strategy, i, k) then [Spawn(n, children[k].name)] else [])
         + Respawns(strategy, n, children, i, k + 1)
  }

  /** A granted crash of child `i`: its own generation ends, the swept siblings follow, then all come back. */
  function GroupRestart(strategy: Supervision.Strategy, n: string, children: seq<Supervision.Child>, i: nat): seq<Step>
    requires i < |children|
  {
    [CrashToRestart(n, children[i].name)]
        + (Sweeps(strategy, n, children, i, 0) + Respawns(strategy, n, children, i, 0))
  }

  lemma {:induction false} RunConcat(s: Net, a: seq<Step>, b: seq<Step>)
    requires Legal(s, a) && Legal(Run(s, a), b)
    ensures Legal(s, a + b) && Run(s, a + b) == Run(Run(s, a), b)
    decreases |a|
  {
    if a == [] {
      assert a + b == b;
    } else {
      assert (a + b)[1..] == a[1..] + b;
      RunConcat(Apply(s, a[0]), a[1..], b);
    }
  }

  lemma SpawnTells(s: Net, n: string, name: string, r: Ref)
    ensures Quiet(Apply(s, Spawn(n, name)), r) <==> Quiet(s, r)
    ensures At(Apply(s, Spawn(n, name)), n).alive == At(s, n).alive + {name}
  {
  }

  lemma {:induction false} SpawnsTell(s: Net, strategy: Supervision.Strategy, n: string,
                                      children: seq<Supervision.Child>, i: nat, k: nat, r: Ref)
    requires k <= |children|
    ensures var steps := Respawns(strategy, n, children, i, k);
            && Legal(s, steps) && (Quiet(Run(s, steps), r) <==> Quiet(s, r))
            && At(s, n).alive <= At(Run(s, steps), n).alive
    decreases |children| - k
  {
    if k < |children| {
      if Supervision.InRestartSet(strategy, i, k) {
        var step := Spawn(n, children[k].name);
        SpawnTells(s, n, children[k].name, r);
        SpawnsTell(Apply(s, step), strategy, n, children, i, k + 1, r);
        RunOne(s, step, Respawns(strategy, n, children, i, k + 1));
      } else {
        SpawnsTell(s, strategy, n, children, i, k + 1, r);
        assert [] + Respawns(strategy, n, children, i, k + 1) == Respawns(strategy, n, children, i, k + 1);
      }
    }
  }

  lemma {:induction false} SpawnsBringBack(s: Net, strategy: Supervision.Strategy, n: string,
                                           children: seq<Supervision.Child>, i: nat, k: nat, j: nat, r: Ref)
    requires k <= j < |children| && Supervision.InRestartSet(strategy, i, j)
    ensures var steps := Respawns(strategy, n, children, i, k);
            Legal(s, steps) && children[j].name in At(Run(s, steps), n).alive
    decreases |children| - k
  {
    var step, rest := Spawn(n, children[k].name), Respawns(strategy, n, children, i, k + 1);
    if Supervision.InRestartSet(strategy, i, k) {
      SpawnTells(s, n, children[k].name, r);
      SpawnsTell(Apply(s, step), strategy, n, children, i, k + 1, r);
      if k < j {
        SpawnsBringBack(Apply(s, step), strategy, n, children, i, k + 1, j, r);
      }
      RunOne(s, step, rest);
    } else {
      SpawnsBringBack(s, strategy, n, children, i, k + 1, j, r);
      assert [] + rest == rest;
    }
  }

  /** The children from position `k` on, except the one that crashed, are alive. */
  ghost predicate AliveFrom(s: Net, n: string, children: seq<Supervision.Child>, i: nat, k: nat) {
    forall j :: k <= j < |children| && j != i ==> children[j].name in At(s, n).alive
  }

  lemma SweepSpares(s: Net, n: string, name: string, other: string)
    requires other != name && name in At(s, n).alive
    ensures other in At(s, n).alive ==> other in At(Apply(s, SweptByGroup(n, name)), n).alive
    ensures WatchersOf(At(Apply(s, SweptByGroup(n, name)), n), other) == WatchersOf(At(s, n), other)
  {
  }

  lemma SweepKeepsNoise(s: Net, step: Step, r: Ref)
    requires step.SweptByGroup? && Enabled(s, step) && !Quiet(s, r)
    ensures !Quiet(Apply(s, step), r)
  {
    if n :| (n, r) in s.tasks {
      assert (n, r) in Apply(s, step).tasks;
    } else if n :| (n, DownOp(r)) in s.wire {
      assert (n, DownOp(r)) in Apply(s, step).wire;
    }
  }

  lemma {:induction false} NoisyStaysNoisy(s: Net, strategy: Supervision.Strategy, n: string,
                                           children: seq<Supervision.Child>, i: nat, k: nat, r: Ref)
    requires k <= |children| && Supervision.DistinctNames(children) && AliveFrom(s, n, children, i, k) && !Quiet(s, r)
    ensures var steps := Sweeps(strategy, n, children, i, k); Legal(s, steps) && !Quiet(Run(s, steps), r)
    decreases |children| - k
  {
    if k < |children| {
      if k != i && Supervision.InRestartSet(strategy, i, k) {
        var step := SweptByGroup(n, children[k].name);
        SweepKeepsNoise(s, step, r);
        SweepKeepsAlive(s, n, children, i, k);
        NoisyStaysNoisy(Apply(s, step), strategy, n, children, i, k + 1, r);
        SweepsFirst(s, strategy, n, children, i, k);
      } else {
        NoisyStaysNoisy(s, strategy, n, children, i, k + 1, r);
        assert [] + Sweeps(strategy, n, children, i, k + 1) == Sweeps(strategy, n, children, i, k + 1);
      }
    }
  }

  lemma SweepKeepsAlive(s: Net, n: string, children: seq<Supervision.Child>, i: nat, k: nat)
    requires k < |children| && k != i && Supervision.DistinctNames(children) && AliveFrom(s, n, children, i, k)
    ensures AliveFrom(Apply(s, SweptByGroup(n, children[k].name)), n, children, i, k + 1)
  {
    forall j | k + 1 <= j < |children| && j != i
      ensures children[j].name in At(Apply(s, SweptByGroup(n, children[k].name)), n).alive
    {
      SweepSpares(s, n, children[k].name, children[j].name);
    }
  }

  lemma {:induction false} SweepOfAnother(s: Net, n: string, name: string, other: string, r: Ref)
    requires name != other && name in At(s, n).alive && Placed(s, r) && Quiet(s, r) && AimedAt(s, r, n, other)
    ensures var t := Apply(s, SweptByGroup(n, name));
            && Placed(t, r) && Quiet(t, r) && AimedAt(t, r, n, other)
            && (SitsAt(s, n, other, r) ==> SitsAt(t, n, other, r))
  {
    var step := SweptByGroup(n, name);
    assert !Fires(s, step, r);
    StepKeepsPlaced(s, step, r);
    StepKeepsQuiet(s, step, r);
    SweepSpares(s, n, name, other);
  }

  lemma SweepsFirst(s: Net, strategy: Supervision.Strategy, n: string, children: seq<Supervision.Child>, i: nat, k: nat)
    requires k < |children| && k != i && Supervision.InRestartSet(strategy, i, k)
    requires var step := SweptByGroup(n, children[k].name);
             Enabled(s, step) && Legal(Apply(s, step), Sweeps(strategy, n, children, i, k + 1))
    ensures var steps := Sweeps(strategy, n, children, i, k);
            && Legal(s, steps)
            && Run(s, steps) == Run(Apply(s, SweptByGroup(n, children[k].name)),
               Sweeps(strategy, n, children, i, k + 1))
  {
    RunOne(s, SweptByGroup(n, children[k].name), Sweeps(strategy, n, children, i, k + 1));
  }

  lemma SweepHits(s: Net, strategy: Supervision.Strategy, n: string, children: seq<Supervision.Child>,
                  i: nat, w: nat, r: Ref)
    requires w < |children| && Supervision.DistinctNames(children) && AliveFrom(s, n, children, i, w)
    requires w != i && Supervision.InRestartSet(strategy, i, w) && Quiet(s, r) && SitsAt(s, n, children[w].name, r)
    ensures var steps := Sweeps(strategy, n, children, i, w); Legal(s, steps) && !Quiet(Run(s, steps), r)
  {
    var step := SweptByGroup(n, children[w].name);
    RestartTellsIffSwept(s, step, n, children[w].name, r);
    SweepKeepsAlive(s, n, children, i, w);
    NoisyStaysNoisy(Apply(s, step), strategy, n, children, i, w + 1, r);
    SweepsFirst(s, strategy, n, children, i, w);
  }

  /** Nothing is under way for the ref, which is aimed at child `w` and sits there as long as `w` is still due. */
  ghost predicate Due(s: Net, n: string, children: seq<Supervision.Child>, i: nat, k: nat, w: nat, r: Ref) {
    && w < |children| && AliveFrom(s, n, children, i, k)
    && Placed(s, r) && Quiet(s, r) && AimedAt(s, r, n, children[w].name)
    && (k <= w && w != i ==> SitsAt(s, n, children[w].name, r))
  }

  lemma SweepPassesBy(s: Net, n: string, children: seq<Supervision.Child>, i: nat, k: nat, w: nat, r: Ref)
    requires k < |children| && k != i && k != w && Supervision.DistinctNames(children) &&
             Due(s, n, children, i, k, w, r)
    ensures Enabled(s, SweptByGroup(n, children[k].name))
    ensures Due(Apply(s, SweptByGroup(n, children[k].name)), n, children, i, k + 1, w, r)
  {
    SweepKeepsAlive(s, n, children, i, k);
    SweepOfAnother(s, n, children[k].name, children[w].name, r);
  }

  lemma NotSwept(s: Net, strategy: Supervision.Strategy, n: string, children: seq<Supervision.Child>,
                 i: nat, k: nat, w: nat, r: Ref)
    requires k < |children| && (k == i || !Supervision.InRestartSet(strategy, i, k)) && Due(s, n, children, i, k, w, r)
    ensures Due(s, n, children, i, k + 1, w, r)
    ensures Sweeps(strategy, n, children, i, k) == Sweeps(strategy, n, children, i, k + 1)
  {
    assert [] + Sweeps(strategy, n, children, i, k + 1) == Sweeps(strategy, n, children, i, k + 1);
  }

  /** Whether anything is under way for the ref after the steps. */
  ghost predicate Outcome(s: Net, steps: seq<Step>, r: Ref, told: bool) {
    Legal(s, steps) && (told <==> !Quiet(Run(s, steps), r))
  }

  lemma OthersSwept(s: Net, strategy: Supervision.Strategy, n: string, children: seq<Supervision.Child>,
                    i: nat, k: nat, w: nat, r: Ref, told: bool) returns (t: Net)
    requires k < |children| && k != i && k != w && Supervision.InRestartSet(strategy, i, k)
    requires Supervision.DistinctNames(children) && Due(s, n, children, i, k, w, r)
    ensures Due(t, n, children, i, k + 1, w, r)
    ensures Outcome(t, Sweeps(strategy, n, children, i, k + 1), r, told) ==>
            Outcome(s, Sweeps(strategy, n, children, i, k), r, told)
  {
    SweepPassesBy(s, n, children, i, k, w, r);
    t := Apply(s, SweptByGroup(n, children[k].name));
    if Legal(t, Sweeps(strategy, n, children, i, k + 1)) {
      SweepsFirst(s, strategy, n, children, i, k);
    }
  }

  predicate Swept(strategy: Supervision.Strategy, i: nat, k: nat, w: nat) {
    k <= w && w != i && Supervision.InRestartSet(strategy, i, w)
  }

  lemma NobodyLeft(s: Net, strategy: Supervision.Strategy, n: string, children: seq<Supervision.Child>,
                   i: nat, w: nat, r: Ref)
    requires Due(s, n, children, i, |children|, w, r)
    ensures Outcome(s, Sweeps(strategy, n, children, i, |children|), r, Swept(strategy, i, |children|, w))
  {
  }

  lemma OwnSweep(s: Net, strategy: Supervision.Strategy, n: string, children: seq<Supervision.Child>,
                 i: nat, w: nat, r: Ref)
    requires Supervision.DistinctNames(children) && Due(s, n, children, i, w, w, r) && Swept(strategy, i, w, w)
    ensures Outcome(s, Sweeps(strategy, n, children, i, w), r, true)
  {
    SweepHits(s, strategy, n, children, i, w, r);
  }

  /** A watcher of child `w` hears of the sweep if and only if `w` is swept. */
  lemma {:induction false} SweepsTell(s: Net, strategy: Supervision.Strategy, n: string,
                                      children: seq<Supervision.Child>, i: nat, k: nat, w: nat, r: Ref)
    requires k <= |children| && Supervision.DistinctNames(children) && Due(s, n, children, i, k, w, r)
    ensures Outcome(s, Sweeps(strategy, n, children, i, k), r, Swept(strategy, i, k, w))
    decreases |children| - k
  {
    if k == |children| {
      NobodyLeft(s, strategy, n, children, i, w, r);
    } else if k == i || !Supervision.InRestartSet(strategy, i, k) {
      NotSwept(s, strategy, n, children, i, k, w, r);
      SweepsTell(s, strategy, n, children, i, k + 1, w, r);
    } else if k == w {
      OwnSweep(s, strategy, n, children, i, w, r);
    } else {
      var t := OthersSwept(s, strategy, n, children, i, k, w, r, Swept(strategy, i, k, w));
      SweepsTell(t, strategy, n, children, i, k + 1, w, r);
      assert Swept(strategy, i, k, w) == Swept(strategy, i, k + 1, w);
    }
  }

  lemma OwnCrashIsQuiet(s: Net, n: string, children: seq<Supervision.Child>, i: nat, w: nat, r: Ref)
    requires i < |children| && w < |children| && Supervision.DistinctNames(children) && AliveFrom(s, n, children, i, 0)
    requires Placed(s, r) && Quiet(s, r) && SitsAt(s, n, children[w].name, r)
    ensures var t := Apply(s, CrashToRestart(n, children[i].name));
            && AliveFrom(t, n, children, i, 0) && Placed(t, r) && Quiet(t, r) && AimedAt(t, r, n, children[w].name)
            && (w != i ==> SitsAt(t, n, children[w].name, r))
  {
    var step := CrashToRestart(n, children[i].name);
    StepKeepsPlaced(s, step, r);
    StepKeepsQuiet(s, step, r);
    assert AimedAt(s, r, n, children[w].name);
  }

  /** A granted crash of child `i` tells the watchers of child `w` if and only if the restart sweeps `w` along:
      `w` is in the strategy's set and is not the one that crashed. Either way every restarted child is back. */
  lemma GroupRestartTells(s: Net, strategy: Supervision.Strategy, n: string, children: seq<Supervision.Child>,
                          i: nat, w: nat, r: Ref)
    requires i < |children| && w < |children| && Supervision.DistinctNames(children) && AliveFrom(s, n, children, i, 0)
    requires Placed(s, r) && Quiet(s, r) && SitsAt(s, n, children[w].name, r)
    ensures var steps := GroupRestart(strategy, n, children, i);
            && Legal(s, steps)
            && (!Quiet(Run(s, steps), r) <==> w != i && Supervision.InRestartSet(strategy, i, w))
            && (strategy.OneForOne? ==> Quiet(Run(s, steps), r))
            && (strategy.OneForAll? ==> (Quiet(Run(s, steps), r) <==> w == i))
            && (strategy.RestForOne? ==> (Quiet(Run(s, steps), r) <==> w <= i))
            && (forall j :: 0 <= j < |children| && Supervision.InRestartSet(strategy, i, j) ==>
                  children[j].name in At(Run(s, steps), n).alive)
  {
    var crash := CrashToRestart(n, children[i].name);
    var sweeps, spawns := Sweeps(strategy, n, children, i, 0), Respawns(strategy, n, children, i, 0);
    var t := Apply(s, crash);
    OwnCrashIsQuiet(s, n, children, i, w, r);
    SweepsTell(t, strategy, n, children, i, 0, w, r);
    SpawnsTell(Run(t, sweeps), strategy, n, children, i, 0, r);
    RunConcat(t, sweeps, spawns);
    RunOne(s, crash, sweeps + spawns);
    forall j | 0 <= j < |children| && Supervision.InRestartSet(strategy, i, j)
      ensures children[j].name in At(Run(Run(t, sweeps), spawns), n).alive
    {
      SpawnsBringBack(Run(t, sweeps), strategy, n, children, i, 0, j, r);
    }
  }
}
