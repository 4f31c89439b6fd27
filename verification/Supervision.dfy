/** One supervisor: which children a crash restarts, and when the supervisor gives up. */
module Supervision {
  import opened Common
  import opened RestartBudget

  datatype Strategy = OneForOne | OneForAll | RestForOne

  /** `generation` counts the child's lives; `running` says whether its task is alive. */
  datatype Child = Child(name: string, generation: nat, running: bool)

  datatype State = State(times: seq<real>, children: seq<Child>, givenUp: Option<string>)

  datatype Config = Config(strategy: Strategy, limits: Limits)

  /** Whether a crash at position `i` restarts the child at position `k`. */
  predicate InRestartSet(strategy: Strategy, i: nat, k: nat) {
    match strategy
    case OneForOne => k == i
    case OneForAll => true
    case RestForOne => i <= k
  }

  function NextLife(c: Child): Child {
    c.(generation := c.generation + 1, running := true)
  }

  function Restarted(strategy: Strategy, children: seq<Child>, i: nat): (r: seq<Child>)
    ensures |r| == |children|
    ensures forall k :: 0 <= k < |r| ==>
            r[k] == if InRestartSet(strategy, i, k) then NextLife(children[k]) else children[k]
  {
    seq(|children|, k requires 0 <= k < |children| =>
      if InRestartSet(strategy, i, k) then NextLife(children[k]) else children[k])
  }

  function AllStopped(children: seq<Child>): (r: seq<Child>)
    ensures |r| == |children| && forall k :: 0 <= k < |r| ==> r[k] == children[k].(running := false)
  {
    seq(|children|, k requires 0 <= k < |children| => children[k].(running := false))
  }

  /** What the crash of child `i` with exception `exc` at time `now` leaves behind. */
  function HandleCrash(cfg: Config, s: State, i: nat, exc: string, now: real): State
    requires i < |s.children|
  {
    var times := RestartBudget.AfterCrash(cfg.limits, s.times, now);
    if Grants(cfg.limits, s.times, now) then
      s.(times := times, children := Restarted(cfg.strategy, s.children, i))
    else if cfg.strategy.OneForOne? then
      var left := s.children[..i] + s.children[i + 1..];
      State(times, left, if left == [] then Some(exc) else s.givenUp)
    else
      State(times, AllStopped(s.children), Some(exc))
  }

  function Spawned(s: State, name: string): State {
    s.(children := s.children + [Child(name, 1, true)])
  }

  /** Which children a granted crash restarts, by position: under one-for-one the crashed one alone, under
      one-for-all everyone, under rest-for-one the crashed one and everyone spawned after it. */
  lemma RestartsByPosition(cfg: Config, s: State, i: nat, exc: string, now: real, k: nat)
    requires i < |s.children| && k < |s.children| && Grants(cfg.limits, s.times, now)
    ensures var t := HandleCrash(cfg, s, i, exc, now);
            && |t.children| == |s.children|
            && (cfg.strategy.OneForOne? ==> t.children[k] == if k == i then NextLife(s.children[k]) else s.children[k])
            && (cfg.strategy.OneForAll? ==> t.children[k] == NextLife(s.children[k]))
            && (cfg.strategy.RestForOne? ==> t.children[k] == if k < i then s.children[k] else NextLife(s.children[k]))
  {
  }

  class Supervisor {
    const cfg: Config
    var restartTimes: seq<real>
    var children: seq<Child>
    var giveUpExc: Option<string>

    constructor (cfg: Config)
      ensures this.cfg == cfg && View() == State([], [], None)
    {
      this.cfg, restartTimes, children, giveUpExc := cfg, [], [], None;
    }

    ghost function View(): State
      reads this
    {
      State(restartTimes, children, giveUpExc)
    }

    method Spawn(name: string)
      modifies this`children
      ensures View() == Spawned(old(View()), name)
    {
      children := children + [Child(name, 1, true)];
    }

    method AllowRestart(now: real) returns (allowed: bool)
      modifies this`restartTimes
      ensures allowed == Grants(cfg.limits, old(restartTimes), now)
      ensures allowed <==> |Recent(old(restartTimes), now, cfg.limits.window)| < cfg.limits.maxRestarts
      ensures restartTimes == RestartBudget.AfterCrash(cfg.limits, old(restartTimes), now)
    {
      PruneCounts(restartTimes, now, cfg.limits.window);
      restartTimes := Prune(restartTimes, now, cfg.limits.window);
      if |restartTimes| >= cfg.limits.maxRestarts {
        return false;
      }
      restartTimes := restartTimes + [now];
      return true;
    }

    /** Stops every child but the one at `except`. */
    method ShutdownExcept(except: nat)
      modifies this`children
      ensures |children| == |old(children)|
      ensures forall k :: 0 <= k < |children| ==>
                children[k] == if k == except then old(children)[k] else old(children)[k].(running := false)
    {
      var k := 0;
      while k < |children|
        invariant 0 <= k <= |children| == |old(children)|
        invariant forall j :: 0 <= j < |children| ==>
                    children[j] == if j < k && j != except then old(children)[j].(running := false)
                        else old(children)[j]
      {
        if k != except {
          children := children[k := children[k].(running := false)];
        }
        k := k + 1;
      }
    }

    /** Tears down, then respawns, the siblings that a crash at `i` sweeps along. */
    method RestartSiblings(i: nat)
      requires i < |children|
      modifies this`children
      ensures |children| == |old(children)|
      ensures forall k :: 0 <= k < |children| ==>
                children[k] == if k != i && InRestartSet(cfg.strategy, i, k) then NextLife(old(children)[k])
                    else old(children)[k]
      ensures cfg.strategy.OneForOne? ==> children == old(children)
      ensures cfg.strategy.RestForOne? ==>
                children[..i + 1] == old(children)[..i + 1] &&
                forall k :: i < k < |children| ==> children[k] == NextLife(old(children)[k])
    {
      var k := 0;
      while k < |children|
        invariant 0 <= k <= |children| == |old(children)|
        invariant forall j :: 0 <= j < |children| ==>
                    children[j] == if j < k && j != i && InRestartSet(cfg.strategy, i, j)
                                   then old(children)[j].(running := false) else old(children)[j]
      {
        if k != i && InRestartSet(cfg.strategy, i, k) {
          children := children[k := children[k].(running := false)];
        }
        k := k + 1;
      }
      k := 0;
      while k < |children|
        invariant 0 <= k <= |children| == |old(children)|
        invariant forall j :: 0 <= j < |children| ==>
                    children[j] == if j != i && InRestartSet(cfg.strategy, i, j)
                                   then (if j < k then NextLife(old(children)[j])
                                       else old(children)[j].(running := false))
                                   else old(children)[j]
      {
        if k != i && InRestartSet(cfg.strategy, i, k) {
          children := children[k := NextLife(children[k])];
        }
        k := k + 1;
      }
    }

    /** A crash of child `i`, including what its own loop does with the verdict. */
    method ChildCrashed(i: nat, exc: string, now: real) returns (restart: bool)
      requires i < |children|
      modifies this
      ensures View() == HandleCrash(cfg, old(View()), i, exc, now)
      ensures restart == Grants(cfg.limits, old(restartTimes), now)
    {
      restart := AllowRestart(now);
      if restart {
        RestartSiblings(i);
        children := children[i := NextLife(children[i])];
        assert children == Restarted(cfg.strategy, old(children), i);
      } else if cfg.strategy.OneForOne? {
        children := children[..i] + children[i + 1..];
        if children == [] {
          giveUpExc := Some(exc);
        }
      } else {
        ShutdownExcept(i);
        children := children[i := children[i].(running := false)];
        assert children == AllStopped(old(children));
        giveUpExc := Some(exc);
      }
    }
  }

  /** Spawn order matters: a child spawned last is swept by every granted group restart, whoever crashed,
      changes nothing for those before it, and under one-for-one keeps the supervisor from giving up. */
  lemma SpawnedLast(cfg: Config, s: State, name: string, i: nat, exc: string, now: real)
    requires i < |s.children|
    ensures var t, u := HandleCrash(cfg, Spawned(s, name), i, exc, now), HandleCrash(cfg, s, i, exc, now);
            var new', granted := Child(name, 1, true), Grants(cfg.limits, s.times, now);
            && t.times == u.times
            && t.children == u.children + [if cfg.strategy.OneForOne? then new'
                                           else if granted then NextLife(new') else new'.(running := false)]
            && (cfg.strategy.OneForOne? ==> t.givenUp == s.givenUp)
  {
  }

  // ---------- whole lives of a supervisor ----------

  datatype ChildCrash = ChildCrash(i: nat, exc: string, now: real)

  /** Crashes of children that are still in the list of a supervisor that has not given up. */
  predicate Legal(cfg: Config, s: State, crashes: seq<ChildCrash>)
    decreases |crashes|
  {
    crashes == [] ||
    (var c := crashes[0];
     c.i < |s.children| && s.givenUp.None? && Legal(cfg, HandleCrash(cfg, s, c.i, c.exc, c.now), crashes[1..]))
  }

  function Run(cfg: Config, s: State, crashes: seq<ChildCrash>): State
    requires Legal(cfg, s, crashes)
    decreases |crashes|
  {
    if crashes == [] then s
    else Run(cfg, HandleCrash(cfg, s, crashes[0].i, crashes[0].exc, crashes[0].now), crashes[1..])
  }

  /** How many of the crashes were granted and swept the child at position `k`. */
  function Sweeps(cfg: Config, s: State, crashes: seq<ChildCrash>, k: nat): nat
    requires Legal(cfg, s, crashes)
    decreases |crashes|
  {
    if crashes == [] then 0
    else
      var c := crashes[0];
      (if Grants(cfg.limits, s.times, c.now) && InRestartSet(cfg.strategy, c.i, k) then 1 else 0)
      + Sweeps(cfg, HandleCrash(cfg, s, c.i, c.exc, c.now), crashes[1..], k)
  }

  predicate AllRunning(children: seq<Child>) {
    forall k :: 0 <= k < |children| ==> children[k].running
  }

  /** Under a group strategy children never move or vanish; each has lived one life per granted crash that
      swept it; all run until the supervisor gives up, and then none does. */
  lemma {:induction false} GroupLives(cfg: Config, s: State, crashes: seq<ChildCrash>)
    requires !cfg.strategy.OneForOne? && s.givenUp.None? && AllRunning(s.children) && Legal(cfg, s, crashes)
    ensures var t := Run(cfg, s, crashes);
            && |t.children| == |s.children|
            && (forall k :: 0 <= k < |s.children| ==>
                  t.children[k] == Child(s.children[k].name,
                                         s.children[k].generation + Sweeps(cfg, s, crashes, k), t.givenUp.None?))
    decreases |crashes|
  {
    if crashes != [] {
      var c := crashes[0];
      var s1 := HandleCrash(cfg, s, c.i, c.exc, c.now);
      if s1.givenUp.None? {
        GroupLives(cfg, s1, crashes[1..]);
      }
    }
  }

  /** How many of the crashes were granted to a child at a position up to `k`. */
  function GrantedUpTo(cfg: Config, s: State, crashes: seq<ChildCrash>, k: nat): nat
    requires Legal(cfg, s, crashes)
    decreases |crashes|
  {
    if crashes == [] then 0
    else
      var c := crashes[0];
      (if Grants(cfg.limits, s.times, c.now) && c.i <= k then 1 else 0)
      + GrantedUpTo(cfg, HandleCrash(cfg, s, c.i, c.exc, c.now), crashes[1..], k)
  }

  /** Over a rest-for-one supervisor's whole life a child has lived once more for every granted crash of its own
      or of a child spawned before it, and for no other. */
  lemma {:induction false} RestForOneLives(cfg: Config, s: State, crashes: seq<ChildCrash>, k: nat)
    requires cfg.strategy.RestForOne? && s.givenUp.None? && Legal(cfg, s, crashes) && k < |s.children|
    ensures var t := Run(cfg, s, crashes);
            && |t.children| == |s.children|
            && t.children[k].generation == s.children[k].generation + GrantedUpTo(cfg, s, crashes, k)
    decreases |crashes|
  {
    if crashes != [] {
      var c := crashes[0];
      var s1 := HandleCrash(cfg, s, c.i, c.exc, c.now);
      if Grants(cfg.limits, s.times, c.now) {
        RestartsByPosition(cfg, s, c.i, c.exc, c.now, k);
      }
      if s1.givenUp.None? {
        RestForOneLives(cfg, s1, crashes[1..], k);
      }
    }
  }

  /** The give-up is final and carries the exception of the crash that was denied. */
  lemma {:induction false} GiveUpRecordsItsCrash(cfg: Config, s: State, crashes: seq<ChildCrash>)
    requires s.givenUp.None? && Legal(cfg, s, crashes) && Run(cfg, s, crashes).givenUp.Some?
    ensures crashes != [] && Run(cfg, s, crashes).givenUp == Some(crashes[|crashes| - 1].exc)
    decreases |crashes|
  {
    var c := crashes[0];
    var s1 := HandleCrash(cfg, s, c.i, c.exc, c.now);
    if s1.givenUp.None? {
      GiveUpRecordsItsCrash(cfg, s1, crashes[1..]);
    } else {
      assert crashes[1..] == [];
    }
  }

  /** How many of the crashes were denied. */
  function Denials(cfg: Config, s: State, crashes: seq<ChildCrash>): nat
    requires Legal(cfg, s, crashes)
    decreases |crashes|
  {
    if crashes == [] then 0
    else
      var c := crashes[0];
      (if Grants(cfg.limits, s.times, c.now) then 0 else 1)
      + Denials(cfg, HandleCrash(cfg, s, c.i, c.exc, c.now), crashes[1..])
  }

  /** Under one-for-one each denial costs exactly the child that crashed, nobody else ever stops, and the
      supervisor gives up exactly when the last child is gone. */
  lemma {:induction false} LoneLives(cfg: Config, s: State, crashes: seq<ChildCrash>)
    requires cfg.strategy.OneForOne? && s.givenUp.None? && s.children != [] && AllRunning(s.children) &&
             Legal(cfg, s, crashes)
    ensures var t := Run(cfg, s, crashes);
            && |t.children| == |s.children| - Denials(cfg, s, crashes)
            && AllRunning(t.children)
            && (t.givenUp.Some? <==> t.children == [])
    decreases |crashes|
  {
    if crashes != [] {
      var c := crashes[0];
      var s1 := HandleCrash(cfg, s, c.i, c.exc, c.now);
      if s1.givenUp.None? {
        LoneLives(cfg, s1, crashes[1..]);
      } else {
        assert crashes[1..] == [];
      }
    }
  }

  ghost predicate DistinctNames(children: seq<Child>) {
    forall i, j :: 0 <= i < j < |children| ==> children[i].name != children[j].name
  }

  /** What a run does to the child called `name`: `None` once a crash of it is denied, else its restarts. */
  function Fate(cfg: Config, s: State, crashes: seq<ChildCrash>, name: string): Option<nat>
    requires Legal(cfg, s, crashes)
    decreases |crashes|
  {
    if crashes == [] then Some(0)
    else
      var c := crashes[0];
      var own, granted := s.children[c.i].name == name, Grants(cfg.limits, s.times, c.now);
      if own && !granted then None
      else match Fate(cfg, HandleCrash(cfg, s, c.i, c.exc, c.now), crashes[1..], name)
        case None => None
        case Some(n) => Some(n + if own && granted then 1 else 0)
  }

  lemma {:induction false} AbsentStaysAbsent(cfg: Config, s: State, crashes: seq<ChildCrash>, name: string)
    requires cfg.strategy.OneForOne? && Legal(cfg, s, crashes)
    requires forall k :: 0 <= k < |s.children| ==> s.children[k].name != name
    ensures forall k :: 0 <= k < |Run(cfg, s, crashes).children| ==> Run(cfg, s, crashes).children[k].name != name
    decreases |crashes|
  {
    if crashes != [] {
      AbsentStaysAbsent(cfg, HandleCrash(cfg, s, crashes[0].i, crashes[0].exc, crashes[0].now), crashes[1..], name);
    }
  }

  /** The child `c` ended up as `fate` says. */
  ghost predicate MetFate(t: State, c: Child, fate: Option<nat>) {
    match fate
    case Some(n) => c.(generation := c.generation + n) in t.children
    case None => forall j :: 0 <= j < |t.children| ==> t.children[j].name != c.name
  }

  lemma DenialShiftsList(children: seq<Child>, i: nat, k: nat) returns (k': nat)
    requires i < |children| && k < |children| && k != i && DistinctNames(children)
    ensures var left := children[..i] + children[i + 1..];
            k' < |left| && left[k'] == children[k] && DistinctNames(left)
  {
    k' := if k < i then k else k - 1;
  }

  /** Under one-for-one the verdicts on a child's own crashes decide its fate: it is restarted once per crash
      of its own that is granted, it vanishes with the first that is denied, and no sibling's restart or
      discard touches it. The verdicts themselves come from the budget all siblings share. */
  lemma {:induction false} FateFollowsVerdicts(cfg: Config, s: State, crashes: seq<ChildCrash>, k: nat)
    requires cfg.strategy.OneForOne? && Legal(cfg, s, crashes)
    requires k < |s.children| && s.children[k].running && DistinctNames(s.children)
    ensures MetFate(Run(cfg, s, crashes), s.children[k], Fate(cfg, s, crashes, s.children[k].name))
    decreases |crashes|
  {
    var child := s.children[k];
    if crashes == [] {
      assert child == child.(generation := child.generation + 0);
    } else {
      var c, rest := crashes[0], crashes[1..];
      var s1 := HandleCrash(cfg, s, c.i, c.exc, c.now);
      assert s.children[c.i].name == child.name <==> c.i == k;
      if Grants(cfg.limits, s.times, c.now) {
        assert s1.children[k] == child.(generation := child.generation + if c.i == k then 1 else 0);
        FateFollowsVerdicts(cfg, s1, rest, k);
      } else if k == c.i {
        AbsentStaysAbsent(cfg, s1, rest, child.name);
      } else {
        var k' := DenialShiftsList(s.children, c.i, k);
        FateFollowsVerdicts(cfg, s1, rest, k');
        assert Fate(cfg, s, crashes, child.name) == Fate(cfg, s1, rest, child.name);
      }
    }
  }

  // ---------- siblings share one budget ----------

  function Times(crashes: seq<ChildCrash>): seq<real> {
    if crashes == [] then [] else [crashes[0].now] + Times(crashes[1..])
  }

  /** When the restarts of all children together were granted. */
  function Granted(cfg: Config, s: State, crashes: seq<ChildCrash>): seq<real>
    requires Legal(cfg, s, crashes)
    decreases |crashes|
  {
    if crashes == [] then []
    else
      var c := crashes[0];
      (if Grants(cfg.limits, s.times, c.now) then [c.now] else [])
      + Granted(cfg, HandleCrash(cfg, s, c.i, c.exc, c.now), crashes[1..])
  }

  /** From time `start` on, the list `times` says the same about the window as the full history. */
  ghost predicate Backs(cfg: Config, times: seq<real>, history: seq<real>, start: real) {
    forall now :: start <= now ==> Prune(times, now, cfg.limits.window) == Prune(history, now, cfg.limits.window)
  }

  lemma CrashBacks(cfg: Config, times: seq<real>, history: seq<real>, start: real, now: real)
    requires Backs(cfg, times, history, start) && start <= now
    ensures var grant := if Grants(cfg.limits, times, now) then [now] else [];
            Backs(cfg, RestartBudget.AfterCrash(cfg.limits, times, now), history + grant, now)
  {
    var grant := if Grants(cfg.limits, times, now) then [now] else [];
    forall later | now <= later
      ensures Prune(RestartBudget.AfterCrash(cfg.limits, times, now), later, cfg.limits.window)
           == Prune(history + grant, later, cfg.limits.window)
    {
      PruneConcat(Prune(times, now, cfg.limits.window), grant, later, cfg.limits.window);
      PruneConcat(history, grant, later, cfg.limits.window);
      PruneTwice(times, now, later, cfg.limits.window);
    }
  }

  /** Crashes come in order, none before `start` and none after `now`. */
  predicate InOrder(crashes: seq<ChildCrash>, start: real, now: real)
    decreases |crashes|
  {
    if crashes == [] then start <= now else start <= crashes[0].now && InOrder(crashes[1..], crashes[0].now, now)
  }

  lemma GrantedStep(cfg: Config, s: State, crashes: seq<ChildCrash>)
    requires Legal(cfg, s, crashes) && crashes != []
    ensures var c := crashes[0];
            Granted(cfg, s, crashes) == (if Grants(cfg.limits, s.times, c.now) then [c.now] else [])
                                        + Granted(cfg, HandleCrash(cfg, s, c.i, c.exc, c.now), crashes[1..])
  {
  }

  lemma Reassociate(a: seq<real>, b: seq<real>, c: seq<real>)
    ensures a + (b + c) == (a + b) + c
  {
  }

  lemma {:induction false} RunBacks(cfg: Config, s: State, crashes: seq<ChildCrash>, history: seq<real>, start: real,
      now: real)
    requires Legal(cfg, s, crashes) && InOrder(crashes, start, now) && Backs(cfg, s.times, history, start)
    ensures Prune(Run(cfg, s, crashes).times, now, cfg.limits.window)
         == Prune(history + Granted(cfg, s, crashes), now, cfg.limits.window)
    decreases |crashes|
  {
    if crashes == [] {
      assert history + [] == history;
    } else {
      var c := crashes[0];
      var s1 := HandleCrash(cfg, s, c.i, c.exc, c.now);
      var grant := if Grants(cfg.limits, s.times, c.now) then [c.now] else [];
      CrashBacks(cfg, s.times, history, start, c.now);
      RunBacks(cfg, s1, crashes[1..], history + grant, c.now, now);
      GrantedStep(cfg, s, crashes);
      Reassociate(history, grant, Granted(cfg, s1, crashes[1..]));
    }
  }

  /** In every life of a supervisor, whatever the strategy: a crash at `now` is denied if and only if the
      restarts granted to all its children together already fill the window. */
  lemma DeniedIffSharedWindowFull(cfg: Config, s: State, crashes: seq<ChildCrash>, start: real, now: real)
    requires s.times == [] && Legal(cfg, s, crashes) && InOrder(crashes, start, now)
    ensures !Grants(cfg.limits, Run(cfg, s, crashes).times, now) <==>
            |Recent(Granted(cfg, s, crashes), now, cfg.limits.window)| >= cfg.limits.maxRestarts
  {
    RunBacks(cfg, s, crashes, [], start, now);
    PruneCounts(Granted(cfg, s, crashes), now, cfg.limits.window);
    assert [] + Granted(cfg, s, crashes) == Granted(cfg, s, crashes);
  }

  /** Every one of the times `ts` finds room in the window that `history` and the earlier ones leave. */
  ghost predicate Roomy(lim: Limits, history: seq<real>, ts: seq<real>)
    decreases |ts|
  {
    ts == [] || (|Recent(history, ts[0], lim.window)| < lim.maxRestarts && Roomy(lim, history + [ts[0]], ts[1..]))
  }

  lemma {:induction false} RoomyFrom(cfg: Config, s: State, crashes: seq<ChildCrash>, history: seq<real>, start: real,
      now: real)
    requires Legal(cfg, s, crashes) && InOrder(crashes, start, now) && Backs(cfg, s.times, history, start)
    ensures Denials(cfg, s, crashes) == 0 <==> Roomy(cfg.limits, history, Times(crashes))
    decreases |crashes|
  {
    if crashes != [] {
      var c := crashes[0];
      CrashBacks(cfg, s.times, history, start, c.now);
      assert Times(crashes)[1..] == Times(crashes[1..]);
      PruneCounts(history, c.now, cfg.limits.window);
      if Grants(cfg.limits, s.times, c.now) {
        RoomyFrom(cfg, HandleCrash(cfg, s, c.i, c.exc, c.now), crashes[1..], history + [c.now], c.now, now);
      }
    }
  }

  /** No crash of a run is denied if and only if the crash times alone, whoever crashed, leave room. */
  lemma NoDenialIffRoomy(cfg: Config, s: State, crashes: seq<ChildCrash>, start: real, now: real)
    requires s.times == [] && Legal(cfg, s, crashes) && InOrder(crashes, start, now)
    ensures Denials(cfg, s, crashes) == 0 <==> Roomy(cfg.limits, [], Times(crashes))
  {
    RoomyFrom(cfg, s, crashes, [], start, now);
  }

  /** How many of the crashes are of the child called `name`. */
  function OwnCrashes(cfg: Config, s: State, crashes: seq<ChildCrash>, name: string): nat
    requires Legal(cfg, s, crashes)
    decreases |crashes|
  {
    if crashes == [] then 0
    else
      var c := crashes[0];
      (if s.children[c.i].name == name then 1 else 0)
      + OwnCrashes(cfg, HandleCrash(cfg, s, c.i, c.exc, c.now), crashes[1..], name)
  }

  lemma {:induction false} UndeniedFate(cfg: Config, s: State, crashes: seq<ChildCrash>, name: string)
    requires Legal(cfg, s, crashes) && Denials(cfg, s, crashes) == 0
    ensures Fate(cfg, s, crashes, name) == Some(OwnCrashes(cfg, s, crashes, name))
    decreases |crashes|
  {
    if crashes != [] {
      var c := crashes[0];
      UndeniedFate(cfg, HandleCrash(cfg, s, c.i, c.exc, c.now), crashes[1..], name);
    }
  }

  /** A child that crashes as often in one run as in another meets the same fate in both, whatever its
      siblings do, as long as both runs leave room in every window. */
  lemma {:induction false} SameFateWithRoom(cfg: Config, s: State, one: seq<ChildCrash>, two: seq<ChildCrash>,
      name: string, start: real,
      now: real)
    requires s.times == [] && Legal(cfg, s, one) && InOrder(one, start, now) && Roomy(cfg.limits, [], Times(one))
    requires Legal(cfg, s, two) && InOrder(two, start, now) && Roomy(cfg.limits, [], Times(two))
    requires OwnCrashes(cfg, s, one, name) == OwnCrashes(cfg, s, two, name)
    ensures Fate(cfg, s, one, name) == Fate(cfg, s, two, name) == Some(OwnCrashes(cfg, s, one, name))
  {
    NoDenialIffRoomy(cfg, s, one, start, now);
    NoDenialIffRoomy(cfg, s, two, start, now);
    UndeniedFate(cfg, s, one, name);
    UndeniedFate(cfg, s, two, name);
  }

  /** Without room it does not: the same single crash of a child is survived alone, and is the end of the
      child when an unrelated sibling has crashed just before. */
  lemma SiblingsShareBudget() returns (cfg: Config, s: State, alone: seq<ChildCrash>, after: seq<ChildCrash>)
    ensures cfg.strategy.OneForOne? && s.times == [] && s.givenUp.None? && DistinctNames(s.children)
    ensures Legal(cfg, s, alone) && Legal(cfg, s, after) && |after| == 2 && alone == after[1..] && after[0].i == 1
    ensures Fate(cfg, s, alone, "a") == Some(1) && Fate(cfg, s, after, "a") == None
  {
    cfg := Config(OneForOne, Limits(1, 5.0));
    s := State([], [Child("a", 1, true), Child("b", 1, true)], None);
    var first, own := ChildCrash(1, "e", 0.0), ChildCrash(0, "e", 1.0);
    alone, after := [own], [first, own];
    var s1, s2 := HandleCrash(cfg, s, 1, "e", 0.0), HandleCrash(cfg, s, 0, "e", 1.0);
    assert s1.times == [0.0] && s1.children[0].name == "a" && s1.givenUp.None?;
    assert Prune(s1.times, 1.0, 5.0) == [0.0];
    assert alone[1..] == [] && after[1..] == alone;
    assert Legal(cfg, HandleCrash(cfg, s1, 0, "e", 1.0), []) && !Grants(cfg.limits, s1.times, 1.0);
    assert Legal(cfg, s1, alone);
    assert Fate(cfg, s1, alone, "a") == None;
    assert Grants(cfg.limits, s.times, 1.0) && Legal(cfg, s2, []) && Fate(cfg, s2, [], "a") == Some(0);
    assert Legal(cfg, s, alone);
    assert Fate(cfg, s, alone, "a") == Some(1);
  }
}
