/** What a `Down` goes back to: only what happened to the very actor or peer its ref was made for. */
module MonitorCauses {
  import opened Common
  import opened Monitors

  // ---------- a ref is known only where its target lives ----------

  /** The ends of a generation that its watchers are told about. */
  predicate Tells(step: Step) {
    step.DieForGood? || step.SweptByGroup?
  }

  predicate SitsAt(s: Net, n: string, target: string, r: Ref) {
    r in WatchersOf(At(s, n), target)
  }

  predicate Asked(s: Net, n: string, m: Message, r: Ref) {
    (n, m) in s.wire && m.MonitorOp? && m.ref == r
  }

  predicate AimedAt(s: Net, r: Ref, n: string, target: string) {
    r in s.origin && s.origin[r].Where() == n && s.origin[r].target == target
  }

  /** The ref is in no watcher table but its target's, is asked for nowhere else, and is outstanding as made. */
  ghost predicate Placed(s: Net, r: Ref) {
    && (forall n, target :: SitsAt(s, n, target, r) ==> AimedAt(s, r, n, target))
    && (forall n, m :: Asked(s, n, m, r) ==> AimedAt(s, r, n, m.target))
    && (forall n :: Outstanding(s, n, r) ==> WatchedAsMade(s, n, r))
  }

  predicate WatchedAsMade(s: Net, n: string, r: Ref) {
    && r in At(s, n).monitors && r in s.origin
    && s.origin[r] == Aim(n, At(s, n).monitors[r].peer, At(s, n).monitors[r].target)
  }

  lemma SitsBefore(s: Net, step: Step, n: string, target: string, r: Ref)
    requires Enabled(s, step) && SitsAt(Apply(s, step), n, target, r)
    ensures || SitsAt(s, n, target, r)
            || (step.WatchLocal? && step.n == n && step.target == target && step.ref == r)
            || (step.Receive? && step.n == n && Asked(s, n, step.m, r) && step.m.target == target)
  {
    match step {
      case WatchLocal(n', watcher, target', r') => WatchLocalSits(s, n', watcher, target', r', n, target, r);
      case Receive(n', m) => ReceiveSits(s.(wire := s.wire - multiset{(n', m)}), n', m, n, target, r);
      case _ => OthersSit(s, step, n, target, r);
    }
  }

  lemma WatchLocalSits(s: Net, n': string, watcher: string, target': string, r': Ref, n: string, target: string, r: Ref)
    requires SitsAt(ApplyWatchLocal(s, n', watcher, target', r'), n, target, r)
    ensures SitsAt(s, n, target, r) || (n == n' && target == target' && r == r')
  {
  }

  lemma ReceiveSits(s: Net, n': string, m: Message, n: string, target: string, r: Ref)
    requires SitsAt(ApplyReceive(s, n', m), n, target, r)
    ensures SitsAt(s, n, target, r) || (n == n' && m.MonitorOp? && m.ref == r && m.target == target)
  {
  }

  lemma {:induction false} OthersSit(s: Net, step: Step, n: string, target: string, r: Ref)
    requires Enabled(s, step) && !step.WatchLocal? && !step.Receive? && SitsAt(Apply(s, step), n, target, r)
    ensures SitsAt(s, n, target, r)
  {
    match step {
      case Unwatch(n', ref) => UnwatchSits(s, n', ref, n, target, r);
      case PeerLost(n', peer) => DropPeerSits(At(s, n'), peer, target, r);
      case DieForGood(_, _) => EndingSits(s, step, n, target, r);
      case CrashToRestart(_, _) => EndingSits(s, step, n, target, r);
      case SweptByGroup(_, _) => EndingSits(s, step, n, target, r);
      case _ => IdleSits(s, step, n, target, r);
    }
  }

  lemma IdleSits(s: Net, step: Step, n: string, target: string, r: Ref)
    requires step.Spawn? || step.WatchRemote? || step.RunTask? || step.Lose?
    requires Enabled(s, step) && SitsAt(Apply(s, step), n, target, r)
    ensures SitsAt(s, n, target, r)
  {
  }

  lemma EndingSits(s: Net, step: Step, n: string, target: string, r: Ref)
    requires Enabled(s, step) && (Tells(step) || step.CrashToRestart?) && SitsAt(Apply(s, step), n, target, r)
    ensures SitsAt(s, n, target, r)
  {
    var ns := At(s, step.n);
    assert WatchersOf(EndGeneration(ns, step.name), target) == if target == step.name then map[]
           else WatchersOf(ns, target);
  }

  lemma UnwatchSits(s: Net, n': string, ref: Ref, n: string, target: string, r: Ref)
    requires SitsAt(ApplyUnwatch(s, n', ref), n, target, r)
    ensures SitsAt(s, n, target, r)
  {
    if ref in At(s, n').monitors {
      UnwatchedSits(At(s, n'), ref, target, r);
    }
  }

  lemma UnwatchedSits(ns: NodeState, ref: Ref, target: string, r: Ref)
    requires ref in ns.monitors
    ensures r in WatchersOf(Unwatched(ns, ref), target) ==> r in WatchersOf(ns, target)
  {
  }

  lemma DropPeerSits(ns: NodeState, peer: string, target: string, r: Ref)
    ensures r in WatchersOf(DropPeer(ns, peer), target) ==> r in WatchersOf(ns, target)
  {
  }

  lemma AskedBefore(s: Net, step: Step, n: string, m: Message, r: Ref)
    requires Enabled(s, step) && Asked(Apply(s, step), n, m, r)
    ensures Asked(s, n, m, r) || (step.WatchRemote? && step.peer == n && step.target == m.target && step.ref == r)
  {
  }

  lemma MadeStaysMade(s: Net, step: Step, r: Ref)
    requires Enabled(s, step) && r in s.origin
    ensures r in Apply(s, step).origin && Apply(s, step).origin[r] == s.origin[r]
  {
  }

  /** Whoever is outstanding after a step was so before, with the same watch, or was made by the step. */
  lemma WatchBefore(s: Net, step: Step, n: string, r: Ref)
    requires Enabled(s, step) && Outstanding(Apply(s, step), n, r)
    ensures || (Outstanding(s, n, r) && At(Apply(s, step), n).monitors[r] == At(s, n).monitors[r])
            || ((step.WatchLocal? || step.WatchRemote?) && step.ref == r && WatchedAsMade(Apply(s, step), n, r))
  {
    match step {
      case WatchLocal(n', watcher, target, ref) => WatchLocalBefore(s, n', watcher, target, ref, n, r);
      case WatchRemote(_, _, _, _, _) =>
      case Unwatch(n', ref) => UnwatchKeepsWatch(s, n', ref, n, r);
      case RunTask(_, _) =>
      case Receive(n', m) => ReceiveKeepsWatch(s.(wire := s.wire - multiset{(n', m)}), n', m, n, r);
      case _ => EndingKeepsWatch(s, step, n, r);
    }
  }

  lemma WatchLocalBefore(s: Net, n': string, watcher: string, target: string, ref: Ref, n: string, r: Ref)
    requires Outstanding(ApplyWatchLocal(s, n', watcher, target, ref), n, r)
    ensures var t := ApplyWatchLocal(s, n', watcher, target, ref);
            || (Outstanding(s, n, r) && At(t, n).monitors[r] == At(s, n).monitors[r])
            || (ref == r && WatchedAsMade(t, n, r))
  {
  }

  lemma UnwatchKeepsWatch(s: Net, n': string, ref: Ref, n: string, r: Ref)
    requires Outstanding(ApplyUnwatch(s, n', ref), n, r)
    ensures Outstanding(s, n, r) && At(ApplyUnwatch(s, n', ref), n).monitors[r] == At(s, n).monitors[r]
  {
  }

  lemma ReceiveKeepsWatch(s: Net, n': string, m: Message, n: string, r: Ref)
    requires Outstanding(ApplyReceive(s, n', m), n, r)
    ensures Outstanding(s, n, r) && At(ApplyReceive(s, n', m), n).monitors[r] == At(s, n).monitors[r]
    ensures ApplyReceive(s, n', m).origin == s.origin
  {
  }

  lemma EndingKeepsWatch(s: Net, step: Step, n: string, r: Ref)
    requires Ends(step) || step.Spawn? || step.Lose?
    requires Enabled(s, step) && Outstanding(Apply(s, step), n, r)
    ensures Outstanding(s, n, r) && At(Apply(s, step), n).monitors[r] == At(s, n).monitors[r]
  {
    match step {
      case DieForGood(n', name) => DeathKeepsMonitors(s, n', name, n);
      case SweptByGroup(n', name) => DeathKeepsMonitors(s, n', name, n);
      case PeerLost(n', peer) => LossKeepsMonitors(s, n', peer, n);
      case _ => IdleKeepsMonitors(s, step, n);
    }
  }

  lemma DeathKeepsMonitors(s: Net, n': string, name: string, n: string)
    ensures At(ApplyDeath(s, n', name), n).monitors == At(s, n).monitors
  {
  }

  lemma LossKeepsMonitors(s: Net, n': string, peer: string, n: string)
    ensures At(Apply(s, PeerLost(n', peer)), n).monitors == At(s, n).monitors
  {
  }

  lemma IdleKeepsMonitors(s: Net, step: Step, n: string)
    requires Enabled(s, step) && (step.CrashToRestart? || step.Spawn? || step.Lose?)
    ensures At(Apply(s, step), n).monitors == At(s, n).monitors
  {
  }

  lemma StepKeepsPlaced(s: Net, step: Step, r: Ref)
    requires Enabled(s, step) && Placed(s, r)
    ensures Placed(Apply(s, step), r)
  {
    var t := Apply(s, step);
    forall n, target | SitsAt(t, n, target, r)
      ensures AimedAt(t, r, n, target)
    {
      SitsBefore(s, step, n, target, r);
      if r in s.origin {
        MadeStaysMade(s, step, r);
      }
      assert step.Receive? && Asked(s, n, step.m, r) ==> AimedAt(s, r, n, step.m.target);
    }
    forall n, m | Asked(t, n, m, r)
      ensures AimedAt(t, r, n, m.target)
    {
      AskedBefore(s, step, n, m, r);
      if r in s.origin {
        MadeStaysMade(s, step, r);
      }
    }
    forall n | Outstanding(t, n, r)
      ensures WatchedAsMade(t, n, r)
    {
      WatchBefore(s, step, n, r);
      if r in s.origin {
        MadeStaysMade(s, step, r);
      }
    }
  }

  // ---------- what sets a Down off ----------

  /** The steps that are about this ref: its target dies for good or is swept by a sibling's restart, the
      connection from its node to its peer is lost, or its target is found missing. */
  predicate Fires(s: Net, step: Step, r: Ref) {
    match step
    case DieForGood(n, name) => AimedAt(s, r, n, name)
    case SweptByGroup(n, name) => AimedAt(s, r, n, name)
    case PeerLost(n, peer) => r in s.origin && s.origin[r].home == n && s.origin[r].peer == Some(peer)
    case WatchLocal(n, _, target, ref) => ref == r && target !in At(s, n).alive
    case Receive(n, m) => m.MonitorOp? && m.ref == r && m.target !in At(s, n).alive
    case _ => false
  }

  /** No `Down` for the ref: none enqueued, none scheduled, none on the wire. */
  ghost predicate Quiet(s: Net, r: Ref) {
    r !in s.downs && (forall n :: (n, r) !in s.tasks) && (forall n :: (n, DownOp(r)) !in s.wire)
  }

  lemma NewTask(s: Net, step: Step, n: string, r: Ref)
    requires Enabled(s, step) && (n, r) in Apply(s, step).tasks && (n, r) !in s.tasks
    ensures || (Tells(step) && step.n == n && SitsAt(s, n, step.name, r))
            || (step.PeerLost? && step.n == n && Outstanding(s, n, r) && At(s, n).monitors[r].peer == Some(step.peer))
  {
  }

  lemma NewDownOp(s: Net, step: Step, n: string, r: Ref)
    requires Enabled(s, step) && (n, DownOp(r)) in Apply(s, step).wire && (n, DownOp(r)) !in s.wire
    ensures || (Tells(step) && SitsAt(s, step.n, step.name, r))
            || (step.Receive? && Fires(s, step, r))
  {
    match step {
      case DieForGood(n', name) => assert (n, DownOp(r)) in RemoteDowns(WatchersOf(At(s, n'), name));
      case SweptByGroup(n', name) => assert (n, DownOp(r)) in RemoteDowns(WatchersOf(At(s, n'), name));
      case Receive(n', m) => ReceiveAnswers(s.(wire := s.wire - multiset{(n', m)}), n', m, n, r);
      case _ => OthersSendNoDown(s, step, n, r);
    }
  }

  lemma ReceiveAnswers(s: Net, n': string, m: Message, n: string, r: Ref)
    requires (n, DownOp(r)) in ApplyReceive(s, n', m).wire && (n, DownOp(r)) !in s.wire
    ensures m.MonitorOp? && m.ref == r && m.target !in At(s, n').alive
  {
  }

  lemma OthersSendNoDown(s: Net, step: Step, n: string, r: Ref)
    requires Enabled(s, step) && !Tells(step) && !step.Receive?
    ensures (n, DownOp(r)) in Apply(s, step).wire ==> (n, DownOp(r)) in s.wire
  {
  }

  lemma DeliverEnqueuesOne(s: Net, n: string, ref: Ref, r: Ref)
    requires r in Deliver(s, n, ref).downs && r !in s.downs
    ensures r == ref
  {
  }

  lemma NewDown(s: Net, step: Step, r: Ref)
    requires Enabled(s, step) && r in Apply(s, step).downs && r !in s.downs
    ensures || (step.WatchLocal? && Fires(s, step, r))
            || (step.RunTask? && (step.n, r) in s.tasks)
            || (step.Receive? && (step.n, DownOp(r)) in s.wire)
  {
    match step {
      case WatchLocal(_, _, _, _) =>
      case RunTask(n, ref) => DeliverEnqueuesOne(s.(tasks := s.tasks - multiset{(n, ref)}), n, ref, r);
      case Receive(n, m) =>
        if m.DownOp? {
          DeliverEnqueuesOne(s.(wire := s.wire - multiset{(n, m)}), n, m.ref, r);
        }
      case _ => OtherStepsEnqueueNothing(s, step);
    }
  }

  /** A step that is not about the ref sets nothing off for it, whatever it does to anybody else. */
  lemma StepKeepsQuiet(s: Net, step: Step, r: Ref)
    requires Enabled(s, step) && Placed(s, r) && Quiet(s, r) && !Fires(s, step, r)
    ensures Quiet(Apply(s, step), r)
  {
    var t := Apply(s, step);
    forall n
      ensures (n, r) !in t.tasks && (n, DownOp(r)) !in t.wire
    {
      if (n, r) in t.tasks {
        NewTask(s, step, n, r);
      }
      if (n, DownOp(r)) in t.wire {
        NewDownOp(s, step, n, r);
      }
    }
    if r in t.downs {
      NewDown(s, step, r);
    }
  }

  /** Every `Down`, enqueued or under way, goes back to a step that is about its own ref. */
  lemma {:induction false} EveryDownIsCaused(s: Net, steps: seq<Step>, r: Ref) returns (k: nat)
    requires Legal(s, steps) && Placed(s, r) && Quiet(s, r) && !Quiet(Run(s, steps), r)
    ensures k < |steps| && Legal(s, steps[..k]) && Enabled(Run(s, steps[..k]), steps[k])
    ensures Fires(Run(s, steps[..k]), steps[k], r)
    decreases |steps|
  {
    if Fires(s, steps[0], r) {
      k := 0;
      assert steps[..0] == [];
    } else {
      StepKeepsPlaced(s, steps[0], r);
      StepKeepsQuiet(s, steps[0], r);
      var j := EveryDownIsCaused(Apply(s, steps[0]), steps[1..], r);
      k := j + 1;
      assert steps[..k][1..] == steps[1..][..j] && steps[..k][0] == steps[0];
    }
  }

  predicate NoneFires(s: Net, steps: seq<Step>, r: Ref)
    requires Legal(s, steps)
    decreases |steps|
  {
    steps == [] || (!Fires(s, steps[0], r) && NoneFires(Apply(s, steps[0]), steps[1..], r))
  }

  lemma {:induction false} NoneFiresKeepsQuiet(s: Net, steps: seq<Step>, r: Ref)
    requires Legal(s, steps) && Placed(s, r) && Quiet(s, r) && NoneFires(s, steps, r)
    ensures Quiet(Run(s, steps), r)
    decreases |steps|
  {
    if steps != [] {
      StepKeepsPlaced(s, steps[0], r);
      StepKeepsQuiet(s, steps[0], r);
      NoneFiresKeepsQuiet(Apply(s, steps[0]), steps[1..], r);
    }
  }

  /** No `Down` because of an actor's own restart in place: in every run in which the target of `r` neither dies
      for good nor is swept by a sibling's restart, its peer is not lost and it is found alive, there is none
      for `r`, however often it and all others crash and restart, and whoever else dies or is lost. */
  lemma {:induction false} RestartsAreSilent(steps: seq<Step>, r: Ref)
    requires Legal(Start(), steps) && NoneFires(Start(), steps, r)
    ensures r !in Run(Start(), steps).downs
  {
    NoneFiresKeepsQuiet(Start(), steps, r);
  }

  // ---------- and such a step does lead to one ----------

  lemma RunOne(s: Net, step: Step, rest: seq<Step>)
    requires Enabled(s, step) && Legal(Apply(s, step), rest)
    ensures Legal(s, [step] + rest) && Run(s, [step] + rest) == Run(Apply(s, step), rest)
  {
    assert ([step] + rest)[1..] == rest;
  }

  predicate Awaits(s: Net, n: string, me: string, r: Ref) {
    r in At(s, n).monitors && At(s, n).monitors[r].watcher == me && me in At(s, n).alive
  }

  /** `p` has the request of `me` for its actor `target`, and has answered it if the actor is missing. */
  predicate Watches(s: Net, n: string, me: string, p: string, target: string, r: Ref) {
    && r in WatchersOf(At(s, p), target) && WatchersOf(At(s, p), target)[r] == Watcher(Some(n), me)
    && (target !in At(s, p).alive ==> (n, DownOp(r)) in s.wire)
  }

  lemma RequestSent(s: Net, n: string, me: string, p: string, target: string, r: Ref)
    requires r !in s.origin && me in At(s, n).alive
    ensures var t := Apply(s, WatchRemote(n, me, p, target, r));
            && Awaits(t, n, me, r) && (p, MonitorOp(r, n, me, target)) in t.wire
            && t.downs == s.downs && At(t, p).alive == At(s, p).alive
  {
  }

  lemma RequestRead(s: Net, n: string, me: string, p: string, target: string, r: Ref)
    requires Awaits(s, n, me, r) && (p, MonitorOp(r, n, me, target)) in s.wire
    ensures var t := Apply(s, Receive(p, MonitorOp(r, n, me, target)));
            && Awaits(t, n, me, r) && Watches(t, n, me, p, target, r)
            && t.downs == s.downs && At(t, p).alive == At(s, p).alive
  {
  }

  lemma DeathIsTold(s: Net, n: string, me: string, p: string, target: string, r: Ref)
    requires Awaits(s, n, me, r) && (n, me) != (p, target)
    requires Watches(s, n, me, p, target, r)
    ensures var t := Apply(s, DieForGood(p, target));
            Awaits(t, n, me, r) && (n, DownOp(r)) in t.wire && t.downs == s.downs
  {
    assert (n, DownOp(r)) in RemoteDowns(WatchersOf(At(s, p), target));
  }

  lemma DownArrives(s: Net, n: string, me: string, r: Ref)
    requires Awaits(s, n, me, r) && (n, DownOp(r)) in s.wire
    ensures Enabled(s, Receive(n, DownOp(r))) && Apply(s, Receive(n, DownOp(r))).downs == s.downs + multiset{r}
  {
  }

  /** What is left to happen once the request has been read. */
  lemma TargetReports(s: Net, n: string, me: string, p: string, target: string, r: Ref) returns (steps: seq<Step>)
    requires Awaits(s, n, me, r) && Watches(s, n, me, p, target, r) && (n, me) != (p, target)
    ensures Legal(s, steps) && Run(s, steps).downs == s.downs + multiset{r}
    ensures DieForGood(p, target) in steps <==> target in At(s, p).alive
  {
    var told := Receive(n, DownOp(r));
    if target in At(s, p).alive {
      var t := Apply(s, DieForGood(p, target));
      DeathIsTold(s, n, me, p, target, r);
      DownArrives(t, n, me, r);
      RunOne(t, told, []);
      RunOne(s, DieForGood(p, target), [told] + []);
      steps := [DieForGood(p, target)] + ([told] + []);
    } else {
      DownArrives(s, n, me, r);
      RunOne(s, told, []);
      steps := [told] + [];
    }
  }

  /** A monitor on an actor of another node leads to one `Down` as soon as its messages are delivered: when the
      actor is gone already, at once, and otherwise when it dies for good. */
  lemma RemoteMonitorReports(s: Net, n: string, me: string, p: string, target: string, r: Ref)
      returns (steps: seq<Step>)
    requires r !in s.origin && me in At(s, n).alive && (n, me) != (p, target)
    ensures Legal(s, steps) && Run(s, steps).downs == s.downs + multiset{r}
    ensures DieForGood(p, target) in steps <==> target in At(s, p).alive
  {
    var ask, read := WatchRemote(n, me, p, target, r), Receive(p, MonitorOp(r, n, me, target));
    var s1 := Apply(s, ask);
    RequestSent(s, n, me, p, target, r);
    var s2 := Apply(s1, read);
    RequestRead(s1, n, me, p, target, r);
    var rest := TargetReports(s2, n, me, p, target, r);
    RunOne(s1, read, rest);
    RunOne(s, ask, [read] + rest);
    steps := [ask] + ([read] + rest);
  }

  // ---------- restarts that are told all the same ----------

  /** A granted restart of the target tells an outstanding watcher if and only if it is a sibling's. */
  lemma RestartTellsIffSwept(s: Net, step: Step, n: string, target: string, r: Ref)
    requires step == CrashToRestart(n, target) || step == SweptByGroup(n, target)
    requires Enabled(s, step) && SitsAt(s, n, target, r) && Quiet(s, r)
    ensures !Quiet(Apply(s, step), r) <==> step.SweptByGroup?
  {
    var ws, t := WatchersOf(At(s, n), target), Apply(s, step);
    if step.SweptByGroup? {
      match ws[r].node {
        case None =>
          assert (n, r) in LocalRefs(ws, n);
          assert (n, r) in t.tasks;
        case Some(home) =>
          assert (home, DownOp(r)) in RemoteDowns(ws);
          assert (home, DownOp(r)) in t.wire;
      }
    }
  }

  predicate NoDeathNoLoss(steps: seq<Step>) {
    forall i :: 0 <= i < |steps| ==> !steps[i].DieForGood? && !steps[i].PeerLost?
  }

  lemma SweepSchedules(s: Net, n: string, me: string, target: string, r: Ref)
    requires At(s, n) == NodeState(map[], map[], {me, target}) && me != target && r !in s.origin
    ensures var t := Apply(s, WatchLocal(n, me, target, r));
            && Enabled(t, SweptByGroup(n, target))
            && var u := Apply(t, SweptByGroup(n, target));
            Awaits(u, n, me, r) && (n, r) in u.tasks
  {
    var t := Apply(s, WatchLocal(n, me, target, r));
    assert (n, r) in LocalRefs(WatchersOf(At(t, n), target), n);
  }

  lemma TaskReports(s: Net, n: string, me: string, r: Ref)
    requires Awaits(s, n, me, r) && (n, r) in s.tasks
    ensures r in Apply(s, RunTask(n, r)).downs
  {
  }

  lemma ToldAndBack(s: Net, n: string, me: string, target: string, r: Ref) returns (steps: seq<Step>)
    requires Awaits(s, n, me, r) && (n, r) in s.tasks
    ensures Legal(s, steps) && NoDeathNoLoss(steps)
    ensures r in Run(s, steps).downs && target in At(Run(s, steps), n).alive
  {
    TaskReports(s, n, me, r);
    var t := Apply(s, RunTask(n, r));
    RunOne(t, Spawn(n, target), []);
    RunOne(s, RunTask(n, r), [Spawn(n, target)] + []);
    steps := [RunTask(n, r)] + ([Spawn(n, target)] + []);
  }

  lemma SweptAndBack(s: Net, n: string, me: string, target: string, r: Ref) returns (steps: seq<Step>)
    requires At(s, n) == NodeState(map[], map[], {me, target}) && me != target && r !in s.origin
    ensures Legal(s, steps) && NoDeathNoLoss(steps)
    ensures r in Run(s, steps).downs && target in At(Run(s, steps), n).alive
  {
    var ask, sweep := WatchLocal(n, me, target, r), SweptByGroup(n, target);
    SweepSchedules(s, n, me, target, r);
    var t := Apply(s, ask);
    var rest := ToldAndBack(Apply(t, sweep), n, me, target, r);
    RunOne(t, sweep, rest);
    RunOne(s, ask, [sweep] + rest);
    steps := [ask] + ([sweep] + rest);
  }

  lemma MissedAndBack(s: Net, n: string, me: string, target: string, r: Ref) returns (steps: seq<Step>)
    requires At(s, n) == NodeState(map[], map[], {me, target}) && me != target && r !in s.origin
    ensures Legal(s, steps) && NoDeathNoLoss(steps) && forall i :: 0 <= i < |steps| ==> !steps[i].SweptByGroup?
    ensures r in Run(s, steps).downs && target in At(Run(s, steps), n).alive
  {
    var crash, ask := CrashToRestart(n, target), WatchLocal(n, me, target, r);
    var t := Apply(s, crash);
    assert At(t, n) == NodeState(map[], map[], {me});
    MissingIsReported(t, n, me, target, r);
    var u := Apply(t, ask);
    RunOne(u, Spawn(n, target), []);
    RunOne(t, ask, [Spawn(n, target)] + []);
    RunOne(s, crash, [ask] + ([Spawn(n, target)] + []));
    steps := [crash] + ([ask] + ([Spawn(n, target)] + []));
  }

  lemma MissingIsReported(s: Net, n: string, me: string, target: string, r: Ref)
    requires me in At(s, n).alive && target !in At(s, n).alive
    ensures r in ApplyWatchLocal(s, n, me, target, r).downs
  {
  }

  lemma BothSpawned(n: string, me: string, target: string)
    ensures var s := Apply(Apply(Start(), Spawn(n, me)), Spawn(n, target));
            At(s, n) == NodeState(map[], map[], {me, target}) && s.origin == map[]
  {
  }

  lemma AfterSpawns(n: string, me: string, target: string, rest: seq<Step>) returns (steps: seq<Step>)
    requires Legal(Apply(Apply(Start(), Spawn(n, me)), Spawn(n, target)), rest)
    ensures steps == [Spawn(n, me), Spawn(n, target)] + rest && Legal(Start(), steps)
    ensures Run(Start(), steps) == Run(Apply(Apply(Start(), Spawn(n, me)), Spawn(n, target)), rest)
  {
    RunOne(Apply(Start(), Spawn(n, me)), Spawn(n, target), rest);
    RunOne(Start(), Spawn(n, me), [Spawn(n, target)] + rest);
    steps := [Spawn(n, me)] + ([Spawn(n, target)] + rest);
  }

  /** A sibling's crash within the budget: the target was found alive, nobody dies for good, no peer is lost,
      the target is back in the end, and its watcher has a `Down`. */
  lemma SweepIsReported(n: string, me: string, target: string, r: Ref) returns (steps: seq<Step>)
    requires me != target
    ensures Legal(Start(), steps) && NoDeathNoLoss(steps)
    ensures var s := Run(Start(), steps); r in s.downs && target in At(s, n).alive
  {
    BothSpawned(n, me, target);
    var rest := SweptAndBack(Apply(Apply(Start(), Spawn(n, me)), Spawn(n, target)), n, me, target, r);
    steps := AfterSpawns(n, me, target, rest);
  }

  /** Nobody dies for good, is swept or loses a peer, yet there is a `Down`: the target was asked for between
      the crash and the restart of its generation, and is alive again in the end. */
  lemma RestartGapIsReported(n: string, me: string, target: string, r: Ref) returns (steps: seq<Step>)
    requires me != target
    ensures Legal(Start(), steps) && NoDeathNoLoss(steps) && forall i :: 0 <= i < |steps| ==> !steps[i].SweptByGroup?
    ensures var s := Run(Start(), steps); r in s.downs && target in At(s, n).alive
  {
    BothSpawned(n, me, target);
    var rest := MissedAndBack(Apply(Apply(Start(), Spawn(n, me)), Spawn(n, target)), n, me, target, r);
    steps := AfterSpawns(n, me, target, rest);
  }

  // ---------- lost peers ----------

  lemma LossSchedules(s: Net, n: string, me: string, p: string, r: Ref)
    requires Awaits(s, n, me, r) && At(s, n).monitors[r].peer == Some(p)
    ensures var t := Apply(s, PeerLost(n, p)); Awaits(t, n, me, r) && (n, r) in t.tasks && t.downs == s.downs
  {
    assert r in WatchesOn(At(s, n), p);
  }

  lemma TaskAddsDown(s: Net, n: string, me: string, r: Ref)
    requires Awaits(s, n, me, r) && (n, r) in s.tasks
    ensures Apply(s, RunTask(n, r)).downs == s.downs + multiset{r}
  {
  }

  /** A lost peer does lead to a `Down` for every outstanding monitor on one of its actors. */
  lemma LostPeerReports(s: Net, n: string, me: string, p: string, r: Ref) returns (steps: seq<Step>)
    requires Awaits(s, n, me, r) && At(s, n).monitors[r].peer == Some(p)
    ensures steps == [PeerLost(n, p), RunTask(n, r)] && Legal(s, steps) && Run(s, steps).downs == s.downs + multiset{r}
  {
    LossSchedules(s, n, me, p, r);
    var t := Apply(s, PeerLost(n, p));
    TaskAddsDown(t, n, me, r);
    RunOne(t, RunTask(n, r), []);
    RunOne(s, PeerLost(n, p), [RunTask(n, r)] + []);
    steps := [PeerLost(n, p)] + ([RunTask(n, r)] + []);
  }

  /** ... and makes the node forget exactly the watchers that sit on it. */
  lemma LostPeerWatchersGo(s: Net, n: string, p: string, target: string, r: Ref)
    ensures var t := Apply(s, PeerLost(n, p));
            SitsAt(t, n, target, r) <==> SitsAt(s, n, target, r) && WatchersOf(At(s, n), target)[r].node != Some(p)
  {
  }

  /** A demonitored ref is in the watcher table no more: at once for a target of this node, otherwise when the
      request has been read. */
  lemma DemonitorForgetsWatcher(s: Net, n: string, r: Ref)
    requires r in At(s, n).monitors
    ensures var x, t := At(s, n).monitors[r], Apply(s, Unwatch(n, r));
            && !Outstanding(t, n, r)
            && (x.peer.None? ==> !SitsAt(t, n, x.target, r))
            && (x.peer.Some? ==>
                  && (x.peer.value, DemonitorOp(r, x.target)) in t.wire
                  && !SitsAt(Apply(t, Receive(x.peer.value, DemonitorOp(r, x.target))), x.peer.value, x.target, r))
  {
  }
}
