/** Runs of the registry over any number of nodes. */
module RegistryNet {
  import opened Registry

  /** `flight`: messages on their way, as (receiver, message). `snapshots`: snapshot tasks not run yet, as
      (sender, receiver). `claimed`: history, every (name, owner) a `register_name` call ever succeeded with. */
  datatype Net = Net(
    registry: map<string, Names>, peers: map<string, set<string>>,
    flight: multiset<(string, Message)>, snapshots: multiset<(string, string)>, claimed: set<(string, Owner)>)

  function Start(): Net {
    Net(map[], map[], multiset{}, multiset{}, {})
  }

  datatype Step =
    | Register(n: string, name: string, actor: string)
    | Unregister(n: string, name: string, actor: string)
    | EndGeneration(n: string, actor: string)
    | Connect(n: string, p: string)
    | TakeSnapshot(n: string, p: string)
    | Disconnect(n: string, p: string)
    | Deliver(to: string, m: Message)
    | Lose(to: string, m: Message)

  function NamesAt(s: Net, n: string): Names {
    if n in s.registry then s.registry[n] else map[]
  }

  function PeersAt(s: Net, n: string): set<string> {
    if n in s.peers then s.peers[n] else {}
  }

  predicate Knows(s: Net, n: string, name: string, owner: Owner) {
    name in NamesAt(s, n) && NamesAt(s, n)[name] == owner
  }

  predicate Enabled(s: Net, step: Step) {
    match step
    case TakeSnapshot(n, p) => (n, p) in s.snapshots
    case Deliver(to, m) => (to, m) in s.flight
    case Lose(to, m) => (to, m) in s.flight
    case _ => true
  }

  function Sending(s: Net, n: string, e: Effect): Net {
    s.(registry := s.registry[n := e.names], flight := s.flight + e.sends)
  }

  function Apply(s: Net, step: Step): Net
    requires Enabled(s, step)
  {
    match step
    case Register(n, name, actor) =>
      var me := Owner(n, actor);
      Sending(s, n, Registered(NamesAt(s, n), PeersAt(s, n), name, me))
        .(claimed := if Refuses(NamesAt(s, n), name, me) then s.claimed else s.claimed + {(name, me)})
    case Unregister(n, name, actor) => Sending(s, n, Unregistered(NamesAt(s, n), PeersAt(s, n), name, Owner(n, actor)))
    case EndGeneration(n, actor) => Sending(s, n, Ended(NamesAt(s, n), PeersAt(s, n), Owner(n, actor)))
    case Connect(n, p) =>
      s.(peers := s.peers[n := PeersAt(s, n) + {p}], snapshots := s.snapshots + multiset{(n, p)})
    case TakeSnapshot(n, p) =>
      s.(snapshots := s.snapshots - multiset{(n, p)}, flight := s.flight + SnapshotFor(NamesAt(s, n), p))
    case Disconnect(n, p) =>
      s.(peers := s.peers[n := PeersAt(s, n) - {p}], registry := s.registry[n := DropOrigin(NamesAt(s, n), p)])
    case Deliver(to, m) =>
      s.(flight := s.flight - multiset{(to, m)}, registry := s.registry[to := Receive(NamesAt(s, to), m)])
    case Lose(to, m) => s.(flight := s.flight - multiset{(to, m)})
  }

  predicate Legal(s: Net, steps: seq<Step>)
    decreases |steps|
  {
    steps == [] || (Enabled(s, steps[0]) && Legal(Apply(s, steps[0]), steps[1..]))
  }

  function Run(s: Net, steps: seq<Step>): Net
    requires Legal(s, steps)
    decreases |steps|
  {
    if steps == [] then s else Run(Apply(s, steps[0]), steps[1..])
  }

  // ---------- safety: owners do not change behind a name's back ----------

  lemma StepNeverSwapsOwner(s: Net, step: Step, n: string, name: string)
    requires Enabled(s, step) && name in NamesAt(s, n) && name in NamesAt(Apply(s, step), n)
    ensures NamesAt(Apply(s, step), n)[name] == NamesAt(s, n)[name]
  {
  }

  /** A node's owner for a name changes to another owner only with the name absent at some point in between. */
  lemma {:induction false} OwnerChangesThroughAbsence(s: Net, steps: seq<Step>, n: string, name: string)
      returns (k: nat)
    requires Legal(s, steps) && name in NamesAt(s, n) && name in NamesAt(Run(s, steps), n)
    requires NamesAt(Run(s, steps), n)[name] != NamesAt(s, n)[name]
    ensures 0 < k < |steps| && Legal(s, steps[..k]) && name !in NamesAt(Run(s, steps[..k]), n)
    decreases |steps|
  {
    var t := Apply(s, steps[0]);
    if name !in NamesAt(t, n) {
      k := 1;
      assert steps[..1][1..] == [] && Run(t, []) == t;
    } else {
      StepNeverSwapsOwner(s, steps[0], n, name);
      k := OwnerChangesThroughAbsence(t, steps[1..], n, name);
      k := k + 1;
      assert steps[..k][1..] == steps[1..][..k - 1];
    }
  }

  // ---------- safety: every owner claimed the name ----------

  predicate Mentions(m: Message, name: string, owner: Owner) {
    match m
    case Claim(n, o) => n == name && o == owner
    case Release(n, o) => n == name && o == owner
    case Snapshot(entries) => name in entries && entries[name] == owner
  }

  /** Every owner stored or in flight anywhere was once claimed, and claims are made on their own node. */
  ghost predicate Genuine(s: Net) {
    && (forall n, name :: name in NamesAt(s, n) ==> (name, NamesAt(s, n)[name]) in s.claimed)
    && (forall to, m, name, owner :: (to, m) in s.flight && Mentions(m, name, owner) ==> (name, owner) in s.claimed)
  }

  lemma WhereAnEntryComesFrom(s: Net, step: Step, n: string, name: string)
    requires Enabled(s, step) && name in NamesAt(Apply(s, step), n)
    ensures var owner := NamesAt(Apply(s, step), n)[name];
            || Knows(s, n, name, owner)
            || (name, owner) in Apply(s, step).claimed
            || (step.Deliver? && Mentions(step.m, name, owner))
  {
    match step {
      case Register(n', name', actor) =>
        var e := Registered(NamesAt(s, n), PeersAt(s, n), name', Owner(n, actor));
        assert NamesAt(Apply(s, step), n) == if n == n' then e.names else NamesAt(s, n);
      case Deliver(to, m) =>
        assert NamesAt(Apply(s, step), n) == if n == to then Receive(NamesAt(s, n), m) else NamesAt(s, n);
      case _ => OtherStepsAddNothing(s, step, n, name);
    }
  }

  lemma OtherStepsAddNothing(s: Net, step: Step, n: string, name: string)
    requires Enabled(s, step) && !step.Register? && !step.Deliver? && name in NamesAt(Apply(s, step), n)
    ensures Knows(s, n, name, NamesAt(Apply(s, step), n)[name])
  {
  }

  lemma StoredStaysGenuine(s: Net, step: Step, n: string, name: string)
    requires Genuine(s) && Enabled(s, step) && name in NamesAt(Apply(s, step), n)
    ensures (name, NamesAt(Apply(s, step), n)[name]) in Apply(s, step).claimed
  {
    WhereAnEntryComesFrom(s, step, n, name);
    assert step.Deliver? ==> (step.to, step.m) in s.flight;
    assert s.claimed <= Apply(s, step).claimed;
  }

  lemma FlightStaysGenuine(s: Net, step: Step, to: string, m: Message, name: string, owner: Owner)
    requires Genuine(s) && Enabled(s, step) && (to, m) in Apply(s, step).flight && Mentions(m, name, owner)
    ensures (name, owner) in Apply(s, step).claimed
  {
    if (to, m) !in s.flight {
      match step {
        case Register(n, nm, actor) => assert (to, m) in ToAll(PeersAt(s, n), Claim(nm, Owner(n, actor)));
        case Unregister(n, nm, actor) => assert (to, m) in ToAll(PeersAt(s, n), Release(nm, Owner(n, actor)));
        case EndGeneration(n, actor) =>
          var mine := OwnedBy(NamesAt(s, n), Owner(n, actor));
          assert m.Release? && m.name in mine && m.owner == Owner(n, actor);
        case TakeSnapshot(n, p) => assert m == Snapshot(NamesAt(s, n));
      }
    }
  }

  lemma {:induction false} StepKeepsGenuine(s: Net, step: Step)
    requires Genuine(s) && Enabled(s, step)
    ensures Genuine(Apply(s, step))
  {
    var t := Apply(s, step);
    forall n, name | name in NamesAt(t, n)
      ensures (name, NamesAt(t, n)[name]) in t.claimed
    {
      StoredStaysGenuine(s, step, n, name);
    }
    forall to, m, name, owner | (to, m) in t.flight && Mentions(m, name, owner)
      ensures (name, owner) in t.claimed
    {
      FlightStaysGenuine(s, step, to, m, name, owner);
    }
  }

  /** Every owner any node stores, and every owner any message carries, was claimed earlier by
      `register_name` on its own node; over claims, releases, restarts, snapshots, losses and disconnects. */
  lemma {:induction false} OwnersAreGenuine(s: Net, steps: seq<Step>)
    requires Genuine(s) && Legal(s, steps)
    ensures Genuine(Run(s, steps))
    decreases |steps|
  {
    if steps != [] {
      StepKeepsGenuine(s, steps[0]);
      OwnersAreGenuine(Apply(s, steps[0]), steps[1..]);
    }
  }

  /** What `claimed` records: a `register_name` step on the owner's own node. */
  lemma {:induction false} ClaimsComeFromRegister(s: Net, steps: seq<Step>, name: string, owner: Owner)
    requires Legal(s, steps) && (name, owner) in Run(s, steps).claimed && (name, owner) !in s.claimed
    ensures Register(owner.origin, name, owner.actor) in steps
    decreases |steps|
  {
    var t := Apply(s, steps[0]);
    if (name, owner) !in t.claimed {
      ClaimsComeFromRegister(t, steps[1..], name, owner);
      assert forall x :: x in steps[1..] ==> x in steps;
    } else {
      assert steps[0] in steps;
    }
  }

  /** In every run from an empty cluster, whoever a node or a message names as owner of a name has itself
      called `register_name` for it, on its own node, earlier in the run. */
  lemma EveryOwnerRegistered(steps: seq<Step>, name: string, owner: Owner)
    requires Legal(Start(), steps)
    requires var s := Run(Start(), steps);
             || (exists n :: Knows(s, n, name, owner))
             || (exists to, m :: (to, m) in s.flight && Mentions(m, name, owner))
    ensures Register(owner.origin, name, owner.actor) in steps
  {
    OwnersAreGenuine(Start(), steps);
    ClaimsComeFromRegister(Start(), steps, name, owner);
  }

  // ---------- convergence ----------

  predicate Grows(step: Step) {
    step.Register? || step.Connect? || step.TakeSnapshot? || step.Deliver?
  }

  ghost predicate SoleOwner(s: Net, name: string, owner: Owner) {
    (name, owner) in s.claimed && forall o :: (name, o) in s.claimed ==> o == owner
  }

  predicate Carries(m: Message, name: string, owner: Owner) {
    !m.Release? && Mentions(m, name, owner)
  }

  ghost predicate Coming(s: Net, p: string, name: string, owner: Owner) {
    exists m :: (p, m) in s.flight && Carries(m, name, owner)
  }

  /** The owner's peer has the name, or a message with it is on its way, or a snapshot is still to be taken. */
  ghost predicate Covered(s: Net, p: string, name: string, owner: Owner) {
    Knows(s, p, name, owner) || Coming(s, p, name, owner) || (owner.origin, p) in s.snapshots
  }

  ghost predicate Spreading(s: Net, name: string, owner: Owner) {
    SoleOwner(s, name, owner) ==>
      && Knows(s, owner.origin, name, owner)
      && forall p :: p in PeersAt(s, owner.origin) ==> Covered(s, p, name, owner)
  }

  ghost predicate NoReleases(s: Net) {
    forall to, m :: (to, m) in s.flight ==> !m.Release?
  }

  lemma StepKeepsNoReleases(s: Net, step: Step)
    requires NoReleases(s) && Grows(step) && Enabled(s, step)
    ensures NoReleases(Apply(s, step))
  {
    forall to, m | (to, m) in Apply(s, step).flight
      ensures !m.Release?
    {
      if (to, m) !in s.flight && step.Register? {
        assert (to, m) in ToAll(PeersAt(s, step.n), Claim(step.name, Owner(step.n, step.actor)));
      }
    }
  }

  lemma KnownStaysKnown(s: Net, step: Step, n: string, name: string, owner: Owner)
    requires Grows(step) && Enabled(s, step) && NoReleases(s) && Knows(s, n, name, owner)
    ensures Knows(Apply(s, step), n, name, owner)
  {
  }

  lemma ComingStaysCovered(s: Net, step: Step, p: string, name: string, owner: Owner)
    requires Genuine(s) && Grows(step) && Enabled(s, step) && Coming(s, p, name, owner)
    requires SoleOwner(Apply(s, step), name, owner)
    ensures Covered(Apply(s, step), p, name, owner)
  {
    var t := Apply(s, step);
    var m :| (p, m) in s.flight && Carries(m, name, owner);
    if step == Deliver(p, m) {
      assert name in NamesAt(s, p) ==> (name, NamesAt(s, p)[name]) in t.claimed;
      assert Knows(t, p, name, owner);
    } else {
      assert (p, m) in t.flight;
    }
  }

  lemma SnapshotStaysCovered(s: Net, step: Step, p: string, name: string, owner: Owner)
    requires Grows(step) && Enabled(s, step) && (owner.origin, p) in s.snapshots && Knows(s, owner.origin, name, owner)
    ensures Covered(Apply(s, step), p, name, owner)
  {
    var t := Apply(s, step);
    if step == TakeSnapshot(owner.origin, p) {
      var m := Snapshot(NamesAt(s, owner.origin));
      assert (p, m) in t.flight && Carries(m, name, owner);
    } else {
      assert (owner.origin, p) in t.snapshots;
    }
  }

  lemma PeerStaysCovered(s: Net, step: Step, p: string, name: string, owner: Owner)
    requires Genuine(s) && NoReleases(s) && Grows(step) && Enabled(s, step)
    requires SoleOwner(s, name, owner) && SoleOwner(Apply(s, step), name, owner) && Spreading(s, name, owner)
    requires p in PeersAt(Apply(s, step), owner.origin)
    ensures Covered(Apply(s, step), p, name, owner)
  {
    if p !in PeersAt(s, owner.origin) {
      assert step == Connect(owner.origin, p);
    } else if Knows(s, p, name, owner) {
      KnownStaysKnown(s, step, p, name, owner);
    } else if Coming(s, p, name, owner) {
      ComingStaysCovered(s, step, p, name, owner);
    } else {
      SnapshotStaysCovered(s, step, p, name, owner);
    }
  }

  lemma FirstClaimSpreads(s: Net, step: Step, name: string, owner: Owner)
    requires Enabled(s, step) && (name, owner) !in s.claimed && SoleOwner(Apply(s, step), name, owner)
    ensures Spreading(Apply(s, step), name, owner)
  {
    var t := Apply(s, step);
    assert step == Register(owner.origin, name, owner.actor);
    forall p | p in PeersAt(t, owner.origin)
      ensures Covered(t, p, name, owner)
    {
      var m := Claim(name, owner);
      assert (p, m) in ToAll(PeersAt(s, owner.origin), m);
      assert (p, m) in t.flight && Carries(m, name, owner);
    }
  }

  lemma {:induction false} StepKeepsSpreading(s: Net, step: Step, name: string, owner: Owner)
    requires Genuine(s) && NoReleases(s) && Grows(step) && Enabled(s, step) && Spreading(s, name, owner)
    ensures Spreading(Apply(s, step), name, owner)
  {
    var t := Apply(s, step);
    if SoleOwner(t, name, owner) {
      if (name, owner) !in s.claimed {
        FirstClaimSpreads(s, step, name, owner);
      } else {
        KnownStaysKnown(s, step, owner.origin, name, owner);
        forall p | p in PeersAt(t, owner.origin)
          ensures Covered(t, p, name, owner)
        {
          PeerStaysCovered(s, step, p, name, owner);
        }
      }
    }
  }

  lemma {:induction false} RunKeepsSpreading(s: Net, steps: seq<Step>, name: string, owner: Owner)
    requires Genuine(s) && NoReleases(s) && Spreading(s, name, owner)
    requires Legal(s, steps) && forall i :: 0 <= i < |steps| ==> Grows(steps[i])
    ensures Spreading(Run(s, steps), name, owner)
    decreases |steps|
  {
    if steps != [] {
      StepKeepsSpreading(s, steps[0], name, owner);
      StepKeepsGenuine(s, steps[0]);
      StepKeepsNoReleases(s, steps[0]);
      RunKeepsSpreading(Apply(s, steps[0]), steps[1..], name, owner);
    }
  }

  /** Without releases or disconnects, in whatever order claims and connects came: once nothing is in
      flight, a name with one claimant is held by it on its own node and at every peer of that node. */
  lemma {:induction false} RegistryConverges(steps: seq<Step>, name: string, owner: Owner, p: string)
    requires Legal(Start(), steps) && forall i :: 0 <= i < |steps| ==> Grows(steps[i])
    requires var s := Run(Start(), steps);
             && s.flight == multiset{} && s.snapshots == multiset{}
             && SoleOwner(s, name, owner) && p in PeersAt(s, owner.origin)
    ensures var s := Run(Start(), steps); Knows(s, owner.origin, name, owner) && Knows(s, p, name, owner)
  {
    RunKeepsSpreading(Start(), steps, name, owner);
  }

  // ---------- releases do not converge ----------

  predicate Leads(s: Net, step: Step, t: Net) {
    Enabled(s, step) && Apply(s, step) == t
  }

  lemma {:induction false} FollowStates(states: seq<Net>, steps: seq<Step>)
    requires |states| == |steps| + 1 && forall i :: 0 <= i < |steps| ==> Leads(states[i], steps[i], states[i + 1])
    ensures Legal(states[0], steps) && Run(states[0], steps) == states[|steps|]
    decreases |steps|
  {
    if steps != [] {
      assert Leads(states[0], steps[0], states[1]);
      FollowStates(states[1..], steps[1..]);
    }
  }

  const X := Owner("a", "x")

  /** `a` claims a name and tells its peer `b`; `b` passes it on to its own peer `c` in a snapshot; the
      release reaches `b` only, because `a` and `c` are not peers. */
  function LingeringSteps(): seq<Step> {
    [Connect("a", "b"), TakeSnapshot("a", "b"), Register("a", "n", "x"), Deliver("b", Claim("n", X)), Connect("b", "c"),
     TakeSnapshot("b", "c"), Deliver("c", Snapshot(map["n" := X])), Unregister("a", "n", "x"),
     Deliver("b", Release("n", X))]
  }

  function LingeringStates(): seq<Net> {
    var ab, has := map["a" := {"b"}], map["n" := X];
    var abc := ab["b" := {"c"}];
    [Start(),
     Net(map[], ab, multiset{}, multiset{("a", "b")}, {}),
     Net(map[], ab, multiset{}, multiset{}, {}),
     Net(map["a" := has], ab, multiset{("b", Claim("n", X))}, multiset{}, {("n", X)}),
     Net(map["a" := has, "b" := has], ab, multiset{}, multiset{}, {("n", X)}),
     Net(map["a" := has, "b" := has], abc, multiset{}, multiset{("b", "c")}, {("n", X)}),
     Net(map["a" := has, "b" := has], abc, multiset{("c", Snapshot(has))}, multiset{}, {("n", X)}),
     Net(map["a" := has, "b" := has, "c" := has], abc, multiset{}, multiset{}, {("n", X)}),
     Net(map["a" := map[], "b" := has, "c" := has], abc, multiset{("b", Release("n", X))}, multiset{}, {("n", X)}),
     Net(map["a" := map[], "b" := map[], "c" := has], abc, multiset{}, multiset{}, {("n", X)})]
  }

  lemma ToOne(p: string, m: Message)
    ensures ToAll({p}, m) == {(p, m)}
  {
  }

  /** A step leads to `t` when each component agrees. */
  lemma LeadsTo(s: Net, step: Step, t: Net)
    requires Enabled(s, step)
    requires Apply(s, step).registry == t.registry && Apply(s, step).peers == t.peers
    requires Apply(s, step).flight == t.flight && Apply(s, step).snapshots == t.snapshots &&
             Apply(s, step).claimed == t.claimed
    ensures Leads(s, step, t)
  {
  }

  lemma LingeringConnects()
    ensures forall i :: 0 <= i < 2 ==> Leads(LingeringStates()[i], LingeringSteps()[i], LingeringStates()[i + 1])
  {
    var states, steps := LingeringStates(), LingeringSteps();
    assert PeersAt(states[0], "a") + {"b"} == {"b"};
    LeadsTo(states[0], steps[0], states[1]);
    LeadsTo(states[1], steps[1], states[2]);
  }

  lemma LingeringClaims()
    ensures forall i :: 2 <= i < 4 ==> Leads(LingeringStates()[i], LingeringSteps()[i], LingeringStates()[i + 1])
  {
    var states, steps := LingeringStates(), LingeringSteps();
    ToOne("b", Claim("n", X));
    LeadsTo(states[2], steps[2], states[3]);
    LeadsTo(states[3], steps[3], states[4]);
  }

  lemma LingeringSpreads()
    ensures forall i :: 4 <= i < 6 ==> Leads(LingeringStates()[i], LingeringSteps()[i], LingeringStates()[i + 1])
  {
    var states, steps := LingeringStates(), LingeringSteps();
    assert PeersAt(states[4], "b") + {"c"} == {"c"};
    assert "n" in NamesAt(states[5], "b");
    LeadsTo(states[4], steps[4], states[5]);
    LeadsTo(states[5], steps[5], states[6]);
  }

  lemma LingeringArrives()
    ensures Leads(LingeringStates()[6], LingeringSteps()[6], LingeringStates()[7])
  {
    assert AcceptAll(map[], map["n" := X]) == map["n" := X];
    LeadsTo(LingeringStates()[6], LingeringSteps()[6], LingeringStates()[7]);
  }

  lemma LingeringReleases()
    ensures Leads(LingeringStates()[7], LingeringSteps()[7], LingeringStates()[8])
  {
    var s := LingeringStates()[7];
    assert NamesAt(s, "a") == map["n" := X] && PeersAt(s, "a") == {"b"};
    assert Drop(map["n" := X], "n", X) == map[];
    ToOne("b", Release("n", X));
    assert Apply(s, Unregister("a", "n", "x")).flight == multiset{("b", Release("n", X))};
    LeadsTo(s, Unregister("a", "n", "x"), LingeringStates()[8]);
  }

  lemma LingeringIsReleased()
    ensures Leads(LingeringStates()[8], LingeringSteps()[8], LingeringStates()[9])
  {
    assert Drop(map["n" := X], "n", X) == map[];
    LeadsTo(LingeringStates()[8], LingeringSteps()[8], LingeringStates()[9]);
  }

  lemma Lingering() returns (states: seq<Net>, steps: seq<Step>)
    ensures |states| == 10 && |steps| == 9 && states[0] == Start()
    ensures forall i :: 0 <= i < 9 ==> Leads(states[i], steps[i], states[i + 1])
    ensures var s := states[9];
            && s.flight == multiset{} && s.snapshots == multiset{} && Knows(s, "c", "n", X)
            && "n" !in NamesAt(s, "a") && "n" !in NamesAt(s, "b")
  {
    LingeringConnects();
    LingeringClaims();
    LingeringSpreads();
    LingeringArrives();
    LingeringReleases();
    LingeringIsReleased();
    states, steps := LingeringStates(), LingeringSteps();
  }

  /** With a release, no loss and no conflict, a name can stay registered on a third node for good. */
  lemma ReleasedNameLingers() returns (steps: seq<Step>)
    ensures Legal(Start(), steps)
    ensures var s := Run(Start(), steps);
            && s.flight == multiset{} && s.snapshots == multiset{} && Knows(s, "c", "n", X)
            && "n" !in NamesAt(s, "a") && "n" !in NamesAt(s, "b")
  {
    var states: seq<Net>;
    states, steps := Lingering();
    FollowStates(states, steps);
  }

  // ---------- when a release takes effect everywhere ----------

  ghost predicate Unmentioned(s: Net, name: string, owner: Owner) {
    forall to, m :: (to, m) in s.flight ==> !Mentions(m, name, owner)
  }

  ghost predicate OnlyReleased(s: Net, name: string, owner: Owner) {
    forall to, m :: (to, m) in s.flight && Mentions(m, name, owner) ==> m == Release(name, owner)
  }

  ghost predicate AllDeliver(steps: seq<Step>) {
    forall i :: 0 <= i < |steps| ==> steps[i].Deliver?
  }

  lemma DeliverReleases(s: Net, to: string, m: Message, name: string, owner: Owner, n: string)
    requires (to, m) in s.flight && OnlyReleased(s, name, owner)
    ensures var t := Apply(s, Deliver(to, m));
            && OnlyReleased(t, name, owner)
            && (Knows(t, n, name, owner) <==> Knows(s, n, name, owner) && !(n == to && m == Release(name, owner)))
            && ((n, Release(name, owner)) in s.flight <==>
                  (n, Release(name, owner)) in t.flight || (n == to && m == Release(name, owner)))
  {
  }

  lemma {:induction false} DeliveriesRelease(s: Net, steps: seq<Step>, name: string, owner: Owner, n: string)
    requires Legal(s, steps) && AllDeliver(steps) && OnlyReleased(s, name, owner) &&
             Unmentioned(Run(s, steps), name, owner)
    ensures Knows(Run(s, steps), n, name, owner) <==> Knows(s, n, name, owner) && (n, Release(name, owner)) !in s.flight
    decreases |steps|
  {
    if steps == [] {
      assert (n, Release(name, owner)) in s.flight ==> !Mentions(Release(name, owner), name, owner);
    } else {
      assert steps[0].Deliver?;
      DeliverReleases(s, steps[0].to, steps[0].m, name, owner, n);
      DeliveriesRelease(Apply(s, steps[0]), steps[1..], name, owner, n);
    }
  }

  /** `unregister_name` on `n`, with no message about the claim under way: when its releases have been
      delivered, in whatever order and among whatever else, a node still holds the name for that owner if and
      only if it held it before and is neither `n` nor a peer of `n`. */
  lemma {:induction false} ReleaseReachesPeersOnly(s: Net, n: string, name: string, actor: string, steps: seq<Step>,
      m: string)
    requires var me := Owner(n, actor);
             && Knows(s, n, name, me) && Unmentioned(s, name, me)
             && var t := Apply(s, Unregister(n, name, actor));
             Legal(t, steps) && AllDeliver(steps) && Unmentioned(Run(t, steps), name, me)
    ensures var end, me := Run(Apply(s, Unregister(n, name, actor)), steps), Owner(n, actor);
            Knows(end, m, name, me) <==> Knows(s, m, name, me) && m != n && m !in PeersAt(s, n)
  {
    var me := Owner(n, actor);
    var t := Apply(s, Unregister(n, name, actor));
    assert t.flight == s.flight + multiset(ToAll(PeersAt(s, n), Release(name, me)));
    assert (m, Release(name, me)) !in s.flight by {
      assert Mentions(Release(name, me), name, me);
    }
    DeliveriesRelease(t, steps, name, me, m);
  }

  ghost predicate GoneEverywhere(s: Net, name: string, owner: Owner) {
    forall m :: !Knows(s, m, name, owner)
  }

  /** Nobody but the owner's node and its peers holds the name. */
  ghost predicate HeldNearby(s: Net, name: string, owner: Owner) {
    forall m :: Knows(s, m, name, owner) ==> m == owner.origin || m in PeersAt(s, owner.origin)
  }

  /** ... so the name is gone from the cluster if and only if nobody but the owner's node and its peers held it. */
  lemma ReleasedIffHeldNearby(s: Net, n: string, name: string, actor: string, steps: seq<Step>)
    requires var me := Owner(n, actor);
             && Knows(s, n, name, me) && Unmentioned(s, name, me)
             && var t := Apply(s, Unregister(n, name, actor));
             Legal(t, steps) && AllDeliver(steps) && Unmentioned(Run(t, steps), name, me)
    ensures var end, me := Run(Apply(s, Unregister(n, name, actor)), steps), Owner(n, actor);
            GoneEverywhere(end, name, me) <==> HeldNearby(s, name, me)
  {
    var end, me := Run(Apply(s, Unregister(n, name, actor)), steps), Owner(n, actor);
    forall m
      ensures Knows(end, m, name, me) <==> Knows(s, m, name, me) && m != n && m !in PeersAt(s, n)
    {
      ReleaseReachesPeersOnly(s, n, name, actor, steps, m);
    }
    if !HeldNearby(s, name, me) {
      var m :| Knows(s, m, name, me) && m != n && m !in PeersAt(s, n);
      assert Knows(end, m, name, me);
    }
  }

  // ---------- connecting catches a peer up ----------

  lemma RunTwo(s: Net, a: Step, b: Step, rest: seq<Step>)
    requires Enabled(s, a) && Enabled(Apply(s, a), b) && Legal(Apply(Apply(s, a), b), rest)
    ensures Legal(s, [a, b] + rest) && Run(s, [a, b] + rest) == Run(Apply(Apply(s, a), b), rest)
  {
    assert ([a, b] + rest)[1..] == [b] + rest;
    assert ([b] + rest)[1..] == rest;
  }

  /** The snapshot is scheduled by the connect and taken when its task runs. */
  lemma SnapshotUnderWay(s: Net, n: string, p: string)
    ensures Enabled(s, Connect(n, p)) && Enabled(Apply(s, Connect(n, p)), TakeSnapshot(n, p))
    ensures var t := Apply(Apply(s, Connect(n, p)), TakeSnapshot(n, p));
            && t.registry == s.registry && t.snapshots == s.snapshots && p in PeersAt(t, n)
            && t.flight == s.flight + SnapshotFor(NamesAt(s, n), p)
  {
    var s1 := Apply(s, Connect(n, p));
    assert s1.snapshots - multiset{(n, p)} == s.snapshots;
  }

  /** A new peer is sent the whole table: afterwards it has an owner for every name its new neighbour knows,
      its own where it had one and the neighbour's where it had none, and it forgets nothing. */
  lemma ConnectCatchesUp(s: Net, n: string, p: string) returns (steps: seq<Step>)
    ensures Legal(s, steps)
    ensures var t := Run(s, steps);
            && p in PeersAt(t, n) && t.flight == s.flight && t.snapshots == s.snapshots
            && NamesAt(t, p) == AcceptAll(NamesAt(s, p), NamesAt(s, n))
  {
    SnapshotUnderWay(s, n, p);
    var t := Apply(Apply(s, Connect(n, p)), TakeSnapshot(n, p));
    var last := SnapshotDelivered(s, t, n, p);
    RunTwo(s, Connect(n, p), TakeSnapshot(n, p), last);
    steps := [Connect(n, p), TakeSnapshot(n, p)] + last;
  }

  lemma SnapshotDelivered(s: Net, t: Net, n: string, p: string) returns (last: seq<Step>)
    requires t.registry == s.registry && t.flight == s.flight + SnapshotFor(NamesAt(s, n), p)
    ensures Legal(t, last)
    ensures var u := Run(t, last);
            && u.flight == s.flight && u.snapshots == t.snapshots && u.peers == t.peers
            && NamesAt(u, p) == AcceptAll(NamesAt(s, p), NamesAt(s, n))
  {
    if NamesAt(s, n) == map[] {
      last := [];
      assert AcceptAll(NamesAt(s, p), NamesAt(s, n)) == NamesAt(s, p);
    } else {
      last := [Deliver(p, Snapshot(NamesAt(s, n)))];
      SnapshotArrives(s, t, n, p);
      var u := Apply(t, last[0]);
      assert last[1..] == [] && Legal(u, []) && Run(u, []) == u;
      assert Legal(t, last) && Run(t, last) == u;
    }
  }

  lemma SnapshotArrives(s: Net, t: Net, n: string, p: string)
    requires t.registry == s.registry && t.flight == s.flight + multiset{(p, Snapshot(NamesAt(s, n)))}
    ensures Enabled(t, Deliver(p, Snapshot(NamesAt(s, n))))
    ensures var u := Apply(t, Deliver(p, Snapshot(NamesAt(s, n))));
            && u.flight == s.flight && u.snapshots == t.snapshots && u.peers == t.peers
            && NamesAt(u, p) == AcceptAll(NamesAt(s, p), NamesAt(s, n))
  {
    var m := (p, Snapshot(NamesAt(s, n)));
    assert s.flight + multiset{m} - multiset{m} == s.flight;
  }

  // ---------- names of a lost peer, and of an ended generation ----------

  /** A disconnect makes a node forget exactly the names owned on the lost peer; no other table changes. */
  lemma DisconnectForgets(s: Net, n: string, p: string, m: string, name: string, owner: Owner)
    ensures var t := Apply(s, Disconnect(n, p));
            && (Knows(t, n, name, owner) <==> Knows(s, n, name, owner) && owner.origin != p)
            && (m != n ==> NamesAt(t, m) == NamesAt(s, m))
  {
  }

  ghost predicate NoneFrom(s: Net, n: string, p: string) {
    forall name :: name in NamesAt(s, n) ==> NamesAt(s, n)[name].origin != p
  }

  /** The step brings a message to `n` that names an owner on `p`. */
  ghost predicate BringsFrom(step: Step, n: string, p: string) {
    step.Deliver? && step.to == n && exists name, owner: Owner :: Mentions(step.m, name, owner) && owner.origin == p
  }

  lemma StepKeepsNoneFrom(s: Net, step: Step, n: string, p: string)
    requires NoneFrom(s, n, p) && Enabled(s, step) && n != p && !BringsFrom(step, n, p)
    ensures NoneFrom(Apply(s, step), n, p)
  {
    forall name | name in NamesAt(Apply(s, step), n)
      ensures NamesAt(Apply(s, step), n)[name].origin != p
    {
      NewOwner(s, step, n, name);
    }
  }

  lemma NewOwner(s: Net, step: Step, n: string, name: string)
    requires Enabled(s, step) && name in NamesAt(Apply(s, step), n)
    ensures var owner := NamesAt(Apply(s, step), n)[name];
            || Knows(s, n, name, owner)
            || (step.Register? && owner.origin == n)
            || (step.Deliver? && step.to == n && Mentions(step.m, name, owner))
  {
    match step {
      case Register(n', name', actor) =>
        var e := Registered(NamesAt(s, n), PeersAt(s, n), name', Owner(n, actor));
        assert NamesAt(Apply(s, step), n) == if n == n' then e.names else NamesAt(s, n);
      case Deliver(to, m) =>
        assert NamesAt(Apply(s, step), n) == if n == to then Receive(NamesAt(s, n), m) else NamesAt(s, n);
      case _ => OtherStepsAddNothing(s, step, n, name);
    }
  }

  /** After a disconnect no owner on the lost peer is known, in any run, until a delivery names one again. */
  lemma {:induction false} ForgottenUntilNamed(s: Net, steps: seq<Step>, n: string, p: string)
    requires NoneFrom(s, n, p) && n != p && Legal(s, steps)
    requires forall i :: 0 <= i < |steps| ==> !BringsFrom(steps[i], n, p)
    ensures NoneFrom(Run(s, steps), n, p)
    decreases |steps|
  {
    if steps != [] {
      StepKeepsNoneFrom(s, steps[0], n, p);
      ForgottenUntilNamed(Apply(s, steps[0]), steps[1..], n, p);
    }
  }

  lemma {:induction false} LostPeerStaysForgotten(s: Net, n: string, p: string, steps: seq<Step>)
    requires n != p && Legal(Apply(s, Disconnect(n, p)), steps)
    requires forall i :: 0 <= i < |steps| ==> !BringsFrom(steps[i], n, p)
    ensures NoneFrom(Run(Apply(s, Disconnect(n, p)), steps), n, p)
  {
    ForgottenUntilNamed(Apply(s, Disconnect(n, p)), steps, n, p);
  }

  /** The end of a generation takes exactly its own names from its node and tells every peer of each. */
  lemma EndedGenerationReleases(s: Net, n: string, actor: string, name: string, owner: Owner, p: string)
    ensures var t, me := Apply(s, EndGeneration(n, actor)), Owner(n, actor);
            && (Knows(t, n, name, owner) <==> Knows(s, n, name, owner) && owner != me)
            && (Knows(s, n, name, me) && p in PeersAt(s, n) ==> (p, Release(name, me)) in t.flight)
  {
    var me := Owner(n, actor);
    if Knows(s, n, name, me) && p in PeersAt(s, n) {
      var sent := set q, m | q in PeersAt(s, n) && m in OwnedBy(NamesAt(s, n), me) :: (q, Release(m, me));
      assert (p, Release(name, me)) in sent;
      assert (p, Release(name, me)) in Releases(PeersAt(s, n), OwnedBy(NamesAt(s, n), me), me);
    }
  }
}
