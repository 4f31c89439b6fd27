/** Links between actors, and the cascade that one final death sets off. */
module Links {
  import opened Common

  /** A linked actor; `peer` is `None` for one on this node. */
  datatype Target = Target(peer: Option<string>, name: string)

  type LinkTable = map<string, set<Target>>

  /** `doomed`: driver cancelled with an exit pending, task not unwound yet. `tasks`: exit deliveries to
      local actors that are scheduled but have not run, as (dead actor, target). `exits`: `Exit` messages
      put into mailboxes, as (receiver, dead actor). */
  datatype State = State(
    links: LinkTable, trapping: set<string>, live: set<string>, doomed: set<string>,
    tasks: multiset<(string, string)>, exits: multiset<(string, string)>, dead: set<string>)

  function TargetsOf(links: LinkTable, name: string): set<Target> {
    if name in links then links[name] else {}
  }

  /** The deliveries scheduled when `name` is gone for good. */
  function Notices(links: LinkTable, name: string): set<(string, string)> {
    LocalNotices(TargetsOf(links, name), name)
  }

  /** `_deliver_exit`: a message for a trapping actor, a kill for any other live one. */
  function Deliver(s: State, from: string, to: string): State {
    if to in s.trapping then (if to in s.live then s.(exits := s.exits + multiset{(to, from)}) else s)
    else if to in s.live then s.(doomed := s.doomed + {to})
    else s
  }

  /** The generation of `name` ends for good: its entries are cleared and its targets notified. */
  function Die(s: State, name: string): State {
    s.(links := s.links - {name}, trapping := s.trapping - {name}, live := s.live - {name}, doomed := s.doomed - {name},
       tasks := s.tasks + multiset(Notices(s.links, name)), dead := s.dead + {name})
  }

  function Trap(s: State, me: string, enabled: bool): State {
    s.(trapping := if enabled then s.trapping + {me} else s.trapping - {me})
  }

  // ---------- the node's bookkeeping ----------

  ghost predicate Symmetric(links: LinkTable) {
    forall a, b :: Target(None, b) in TargetsOf(links, a) <==> Target(None, a) in TargetsOf(links, b)
  }

  function WithTarget(links: LinkTable, name: string, target: Target): LinkTable {
    links[name := TargetsOf(links, name) + {target}]
  }

  function WithoutTarget(links: LinkTable, name: string, target: Target): LinkTable {
    if name in links then links[name := links[name] - {target}] else links
  }

  function Linked(links: LinkTable, a: string, b: string): LinkTable {
    WithTarget(WithTarget(links, a, Target(None, b)), b, Target(None, a))
  }

  function Unlinked(links: LinkTable, a: string, b: string): LinkTable {
    WithoutTarget(WithoutTarget(links, a, Target(None, b)), b, Target(None, a))
  }

  lemma LinkEdges(links: LinkTable, a: string, b: string, x: string, y: string)
    ensures var pair := (x == a && y == b) || (x == b && y == a);
            && (Target(None, y) in TargetsOf(Linked(links, a, b), x) <==>
               Target(None, y) in TargetsOf(links, x) || pair)
            && (Target(None, y) in TargetsOf(Unlinked(links, a, b), x) <==>
               Target(None, y) in TargetsOf(links, x) && !pair)
  {
  }

  /** Linking and unlinking two local actors keep the table symmetric; only a generation's end does not. */
  lemma LinkingIsSymmetric(links: LinkTable, a: string, b: string)
    requires Symmetric(links)
    ensures Symmetric(Linked(links, a, b)) && Symmetric(Unlinked(links, a, b))
  {
    forall x, y
      ensures Target(None, y) in TargetsOf(Linked(links, a, b), x) <==>
              Target(None, x) in TargetsOf(Linked(links, a, b), y)
      ensures Target(None, y) in TargetsOf(Unlinked(links, a, b), x) <==>
              Target(None, x) in TargetsOf(Unlinked(links, a, b), y)
    {
      LinkEdges(links, a, b, x, y);
      LinkEdges(links, a, b, y, x);
    }
  }

  function LocalNotices(targets: set<Target>, name: string): set<(string, string)> {
    set x | x in targets && x.peer.None? :: (name, x.name)
  }

  function RemoteNotices(targets: set<Target>, name: string): set<(Target, string)> {
    set x | x in targets && x.peer.Some? :: (x, name)
  }

  lemma NoticesGrow(seen: set<Target>, x: Target, name: string)
    requires x !in seen
    ensures multiset(LocalNotices(seen + {x}, name))
            == multiset(LocalNotices(seen, name)) + if x.peer.None? then multiset{(name, x.name)} else multiset{}
    ensures multiset(RemoteNotices(seen + {x}, name))
            == multiset(RemoteNotices(seen, name)) + if x.peer.None? then multiset{} else multiset{(x, name)}
  {
    var local, remote := LocalNotices(seen, name), RemoteNotices(seen, name);
    if x.peer.None? {
      assert (name, x.name) !in local;
      assert LocalNotices(seen + {x}, name) == local + {(name, x.name)} && RemoteNotices(seen + {x}, name) == remote;
    } else {
      assert LocalNotices(seen + {x}, name) == local && RemoteNotices(seen + {x}, name) == remote + {(x, name)};
    }
  }

  class Node {
    var links: LinkTable
    var trapExit: map<string, bool>
    var live: set<string>     // names with a mailbox and a running driver
    var doomed: set<string>
    var tasks: multiset<(string, string)>
    var exits: multiset<(string, string)>
    ghost var dead: set<string>
    var remoteNotices: multiset<(Target, string)>  // exit messages for other nodes

    ghost function View(): State
      reads this
    {
      State(links, Trapping(trapExit), live, doomed, tasks, exits, dead)
    }

    static function Trapping(flags: map<string, bool>): set<string> {
      set n | n in flags && flags[n]
    }

    constructor ()
      ensures View() == State(map[], {}, {}, {}, multiset{}, multiset{}, {}) && remoteNotices == multiset{}
    {
      links, trapExit, live, doomed, tasks, exits, dead := map[], map[], {}, {}, multiset{}, multiset{}, {};
      remoteNotices := multiset{};
    }

    /** `link` between two local actors; a missing one answers with an immediate exit. */
    method LinkLocal(me: string, other: string)
      modifies this
      ensures var linked := old(View()).(links := Linked(old(links), me, other));
              View() == if other in old(live) then linked else Deliver(linked, other, me)
    {
      links := links[me := TargetsOf(links, me) + {Target(None, other)}];
      links := links[other := TargetsOf(links, other) + {Target(None, me)}];
      if other !in live {
        DeliverExit(other, me);
      }
    }

    method UnlinkLocal(me: string, other: string)
      modifies this`links
      ensures links == Unlinked(old(links), me, other)
    {
      if me in links {
        links := links[me := links[me] - {Target(None, other)}];
      }
      if other in links {
        links := links[other := links[other] - {Target(None, me)}];
      }
    }

    method TrapExit(me: string, enabled: bool)
      modifies this`trapExit
      ensures View() == Trap(old(View()), me, enabled)
    {
      trapExit := trapExit[me := enabled];
    }

    method DeliverExit(from: string, to: string)
      modifies this`exits, this`doomed
      ensures View() == Deliver(old(View()), from, to)
    {
      if to in trapExit && trapExit[to] {
        if to in live {
          exits := exits + multiset{(to, from)};
        }
        return;
      }
      if to in live {
        doomed := doomed + {to};
      }
    }

    method ClearLinks(name: string) returns (targets: set<Target>)
      modifies this`trapExit, this`links
      ensures targets == TargetsOf(old(links), name) && links == old(links) - {name}
      ensures Trapping(trapExit) == Trapping(old(trapExit)) - {name}
    {
      trapExit := trapExit - {name};
      targets := TargetsOf(links, name);
      links := links - {name};
    }

    method NotifyLinks(name: string, targets: set<Target>)
      modifies this`tasks, this`remoteNotices
      ensures tasks == old(tasks) + multiset(LocalNotices(targets, name))
      ensures remoteNotices == old(remoteNotices) + multiset(RemoteNotices(targets, name))
    {
      var todo, scheduled, messages := targets, multiset{}, multiset{};
      ghost var seen: set<Target> := {};
      while todo != {}
        invariant todo !! seen && todo + seen == targets
        invariant tasks == old(tasks) && remoteNotices == old(remoteNotices)
        invariant scheduled == multiset(LocalNotices(seen, name)) && messages == multiset(RemoteNotices(seen, name))
      {
        var x :| x in todo;
        NoticesGrow(seen, x, name);
        todo, seen := todo - {x}, seen + {x};
        if x.peer.None? {
          scheduled := scheduled + multiset{(name, x.name)};
        } else {
          messages := messages + multiset{(x, name)};
        }
      }
      assert seen == targets;
      tasks, remoteNotices := tasks + scheduled, remoteNotices + messages;
    }

    /** The unwinding of an actor whose supervisor does not restart it. */
    method EndForGood(name: string)
      modifies this
      ensures View() == Die(old(View()), name)
      ensures remoteNotices == old(remoteNotices) + multiset(RemoteNotices(TargetsOf(old(links), name), name))
    {
      live := live - {name};
      var targets := ClearLinks(name);
      doomed := doomed - {name};
      dead := dead + {name};
      NotifyLinks(name, targets);
    }
  }

  // ---------- the cascade ----------

  datatype Step = RunTask(from: string, to: string) | Unwind(name: string)

  predicate Enabled(s: State, step: Step) {
    match step
    case RunTask(from, to) => (from, to) in s.tasks
    case Unwind(name) => name in s.doomed
  }

  function Apply(s: State, step: Step): State
    requires Enabled(s, step)
  {
    match step
    case RunTask(from, to) => Deliver(s.(tasks := s.tasks - multiset{(from, to)}), from, to)
    case Unwind(name) => Die(s, name)
  }

  predicate Legal(s: State, steps: seq<Step>)
    decreases |steps|
  {
    steps == [] || (Enabled(s, steps[0]) && Legal(Apply(s, steps[0]), steps[1..]))
  }

  function Run(s: State, steps: seq<Step>): State
    requires Legal(s, steps)
    decreases |steps|
  {
    if steps == [] then s else Run(Apply(s, steps[0]), steps[1..])
  }

  /** A node at rest: any links, any trap flags, nothing under way. */
  ghost predicate AtRest(s: State) {
    s.doomed == {} && s.tasks == multiset{} && s.exits == multiset{} && s.dead == {}
  }

  ghost predicate Edge(s0: State, a: string, b: string) {
    Target(None, b) in TargetsOf(s0.links, a)
  }

  /** A way from the first dead actor to another: every hop is a link to a live actor that does not trap exits. */
  ghost predicate IsWay(s0: State, first: string, way: seq<string>) {
    && way != [] && way[0] == first
    && forall i :: 0 < i < |way| ==> Edge(s0, way[i - 1], way[i]) && way[i] in s0.live && way[i] !in s0.trapping
  }

  ghost predicate Reached(s0: State, first: string, name: string) {
    exists way :: IsWay(s0, first, way) && way[|way| - 1] == name
  }

  lemma ExtendWay(s0: State, first: string, a: string, b: string)
    requires Reached(s0, first, a) && Edge(s0, a, b) && b in s0.live && b !in s0.trapping
    ensures Reached(s0, first, b)
  {
    var way :| IsWay(s0, first, way) && way[|way| - 1] == a;
    var longer := way + [b];
    assert IsWay(s0, first, longer) && longer[|longer| - 1] == b;
  }

  /** Dead and doomed actors are reached, and everything else about the others is as it was. */
  ghost predicate Settled(s0: State, first: string, s: State) {
    && s.links == s0.links - s.dead && s.trapping == s0.trapping - s.dead && s.live == s0.live - s.dead
    && first in s.dead
    && s.doomed <= s.live - s.trapping
    && (forall n :: n in s.dead || n in s.doomed ==> Reached(s0, first, n))
    && (forall n :: n in s.dead && n in s0.trapping ==> n == first)
  }

  /** The delivery from dead actor `d` to its target `t` is scheduled, or it has had its one effect. */
  ghost predicate Accounted(s0: State, first: string, s: State, d: string, t: string) {
    if d in s.dead && Edge(s0, d, t) then
      (s.tasks[(d, t)] == 1 && s.exits[(t, d)] == 0) ||
      (s.tasks[(d, t)] == 0 &&
       if t in s0.live && t in s0.trapping && t != first then s.exits[(t, d)] == 1
       else s.exits[(t, d)] == 0 && (t in s0.live ==> t in s.doomed || t in s.dead))
    else s.tasks[(d, t)] == 0 && s.exits[(t, d)] == 0
  }

  ghost predicate Inv(s0: State, first: string, s: State) {
    Settled(s0, first, s) && forall d, t :: Accounted(s0, first, s, d, t)
  }

  lemma NoticesAre(links: LinkTable, n: string, d: string, t: string)
    ensures multiset(Notices(links, n))[(d, t)] == if d == n && Target(None, t) in TargetsOf(links, n) then 1 else 0
  {
  }

  lemma FirstDeath(s0: State, first: string)
    requires AtRest(s0) && first in s0.live
    ensures Inv(s0, first, Die(s0, first))
  {
    var s := Die(s0, first);
    assert IsWay(s0, first, [first]) && [first][|[first]| - 1] == first;
    forall d, t
      ensures Accounted(s0, first, s, d, t)
    {
      NoticesAre(s0.links, first, d, t);
    }
  }

  lemma UnwindKeepsInv(s0: State, first: string, s: State, n: string)
    requires Inv(s0, first, s) && n in s.doomed
    ensures Inv(s0, first, Die(s, n))
  {
    var s1 := Die(s, n);
    forall d, t
      ensures Accounted(s0, first, s1, d, t)
    {
      assert Accounted(s0, first, s, d, t);
      NoticesAre(s.links, n, d, t);
    }
  }

  lemma TaskKeepsSettled(s0: State, first: string, s: State, d: string, t: string)
    requires Inv(s0, first, s) && (d, t) in s.tasks
    ensures Settled(s0, first, Apply(s, RunTask(d, t)))
  {
    assert Accounted(s0, first, s, d, t);
    if t in s.live && t !in s.trapping {
      ExtendWay(s0, first, d, t);
    }
  }

  lemma TaskKeepsInv(s0: State, first: string, s: State, d: string, t: string)
    requires Inv(s0, first, s) && (d, t) in s.tasks
    ensures Inv(s0, first, Apply(s, RunTask(d, t)))
  {
    TaskKeepsSettled(s0, first, s, d, t);
    var s1 := Apply(s, RunTask(d, t));
    assert Accounted(s0, first, s, d, t);
    forall d', t'
      ensures Accounted(s0, first, s1, d', t')
    {
      assert Accounted(s0, first, s, d', t');
    }
  }

  lemma {:induction false} RunKeepsInv(s0: State, first: string, s: State, steps: seq<Step>)
    requires Inv(s0, first, s) && Legal(s, steps)
    ensures Inv(s0, first, Run(s, steps))
    decreases |steps|
  {
    if steps != [] {
      match steps[0] {
        case RunTask(d, t) => TaskKeepsInv(s0, first, s, d, t);
        case Unwind(n) => UnwindKeepsInv(s0, first, s, n);
      }
      RunKeepsInv(s0, first, Apply(s, steps[0]), steps[1..]);
    }
  }

  lemma {:induction false} WayIsDead(s0: State, first: string, s: State, way: seq<string>, i: nat)
    requires Inv(s0, first, s) && s.tasks == multiset{} && s.doomed == {} && IsWay(s0, first, way) && i < |way|
    ensures way[i] in s.dead
  {
    if i > 0 {
      WayIsDead(s0, first, s, way, i - 1);
      assert Accounted(s0, first, s, way[i - 1], way[i]);
    }
  }

  /** When a cascade is over, exactly the actors reached through non-trapping ones are dead, and every
      surviving trapping actor has exactly one `Exit` per dead actor that was linked to it. */
  lemma CascadeOutcome(s0: State, first: string, steps: seq<Step>)
    requires AtRest(s0) && first in s0.live && Legal(Die(s0, first), steps)
    requires var s := Run(Die(s0, first), steps); s.tasks == multiset{} && s.doomed == {}
    ensures var s := Run(Die(s0, first), steps);
            && (forall n :: n in s.dead <==> Reached(s0, first, n))
            && s.live == s0.live - s.dead
            && (forall t, d :: t in s.live && t in s0.trapping ==>
                  s.exits[(t, d)] == if d in s.dead && Edge(s0, d, t) then 1 else 0)
  {
    var s := Run(Die(s0, first), steps);
    FirstDeath(s0, first);
    RunKeepsInv(s0, first, Die(s0, first), steps);
    forall n | Reached(s0, first, n)
      ensures n in s.dead
    {
      var way :| IsWay(s0, first, way) && way[|way| - 1] == n;
      WayIsDead(s0, first, s, way, |way| - 1);
    }
    forall t, d | t in s.live && t in s0.trapping
      ensures s.exits[(t, d)] == if d in s.dead && Edge(s0, d, t) then 1 else 0
    {
      assert Accounted(s0, first, s, d, t);
    }
  }

  /** `trap_exit` shields: at no point of any cascade is the caller dead or doomed, and nobody dies who would
      not have died without it. */
  lemma {:induction false} TrappingShields(s0: State, first: string, me: string, steps: seq<Step>)
    requires AtRest(s0) && first in s0.live && me in s0.live && me != first
    requires Legal(Die(Trap(s0, me, true), first), steps)
    ensures var s := Run(Die(Trap(s0, me, true), first), steps);
            me in s.live && me !in s.doomed && forall n :: n in s.dead ==> n != me && Reached(s0, first, n)
  {
    var s1 := Trap(s0, me, true);
    var s := Run(Die(s1, first), steps);
    FirstDeath(s1, first);
    RunKeepsInv(s1, first, Die(s1, first), steps);
    forall n | n in s.dead
      ensures n != me && Reached(s0, first, n)
    {
      var way :| IsWay(s1, first, way) && way[|way| - 1] == n;
      assert IsWay(s0, first, way);
    }
  }

  /** Without trapping the caller goes down with whoever it is linked to. */
  lemma UntrappedFollows(s0: State, first: string, me: string, steps: seq<Step>)
    requires AtRest(s0) && first in s0.live && me in s0.live && me != first && Edge(s0, first, me)
    requires Legal(Die(Trap(s0, me, false), first), steps)
    requires var s := Run(Die(Trap(s0, me, false), first), steps); s.tasks == multiset{} && s.doomed == {}
    ensures me in Run(Die(Trap(s0, me, false), first), steps).dead
  {
    var s1 := Trap(s0, me, false);
    CascadeOutcome(s1, first, steps);
    var way := [first, me];
    assert IsWay(s1, first, way) && way[|way| - 1] == me;
    assert Reached(s1, first, me);
  }

  // ---------- the cascade ends ----------

  function Weight(links: LinkTable, n: string): nat {
    1 + |Notices(links, n)|
  }

  ghost function Load(links: LinkTable, names: set<string>): nat {
    if names == {} then 0
    else
      var n :| n in names;
      Weight(links, n) + Load(links, names - {n})
  }

  lemma {:induction false} LoadRemove(links: LinkTable, names: set<string>, x: string)
    requires x in names
    ensures Load(links, names) == Weight(links, x) + Load(links, names - {x})
    decreases |names|
  {
    var n :| n in names && Load(links, names) == Weight(links, n) + Load(links, names - {n});
    if n != x {
      LoadRemove(links, names - {n}, x);
      LoadRemove(links, names - {x}, n);
      assert names - {n} - {x} == names - {x} - {n};
    }
  }

  lemma {:induction false} LoadIgnores(links: LinkTable, names: set<string>, x: string)
    requires x !in names
    ensures Load(links - {x}, names) == Load(links, names)
    decreases |names|
  {
    if names != {} {
      var n :| n in names;
      LoadRemove(links, names, n);
      LoadRemove(links - {x}, names, n);
      LoadIgnores(links, names - {n}, x);
    }
  }

  ghost function Work(s: State): nat {
    |s.tasks| + Load(s.links, s.live)
  }

  lemma StepDoesWork(s: State, step: Step)
    requires Enabled(s, step) && s.doomed <= s.live
    ensures Work(Apply(s, step)) < Work(s) && Apply(s, step).doomed <= Apply(s, step).live
  {
    if step.Unwind? {
      LoadRemove(s.links, s.live, step.name);
      LoadIgnores(s.links, s.live - {step.name}, step.name);
    }
  }

  /** No cascade runs for more steps than there are live actors and links among them. */
  lemma {:induction false} CascadeEnds(s: State, steps: seq<Step>)
    requires Legal(s, steps) && s.doomed <= s.live
    ensures |steps| <= Work(s)
    decreases |steps|
  {
    if steps != [] {
      StepDoesWork(s, steps[0]);
      CascadeEnds(Apply(s, steps[0]), steps[1..]);
    }
  }
}
