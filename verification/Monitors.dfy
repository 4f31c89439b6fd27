/** One-way monitors between actors of any nodes, and the `Down` messages they lead to. */
module Monitors {
  import opened Common

  /** The watching side of a monitor; `peer` is the target's node, `None` for our own. */
  datatype Watch = Watch(watcher: string, peer: Option<string>, target: string)

  /** The watched side: who is to be told, and on which node (`None` for our own). */
  datatype Watcher = Watcher(node: Option<string>, name: string)

  type Ref = string

  datatype NodeState = NodeState(monitors: map<Ref, Watch>, watchers: map<string, map<Ref, Watcher>>,
      alive: set<string>)

  datatype Message = MonitorOp(ref: Ref, watcherNode: string, watcher: string, target: string)
                   | DemonitorOp(ref: Ref, target: string)
                   | DownOp(ref: Ref)

  function WatchersOf(n: NodeState, target: string): map<Ref, Watcher> {
    if target in n.watchers then n.watchers[target] else map[]
  }

  function AddWatcher(n: NodeState, target: string, ref: Ref, w: Watcher): NodeState {
    n.(watchers := n.watchers[target := WatchersOf(n, target)[ref := w]])
  }

  function DropWatcher(n: NodeState, target: string, ref: Ref): NodeState {
    if target in n.watchers then n.(watchers := n.watchers[target := n.watchers[target] - {ref}]) else n
  }

  /** `_deliver_down` forgets the monitor; the watcher gets a message if it is still there. */
  function Forget(n: NodeState, ref: Ref): NodeState {
    n.(monitors := n.monitors - {ref})
  }

  predicate Enqueues(n: NodeState, ref: Ref) {
    ref in n.monitors && n.monitors[ref].watcher in n.alive
  }

  function WatchedLocally(n: NodeState, me: string, target: string, ref: Ref): NodeState {
    AddWatcher(n.(monitors := n.monitors[ref := Watch(me, None, target)]), target, ref, Watcher(None, me))
  }

  function WatchedRemotely(n: NodeState, me: string, peer: string, target: string, ref: Ref): NodeState {
    n.(monitors := n.monitors[ref := Watch(me, Some(peer), target)])
  }

  /** `demonitor` of an outstanding ref: the watching side is forgotten, and the watched side if it is ours. */
  function Unwatched(n: NodeState, ref: Ref): NodeState
    requires ref in n.monitors
  {
    var x := n.monitors[ref];
    if x.peer.None? then DropWatcher(Forget(n, ref), x.target, ref) else Forget(n, ref)
  }

  function EndGeneration(n: NodeState, name: string): NodeState {
    n.(watchers := n.watchers - {name}, alive := n.alive - {name})
  }

  function WithoutPeer(ws: map<Ref, Watcher>, peer: string): map<Ref, Watcher> {
    map r | r in ws && ws[r].node != Some(peer) :: ws[r]
  }

  function DropPeer(n: NodeState, peer: string): NodeState {
    n.(watchers := map t | t in n.watchers :: WithoutPeer(n.watchers[t], peer))
  }

  /** The monitors of this node on actors of `peer`. */
  function WatchesOn(n: NodeState, peer: string): set<Ref> {
    set r | r in n.monitors && n.monitors[r].peer == Some(peer)
  }

  class Node {
    const local: string
    var monitors: map<Ref, Watch>
    var watchers: map<string, map<Ref, Watcher>>
    var alive: set<string>                      // names with a mailbox
    var downs: multiset<(string, Ref)>          // `Down` messages put into mailboxes
    var tasks: multiset<Ref>                    // scheduled `_deliver_down` calls
    var outbox: multiset<(string, Message)>     // sends to other nodes

    ghost function View(): NodeState
      reads this
    {
      NodeState(monitors, watchers, alive)
    }

    constructor (local: string)
      ensures this.local == local && View() == NodeState(map[], map[], {})
      ensures downs == multiset{} && tasks == multiset{} && outbox == multiset{}
    {
      this.local, monitors, watchers, alive := local, map[], map[], {};
      downs, tasks, outbox := multiset{}, multiset{}, multiset{};
    }

    method DeliverDown(ref: Ref)
      modifies this`monitors, this`downs
      ensures View() == Forget(old(View()), ref)
      ensures downs == old(downs) + if Enqueues(old(View()), ref) then multiset{(old(monitors)[ref].watcher, ref)}
              else multiset{}
    {
      if ref !in monitors {
        return;
      }
      var watcher := monitors[ref].watcher;
      monitors := monitors - {ref};
      if watcher in alive {
        downs := downs + multiset{(watcher, ref)};
      }
    }

    /** `monitor` on an actor of this node; a missing one is reported at once. */
    method MonitorLocal(me: string, target: string, ref: Ref)
      modifies this`monitors, this`watchers, this`downs
      ensures var n := WatchedLocally(old(View()), me, target, ref);
              && View() == (if target in alive then n else Forget(n, ref))
              && downs == old(downs) + if target !in alive && me in alive then multiset{(me, ref)} else multiset{}
    {
      monitors := monitors[ref := Watch(me, None, target)];
      var ws := if target in watchers then watchers[target] else map[];
      watchers := watchers[target := ws[ref := Watcher(None, me)]];
      if target !in alive {
        DeliverDown(ref);
      }
    }

    method MonitorRemote(me: string, peer: string, target: string, ref: Ref)
      modifies this`monitors, this`outbox
      ensures View() == WatchedRemotely(old(View()), me, peer, target, ref)
      ensures outbox == old(outbox) + multiset{(peer, MonitorOp(ref, local, me, target))}
    {
      monitors := monitors[ref := Watch(me, Some(peer), target)];
      outbox := outbox + multiset{(peer, MonitorOp(ref, local, me, target))};
    }

    method Demonitor(ref: Ref)
      modifies this`monitors, this`watchers, this`outbox
      ensures ref !in old(monitors) ==> View() == old(View()) && outbox == old(outbox)
      ensures ref in old(monitors) ==>
                var x := old(monitors)[ref];
                && View() == Unwatched(old(View()), ref)
                && outbox == old(outbox) + if x.peer.Some? then multiset{(x.peer.value, DemonitorOp(ref, x.target))}
                   else multiset{}
    {
      if ref !in monitors {
        return;
      }
      var x := monitors[ref];
      monitors := monitors - {ref};
      match x.peer {
        case None =>
          if x.target in watchers {
            watchers := watchers[x.target := watchers[x.target] - {ref}];
          }
        case Some(peer) => outbox := outbox + multiset{(peer, DemonitorOp(ref, x.target))};
      }
    }

    /** A generation ends; its watchers are returned for a caller that knows it is not coming back. */
    method ClearMonitors(name: string) returns (watching: map<Ref, Watcher>)
      modifies this`watchers, this`alive
      ensures watching == WatchersOf(old(View()), name) && View() == EndGeneration(old(View()), name)
    {
      watching := if name in watchers then watchers[name] else map[];
      watchers := watchers - {name};
      alive := alive - {name};
    }

    /** `_notify_monitors`: one delivery per watcher of this node, one message per watcher elsewhere. */
    method NotifyMonitors(watching: map<Ref, Watcher>)
      modifies this`tasks, this`outbox
      ensures tasks == old(tasks) + multiset(LocalWatching(watching, watching.Keys))
      ensures outbox == old(outbox) + multiset(RemoteDowns(watching))
    {
      var todo, scheduled, messages := watching.Keys, multiset{}, multiset{};
      ghost var seen: set<Ref> := {};
      while todo != {}
        invariant todo !! seen && todo + seen == watching.Keys
        invariant tasks == old(tasks) && outbox == old(outbox)
        invariant scheduled == multiset(LocalWatching(watching, seen)) &&
                  messages == multiset(RemoteWatching(watching, seen))
      {
        var ref :| ref in todo;
        WatchingGrows(watching, seen, ref);
        todo, seen := todo - {ref}, seen + {ref};
        match watching[ref].node {
          case None => scheduled := scheduled + multiset{ref};
          case Some(node) => messages := messages + multiset{(node, DownOp(ref))};
        }
      }
      assert seen == watching.Keys && RemoteWatching(watching, seen) == RemoteDowns(watching);
      tasks, outbox := tasks + scheduled, outbox + messages;
    }

    /** `_MonitorActor.receive`: a request from another node. */
    method ReceiveRequest(m: Message)
      modifies this`monitors, this`watchers, this`downs, this`outbox
      ensures m.MonitorOp? ==>
                && View() == AddWatcher(old(View()), m.target, m.ref, Watcher(Some(m.watcherNode), m.watcher)) &&
                   downs == old(downs)
                && outbox == old(outbox) + if m.target in alive then multiset{}
                   else multiset{(m.watcherNode, DownOp(m.ref))}
      ensures m.DemonitorOp? ==>
                View() == DropWatcher(old(View()), m.target, m.ref) && downs == old(downs) && outbox == old(outbox)
      ensures m.DownOp? ==>
                && View() == Forget(old(View()), m.ref) && outbox == old(outbox)
                && downs == old(downs) + if Enqueues(old(View()), m.ref)
                   then multiset{(old(monitors)[m.ref].watcher, m.ref)} else multiset{}
    {
      match m {
        case MonitorOp(ref, watcherNode, watcher, target) =>
          var ws := if target in watchers then watchers[target] else map[];
          watchers := watchers[target := ws[ref := Watcher(Some(watcherNode), watcher)]];
          if target !in alive {
            outbox := outbox + multiset{(watcherNode, DownOp(ref))};
          }
        case DemonitorOp(ref, target) =>
          if target in watchers {
            watchers := watchers[target := watchers[target] - {ref}];
          }
        case DownOp(ref) => DeliverDown(ref);
      }
    }

    method PeerDisconnected(peer: string)
      modifies this`watchers, this`tasks
      ensures View() == DropPeer(old(View()), peer)
      ensures tasks == old(tasks) + multiset(WatchesOn(old(View()), peer))
    {
      watchers := PopPeerEverywhere(watchers, peer);
      var lost := WatchesLost(monitors, peer);
      assert WatchesOn(old(View()), peer) == LostTo(monitors, monitors.Keys, peer);
      tasks := tasks + lost;
    }
  }

  method PopPeerEverywhere(watchers: map<string, map<Ref, Watcher>>, peer: string)
      returns (left: map<string, map<Ref, Watcher>>)
    ensures left == map t | t in watchers :: WithoutPeer(watchers[t], peer)
  {
    left := map[];
    var targets := watchers.Keys;
    while targets != {}
      invariant targets <= watchers.Keys
      invariant left == map t | t in watchers && t !in targets :: WithoutPeer(watchers[t], peer)
    {
      var t :| t in targets;
      var ws := PopPeer(watchers[t], peer);
      left, targets := left[t := ws], targets - {t};
    }
  }

  /** One delivery for every watch on an actor of `peer`. */
  method WatchesLost(monitors: map<Ref, Watch>, peer: string) returns (scheduled: multiset<Ref>)
    ensures scheduled == multiset(LostTo(monitors, monitors.Keys, peer))
  {
    var todo := monitors.Keys;
    scheduled := multiset{};
    ghost var seen: set<Ref> := {};
    while todo != {}
      invariant todo !! seen && todo + seen == monitors.Keys
      invariant scheduled == multiset(LostTo(monitors, seen, peer))
    {
      var ref :| ref in todo;
      LostGrows(monitors, seen, ref, peer);
      todo, seen := todo - {ref}, seen + {ref};
      if monitors[ref].peer == Some(peer) {
        scheduled := scheduled + multiset{ref};
      }
    }
    assert seen == monitors.Keys;
  }

  function LostTo(monitors: map<Ref, Watch>, refs: set<Ref>, peer: string): set<Ref> {
    set r | r in refs && r in monitors && monitors[r].peer == Some(peer)
  }

  lemma LostGrows(monitors: map<Ref, Watch>, refs: set<Ref>, ref: Ref, peer: string)
    requires ref in monitors && ref !in refs
    ensures multiset(LostTo(monitors, refs + {ref}, peer))
            == multiset(LostTo(monitors, refs, peer)) + if monitors[ref].peer == Some(peer) then multiset{ref}
                else multiset{}
  {
    assert LostTo(monitors, refs + {ref}, peer)
        == LostTo(monitors, refs, peer) + if monitors[ref].peer == Some(peer) then {ref} else {};
  }

  /** Drops the watchers that sit on `peer`. */
  method PopPeer(ws: map<Ref, Watcher>, peer: string) returns (left: map<Ref, Watcher>)
    ensures left == WithoutPeer(ws, peer)
  {
    left := ws;
    var goneRefs := set r | r in ws && ws[r].node == Some(peer);
    ghost var gone: set<Ref> := {};
    while goneRefs != {}
      invariant goneRefs + gone == (set r | r in ws && ws[r].node == Some(peer)) && left == ws - gone
    {
      var r :| r in goneRefs;
      left := left - {r};
      goneRefs, gone := goneRefs - {r}, gone + {r};
    }
  }

  /** Those of `refs` whose watcher is on this node, and the messages for the others. */
  function LocalWatching(ws: map<Ref, Watcher>, refs: set<Ref>): set<Ref> {
    set r | r in refs && r in ws && ws[r].node.None?
  }

  function RemoteWatching(ws: map<Ref, Watcher>, refs: set<Ref>): set<(string, Message)> {
    set r | r in refs && r in ws && ws[r].node.Some? :: (ws[r].node.value, DownOp(r))
  }

  lemma WatchingGrows(ws: map<Ref, Watcher>, refs: set<Ref>, ref: Ref)
    requires ref in ws && ref !in refs
    ensures multiset(LocalWatching(ws, refs + {ref}))
            == multiset(LocalWatching(ws, refs)) + if ws[ref].node.None? then multiset{ref} else multiset{}
    ensures multiset(RemoteWatching(ws, refs + {ref}))
            == multiset(RemoteWatching(ws, refs)) + if ws[ref].node.Some?
                then multiset{(ws[ref].node.value, DownOp(ref))} else multiset{}
  {
    assert LocalWatching(ws, refs + {ref}) == LocalWatching(ws, refs) + LocalWatching(ws, {ref});
    assert RemoteWatching(ws, refs + {ref}) == RemoteWatching(ws, refs) + RemoteWatching(ws, {ref});
    assert LocalWatching(ws, {ref}) == if ws[ref].node.None? then {ref} else {};
    assert RemoteWatching(ws, {ref}) == if ws[ref].node.Some? then {(ws[ref].node.value, DownOp(ref))} else {};
    assert LocalWatching(ws, refs) !! LocalWatching(ws, {ref}) && RemoteWatching(ws, refs) !! RemoteWatching(ws, {ref});
  }

  // ---------- any number of nodes ----------

  /** What a ref watches: `target`, on the peer or, without one, on the node the ref was made on. */
  datatype Aim = Aim(home: string, peer: Option<string>, target: string) {
    function Where(): string {
      if peer.Some? then peer.value else home
    }
  }

  /** `tasks`: scheduled deliveries, as (node, ref). `wire`: messages, as (receiver, message). The rest is
      history: `origin` what each ref was made for, `downs` the `Down` messages enqueued, `stopped` the refs
      demonitored on their own node. */
  datatype Net = Net(
    nodes: map<string, NodeState>, tasks: multiset<(string, Ref)>, wire: multiset<(string, Message)>,
    origin: map<Ref, Aim>, downs: multiset<Ref>, stopped: set<Ref>)

  function Start(): Net {
    Net(map[], multiset{}, multiset{}, map[], multiset{}, {})
  }

  /** Three ways for a generation to end. `DieForGood`: it is not coming back. `CrashToRestart`: its own crash,
      or a link's kill, within the budget; nobody is told. `SweptByGroup`: torn down because of a sibling's
      crash within the budget, which looks to it like a shutdown, so its watchers are told all the same.
      After the last two the name leads nowhere until `Spawn` brings the next generation. */
  datatype Step =
    | Spawn(n: string, name: string)
    | WatchLocal(n: string, watcher: string, target: string, ref: Ref)
    | WatchRemote(n: string, watcher: string, peer: string, target: string, ref: Ref)
    | Unwatch(n: string, ref: Ref)
    | DieForGood(n: string, name: string)
    | CrashToRestart(n: string, name: string)
    | SweptByGroup(n: string, name: string)
    | PeerLost(n: string, peer: string)
    | RunTask(n: string, ref: Ref)
    | Receive(n: string, m: Message)
    | Lose(n: string, m: Message)

  /** A generation or a connection ends. */
  predicate Ends(step: Step) {
    step.DieForGood? || step.CrashToRestart? || step.SweptByGroup? || step.PeerLost?
  }

  function At(s: Net, n: string): NodeState {
    if n in s.nodes then s.nodes[n] else NodeState(map[], map[], {})
  }

  function Put(s: Net, n: string, ns: NodeState): Net {
    s.(nodes := s.nodes[n := ns])
  }

  predicate Enabled(s: Net, step: Step) {
    match step
    case WatchLocal(_, _, _, ref) => ref !in s.origin
    case WatchRemote(_, _, _, _, ref) => ref !in s.origin
    case SweptByGroup(n, name) => name in At(s, n).alive
    case RunTask(n, ref) => (n, ref) in s.tasks
    case Receive(n, m) => (n, m) in s.wire
    case Lose(n, m) => (n, m) in s.wire
    case _ => true
  }

  function Deliver(s: Net, n: string, ref: Ref): Net {
    var ns := At(s, n);
    Put(s, n, Forget(ns, ref)).(downs := s.downs + if Enqueues(ns, ref) then multiset{ref} else multiset{})
  }

  function LocalRefs(ws: map<Ref, Watcher>, n: string): set<(string, Ref)> {
    set r | r in ws && ws[r].node.None? :: (n, r)
  }

  function RemoteDowns(ws: map<Ref, Watcher>): set<(string, Message)> {
    set r | r in ws && ws[r].node.Some? :: (ws[r].node.value, DownOp(r))
  }

  function Apply(s: Net, step: Step): Net
    requires Enabled(s, step)
  {
    match step
    case Spawn(n, name) => Put(s, n, At(s, n).(alive := At(s, n).alive + {name}))
    case WatchLocal(n, watcher, target, ref) => ApplyWatchLocal(s, n, watcher, target, ref)
    case WatchRemote(n, watcher, peer, target, ref) =>
      Put(s, n, WatchedRemotely(At(s, n), watcher, peer, target, ref))
        .(origin := s.origin[ref := Aim(n, Some(peer), target)],
          wire := s.wire + multiset{(peer, MonitorOp(ref, n, watcher, target))})
    case Unwatch(n, ref) => ApplyUnwatch(s, n, ref)
    case DieForGood(n, name) => ApplyDeath(s, n, name)
    case CrashToRestart(n, name) => Put(s, n, EndGeneration(At(s, n), name))
    case SweptByGroup(n, name) => ApplyDeath(s, n, name)
    case PeerLost(n, peer) =>
      var refs := WatchesOn(At(s, n), peer);
      Put(s, n, DropPeer(At(s, n), peer)).(tasks := s.tasks + multiset(set r | r in refs :: (n, r)))
    case RunTask(n, ref) => Deliver(s.(tasks := s.tasks - multiset{(n, ref)}), n, ref)
    case Receive(n, m) => ApplyReceive(s.(wire := s.wire - multiset{(n, m)}), n, m)
    case Lose(n, m) => s.(wire := s.wire - multiset{(n, m)})
  }

  function ApplyWatchLocal(s: Net, n: string, watcher: string, target: string, ref: Ref): Net {
    var s1 := Put(s, n, WatchedLocally(At(s, n), watcher, target, ref))
                .(origin := s.origin[ref := Aim(n, None, target)]);
    if target in At(s, n).alive then s1 else Deliver(s1, n, ref)
  }

  function ApplyUnwatch(s: Net, n: string, ref: Ref): Net {
    var ns := At(s, n);
    if ref !in ns.monitors then s
    else
      var x := ns.monitors[ref];
      Put(s, n, Unwatched(ns, ref)).(
        stopped := s.stopped + {ref},
        wire := s.wire + if x.peer.Some? then multiset{(x.peer.value, DemonitorOp(ref, x.target))} else multiset{})
  }

  function ApplyDeath(s: Net, n: string, name: string): Net {
    var ws := WatchersOf(At(s, n), name);
    Put(s, n, EndGeneration(At(s, n), name))
      .(tasks := s.tasks + multiset(LocalRefs(ws, n)), wire := s.wire + multiset(RemoteDowns(ws)))
  }

  function ApplyReceive(s: Net, n: string, m: Message): Net {
    match m
    case MonitorOp(ref, watcherNode, watcher, target) =>
      var s1 := Put(s, n, AddWatcher(At(s, n), target, ref, Watcher(Some(watcherNode), watcher)));
      if target in At(s, n).alive then s1
      else s1.(wire := s.wire + multiset{(watcherNode, DownOp(ref))})
    case DemonitorOp(ref, target) => Put(s, n, DropWatcher(At(s, n), target, ref))
    case DownOp(ref) => Deliver(s, n, ref)
  }

  predicate Legal(s: Net, steps: seq<Step>)
    decreases |steps|
  {
    steps == [] || (Enabled(s, steps[0]) && Legal(Apply(s, steps[0]), steps[1..]))
  }

  function Run(s: Net, steps: seq<Step>): Net
    requires Legal(s, steps)
    decreases |steps|
  {
    if steps == [] then s else Run(Apply(s, steps[0]), steps[1..])
  }

  // ---------- at most one Down, none after demonitor ----------

  predicate Outstanding(s: Net, n: string, ref: Ref) {
    ref in At(s, n).monitors
  }

  /** An outstanding monitor sits on the node it was made on, has not fired and was not stopped. */
  ghost predicate RefInv(s: Net, ref: Ref) {
    && s.downs[ref] <= 1
    && (ref !in s.origin ==> s.downs[ref] == 0 && ref !in s.stopped)
    && (forall n :: Outstanding(s, n, ref) ==>
          ref in s.origin && s.origin[ref].home == n && s.downs[ref] == 0 && ref !in s.stopped)
  }

  /** Nothing but the monitors of one node shrank, and what fired or stopped was outstanding there. */
  lemma ShrinkKeepsRef(s: Net, t: Net, n: string, ref: Ref)
    requires RefInv(s, ref) && t.origin == s.origin
    requires forall n' :: Outstanding(t, n', ref) ==> Outstanding(s, n', ref)
    requires (t.downs[ref] == s.downs[ref] && (ref in t.stopped <==> ref in s.stopped))
             || (t.downs[ref] <= s.downs[ref] + 1 && Outstanding(s, n, ref) && !Outstanding(t, n, ref))
    ensures RefInv(t, ref)
  {
    forall n' | Outstanding(t, n', ref)
      ensures ref in t.origin && t.origin[ref].home == n' && t.downs[ref] == 0 && ref !in t.stopped
    {
      assert Outstanding(s, n', ref);
    }
  }

  lemma DeliverKeepsRef(s: Net, n: string, r: Ref, ref: Ref)
    requires RefInv(s, ref)
    ensures RefInv(Deliver(s, n, r), ref)
    ensures ref in s.stopped || ref !in s.origin ==> Deliver(s, n, r).downs[ref] == s.downs[ref]
  {
    var t := Deliver(s, n, r);
    assert Outstanding(s, n, ref) || t.downs[ref] == s.downs[ref];
    ShrinkKeepsRef(s, t, n, ref);
  }

  lemma ReceiveKeepsRef(s: Net, n: string, m: Message, ref: Ref)
    requires RefInv(s, ref)
    ensures RefInv(ApplyReceive(s, n, m), ref)
    ensures ref in s.stopped ==> ApplyReceive(s, n, m).downs[ref] == s.downs[ref]
  {
    if m.DownOp? {
      DeliverKeepsRef(s, n, m.ref, ref);
    } else {
      ShrinkKeepsRef(s, ApplyReceive(s, n, m), n, ref);
    }
  }

  /** A new ref becomes outstanding on its node and changes nothing for any other. */
  lemma WatchKeepsRef(s: Net, t: Net, aim: Aim, r: Ref, ref: Ref)
    requires RefInv(s, ref) && r !in s.origin && t.origin == s.origin[r := aim]
    requires t.downs == s.downs && t.stopped == s.stopped
    requires forall n' :: Outstanding(t, n', ref) ==> Outstanding(s, n', ref) || (n' == aim.home && ref == r)
    ensures RefInv(t, ref)
  {
    forall n' | Outstanding(t, n', ref)
      ensures ref in t.origin && t.origin[ref].home == n' && t.downs[ref] == 0 && ref !in t.stopped
    {
      assert Outstanding(s, n', ref) || (n' == aim.home && ref == r);
    }
  }

  lemma WatchLocalKeepsRef(s: Net, step: Step, ref: Ref)
    requires RefInv(s, ref) && step.WatchLocal? && Enabled(s, step)
    ensures RefInv(Apply(s, step), ref)
    ensures ref in s.stopped ==> Apply(s, step).downs[ref] == s.downs[ref]
  {
    var WatchLocal(n, watcher, target, r) := step;
    var aim := Aim(n, None, target);
    var s1 := Put(s, n, WatchedLocally(At(s, n), watcher, target, r)).(origin := s.origin[r := aim]);
    WatchKeepsRef(s, s1, aim, r, ref);
    DeliverKeepsRef(s1, n, r, ref);
  }

  lemma WatchRemoteKeepsRef(s: Net, step: Step, ref: Ref)
    requires RefInv(s, ref) && step.WatchRemote? && Enabled(s, step)
    ensures RefInv(Apply(s, step), ref)
    ensures ref in s.stopped ==> Apply(s, step).downs[ref] == s.downs[ref]
  {
    WatchKeepsRef(s, Apply(s, step), Aim(step.n, Some(step.peer), step.target), step.ref, ref);
  }

  lemma RunTaskKeepsRef(s: Net, step: Step, ref: Ref)
    requires RefInv(s, ref) && step.RunTask? && Enabled(s, step)
    ensures RefInv(Apply(s, step), ref)
    ensures ref in s.stopped ==> Apply(s, step).downs[ref] == s.downs[ref]
  {
    var s1 := s.(tasks := s.tasks - multiset{(step.n, step.ref)});
    ShrinkKeepsRef(s, s1, step.n, ref);
    DeliverKeepsRef(s1, step.n, step.ref, ref);
  }

  lemma MessageKeepsRef(s: Net, step: Step, ref: Ref)
    requires RefInv(s, ref) && step.Receive? && Enabled(s, step)
    ensures RefInv(Apply(s, step), ref)
    ensures ref in s.stopped ==> Apply(s, step).downs[ref] == s.downs[ref]
  {
    var s1 := s.(wire := s.wire - multiset{(step.n, step.m)});
    ShrinkKeepsRef(s, s1, step.n, ref);
    ReceiveKeepsRef(s1, step.n, step.m, ref);
  }

  lemma UnwatchKeepsRef(s: Net, step: Step, ref: Ref)
    requires RefInv(s, ref) && step.Unwatch? && Enabled(s, step)
    ensures RefInv(Apply(s, step), ref)
    ensures ref in s.stopped ==> Apply(s, step).downs[ref] == s.downs[ref]
  {
    var t := Apply(s, step);
    assert ref in t.stopped <==> ref in s.stopped || (ref == step.ref && Outstanding(s, step.n, ref));
    ShrinkKeepsRef(s, t, step.n, ref);
  }

  lemma EndingKeepsRef(s: Net, step: Step, ref: Ref)
    requires RefInv(s, ref) && Ends(step) && Enabled(s, step)
    ensures RefInv(Apply(s, step), ref)
    ensures ref in s.stopped ==> Apply(s, step).downs[ref] == s.downs[ref]
  {
    ShrinkKeepsRef(s, Apply(s, step), step.n, ref);
  }

  lemma StepKeepsRef(s: Net, step: Step, ref: Ref)
    requires RefInv(s, ref) && Enabled(s, step)
    ensures RefInv(Apply(s, step), ref)
    ensures ref in s.stopped ==> Apply(s, step).downs[ref] == s.downs[ref]
  {
    match step {
      case WatchLocal(_, _, _, _) => WatchLocalKeepsRef(s, step, ref);
      case WatchRemote(_, _, _, _, _) => WatchRemoteKeepsRef(s, step, ref);
      case Unwatch(_, _) => UnwatchKeepsRef(s, step, ref);
      case RunTask(_, _) => RunTaskKeepsRef(s, step, ref);
      case Receive(_, _) => MessageKeepsRef(s, step, ref);
      case Spawn(_, _) => ShrinkKeepsRef(s, Apply(s, step), step.n, ref);
      case Lose(_, _) => ShrinkKeepsRef(s, Apply(s, step), step.n, ref);
      case _ => EndingKeepsRef(s, step, ref);
    }
  }

  /** For every ref and every interleaving of deaths, remote downs, missing targets, disconnects, restarts,
      losses and demonitors: at most one `Down`, and none once the ref has been stopped. */
  lemma {:induction false} AtMostOneDown(s: Net, steps: seq<Step>, ref: Ref)
    requires RefInv(s, ref) && Legal(s, steps)
    ensures RefInv(Run(s, steps), ref)
    ensures Run(s, steps).downs[ref] <= 1
    ensures ref in s.stopped ==> Run(s, steps).downs[ref] == s.downs[ref]
    decreases |steps|
  {
    if steps != [] {
      StepKeepsRef(s, steps[0], ref);
      assert s.stopped <= Apply(s, steps[0]).stopped;
      AtMostOneDown(Apply(s, steps[0]), steps[1..], ref);
    }
  }

  /** A ref that has been handed out and is outstanding nowhere. */
  ghost predicate Silent(s: Net, ref: Ref) {
    ref in s.origin && forall n :: !Outstanding(s, n, ref)
  }

  lemma WatchLocalTouches(s: Net, n: string, watcher: string, target: string, r: Ref, n': string, ref: Ref)
    requires ref != r
    ensures Outstanding(ApplyWatchLocal(s, n, watcher, target, r), n', ref) ==> Outstanding(s, n', ref)
  {
  }

  lemma ReceiveTouches(s: Net, n: string, m: Message, n': string, ref: Ref)
    ensures Outstanding(ApplyReceive(s, n, m), n', ref) ==> Outstanding(s, n', ref)
  {
  }

  lemma UnwatchTouches(s: Net, n: string, r: Ref, n': string, ref: Ref)
    ensures Outstanding(ApplyUnwatch(s, n, r), n', ref) ==> Outstanding(s, n', ref)
  {
  }

  lemma EndingTouches(s: Net, step: Step, n': string, ref: Ref)
    requires Enabled(s, step) && (Ends(step) || step.Spawn? || step.Lose?)
    ensures Outstanding(Apply(s, step), n', ref) <==> Outstanding(s, n', ref)
  {
  }

  lemma OutstandingBefore(s: Net, step: Step, n: string, ref: Ref)
    requires Enabled(s, step) && ref in s.origin && Outstanding(Apply(s, step), n, ref)
    ensures Outstanding(s, n, ref)
  {
    match step {
      case WatchLocal(n', watcher, target, r) => WatchLocalTouches(s, n', watcher, target, r, n, ref);
      case WatchRemote(_, _, _, _, _) =>
      case Unwatch(n', r) => UnwatchTouches(s, n', r, n, ref);
      case RunTask(_, _) =>
      case Receive(n', m) => ReceiveTouches(s.(wire := s.wire - multiset{(n', m)}), n', m, n, ref);
      case _ => EndingTouches(s, step, n, ref);
    }
  }

  lemma DeliverFiresOutstandingOnly(s: Net, n: string, r: Ref, ref: Ref)
    requires r == ref ==> !Outstanding(s, n, ref)
    ensures Deliver(s, n, r).downs[ref] == s.downs[ref]
  {
  }

  lemma FiresOutstandingOnly(s: Net, step: Step, ref: Ref)
    requires Enabled(s, step) && Silent(s, ref)
    ensures Apply(s, step).downs[ref] == s.downs[ref] && ref in Apply(s, step).origin
  {
    match step {
      case WatchLocal(n, watcher, target, r) =>
      case RunTask(n, r) =>
        var s1 := s.(tasks := s.tasks - multiset{(n, r)});
        assert !Outstanding(s, n, ref);
        DeliverFiresOutstandingOnly(s1, n, r, ref);
      case Receive(n, m) =>
        var s1 := s.(wire := s.wire - multiset{(n, m)});
        assert !Outstanding(s, n, ref);
        if m.DownOp? {
          DeliverFiresOutstandingOnly(s1, n, m.ref, ref);
        }
      case _ => OtherStepsEnqueueNothing(s, step);
    }
  }

  /** Demonitoring, firing or not: a ref that is not outstanding never leads to a `Down` again. */
  lemma {:induction false} NothingAfterDemonitor(s: Net, steps: seq<Step>, ref: Ref)
    requires Silent(s, ref) && Legal(s, steps)
    ensures Run(s, steps).downs[ref] == s.downs[ref]
    decreases |steps|
  {
    if steps != [] {
      var t := Apply(s, steps[0]);
      FiresOutstandingOnly(s, steps[0], ref);
      forall n
        ensures !Outstanding(t, n, ref)
      {
        if Outstanding(t, n, ref) {
          OutstandingBefore(s, steps[0], n, ref);
        }
      }
      NothingAfterDemonitor(t, steps[1..], ref);
    }
  }

  /** `demonitor` called on the ref's own node leaves it silent, whatever state it was in. */
  lemma DemonitorSilences(s: Net, ref: Ref)
    requires RefInv(s, ref) && ref in s.origin
    ensures Silent(Apply(s, Unwatch(s.origin[ref].home, ref)), ref)
  {
    var t := Apply(s, Unwatch(s.origin[ref].home, ref));
    forall n
      ensures !Outstanding(t, n, ref)
    {
      assert Outstanding(s, n, ref) ==> n == s.origin[ref].home;
    }
  }

  lemma OtherStepsEnqueueNothing(s: Net, step: Step)
    requires Enabled(s, step) && !step.WatchLocal? && !step.RunTask? && !step.Receive?
    ensures Apply(s, step).downs == s.downs
  {
  }
}
