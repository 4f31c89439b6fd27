/** A worker pool: one dispatcher, and workers on a shared queue or on one queue per key shard. */
module Pool {
  import opened Common

  /** `key` is `None` on a message it raises for. A capacity of zero or less is unbounded. */
  datatype Config = Config(sharded: bool, workers: nat, capacity: int, key: string -> Option<string>,
      hash: string -> int)

  /** Messages are known by arrival number, their position in `received`. `accepted` is history: what each
      queue ever took. `started`: (worker, arrival number) in the order workers picked messages up. */
  datatype State = State(
    received: seq<string>, queues: seq<seq<nat>>, accepted: seq<seq<nat>>,
    started: seq<(nat, nat)>, full: seq<nat>, keyErrors: seq<nat>)

  function QueueCount(cfg: Config): nat {
    if cfg.sharded then cfg.workers else 1
  }

  /** The queue a message goes to; no answer when its key cannot be computed or there is no worker. */
  function Route(cfg: Config, msg: string): (q: Option<nat>)
    ensures q.Some? ==> q.value < QueueCount(cfg)
  {
    if !cfg.sharded then Some(0)
    else if cfg.workers == 0 || cfg.key(msg).None? then None
    else Some(cfg.hash(cfg.key(msg).value) % cfg.workers)
  }

  function SourceOf(cfg: Config, worker: nat): nat {
    if cfg.sharded then worker else 0
  }

  predicate IsFull(cfg: Config, queue: seq<nat>) {
    cfg.capacity > 0 && |queue| >= cfg.capacity
  }

  predicate Shaped(cfg: Config, s: State) {
    |s.queues| == |s.accepted| == QueueCount(cfg)
  }

  function Dispatch(cfg: Config, s: State, msg: string): State
    requires Shaped(cfg, s)
  {
    var i := |s.received|;
    var s1 := s.(received := s.received + [msg]);
    match Route(cfg, msg)
    case None => s1.(keyErrors := s.keyErrors + [i])
    case Some(q) =>
      if IsFull(cfg, s.queues[q]) then s1.(full := s.full + [i])
      else s1.(queues := s.queues[q := s.queues[q] + [i]], accepted := s.accepted[q := s.accepted[q] + [i]])
  }

  predicate CanTake(cfg: Config, s: State, worker: nat) {
    Shaped(cfg, s) && worker < cfg.workers && SourceOf(cfg, worker) < |s.queues| &&
        s.queues[SourceOf(cfg, worker)] != []
  }

  function Take(cfg: Config, s: State, worker: nat): State
    requires CanTake(cfg, s, worker)
  {
    var q := SourceOf(cfg, worker);
    s.(queues := s.queues[q := s.queues[q][1..]], started := s.started + [(worker, s.queues[q][0])])
  }

  function Empty(cfg: Config): State {
    State([], seq(QueueCount(cfg), _ => []), seq(QueueCount(cfg), _ => []), [], [], [])
  }

  class WorkerPool {
    const cfg: Config
    var queues: seq<seq<nat>>
    ghost var accepted: seq<seq<nat>>
    var received: seq<string>
    var started: seq<(nat, nat)>
    var full: seq<nat>
    var keyErrors: seq<nat>

    ghost function View(): State
      reads this
    {
      State(received, queues, accepted, started, full, keyErrors)
    }

    constructor (cfg: Config)
      ensures this.cfg == cfg && View() == Empty(cfg)
    {
      this.cfg := cfg;
      queues, accepted := seq(QueueCount(cfg), _ => []), seq(QueueCount(cfg), _ => []);
      received, started, full, keyErrors := [], [], [], [];
    }

    /** The dispatcher's `receive`. */
    method Send(msg: string)
      requires Shaped(cfg, View())
      modifies this
      ensures View() == Dispatch(cfg, old(View()), msg)
    {
      var i, target := |received|, 0;
      received := received + [msg];
      if cfg.sharded {
        if cfg.workers == 0 || cfg.key(msg).None? {
          keyErrors := keyErrors + [i];
          return;
        }
        target := cfg.hash(cfg.key(msg).value) % cfg.workers;
      }
      if cfg.capacity > 0 && |queues[target]| >= cfg.capacity {
        full := full + [i];
      } else {
        queues := queues[target := queues[target] + [i]];
        accepted := accepted[target := accepted[target] + [i]];
      }
    }

    /** One turn of a worker's loop. */
    method PickUp(worker: nat) returns (i: nat)
      requires CanTake(cfg, View(), worker)
      modifies this
      ensures View() == Take(cfg, old(View()), worker)
      ensures i == old(queues)[SourceOf(cfg, worker)][0]
    {
      var q := if cfg.sharded then worker else 0;
      i := queues[q][0];
      queues := queues[q := queues[q][1..]];
      started := started + [(worker, i)];
    }
  }

  /** Where an arriving message goes: a sharded pool without workers or with a key that fails reports it; any other
      message goes to the shared queue or the key's own, unless that queue has a positive capacity and holds as
      many. */
  lemma ArrivesWhere(cfg: Config, s: State, msg: string)
    requires Shaped(cfg, s)
    ensures var t, i := Dispatch(cfg, s, msg), |s.received|;
            if cfg.sharded && (cfg.workers == 0 || cfg.key(msg).None?) then
              t == s.(received := s.received + [msg], keyErrors := s.keyErrors + [i])
            else
              var q := if cfg.sharded then cfg.hash(cfg.key(msg).value) % cfg.workers else 0;
              && t.received == s.received + [msg] && t.keyErrors == s.keyErrors && t.started == s.started
              && if cfg.capacity <= 0 || |s.queues[q]| < cfg.capacity
                 then t.queues == s.queues[q := s.queues[q] + [i]] && t.full == s.full
                 else t.queues == s.queues && t.full == s.full + [i]
  {
  }

  // ---------- runs ----------

  datatype Step = Arrive(msg: string) | Begin(worker: nat)

  predicate Enabled(cfg: Config, s: State, step: Step) {
    Shaped(cfg, s) && (step.Begin? ==> CanTake(cfg, s, step.worker))
  }

  function Apply(cfg: Config, s: State, step: Step): State
    requires Enabled(cfg, s, step)
  {
    match step
    case Arrive(msg) => Dispatch(cfg, s, msg)
    case Begin(worker) => Take(cfg, s, worker)
  }

  predicate Legal(cfg: Config, s: State, steps: seq<Step>)
    decreases |steps|
  {
    steps == [] || (Enabled(cfg, s, steps[0]) && Legal(cfg, Apply(cfg, s, steps[0]), steps[1..]))
  }

  function Run(cfg: Config, s: State, steps: seq<Step>): State
    requires Legal(cfg, s, steps)
    decreases |steps|
  {
    if steps == [] then s else Run(cfg, Apply(cfg, s, steps[0]), steps[1..])
  }

  // ---------- what started from one queue ----------

  function StartedFrom(cfg: Config, started: seq<(nat, nat)>, q: nat): seq<nat> {
    if started == [] then []
    else
      var n := |started| - 1;
      StartedFrom(cfg, started[..n], q) + if SourceOf(cfg, started[n].0) == q then [started[n].1] else []
  }

  lemma StartedSnoc(cfg: Config, started: seq<(nat, nat)>, x: (nat, nat), q: nat)
    ensures StartedFrom(cfg, started + [x], q) == StartedFrom(cfg, started, q) + if SourceOf(cfg, x.0) == q then [x.1]
            else []
  {
    assert (started + [x])[..|started|] == started;
  }

  ghost predicate Increasing(s: seq<nat>) {
    forall i, j :: 0 <= i < j < |s| ==> s[i] < s[j]
  }

  /** What a queue took, in arrival order, is what started from it and then what waits in it. */
  ghost predicate Ordered(begun: seq<nat>, queue: seq<nat>, taken: seq<nat>) {
    taken == begun + queue && Increasing(taken)
  }

  /** A queue took only messages that had arrived and that belong to it. */
  ghost predicate Routed(cfg: Config, received: seq<string>, taken: seq<nat>, q: nat) {
    forall k :: 0 <= k < |taken| ==> taken[k] < |received| && Route(cfg, received[taken[k]]) == Some(q)
  }

  ghost predicate QueueInv(cfg: Config, s: State, q: nat)
    requires Shaped(cfg, s)
  {
    q < |s.queues| ==>
      && Ordered(StartedFrom(cfg, s.started, q), s.queues[q], s.accepted[q])
      && Routed(cfg, s.received, s.accepted[q], q)
      && (cfg.capacity > 0 ==> |s.queues[q]| <= cfg.capacity)
  }

  lemma OrderedPut(begun: seq<nat>, queue: seq<nat>, taken: seq<nat>, i: nat)
    requires Ordered(begun, queue, taken) && forall k :: 0 <= k < |taken| ==> taken[k] < i
    ensures Ordered(begun, queue + [i], taken + [i])
  {
    assert begun + (queue + [i]) == (begun + queue) + [i];
  }

  lemma OrderedTake(begun: seq<nat>, queue: seq<nat>, taken: seq<nat>)
    requires Ordered(begun, queue, taken) && queue != []
    ensures Ordered(begun + [queue[0]], queue[1..], taken)
  {
    assert begun + queue == (begun + [queue[0]]) + queue[1..];
  }

  lemma RoutedPut(cfg: Config, received: seq<string>, taken: seq<nat>, q: nat, msg: string)
    requires Routed(cfg, received, taken, q)
    ensures Routed(cfg, received + [msg], taken, q)
    ensures Route(cfg, msg) == Some(q) ==> Routed(cfg, received + [msg], taken + [|received|], q)
  {
  }

  lemma ArriveKeepsQueue(cfg: Config, s: State, msg: string, q: nat)
    requires Shaped(cfg, s) && QueueInv(cfg, s, q)
    ensures QueueInv(cfg, Dispatch(cfg, s, msg), q)
  {
    if q < |s.queues| {
      RoutedPut(cfg, s.received, s.accepted[q], q, msg);
      OrderedPut(StartedFrom(cfg, s.started, q), s.queues[q], s.accepted[q], |s.received|);
    }
  }

  lemma BeginKeepsQueue(cfg: Config, s: State, worker: nat, q: nat)
    requires CanTake(cfg, s, worker) && QueueInv(cfg, s, q)
    ensures QueueInv(cfg, Take(cfg, s, worker), q)
  {
    var src := SourceOf(cfg, worker);
    StartedSnoc(cfg, s.started, (worker, s.queues[src][0]), q);
    if q == src {
      OrderedTake(StartedFrom(cfg, s.started, q), s.queues[q], s.accepted[q]);
    } else {
      assert StartedFrom(cfg, Take(cfg, s, worker).started, q) == StartedFrom(cfg, s.started, q);
    }
  }

  lemma {:induction false} RunKeepsQueue(cfg: Config, s: State, steps: seq<Step>, q: nat)
    requires Shaped(cfg, s) && QueueInv(cfg, s, q) && Legal(cfg, s, steps)
    ensures Shaped(cfg, Run(cfg, s, steps)) && QueueInv(cfg, Run(cfg, s, steps), q)
    decreases |steps|
  {
    if steps != [] {
      match steps[0] {
        case Arrive(msg) => ArriveKeepsQueue(cfg, s, msg, q);
        case Begin(worker) => BeginKeepsQueue(cfg, s, worker, q);
      }
      RunKeepsQueue(cfg, Apply(cfg, s, steps[0]), steps[1..], q);
    }
  }

  /** Every queue, in every reachable state: first in first out, in arrival order, within its capacity. */
  lemma QueuesAreFifo(cfg: Config, steps: seq<Step>, q: nat)
    requires Legal(cfg, Empty(cfg), steps) && q < QueueCount(cfg)
    ensures var s := Run(cfg, Empty(cfg), steps);
            && Shaped(cfg, s)
            && StartedFrom(cfg, s.started, q) + s.queues[q] == s.accepted[q] && Increasing(s.accepted[q])
            && (cfg.capacity > 0 ==> |s.queues[q]| <= cfg.capacity)
  {
    RunKeepsQueue(cfg, Empty(cfg), steps, q);
  }

  // ---------- one key, one worker, arrival order ----------

  predicate HasKey(cfg: Config, s: State, i: nat, k: string) {
    i < |s.received| && cfg.key(s.received[i]) == Some(k)
  }

  function OnlyKey(cfg: Config, s: State, ids: seq<nat>, k: string): seq<nat> {
    if ids == [] then []
    else (if HasKey(cfg, s, ids[0], k) then [ids[0]] else []) + OnlyKey(cfg, s, ids[1..], k)
  }

  lemma {:induction false} OnlyKeyConcat(cfg: Config, s: State, a: seq<nat>, b: seq<nat>, k: string)
    ensures OnlyKey(cfg, s, a + b, k) == OnlyKey(cfg, s, a, k) + OnlyKey(cfg, s, b, k)
  {
    if a == [] {
      assert a + b == b;
    } else {
      assert (a + b)[1..] == a[1..] + b;
      OnlyKeyConcat(cfg, s, a[1..], b, k);
    }
  }

  /** All started messages with key `k`, by any worker, in the order they were picked up. */
  function StartedWithKey(cfg: Config, s: State, started: seq<(nat, nat)>, k: string): seq<nat> {
    if started == [] then []
    else
      var n := |started| - 1;
      StartedWithKey(cfg, s, started[..n], k) + if HasKey(cfg, s, started[n].1, k) then [started[n].1] else []
  }

  ghost predicate StartedOnShard(cfg: Config, s: State, started: seq<(nat, nat)>) {
    forall x :: 0 <= x < |started| ==>
      started[x].1 < |s.received| && Route(cfg, s.received[started[x].1]) == Some(started[x].0)
  }

  lemma {:induction false} KeyStaysOnShard(cfg: Config, s: State, started: seq<(nat, nat)>, k: string)
    requires cfg.sharded && cfg.workers > 0 && StartedOnShard(cfg, s, started)
    ensures StartedWithKey(cfg, s, started, k)
            == OnlyKey(cfg, s, StartedFrom(cfg, started, cfg.hash(k) % cfg.workers), k)
    decreases |started|
  {
    if started != [] {
      var n, w := |started| - 1, cfg.hash(k) % cfg.workers;
      KeyStaysOnShard(cfg, s, started[..n], k);
      var tail := if started[n].0 == w then [started[n].1] else [];
      OnlyKeyConcat(cfg, s, StartedFrom(cfg, started[..n], w), tail, k);
      assert Route(cfg, s.received[started[n].1]) == Some(started[n].0);
    }
  }

  lemma {:induction false} RunStartsOnShard(cfg: Config, s: State, steps: seq<Step>)
    requires cfg.sharded && Shaped(cfg, s) && Legal(cfg, s, steps)
    requires StartedOnShard(cfg, s, s.started) && forall q :: 0 <= q < |s.queues| ==> QueueInv(cfg, s, q)
    ensures var t := Run(cfg, s, steps); StartedOnShard(cfg, t, t.started)
    decreases |steps|
  {
    if steps != [] {
      var t := Apply(cfg, s, steps[0]);
      forall q | 0 <= q < |s.queues|
        ensures QueueInv(cfg, t, q)
      {
        match steps[0] {
          case Arrive(msg) => ArriveKeepsQueue(cfg, s, msg, q);
          case Begin(worker) => BeginKeepsQueue(cfg, s, worker, q);
        }
      }
      if steps[0].Begin? {
        HeadIsRouted(cfg, s, steps[0].worker);
      }
      RunStartsOnShard(cfg, t, steps[1..]);
    }
  }

  lemma HeadIsRouted(cfg: Config, s: State, q: nat)
    requires Shaped(cfg, s) && q < |s.queues| && s.queues[q] != [] && QueueInv(cfg, s, q)
    ensures s.queues[q][0] < |s.received| && Route(cfg, s.received[s.queues[q][0]]) == Some(q)
  {
    assert s.accepted[q][|StartedFrom(cfg, s.started, q)|] == s.queues[q][0];
  }

  /** Of the messages with one key, the started ones are a prefix of the accepted ones in arrival order,
      all of them on the worker the key hashes to. */
  lemma {:induction false} KeyOrder(cfg: Config, steps: seq<Step>, k: string)
    requires cfg.sharded && cfg.workers > 0 && Legal(cfg, Empty(cfg), steps)
    ensures var s, w := Run(cfg, Empty(cfg), steps), cfg.hash(k) % cfg.workers;
            && Shaped(cfg, s)
            && StartedWithKey(cfg, s, s.started, k) <= OnlyKey(cfg, s, s.accepted[w], k)
            && Increasing(s.accepted[w])
            && (forall x :: 0 <= x < |s.started| && HasKey(cfg, s, s.started[x].1, k) ==> s.started[x].0 == w)
            && (forall q, x ::
                  0 <= q < |s.accepted| && 0 <= x < |s.accepted[q]| && HasKey(cfg, s, s.accepted[q][x], k) ==> q == w)
  {
    var s, w := Run(cfg, Empty(cfg), steps), cfg.hash(k) % cfg.workers;
    RunStartsOnShard(cfg, Empty(cfg), steps);
    KeyStaysOnShard(cfg, s, s.started, k);
    RunKeepsQueue(cfg, Empty(cfg), steps, w);
    OnlyKeyConcat(cfg, s, StartedFrom(cfg, s.started, w), s.queues[w], k);
    forall q, x | 0 <= q < |s.accepted| && 0 <= x < |s.accepted[q]| && HasKey(cfg, s, s.accepted[q][x], k)
      ensures q == w
    {
      RunKeepsQueue(cfg, Empty(cfg), steps, q);
    }
  }

  // ---------- nothing lost, nothing twice ----------

  function CountIn(qs: seq<seq<nat>>, i: nat): nat {
    if qs == [] then 0 else multiset(qs[0])[i] + CountIn(qs[1..], i)
  }

  lemma {:induction false} CountInUpdate(qs: seq<seq<nat>>, q: nat, x: seq<nat>, i: nat)
    requires q < |qs|
    ensures CountIn(qs[q := x], i) + multiset(qs[q])[i] == CountIn(qs, i) + multiset(x)[i]
    decreases |qs|
  {
    if q == 0 {
      assert qs[q := x][1..] == qs[1..];
    } else {
      assert qs[q := x][1..] == qs[1..][q - 1 := x];
      CountInUpdate(qs[1..], q - 1, x, i);
    }
  }

  function StartedCount(started: seq<(nat, nat)>, i: nat): nat {
    if started == [] then 0
    else StartedCount(started[..|started| - 1], i) + if started[|started| - 1].1 == i then 1 else 0
  }

  /** How often message `i` is found: waiting, started, dropped as full, or refused by its key. */
  function Places(s: State, i: nat): nat {
    CountIn(s.queues, i) + StartedCount(s.started, i) + multiset(s.full)[i] + multiset(s.keyErrors)[i]
  }

  ghost predicate EachOnce(s: State) {
    forall i: nat :: Places(s, i) == if i < |s.received| then 1 else 0
  }

  lemma ArriveKeepsPlace(cfg: Config, s: State, msg: string, i: nat)
    requires Shaped(cfg, s)
    ensures Places(Dispatch(cfg, s, msg), i) == Places(s, i) + if i == |s.received| then 1 else 0
  {
    var n := |s.received|;
    var r := Route(cfg, msg);
    if r.Some? {
      CountInUpdate(s.queues, r.value, s.queues[r.value] + [n], i);
    }
  }

  lemma BeginKeepsPlace(cfg: Config, s: State, worker: nat, i: nat)
    requires CanTake(cfg, s, worker)
    ensures Places(Take(cfg, s, worker), i) == Places(s, i)
  {
    var q := SourceOf(cfg, worker);
    var queue := s.queues[q];
    CountInUpdate(s.queues, q, queue[1..], i);
    assert queue == [queue[0]] + queue[1..];
    var x := (worker, queue[0]);
    assert (s.started + [x])[..|s.started|] == s.started;
  }

  lemma {:induction false} CountInEmpty(qs: seq<seq<nat>>, i: nat)
    requires forall q :: 0 <= q < |qs| ==> qs[q] == []
    ensures CountIn(qs, i) == 0
  {
    if qs != [] {
      CountInEmpty(qs[1..], i);
    }
  }

  lemma {:induction false} RunKeepsPlaces(cfg: Config, s: State, steps: seq<Step>)
    requires EachOnce(s) && Shaped(cfg, s) && Legal(cfg, s, steps)
    ensures EachOnce(Run(cfg, s, steps))
    decreases |steps|
  {
    if steps != [] {
      var t := Apply(cfg, s, steps[0]);
      forall i: nat
        ensures Places(t, i) == if i < |t.received| then 1 else 0
      {
        match steps[0] {
          case Arrive(msg) => ArriveKeepsPlace(cfg, s, msg, i);
          case Begin(worker) => BeginKeepsPlace(cfg, s, worker, i);
        }
      }
      RunKeepsPlaces(cfg, t, steps[1..]);
    }
  }

  /** For every interleaving of dispatcher and workers each received message is found exactly once:
      queued, started, dropped as full, or reported as a key error. */
  lemma PoolConserves(cfg: Config, steps: seq<Step>, i: nat)
    requires Legal(cfg, Empty(cfg), steps)
    ensures var s := Run(cfg, Empty(cfg), steps); Places(s, i) == if i < |s.received| then 1 else 0
  {
    forall j: nat
      ensures Places(Empty(cfg), j) == 0
    {
      CountInEmpty(Empty(cfg).queues, j);
    }
    RunKeepsPlaces(cfg, Empty(cfg), steps);
  }
}
