/** Mailboxes that outlive the generations of the actor they belong to, and the names that reach them. */
module Mailboxes {
  import opened Common

  /** A dequeued message whose handler returned, or whose generation ended under it. */
  datatype Handled = Handled(msg: string, lost: bool)

  /** A spawned actor. `queue` is its mailbox, `running` and `handling` its driver; the rest is history: what
      was taken out and how it ended, what was ever accepted, and how many generations ended. */
  datatype Box = Box(
    name: string, queue: seq<string>, running: bool, handling: Option<string>,
    handled: seq<Handled>, accepted: seq<string>, ends: nat)

  datatype State = State(names: map<string, nat>, boxes: seq<Box>)

  function NewBox(name: string): Box {
    Box(name, [], false, None, [], [], 0)
  }

  /** A capacity of zero or less is unbounded. */
  predicate HasRoom(capacity: int, b: Box) {
    capacity <= 0 || |b.queue| < capacity
  }

  function PutNowait(capacity: int, b: Box, msg: string): Box {
    if HasRoom(capacity, b) then b.(queue := b.queue + [msg], accepted := b.accepted + [msg]) else b
  }

  /** A message is taken, at the end of the queue, exactly while the mailbox is unbounded or below its capacity. */
  lemma TakenIffBelowCapacity(capacity: int, b: Box, msg: string)
    ensures var t := PutNowait(capacity, b, msg);
            if capacity <= 0 || |b.queue| < capacity
            then t == b.(queue := b.queue + [msg], accepted := b.accepted + [msg])
            else t == b
  {
  }

  predicate CanGet(b: Box) {
    b.running && b.handling.None? && b.queue != []
  }

  function Get(b: Box): Box
    requires CanGet(b)
  {
    b.(queue := b.queue[1..], handling := Some(b.queue[0]))
  }

  function Finish(b: Box): Box
    requires b.handling.Some?
  {
    b.(handling := None, handled := b.handled + [Handled(b.handling.value, false)])
  }

  /** A crash or a cancellation: the message in hand is gone, the queue is not touched. */
  function EndGeneration(b: Box): Box {
    b.(running := false, handling := None, ends := b.ends + 1,
       handled := if b.handling.Some? then b.handled + [Handled(b.handling.value, true)] else b.handled)
  }

  predicate Registrable(s: State, name: string, box: nat) {
    name in s.names ==> s.names[name] == box
  }

  // ---------- runs ----------

  datatype Step =
    | Spawn(name: string)
    | Begin(box: nat)
    | End(box: nat)
    | Dequeue(box: nat)
    | HandlerReturns(box: nat)
    | SendLocal(name: string, msg: string)
    | RemoteArrives(box: nat, msg: string)

  /** Every name leads to a mailbox. */
  ghost predicate NamesLead(s: State) {
    forall n :: n in s.names ==> s.names[n] < |s.boxes|
  }

  predicate Enabled(s: State, step: Step) {
    match step
    case Spawn(_) => true
    case Begin(box) => box < |s.boxes| && !s.boxes[box].running
    case End(box) => box < |s.boxes|
    case Dequeue(box) => box < |s.boxes| && CanGet(s.boxes[box])
    case HandlerReturns(box) => box < |s.boxes| && s.boxes[box].handling.Some?
    case SendLocal(name, _) => name in s.names ==> s.names[name] < |s.boxes|
    case RemoteArrives(box, _) => box < |s.boxes|
  }

  function Update(s: State, box: nat, b: Box): State
    requires box < |s.boxes|
  {
    s.(boxes := s.boxes[box := b])
  }

  /** The `except` branches unregister the actor's name, whichever mailbox it leads to by then. */
  function EndStep(s: State, box: nat): State
    requires box < |s.boxes|
  {
    State(s.names - {s.boxes[box].name}, s.boxes[box := EndGeneration(s.boxes[box])])
  }

  /** A refused registration raises inside the `try` and so ends the generation it belongs to. */
  function BeginStep(s: State, box: nat): State
    requires box < |s.boxes|
  {
    var b := s.boxes[box];
    if Registrable(s, b.name, box) then State(s.names[b.name := box], s.boxes[box := b.(running := true)])
    else EndStep(s, box)
  }

  function SpawnStep(s: State, name: string): State {
    if name in s.names then s else State(s.names[name := |s.boxes|], s.boxes + [NewBox(name)])
  }

  function SendStep(capacity: int, s: State, name: string, msg: string): State
    requires name in s.names ==> s.names[name] < |s.boxes|
  {
    if name in s.names then Update(s, s.names[name], PutNowait(capacity, s.boxes[s.names[name]], msg)) else s
  }

  function Apply(capacity: int, s: State, step: Step): State
    requires Enabled(s, step)
  {
    match step
    case Spawn(name) => SpawnStep(s, name)
    case Begin(box) => BeginStep(s, box)
    case End(box) => EndStep(s, box)
    case Dequeue(box) => Update(s, box, Get(s.boxes[box]))
    case HandlerReturns(box) => Update(s, box, Finish(s.boxes[box]))
    case SendLocal(name, msg) => SendStep(capacity, s, name, msg)
    case RemoteArrives(box, msg) => Update(s, box, PutNowait(capacity, s.boxes[box], msg))
  }

  predicate Legal(capacity: int, s: State, steps: seq<Step>)
    decreases |steps|
  {
    steps == [] || (Enabled(s, steps[0]) && Legal(capacity, Apply(capacity, s, steps[0]), steps[1..]))
  }

  function Run(capacity: int, s: State, steps: seq<Step>): State
    requires Legal(capacity, s, steps)
    decreases |steps|
  {
    if steps == [] then s else Run(capacity, Apply(capacity, s, steps[0]), steps[1..])
  }

  // ---------- the node ----------

  class Node {
    const capacity: int
    var names: map<string, nat>
    var boxes: seq<Box>
    var fullEvents: seq<string>

    ghost function View(): State
      reads this
    {
      State(names, boxes)
    }

    constructor (capacity: int)
      ensures this.capacity == capacity && View() == State(map[], []) && fullEvents == []
    {
      this.capacity, names, boxes, fullEvents := capacity, map[], [], [];
    }

    /** Refused exactly when the name leads to a different mailbox. */
    method RegisterActor(name: string, box: nat) returns (ok: bool)
      modifies this`names
      ensures ok <==> Registrable(old(View()), name, box)
      ensures names == if ok then old(names)[name := box] else old(names)
    {
      if name in names && names[name] != box {
        return false;
      }
      names := names[name := box];
      return true;
    }

    method UnregisterActor(name: string)
      modifies this`names
      ensures names == old(names) - {name}
    {
      names := names - {name};
    }

    /** `Supervisor.spawn`: a name in use is an error and creates nothing. */
    method SpawnActor(name: string) returns (ok: bool)
      requires NamesLead(View())
      modifies this`names, this`boxes
      ensures ok <==> name !in old(names)
      ensures View() == SpawnStep(old(View()), name) && NamesLead(View())
    {
      ok := RegisterActor(name, |boxes|);
      if ok {
        boxes := boxes + [Box(name, [], false, None, [], [], 0)];
      }
    }

    method EndsGeneration(box: nat)
      requires box < |boxes|
      modifies this`names, this`boxes
      ensures View() == EndStep(old(View()), box)
      ensures var b, was := boxes[box], old(boxes)[box];
              && names == old(names) - {was.name} && !b.running && b.handling.None? && b.ends == was.ends + 1
              && b.queue == was.queue && b.accepted == was.accepted
              && b.handled == was.handled + if was.handling.Some? then [Handled(was.handling.value, true)] else []
    {
      var b := boxes[box];
      UnregisterActor(b.name);
      var handled := b.handled;
      if b.handling.Some? {
        handled := handled + [Handled(b.handling.value, true)];
      }
      boxes := boxes[box := b.(running := false, handling := None, ends := b.ends + 1, handled := handled)];
    }

    /** The head of the loop in `_run_actor_child`. */
    method BeginGeneration(box: nat) returns (ok: bool)
      requires box < |boxes|
      modifies this`names, this`boxes
      ensures View() == BeginStep(old(View()), box)
      ensures boxes[box].running <==> ok
    {
      ok := RegisterActor(boxes[box].name, box);
      if ok {
        boxes := boxes[box := boxes[box].(running := true)];
      } else {
        EndsGeneration(box);
      }
    }

    /** One turn of the loop in `_drive`: the message leaves the queue before its handler runs. */
    method TakeNext(box: nat) returns (msg: string)
      requires box < |boxes| && CanGet(boxes[box])
      modifies this`boxes
      ensures boxes == old(boxes)[box := Get(old(boxes)[box])]
      ensures [msg] + boxes[box].queue == old(boxes)[box].queue
    {
      var b := boxes[box];
      msg := b.queue[0];
      boxes := boxes[box := b.(queue := b.queue[1..], handling := Some(msg))];
    }

    method HandlerDone(box: nat)
      requires box < |boxes| && boxes[box].handling.Some?
      modifies this`boxes
      ensures boxes == old(boxes)[box := Finish(old(boxes)[box])]
    {
      var b := boxes[box];
      boxes := boxes[box := b.(handling := None, handled := b.handled + [Handled(b.handling.value, false)])];
    }

    method Put(box: nat, msg: string) returns (ok: bool)
      requires box < |boxes|
      modifies this`boxes
      ensures boxes == old(boxes)[box := PutNowait(capacity, old(boxes)[box], msg)]
      ensures ok <==> boxes[box].accepted != old(boxes)[box].accepted
    {
      var b := boxes[box];
      ok := capacity <= 0 || |b.queue| < capacity;
      if ok {
        b := b.(queue := b.queue + [msg], accepted := b.accepted + [msg]);
      }
      boxes := boxes[box := b];
    }

    /** An unknown name is the caller's error; a full mailbox is only reported. */
    method SendLocal(name: string, msg: string) returns (known: bool)
      requires NamesLead(View())
      modifies this`boxes, this`fullEvents
      ensures known <==> name in names
      ensures View() == SendStep(capacity, old(View()), name, msg)
      ensures known && HasRoom(capacity, old(boxes)[names[name]]) ==>
                var b := old(boxes)[names[name]];
                boxes == old(boxes)[names[name] := b.(queue := b.queue + [msg], accepted := b.accepted + [msg])]
      ensures fullEvents == old(fullEvents) + if known && boxes == old(boxes) then [name] else []
    {
      if name !in names {
        return false;
      }
      var ok := Put(names[name], msg);
      if !ok {
        fullEvents := fullEvents + [name];
      }
      return true;
    }

    /** The callback given to the transport holds on to the mailbox it was registered with. The sender is
        told about a message that was dropped. */
    method RemoteCallback(box: nat, msg: string) returns (notify: bool)
      requires box < |boxes|
      modifies this`boxes, this`fullEvents
      ensures boxes == old(boxes)[box := PutNowait(capacity, old(boxes)[box], msg)]
      ensures notify <==> !HasRoom(capacity, old(boxes)[box])
      ensures fullEvents == old(fullEvents) + if notify then [boxes[box].name] else []
    {
      var ok := Put(box, msg);
      notify := !ok;
      if notify {
        fullEvents := fullEvents + [boxes[box].name];
      }
    }
  }

  // ---------- conservation ----------

  function Messages(hs: seq<Handled>): seq<string> {
    if hs == [] then [] else Messages(hs[..|hs| - 1]) + [hs[|hs| - 1].msg]
  }

  function LostCount(hs: seq<Handled>): nat {
    if hs == [] then 0 else LostCount(hs[..|hs| - 1]) + if hs[|hs| - 1].lost then 1 else 0
  }

  function InHand(b: Box): seq<string> {
    if b.handling.Some? then [b.handling.value] else []
  }

  /** Accepted is handled, then in hand, then queued; each generation's end cost at most one message. */
  ghost predicate Conserves(capacity: int, b: Box) {
    && b.accepted == Messages(b.handled) + InHand(b) + b.queue
    && LostCount(b.handled) <= b.ends
    && (capacity > 0 ==> |b.queue| <= capacity)
  }

  lemma HandledSnoc(hs: seq<Handled>, h: Handled)
    ensures Messages(hs + [h]) == Messages(hs) + [h.msg]
    ensures LostCount(hs + [h]) == LostCount(hs) + if h.lost then 1 else 0
  {
    assert (hs + [h])[..|hs|] == hs;
  }

  lemma PutConserves(capacity: int, b: Box, msg: string)
    requires Conserves(capacity, b)
    ensures Conserves(capacity, PutNowait(capacity, b, msg))
  {
    assert Messages(b.handled) + InHand(b) + (b.queue + [msg]) == (Messages(b.handled) + InHand(b) + b.queue) + [msg];
  }

  lemma GetConserves(capacity: int, b: Box)
    requires Conserves(capacity, b) && CanGet(b)
    ensures Conserves(capacity, Get(b))
  {
    assert b.queue == [b.queue[0]] + b.queue[1..];
    assert Messages(b.handled) + [] + b.queue == Messages(b.handled) + [b.queue[0]] + b.queue[1..];
  }

  lemma FinishConserves(capacity: int, b: Box, lost: bool)
    requires Conserves(capacity, b) && b.handling.Some?
    ensures Conserves(capacity, if lost then EndGeneration(b) else Finish(b))
  {
    HandledSnoc(b.handled, Handled(b.handling.value, lost));
    assert Messages(b.handled) + [b.handling.value] + [] == Messages(b.handled) + [b.handling.value];
  }

  /** What a step can make of a mailbox. */
  ghost predicate Becomes(capacity: int, b: Box, b': Box) {
    || b' == b
    || b' == b.(running := true)
    || b' == EndGeneration(b)
    || (CanGet(b) && b' == Get(b))
    || (b.handling.Some? && b' == Finish(b))
    || exists msg :: b' == PutNowait(capacity, b, msg)
  }

  lemma StepBecomes(capacity: int, s: State, step: Step, box: nat)
    requires Enabled(s, step) && box < |s.boxes|
    ensures box < |Apply(capacity, s, step).boxes|
    ensures Becomes(capacity, s.boxes[box], Apply(capacity, s, step).boxes[box])
  {
  }

  lemma BecomesConserves(capacity: int, b: Box, b': Box)
    requires Conserves(capacity, b) && Becomes(capacity, b, b')
    ensures Conserves(capacity, b')
  {
    if b.handling.Some? {
      FinishConserves(capacity, b, true);
      FinishConserves(capacity, b, false);
    }
    if CanGet(b) && b' == Get(b) {
      GetConserves(capacity, b);
    } else if msg :| b' == PutNowait(capacity, b, msg) {
      PutConserves(capacity, b, msg);
    }
  }

  lemma StepConserves(capacity: int, s: State, step: Step, box: nat)
    requires Enabled(s, step) && box < |Apply(capacity, s, step).boxes|
    requires box < |s.boxes| ==> Conserves(capacity, s.boxes[box])
    ensures Conserves(capacity, Apply(capacity, s, step).boxes[box])
  {
    if box < |s.boxes| {
      StepBecomes(capacity, s, step, box);
      BecomesConserves(capacity, s.boxes[box], Apply(capacity, s, step).boxes[box]);
    }
  }

  /** Across any number of restarts and sweeps every mailbox accounts for everything it ever accepted, first
      in first out and within its capacity, and a generation's end costs at most the message in hand. */
  lemma {:induction false} MailboxConserves(capacity: int, s: State, steps: seq<Step>, box: nat)
    requires Legal(capacity, s, steps) && box < |Run(capacity, s, steps).boxes|
    requires box < |s.boxes| ==> Conserves(capacity, s.boxes[box])
    ensures Conserves(capacity, Run(capacity, s, steps).boxes[box])
    decreases |steps|
  {
    if steps != [] {
      var t := Apply(capacity, s, steps[0]);
      if box < |t.boxes| {
        StepConserves(capacity, s, steps[0], box);
      }
      MailboxConserves(capacity, t, steps[1..], box);
    }
  }

  // ---------- reachability by name ----------

  predicate Reaches(s: State, box: nat) {
    box < |s.boxes| && s.boxes[box].name in s.names && s.names[s.boxes[box].name] == box
  }

  /** Every actor that is running gets the mail sent to its name. */
  ghost predicate RunningReachable(s: State) {
    forall box :: 0 <= box < |s.boxes| && s.boxes[box].running ==> Reaches(s, box)
  }

  /** The step begins or ends a generation of an actor whose name another, running actor holds. */
  predicate Evicts(s: State, step: Step)
    requires Enabled(s, step)
  {
    && (step.Begin? || step.End?)
    && var name := s.boxes[step.box].name;
    && name in s.names
    && var holder := s.names[name];
    && holder != step.box && holder < |s.boxes| && s.boxes[holder].running && s.boxes[holder].name == name
  }

  /** A running actor stays reachable through a step exactly when the step evicts nobody. */
  lemma ReachableIffNotEvicted(capacity: int, s: State, step: Step)
    requires Enabled(s, step) && RunningReachable(s) && NamesLead(s)
    ensures RunningReachable(Apply(capacity, s, step)) <==> !Evicts(s, step)
    ensures NamesLead(Apply(capacity, s, step))
  {
    var t := Apply(capacity, s, step);
    if Evicts(s, step) {
      var holder := s.names[s.boxes[step.box].name];
      assert t.boxes[holder].running && !Reaches(t, holder);
    } else {
      forall box | 0 <= box < |t.boxes| && t.boxes[box].running
        ensures Reaches(t, box)
      {
        if box < |s.boxes| && s.boxes[box].running {
          assert Reaches(s, box);
        }
      }
    }
  }

  ghost predicate NobodyEvicted(capacity: int, s: State, steps: seq<Step>)
    requires Legal(capacity, s, steps)
    decreases |steps|
  {
    steps == [] || (!Evicts(s, steps[0]) && NobodyEvicted(capacity, Apply(capacity, s, steps[0]), steps[1..]))
  }

  /** No two actors were ever spawned under one name. */
  ghost predicate NamesDistinct(s: State) {
    forall i, j :: 0 <= i < j < |s.boxes| ==> s.boxes[i].name != s.boxes[j].name
  }

  ghost predicate SpawnsFreshNames(capacity: int, s: State, steps: seq<Step>)
    requires Legal(capacity, s, steps)
    decreases |steps|
  {
    steps == [] || (
      && (steps[0].Spawn? ==> forall box :: 0 <= box < |s.boxes| ==> s.boxes[box].name != steps[0].name)
      && SpawnsFreshNames(capacity, Apply(capacity, s, steps[0]), steps[1..]))
  }

  /** Where no name is ever spawned twice, no restart, sweep or crash makes a running actor unreachable. */
  lemma {:induction false} DistinctNamesStayReachable(capacity: int, s: State, steps: seq<Step>)
    requires Legal(capacity, s, steps) && SpawnsFreshNames(capacity, s, steps)
    requires RunningReachable(s) && NamesLead(s) && NamesDistinct(s)
    ensures RunningReachable(Run(capacity, s, steps)) && NobodyEvicted(capacity, s, steps)
    decreases |steps|
  {
    if steps != [] {
      ReachableIffNotEvicted(capacity, s, steps[0]);
      DistinctNamesStayReachable(capacity, Apply(capacity, s, steps[0]), steps[1..]);
    }
  }

  /** A name leads to another mailbox only after having led nowhere. */
  lemma NameMovesThroughAbsence(capacity: int, s: State, step: Step, name: string)
    requires Enabled(s, step) && name in s.names && name in Apply(capacity, s, step).names
    ensures Apply(capacity, s, step).names[name] == s.names[name]
  {
  }

  lemma {:induction false} RunTwo(capacity: int, s: State, a: Step, b: Step, rest: seq<Step>)
    requires Enabled(s, a) && Enabled(Apply(capacity, s, a), b)
    requires Legal(capacity, Apply(capacity, Apply(capacity, s, a), b), rest)
    ensures Legal(capacity, s, [a, b] + rest)
    ensures Run(capacity, s, [a, b] + rest) == Run(capacity, Apply(capacity, Apply(capacity, s, a), b), rest)
  {
    assert ([a, b] + rest)[1..] == [b] + rest;
    assert ([b] + rest)[1..] == rest;
  }

  /** The refusal meant to protect a registered name does not: an actor spawned under a name while its former
      owner waits to be restarted ends up running with all its mail going to the former owner, which takes the
      name back through its own refused registration. */
  lemma RefusedRestartTakesName(capacity: int, name: string) returns (steps: seq<Step>)
    ensures Legal(capacity, State(map[], []), steps)
    ensures var s := Run(capacity, State(map[], []), steps);
      |s.boxes| == 2 && s.boxes[1].name == name && s.boxes[1].running && name in s.names && s.names[name] == 0
  {
    var s0 := State(map[], []);
    var b := NewBox(name);
    var up := b.(running := true);
    var down := b.(ends := 1);
    var s2 := State(map[name := 0], [up]);
    var s4 := State(map[name := 1], [down, b]);
    var s6 := State(map[], [b.(ends := 2), up]);
    var s7 := State(map[name := 0], [up.(ends := 2), up]);
    assert SpawnStep(s0, name) == State(map[name := 0], [b]);
    assert BeginStep(State(map[name := 0], [b]), 0) == s2;
    assert EndStep(s2, 0) == State(map[], [down]);
    assert SpawnStep(State(map[], [down]), name) == s4;
    assert BeginStep(s4, 1) == State(map[name := 1], [down, up]);
    assert BeginStep(State(map[name := 1], [down, up]), 0) == s6;
    assert BeginStep(s6, 0) == s7;
    assert Legal(capacity, s7, []);
    var tail := [Begin(0)];
    assert tail[1..] == [];
    assert Legal(capacity, s6, tail) && Run(capacity, s6, tail) == s7;
    RunTwo(capacity, s4, Begin(1), Begin(0), tail);
    RunTwo(capacity, s2, End(0), Spawn(name), [Begin(1), Begin(0)] + tail);
    RunTwo(capacity, s0, Spawn(name), Begin(0), [End(0), Spawn(name)] + ([Begin(1), Begin(0)] + tail));
    steps := [Spawn(name), Begin(0)] + ([End(0), Spawn(name)] + ([Begin(1), Begin(0)] + tail));
  }
}
