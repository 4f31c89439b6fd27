/** What a received frame sets off, on one node and over a whole network. */
module Routing {
  import opened Common
  import opened NodeIds

  datatype Kind = Handshake | Data | Heartbeat | Error

  datatype Frame = Frame(id: nat, src: NodeId, dst: NodeId, kind: Kind, actor: string, correlation: Option<nat>)

  datatype Event = ErrorReceived(src: NodeId, correlation: Option<nat>) | MailboxFull(actor: string)

  /** The channel in front of a local actor; its receiver may be gone. */
  datatype Channel = Channel(capacity: nat, items: seq<Frame>, closed: bool)

  datatype Outcome = UnknownActor | Full | Closed | Queued

  function Decide(routing: map<string, Channel>, actor: string): Outcome {
    if actor !in routing then UnknownActor
    else if routing[actor].closed then Closed
    else if |routing[actor].items| >= routing[actor].capacity then Full
    else Queued
  }

  /** The error frame node `f.dst` answers `f` with. */
  function ErrorFor(f: Frame, id: nat): Frame {
    Frame(id, f.dst, f.src, Error, "", f.correlation)
  }

  /** The channel takes one more frame. */
  predicate Open(channel: Channel) {
    !channel.closed && |channel.items| < channel.capacity
  }

  /** The channel is there and full. */
  predicate Stuffed(channel: Channel) {
    !channel.closed && |channel.items| >= channel.capacity
  }

  /** What delivering a frame sets off: it is stored for its actor, or answered, or neither. */
  datatype Reaction = Reaction(store: bool, answer: Option<Frame>)

  function React(f: Frame, outcome: Outcome, id: nat): Reaction {
    if !f.kind.Data? then Reaction(false, None)
    else match outcome
      case Queued => Reaction(true, None)
      case Closed => Reaction(false, None)
      case _ => Reaction(false, Some(ErrorFor(f, id)))
  }

  /** The queue in front of a peer's writer; it is closed once the writer has stopped. */
  datatype Outbound = Outbound(frames: seq<Frame>, closed: bool)

  predicate Reachable(outbound: map<NodeId, Outbound>, peer: NodeId) {
    peer in outbound && !outbound[peer].closed
  }

  function Enqueue(outbound: map<NodeId, Outbound>, frame: Frame): map<NodeId, Outbound> {
    if !Reachable(outbound, frame.dst) then outbound
    else outbound[frame.dst := outbound[frame.dst].(frames := outbound[frame.dst].frames + [frame])]
  }

  function Store(routing: map<string, Channel>, f: Frame): map<string, Channel> {
    if f.actor !in routing then routing
    else routing[f.actor := routing[f.actor].(items := routing[f.actor].items + [f])]
  }

  class Router {
    const local: NodeId
    var routing: map<string, Channel>
    var outbound: map<NodeId, Outbound>  // one queue per connected peer
    var events: seq<Event>
    var nextId: nat

    constructor (local: NodeId)
      ensures this.local == local && routing == map[] && outbound == map[] && events == [] && nextId == 1
    {
      this.local, routing, outbound, events, nextId := local, map[], map[], [], 1;
    }

    /** An id is used up whether or not the frame goes out. */
    method SendError(peer: NodeId, correlation: Option<nat>) returns (sent: bool)
      modifies this`outbound, this`nextId
      ensures sent <==> Reachable(old(outbound), peer)
      ensures nextId == old(nextId) + 1
      ensures outbound == Enqueue(old(outbound), Frame(old(nextId), local, peer, Error, "", correlation))
      ensures if peer in old(outbound) && !old(outbound)[peer].closed then
                outbound == old(outbound)[peer := old(outbound)[peer].(
                    frames := old(outbound)[peer].frames + [Frame(old(nextId), local, peer, Error, "", correlation)])]
              else outbound == old(outbound)
    {
      var frame := Frame(nextId, local, peer, Error, "", correlation);
      nextId := nextId + 1;
      if peer !in outbound {
        return false;
      }
      var queue := outbound[peer];
      if queue.closed {
        return false;
      }
      outbound := outbound[peer := queue.(frames := queue.frames + [frame])];
      return true;
    }

    /** Routes a frame received from `f.src`: at most one error goes out, and only back to `f.src`. */
    method Route(f: Frame)
      requires f.dst == local
      modifies this
      ensures var outcome := Decide(old(routing), f.actor);
              var reaction := React(f, outcome, old(nextId));
              && routing == (if reaction.store then Store(old(routing), f) else old(routing))
              && outbound == (if reaction.answer.Some? then Enqueue(old(outbound), reaction.answer.value)
                 else old(outbound))
              && events == old(events) + (if f.kind.Error? then [ErrorReceived(f.src, f.correlation)]
                                          else if f.kind.Data? && outcome.Full? then [MailboxFull(f.actor)] else [])
              && nextId == old(nextId) + if reaction.answer.Some? then 1 else 0
      ensures f.kind.Data? && f.actor in old(routing) && Open(old(routing)[f.actor]) ==>
                && routing == old(routing)[f.actor := routing[f.actor]] && outbound == old(outbound)
                && routing[f.actor] == old(routing)[f.actor].(items := old(routing)[f.actor].items + [f])
      ensures f.kind.Data? && (f.actor !in old(routing) || Stuffed(old(routing)[f.actor])) &&
              Reachable(old(outbound), f.src) ==>
                && routing == old(routing) && outbound == old(outbound)[f.src := outbound[f.src]]
                && |outbound[f.src].frames| > 0 && var e := outbound[f.src].frames[|outbound[f.src].frames| - 1];
                && outbound[f.src] == Outbound(old(outbound)[f.src].frames + [e], false)
                && e.kind.Error? && e.src == local && e.dst == f.src && e.correlation == f.correlation
      ensures !f.kind.Data? ==> routing == old(routing) && outbound == old(outbound)
    {
      match f.kind {
        case Handshake =>
        case Heartbeat =>
        case Data =>
          if f.actor in routing {
            var channel := routing[f.actor];
            if channel.closed {
            } else if |channel.items| < channel.capacity {
              routing := routing[f.actor := channel.(items := channel.items + [f])];
            } else {
              events := events + [MailboxFull(f.actor)];
              var _ := SendError(f.src, f.correlation);
            }
          } else {
            var _ := SendError(f.src, f.correlation);
          }
        case Error =>
          events := events + [ErrorReceived(f.src, f.correlation)];
      }
    }
  }

  // ---------- the network without new application sends or timer ticks ----------

  datatype CallbackResult = Delivered | Undecodable | MailboxOverflow

  /** Frames have distinct ids. `queued`: accepted by a channel, callback not run yet. The rest is history.
      `born`: every frame ever. `cause`: error id to the id of the data frame it answers. `called`: data frames
      whose callback ran. `refused`: data frames for an unknown actor or a full channel. `read`: other frames
      that arrived. `lost`: frames dropped on the way or put to a channel nobody reads. */
  datatype Network = Network(
    flight: set<Frame>, queued: set<Frame>, born: map<nat, Frame>, cause: map<nat, nat>,
    called: set<Frame>, refused: set<Frame>, read: set<Frame>, lost: set<Frame>)

  datatype Step =
    | Deliver(f: Frame, outcome: Outcome, reachable: bool)
    | Callback(f: Frame, result: CallbackResult, reachable: bool)
    | Drop(f: Frame)

  predicate Fresh(n: Network, id: nat) {
    id !in n.born
  }

  predicate Enabled(n: Network, step: Step) {
    match step
    case Deliver(f, _, _) => f in n.flight
    case Callback(f, _, _) => f in n.queued
    case Drop(f) => f in n.flight
  }

  /** The history of a delivery. */
  function Arrived(n: Network, f: Frame, outcome: Outcome): Network {
    if !f.kind.Data? then n.(read := n.read + {f})
    else match outcome
      case Closed => n.(lost := n.lost + {f})
      case Queued => n
      case _ => n.(refused := n.refused + {f})
  }

  function Answer(n: Network, f: Frame, e: Frame): Network {
    n.(flight := n.flight + {e}, born := n.born[e.id := e], cause := n.cause[e.id := f.id])
  }

  function Apply(n: Network, step: Step, id: nat): Network
    requires Enabled(n, step) && Fresh(n, id)
  {
    match step
    case Deliver(f, outcome, reachable) =>
      var m, reaction := Arrived(n.(flight := n.flight - {f}), f, outcome), React(f, outcome, id);
      if reaction.answer.Some? && reachable then Answer(m, f, reaction.answer.value)
      else if reaction.store then m.(queued := m.queued + {f})
      else m
    case Callback(f, result, reachable) =>
      var m := n.(queued := n.queued - {f}, called := n.called + {f});
      if result.MailboxOverflow? && reachable then Answer(m, f, ErrorFor(f, id)) else m
    case Drop(f) => n.(flight := n.flight - {f}, lost := n.lost + {f})
  }

  /** A step together with the id its error frame would get. */
  predicate Legal(n: Network, steps: seq<(Step, nat)>)
    decreases |steps|
  {
    steps == [] ||
    (Enabled(n, steps[0].0) && Fresh(n, steps[0].1) && Legal(Apply(n, steps[0].0, steps[0].1), steps[1..]))
  }

  function Run(n: Network, steps: seq<(Step, nat)>): Network
    requires Legal(n, steps)
    decreases |steps|
  {
    if steps == [] then n else Run(Apply(n, steps[0].0, steps[0].1), steps[1..])
  }

  ghost predicate Consistent(n: Network) {
    && (forall f :: f in n.flight || f in n.queued ==> f.id in n.born && n.born[f.id] == f)
    && (forall f :: f in n.queued ==> f.kind.Data?)
    && n.flight !! n.queued
  }

  function DataIn(s: set<Frame>): set<Frame> {
    set f | f in s && f.kind.Data?
  }

  /** Deliveries still possible: a data frame may be followed by its error. */
  function Potential(n: Network): nat {
    |n.flight| + |DataIn(n.flight)| + |n.queued|
  }

  /** Steps still possible: a data frame's delivery, its callback and its error's delivery. */
  function StepsLeft(n: Network): nat {
    |n.flight| + 2 * |DataIn(n.flight)| + 2 * |n.queued|
  }

  function Deliveries(steps: seq<(Step, nat)>): nat {
    if steps == [] then 0 else (if steps[0].0.Deliver? then 1 else 0) + Deliveries(steps[1..])
  }

  lemma RemoveFrame(s: set<Frame>, f: Frame)
    requires f in s
    ensures |s - {f}| == |s| - 1
    ensures |DataIn(s - {f})| == |DataIn(s)| - (if f.kind.Data? then 1 else 0)
  {
    assert DataIn(s - {f}) == DataIn(s) - {f};
  }

  lemma AddFrame(s: set<Frame>, f: Frame)
    requires f !in s
    ensures |s + {f}| == |s| + 1
    ensures |DataIn(s + {f})| == |DataIn(s)| + (if f.kind.Data? then 1 else 0)
  {
    RemoveFrame(s + {f}, f);
    assert s + {f} - {f} == s;
  }

  lemma StepKeepsConsistent(n: Network, step: Step, id: nat)
    requires Consistent(n) && Enabled(n, step) && Fresh(n, id)
    ensures Consistent(Apply(n, step, id))
  {
  }

  lemma StepSpends(n: Network, step: Step, id: nat)
    requires Consistent(n) && Enabled(n, step) && Fresh(n, id)
    ensures Potential(Apply(n, step, id)) + (if step.Deliver? then 1 else 0) <= Potential(n)
    ensures StepsLeft(Apply(n, step, id)) < StepsLeft(n)
  {
    var f := step.f;
    match step {
      case Deliver(_, outcome, reachable) =>
        DeliverSpends(n, f, outcome, reachable, id);
      case Callback(_, _, _) =>
        RemoveFrame(n.queued, f);
        AddFrame(n.flight, ErrorFor(f, id));
      case Drop(_) =>
        RemoveFrame(n.flight, f);
    }
  }

  lemma DeliverSpends(n: Network, f: Frame, outcome: Outcome, reachable: bool, id: nat)
    requires Consistent(n) && f in n.flight && Fresh(n, id)
    ensures var t := Apply(n, Deliver(f, outcome, reachable), id);
            Potential(t) < Potential(n) && StepsLeft(t) < StepsLeft(n)
  {
    RemoveFrame(n.flight, f);
    AddFrame(n.flight - {f}, ErrorFor(f, id));
    AddFrame(n.queued, f);
  }

  /** No storm: a run delivers at most twice the data frames, once every other frame, once every queued one;
      counting callbacks and losses too, it is over after three steps per data frame. */
  lemma {:induction false} NoMessageStorm(n: Network, steps: seq<(Step, nat)>)
    requires Consistent(n) && Legal(n, steps)
    ensures Deliveries(steps) <= 2 * |DataIn(n.flight)| + |n.flight - DataIn(n.flight)| + |n.queued|
    ensures |steps| <= 3 * |DataIn(n.flight)| + |n.flight - DataIn(n.flight)| + 2 * |n.queued|
    decreases |steps|
  {
    assert |n.flight| == |DataIn(n.flight)| + |n.flight - DataIn(n.flight)|;
    if steps != [] {
      var (step, id) := steps[0];
      var m := Apply(n, step, id);
      StepKeepsConsistent(n, step, id);
      StepSpends(n, step, id);
      NoMessageStorm(m, steps[1..]);
      assert |m.flight| == |DataIn(m.flight)| + |m.flight - DataIn(m.flight)|;
    }
  }

  /** Nothing can happen any more exactly when the network is drained. */
  lemma IdleIffDrained(n: Network)
    ensures (forall step :: !Enabled(n, step)) <==> n.flight == {} && n.queued == {}
  {
    if f :| f in n.flight {
      assert Enabled(n, Drop(f));
    } else if f :| f in n.queued {
      assert Enabled(n, Callback(f, Delivered, false));
    }
  }

  // ---------- every frame is somewhere ----------

  function One(b: bool): nat {
    if b then 1 else 0
  }

  /** In how many places a frame is. */
  function Places(n: Network, f: Frame): nat {
    One(f in n.flight) + One(f in n.queued) + One(f in n.called) + One(f in n.refused) + One(f in n.read)
        + One(f in n.lost)
  }

  predicate Anywhere(n: Network, f: Frame) {
    f in n.flight || f in n.queued || f in n.called || f in n.refused || f in n.read || f in n.lost
  }

  /** Every frame ever is in exactly one place, and the places hold no other. */
  ghost predicate AllPlaced(n: Network) {
    && (forall id :: id in n.born ==> Places(n, n.born[id]) == 1 && n.born[id].id == id)
    && (forall f :: Anywhere(n, f) ==> f.id in n.born && n.born[f.id] == f)
    && (forall f :: f in n.queued ==> f.kind.Data?)
  }

  lemma DeliverPlaces(n: Network, f: Frame, outcome: Outcome, reachable: bool, id: nat, g: Frame)
    requires AllPlaced(n) && f in n.flight && Fresh(n, id)
    ensures var t := Apply(n, Deliver(f, outcome, reachable), id);
            Places(t, g) == if g == ErrorFor(f, id) && id in t.born then 1 else Places(n, g)
  {
    assert Anywhere(n, f) && Places(n, n.born[f.id]) == 1;
    assert !Anywhere(n, ErrorFor(f, id));
  }

  lemma OtherPlaces(n: Network, step: Step, id: nat, g: Frame)
    requires AllPlaced(n) && Enabled(n, step) && Fresh(n, id) && !step.Deliver?
    ensures var t := Apply(n, step, id);
            Places(t, g) == if g == ErrorFor(step.f, id) && id in t.born then 1 else Places(n, g)
  {
    assert Anywhere(n, step.f) && Places(n, n.born[step.f.id]) == 1;
    assert !Anywhere(n, ErrorFor(step.f, id));
  }

  lemma {:induction false} StepKeepsPlaced(n: Network, step: Step, id: nat)
    requires AllPlaced(n) && Enabled(n, step) && Fresh(n, id)
    ensures AllPlaced(Apply(n, step, id))
  {
    var t := Apply(n, step, id);
    forall j | j in t.born
      ensures Places(t, t.born[j]) == 1 && t.born[j].id == j
    {
      match step {
        case Deliver(f, outcome, reachable) => DeliverPlaces(n, f, outcome, reachable, id, t.born[j]);
        case _ => OtherPlaces(n, step, id, t.born[j]);
      }
    }
    forall g | Anywhere(t, g)
      ensures g.id in t.born && t.born[g.id] == g && (g in t.queued ==> g.kind.Data?)
    {
      NothingStrange(n, step, id, g);
    }
  }

  lemma NothingStrange(n: Network, step: Step, id: nat, g: Frame)
    requires AllPlaced(n) && Enabled(n, step) && Fresh(n, id) && Anywhere(Apply(n, step, id), g)
    ensures var t := Apply(n, step, id); g.id in t.born && t.born[g.id] == g && (g in t.queued ==> g.kind.Data?)
  {
    assert Anywhere(n, step.f);
    assert Anywhere(n, g) || g == ErrorFor(step.f, id);
  }

  /** Over every run each frame that ever was is in exactly one place: on its way, queued for its actor, handed to
      the actor's callback, refused, read as something other than data, or lost. */
  lemma {:induction false} EveryFrameIsSomewhere(n: Network, steps: seq<(Step, nat)>)
    requires AllPlaced(n) && Legal(n, steps)
    ensures AllPlaced(Run(n, steps))
    decreases |steps|
  {
    if steps != [] {
      StepKeepsPlaced(n, steps[0].0, steps[0].1);
      EveryFrameIsSomewhere(Apply(n, steps[0].0, steps[0].1), steps[1..]);
    }
  }

  /** What becomes of a data frame that arrives: queued exactly when its channel takes it, refused exactly for an
      unknown actor or a full channel, and then answered exactly when its sender is reachable. */
  lemma DataArrives(n: Network, f: Frame, outcome: Outcome, reachable: bool, id: nat)
    requires AllPlaced(n) && f in n.flight && f.kind.Data? && Fresh(n, id)
    ensures var t := Apply(n, Deliver(f, outcome, reachable), id);
            && (f in t.queued <==> outcome.Queued?)
            && (f in t.refused <==> outcome.UnknownActor? || outcome.Full?)
            && (id in t.cause.Keys - n.cause.Keys <==> id !in n.cause && f in t.refused && reachable)
  {
    assert Anywhere(n, f) && Places(n, n.born[f.id]) == 1;
  }

  // ---------- every error answers one data frame ----------

  ghost predicate Spent(n: Network, id: nat) {
    id in n.born && n.born[id] !in n.flight && n.born[id] !in n.queued
  }

  ghost predicate Answers(n: Network, e: nat) {
    && e in n.born && e in n.cause && n.cause[e] in n.born
    && var d := n.born[n.cause[e]];
       && d.kind.Data? && n.born[e] == ErrorFor(d, e) && d.id == n.cause[e] && Spent(n, d.id)
  }

  /** Frame `e` is an error that goes back to where the data frame it answers came from, with its correlation id. */
  ghost predicate IsAnswer(n: Network, e: nat) {
    && e in n.cause && n.cause[e] in n.born && e in n.born
    && var d, a := n.born[n.cause[e]], n.born[e];
    d.kind.Data? && a.kind.Error? && a.src == d.dst && a.dst == d.src && a.correlation == d.correlation
  }

  ghost predicate CauseInv(n: Network) {
    && (forall e :: e in n.cause ==> e in n.born && Answers(n, e))
    && (forall e, e' :: e in n.cause && e' in n.cause && n.cause[e] == n.cause[e'] ==> e == e')
  }

  lemma StepKeepsAnswer(n: Network, step: Step, id: nat, e: nat)
    requires Consistent(n) && CauseInv(n) && Enabled(n, step) && Fresh(n, id) && e in Apply(n, step, id).cause
    ensures e in Apply(n, step, id).born && Answers(Apply(n, step, id), e)
  {
    assert e in n.cause ==> Answers(n, e);
  }

  lemma StepKeepsCauses(n: Network, step: Step, id: nat)
    requires Consistent(n) && CauseInv(n) && Enabled(n, step) && Fresh(n, id)
    ensures CauseInv(Apply(n, step, id))
  {
    var m := Apply(n, step, id);
    forall e | e in m.cause
      ensures e in m.born && Answers(m, e)
    {
      StepKeepsAnswer(n, step, id, e);
    }
    forall e, e' | e in m.cause && e' in m.cause && m.cause[e] == m.cause[e']
      ensures e == e'
    {
      assert e in n.cause ==> Answers(n, e);
      assert e' in n.cause ==> Answers(n, e');
    }
  }

  /** What a step puts in flight is an answer, and an answer stays one. */
  lemma StepOnlyAnswers(n: Network, step: Step, id: nat)
    requires Enabled(n, step) && Fresh(n, id)
    ensures n.cause.Keys <= Apply(n, step, id).cause.Keys
    ensures forall f :: f in Apply(n, step, id).flight ==> f in n.flight || f.id in Apply(n, step, id).cause.Keys
  {
  }

  /** Over a run nothing is in flight but what was there and new errors; each of those answers exactly
      one data frame, goes back to its sender with its correlation id, and no data frame is answered twice. */
  lemma {:induction false} OneErrorPerData(n: Network, steps: seq<(Step, nat)>)
    requires Consistent(n) && CauseInv(n) && Legal(n, steps)
    ensures CauseInv(Run(n, steps)) && n.cause.Keys <= Run(n, steps).cause.Keys
    ensures forall f :: f in Run(n, steps).flight ==> f in n.flight || f.id in Run(n, steps).cause.Keys
    ensures forall e :: e in Run(n, steps).cause ==> IsAnswer(Run(n, steps), e)
    decreases |steps|
  {
    if steps != [] {
      StepKeepsConsistent(n, steps[0].0, steps[0].1);
      StepKeepsCauses(n, steps[0].0, steps[0].1);
      StepOnlyAnswers(n, steps[0].0, steps[0].1);
      OneErrorPerData(Apply(n, steps[0].0, steps[0].1), steps[1..]);
    }
  }
}
