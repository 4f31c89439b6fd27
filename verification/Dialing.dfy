/** Any number of nodes dialing, accepting, losing and forgetting connections to each other. */
module Dialing {
  import opened NodeIds
  import opened PeerTable

  /** One end of a connection: not accepted yet, read loop before its handshake, registered, over.
      `heard`: a `PeerDisconnected` for this end's peer has been broadcast since its loop subscribed. */
  datatype End = Pending | Waiting(heard: bool) | Registered(heard: bool) | Ended

  datatype Side = Out | In

  datatype Conn = Conn(dialer: NodeId, acceptor: NodeId, out: End, inn: End) {
    function Of(side: Side): End {
      if side.Out? then out else inn
    }

    function With(side: Side, e: End): Conn {
      if side.Out? then this.(out := e) else this.(inn := e)
    }

    function Home(side: Side): NodeId {
      if side.Out? then dialer else acceptor
    }

    function Away(side: Side): NodeId {
      if side.Out? then acceptor else dialer
    }

    /** This connection is served, at `n` and for peer `p`, by a live registered read loop. */
    predicate Serves(n: NodeId, p: NodeId) {
      (dialer == n && acceptor == p && out.Registered?) || (acceptor == n && dialer == p && inn.Registered?)
    }

    predicate Links(x: NodeId, y: NodeId) {
      dialer == x && acceptor == y
    }
  }

  datatype Net = Net(
    peers: map<NodeId, Peers>,
    stopped: set<NodeId>,
    dialing: multiset<(NodeId, NodeId)>,  // past the has_peer check, before the insert; any number per pair
    passed: set<(NodeId, NodeId)>,        // history: dials that ever got past the check
    conns: seq<Conn>,
    lost: set<nat>)                       // history: connections dropped by anything but the tiebreak

  function Start(): Net {
    Net(map[], {}, multiset{}, {}, [], {})
  }

  datatype Cause = Eof | Broadcast | Failure

  datatype Step =
    | Check(a: NodeId, b: NodeId)
    | Insert(a: NodeId, b: NodeId)
    | Accept(c: nat)
    | Handshake(c: nat, authentic: bool)
    | LoopEnds(c: nat, side: Side, cause: Cause)
    | Forget(n: NodeId, p: NodeId)
    | Shutdown(n: NodeId)

  function PeersOf(s: Net, n: NodeId): Peers {
    if n in s.peers then s.peers[n] else map[]
  }

  predicate Holds(s: Net, n: NodeId, p: NodeId, c: nat) {
    IsCurrent(PeersOf(s, n), p, c)
  }

  function HearEnd(e: End): End {
    match e
    case Waiting(_) => Waiting(true)
    case Registered(_) => Registered(true)
    case _ => e
  }

  function HearConn(k: Conn, n: NodeId, p: NodeId): Conn {
    k.(out := if k.dialer == n && k.acceptor == p then HearEnd(k.out) else k.out,
       inn := if k.acceptor == n && k.dialer == p then HearEnd(k.inn) else k.inn)
  }

  /** `PeerDisconnected(p)` broadcast at node `n` reaches every loop there whose peer is `p`. */
  function Hear(conns: seq<Conn>, n: NodeId, p: NodeId): (r: seq<Conn>)
    ensures |r| == |conns| && forall i :: 0 <= i < |r| ==> r[i] == HearConn(conns[i], n, p)
  {
    seq(|conns|, i requires 0 <= i < |conns| => HearConn(conns[i], n, p))
  }

  predicate Enabled(s: Net, step: Step) {
    match step
    case Check(a, b) => a != b
    case Insert(a, b) => (a, b) in s.dialing
    case Accept(c) => c < |s.conns| && s.conns[c].inn.Pending?
    case Handshake(c, _) => c < |s.conns| && s.conns[c].inn.Waiting?
    case LoopEnds(c, side, cause) =>
      c < |s.conns| &&
      (match cause
       case Eof => s.conns[c].Of(side).Registered? && s.conns[c].Of(Other(side)).Ended?
       case Broadcast => s.conns[c].Of(side) == Registered(true)
       case Failure => !s.conns[c].Of(side).Ended?)
    case Forget(_, _) => true
    case Shutdown(_) => true
  }

  function Other(side: Side): Side {
    if side.Out? then In else Out
  }

  function Apply(s: Net, step: Step): Net
    requires Enabled(s, step)
  {
    match step
    case Check(a, b) =>
      if !MayDial(PeersOf(s, a), b) then s
      else s.(dialing := s.dialing + multiset{(a, b)}, passed := s.passed + {(a, b)})
    case Insert(a, b) =>
      var s1 := s.(dialing := s.dialing - multiset{(a, b)});
      if !Keeps(a, PeersOf(s, a), b, true) then s1
      else s1.(peers := s.peers[a := Dialed(a, PeersOf(s, a), b, |s.conns|)],
               conns := s.conns + [Conn(a, b, Registered(false), Pending)])
    case Accept(c) => s.(conns := s.conns[c := s.conns[c].(inn := Waiting(false))])
    case Handshake(c, authentic) => ApplyHandshake(s, c, authentic)
    case LoopEnds(c, side, cause) => ApplyLoopEnds(s, c, side, cause)
    case Forget(n, p) =>
      var peers := PeersOf(s, n);
      if p !in peers then s
      else s.(peers := s.peers[n := Forgotten(peers, p)], conns := Hear(s.conns, n, p), lost := s.lost + {peers[p]})
    case Shutdown(n) =>
      var peers := PeersOf(s, n);
      s.(peers := s.peers[n := AfterShutdown()], stopped := s.stopped + {n}, lost := s.lost + peers.Values)
  }

  function ApplyHandshake(s: Net, c: nat, authentic: bool): Net
    requires c < |s.conns| && s.conns[c].inn.Waiting?
  {
    var k := s.conns[c];
    var n, p := k.acceptor, k.dialer;
    var stopped := n in s.stopped;
    if Admits(n, PeersOf(s, n), stopped, authentic, p) then
      s.(peers := s.peers[n := Admitted(n, PeersOf(s, n), stopped, authentic, p, c)],
         conns := s.conns[c := k.(inn := Registered(k.inn.heard))])
    else
      s.(conns := s.conns[c := k.(inn := Ended)], lost := if stopped || !authentic then s.lost + {c} else s.lost)
  }

  function ApplyLoopEnds(s: Net, c: nat, side: Side, cause: Cause): Net
    requires c < |s.conns|
  {
    var k := s.conns[c];
    var n, p := k.Home(side), k.Away(side);
    var conns := s.conns[c := k.With(side, Ended)];
    var lost := if cause.Eof? then s.lost else s.lost + {c};
    if k.Of(side).Registered? && IsCurrent(PeersOf(s, n), p, c) then
      s.(peers := s.peers[n := Evict(PeersOf(s, n), p, c)], conns := Hear(conns, n, p), lost := lost)
    else s.(conns := conns, lost := lost)
  }

  // ---------- runs ----------

  predicate Legal(s: Net, steps: seq<Step>)
    decreases |steps|
  {
    steps == [] || (Enabled(s, steps[0]) && Legal(Apply(s, steps[0]), steps[1..]))
  }

  function Run(s: Net, steps: seq<Step>): Net
    requires Legal(s, steps)
    decreases |steps|
  {
    if steps == [] then s else Run(Apply(s, steps[0]), steps[1..])
  }

  /** The step does not start a second dial from `x` to `y` while one is under way. */
  predicate Once(s: Net, step: Step, x: NodeId, y: NodeId) {
    step == Check(x, y) && MayDial(PeersOf(s, x), y) ==> (x, y) !in s.dialing
  }

  /** At no point of the run are two dials from `x` to `y` under way. */
  predicate OneDial(s: Net, steps: seq<Step>, x: NodeId, y: NodeId)
    requires Legal(s, steps)
    decreases |steps|
  {
    steps == [] || (Once(s, steps[0], x, y) && OneDial(Apply(s, steps[0]), steps[1..], x, y))
  }

  // ---------- no ghost peers ----------

  /** An entry of `n`'s table for `p` is served by a live loop registered with that very connection. */
  ghost predicate Served(s: Net, n: NodeId, p: NodeId) {
    p in PeersOf(s, n) ==> PeersOf(s, n)[p] < |s.conns| && s.conns[PeersOf(s, n)[p]].Serves(n, p)
  }

  ghost predicate NoGhosts(s: Net) {
    forall n, p :: Served(s, n, p)
  }

  ghost predicate Shaped(s: Net) {
    && (forall i :: 0 <= i < |s.conns| ==>
          && s.conns[i].dialer != s.conns[i].acceptor
          && (s.conns[i].out.Registered? || s.conns[i].out.Ended?)
          && (s.conns[i].dialer, s.conns[i].acceptor) in s.passed)
    && (forall pair :: pair in s.dialing ==> pair in s.passed && pair.0 != pair.1)
  }

  lemma StepKeepsShape(s: Net, step: Step)
    requires Shaped(s) && Enabled(s, step)
    ensures Shaped(Apply(s, step))
  {
    match step {
      case Handshake(c, authentic) => HandshakeKeepsShape(s, c, authentic);
      case LoopEnds(c, side, cause) => LoopEndsKeepsShape(s, c, side, cause);
      case _ =>
    }
  }

  lemma HandshakeKeepsShape(s: Net, c: nat, authentic: bool)
    requires Shaped(s) && c < |s.conns| && s.conns[c].inn.Waiting?
    ensures Shaped(ApplyHandshake(s, c, authentic))
  {
  }

  lemma LoopEndsKeepsShape(s: Net, c: nat, side: Side, cause: Cause)
    requires Shaped(s) && c < |s.conns|
    ensures Shaped(ApplyLoopEnds(s, c, side, cause))
  {
  }

  lemma LoopEndsKeepsServed(s: Net, c: nat, side: Side, cause: Cause, n: NodeId, p: NodeId)
    requires Shaped(s) && c < |s.conns| && Served(s, n, p)
    ensures Served(ApplyLoopEnds(s, c, side, cause), n, p)
  {
    if p in PeersOf(s, n) && PeersOf(s, n)[p] != c {
      LoopEndsSparesOthers(s, c, side, cause, n, p, PeersOf(s, n)[p]);
    }
  }

  lemma HandshakeKeepsServed(s: Net, c: nat, authentic: bool, n: NodeId, p: NodeId)
    requires Shaped(s) && c < |s.conns| && s.conns[c].inn.Waiting? && Served(s, n, p)
    ensures Served(ApplyHandshake(s, c, authentic), n, p)
  {
  }

  lemma ForgetKeepsServed(s: Net, n': NodeId, p': NodeId, n: NodeId, p: NodeId)
    requires Shaped(s) && Served(s, n, p)
    ensures Served(Apply(s, Forget(n', p')), n, p)
  {
  }

  lemma StepKeepsServed(s: Net, step: Step, n: NodeId, p: NodeId)
    requires Shaped(s) && Served(s, n, p) && Enabled(s, step)
    ensures Served(Apply(s, step), n, p)
  {
    match step {
      case Handshake(c, authentic) => HandshakeKeepsServed(s, c, authentic, n, p);
      case LoopEnds(c, side, cause) => LoopEndsKeepsServed(s, c, side, cause, n, p);
      case Forget(n', p') => ForgetKeepsServed(s, n', p', n, p);
      case _ =>
    }
  }

  lemma StepKeepsNoGhosts(s: Net, step: Step)
    requires Shaped(s) && NoGhosts(s) && Enabled(s, step)
    ensures NoGhosts(Apply(s, step))
  {
    forall n, p
      ensures Served(Apply(s, step), n, p)
    {
      StepKeepsServed(s, step, n, p);
    }
  }

  // ---------- the surviving connection ----------

  ghost predicate LostKnown(s: Net) {
    forall c :: c in s.lost ==> c < |s.conns|
  }

  /** The dial from `x` to `y` is the one that should survive: `x` is the smaller id, or `y` never got
      past its own check; and no connection `x` dialed to `y` was dropped except by the tiebreak. */
  ghost predicate Prevails(s: Net, x: NodeId, y: NodeId) {
    && x != y
    && (Less(x.ToFull(), y.ToFull()) || (y, x) !in s.passed)
    && forall c :: 0 <= c < |s.conns| && s.conns[c].Links(x, y) ==> c !in s.lost
  }

  /** A connection from `x` to `y` is held by `x`, and by `y` as soon as `y` has read its handshake. */
  ghost predicate Surviving(s: Net, x: NodeId, y: NodeId, c: nat) {
    c < |s.conns| &&
    var k := s.conns[c];
    && (x, y) !in s.dialing && Holds(s, x, y, c)
    && k.out.Registered? && !k.inn.Ended?
    && (k.inn.Registered? ==> Holds(s, y, x, c))
  }

  ghost predicate DialInv(s: Net, x: NodeId, y: NodeId) {
    && s.dialing[(x, y)] <= 1
    && (Prevails(s, x, y) ==>
          && (forall c :: 0 <= c < |s.conns| && s.conns[c].Links(x, y) ==> Surviving(s, x, y, c))
          && ((x, y) in s.passed && (x, y) !in s.dialing ==>
                y in PeersOf(s, x) && PeersOf(s, x)[y] < |s.conns| && s.conns[PeersOf(s, x)[y]].Links(x, y)))
  }

  ghost predicate Inv(s: Net) {
    Shaped(s) && NoGhosts(s) && LostKnown(s)
  }

  lemma PrevailsBefore(s: Net, step: Step, x: NodeId, y: NodeId)
    requires Inv(s) && Enabled(s, step) && Prevails(Apply(s, step), x, y)
    ensures Prevails(s, x, y)
  {
    HistoryGrows(s, step);
    forall c | 0 <= c < |s.conns| && s.conns[c].Links(x, y)
      ensures c !in s.lost
    {
      KeepsLinks(s, step, c);
    }
  }

  lemma HistoryGrows(s: Net, step: Step)
    requires Enabled(s, step)
    ensures s.passed <= Apply(s, step).passed && s.lost <= Apply(s, step).lost && |s.conns| <= |Apply(s, step).conns|
  {
  }

  lemma KeepsLinks(s: Net, step: Step, c: nat)
    requires Enabled(s, step) && c < |s.conns|
    ensures c < |Apply(s, step).conns|
    ensures Apply(s, step).conns[c].Links(s.conns[c].dialer, s.conns[c].acceptor)
  {
  }

  lemma CheckKeepsDial(s: Net, a: NodeId, b: NodeId, x: NodeId, y: NodeId)
    requires Inv(s) && Enabled(s, Check(a, b)) && Once(s, Check(a, b), x, y) && DialInv(s, x, y) && Prevails(s, x, y)
    ensures DialInv(Apply(s, Check(a, b)), x, y)
  {
  }

  lemma OwnInsertIsKept(s: Net, x: NodeId, y: NodeId)
    requires Inv(s) && (x, y) in s.dialing && DialInv(s, x, y) && Prevails(s, x, y)
    ensures Keeps(x, PeersOf(s, x), y, true)
  {
    assert Served(s, x, y);
  }

  lemma InsertKeepsDial(s: Net, a: NodeId, b: NodeId, x: NodeId, y: NodeId)
    requires Inv(s) && Enabled(s, Insert(a, b)) && DialInv(s, x, y) && Prevails(s, x, y)
    ensures DialInv(Apply(s, Insert(a, b)), x, y)
  {
    LessIsTotal(x.ToFull(), y.ToFull());
    if (a, b) == (x, y) {
      OwnInsertIsKept(s, x, y);
    }
    var t := Apply(s, Insert(a, b));
    forall c | 0 <= c < |t.conns| && t.conns[c].Links(x, y)
      ensures Surviving(t, x, y, c)
    {
      if c < |s.conns| {
        assert Surviving(s, x, y, c);
      }
    }
  }

  /** The prevailing dial's own handshake is never turned down. */
  lemma OwnHandshakeRegisters(s: Net, c: nat, authentic: bool, x: NodeId, y: NodeId)
    requires Inv(s) && Enabled(s, Handshake(c, authentic)) && DialInv(s, x, y) && s.conns[c].Links(x, y)
    requires Prevails(s, x, y) && Prevails(Apply(s, Handshake(c, authentic)), x, y)
    ensures y !in s.stopped && authentic && Keeps(y, PeersOf(s, y), x, false)
  {
    assert Apply(s, Handshake(c, authentic)).conns[c].Links(x, y);
    assert Surviving(s, x, y, c);
    assert Served(s, y, x);
    assert x in PeersOf(s, y) && (y, x) !in s.passed ==> Surviving(s, x, y, PeersOf(s, y)[x]);
  }

  lemma OtherHandshakeKeepsDial(s: Net, c: nat, authentic: bool, x: NodeId, y: NodeId)
    requires Inv(s) && Enabled(s, Handshake(c, authentic)) && DialInv(s, x, y) && !s.conns[c].Links(x, y)
    requires Prevails(s, x, y)
    ensures DialInv(Apply(s, Handshake(c, authentic)), x, y)
  {
    LessIsTotal(x.ToFull(), y.ToFull());
    var t := ApplyHandshake(s, c, authentic);
    forall i | 0 <= i < |t.conns| && t.conns[i].Links(x, y)
      ensures Surviving(t, x, y, i)
    {
      assert Surviving(s, x, y, i) && t.conns[i] == s.conns[i];
    }
  }

  lemma HandshakeKeepsDial(s: Net, c: nat, authentic: bool, x: NodeId, y: NodeId)
    requires Inv(s) && Enabled(s, Handshake(c, authentic)) && DialInv(s, x, y)
    requires Prevails(s, x, y) && Prevails(Apply(s, Handshake(c, authentic)), x, y)
    ensures DialInv(Apply(s, Handshake(c, authentic)), x, y)
  {
    if s.conns[c].Links(x, y) {
      OwnHandshakeRegisters(s, c, authentic, x, y);
      var t := ApplyHandshake(s, c, authentic);
      assert Surviving(s, x, y, c);
      forall i | 0 <= i < |t.conns| && t.conns[i].Links(x, y)
        ensures Surviving(t, x, y, i)
      {
        assert Surviving(s, x, y, i);
      }
    } else {
      OtherHandshakeKeepsDial(s, c, authentic, x, y);
    }
  }

  /** An ending loop removes no entry but its own, and changes no end but its own. */
  lemma LoopEndsSparesOthers(s: Net, c: nat, side: Side, cause: Cause, n: NodeId, p: NodeId, i: nat)
    requires c < |s.conns| && i < |s.conns| && i != c
    ensures var t := ApplyLoopEnds(s, c, side, cause);
            && (Holds(s, n, p, i) ==> Holds(t, n, p, i))
            && (t.conns[i].out == s.conns[i].out || t.conns[i].out == HearEnd(s.conns[i].out))
            && (t.conns[i].inn == s.conns[i].inn || t.conns[i].inn == HearEnd(s.conns[i].inn))
  {
  }

  lemma LoopEndsKeepsDial(s: Net, c: nat, side: Side, cause: Cause, x: NodeId, y: NodeId)
    requires Inv(s) && Enabled(s, LoopEnds(c, side, cause)) && DialInv(s, x, y) && !s.conns[c].Links(x, y)
    requires Prevails(s, x, y)
    ensures DialInv(Apply(s, LoopEnds(c, side, cause)), x, y)
  {
    var t := ApplyLoopEnds(s, c, side, cause);
    forall i | 0 <= i < |t.conns| && t.conns[i].Links(x, y)
      ensures Surviving(t, x, y, i)
    {
      assert Surviving(s, x, y, i);
      LoopEndsSparesOthers(s, c, side, cause, x, y, i);
      LoopEndsSparesOthers(s, c, side, cause, y, x, i);
    }
    if (x, y) in s.passed && (x, y) !in s.dialing {
      LoopEndsSparesOthers(s, c, side, cause, x, y, PeersOf(s, x)[y]);
    }
  }

  lemma LoopEndsSparesSurvivor(s: Net, c: nat, side: Side, cause: Cause, x: NodeId, y: NodeId)
    requires Inv(s) && Enabled(s, LoopEnds(c, side, cause)) && DialInv(s, x, y)
    requires Prevails(s, x, y) && Prevails(Apply(s, LoopEnds(c, side, cause)), x, y)
    ensures !s.conns[c].Links(x, y)
  {
    assert s.conns[c].Links(x, y) ==> Apply(s, LoopEnds(c, side, cause)).conns[c].Links(x, y);
    assert s.conns[c].Links(x, y) ==> Surviving(s, x, y, c);
  }

  lemma AcceptKeepsDial(s: Net, c: nat, x: NodeId, y: NodeId)
    requires Inv(s) && Enabled(s, Accept(c)) && DialInv(s, x, y) && Prevails(s, x, y)
    ensures DialInv(Apply(s, Accept(c)), x, y)
  {
    var t := Apply(s, Accept(c));
    forall i | 0 <= i < |t.conns| && t.conns[i].Links(x, y)
      ensures Surviving(t, x, y, i)
    {
      assert Surviving(s, x, y, i);
    }
  }

  lemma ForgetKeepsDial(s: Net, n: NodeId, p: NodeId, x: NodeId, y: NodeId)
    requires Inv(s) && DialInv(s, x, y) && Prevails(s, x, y) && Prevails(Apply(s, Forget(n, p)), x, y)
    ensures DialInv(Apply(s, Forget(n, p)), x, y)
  {
    var t := Apply(s, Forget(n, p));
    forall i | 0 <= i < |t.conns| && t.conns[i].Links(x, y)
      ensures Surviving(t, x, y, i)
    {
      assert Surviving(s, x, y, i);
      assert i !in t.lost;
    }
  }

  lemma ShutdownKeepsDial(s: Net, n: NodeId, x: NodeId, y: NodeId)
    requires Inv(s) && DialInv(s, x, y) && Prevails(s, x, y) && Prevails(Apply(s, Shutdown(n)), x, y)
    ensures DialInv(Apply(s, Shutdown(n)), x, y)
  {
    var t := Apply(s, Shutdown(n));
    forall i | 0 <= i < |t.conns| && t.conns[i].Links(x, y)
      ensures Surviving(t, x, y, i)
    {
      assert Surviving(s, x, y, i);
      assert i !in t.lost;
    }
  }

  lemma OneStaysOne(s: Net, step: Step, x: NodeId, y: NodeId)
    requires Enabled(s, step) && Once(s, step, x, y) && s.dialing[(x, y)] <= 1
    ensures Apply(s, step).dialing[(x, y)] <= 1
  {
  }

  lemma StepKeepsDial(s: Net, step: Step, x: NodeId, y: NodeId)
    requires Inv(s) && Enabled(s, step) && Once(s, step, x, y) && DialInv(s, x, y)
    ensures DialInv(Apply(s, step), x, y)
  {
    OneStaysOne(s, step, x, y);
    if Prevails(Apply(s, step), x, y) {
      PrevailsBefore(s, step, x, y);
      match step {
        case Check(a, b) => CheckKeepsDial(s, a, b, x, y);
        case Insert(a, b) => InsertKeepsDial(s, a, b, x, y);
        case Handshake(c, authentic) => HandshakeKeepsDial(s, c, authentic, x, y);
        case LoopEnds(c, side, cause) =>
          LoopEndsSparesSurvivor(s, c, side, cause, x, y);
          LoopEndsKeepsDial(s, c, side, cause, x, y);
        case Accept(c) => AcceptKeepsDial(s, c, x, y);
        case Forget(n, p) => ForgetKeepsDial(s, n, p, x, y);
        case Shutdown(n) => ShutdownKeepsDial(s, n, x, y);
      }
    }
  }

  lemma StepKeepsLostKnown(s: Net, step: Step)
    requires Inv(s) && Enabled(s, step)
    ensures LostKnown(Apply(s, step))
  {
    match step {
      case Forget(n, p) => assert Served(s, n, p);
      case Shutdown(n) =>
        forall p | p in PeersOf(s, n)
          ensures PeersOf(s, n)[p] < |s.conns|
        {
          assert Served(s, n, p);
        }
      case _ =>
    }
  }

  lemma StepKeepsInv(s: Net, step: Step)
    requires Inv(s) && Enabled(s, step)
    ensures Inv(Apply(s, step))
  {
    StepKeepsShape(s, step);
    StepKeepsNoGhosts(s, step);
    StepKeepsLostKnown(s, step);
  }

  lemma {:induction false} RunKeepsInv(s: Net, steps: seq<Step>)
    requires Inv(s) && Legal(s, steps)
    ensures Inv(Run(s, steps))
    decreases |steps|
  {
    if steps != [] {
      StepKeepsInv(s, steps[0]);
      RunKeepsInv(Apply(s, steps[0]), steps[1..]);
    }
  }

  lemma {:induction false} RunKeepsDial(s: Net, steps: seq<Step>, x: NodeId, y: NodeId)
    requires Inv(s) && DialInv(s, x, y) && Legal(s, steps) && OneDial(s, steps, x, y)
    ensures DialInv(Run(s, steps), x, y)
    decreases |steps|
  {
    if steps != [] {
      StepKeepsInv(s, steps[0]);
      StepKeepsDial(s, steps[0], x, y);
      RunKeepsDial(Apply(s, steps[0]), steps[1..], x, y);
    }
  }

  /** In every reachable state, whatever was dialed, dropped, forgotten or shut down, each table entry
      belongs to a live loop registered with exactly that connection. */
  lemma NoGhostPeers(steps: seq<Step>)
    requires Legal(Start(), steps)
    ensures NoGhosts(Run(Start(), steps))
  {
    RunKeepsInv(Start(), steps);
  }

  lemma LoopEndsTouchesOwnEntryOnly(s: Net, c: nat, side: Side, cause: Cause, n: NodeId, p: NodeId)
    requires Inv(s) && c < |s.conns|
    requires (n, p) != (s.conns[c].Home(side), s.conns[c].Away(side)) || !Holds(s, n, p, c)
    ensures var t := ApplyLoopEnds(s, c, side, cause);
            (p in PeersOf(t, n) <==> p in PeersOf(s, n)) &&
                (p in PeersOf(s, n) ==> PeersOf(t, n)[p] == PeersOf(s, n)[p])
  {
  }

  /** A loop that ends leaves no entry of its own and every other entry of every table untouched. */
  lemma EndedLoopCleansUp(steps: seq<Step>, c: nat, side: Side, cause: Cause, n: NodeId, p: NodeId)
    requires Legal(Start(), steps) && Enabled(Run(Start(), steps), LoopEnds(c, side, cause))
    ensures var s := Run(Start(), steps);
            var t, k := Apply(s, LoopEnds(c, side, cause)), s.conns[c];
            if (n, p) == (k.Home(side), k.Away(side)) && Holds(s, n, p, c) then p !in PeersOf(t, n)
            else forall i :: Holds(t, n, p, i) <==> Holds(s, n, p, i)
  {
    var s := Run(Start(), steps);
    var k := s.conns[c];
    RunKeepsInv(Start(), steps);
    assert Served(s, n, p);
    if !((n, p) == (k.Home(side), k.Away(side)) && Holds(s, n, p, c)) {
      LoopEndsTouchesOwnEntryOnly(s, c, side, cause, n, p);
    }
  }

  /** Nothing between `x` and `y` is in flight: no dial before its insert, no unread handshake, no unread EOF. */
  ghost predicate Settled(s: Net, x: NodeId, y: NodeId) {
    && (x, y) !in s.dialing && (y, x) !in s.dialing
    && forall c :: 0 <= c < |s.conns| && (s.conns[c].Links(x, y) || s.conns[c].Links(y, x)) ==>
         (s.conns[c].out.Registered? && s.conns[c].inn.Registered?) || (s.conns[c].out.Ended? && s.conns[c].inn.Ended?)
  }

  ghost predicate BothHold(s: Net, x: NodeId, y: NodeId, c: nat) {
    c < |s.conns| && s.conns[c].Links(x, y) && Holds(s, x, y, c) && Holds(s, y, x, c)
  }

  /** Whatever else goes wrong in the cluster, and whoever else dials how often: once a pair is settled, both
      ends hold the connection of a prevailing dial that was never under way twice, and neither holds one when
      nobody dialed. */
  lemma PrevailingDialSurvives(steps: seq<Step>, a: NodeId, b: NodeId)
    requires Legal(Start(), steps) && a != b && Settled(Run(Start(), steps), a, b)
    ensures var s := Run(Start(), steps);
            && (OneDial(Start(), steps, a, b) && Prevails(s, a, b) && (a, b) in s.passed ==>
               exists c :: BothHold(s, a, b, c))
            && ((a, b) !in s.passed && (b, a) !in s.passed ==> b !in PeersOf(s, a) && a !in PeersOf(s, b))
  {
    var s := Run(Start(), steps);
    RunKeepsInv(Start(), steps);
    assert Served(s, a, b) && Served(s, b, a);
    if OneDial(Start(), steps, a, b) && Prevails(s, a, b) && (a, b) in s.passed {
      RunKeepsDial(Start(), steps, a, b);
      assert BothHold(s, a, b, PeersOf(s, a)[b]);
    }
  }

  // ---------- what was lost is gone ----------

  /** This end of `c` is over, or registered without holding the table entry: it will never hold it again. */
  ghost predicate Gone(s: Net, c: nat, side: Side) {
    c < |s.conns| &&
    var k := s.conns[c];
    k.Of(side).Ended? || (k.Of(side).Registered? && !Holds(s, k.Home(side), k.Away(side), c))
  }

  ghost predicate LostIsGone(s: Net) {
    forall c :: c in s.lost ==> Gone(s, c, Out) || Gone(s, c, In)
  }

  lemma LoopEndsKeepsGone(s: Net, i: nat, side': Side, cause: Cause, c: nat, side: Side)
    requires i < |s.conns| && Gone(s, c, side)
    ensures Gone(ApplyLoopEnds(s, i, side', cause), c, side)
  {
  }

  lemma HandshakeKeepsGone(s: Net, i: nat, authentic: bool, c: nat, side: Side)
    requires Shaped(s) && i < |s.conns| && s.conns[i].inn.Waiting? && Gone(s, c, side)
    ensures Gone(ApplyHandshake(s, i, authentic), c, side)
  {
  }

  lemma GoneIsStable(s: Net, step: Step, c: nat, side: Side)
    requires Shaped(s) && Enabled(s, step) && Gone(s, c, side)
    ensures Gone(Apply(s, step), c, side)
  {
    match step {
      case Handshake(i, authentic) => HandshakeKeepsGone(s, i, authentic, c, side);
      case LoopEnds(i, side', cause) => LoopEndsKeepsGone(s, i, side', cause, c, side);
      case Insert(a, b) => InsertKeepsGone(s, a, b, c, side);
      case Forget(n, p) => ForgetKeepsGone(s, n, p, c, side);
      case _ =>
    }
  }

  lemma InsertKeepsGone(s: Net, a: NodeId, b: NodeId, c: nat, side: Side)
    requires Enabled(s, Insert(a, b)) && Gone(s, c, side)
    ensures Gone(Apply(s, Insert(a, b)), c, side)
  {
  }

  lemma ForgetKeepsGone(s: Net, n: NodeId, p: NodeId, c: nat, side: Side)
    requires Gone(s, c, side)
    ensures Gone(Apply(s, Forget(n, p)), c, side)
  {
  }

  lemma NewlyLostIsGone(s: Net, step: Step, c: nat)
    requires Inv(s) && Enabled(s, step) && c in Apply(s, step).lost && c !in s.lost
    ensures Gone(Apply(s, step), c, Out) || Gone(Apply(s, step), c, In)
  {
    match step {
      case Forget(n, p) => assert Served(s, n, p);
      case Shutdown(n) =>
        var p :| p in PeersOf(s, n) && PeersOf(s, n)[p] == c;
        assert Served(s, n, p);
      case _ =>
    }
  }

  lemma {:induction false} RunKeepsLostGone(s: Net, steps: seq<Step>)
    requires Inv(s) && LostIsGone(s) && Legal(s, steps)
    ensures LostIsGone(Run(s, steps))
    decreases |steps|
  {
    if steps != [] {
      var t := Apply(s, steps[0]);
      forall c | c in t.lost
        ensures Gone(t, c, Out) || Gone(t, c, In)
      {
        if c !in s.lost {
          NewlyLostIsGone(s, steps[0], c);
        } else if Gone(s, c, Out) {
          GoneIsStable(s, steps[0], c, Out);
        } else {
          GoneIsStable(s, steps[0], c, In);
        }
      }
      StepKeepsInv(s, steps[0]);
      RunKeepsLostGone(t, steps[1..]);
    }
  }

  // ---------- every run of pending work ends ----------

  function EndWork(e: End): nat {
    match e
    case Pending => 3
    case Waiting(_) => 2
    case Registered(_) => 1
    case Ended => 0
  }

  function Load(conns: seq<Conn>): nat {
    if conns == [] then 0 else EndWork(conns[0].out) + EndWork(conns[0].inn) + Load(conns[1..])
  }

  lemma {:induction false} LoadUpdate(conns: seq<Conn>, i: nat, k: Conn)
    requires i < |conns|
    ensures Load(conns[i := k]) + EndWork(conns[i].out) + EndWork(conns[i].inn)
            == Load(conns) + EndWork(k.out) + EndWork(k.inn)
  {
    if i > 0 {
      assert conns[i := k][1..] == conns[1..][i - 1 := k];
      LoadUpdate(conns[1..], i - 1, k);
    } else {
      assert conns[i := k][1..] == conns[1..];
    }
  }

  lemma {:induction false} LoadAppend(conns: seq<Conn>, k: Conn)
    ensures Load(conns + [k]) == Load(conns) + EndWork(k.out) + EndWork(k.inn)
  {
    if conns != [] {
      assert (conns + [k])[1..] == conns[1..] + [k];
      LoadAppend(conns[1..], k);
    }
  }

  lemma {:induction false} LoadHear(conns: seq<Conn>, n: NodeId, p: NodeId)
    ensures Load(Hear(conns, n, p)) == Load(conns)
  {
    if conns != [] {
      assert Hear(conns, n, p)[1..] == Hear(conns[1..], n, p);
      LoadHear(conns[1..], n, p);
    }
  }

  /** What is still to happen: five steps for a dial under way, then what each end has left. */
  function Work(s: Net): nat {
    5 * |s.dialing| + Load(s.conns)
  }

  predicate IsPendingWork(step: Step) {
    step.Insert? || step.Accept? || step.Handshake? || step.LoopEnds?
  }

  lemma StepDoesWork(s: Net, step: Step)
    requires IsPendingWork(step) && Enabled(s, step)
    ensures Work(Apply(s, step)) < Work(s)
  {
    match step {
      case Insert(a, b) =>
        InsertDoesWork(s, a, b);
      case Accept(c) =>
        LoadUpdate(s.conns, c, s.conns[c].(inn := Waiting(false)));
      case Handshake(c, authentic) =>
        LoadUpdate(s.conns, c, s.conns[c].(inn := Ended));
        LoadUpdate(s.conns, c, s.conns[c].(inn := Registered(s.conns[c].inn.heard)));
      case LoopEnds(c, side, cause) =>
        LoopEndsDoesWork(s, c, side, cause);
    }
  }

  lemma InsertDoesWork(s: Net, a: NodeId, b: NodeId)
    requires Enabled(s, Insert(a, b))
    ensures Work(Apply(s, Insert(a, b))) < Work(s)
  {
    assert |s.dialing - multiset{(a, b)}| == |s.dialing| - 1;
    LoadAppend(s.conns, Conn(a, b, Registered(false), Pending));
  }

  lemma LoopEndsDoesWork(s: Net, c: nat, side: Side, cause: Cause)
    requires Enabled(s, LoopEnds(c, side, cause))
    ensures Work(ApplyLoopEnds(s, c, side, cause)) < Work(s)
  {
    var k := s.conns[c];
    LoadUpdate(s.conns, c, k.With(side, Ended));
    LoadHear(s.conns[c := k.With(side, Ended)], k.Home(side), k.Away(side));
  }

  /** Without new dials a run takes at most `Work` steps, ... */
  lemma {:induction false} PendingWorkEnds(s: Net, steps: seq<Step>)
    requires Legal(s, steps) && (forall i :: 0 <= i < |steps| ==> IsPendingWork(steps[i]))
    ensures |steps| <= Work(s)
    decreases |steps|
  {
    if steps != [] {
      StepDoesWork(s, steps[0]);
      PendingWorkEnds(Apply(s, steps[0]), steps[1..]);
    }
  }

  lemma UnsettledConnCanMove(s: Net, c: nat) returns (step: Step)
    requires Shaped(s) && c < |s.conns|
    requires var k := s.conns[c]; !(k.out.Registered? && k.inn.Registered?) && !(k.out.Ended? && k.inn.Ended?)
    ensures IsPendingWork(step) && Ordinary(step) && !(step.LoopEnds? && step.cause.Broadcast?) && Enabled(s, step)
  {
    var k := s.conns[c];
    step := if k.inn.Pending? then Accept(c)
            else if k.inn.Waiting? then Handshake(c, true)
            else LoopEnds(c, if k.out.Registered? then Out else In, Eof);
  }

  /** ... and as long as a pair is not settled some ordinary step of it can be taken. */
  lemma UnsettledCanMove(steps: seq<Step>, x: NodeId, y: NodeId) returns (step: Step)
    requires Legal(Start(), steps) && !Settled(Run(Start(), steps), x, y)
    ensures Enabled(Run(Start(), steps), step)
    ensures IsPendingWork(step) && Ordinary(step) && !(step.LoopEnds? && step.cause.Broadcast?)
  {
    var s := Run(Start(), steps);
    RunKeepsInv(Start(), steps);
    if (x, y) in s.dialing {
      return Insert(x, y);
    } else if (y, x) in s.dialing {
      return Insert(y, x);
    }
    var c :| 0 <= c < |s.conns| && (s.conns[c].Links(x, y) || s.conns[c].Links(y, x)) &&
      !((s.conns[c].out.Registered? && s.conns[c].inn.Registered?) || (s.conns[c].out.Ended? && s.conns[c].inn.Ended?));
    step := UnsettledConnCanMove(s, c);
  }

  // ---------- a broadcast can undo the tiebreak ----------

  const A := NodeId("a", "h", 1)
  const B := NodeId("b", "h", 2)

  lemma SmallerId()
    ensures Less(A.ToFull(), B.ToFull()) && !Less(B.ToFull(), A.ToFull())
  {
    assert A.ToFull()[0] == 'a' && B.ToFull()[0] == 'b';
  }

  predicate Leads(s: Net, step: Step, t: Net) {
    Enabled(s, step) && Apply(s, step) == t
  }

  lemma {:induction false} FollowOnce(states: seq<Net>, steps: seq<Step>, x: NodeId, y: NodeId)
    requires |states| == |steps| + 1 && forall i :: 0 <= i < |steps| ==> Leads(states[i], steps[i], states[i + 1])
    requires forall i :: 0 <= i < |steps| && steps[i] == Check(x, y) ==> (x, y) !in states[i].dialing
    ensures Legal(states[0], steps) && OneDial(states[0], steps, x, y)
    decreases |steps|
  {
    if steps != [] {
      assert Leads(states[0], steps[0], states[1]);
      FollowOnce(states[1..], steps[1..], x, y);
    }
  }

  lemma {:induction false} FollowStates(states: seq<Net>, steps: seq<Step>)
    requires |states| == |steps| + 1 && forall i :: 0 <= i < |steps| ==> Leads(states[i], steps[i], states[i + 1])
    ensures Legal(states[0], steps) && Run(states[0], steps) == states[|steps|]
    decreases |steps|
  {
    if steps != [] {
      assert Leads(states[0], steps[0], states[1]);
      FollowStates(states[1..], steps[1..]);
    }
  }

  /** Both dial; `A` turns `B`'s connection down, `B` reads that EOF before `A`'s handshake and evicts its
      own entry; the loop about to register `A`'s connection had already subscribed to that broadcast. */
  function BroadcastRace(): seq<Step> {
    [Check(A, B), Check(B, A), Insert(A, B), Insert(B, A), Accept(0), Accept(1), Handshake(1, true),
     LoopEnds(1, Out, Eof), Handshake(0, true), LoopEnds(0, In, Broadcast), LoopEnds(0, Out, Eof)]
  }

  /** The states of that run once both connections are open. */
  function Raced(pa: Peers, pb: Peers, in0: End, out0: End, in1: End, out1: End, lost: set<nat>): Net {
    Net(map[A := pa, B := pb], {}, multiset{}, {(A, B), (B, A)}, [Conn(A, B, out0, in0), Conn(B, A, out1, in1)], lost)
  }

  function RaceStates(): seq<Net> {
    var reg := Registered(false);
    var pa, pb := map[B := 0], map[A := 1];
    [Start(),
     Net(map[], {}, multiset{(A, B)}, {(A, B)}, [], {}),
     Net(map[], {}, multiset{(A, B), (B, A)}, {(A, B), (B, A)}, [], {}),
     Net(map[A := pa], {}, multiset{(B, A)}, {(A, B), (B, A)}, [Conn(A, B, reg, Pending)], {}),
     Raced(pa, pb, Pending, reg, Pending, reg, {}),
     Raced(pa, pb, Waiting(false), reg, Pending, reg, {}),
     Raced(pa, pb, Waiting(false), reg, Waiting(false), reg, {}),
     Raced(pa, pb, Waiting(false), reg, Ended, reg, {}),
     Raced(pa, map[], Waiting(true), reg, Ended, Ended, {}),
     Raced(pa, map[A := 0], Registered(true), reg, Ended, Ended, {}),
     Raced(pa, map[], Ended, reg, Ended, Ended, {0}),
     Raced(map[], map[], Ended, Ended, Ended, Ended, {0})]
  }

  lemma RaceBegins()
    ensures forall i :: 0 <= i < 2 ==> Leads(RaceStates()[i], BroadcastRace()[i], RaceStates()[i + 1])
  {
  }

  lemma RaceInserts()
    ensures forall i :: 2 <= i < 4 ==> Leads(RaceStates()[i], BroadcastRace()[i], RaceStates()[i + 1])
  {
    SmallerId();
  }

  lemma {:induction false} RaceGoesOn()
    ensures forall i :: 4 <= i < 8 ==> Leads(RaceStates()[i], BroadcastRace()[i], RaceStates()[i + 1])
  {
    SmallerId();
  }

  lemma RaceRegisters()
    ensures Leads(RaceStates()[8], BroadcastRace()[8], RaceStates()[9])
  {
    SmallerId();
  }

  lemma {:induction false} RaceEnds()
    ensures forall i :: 9 <= i < 11 ==> Leads(RaceStates()[i], BroadcastRace()[i], RaceStates()[i + 1])
  {
  }

  lemma RaceOutcome(s: Net)
    requires s == RaceStates()[11]
    ensures Settled(s, A, B) && (A, B) in s.passed && (B, A) in s.passed
    ensures B !in PeersOf(s, A) && A !in PeersOf(s, B) && s.lost == {0}
  {
  }

  /** No refused handshake, failure, forget or shutdown. */
  predicate Ordinary(step: Step) {
    match step
    case Handshake(_, authentic) => authentic
    case LoopEnds(_, _, cause) => !cause.Failure?
    case Forget(_, _) => false
    case Shutdown(_) => false
    case _ => true
  }

  lemma {:induction false} WholeRace() returns (states: seq<Net>, steps: seq<Step>)
    ensures states == RaceStates() && steps == BroadcastRace()
    ensures |states| == 12 && |steps| == 11 && states[0] == Start()
    ensures forall i :: 0 <= i < 11 ==> Leads(states[i], steps[i], states[i + 1])
    ensures forall i :: 0 <= i < 11 ==> Ordinary(steps[i])
  {
    RaceBegins();
    RaceInserts();
    RaceGoesOn();
    RaceRegisters();
    RaceEnds();
    states, steps := RaceStates(), BroadcastRace();
  }

  /** Only ordinary steps, one dial each, everything settled, both dialed, and yet nobody is connected. */
  lemma {:induction false} BroadcastUndoesTiebreak() returns (steps: seq<Step>)
    ensures Legal(Start(), steps) && (forall i :: 0 <= i < |steps| ==> Ordinary(steps[i]))
    ensures OneDial(Start(), steps, A, B) && OneDial(Start(), steps, B, A)
    ensures var s := Run(Start(), steps);
            && Settled(s, A, B) && (A, B) in s.passed && (B, A) in s.passed
            && B !in PeersOf(s, A) && A !in PeersOf(s, B) && s.lost == {0}
  {
    var states: seq<Net>;
    states, steps := WholeRace();
    FollowStates(states, steps);
    FollowOnce(states, steps, A, B);
    FollowOnce(states, steps, B, A);
    RaceOutcome(states[11]);
  }
}
